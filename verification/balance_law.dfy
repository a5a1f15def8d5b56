/** What a balance is in terms of the stored rows alone: debits and credits, and which of them add. */
module BalanceLaw {
  import opened Prelude
  import opened Seqs
  import opened DoubleEntry
  import opened Ledger
  import opened Invariants
  import opened History

  /** The debit amounts among these rows. */
  function Debits(es: seq<Entry>): int {
    if es == [] then 0
    else
      var last := es[|es| - 1];
      Debits(es[..|es| - 1]) + (if last.direction == Debit then last.amount else 0)
  }

  /** The credit amounts among these rows. */
  function Credits(es: seq<Entry>): int {
    if es == [] then 0
    else
      var last := es[|es| - 1];
      Credits(es[..|es| - 1]) + (if last.direction == Credit then last.amount else 0)
  }

  /** What these rows come to on an account of this normal side. */
  function NetOf(side: Direction, es: seq<Entry>): int {
    if side == Debit then Debits(es) - Credits(es) else Credits(es) - Debits(es)
  }

  /** On a debit-normal account debits add and credits subtract; on a credit-normal account it is the other way. */
  lemma {:induction false} RowsTotal(es: seq<Entry>)
    ensures Total(es, Delta(Debit)) == Debits(es) - Credits(es)
    ensures Total(es, Delta(Credit)) == Credits(es) - Debits(es)
  {
    if es != [] {
      RowsTotal(es[..|es| - 1]);
    }
  }

  /** The balance of a debit-normal account is what was debited to it minus what was credited to it, and of a
      credit-normal account the opposite; an unknown account has none. */
  lemma {:induction false} BalanceIsDebitsMinusCredits(l: Ledger, a: AccountId)
    ensures a in l.accounts && l.accounts[a].normalSide == Debit ==>
      Balance(l, a) == Debits(Stream(l, a)) - Credits(Stream(l, a))
    ensures a in l.accounts && l.accounts[a].normalSide == Credit ==>
      Balance(l, a) == Credits(Stream(l, a)) - Debits(Stream(l, a))
    ensures a !in l.accounts ==> Balance(l, a) == 0
  {
    hide Stream, Delta;
    RowsTotal(Stream(l, a));
  }

  /** A filter keeps every row it admits as often as it is stored, and no other row. */
  lemma {:induction false} WhereCounts<T>(xs: seq<T>, p: T -> bool, x: T)
    ensures multiset(Where(xs, p))[x] == if p(x) then multiset(xs)[x] else 0
  {
    if xs != [] {
      WhereCounts(xs[..|xs| - 1], p, x);
      assert xs == xs[..|xs| - 1] + [xs[|xs| - 1]];
    }
  }

  /** A stream is exactly the account's rows of the log, each as often as it is stored. */
  lemma {:induction false} StreamRows(l: Ledger, a: AccountId, e: Entry)
    ensures multiset(Stream(l, a))[e] == if e.accountId == a then multiset(l.entries)[e] else 0
  {
    WhereCounts(l.entries, OfAccount(a), e);
  }

  /** A balance read, at any instant and whatever snapshots back it, is debits and credits over exactly the account's
      rows whose transactions were posted by then. */
  lemma {:induction false} ReadLaw(l: Ledger, a: AccountId, asOf: Option<Time>)
    requires Inv(l) && a in l.accounts
    ensures var rows := Replay(l, a, asOf);
            && BalanceRead(l, a, asOf) == NetOf(l.accounts[a].normalSide, rows)
            && (forall e :: e in rows <==>
                  && e in l.entries && e.accountId == a && e.txId in l.txs
                  && (asOf.Some? ==> l.txs[e.txId].postedAt <= asOf.value))
  {
    hide Where, SortBy, AccountsOk, SnapshotsOk, TxsOk, ReversalsOk, Delta;
    AsOfSelectsPrefix(l, a, asOf);
    SnapshotReadIsReplay(l, a, asOf);
    RowsTotal(Replay(l, a, asOf));
    WhereMembers(l.entries, OfAccount(a));
    WhereMembers(Stream(l, a), PostedBy(l.txs, asOf));
    forall e | e in l.entries && e.accountId == a
      ensures e.txId in l.txs && PostedAt(l.txs, e) == l.txs[e.txId].postedAt
    {
    }
  }

  // ----- the gate -----

  /** Why a leg on an existing account of its currency is refused. */
  predicate RefusedFor(l: Ledger, leg: Leg, e: Error)
    requires leg.accountId in l.accounts
  {
    var row := l.accounts[leg.accountId];
    var b := Balance(l, leg.accountId);
    match e
    case AccountFrozen => row.status == Frozen
    case AccountClosed => row.status == Closed
    case InsufficientFunds =>
      row.status == Active && (if leg.direction == row.normalSide then b + leg.amount else b - leg.amount) < -row.limit
    case _ => false
  }

  lemma {:induction false} FirstRefusal(rows: map<AccountId, Account>, balances: map<AccountId, int>, legs: seq<Leg>)
    requires Present(rows, legs) && FundsFault(rows, balances, legs).Some?
    ensures exists i :: 0 <= i < |legs| && FirstAt(rows, balances, legs, i)
  {
    var front, last := legs[..|legs| - 1], legs[|legs| - 1];
    if FundsFault(rows, balances, front).Some? {
      FirstRefusal(rows, balances, front);
      var i :| 0 <= i < |front| && FirstAt(rows, balances, front, i);
      assert legs[..i] == front[..i];
      assert FirstAt(rows, balances, legs, i);
    } else {
      assert legs[..|legs| - 1] == front;
      assert FirstAt(rows, balances, legs, |legs| - 1);
    }
  }

  predicate FirstAt(rows: map<AccountId, Account>, balances: map<AccountId, int>, legs: seq<Leg>, i: nat)
    requires Present(rows, legs) && i < |legs|
  {
    && FundsFault(rows, balances, legs[..i]) == None
    && LegFault(rows[legs[i].accountId], BalanceIn(balances, legs[i].accountId), legs[i]) ==
         FundsFault(rows, balances, legs)
    && FundsFault(rows, balances, legs).Some?
  }

  lemma {:induction false} RefusalMeans(l: Ledger, legs: seq<Leg>, i: nat)
    requires AccountsOk(l) && SnapshotsOk(l) && i < |legs| && legs[i].accountId in l.accounts
    ensures var fault := LegFault(l.accounts[legs[i].accountId],
                                  BalanceIn(BalancesFor(l, AccountsOf(legs), None), legs[i].accountId), legs[i]);
            fault.Some? ==> RefusedFor(l, legs[i], fault.value)
  {
    hide AccountsOk, SnapshotsOk, BalanceRead, Balance;
    CurrentRead(l, legs[i].accountId);
    assert legs[i].accountId in AccountsOf(legs);
  }

  lemma {:induction false} EarlierAllowed(l: Ledger, legs: seq<Leg>, i: nat)
    requires AccountsOk(l) && SnapshotsOk(l) && i < |legs|
    requires Present(l.accounts, legs) && CurrenciesMatch(l.accounts, legs)
    requires FundsFault(l.accounts, BalancesFor(l, AccountsOf(legs), None), legs[..i]) == None
    ensures forall j :: 0 <= j < i ==> LegAllowed(l, legs[j])
  {
    hide AccountsOk, SnapshotsOk, BalancesFor, BalanceIn, LegFault, LegAllowed, FundsFault, AccountsOf;
    var balances := BalancesFor(l, AccountsOf(legs), None);
    FundsFaultExact(l.accounts, balances, legs[..i]);
    forall j | 0 <= j < i
      ensures LegAllowed(l, legs[j])
    {
      assert legs[..i][j] == legs[j];
      LegGate(l, legs, j);
    }
  }

  lemma {:induction false} FundsCodes(l: Ledger, legs: seq<Leg>) returns (i: nat)
    requires AccountsOk(l) && SnapshotsOk(l) && Present(l.accounts, legs) && CurrenciesMatch(l.accounts, legs)
    requires FundsFault(l.accounts, BalancesFor(l, AccountsOf(legs), None), legs).Some?
    ensures i < |legs|
    ensures RefusedFor(l, legs[i], FundsFault(l.accounts, BalancesFor(l, AccountsOf(legs), None), legs).value)
    ensures forall j :: 0 <= j < i ==> LegAllowed(l, legs[j])
  {
    hide AccountsOk, SnapshotsOk, BalancesFor, BalanceIn, LegFault, LegAllowed, FundsFault, AccountsOf, RefusedFor;
    var balances := BalancesFor(l, AccountsOf(legs), None);
    FirstRefusal(l.accounts, balances, legs);
    i :| 0 <= i < |legs| && FirstAt(l.accounts, balances, legs, i);
    RefusalMeans(l, legs, i);
    EarlierAllowed(l, legs, i);
  }

  /** Which error the gate gives: a missing account before a wrong currency, and both before the first leg whose
      account is frozen, closed or short of funds. */
  lemma {:induction false} GateCodes(l: Ledger, legs: seq<Leg>)
    requires Inv(l)
    ensures var gate := Gate(l.accounts, BalancesFor(l, AccountsOf(legs), None), legs);
            && (gate == Some(AccountNotFound) <==> exists i :: 0 <= i < |legs| && legs[i].accountId !in l.accounts)
            && (gate == Some(CurrencyMismatch) <==>
                  && (forall i :: 0 <= i < |legs| ==> legs[i].accountId in l.accounts)
                  && (exists i :: 0 <= i < |legs| && l.accounts[legs[i].accountId].currency != legs[i].currency))
            && (gate.Some? && gate.value != AccountNotFound && gate.value != CurrencyMismatch ==>
                  exists i :: 0 <= i < |legs| && legs[i].accountId in l.accounts && RefusedFor(l, legs[i], gate.value)
                    && forall j :: 0 <= j < i ==> LegAllowed(l, legs[j]))
  {
    hide Inv, AccountsOk, SnapshotsOk, BalancesFor, LegAllowed, FundsFault, AccountsOf;
    ReadsSound(l);
    if Present(l.accounts, legs) && CurrenciesMatch(l.accounts, legs)
       && FundsFault(l.accounts, BalancesFor(l, AccountsOf(legs), None), legs).Some? {
      var i := FundsCodes(l, legs);
    }
  }
}
