/** What every reachable ledger satisfies, and how one published transaction changes each read. */
module Invariants {
  import opened Prelude
  import opened Seqs
  import opened DoubleEntry
  import opened Ledger
  import opened Lifecycle

  /** Foreign keys. */
  ghost predicate Linked(l: Ledger) {
    && (forall e :: e in l.entries ==> e.txId in l.txs && e.accountId in l.accounts)
    && (forall v :: v in l.events ==> v.accountId in l.accounts)
  }

  /** Sequence numbers are exactly 1..currentSequence, in log order, in the account's currency. */
  ghost predicate StreamOk(l: Ledger, a: AccountId)
    requires a in l.accounts
  {
    var st := Stream(l, a);
    && |st| == l.accounts[a].currentSequence
    && (forall i :: 0 <= i < |st| ==> st[i].seqNo == i + 1 && st[i].currency == l.accounts[a].currency)
  }

  /** posted_at never decreases along a stream. */
  ghost predicate TimesOk(l: Ledger, a: AccountId) {
    var st := Stream(l, a);
    forall i, j :: 0 <= i < j < |st| ==> PostedAt(l.txs, st[i]) <= PostedAt(l.txs, st[j])
  }

  function FxOf(meta: Meta): Option<Fx> {
    if meta.FxMeta? then Some(Fx(meta.rate, meta.fromCurrency)) else None
  }

  /** The stored legs of a transaction still form an accepted double entry. */
  ghost predicate TxOk(l: Ledger, t: TxId)
    requires t in l.txs
  {
    && Accepted(Draft(LegsOf(l, t), FxOf(l.txs[t].meta)))
    && (l.txs[t].meta.FxMeta? ==> LegsOf(l, t)[1].currency == l.txs[t].meta.toCurrency)
  }

  /** A void transaction and the reversal that points at it cancel leg by leg. */
  ghost predicate ReversalOk(l: Ledger, r: TxId)
    requires r in l.txs && l.txs[r].meta.ReversalMeta?
  {
    var o := l.txs[r].meta.original;
    && o in l.txs && o != r
    && l.txs[o].status == Voided && !l.txs[o].meta.FxMeta?
    && LegsOf(l, r) == Flip(LegsOf(l, o))
  }

  ghost predicate Reverses(l: Ledger, r: TxId, o: TxId) {
    r in l.txs && l.txs[r].meta == ReversalMeta(o)
  }

  ghost predicate ReversalsOk(l: Ledger) {
    && (forall r :: r in l.txs && l.txs[r].meta.ReversalMeta? ==> ReversalOk(l, r))
    && (forall o :: o in l.txs && l.txs[o].status == Voided ==> exists r :: Reverses(l, r, o))
    && (forall r, q, o :: Reverses(l, r, o) && Reverses(l, q, o) ==> r == q)
  }

  ghost predicate ReferencesUnique(l: Ledger) {
    forall t, u :: t in l.txs && u in l.txs && l.txs[t].reference.Some? && l.txs[t].reference == l.txs[u].reference
      ==> t == u
  }

  ghost predicate NumbersUnique(l: Ledger) {
    forall a, b :: a in l.accounts && b in l.accounts && l.accounts[a].number == l.accounts[b].number ==> a == b
  }

  ghost predicate SnapshotOk(l: Ledger, s: Snapshot) {
    && s.accountId in l.accounts
    && 1 <= s.seqNo <= |Stream(l, s.accountId)|
    && s.balance == Total(Stream(l, s.accountId)[..s.seqNo], Delta(l.accounts[s.accountId].normalSide))
    && (forall i :: 0 <= i < s.seqNo ==> PostedAt(l.txs, Stream(l, s.accountId)[i]) <= s.createdAt)
  }

  ghost predicate SnapshotsOk(l: Ledger) {
    forall s :: s in l.snapshots ==> SnapshotOk(l, s)
  }

  ghost predicate AccountOk(l: Ledger, a: AccountId)
    requires a in l.accounts
  {
    && StreamOk(l, a)
    && TimesOk(l, a)
    && RowProjects(l.accounts[a], EventStream(l, a))
    && (l.accounts[a].status == Closed ==> Balance(l, a) == 0)
  }

  ghost predicate AccountsOk(l: Ledger) { forall a :: a in l.accounts ==> AccountOk(l, a) }

  ghost predicate TxsOk(l: Ledger) { forall t :: t in l.txs ==> TxOk(l, t) }

  ghost predicate Inv(l: Ledger) {
    && Linked(l)
    && AccountsOk(l)
    && TxsOk(l)
    && ReversalsOk(l)
    && ReferencesUnique(l)
    && NumbersUnique(l)
    && SnapshotsOk(l)
  }

  lemma {:induction false} LinkedOf(l: Ledger)
    requires Inv(l)
    ensures Linked(l)
  {
  }

  lemma {:induction false} StoredTxOk(l: Ledger, t: TxId)
    requires Inv(l) && t in l.txs
    ensures TxOk(l, t)
  {
  }

  lemma {:induction false} ReadsSound(l: Ledger)
    requires Inv(l)
    ensures AccountsOk(l) && SnapshotsOk(l)
  {
  }

  lemma {:induction false} StoredEntry(l: Ledger, t: TxId)
    requires t in l.txs && TxOk(l, t)
    ensures exists e :: e in l.entries && e.txId == t
  {
    WhereMembers(l.entries, OfTx(t));
    assert |LegsOf(l, t)| >= 2;
    assert TxEntries(l, t)[0] in TxEntries(l, t);
  }

  /** No transaction is stored without entries, and no entry without its transaction. */
  lemma {:induction false} StoredIds(l: Ledger)
    requires Inv(l)
    ensures Distinct(TxIds(l.entries))
    ensures forall t :: t in TxIds(l.entries) <==> t in l.txs
  {
    hide AccountsOk, ReversalsOk, SnapshotsOk, NumbersUnique, ReferencesUnique, TxOk, TxIds;
    TxIdsAre(l.entries);
    forall t | t in l.txs
      ensures t in TxIds(l.entries)
    {
      StoredEntry(l, t);
    }
  }

  // ----- reads under the invariant -----

  /** With contiguous numbering, "seq <= n" selects a prefix and "seq > n" the rest. */
  lemma {:induction false} SeqFilters(st: seq<Entry>, n: nat)
    requires forall i :: 0 <= i < |st| ==> st[i].seqNo == i + 1
    ensures Where(st, UpTo(n)) == if n <= |st| then st[..n] else st
    ensures Where(st, After(n)) == if n <= |st| then st[n..] else []
  {
    if n <= |st| {
      assert st == st[..n] + st[n..];
      WhereConcat(st[..n], st[n..], UpTo(n));
      WhereConcat(st[..n], st[n..], After(n));
      WhereAll(st[..n], UpTo(n));
      WhereNone(st[n..], UpTo(n));
      WhereNone(st[..n], After(n));
      WhereAll(st[n..], After(n));
    } else {
      WhereAll(st, UpTo(n));
      WhereNone(st, After(n));
    }
  }

  ghost predicate DownClosed(st: seq<Entry>, p: Entry -> bool) {
    forall i, j :: 0 <= i < j < |st| && p(st[j]) ==> p(st[i])
  }

  lemma {:induction false} DownClosedPrefix(st: seq<Entry>, p: Entry -> bool)
    requires DownClosed(st, p)
    ensures |Where(st, p)| <= |st| && Where(st, p) == st[..|Where(st, p)|]
  {
    WhereMembers(st, p);
    if st != [] {
      var front := st[..|st| - 1];
      if p(st[|st| - 1]) {
        forall e | e in st
          ensures p(e)
        {
          var i :| 0 <= i < |st| && st[i] == e;
        }
        WhereAll(st, p);
      } else {
        assert DownClosed(front, p);
        DownClosedPrefix(front, p);
        WhereMembers(front, p);
      }
    }
  }

  lemma {:induction false} NoTimeFilter(txs: map<TxId, TxRow>, st: seq<Entry>)
    ensures Where(st, PostedBy(txs, None)) == st
  {
    WhereAll(st, PostedBy(txs, None));
  }

  lemma {:induction false} NewestIsOne(snapshots: seq<Snapshot>)
    ensures Newest(snapshots) == None <==> snapshots == []
    ensures Newest(snapshots).Some? ==> Newest(snapshots).value in snapshots
    ensures Newest(snapshots).Some? ==> forall s :: s in snapshots ==> s.seqNo <= Newest(snapshots).value.seqNo
  {
    if snapshots != [] {
      NewestIsOne(snapshots[..|snapshots| - 1]);
      assert snapshots == snapshots[..|snapshots| - 1] + [snapshots[|snapshots| - 1]];
    }
  }

  lemma {:induction false} NewestUsable(l: Ledger, a: AccountId, asOf: Option<Time>)
    requires SnapshotsOk(l)
    ensures var s := NewestSnapshot(l, a, asOf);
            s.Some? ==> && s.value.accountId == a && SnapshotOk(l, s.value)
                        && (asOf.Some? ==> s.value.createdAt <= asOf.value)
  {
    WhereMembers(l.snapshots, SnapshotOf(a, asOf));
    NewestIsOne(Where(l.snapshots, SnapshotOf(a, asOf)));
  }

  /** A balance at a position plus what follows it, restricted to an instant the position precedes. */
  lemma {:induction false} SplitReplay(st: seq<Entry>, n: nat, p: Entry -> bool, w: Entry -> int)
    requires n <= |st| && forall i :: 0 <= i < n ==> p(st[i])
    ensures Total(Where(st, p), w) == Total(st[..n], w) + Total(Where(st[n..], p), w)
  {
    assert st == st[..n] + st[n..];
    WhereConcat(st[..n], st[n..], p);
    WhereAll(st[..n], p);
    TotalConcat(st[..n], Where(st[n..], p), w);
  }

  /** Snapshot-backed reads equal a full replay, now and at any instant, whatever snapshots exist. */
  lemma {:induction false} SnapshotReadIsReplay(l: Ledger, a: AccountId, asOf: Option<Time>)
    requires AccountsOk(l) && SnapshotsOk(l)
    ensures BalanceRead(l, a, asOf) == BalanceAsOf(l, a, asOf)
  {
    hide Where, Total, Newest, RowProjects, TimesOk;
    NewestUsable(l, a, asOf);
    var found := NewestSnapshot(l, a, asOf);
    if a in l.accounts && found.Some? {
      var s, st := found.value, Stream(l, a);
      assert AccountOk(l, a);
      SeqFilters(st, s.seqNo);
      SplitReplay(st, s.seqNo, PostedBy(l.txs, asOf), Delta(l.accounts[a].normalSide));
    }
  }

  lemma {:induction false} CurrentRead(l: Ledger, a: AccountId)
    requires AccountsOk(l) && SnapshotsOk(l)
    ensures BalanceRead(l, a, None) == Balance(l, a)
  {
    SnapshotReadIsReplay(l, a, None);
    if a in l.accounts {
      NoTimeFilter(l.txs, Stream(l, a));
    }
  }

  /** ORDER BY seq leaves a stream as the log holds it. */
  function BySeq(): (Entry, Entry) -> bool { (x: Entry, y: Entry) => x.seqNo <= y.seqNo }

  function Replay(l: Ledger, a: AccountId, asOf: Option<Time>): seq<Entry> {
    SortBy(Where(Stream(l, a), PostedBy(l.txs, asOf)), BySeq())
  }

  // ----- the gate -----

  /** The gate passes exactly when every account exists, has the leg's currency, is active, and stays within its
      limit. */
  ghost predicate LegAllowed(l: Ledger, leg: Leg) {
    && leg.accountId in l.accounts
    && l.accounts[leg.accountId].currency == leg.currency
    && l.accounts[leg.accountId].status == Active
    && (if leg.direction == l.accounts[leg.accountId].normalSide
        then Balance(l, leg.accountId) + leg.amount >= -l.accounts[leg.accountId].limit
        else Balance(l, leg.accountId) - leg.amount >= -l.accounts[leg.accountId].limit)
  }

  lemma {:induction false} FundsFaultExact(rows: map<AccountId, Account>, balances: map<AccountId, int>, legs: seq<Leg>)
    requires Present(rows, legs)
    ensures FundsFault(rows, balances, legs) == None <==>
      forall i :: 0 <= i < |legs| ==>
        LegFault(rows[legs[i].accountId], BalanceIn(balances, legs[i].accountId), legs[i]) == None
  {
    if legs != [] {
      var front := legs[..|legs| - 1];
      FundsFaultExact(rows, balances, front);
      assert forall i :: 0 <= i < |front| ==> front[i] == legs[i];
    }
  }

  lemma {:induction false} GateExact(l: Ledger, legs: seq<Leg>)
    requires AccountsOk(l) && SnapshotsOk(l)
    ensures Gate(l.accounts, BalancesFor(l, AccountsOf(legs), None), legs) == None <==>
      forall i :: 0 <= i < |legs| ==> LegAllowed(l, legs[i])
  {
    hide AccountsOk, SnapshotsOk, LegAllowed, LegFault, FundsFault, BalanceIn, BalancesFor;
    var balances := BalancesFor(l, AccountsOf(legs), None);
    if Present(l.accounts, legs) {
      FundsFaultExact(l.accounts, balances, legs);
      forall i | 0 <= i < |legs|
        ensures LegAllowed(l, legs[i]) <==>
          && l.accounts[legs[i].accountId].currency == legs[i].currency
          && LegFault(l.accounts[legs[i].accountId], BalanceIn(balances, legs[i].accountId), legs[i]) == None
      {
        LegGate(l, legs, i);
      }
    } else {
      forall i | 0 <= i < |legs| && legs[i].accountId !in l.accounts
        ensures !LegAllowed(l, legs[i])
      {
        UnknownRefused(l, legs[i]);
      }
    }
  }

  lemma {:induction false} UnknownRefused(l: Ledger, leg: Leg)
    requires leg.accountId !in l.accounts
    ensures !LegAllowed(l, leg)
  {
  }

  lemma {:induction false} LegGate(l: Ledger, legs: seq<Leg>, i: nat)
    requires AccountsOk(l) && SnapshotsOk(l) && i < |legs| && legs[i].accountId in l.accounts
    ensures var balances := BalancesFor(l, AccountsOf(legs), None);
            LegAllowed(l, legs[i]) <==>
              && l.accounts[legs[i].accountId].currency == legs[i].currency
              && LegFault(l.accounts[legs[i].accountId], BalanceIn(balances, legs[i].accountId), legs[i]) == None
  {
    hide AccountsOk, SnapshotsOk, BalanceRead, Balance;
    CurrentRead(l, legs[i].accountId);
    assert legs[i].accountId in AccountsOf(legs);
  }

  // ----- one published transaction -----

  lemma {:induction false} StampStream(t: TxId, legs: seq<Leg>, seqs: map<AccountId, nat>, i: nat)
    requires i < |legs| && DistinctAccounts(legs)
    requires forall j :: 0 <= j < |legs| ==> legs[j].accountId in seqs
    ensures Where(Stamp(t, legs, seqs), OfAccount(legs[i].accountId)) == [Stamp(t, legs, seqs)[i]]
  {
    WhereOne(Stamp(t, legs, seqs), OfAccount(legs[i].accountId), i);
  }

  lemma {:induction false} PublishedStream(l: Ledger, t: TxId, row: TxRow, legs: seq<Leg>, i: nat)
    requires Present(l.accounts, legs) && DistinctAccounts(legs) && i < |legs|
    ensures Stream(Publish(l, t, row, legs), legs[i].accountId) ==
      Stream(l, legs[i].accountId) + [Stamp(t, legs, NextSeqs(l.accounts, legs))[i]]
  {
    var seqs := NextSeqs(l.accounts, legs);
    WhereConcat(l.entries, Stamp(t, legs, seqs), OfAccount(legs[i].accountId));
    StampStream(t, legs, seqs, i);
  }

  lemma {:induction false} PublishedElsewhere(l: Ledger, t: TxId, row: TxRow, legs: seq<Leg>, a: AccountId)
    requires Present(l.accounts, legs) && !Uses(legs, a)
    ensures Stream(Publish(l, t, row, legs), a) == Stream(l, a)
    ensures a in l.accounts ==> Publish(l, t, row, legs).accounts[a] == l.accounts[a]
  {
    var seqs := NextSeqs(l.accounts, legs);
    WhereConcat(l.entries, Stamp(t, legs, seqs), OfAccount(a));
    WhereNone(Stamp(t, legs, seqs), OfAccount(a));
  }

  lemma {:induction false} PublishedOwnTx(l: Ledger, t: TxId, row: TxRow, legs: seq<Leg>)
    requires Linked(l) && Present(l.accounts, legs) && t !in l.txs
    ensures TxEntries(Publish(l, t, row, legs), t) == Stamp(t, legs, NextSeqs(l.accounts, legs))
    ensures LegsOf(Publish(l, t, row, legs), t) == legs
  {
    var es := Stamp(t, legs, NextSeqs(l.accounts, legs));
    WhereConcat(l.entries, es, OfTx(t));
    WhereNone(l.entries, OfTx(t));
    WhereAll(es, OfTx(t));
    assert EntryLegs(es) == legs;
  }

  lemma {:induction false} PublishedOtherTx(l: Ledger, t: TxId, row: TxRow, legs: seq<Leg>, u: TxId)
    requires Present(l.accounts, legs) && u != t
    ensures TxEntries(Publish(l, t, row, legs), u) == TxEntries(l, u)
  {
    var es := Stamp(t, legs, NextSeqs(l.accounts, legs));
    WhereConcat(l.entries, es, OfTx(u));
    WhereNone(es, OfTx(u));
  }

  lemma {:induction false} PublishedTx(l: Ledger, t: TxId, row: TxRow, legs: seq<Leg>)
    requires Linked(l) && Present(l.accounts, legs) && t !in l.txs
    ensures LegsOf(Publish(l, t, row, legs), t) == legs
    ensures forall u :: u != t ==> TxEntries(Publish(l, t, row, legs), u) == TxEntries(l, u)
  {
    hide *;
    PublishedOwnTx(l, t, row, legs);
    forall u | u != t
      ensures TxEntries(Publish(l, t, row, legs), u) == TxEntries(l, u)
    {
      PublishedOtherTx(l, t, row, legs, u);
    }
  }

  /** A leg on the account's normal side adds its amount to the balance, a leg on the other side takes it away. */
  lemma {:induction false} PublishedBalance(l: Ledger, t: TxId, row: TxRow, legs: seq<Leg>, i: nat)
    requires Present(l.accounts, legs) && DistinctAccounts(legs) && i < |legs|
    ensures var a := legs[i].accountId;
            Balance(Publish(l, t, row, legs), a) ==
              if l.accounts[a].normalSide == legs[i].direction then Balance(l, a) + legs[i].amount
              else Balance(l, a) - legs[i].amount
  {
    PublishedStream(l, t, row, legs, i);
    var a := legs[i].accountId;
    TotalSnoc(Stream(l, a), Stamp(t, legs, NextSeqs(l.accounts, legs))[i], Delta(l.accounts[a].normalSide));
  }
}
