/** Runs from the empty ledger that reach the two states the code does not guard against, and when it does. */
module Scenarios {
  import opened Prelude
  import opened Seqs
  import opened Money
  import opened DoubleEntry
  import opened Ledger
  import opened Invariants
  import opened Preservation
  import opened Growth
  import opened Effects
  import opened Audit

  // ----- one account and its vault -----

  const A: AccountId := 0
  const VAULT: AccountId := 1

  function Opened(limit: int): seq<Op> {
    [OpenAccount(A, "A", Debit, "USD", ToDecimalString(limit)), OpenVault(VAULT, "USD")]
  }

  function Paid(amount: int): Movement
    requires amount > 0
  {
    BuildMovementExact(A, amount, "USD", VAULT);
    BuildDeposit(A, amount, "USD", VAULT).value
  }

  function Withdrawn(amount: int): Movement
    requires amount > 0
  {
    BuildMovementExact(A, amount, "USD", VAULT);
    BuildWithdrawal(A, amount, "USD", VAULT).value
  }

  /** Both accounts are usable in one currency, and the vault has room. */
  ghost predicate Ready(l: Ledger, limit: int) {
    && Inv(l) && A in l.accounts && VAULT in l.accounts
    && l.accounts[A].normalSide == Debit && l.accounts[A].currency == "USD"
    && l.accounts[A].status == Active && l.accounts[A].limit == limit
    && l.accounts[VAULT].normalSide == Debit && l.accounts[VAULT].currency == "USD"
    && l.accounts[VAULT].status == Active && l.accounts[VAULT].limit == VAULT_LIMIT
  }

  lemma {:induction false} RunSnoc(l: Ledger, ops: seq<Op>, op: Op)
    ensures Run(l, ops + [op]) == Apply(Run(l, ops), op).0
    ensures TimelyRun(l, ops + [op]) <==> TimelyRun(l, ops) && Timely(Run(l, ops), op)
  {
    hide Apply, Timely;
    RunTogether(l, ops, [op]);
    assert [op][..0] == [];
  }

  lemma {:induction false} AccountOpens(limit: int)
    requires 0 <= limit <= MAX_UNITS
    ensures var l := Apply(EMPTY, Opened(limit)[0]).0;
            && l.accounts == map[A := Account("A", Debit, "USD", limit, Active, 0, [])]
            && l.txs == map[] && l.entries == []
  {
    hide ToDecimalString, FromDecimalString, MaxEventSeq, EventStream;
    ParsePrintRoundTrip(limit);
  }

  lemma {:induction false} VaultOpens(l: Ledger, limit: int)
    requires l.accounts == map[A := Account("A", Debit, "USD", limit, Active, 0, [])]
    ensures var l' := Apply(l, Opened(limit)[1]).0;
            && l'.txs == l.txs && l'.entries == l.entries
            && l'.accounts ==
                 l.accounts[VAULT := Account(VaultNumber("USD"), Debit, "USD", VAULT_LIMIT, Active, 0, [])]
  {
    hide ToDecimalString;
    assert |VaultNumber("USD")| > |"A"|;
  }

  lemma {:induction false} NobodyInDebt(l: Ledger)
    requires l.entries == [] && forall a :: a in l.accounts ==> l.accounts[a].limit >= 0
    ensures WithinLimits(l)
  {
  }

  lemma {:induction false} OpenedRuns(limit: int)
    requires 0 <= limit <= MAX_UNITS
    ensures TimelyRun(EMPTY, Opened(limit))
    ensures var l := Run(EMPTY, Opened(limit));
            Ready(l, limit) && l.txs == map[] && l.entries == [] && WithinLimits(l)
  {
    hide Inv, Apply, WithinLimits, ToDecimalString, Run, TimelyRun;
    var open, vault := Opened(limit)[0], Opened(limit)[1];
    RunSnoc(EMPTY, [], open);
    RunSnoc(EMPTY, [open], vault);
    assert [] + [open] == [open] && [open] + [vault] == Opened(limit);
    NothingRuns();
    AccountOpens(limit);
    VaultOpens(Run(EMPTY, [open]), limit);
    NobodyInDebt(Run(EMPTY, Opened(limit)));
    EmptyLedgerOk();
    RunKeeps(EMPTY, Opened(limit));
  }

  lemma {:induction false} NothingRuns()
    ensures Run(EMPTY, []) == EMPTY && TimelyRun(EMPTY, [])
  {
  }

  /** A posting without a reference goes through when its legs are allowed and its id is new. */
  lemma {:induction false} Posts(l: Ledger, t: TxId, d: Movement, kind: TxType, at: Time)
    requires Inv(l) && t !in l.txs && forall i :: 0 <= i < |d.legs| ==> LegAllowed(l, d.legs[i])
    ensures Present(l.accounts, d.legs) && DistinctAccounts(d.legs)
    ensures Apply(l, Post(t, d, kind, None, at)) == (Publish(l, t, PostHeader(d, kind, None, at), d.legs), None)
  {
    hide Inv, MovementFault, Publish;
    PostExact(l, t, d, kind, None, at);
  }

  // ----- a limit lowered below a debt -----

  function Indebted(debt: int, at: Time): seq<Op>
    requires debt > 0
  {
    Opened(debt) + [Post(0, Withdrawn(debt), WithdrawalTx, None, at)]
  }

  /** A withdrawal is allowed while the account stays within its limit and the vault is not in debt. */
  lemma {:induction false} WithdrawalAllowed(l: Ledger, limit: int, amount: int)
    requires Ready(l, limit) && amount > 0 && Balance(l, A) - amount >= -limit && Balance(l, VAULT) >= 0
    ensures Withdrawn(amount).legs == [Leg(A, Credit, amount, "USD"), Leg(VAULT, Debit, amount, "USD")]
    ensures forall i :: 0 <= i < |Withdrawn(amount).legs| ==> LegAllowed(l, Withdrawn(amount).legs[i])
  {
    hide Inv, Balance;
    BuildMovementExact(A, amount, "USD", VAULT);
  }

  lemma {:induction false} WithdrawalMoves(l: Ledger, t: TxId, row: TxRow, limit: int, amount: int)
    requires Ready(l, limit) && amount > 0 && Balance(l, A) - amount >= -limit && Balance(l, VAULT) >= 0
    requires t !in l.txs && WithinLimits(l)
    ensures Present(l.accounts, Withdrawn(amount).legs)
    ensures var l' := Publish(l, t, row, Withdrawn(amount).legs);
            && WithinLimits(l') && A in l'.accounts && l'.accounts[A].status == Active
            && Balance(l', A) == Balance(l, A) - amount
  {
    hide Inv, WithinLimits, Publish, Balance, Withdrawn, LegAllowed;
    WithdrawalAllowed(l, limit, amount);
    var legs := Withdrawn(amount).legs;
    WithdrawalAccounts(legs, amount);
    PublishKeepsLimits(l, t, row, legs);
    PublishedBalance(l, t, row, legs, 0);
    PublishedWithinLimit(l, t, row, legs, 0);
  }

  lemma {:induction false} WithdrawalAccounts(legs: seq<Leg>, amount: int)
    requires legs == [Leg(A, Credit, amount, "USD"), Leg(VAULT, Debit, amount, "USD")]
    ensures DistinctAccounts(legs)
  {
  }

  lemma {:induction false} DebtRuns(debt: int, at: Time)
    requires 0 < debt <= MAX_UNITS
    ensures TimelyRun(EMPTY, Indebted(debt, at))
    ensures var l := Run(EMPTY, Indebted(debt, at));
            WithinLimits(l) && A in l.accounts && l.accounts[A].status == Active && Balance(l, A) == -debt
  {
    hide Inv, Apply, WithinLimits, Run, TimelyRun, Opened, Publish, Balance, PostHeader, LegAllowed, Withdrawn;
    var l, d := Run(EMPTY, Opened(debt)), Withdrawn(debt);
    OpenedRuns(debt);
    RunSnoc(EMPTY, Opened(debt), Post(0, d, WithdrawalTx, None, at));
    EmptyBalances(l);
    WithdrawalAllowed(l, debt, debt);
    Posts(l, 0, d, WithdrawalTx, at);
    WithdrawalMoves(l, 0, PostHeader(d, WithdrawalTx, None, at), debt, debt);
    NobodyBefore(l, at);
  }

  lemma {:induction false} EmptyBalances(l: Ledger)
    requires l.entries == []
    ensures forall a :: Stream(l, a) == [] && Balance(l, a) == 0
  {
  }

  lemma {:induction false} NobodyBefore(l: Ledger, at: Time)
    requires l.entries == []
    ensures forall a :: PostedBefore(l, a, at)
  {
  }

  /** Nothing stops a limit from being lowered below a debt: every debt an account may run up, and every smaller
      limit, meet in a run from the empty ledger. */
  lemma {:induction false} LimitCanStrandDebt(debt: int, limit: int, at: Time)
    requires 0 <= limit < debt <= MAX_UNITS
    ensures var before, change := Indebted(debt, at), SetLimit(A, ToDecimalString(limit));
            && TimelyRun(EMPTY, before + [change])
            && WithinLimits(Run(EMPTY, before)) && !WithinLimits(Run(EMPTY, before + [change]))
  {
    hide ToDecimalString, FromDecimalString, WithinLimits, Run, TimelyRun, Indebted, NextEvent, Balance;
    var change := SetLimit(A, ToDecimalString(limit));
    DebtRuns(debt, at);
    RunSnoc(EMPTY, Indebted(debt, at), change);
    ParsePrintRoundTrip(limit);
    LimitChangeKeepsLimitsIff(Run(EMPTY, Indebted(debt, at)), A, ToDecimalString(limit));
  }

  // ----- a reported balance that its own rows contradict -----

  function TwoDeposits(first: Time, second: Time): seq<Op> {
    Opened(0) + [Post(0, Paid(1), DepositTx, None, first)] + [Post(1, Paid(1), DepositTx, None, second)]
  }

  /** One stream has one entry more, of this transaction. */
  ghost predicate OneEntryMore(st: seq<Entry>, st': seq<Entry>, t: TxId) {
    |st'| == |st| + 1 && st == st'[..|st|] && st'[|st|].txId == t
  }

  /** A deposit of one unit, with its header and its entry on the account. */
  ghost predicate OneMore(l: Ledger, l': Ledger, t: TxId, at: Time) {
    && Ready(l', 0) && Balance(l', A) == Balance(l, A) + 1 && Balance(l', VAULT) == Balance(l, VAULT) - 1
    && t in l'.txs && l'.txs == l.txs[t := l'.txs[t]] && l'.txs[t].postedAt == at
    && OneEntryMore(Stream(l, A), Stream(l', A), t) && OneEntryMore(Stream(l, VAULT), Stream(l', VAULT), t)
    && Delta(Debit)(Stream(l', A)[|Stream(l, A)|]) == 1
  }

  lemma {:induction false} PaidLegs(l: Ledger)
    requires Ready(l, 0) && Balance(l, A) >= 0 && Balance(l, VAULT) > -VAULT_LIMIT
    ensures Paid(1).legs == [Leg(A, Debit, 1, "USD"), Leg(VAULT, Credit, 1, "USD")]
    ensures forall i :: 0 <= i < |Paid(1).legs| ==> LegAllowed(l, Paid(1).legs[i])
  {
    hide Inv, Balance;
    BuildMovementExact(A, 1, "USD", VAULT);
  }

  lemma {:induction false} DepositMoves(l: Ledger, l': Ledger, t: TxId, row: TxRow, legs: seq<Leg>)
    requires legs == [Leg(A, Debit, 1, "USD"), Leg(VAULT, Credit, 1, "USD")]
    requires Ready(l, 0) && t !in l.txs && l' == Publish(l, t, row, legs) && Inv(l')
    ensures OneMore(l, l', t, row.postedAt)
  {
    hide Inv, Publish, Balance, Stream, Stamp, Delta;
    DepositStream(l, t, row, legs, 0);
    DepositStream(l, t, row, legs, 1);
    PublishedBalance(l, t, row, legs, 0);
    PublishedBalance(l, t, row, legs, 1);
    PublishedRow(l, t, row, legs, 0);
    PublishedRow(l, t, row, legs, 1);
    PublishedKeys(l, t, row, legs);
  }

  lemma {:induction false} DepositStream(l: Ledger, t: TxId, row: TxRow, legs: seq<Leg>, i: nat)
    requires legs == [Leg(A, Debit, 1, "USD"), Leg(VAULT, Credit, 1, "USD")]
    requires Present(l.accounts, legs) && i < 2
    ensures var st, st' := Stream(l, legs[i].accountId), Stream(Publish(l, t, row, legs), legs[i].accountId);
            OneEntryMore(st, st', t) && (i == 0 ==> Delta(Debit)(st'[|st|]) == 1)
  {
    hide Publish, Stream;
    PublishedStream(l, t, row, legs, i);
  }

  lemma {:induction false} DepositGoesThrough(l: Ledger, t: TxId, at: Time)
    requires Ready(l, 0) && Balance(l, A) >= 0 && Balance(l, VAULT) > -VAULT_LIMIT && t !in l.txs
    requires PostedBefore(l, A, at) && PostedBefore(l, VAULT, at)
    ensures var op := Post(t, Paid(1), DepositTx, None, at);
            Timely(l, op) && OneMore(l, Apply(l, op).0, t, at)
  {
    hide Inv, Apply, Publish, Balance, LegAllowed, PostedBefore, Paid, OneMore;
    var d := Paid(1);
    var op := Post(t, d, DepositTx, None, at);
    PaidLegs(l);
    Posts(l, t, d, DepositTx, at);
    assert Timely(l, op);
    ApplyKeeps(l, op);
    DepositMoves(l, Apply(l, op).0, t, PostHeader(d, DepositTx, None, at), d.legs);
  }

  lemma {:induction false} FirstDeposit(l: Ledger, m: Ledger, first: Time, second: Time)
    requires l.entries == [] && l.txs == map[] && OneMore(l, m, 0, first) && first <= second
    ensures Ready(m, 0) && Balance(m, A) == 1 && Balance(m, VAULT) == -1 && 1 !in m.txs
    ensures |Stream(m, A)| == 1 && Stream(m, A)[0].txId == 0 && 0 in m.txs && m.txs[0].postedAt == first
    ensures Delta(Debit)(Stream(m, A)[0]) == 1
    ensures PostedBefore(m, A, second) && PostedBefore(m, VAULT, second)
  {
    hide Ready, Stream, Balance;
    EmptyBalances(l);
  }

  lemma {:induction false} SecondDeposit(m: Ledger, n: Ledger, first: Time, second: Time)
    requires |Stream(m, A)| == 1 && Stream(m, A)[0].txId == 0 && 0 in m.txs && m.txs[0].postedAt == first
    requires OneMore(m, n, 1, second)
    ensures |Stream(n, A)| == 2 && Stream(n, A)[0] == Stream(m, A)[0] && Delta(Debit)(Stream(n, A)[1]) == 1
    ensures PostedAt(n.txs, Stream(n, A)[0]) == first && PostedAt(n.txs, Stream(n, A)[1]) == second
  {
    hide Ready, Stream, Balance;
    assert Stream(m, A)[0] == Stream(n, A)[..1][0];
  }

  lemma {:induction false} ReadySound(l: Ledger)
    requires Ready(l, 0)
    ensures Sound(l, A) && l.accounts[A].normalSide == Debit
  {
    ReadsSound(l);
  }

  lemma {:induction false} DepositsRun(first: Time, second: Time)
    requires first <= second
    ensures TimelyRun(EMPTY, TwoDeposits(first, second))
    ensures var l := Run(EMPTY, TwoDeposits(first, second));
            && Sound(l, A) && l.accounts[A].normalSide == Debit && |Stream(l, A)| == 2
            && PostedAt(l.txs, Stream(l, A)[0]) == first && PostedAt(l.txs, Stream(l, A)[1]) == second
            && Delta(Debit)(Stream(l, A)[0]) == 1 && Delta(Debit)(Stream(l, A)[1]) == 1
  {
    hide Inv, Apply, Run, TimelyRun, Timely, Opened, Balance, Paid, Stream, Ready, Sound, PostedBefore;
    var one, two := Post(0, Paid(1), DepositTx, None, first), Post(1, Paid(1), DepositTx, None, second);
    var l, m := Run(EMPTY, Opened(0)), Run(EMPTY, Opened(0) + [one]);
    var n := Run(EMPTY, TwoDeposits(first, second));
    OpenedRuns(0);
    RunSnoc(EMPTY, Opened(0), one);
    RunSnoc(EMPTY, Opened(0) + [one], two);
    EmptyBalances(l);
    NobodyBefore(l, first);
    DepositGoesThrough(l, 0, first);
    FirstDeposit(l, m, first, second);
    DepositGoesThrough(m, 1, second);
    SecondDeposit(m, n, first, second);
    assert Ready(n, 0);
    ReadySound(n);
  }

  lemma {:induction false} Cuts(l: Ledger, w: Window)
    requires Sound(l, A) && |Stream(l, A)| == 2 && CanDisagree(w)
    requires PostedAt(l.txs, Stream(l, A)[0]) == w.asOf.value && PostedAt(l.txs, Stream(l, A)[1]) == w.to.value
    ensures Opening(l, A, w.from, None) == 0 && Closing(l, A, w) == 1
    ensures Closing(l, A, Window(w.to, None, None)) == 2
  {
    hide Where, Sound, Stream;
    var st := Stream(l, A);
    WhereNone(st, Passed(l.txs, w.from, None));
    WhereOne(st, Reached(l.txs, w), 0);
    WhereAll(st, Reached(l.txs, Window(w.to, None, None)));
  }

  /** After this run, the last page of this listing ends on another balance than the one it reports. */
  ghost predicate Disagrees(ops: seq<Op>, a: AccountId, w: Window, afterSeq: Option<nat>, limit: nat) {
    var l := Run(EMPTY, ops);
    && TimelyRun(EMPTY, ops) && Sound(l, a) && CursorOk(l, a, w, afterSeq) && limit >= 1
    && var page := Page(l, a, w, afterSeq, limit);
       page.nextCursor == None && page.items != [] && page.items[|page.items| - 1].running != page.balance
  }

  lemma {:induction false} DepositsDisagree(w: Window)
    requires CanDisagree(w)
    ensures Disagrees(TwoDeposits(w.asOf.value, w.to.value), A, w, None, 1)
  {
    hide Page, History, Delta, Sound, Stream, Opening, Closing, Run, TimelyRun, TwoDeposits;
    var l := Run(EMPTY, TwoDeposits(w.asOf.value, w.to.value));
    DepositsRun(w.asOf.value, w.to.value);
    Cuts(l, w);
    PageIs(l, A, w, None, 1);
    LastPageGap(l, A, w, None, 1);
    assert Stream(l, A)[1..2] == [Stream(l, A)[1]];
    TotalOne(Stream(l, A)[1], Delta(Debit));
  }

  /** Some run ends with a last page that contradicts its own reported balance exactly when as_of lies before `to`
      and the window is open at as_of. */
  lemma {:induction false} BoundsCanDisagree(w: Window)
    ensures CanDisagree(w) <==> exists ops, a, afterSeq, limit :: Disagrees(ops, a, w, afterSeq, limit)
  {
    hide CanDisagree, Page, Sound, Run, TimelyRun, CursorOk;
    if CanDisagree(w) {
      DepositsDisagree(w);
    }
    forall ops, a, afterSeq, limit | Disagrees(ops, a, w, afterSeq, limit)
      ensures CanDisagree(w)
    {
      if !CanDisagree(w) {
        LastPageBalances(Run(EMPTY, ops), a, w, afterSeq, limit);
      }
    }
  }

  // ----- a made-up cursor -----

  lemma {:induction false} LateWindowCuts(l: Ledger, second: Time)
    requires Sound(l, A) && |Stream(l, A)| == 2
    requires PostedAt(l.txs, Stream(l, A)[0]) < second == PostedAt(l.txs, Stream(l, A)[1])
    ensures Opening(l, A, Some(second), Some(0)) == 1 && Closing(l, A, Window(None, Some(second), None)) == 2
  {
    hide Where, Sound, Stream;
    NumberedFrom(l, A);
    WhereOne(Stream(l, A), Passed(l.txs, Some(second), Some(0)), 0);
    WhereAll(Stream(l, A), Reached(l.txs, Window(None, Some(second), None)));
  }

  /** A cursor before its window misstates the running balance of a window that opens after the first deposit. */
  lemma {:induction false} CursorCanMislead(first: Time, second: Time)
    requires first < second
    ensures TimelyRun(EMPTY, TwoDeposits(first, second))
    ensures var l, w := Run(EMPTY, TwoDeposits(first, second)), Window(None, Some(second), None);
            && Sound(l, A) && |Stream(l, A)| == 2
            && var items := Page(l, A, w, Some(0), 1).items;
               |items| == 1 && items[0].entry == Stream(l, A)[1] && items[0].running != History(l, A, 2)
  {
    hide Page, History, Delta, Sound, Stream, Opening, Closing, Run, TimelyRun, TwoDeposits;
    var l, w := Run(EMPTY, TwoDeposits(first, second)), Window(None, Some(second), None);
    DepositsRun(first, second);
    LateWindowCuts(l, second);
    AnyCursorPage(l, A, w, 0, 1);
    FirstUnit(l);
  }

  lemma {:induction false} FirstUnit(l: Ledger)
    requires Sound(l, A) && l.accounts[A].normalSide == Debit && |Stream(l, A)| == 2
    requires Delta(Debit)(Stream(l, A)[0]) == 1
    ensures History(l, A, 1) == History(l, A, 0) + 1
  {
    hide History, Delta, Stream, AccountsOk, SnapshotsOk;
    HistoryStep(l, A, 0);
  }
}
