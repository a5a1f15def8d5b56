/** History only grows: what one operation, and any run of operations, can never take back. */
module Growth {
  import opened Prelude
  import opened Seqs
  import opened Money
  import opened DoubleEntry
  import opened Ledger
  import opened Invariants
  import opened Preservation

  /** An account keeps its identity and its streams as prefixes; once closed it never changes again. */
  ghost predicate AccountGrows(l: Ledger, l': Ledger, a: AccountId)
    requires a in l.accounts
  {
    && a in l'.accounts
    && l'.accounts[a].number == l.accounts[a].number
    && l'.accounts[a].normalSide == l.accounts[a].normalSide
    && l'.accounts[a].currency == l.accounts[a].currency
    && Stream(l, a) <= Stream(l', a)
    && EventStream(l, a) <= EventStream(l', a)
    && (l.accounts[a].status == Closed ==>
          && l'.accounts[a] == l.accounts[a]
          && Stream(l', a) == Stream(l, a)
          && EventStream(l', a) == EventStream(l, a))
  }

  /** A transaction keeps everything but its status, and void is final. */
  ghost predicate TxGrows(l: Ledger, l': Ledger, t: TxId)
    requires t in l.txs
  {
    && t in l'.txs
    && l'.txs[t].(status := Posted) == l.txs[t].(status := Posted)
    && (l.txs[t].status == Voided ==> l'.txs[t].status == Voided)
    && TxEntries(l', t) == TxEntries(l, t)
  }

  ghost predicate Grows(l: Ledger, l': Ledger) {
    && (forall a :: a in l.accounts ==> AccountGrows(l, l', a))
    && (forall t :: t in l.txs ==> TxGrows(l, l', t))
    && l.entries <= l'.entries && l.events <= l'.events && l.snapshots <= l'.snapshots
  }

  lemma {:induction false} TimeCarries(l: Ledger, l': Ledger, e: Entry)
    requires e.txId in l.txs && Grows(l, l')
    ensures PostedAt(l'.txs, e) == PostedAt(l.txs, e)
  {
    assert TxGrows(l, l', e.txId);
    assert l'.txs[e.txId].(status := Posted).postedAt == l'.txs[e.txId].postedAt;
  }

  lemma {:induction false} GrowsSelf(l: Ledger)
    ensures Grows(l, l)
  {
  }

  lemma {:induction false} AccountGrowsOn(l: Ledger, m: Ledger, n: Ledger, a: AccountId)
    requires a in l.accounts && AccountGrows(l, m, a) && AccountGrows(m, n, a)
    ensures AccountGrows(l, n, a)
  {
  }

  lemma {:induction false} GrowsOn(l: Ledger, m: Ledger, n: Ledger)
    requires Grows(l, m) && Grows(m, n)
    ensures Grows(l, n)
  {
    forall a | a in l.accounts
      ensures AccountGrows(l, n, a)
    {
      AccountGrowsOn(l, m, n, a);
    }
    forall t | t in l.txs
      ensures TxGrows(l, n, t)
    {
      assert TxGrows(l, m, t) && TxGrows(m, n, t);
    }
  }

  lemma {:induction false} PublishGrowsAccount(l: Ledger, t: TxId, row: TxRow, legs: seq<Leg>, a: AccountId)
    requires Present(l.accounts, legs) && a in l.accounts
    requires forall i :: 0 <= i < |legs| ==> LegAllowed(l, legs[i])
    ensures AccountGrows(l, Publish(l, t, row, legs), a)
  {
    var l' := Publish(l, t, row, legs);
    WherePrefix(l.entries, l'.entries, OfAccount(a));
    if l.accounts[a].status == Closed {
      assert !Uses(legs, a);
      PublishedElsewhere(l, t, row, legs, a);
    }
  }

  lemma {:induction false} PublishGrows(l: Ledger, t: TxId, row: TxRow, legs: seq<Leg>)
    requires Linked(l) && Present(l.accounts, legs) && t !in l.txs
    requires forall i :: 0 <= i < |legs| ==> LegAllowed(l, legs[i])
    ensures Grows(l, Publish(l, t, row, legs))
  {
    forall a | a in l.accounts
      ensures AccountGrows(l, Publish(l, t, row, legs), a)
    {
      PublishGrowsAccount(l, t, row, legs, a);
    }
    PublishedTx(l, t, row, legs);
  }

  lemma {:induction false} MarkGrows(l: Ledger, target: TxId)
    requires target in l.txs
    ensures Grows(l, Mark(l, target))
  {
    forall t | t in l.txs
      ensures TxGrows(l, Mark(l, target), t)
    {
      assert TxEntries(Mark(l, target), t) == TxEntries(l, t);
    }
    forall a | a in l.accounts
      ensures AccountGrows(l, Mark(l, target), a)
    {
      assert Stream(Mark(l, target), a) == Stream(l, a);
      assert EventStream(Mark(l, target), a) == EventStream(l, a);
    }
  }

  lemma {:induction false} RowChangeGrows(l: Ledger, l': Ledger, a: AccountId)
    requires RowChange(l, l', a)
    requires a in l.accounts ==> l.accounts[a].status != Closed && l'.accounts[a].number == l.accounts[a].number
    ensures Grows(l, l')
  {
    forall b | b in l.accounts
      ensures AccountGrows(l, l', b)
    {
      WherePrefix(l.events, l'.events, EventOf(b));
      if b != a { RowChangeEvents(l, l', a, b); }
      assert Stream(l', b) == Stream(l, b);
    }
    forall t | t in l.txs
      ensures TxGrows(l, l', t)
    {
      assert TxEntries(l', t) == TxEntries(l, t);
    }
  }

  lemma {:induction false} PostGrows(l: Ledger, t: TxId, d: Movement, kind: TxType, reference: Option<string>, at: Time)
    requires Inv(l)
    ensures Grows(l, ApplyPost(l, t, d, kind, reference, at).0)
  {
    GrowsSelf(l);
    var row := PostHeader(d, kind, reference, at);
    MovementFaultExact(l, t, row, d.legs);
    if MovementFault(l, t, row, d.legs) == None {
      PublishGrows(l, t, row, d.legs);
    }
  }

  lemma {:induction false} VoidGrows(l: Ledger, t: TxId, target: TxId, at: Time)
    requires Inv(l)
    ensures Grows(l, ApplyVoid(l, t, target, at).0)
  {
    GrowsSelf(l);
    if ApplyVoid(l, t, target, at).1 == None {
      VoidSucceeds(l, t, target, at);
      var row, legs := ReversalHeader(target, at), Flip(LegsOf(l, target));
      OfAccepts(legs);
      MovementFaultExact(l, t, row, legs);
      PublishGrows(l, t, row, legs);
      MarkGrows(Publish(l, t, row, legs), target);
      GrowsOn(l, Publish(l, t, row, legs), Mark(Publish(l, t, row, legs), target));
    }
  }

  lemma {:induction false} AmendIsRowChange(l: Ledger, a: AccountId, row: Account, v: Event)
    requires a in l.accounts && v.accountId == a
    requires row.normalSide == l.accounts[a].normalSide && row.currency == l.accounts[a].currency
    requires row.currentSequence == l.accounts[a].currentSequence
    ensures RowChange(l, Amend(l, a, row, v), a)
  {
    assert Amend(l, a, row, v).events == l.events + [v];
  }

  lemma {:induction false} StatusIsRowChange(l: Ledger, a: AccountId, to: Status)
    requires ApplyStatus(l, a, to).0 != l
    ensures a in l.accounts && l.accounts[a].status != Closed
    ensures RowChange(l, ApplyStatus(l, a, to).0, a)
  {
    hide BalanceRead, MaxEventSeq, EventStream;
    var change := Transition(l.accounts[a].status, to);
    var v := NextEvent(l, a, StatusEvent(to), Some(change), None);
    AmendIsRowChange(l, a, ApplyStatus(l, a, to).0.accounts[a], v);
  }

  lemma {:induction false} LimitIsRowChange(l: Ledger, a: AccountId, limit: string)
    requires ApplyLimit(l, a, limit).1 == None
    ensures a in l.accounts && l.accounts[a].status != Closed
    ensures RowChange(l, ApplyLimit(l, a, limit).0, a)
  {
    hide FromDecimalString, ToDecimalString, MaxEventSeq, EventStream;
    var v := NextEvent(l, a, LimitChanged, None, Some(ToDecimalString(FromDecimalString(limit).value)));
    AmendIsRowChange(l, a, ApplyLimit(l, a, limit).0.accounts[a], v);
  }

  lemma {:induction false} OpenIsRowChange(l: Ledger, a: AccountId, number: string, side: Direction,
        currency: Currency, limit: string)
    requires ApplyOpen(l, a, number, side, currency, limit).1 == None
    ensures a !in l.accounts
    ensures RowChange(l, ApplyOpen(l, a, number, side, currency, limit).0, a)
  {
    hide FromDecimalString, MaxEventSeq, EventStream;
    var v := NextEvent(l, a, AccountOpened, None, Some(limit));
    OpenedIsRowChange(l, a, ApplyOpen(l, a, number, side, currency, limit).0.accounts[a], v);
  }

  lemma {:induction false} VaultIsRowChange(l: Ledger, a: AccountId, currency: Currency)
    requires ApplyVault(l, a, currency).0 != l
    ensures a !in l.accounts && RowChange(l, ApplyVault(l, a, currency).0, a)
  {
  }

  /** Every operation that moves no money changes one account row and appends at most one event for it. */
  lemma {:induction false} RowOperationIsRowChange(l: Ledger, op: Op)
    requires op.SetStatus? || op.SetLimit? || op.OpenAccount? || op.OpenVault?
    requires Apply(l, op).0 != l
    ensures RowChange(l, Apply(l, op).0, op.account)
    ensures op.account in l.accounts ==>
      && l.accounts[op.account].status != Closed
      && Apply(l, op).0.accounts[op.account].number == l.accounts[op.account].number
  {
    hide RowChange, FromDecimalString, ToDecimalString, EventStream, MaxEventSeq, BalanceRead, HasNumber;
    match op
    case SetStatus(a, to) => StatusIsRowChange(l, a, to);
    case SetLimit(a, limit) => LimitIsRowChange(l, a, limit);
    case OpenAccount(a, number, side, currency, limit) => OpenIsRowChange(l, a, number, side, currency, limit);
    case OpenVault(a, currency) => VaultIsRowChange(l, a, currency);
  }

  lemma {:induction false} SnapshotGrows(l: Ledger, a: AccountId, n: int, at: Time)
    ensures Grows(l, ApplySnapshot(l, a, n, at).0)
  {
    var l' := ApplySnapshot(l, a, n, at).0;
    forall b | b in l.accounts
      ensures AccountGrows(l, l', b)
    {
      assert Stream(l', b) == Stream(l, b) && EventStream(l', b) == EventStream(l, b);
    }
    forall t | t in l.txs
      ensures TxGrows(l, l', t)
    {
      assert TxEntries(l', t) == TxEntries(l, t);
    }
  }

  lemma {:induction false} ApplyGrows(l: Ledger, op: Op)
    requires Inv(l)
    ensures Grows(l, Apply(l, op).0)
  {
    hide Grows, Inv, RowChange;
    GrowsSelf(l);
    if op.Post? {
      PostGrows(l, op.id, op.tx, op.kind, op.reference, op.at);
    } else if op.VoidTx? {
      VoidGrows(l, op.id, op.target, op.at);
    } else if op.TakeSnapshot? {
      SnapshotGrows(l, op.account, op.seqNo, op.at);
    } else if Apply(l, op).0 != l {
      RowOperationIsRowChange(l, op);
      RowChangeGrows(l, Apply(l, op).0, op.account);
    }
  }

  /** Append-only over whole runs: every earlier stream, header and closed account survives as it was. */
  lemma {:induction false} RunGrows(l: Ledger, ops: seq<Op>)
    requires Inv(l) && TimelyRun(l, ops)
    ensures Grows(l, Run(l, ops))
  {
    if ops == [] {
      GrowsSelf(l);
    } else {
      var front := ops[..|ops| - 1];
      RunGrows(l, front);
      RunKeeps(l, front);
      ApplyGrows(Run(l, front), ops[|ops| - 1]);
      GrowsOn(l, Run(l, front), Run(l, ops));
    }
  }

  // ----- limits -----

  ghost predicate WithinLimit(l: Ledger, a: AccountId) {
    a in l.accounts && Balance(l, a) >= -l.accounts[a].limit
  }

  ghost predicate WithinLimits(l: Ledger) {
    forall a :: a in l.accounts ==> WithinLimit(l, a)
  }

  /** Every committed movement leaves each touched account active and within its limit. */
  lemma {:induction false} PublishedWithinLimit(l: Ledger, t: TxId, row: TxRow, legs: seq<Leg>, i: nat)
    requires Present(l.accounts, legs) && DistinctAccounts(legs) && i < |legs| && LegAllowed(l, legs[i])
    ensures var l' := Publish(l, t, row, legs);
            WithinLimit(l', legs[i].accountId) && l'.accounts[legs[i].accountId].status == Active
  {
    PublishedBalance(l, t, row, legs, i);
    PublishedRow(l, t, row, legs, i);
  }

  lemma {:induction false} PublishKeepsLimits(l: Ledger, t: TxId, row: TxRow, legs: seq<Leg>)
    requires Present(l.accounts, legs) && DistinctAccounts(legs) && WithinLimits(l)
    requires forall i :: 0 <= i < |legs| ==> LegAllowed(l, legs[i])
    ensures WithinLimits(Publish(l, t, row, legs))
  {
    var l' := Publish(l, t, row, legs);
    forall a | a in l'.accounts
      ensures WithinLimit(l', a)
    {
      if Uses(legs, a) {
        var i :| 0 <= i < |legs| && legs[i].accountId == a;
        PublishedWithinLimit(l, t, row, legs, i);
      } else {
        PublishedElsewhere(l, t, row, legs, a);
        assert WithinLimit(l, a);
      }
    }
  }

  lemma {:induction false} SameMoneyKeepsLimits(l: Ledger, l': Ledger)
    requires WithinLimits(l) && l'.entries == l.entries && Linked(l)
    requires forall a :: a in l'.accounts ==>
      if a in l.accounts
      then l'.accounts[a].limit == l.accounts[a].limit && l'.accounts[a].normalSide == l.accounts[a].normalSide
      else l'.accounts[a].limit >= 0
    ensures WithinLimits(l')
  {
    forall a | a in l'.accounts
      ensures WithinLimit(l', a)
    {
      assert Stream(l', a) == Stream(l, a);
      if a in l.accounts { assert WithinLimit(l, a); } else { FreshAccount(l, a); }
    }
  }

  /** A limit change keeps every account within its limit exactly when the new limit covers the current debt. */
  lemma {:induction false} LimitChangeKeepsLimitsIff(l: Ledger, a: AccountId, limit: string)
    requires WithinLimits(l) && ApplyLimit(l, a, limit).1 == None
    ensures WithinLimits(ApplyLimit(l, a, limit).0) <==> Balance(l, a) >= -FromDecimalString(limit).value
  {
    var l' := ApplyLimit(l, a, limit).0;
    assert forall b :: Stream(l', b) == Stream(l, b);
    forall b | b in l.accounts && b != a
      ensures WithinLimit(l', b)
    {
      assert WithinLimit(l, b);
    }
    assert WithinLimit(l', a) <==> Balance(l, a) >= -FromDecimalString(limit).value;
  }

  /** Lowering a limit never looks at the balance; a change respects the debt when the new limit covers it. */
  ghost predicate RespectsDebt(l: Ledger, op: Op) {
    match op
    case SetLimit(a, limit) =>
      ApplyLimit(l, a, limit).1 == None ==> Balance(l, a) >= -FromDecimalString(limit).value
    case _ => true
  }

  lemma {:induction false} PostKeepsLimits(l: Ledger, t: TxId, d: Movement, row: TxRow)
    requires Inv(l) && WithinLimits(l) && MovementFault(l, t, row, d.legs) == None
    ensures Present(l.accounts, d.legs) && WithinLimits(Publish(l, t, row, d.legs))
  {
    hide Inv, MovementFault, WithinLimits, LegAllowed, Publish;
    MovementFaultExact(l, t, row, d.legs);
    AllowedPresent(l, d.legs);
    PublishKeepsLimits(l, t, row, d.legs);
  }

  lemma {:induction false} AllowedPresent(l: Ledger, legs: seq<Leg>)
    requires forall i :: 0 <= i < |legs| ==> LegAllowed(l, legs[i])
    ensures Present(l.accounts, legs)
  {
  }

  lemma {:induction false} VoidKeepsLimits(l: Ledger, t: TxId, target: TxId, at: Time)
    requires Inv(l) && WithinLimits(l) && ApplyVoid(l, t, target, at).1 == None
    ensures WithinLimits(ApplyVoid(l, t, target, at).0)
  {
    hide Inv, MovementFault, WithinLimits, Of, Publish, LegsOf;
    VoidSucceeds(l, t, target, at);
    var row, legs := ReversalHeader(target, at), Flip(LegsOf(l, target));
    OfAccepts(legs);
    PostKeepsLimits(l, t, Draft(legs, None), row);
    PublishedKeys(l, t, row, legs);
    MarkKeepsLimits(Publish(l, t, row, legs), target);
  }

  lemma {:induction false} PublishedKeys(l: Ledger, t: TxId, row: TxRow, legs: seq<Leg>)
    requires Present(l.accounts, legs)
    ensures Publish(l, t, row, legs).accounts.Keys == l.accounts.Keys
    ensures Publish(l, t, row, legs).txs == l.txs[t := row]
  {
  }

  lemma {:induction false} MovementKeepsLimits(l: Ledger, op: Op)
    requires Inv(l) && WithinLimits(l) && (op.Post? || op.VoidTx?)
    ensures WithinLimits(Apply(l, op).0)
  {
    hide Inv, WithinLimits, MovementFault, Publish, ApplyVoid;
    if op.Post? {
      var row := PostHeader(op.tx, op.kind, op.reference, op.at);
      if MovementFault(l, op.id, row, op.tx.legs) == None {
        PostKeepsLimits(l, op.id, op.tx, row);
      }
    } else if ApplyVoid(l, op.id, op.target, op.at).1 == None {
      VoidKeepsLimits(l, op.id, op.target, op.at);
    } else {
      RefusalChangesNothing(l, op);
    }
  }

  lemma {:induction false} MarkKeepsLimits(l: Ledger, target: TxId)
    requires target in l.txs && WithinLimits(l)
    ensures WithinLimits(Mark(l, target))
  {
    forall a | a in l.accounts
      ensures WithinLimit(Mark(l, target), a)
    {
      assert WithinLimit(l, a);
      assert Stream(Mark(l, target), a) == Stream(l, a);
    }
  }

  lemma {:induction false} OperationKeepsLimits(l: Ledger, op: Op)
    requires Inv(l) && WithinLimits(l) && RespectsDebt(l, op)
    ensures WithinLimits(Apply(l, op).0)
  {
    if op.Post? || op.VoidTx? {
      MovementKeepsLimits(l, op);
    } else {
      RowOperationKeepsLimits(l, op);
    }
  }

  lemma {:induction false} RowOperationKeepsLimits(l: Ledger, op: Op)
    requires Inv(l) && WithinLimits(l) && RespectsDebt(l, op) && !op.Post? && !op.VoidTx?
    ensures WithinLimits(Apply(l, op).0)
  {
    hide WithinLimits, Linked;
    match op
    case SetLimit(a, limit) =>
      if ApplyLimit(l, a, limit).1 == None { LimitChangeKeepsLimitsIff(l, a, limit); }
    case SetStatus(a, to) => StatusKeepsLimits(l, a, to);
    case OpenAccount(a, number, side, currency, limit) => OpenKeepsLimits(l, a, number, side, currency, limit);
    case OpenVault(a, currency) => VaultKeepsLimits(l, a, currency);
    case TakeSnapshot(a, n, at) => SnapshotKeepsLimits(l, a, n, at);
  }

  lemma {:induction false} StatusKeepsLimits(l: Ledger, a: AccountId, to: Status)
    requires Linked(l) && WithinLimits(l)
    ensures WithinLimits(ApplyStatus(l, a, to).0)
  {
    hide WithinLimits, Linked;
    SameMoneyKeepsLimits(l, ApplyStatus(l, a, to).0);
  }

  lemma {:induction false} OpenKeepsLimits(l: Ledger, a: AccountId, number: string, side: Direction,
        currency: Currency, limit: string)
    requires Linked(l) && WithinLimits(l)
    ensures WithinLimits(ApplyOpen(l, a, number, side, currency, limit).0)
  {
    hide WithinLimits, Linked, FromDecimalString, HasNumber, EventStream, MaxEventSeq, IsoCurrency;
    SameMoneyKeepsLimits(l, ApplyOpen(l, a, number, side, currency, limit).0);
  }

  lemma {:induction false} VaultKeepsLimits(l: Ledger, a: AccountId, currency: Currency)
    requires Linked(l) && WithinLimits(l)
    ensures WithinLimits(ApplyVault(l, a, currency).0)
  {
    hide WithinLimits, Linked, HasNumber, IsoCurrency;
    SameMoneyKeepsLimits(l, ApplyVault(l, a, currency).0);
  }

  lemma {:induction false} SnapshotKeepsLimits(l: Ledger, a: AccountId, n: int, at: Time)
    requires Linked(l) && WithinLimits(l)
    ensures WithinLimits(ApplySnapshot(l, a, n, at).0)
  {
    hide WithinLimits, Linked;
    SameMoneyKeepsLimits(l, ApplySnapshot(l, a, n, at).0);
  }

  ghost predicate DebtRespectingRun(l: Ledger, ops: seq<Op>) {
    ops != [] ==>
      && DebtRespectingRun(l, ops[..|ops| - 1])
      && RespectsDebt(Run(l, ops[..|ops| - 1]), ops[|ops| - 1])
  }

  /** Overdraft safety over whole runs in which every limit change respects the current debt. */
  lemma {:induction false} RunKeepsLimits(l: Ledger, ops: seq<Op>)
    requires Inv(l) && WithinLimits(l) && TimelyRun(l, ops) && DebtRespectingRun(l, ops)
    ensures WithinLimits(Run(l, ops))
  {
    if ops != [] {
      var front := ops[..|ops| - 1];
      RunKeepsLimits(l, front);
      RunKeeps(l, front);
      OperationKeepsLimits(Run(l, front), ops[|ops| - 1]);
    }
  }
}
