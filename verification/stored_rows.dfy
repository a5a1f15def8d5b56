/** What each operation writes, row by row in literal fields, and what it is refused for. */
module StoredRows {
  import opened Prelude
  import opened Seqs
  import opened Money
  import opened DoubleEntry
  import opened Ledger
  import opened Lifecycle
  import opened Invariants
  import opened Preservation
  import opened Snapshots
  import opened BalanceLaw

  // ----- accounts -----

  /** The limit text denotes this amount. */
  ghost predicate ReadsAs(limit: string, units: int) {
    Denotes(limit, units) && -9999999999999999999 <= units <= 9999999999999999999
  }

  lemma {:induction false} LimitReads(limit: string)
    ensures FromDecimalString(limit).Ok? ==> ReadsAs(limit, FromDecimalString(limit).value)
    ensures FromDecimalString(limit).Err? ==>
      FromDecimalString(limit) == Err(InvalidAmount) && forall units :: !ReadsAs(limit, units)
    ensures forall x, y :: ReadsAs(limit, x) && ReadsAs(limit, y) ==> x == y
  {
    hide FromDecimalString, Denotes;
    RefusedAsAmount(limit);
    forall units
      ensures ReadsAs(limit, units) <==> FromDecimalString(limit) == Ok(units)
    {
      FromDecimalStringExact(limit, units);
    }
  }

  /** Opening an account stores exactly the row that was asked for, with one opening event, and is refused exactly
      for an unreadable limit, a taken id or number, a negative limit or a currency that is not three capitals. */
  lemma {:induction false} OpenedRows(l: Ledger, a: AccountId, number: string, side: Direction, currency: Currency,
        limit: string)
    ensures var (l', fault) := ApplyOpen(l, a, number, side, currency, limit);
            var taken := a in l.accounts || exists b :: b in l.accounts && l.accounts[b].number == number;
            var iso := |currency| == 3 && forall i :: 0 <= i < 3 ==> 'A' <= currency[i] <= 'Z';
            && (fault == Some(InvalidAmount) <==> forall units :: !ReadsAs(limit, units))
            && (fault == Some(UniqueViolation) <==> taken && exists units :: ReadsAs(limit, units))
            && (fault == Some(CheckViolation) <==>
                  !taken && exists units :: ReadsAs(limit, units) && (units < 0 || !iso))
            && (fault == None <==> !taken && iso && exists units :: ReadsAs(limit, units) && units >= 0)
    ensures var (l', fault) := ApplyOpen(l, a, number, side, currency, limit);
            && (fault.Some? ==> l' == l)
            && (fault == None ==>
                  exists units :: ReadsAs(limit, units) && units >= 0
                    && l'.accounts == l.accounts[a := Account(number, side, currency, units, Active, 0, [])])
    ensures var (l', fault) := ApplyOpen(l, a, number, side, currency, limit);
            fault == None ==>
              && |l'.events| == |l.events| + 1 && l.events == l'.events[..|l.events|]
              && l'.events[|l.events|] == Event(a, l'.events[|l.events|].seqNo, AccountOpened, None, Some(limit))
              && (Linked(l) ==> l'.events[|l.events|].seqNo == 1)
              && l'.txs == l.txs && l'.entries == l.entries && l'.snapshots == l.snapshots
  {
    hide FromDecimalString, ReadsAs, Linked;
    LimitReads(limit);
    if Linked(l) && a !in l.accounts { FirstEvent(l, a); }
  }

  /** A vault's row in literal fields; an existing vault number leaves everything as it is. */
  lemma {:induction false} VaultRows(l: Ledger, a: AccountId, currency: Currency)
    ensures var (l', fault) := ApplyVault(l, a, currency);
            var number := "LE-INTERNAL-CASH-" + currency;
            var taken := exists b :: b in l.accounts && l.accounts[b].number == number;
            var iso := |currency| == 3 && forall i :: 0 <= i < 3 ==> 'A' <= currency[i] <= 'Z';
            && (taken ==> fault == None && l' == l)
            && (!taken && a in l.accounts ==> fault == Some(UniqueViolation) && l' == l)
            && (!taken && a !in l.accounts && !iso ==> fault == Some(CheckViolation) && l' == l)
            && (!taken && a !in l.accounts && iso ==>
                  && fault == None && l' == l.(accounts := l'.accounts)
                  && l'.accounts == l.accounts[a := Account(number, Debit, currency, 9999999999999999, Active, 0, [])])
  {
  }

  lemma {:induction false} NextNumber(l: Ledger, a: AccountId)
    requires Inv(l) && a in l.accounts
    ensures MaxEventSeq(EventStream(l, a)) == |EventStream(l, a)|
  {
    assert AccountOk(l, a);
    MaxSeqOfContiguous(EventStream(l, a));
  }

  /** A status change writes the new status, the transition and one event that names it; it is refused exactly for an
      unknown account, a closed one, or closing with a balance. */
  lemma {:induction false} StatusRows(l: Ledger, a: AccountId, to: Status)
    requires Inv(l)
    ensures var (l', fault) := ApplyStatus(l, a, to);
            && (fault == Some(AccountNotFound) <==> a !in l.accounts)
            && (fault == Some(InvalidTransaction) <==>
                  && a in l.accounts
                  && (l.accounts[a].status == Closed
                      || (to == Closed && l.accounts[a].status != to && Balance(l, a) != 0)))
            && (fault.Some? ==> l' == l && (fault == Some(AccountNotFound) || fault == Some(InvalidTransaction)))
            && (fault == None && l.accounts[a].status == to ==> l' == l)
    ensures var (l', fault) := ApplyStatus(l, a, to);
            fault == None && l.accounts[a].status != to ==>
              var row, change := l.accounts[a], Transition(l.accounts[a].status, to);
              var kind := if to == Closed then AccountClosure else if to == Frozen then AccountFroze
                          else AccountReactivated;
              l' == l.(accounts := l.accounts[a := row.(status := to, history := row.history + [change])],
                       events := l.events + [Event(a, |EventStream(l, a)| + 1, kind, Some(change), None)])
  {
    hide Inv, BalanceRead, Balance, EventStream, MaxEventSeq;
    if a in l.accounts {
      ReadsSound(l);
      CurrentRead(l, a);
      NextNumber(l, a);
    }
  }

  /** A limit change writes the amount the text denotes, and one event that carries it in canonical form. */
  lemma {:induction false} LimitRows(l: Ledger, a: AccountId, limit: string)
    requires Inv(l)
    ensures var (l', fault) := ApplyLimit(l, a, limit);
            && (fault == Some(InvalidAmount) <==> forall units :: !ReadsAs(limit, units))
            && (fault == Some(AccountNotFound) <==> a !in l.accounts && exists units :: ReadsAs(limit, units))
            && (fault == Some(AccountClosed) <==>
                  && a in l.accounts && l.accounts[a].status == Closed && exists units :: ReadsAs(limit, units))
            && (fault == Some(CheckViolation) <==>
                  && a in l.accounts && l.accounts[a].status != Closed
                  && exists units :: ReadsAs(limit, units) && units < 0)
            && (fault.Some? ==> l' == l)
            && (fault == None ==>
                  exists units :: ReadsAs(limit, units) && units >= 0
                    && a in l.accounts && l.accounts[a].status != Closed
                    && l' == l.(accounts := l.accounts[a := l.accounts[a].(limit := units)],
                                events := l.events + [Event(a, |EventStream(l, a)| + 1, LimitChanged, None,
                                                            Some(ToDecimalString(units)))]))
  {
    hide FromDecimalString, ReadsAs, Inv, ToDecimalString, EventStream, MaxEventSeq;
    LimitReads(limit);
    if a in l.accounts { NextNumber(l, a); }
  }

  // ----- movements -----

  /** Entries as the legs say, each numbered one past its account's sequence. */
  ghost predicate EntriesFor(l: Ledger, t: TxId, legs: seq<Leg>, es: seq<Entry>) {
    && |es| == |legs|
    && forall i :: 0 <= i < |legs| ==>
         && legs[i].accountId in l.accounts
         && es[i].txId == t && es[i].accountId == legs[i].accountId
         && es[i].seqNo == l.accounts[legs[i].accountId].currentSequence + 1
         && es[i].direction == legs[i].direction && es[i].amount == legs[i].amount
         && es[i].currency == legs[i].currency
  }

  /** Touched accounts move one position on; nothing else about any account changes. */
  ghost predicate SequencesBumped(l: Ledger, l': Ledger, legs: seq<Leg>) {
    && l'.accounts.Keys == l.accounts.Keys
    && forall a :: a in l.accounts ==>
         l'.accounts[a] == if exists i :: 0 <= i < |legs| && legs[i].accountId == a
                           then l.accounts[a].(currentSequence := l.accounts[a].currentSequence + 1)
                           else l.accounts[a]
  }

  lemma {:induction false} PublishedRows(l: Ledger, t: TxId, row: TxRow, legs: seq<Leg>)
    requires Present(l.accounts, legs)
    ensures var l' := Publish(l, t, row, legs);
            && l'.txs == l.txs[t := row] && l'.events == l.events && l'.snapshots == l.snapshots
            && |l.entries| <= |l'.entries| && l.entries == l'.entries[..|l.entries|]
            && EntriesFor(l, t, legs, l'.entries[|l.entries|..]) && SequencesBumped(l, l', legs)
  {
    forall i | 0 <= i < |legs|
      ensures legs[i].accountId in AccountsOf(legs)
    {
    }
  }

  /** A posting stores one header with the caller's fields, its legs as entries in order, and moves each touched
      account one position on. */
  lemma {:induction false} PostedRows(l: Ledger, t: TxId, d: Movement, kind: TxType, reference: Option<string>,
        at: Time)
    requires ApplyPost(l, t, d, kind, reference, at).1 == None
    ensures var l' := ApplyPost(l, t, d, kind, reference, at).0;
            && t in l'.txs && l'.txs == l.txs[t := l'.txs[t]]
            && l'.txs[t].reference == reference && l'.txs[t].kind == kind && l'.txs[t].status == Posted
            && l'.txs[t].postedAt == at
            && (d.fx == None ==> l'.txs[t].meta == NoMeta)
            && (d.fx.Some? ==>
                  && |d.legs| == 2
                  && l'.txs[t].meta == FxMeta(d.fx.value.rate, d.fx.value.base, d.legs[1].currency))
            && l'.events == l.events && l'.snapshots == l.snapshots
            && |l.entries| <= |l'.entries| && l.entries == l'.entries[..|l.entries|]
            && EntriesFor(l, t, d.legs, l'.entries[|l.entries|..]) && SequencesBumped(l, l', d.legs)
  {
    hide MovementFault, Publish, EntriesFor, SequencesBumped;
    FaultlessPresent(l, t, PostHeader(d, kind, reference, at), d.legs);
    PublishedRows(l, t, PostHeader(d, kind, reference, at), d.legs);
  }

  lemma {:induction false} FaultlessPresent(l: Ledger, t: TxId, row: TxRow, legs: seq<Leg>)
    requires MovementFault(l, t, row, legs) == None
    ensures Present(l.accounts, legs)
  {
  }

  /** A void stores a reversal header that points at its target, the target's entries with debit and credit
      exchanged, and the target's header as void. */
  lemma {:induction false} VoidedRows(l: Ledger, t: TxId, target: TxId, at: Time)
    requires ApplyVoid(l, t, target, at).1 == None && t != target
    ensures var l', legs := ApplyVoid(l, t, target, at).0, LegsOf(l, target);
            && target in l.txs && l.txs[target].status == Posted
            && l'.txs == l.txs[t := TxRow(None, ReversalTx, Posted, ReversalMeta(target), at)]
                              [target := l.txs[target].(status := Voided)]
            && l'.events == l.events && l'.snapshots == l.snapshots
            && |l.entries| <= |l'.entries| && l.entries == l'.entries[..|l.entries|]
            && SequencesBumped(l, l', legs)
            && |l'.entries| == |l.entries| + |legs|
            && forall i :: 0 <= i < |legs| ==>
                 legs[i].accountId in l.accounts &&
                 l'.entries[|l.entries| + i] ==
                   Entry(t, legs[i].accountId, l.accounts[legs[i].accountId].currentSequence + 1,
                         if legs[i].direction == Debit then Credit else Debit, legs[i].amount, legs[i].currency)
  {
    hide MovementFault, Publish, Of, LegsOf, ApplyVoid;
    VoidSucceeds(l, t, target, at);
    var legs, flipped := LegsOf(l, target), Flip(LegsOf(l, target));
    var row := ReversalHeader(target, at);
    PublishedRows(l, t, row, flipped);
    FlippedBump(l, Publish(l, t, row, flipped), legs);
    var l' := ApplyVoid(l, t, target, at).0;
    var es := l'.entries[|l.entries|..];
    forall i | 0 <= i < |legs|
      ensures l'.entries[|l.entries| + i] == es[i] && flipped[i].accountId == legs[i].accountId
    {
    }
  }

  lemma {:induction false} FlippedBump(l: Ledger, l': Ledger, legs: seq<Leg>)
    requires SequencesBumped(l, l', Flip(legs))
    ensures SequencesBumped(l, l', legs)
  {
    forall a
      ensures Uses(legs, a) <==> Uses(Flip(legs), a)
    {
      if Uses(legs, a) {
        var i :| 0 <= i < |legs| && legs[i].accountId == a;
        assert Flip(legs)[i].accountId == a;
      }
    }
  }

  // ----- refusals of a movement -----

  /** What a posting is refused for: the gate's error first, then a repeated reference, then a taken id. */
  lemma {:induction false} PostRefusals(l: Ledger, t: TxId, d: Movement, kind: TxType, reference: Option<string>,
        at: Time)
    requires Inv(l)
    ensures var (l', fault) := ApplyPost(l, t, d, kind, reference, at);
            var gate := Gate(l.accounts, BalancesFor(l, AccountsOf(d.legs), None), d.legs);
            var repeated := reference.Some? && exists u :: u in l.txs && l.txs[u].reference == reference;
            && (fault.Some? ==> l' == l)
            && fault == (if gate.Some? then gate else if repeated then Some(DuplicateReference)
                         else if t in l.txs then Some(UniqueViolation) else None)
  {
    hide Gate, BalancesFor, SlotsFree, Inv, LegAllowed;
    HeaderAndSlots(l, t, PostHeader(d, kind, reference, at), d.legs);
  }

  lemma {:induction false} HeaderAndSlots(l: Ledger, t: TxId, row: TxRow, legs: seq<Leg>)
    requires Inv(l) && DistinctAccounts(legs)
    ensures MovementFault(l, t, row, legs) ==
      var gate := Gate(l.accounts, BalancesFor(l, AccountsOf(legs), None), legs);
      if gate.Some? then gate
      else if row.reference.Some? && exists u :: u in l.txs && l.txs[u].reference == row.reference
      then Some(DuplicateReference)
      else if t in l.txs then Some(UniqueViolation) else None
  {
    hide Inv, LegAllowed, FundsFault, SlotsFree, AccountsOk, SnapshotsOk, BalancesFor;
    ReadsSound(l);
    LinkedOf(l);
    if Gate(l.accounts, BalancesFor(l, AccountsOf(legs), None), legs) == None && t !in l.txs {
      SlotsAlwaysFree(l, t, legs);
    }
  }

  /** What a void is refused for: an unknown target, one that crossed currencies, the gate's error on the flipped
      legs, a taken id, and last a target that is void already. */
  lemma {:induction false} VoidRefusals(l: Ledger, t: TxId, target: TxId, at: Time)
    requires Inv(l)
    ensures var (l', fault) := ApplyVoid(l, t, target, at);
            var legs := Flip(LegsOf(l, target));
            var gate := Gate(l.accounts, BalancesFor(l, AccountsOf(legs), None), legs);
            && (fault.Some? ==> l' == l)
            && fault == (if target !in l.txs then Some(NotFound)
                         else if l.txs[target].meta.FxMeta? then Some(UnbalancedTransaction)
                         else if gate.Some? then gate
                         else if t in l.txs then Some(UniqueViolation)
                         else if l.txs[target].status == Voided then Some(InvalidTransaction) else None)
  {
    hide Gate, BalancesFor, Inv, LegsOf, Of, MovementFault, Publish;
    if target in l.txs {
      StoredTxOk(l, target);
      VoidableHasOneCurrency(l, target);
      var legs := Flip(LegsOf(l, target));
      if Of(legs).Ok? {
        OfAccepts(legs);
        HeaderAndSlots(l, t, ReversalHeader(target, at), legs);
      }
    }
  }

  /** No two rows share a position of one account, or a transaction and an account. */
  ghost predicate UniqueSlots(log: seq<Entry>) {
    forall i, j :: 0 <= i < j < |log| && log[i].accountId == log[j].accountId ==>
      log[i].seqNo != log[j].seqNo && log[i].txId != log[j].txId
  }

  /** The log admits the entries of one transaction exactly when both unique indexes still hold afterwards. */
  lemma {:induction false} SlotsFreeMeans(log: seq<Entry>, es: seq<Entry>, t: TxId)
    requires UniqueSlots(log) && forall e :: e in es ==> e.txId == t
    ensures SlotsFree(log, es) <==> UniqueSlots(log + es)
  {
    var all := log + es;
    if UniqueSlots(all) {
      forall i, j | 0 <= i < |log| && 0 <= j < |es| && log[i].accountId == es[j].accountId
        ensures log[i].seqNo != es[j].seqNo && log[i].txId != es[j].txId
      {
        assert all[i] == log[i] && all[|log| + j] == es[j];
      }
      forall i, j | 0 <= i < j < |es|
        ensures es[i].accountId != es[j].accountId
      {
        assert all[|log| + i] == es[i] && all[|log| + j] == es[j];
        assert es[i] in es && es[j] in es;
      }
    }
  }

  // ----- snapshots -----

  /** A snapshot holds debits and credits up to its position, once per position; position zero is never written. */
  lemma {:induction false} SnapshotRows(l: Ledger, a: AccountId, n: nat, at: Time)
    requires Inv(l) && a in l.accounts && n <= |Stream(l, a)|
    ensures var (l', fault) := ApplySnapshot(l, a, n, at);
            var rows := Stream(l, a)[..n];
            var taken := exists s :: s in l.snapshots && s.accountId == a && s.seqNo == n;
            var balance := NetOf(l.accounts[a].normalSide, rows);
            && fault == None
            && l' == if n == 0 || taken then l else l.(snapshots := l.snapshots + [Snapshot(a, n, balance, at)])
  {
    hide Debits, Credits, Delta, Where, Total, RowProjects, TimesOk, SnapshotsOk, TxsOk, ReversalsOk, Balance;
    assert AccountOk(l, a);
    SeqFilters(Stream(l, a), n);
    NoTimeFilter(l.txs, Stream(l, a)[..n]);
    RowsTotal(Stream(l, a)[..n]);
    TakenPosition(l.snapshots, a, n);
  }

  lemma {:induction false} SnapshotOfNobody(l: Ledger, a: AccountId, n: int, at: Time)
    requires a !in l.accounts
    ensures ApplySnapshot(l, a, n, at) == (l, if n > 0 then Some(CheckViolation) else None)
  {
  }

  lemma {:induction false} TakenPosition(snapshots: seq<Snapshot>, a: AccountId, n: int)
    ensures HasSnapshot(snapshots, a, n) <==> exists s :: s in snapshots && s.accountId == a && s.seqNo == n
  {
    if s: Snapshot :| s in snapshots && s.accountId == a && s.seqNo == n {
      var i :| 0 <= i < |snapshots| && snapshots[i] == s;
    }
  }

  lemma {:induction false} LatestMeans(l: Ledger, a: AccountId)
    ensures LatestSnapshotSeq(l, a) == None <==> forall s :: s in l.snapshots ==> s.accountId != a
    ensures LatestSnapshotSeq(l, a).Some? ==>
      && (exists s :: s in l.snapshots && s.accountId == a && s.seqNo == LatestSnapshotSeq(l, a).value)
      && (forall s :: s in l.snapshots && s.accountId == a ==> s.seqNo <= LatestSnapshotSeq(l, a).value)
  {
    hide Where, Newest;
    var own := Where(l.snapshots, SnapshotOf(a, None));
    WhereMembers(l.snapshots, SnapshotOf(a, None));
    NewestIsOne(own);
    if own != [] { assert own[0] in own; }
  }

  /** Scheduling takes a snapshot exactly when the position is a multiple of the interval, or lies at least the
      maximum lag past every snapshot of the account and past the start; a rule set to zero is off. */
  lemma {:induction false} DueMeans(l: Ledger, a: AccountId, n: nat, policy: Policy)
    ensures SnapshotDue(l, a, n, policy) <==>
      || (policy.interval > 0 && n % policy.interval == 0)
      || (&& policy.maxLag > 0 && n >= policy.maxLag
          && forall s :: s in l.snapshots && s.accountId == a ==> s.seqNo + policy.maxLag <= n)
  {
    hide LatestSnapshotSeq;
    LatestMeans(l, a);
  }

  lemma {:induction false} ScheduledRows(l: Ledger, a: AccountId, n: nat, policy: Policy, at: Time)
    requires Inv(l) && a in l.accounts && n <= |Stream(l, a)|
    ensures var rows := Stream(l, a)[..n];
            var taken := exists s :: s in l.snapshots && s.accountId == a && s.seqNo == n;
            var due := (policy.interval > 0 && n % policy.interval == 0)
              || (policy.maxLag > 0 && n >= policy.maxLag
                  && forall s :: s in l.snapshots && s.accountId == a ==> s.seqNo + policy.maxLag <= n);
            var balance := NetOf(l.accounts[a].normalSide, rows);
            MaybeSnapshot(l, a, n, policy, at) ==
              if due && n > 0 && !taken then l.(snapshots := l.snapshots + [Snapshot(a, n, balance, at)]) else l
  {
    hide Inv, SnapshotDue, ApplySnapshot, Stream, Debits, Credits;
    SnapshotRows(l, a, n, at);
    DueMeans(l, a, n, policy);
  }
}
