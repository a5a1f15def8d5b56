/** The writing services as they change the tables: statement by statement, with rollback and retries,
    each proved to be the atomic operation it stands for. */
module Services {
  import opened Prelude
  import opened Seqs
  import opened Money
  import opened DoubleEntry
  import opened Ledger
  import L = Ledger
  import opened Preservation
  import opened Growth
  import opened Invariants
  import opened Protocol
  import opened ProtocolSteps
  import opened Snapshots
  import opened StoredRows
  import opened Effects

  /** How one attempt at a database transaction ends. */
  datatype Attempt = Committed | Rejected(error: Error) | Transient

  /** Whether an attempt is hit by a transient database failure, and before which statement. */
  type Failure = Option<nat>

  function FailureAt(failures: seq<Failure>, attempt: nat): Failure {
    if attempt < |failures| then failures[attempt] else None
  }

  /** Every attempt the retry budget allows was hit. */
  predicate Exhausted(failures: seq<Failure>, maxRetries: nat) {
    forall i :: 0 <= i <= maxRetries ==> FailureAt(failures, i).Some?
  }

  /** The gate's verdict on a prefix of the legs stands for all of them once it refuses. */
  lemma {:induction false} FundsPrefix(rows: map<AccountId, Account>, balances: map<AccountId, int>, legs: seq<Leg>,
        n: nat)
    requires Present(rows, legs) && n <= |legs|
    ensures FundsFault(rows, balances, legs[..n]).Some? ==>
      FundsFault(rows, balances, legs) == FundsFault(rows, balances, legs[..n])
    decreases |legs|
  {
    if n == |legs| {
      assert legs[..n] == legs;
    } else {
      var front := legs[..|legs| - 1];
      assert front[..n] == legs[..n];
      FundsPrefix(rows, balances, front, n);
    }
  }

  /** The unit of work a caller hands to the transaction runner. */
  datatype Work =
    | Request(job: Job, legs: seq<Leg>)
    | Opening(account: AccountId, number: string, side: Direction, currency: Currency, limit: string)
    | VaultRow(account: AccountId, currency: Currency)

  function WorkOp(work: Work, at: Time): Op {
    match work
    case Request(job, _) => OpAt(job, at)
    case Opening(a, number, side, currency, limit) => OpenAccount(a, number, side, currency, limit)
    case VaultRow(a, currency) => OpenVault(a, currency)
  }

  /** What the opening reads have established before the transaction begins. */
  ghost predicate Workable(l: Ledger, work: Work) {
    match work
    case Request(job, legs) => Prepared(l, job, legs)
    case Opening(_, _, _, _, limit) => FromDecimalString(limit).Ok?
    case VaultRow(_, _) => true
  }

  // ----- what other callers commit meanwhile -----

  predicate Spares(ops: seq<Op>, t: TxId) {
    forall i :: 0 <= i < |ops| && (ops[i].Post? || ops[i].VoidTx?) ==> ops[i].id != t
  }

  lemma {:induction false} ApplyLeavesRoom(l: Ledger, op: Op, t: TxId)
    requires t !in l.txs && (op.Post? || op.VoidTx? ==> op.id != t)
    ensures t !in Apply(l, op).0.txs && l.accounts.Keys <= Apply(l, op).0.accounts.Keys
  {
    hide MovementFault, Of, BalanceRead, FromDecimalString, ToDecimalString, MaxEventSeq, EventStream, TxEntries,
      HasNumber;
  }

  /** Accounts are never removed, and an id nobody else uses stays free. */
  lemma {:induction false} RunLeavesRoom(l: Ledger, ops: seq<Op>, t: TxId)
    requires t !in l.txs && Spares(ops, t)
    ensures t !in Run(l, ops).txs && l.accounts.Keys <= Run(l, ops).accounts.Keys
  {
    hide Apply;
    if ops != [] {
      RunLeavesRoom(l, ops[..|ops| - 1], t);
      ApplyLeavesRoom(Run(l, ops[..|ops| - 1]), ops[|ops| - 1], t);
    }
  }

  lemma {:induction false} RunKeepsKeys(l: Ledger, ops: seq<Op>)
    ensures l.accounts.Keys <= Run(l, ops).accounts.Keys
  {
    hide Apply;
    if ops != [] {
      RunKeepsKeys(l, ops[..|ops| - 1]);
      ApplyKeepsKeys(Run(l, ops[..|ops| - 1]), ops[|ops| - 1]);
    }
  }

  lemma {:induction false} ApplyKeepsKeys(l: Ledger, op: Op)
    ensures l.accounts.Keys <= Apply(l, op).0.accounts.Keys
  {
    hide MovementFault, Of, BalanceRead, FromDecimalString, ToDecimalString, MaxEventSeq, EventStream, TxEntries,
      HasNumber;
  }

  lemma {:induction false} PresentRemains(accounts: map<AccountId, Account>, accounts': map<AccountId, Account>,
        legs: seq<Leg>)
    requires Present(accounts, legs) && accounts.Keys <= accounts'.Keys
    ensures Present(accounts', legs)
  {
  }

  /** The legs a void is built from are the same whatever others commit before its transaction. */
  lemma {:induction false} VoidStaysPrepared(l: Ledger, ops: seq<Op>, t: TxId, target: TxId)
    requires Inv(l) && TimelyRun(l, ops) && t !in l.txs && Spares(ops, t) && target in l.txs
    requires Of(Flip(LegsOf(l, target))).Ok?
    ensures LegsOf(Run(l, ops), target) == LegsOf(l, target)
    ensures Prepared(Run(l, ops), VoidJob(t, target), Flip(LegsOf(l, target)))
  {
    hide Inv, Of, TimelyRun, Run, AccountGrows, Present;
    RunLeavesRoom(l, ops, t);
    RunGrows(l, ops);
    assert TxGrows(l, Run(l, ops), target);
    LinkedOf(l);
    VoidLegsPresent(l, target);
    PresentRemains(l.accounts, Run(l, ops).accounts, Flip(LegsOf(l, target)));
  }

  lemma {:induction false} DuplicateMeansPresent(l: Ledger, t: TxId, d: Movement, kind: TxType,
        reference: Option<string>, at: Time)
    requires reference.Some? && ApplyPost(l, t, d, kind, reference, at).1 == Some(DuplicateReference)
    ensures HasReference(l.txs, reference.value)
  {
    hide BalancesFor, SlotsFree;
    GateNeverDuplicate(l.accounts, BalancesFor(l, AccountsOf(d.legs), None), d.legs);
  }

  lemma {:induction false} GateNeverDuplicate(rows: map<AccountId, Account>, balances: map<AccountId, int>,
        legs: seq<Leg>)
    ensures Gate(rows, balances, legs) != Some(DuplicateReference)
  {
    if Present(rows, legs) { FundsNeverDuplicate(rows, balances, legs); }
  }

  /** What a posting that passed the idempotency lookup may return, and what it leaves in the tables. */
  ghost predicate PostOutcome(l: Ledger, op: Op, r: Result<TxId>, l': Ledger, policy: Policy, exhausted: bool)
    requires op.Post?
  {
    match r
    case Ok(id) =>
      if id == op.id
      then Apply(l, op).1 == None && l' == CommitAndSchedule(l, op, op.tx.legs, policy)
      else && op.reference.Some? && op.reference.value != "" && Apply(l, op).1 == Some(DuplicateReference)
           && id in l.txs && l.txs[id].reference == op.reference && l' == l
    case Err(e) =>
      && l' == l && !(e == DuplicateReference && op.reference.Some? && op.reference.value != "")
      && (Apply(l, op).1 == Some(e) || (e == ConflictSequence && exhausted))
  }

  /** What a void that passed its opening reads may return, and what it leaves in the tables. */
  ghost predicate VoidOutcome(l: Ledger, op: Op, r: Result<TxId>, l': Ledger, policy: Policy, exhausted: bool)
    requires op.VoidTx?
  {
    match r
    case Ok(id) =>
      && id == op.id && Apply(l, op).1 == None
      && l' == CommitAndSchedule(l, op, Flip(LegsOf(l, op.target)), policy)
    case Err(e) => l' == l && (Apply(l, op).1 == Some(e) || (e == ConflictSequence && exhausted))
  }

  /** What a change of one account row may return, and what it leaves in the tables. */
  ghost predicate ChangeOutcome(l: Ledger, op: Op, fault: Option<Error>, l': Ledger, exhausted: bool) {
    if fault == None then Apply(l, op) == (l', None)
    else l' == l && (Apply(l, op).1 == fault || (fault.value == ConflictSequence && exhausted))
  }

  lemma {:induction false} MaxEventBound(events: seq<Event>)
    ensures forall v :: v in events ==> v.seqNo <= MaxEventSeq(events)
  {
    if events != [] {
      var front, last := events[..|events| - 1], events[|events| - 1];
      MaxEventBound(front);
      assert events == front + [last];
    }
  }

  lemma {:induction false} EventNumbersBelow(events: seq<Event>, a: AccountId)
    ensures forall v :: v in events && v.accountId == a ==> v.seqNo <= MaxEventSeq(Where(events, EventOf(a)))
  {
    WhereMembers(events, EventOf(a));
    MaxEventBound(Where(events, EventOf(a)));
  }

  class LedgerService {
    var accounts: map<AccountId, Account>
    var txs: map<TxId, TxRow>
    var entries: seq<Entry>
    var snapshots: seq<Snapshot>
    var events: seq<Event>
    const policy: Policy
    const maxRetries: nat

    constructor (policy: Policy, maxRetries: nat)
      ensures Tables() == EMPTY && this.policy == policy && this.maxRetries == maxRetries
    {
      accounts, txs, entries, snapshots, events := map[], map[], [], [], [];
      this.policy, this.maxRetries := policy, maxRetries;
    }

    function Tables(): Ledger
      reads this
    {
      Ledger(accounts, txs, entries, snapshots, events)
    }

    method Rollback(saved: Ledger)
      modifies this
      ensures Tables() == saved
    {
      accounts, txs, entries, snapshots, events :=
        saved.accounts, saved.txs, saved.entries, saved.snapshots, saved.events;
    }

    // ----- ledger.store -----

    method FindByReference(reference: string) returns (found: Option<TxId>)
      ensures found.Some? <==> HasReference(txs, reference)
      ensures found.Some? ==> found.value in txs && txs[found.value].reference == Some(reference)
    {
      if HasReference(txs, reference) {
        var t :| t in txs && txs[t].reference == Some(reference);
        return Some(t);
      }
      return None;
    }

    method InsertTransaction(t: TxId, row: TxRow) returns (fault: Option<Error>)
      modifies `txs
      ensures fault == HeaderFault(old(txs), t, row)
      ensures txs == if fault == None then old(txs)[t := row] else old(txs)
    {
      fault := HeaderFault(txs, t, row);
      if fault == None {
        txs := txs[t := row];
      }
    }

    method AppendEntries(inputs: seq<Entry>) returns (fault: Option<Error>)
      modifies `entries
      ensures fault == None <==> SlotsFree(old(entries), inputs)
      ensures fault.Some? ==> fault.value == UniqueViolation
      ensures entries == if fault == None then old(entries) + inputs else old(entries)
    {
      if inputs == [] {
        return None;
      }
      var values := [];
      for i := 0 to |inputs|
        invariant values == inputs[..i]
      {
        values := values + [inputs[i]];
      }
      if !SlotsFree(entries, values) {
        return Some(UniqueViolation);
      }
      entries := entries + values;
      return None;
    }

    /** Only a posted row makes the transition, so a second marking never succeeds; no other row and no other
        column changes. */
    method MarkTransactionVoid(t: TxId) returns (marked: bool)
      modifies `txs
      ensures marked <==> t in old(txs) && old(txs)[t].status == Posted
      ensures txs.Keys == old(txs).Keys && forall u :: u in txs && u != t ==> txs[u] == old(txs)[u]
      ensures t in txs ==> txs[t].status == Voided && txs[t].(status := Posted) == old(txs)[t].(status := Posted)
      ensures txs == if marked then old(txs)[t := old(txs)[t].(status := Voided)] else old(txs)
    {
      if t in txs && txs[t].status == Posted {
        txs := txs[t := txs[t].(status := Voided)];
        return true;
      }
      return false;
    }

    method BalancesFor(ids: seq<AccountId>, asOf: Option<Time>) returns (result: map<AccountId, int>)
      ensures result.Keys == set a | a in ids
      ensures forall a :: a in ids ==> result[a] == BalanceRead(Tables(), a, asOf)
    {
      result := map[];
      for i := 0 to |ids|
        invariant result.Keys == set a | a in ids[..i]
        invariant forall a :: a in result ==> result[a] == 0
      {
        result := result[ids[i] := 0];
        assert ids[..i + 1] == ids[..i] + [ids[i]];
      }
      assert ids[..|ids|] == ids;
      for i := 0 to |ids|
        invariant result.Keys == set a | a in ids
        invariant forall a :: a in ids ==>
          result[a] == if a in ids[..i] then BalanceRead(Tables(), a, asOf) else 0
      {
        if ids[i] in accounts {
          result := result[ids[i] := BalanceRead(Tables(), ids[i], asOf)];
        }
        assert ids[..i + 1] == ids[..i] + [ids[i]];
      }
    }

    // ----- account.repository -----

    method BumpSequences(legs: seq<Leg>, seqs: map<AccountId, nat>)
      requires seqs.Keys == AccountsOf(legs)
      modifies `accounts
      ensures accounts == Bumped(old(accounts), seqs)
    {
      ghost var before := accounts;
      for i := 0 to |legs|
        invariant accounts.Keys == before.Keys
        invariant forall a :: a in before ==>
          accounts[a] == if a in AccountsOf(legs[..i]) then before[a].(currentSequence := seqs[a]) else before[a]
      {
        var a := legs[i].accountId;
        assert a in AccountsOf(legs);
        OneMoreAccount(legs, i);
        if a in accounts {
          accounts := accounts[a := accounts[a].(currentSequence := seqs[a])];
        }
      }
      assert legs[..|legs|] == legs;
      assert accounts == Bumped(before, seqs);
    }

    // ----- snapshot.service -----

    method TakeSnapshot(a: AccountId, seqNo: Option<nat>, at: Time)
      modifies `snapshots
      ensures Tables() == ApplySnapshot(old(Tables()), a,
        if seqNo.Some? then seqNo.value else if a in old(accounts) then old(accounts)[a].currentSequence else 0, at).0
    {
      var target := if seqNo.Some? then seqNo.value else if a in accounts then accounts[a].currentSequence else 0;
      if target <= 0 || a !in accounts {
        return;
      }
      var balance := BalanceUpToSeq(Tables(), a, target, None);
      if !HasSnapshot(snapshots, a, target) {
        snapshots := snapshots + [Snapshot(a, target, balance, at)];
      }
    }

    method MaybeSnapshot(a: AccountId, newSeq: nat, at: Time)
      modifies `snapshots
      ensures Tables() == Snapshots.MaybeSnapshot(old(Tables()), a, newSeq, policy, at)
    {
      if policy.interval > 0 && newSeq % policy.interval == 0 {
        TakeSnapshot(a, Some(newSeq), at);
        return;
      }
      if policy.maxLag <= 0 {
        return;
      }
      var last := LatestSnapshotSeq(Tables(), a);
      var lag := if last == None then newSeq else newSeq - last.value;
      if lag >= policy.maxLag {
        TakeSnapshot(a, Some(newSeq), at);
      }
    }

    method SnapshotAfterCommit(legs: seq<Leg>, seqs: map<AccountId, nat>, at: Time)
      modifies `snapshots
      ensures Tables() == ScheduleAll(old(Tables()), legs, seqs, policy, at)
    {
      for i := 0 to |legs|
        invariant Tables() == ScheduleAll(old(Tables()), legs[..i], seqs, policy, at)
      {
        assert legs[..i + 1][..i] == legs[..i];
        if legs[i].accountId in seqs {
          MaybeSnapshot(legs[i].accountId, seqs[legs[i].accountId], at);
        }
      }
      assert legs[..|legs|] == legs;
    }

    // ----- transactions.service: the statements of one attempt -----

    /** Every leg's row exists and has the leg's currency. */
    method CheckRows(legs: seq<Leg>) returns (fault: Option<Error>)
      ensures fault == None <==> Present(accounts, legs) && CurrenciesMatch(accounts, legs)
      ensures fault.Some? ==> fault.value == if Present(accounts, legs) then CurrencyMismatch else AccountNotFound
    {
      for i := 0 to |legs|
        invariant Present(accounts, legs[..i])
      {
        if legs[i].accountId !in accounts {
          return Some(AccountNotFound);
        }
      }
      assert legs[..|legs|] == legs;
      for i := 0 to |legs|
        invariant CurrenciesMatch(accounts, legs[..i])
      {
        if accounts[legs[i].accountId].currency != legs[i].currency {
          return Some(CurrencyMismatch);
        }
      }
      return None;
    }

    /** The invariant gate, leg by leg, and the sequence number each entry must receive. */
    method CheckFunds(legs: seq<Leg>, balances: map<AccountId, int>) returns (r: Result<map<AccountId, nat>>)
      requires Present(accounts, legs)
      ensures var refused := FundsFault(accounts, balances, legs);
              r == if refused.Some? then Err(refused.value) else Ok(NextSeqs(accounts, legs))
    {
      var entrySeq: map<AccountId, nat> := map[];
      for i := 0 to |legs|
        invariant FundsFault(accounts, balances, legs[..i]) == None
        invariant entrySeq.Keys == AccountsOf(legs[..i])
        invariant forall a :: a in entrySeq ==> a in accounts && entrySeq[a] == accounts[a].currentSequence + 1
      {
        var leg := legs[i];
        var account := accounts[leg.accountId];
        var current := BalanceIn(balances, leg.accountId);
        var after := BalanceAfterEntry(current, account.normalSide, leg.direction, leg.amount);
        var refused := PostFault(account.status, after, account.limit);
        assert legs[..i + 1][..i] == legs[..i];
        FundsPrefix(accounts, balances, legs, i + 1);
        if refused.Some? {
          return Err(refused.value);
        }
        OneMoreAccount(legs, i);
        entrySeq := entrySeq[leg.accountId := account.currentSequence + 1];
      }
      assert legs[..|legs|] == legs;
      assert entrySeq == NextSeqs(accounts, legs);
      return Ok(entrySeq);
    }

    /** Locks, currency check, balances, gate; returns the sequence number of each entry. */
    method CollectEntrySeqs(legs: seq<Leg>) returns (r: Result<map<AccountId, nat>>)
      ensures var gate := Gate(accounts, L.BalancesFor(Tables(), AccountsOf(legs), None), legs);
              if gate.Some? then r == Err(gate.value) else Present(accounts, legs) && r == Ok(NextSeqs(accounts, legs))
    {
      hide BalanceRead, FundsFault, NextSeqs;
      var fault := CheckRows(legs);
      if fault.Some? {
        return Err(fault.value);
      }
      var balances := BalancesFor(IdsOf(legs), None);
      IdsAreAccounts(legs);
      assert balances == L.BalancesFor(Tables(), AccountsOf(legs), None);
      r := CheckFunds(legs, balances);
    }

    // ----- one attempt of each unit of work -----

    /** The movement statements shared by posting and voiding: gate, header, entries, sequences. */
    method MoveMoney(t: TxId, row: TxRow, legs: seq<Leg>, failure: Failure)
      returns (a: Attempt, seqs: map<AccountId, nat>)
      modifies this
      ensures a == Transient ==> failure.Some?
      ensures a == Committed ==>
        && Present(old(accounts), legs) && MovementFault(old(Tables()), t, row, legs) == None
        && Tables() == Publish(old(Tables()), t, row, legs) && seqs == NextSeqs(old(accounts), legs)
      ensures a.Rejected? ==> MovementFault(old(Tables()), t, row, legs) == Some(a.error)
    {
      hide Gate, Stamp, SlotsFree, HeaderFault, Bumped, NextSeqs;
      seqs := map[];
      if failure == Some(0) {
        return Transient, seqs;
      }
      var gate := CollectEntrySeqs(legs);
      if gate.Err? {
        return Rejected(gate.error), seqs;
      }
      seqs := gate.value;
      SeqsOfLegs(accounts, legs);
      if failure == Some(1) {
        return Transient, seqs;
      }
      var fault := InsertTransaction(t, row);
      if fault.Some? {
        return Rejected(fault.value), seqs;
      }
      if failure == Some(2) {
        return Transient, seqs;
      }
      fault := AppendEntries(Stamp(t, legs, seqs));
      if fault.Some? {
        return Rejected(fault.value), seqs;
      }
      if failure == Some(3) {
        return Transient, seqs;
      }
      BumpSequences(legs, seqs);
      return Committed, seqs;
    }

    /** BEGIN ... COMMIT, or ROLLBACK, of a posting. */
    method RunPost(t: TxId, d: Movement, kind: TxType, reference: Option<string>, at: Time, failure: Failure)
      returns (a: Attempt, seqs: map<AccountId, nat>)
      modifies this
      ensures a == Transient ==> failure.Some?
      ensures a != Committed ==> Tables() == old(Tables())
      ensures a == Committed ==>
        && ApplyPost(old(Tables()), t, d, kind, reference, at) == (Tables(), None)
        && Present(old(accounts), d.legs) && seqs == NextSeqs(old(accounts), d.legs)
      ensures a.Rejected? ==> ApplyPost(old(Tables()), t, d, kind, reference, at).1 == Some(a.error)
    {
      hide MovementFault, Publish, NextSeqs;
      var saved := Tables();
      a, seqs := MoveMoney(t, PostHeader(d, kind, reference, at), d.legs, failure);
      if a == Committed && failure == Some(4) {
        a := Transient;
      }
      if a != Committed {
        Rollback(saved);
      }
    }

    /** The same for a reversal, with the guarded update of the original at the end. */
    method RunVoid(t: TxId, target: TxId, legs: seq<Leg>, at: Time, failure: Failure)
      returns (a: Attempt, seqs: map<AccountId, nat>)
      requires target in txs && t !in txs && legs == Flip(LegsOf(Tables(), target)) && Of(legs) == Ok(Draft(legs, None))
      modifies this
      ensures a == Transient ==> failure.Some?
      ensures a != Committed ==> Tables() == old(Tables())
      ensures a == Committed ==>
        && ApplyVoid(old(Tables()), t, target, at) == (Tables(), None)
        && Present(old(accounts), legs) && seqs == NextSeqs(old(accounts), legs)
      ensures a.Rejected? ==> ApplyVoid(old(Tables()), t, target, at).1 == Some(a.error)
    {
      hide MovementFault, NextSeqs, Of, LegsOf, Bumped, Stamp;
      var saved := Tables();
      a, seqs := MoveMoney(t, ReversalHeader(target, at), legs, failure);
      if a == Committed {
        var marked := MarkTransactionVoid(target);
        if failure == Some(4) {
          a := Transient;
        } else if !marked {
          a := Rejected(InvalidTransaction);
        }
      }
      if a != Committed {
        Rollback(saved);
      }
    }

    /** Appends a lifecycle event past every earlier one of its account, so UNIQUE(account_id, seq) never fires. */
    method AppendWithin(a: AccountId, kind: EventType, change: Option<Transition>, limit: Option<string>)
      modifies `events
      ensures events == old(events) + [NextEvent(old(Tables()), a, kind, change, limit)]
      ensures forall v :: v in old(events) && v.accountId == a ==> v.seqNo < events[|old(events)|].seqNo
    {
      EventNumbersBelow(events, a);
      var seqNo := MaxEventSeq(Where(events, EventOf(a))) + 1;
      events := events + [Event(a, seqNo, kind, change, limit)];
    }

    method RunStatus(a: AccountId, to: Status, failure: Failure) returns (r: Attempt)
      modifies this
      ensures r == Transient ==> failure.Some?
      ensures r != Committed ==> Tables() == old(Tables())
      ensures r == Committed ==> ApplyStatus(old(Tables()), a, to) == (Tables(), None)
      ensures r.Rejected? ==> ApplyStatus(old(Tables()), a, to).1 == Some(r.error)
    {
      var saved := Tables();
      if failure == Some(0) {
        return Transient;
      }
      if a !in accounts {
        return Rejected(AccountNotFound);
      }
      var current := accounts[a];
      if current.status == Closed {
        return Rejected(InvalidTransaction);
      }
      if current.status == to {
        return Committed;
      }
      if to == Closed {
        var balances := BalancesFor([a], None);
        assert a in [a];
        if BalanceIn(balances, a) != 0 {
          return Rejected(InvalidTransaction);
        }
      }
      var change := Transition(current.status, to);
      accounts := accounts[a := current.(status := to, history := current.history + [change])];
      if failure == Some(1) {
        Rollback(saved);
        return Transient;
      }
      AppendWithin(a, StatusEvent(to), Some(change), None);
      return Committed;
    }

    method RunLimit(a: AccountId, limit: string, failure: Failure) returns (r: Attempt)
      requires FromDecimalString(limit).Ok?
      modifies this
      ensures r == Transient ==> failure.Some?
      ensures r != Committed ==> Tables() == old(Tables())
      ensures r == Committed ==> ApplyLimit(old(Tables()), a, limit) == (Tables(), None)
      ensures r.Rejected? ==> ApplyLimit(old(Tables()), a, limit).1 == Some(r.error)
    {
      hide FromDecimalString, ToDecimalString;
      var saved := Tables();
      var units := FromDecimalString(limit).value;
      if failure == Some(0) {
        return Transient;
      }
      if a !in accounts {
        return Rejected(AccountNotFound);
      }
      if accounts[a].status == Closed {
        return Rejected(AccountClosed);
      }
      AppendWithin(a, LimitChanged, None, Some(ToDecimalString(units)));
      if failure == Some(1) {
        Rollback(saved);
        return Transient;
      }
      if units < 0 {
        Rollback(saved);
        return Rejected(CheckViolation);
      }
      accounts := accounts[a := accounts[a].(limit := units)];
      return Committed;
    }

    // ----- tx-runner -----

    /** One attempt at a unit of work: BEGIN, its statements, and COMMIT or ROLLBACK. */
    method RunOnce(work: Work, at: Time, failure: Failure) returns (a: Attempt, seqs: map<AccountId, nat>)
      requires Workable(Tables(), work)
      modifies this
      ensures a == Transient ==> failure.Some?
      ensures a != Committed ==> Tables() == old(Tables())
      ensures a == Committed ==>
        && Apply(old(Tables()), WorkOp(work, at)) == (Tables(), None)
        && (work.Request? && MovesMoney(work.job) ==>
              Present(old(accounts), work.legs) && seqs == NextSeqs(old(accounts), work.legs))
      ensures a.Rejected? ==> Apply(old(Tables()), WorkOp(work, at)).1 == Some(a.error)
    {
      hide NextSeqs, ApplyPost, ApplyVoid, ApplyStatus, ApplyLimit, ApplyOpen, ApplyVault, FromDecimalString;
      seqs := map[];
      match work
      case Opening(account, number, side, currency, limit) =>
        a := RunOpen(account, number, side, currency, limit, failure);
      case VaultRow(account, currency) => a := RunVault(account, currency, failure);
      case Request(job, legs) =>
        match job
        case PostJob(t, d, kind, reference) => a, seqs := RunPost(t, d, kind, reference, at, failure);
        case VoidJob(t, target) => a, seqs := RunVoid(t, target, legs, at, failure);
        case StatusJob(account, to) => a := RunStatus(account, to, failure);
        case LimitJob(account, limit) => a := RunLimit(account, limit, failure);
    }

    /** Retries transient failures while the budget lasts; every other outcome is final. */
    method WithTransaction(work: Work, at: Time, failures: seq<Failure>)
      returns (r: Option<Error>, seqs: map<AccountId, nat>, attempts: nat)
      requires Workable(Tables(), work)
      modifies this
      ensures 1 <= attempts <= maxRetries + 1
      ensures forall i :: 0 <= i < attempts - 1 ==> FailureAt(failures, i).Some?
      ensures r.Some? ==> Tables() == old(Tables())
      ensures r == None ==>
        && Apply(old(Tables()), WorkOp(work, at)) == (Tables(), None)
        && (work.Request? && MovesMoney(work.job) ==>
              Present(old(accounts), work.legs) && seqs == NextSeqs(old(accounts), work.legs))
      ensures r.Some? ==>
        || (r.value == ConflictSequence && Exhausted(failures, maxRetries))
        || Apply(old(Tables()), WorkOp(work, at)).1 == r
      ensures r == Some(ConflictSequence) && Apply(old(Tables()), WorkOp(work, at)).1 != r ==>
        |failures| > maxRetries && forall i :: 0 <= i <= maxRetries ==> failures[i].Some?
      ensures (forall i :: 0 <= i < |failures| ==> failures[i] == None) ==> attempts == 1
    {
      hide Apply, Workable, NextSeqs, WorkOp;
      var attempt := 0;
      while true
        invariant 0 <= attempt <= maxRetries
        invariant forall i :: 0 <= i < attempt ==> FailureAt(failures, i).Some?
        invariant attempt <= |failures| && forall i :: 0 <= i < attempt ==> failures[i].Some?
        invariant attempt > 0 ==> failures[0].Some?
        invariant Tables() == old(Tables())
        decreases maxRetries - attempt
      {
        var a;
        a, seqs := RunOnce(work, at, FailureAt(failures, attempt));
        match a {
          case Committed => return None, seqs, attempt + 1;
          case Rejected(e) => return Some(e), seqs, attempt + 1;
          case Transient =>
            if attempt < maxRetries {
              attempt := attempt + 1;
            } else {
              return Some(ConflictSequence), seqs, attempt + 1;
            }
        }
      }
    }

    /** Other callers' transactions, committed while this one is between two of its statements. */
    method OthersCommit(others: seq<Op>)
      modifies this
      ensures Tables() == Run(old(Tables()), others)
    {
      Rollback(Run(Tables(), others));
    }

    // ----- transactions.service -----

    /** Posts once per reference, whatever others commit between the lookup and the transaction. A repeated reference
        resolves to the original and adds nothing; a refusal adds nothing; a success is the atomic posting followed
        by its snapshot scheduling. */
    method PostTransaction(t: TxId, d: Movement, kind: TxType, reference: Option<string>, at: Time,
        failures: seq<Failure>, others: seq<Op>)
      returns (r: Result<TxId>)
      requires t !in txs && Present(accounts, d.legs) && Spares(others, t)
      modifies this
      ensures
        && reference.Some? && reference.value != ""
        && (exists u :: u in old(txs) && old(txs)[u].reference == reference)
        ==>
          && r.Ok? && r.value in old(txs) && old(txs)[r.value].reference == reference
          && Tables() == old(Tables())
      ensures reference.Some? && reference.value != "" ==> r != Err(DuplicateReference)
      ensures !(reference.Some? && reference.value != ""
                && exists u :: u in old(txs) && old(txs)[u].reference == reference) ==>
        PostOutcome(Run(old(Tables()), others), Post(t, d, kind, reference, at), r, Tables(), policy,
          Exhausted(failures, maxRetries))
    {
      hide Exhausted, FailureAt, ScheduleAll, NextSeqs, MovementFault, Publish, ApplyPost, Run, Spares;
      if Truthy(reference) {
        var existing := FindByReference(reference.value);
        if existing.Some? {
          return Ok(existing.value);
        }
      }
      RunLeavesRoom(Tables(), others, t);
      PresentRemains(accounts, Run(Tables(), others).accounts, d.legs);
      OthersCommit(others);
      var fault, seqs, attempts := WithTransaction(Request(PostJob(t, d, kind, reference), d.legs), at, failures);
      if fault == None {
        SnapshotAfterCommit(d.legs, seqs, at);
        return Ok(t);
      }
      if fault == Some(DuplicateReference) && Truthy(reference) {
        DuplicateMeansPresent(Tables(), t, d, kind, reference, at);
        var existing := FindByReference(reference.value);
        if existing.Some? {
          return Ok(existing.value);
        }
      }
      return Err(fault.value);
    }

    /** Reverses a posted transaction leg by leg and marks it void, or changes nothing; the opening reads speak of the
        tables at the call, the rest of the tables others have left by then. */
    method VoidTransaction(t: TxId, target: TxId, at: Time, failures: seq<Failure>, others: seq<Op>)
      returns (r: Result<TxId>)
      requires Inv(Tables()) && TimelyRun(Tables(), others) && t !in txs && Spares(others, t)
      modifies this
      ensures target !in old(txs) ==> r == Err(NotFound) && Tables() == old(Tables())
      ensures target in old(txs) && old(txs)[target].status == Voided ==>
        r == Err(InvalidTransaction) && Tables() == old(Tables())
      ensures target in old(txs) && old(txs)[target].status == Posted && old(txs)[target].meta.FxMeta? ==>
        r == Err(UnbalancedTransaction) && Tables() == old(Tables())
      ensures target in old(txs) && old(txs)[target].status == Posted ==>
        var reversal := Of(Flip(LegsOf(old(Tables()), target)));
        if reversal.Err? then r == Err(reversal.error) && Tables() == old(Tables())
        else
          VoidOutcome(Run(old(Tables()), others), VoidTx(t, target, at), r, Tables(), policy,
            Exhausted(failures, maxRetries))
    {
      hide Exhausted, FailureAt, ScheduleAll, NextSeqs, MovementFault, Publish, TxEntries, Of, Inv, TimelyRun, Run,
        Spares;
      if target !in txs {
        return Err(NotFound);
      }
      if txs[target].status == Voided {
        return Err(InvalidTransaction);
      }
      var legs := Flip(LegsOf(Tables(), target));
      StoredTxOk(Tables(), target);
      VoidableHasOneCurrency(Tables(), target);
      var reversal := Of(legs);
      if reversal.Err? {
        return Err(reversal.error);
      }
      OfAccepts(legs);
      VoidStaysPrepared(Tables(), others, t, target);
      OthersCommit(others);
      var fault, seqs, attempts := WithTransaction(Request(VoidJob(t, target), legs), at, failures);
      if fault == None {
        SnapshotAfterCommit(legs, seqs, at);
        return Ok(t);
      }
      return Err(fault.value);
    }

    // ----- accounts.service -----

    /** The opening reads decide at once, or the atomic change runs on the tables others have left by then. */
    method UpdateStatus(a: AccountId, to: Status, failures: seq<Failure>, others: seq<Op>)
      returns (fault: Option<Error>)
      modifies this
      ensures a !in old(accounts) ==> fault == Some(AccountNotFound) && Tables() == old(Tables())
      ensures a in old(accounts) && old(accounts)[a].status == Closed ==>
        fault == Some(InvalidTransaction) && Tables() == old(Tables())
      ensures a in old(accounts) && old(accounts)[a].status != Closed && old(accounts)[a].status == to ==>
        fault == None && Tables() == old(Tables())
      ensures a in old(accounts) && old(accounts)[a].status != Closed && old(accounts)[a].status != to ==>
        ChangeOutcome(Run(old(Tables()), others), SetStatus(a, to), fault, Tables(), Exhausted(failures, maxRetries))
    {
      hide Exhausted, FailureAt, BalanceRead, Run, ApplyStatus;
      if a !in accounts {
        return Some(AccountNotFound);
      }
      if accounts[a].status == Closed {
        return Some(InvalidTransaction);
      }
      if accounts[a].status == to {
        return None;
      }
      RunKeepsKeys(Tables(), others);
      OthersCommit(others);
      var seqs, attempts;
      fault, seqs, attempts := WithTransaction(Request(StatusJob(a, to), []), 0, failures);
    }

    method UpdateLimit(a: AccountId, limit: string, failures: seq<Failure>) returns (fault: Option<Error>)
      modifies this
      ensures ChangeOutcome(old(Tables()), SetLimit(a, limit), fault, Tables(), Exhausted(failures, maxRetries))
      ensures fault.Some? ==> Tables() == old(Tables())
      ensures fault == None ==>
        && a in old(accounts) && old(accounts)[a].status != Closed
        && exists units :: Denotes(limit, units) && 0 <= units <= MAX_UNITS
             && accounts == old(accounts)[a := old(accounts)[a].(limit := units)]
    {
      hide Exhausted, FailureAt, FromDecimalString, ToDecimalString, Denotes, MaxEventSeq, EventStream;
      WrittenLimit(Tables(), a, limit);
      var normalized := FromDecimalString(limit);
      if normalized.Err? {
        return Some(normalized.error);
      }
      var seqs, attempts;
      fault, seqs, attempts := WithTransaction(Request(LimitJob(a, limit), []), 0, failures);
    }

    /** Row and opening event of a new account; the event carries the limit as the caller wrote it. */
    method RunOpen(a: AccountId, number: string, side: Direction, currency: Currency, limit: string, failure: Failure)
      returns (r: Attempt)
      requires FromDecimalString(limit).Ok?
      modifies this
      ensures r == Transient ==> failure.Some?
      ensures r != Committed ==> Tables() == old(Tables())
      ensures r == Committed ==> ApplyOpen(old(Tables()), a, number, side, currency, limit) == (Tables(), None)
      ensures r.Rejected? ==> ApplyOpen(old(Tables()), a, number, side, currency, limit).1 == Some(r.error)
    {
      hide FromDecimalString;
      var saved := Tables();
      var units := FromDecimalString(limit).value;
      if failure == Some(0) {
        return Transient;
      }
      if a in accounts || HasNumber(accounts, number) {
        return Rejected(UniqueViolation);
      }
      if units < 0 || !IsoCurrency(currency) {
        return Rejected(CheckViolation);
      }
      accounts := accounts[a := Account(number, side, currency, units, Active, 0, [])];
      if failure == Some(1) {
        Rollback(saved);
        return Transient;
      }
      AppendWithin(a, AccountOpened, None, Some(limit));
      if failure == Some(2) {
        Rollback(saved);
        return Transient;
      }
      return Committed;
    }

    /** Opens an account under the transaction runner: row and event together, or an unchanged ledger. */
    method Create(a: AccountId, number: string, side: Direction, currency: Currency, limit: string,
        failures: seq<Failure>)
      returns (fault: Option<Error>)
      modifies this
      ensures ChangeOutcome(old(Tables()), OpenAccount(a, number, side, currency, limit), fault, Tables(),
          Exhausted(failures, maxRetries))
      ensures fault.Some? ==> Tables() == old(Tables())
      ensures fault == None ==>
        && a !in old(accounts)
        && (exists units :: Denotes(limit, units) && 0 <= units <= MAX_UNITS
              && accounts == old(accounts)[a := Account(number, side, currency, units, Active, 0, [])])
        && |events| == |old(events)| + 1 && events[..|old(events)|] == old(events)
        && events[|old(events)|] == Event(a, events[|old(events)|].seqNo, AccountOpened, None, Some(limit))
        && txs == old(txs) && entries == old(entries) && snapshots == old(snapshots)
    {
      hide FromDecimalString, Denotes, Exhausted, FailureAt, HasNumber, MaxEventSeq, EventStream;
      OpenedRows(Tables(), a, number, side, currency, limit);
      var units := FromDecimalString(limit);
      if units.Err? {
        return Some(units.error);
      }
      var seqs, attempts;
      fault, seqs, attempts := WithTransaction(Opening(a, number, side, currency, limit), 0, failures);
    }

    /** INSERT ... ON CONFLICT (account_number) DO NOTHING. */
    method RunVault(a: AccountId, currency: Currency, failure: Failure) returns (r: Attempt)
      modifies this
      ensures r == Transient ==> failure.Some?
      ensures r != Committed ==> Tables() == old(Tables())
      ensures r == Committed ==> ApplyVault(old(Tables()), a, currency) == (Tables(), None)
      ensures r.Rejected? ==> ApplyVault(old(Tables()), a, currency).1 == Some(r.error)
    {
      if failure == Some(0) {
        return Transient;
      }
      if HasNumber(accounts, VaultNumber(currency)) {
        return Committed;
      }
      if a in accounts {
        return Rejected(UniqueViolation);
      }
      if !IsoCurrency(currency) {
        return Rejected(CheckViolation);
      }
      var saved := Tables();
      accounts := accounts[a := Account(VaultNumber(currency), Debit, currency, VAULT_LIMIT, Active, 0, [])];
      if failure == Some(1) {
        Rollback(saved);
        return Transient;
      }
      return Committed;
    }
  }

  // ----- internal-accounts.service -----

  /** Every cached id is the account that carries its currency's vault number. */
  ghost predicate CacheOk(l: Ledger, cache: map<Currency, AccountId>) {
    forall c :: c in cache ==> cache[c] in l.accounts && l.accounts[cache[c]].number == VaultNumber(c)
  }

  /** Account numbers never change, so a cached vault stays valid whatever else commits. */
  lemma {:induction false} CacheSurvives(l: Ledger, l': Ledger, cache: map<Currency, AccountId>)
    requires CacheOk(l, cache) && Grows(l, l')
    ensures CacheOk(l', cache)
  {
    forall c | c in cache
      ensures cache[c] in l'.accounts && l'.accounts[cache[c]].number == VaultNumber(c)
    {
      assert AccountGrows(l, l', cache[c]);
    }
  }

  class InternalAccounts {
    const ledger: LedgerService
    var cachedInternalIds: map<Currency, AccountId>

    constructor (ledger: LedgerService)
      ensures this.ledger == ledger && cachedInternalIds == map[]
    {
      this.ledger := ledger;
      cachedInternalIds := map[];
    }

    method FindByAccountNumber(number: string) returns (found: Option<AccountId>)
      ensures found.Some? <==> HasNumber(ledger.accounts, number)
      ensures found.Some? ==> found.value in ledger.accounts && ledger.accounts[found.value].number == number
    {
      if HasNumber(ledger.accounts, number) {
        var a :| a in ledger.accounts && ledger.accounts[a].number == number;
        return Some(a);
      }
      return None;
    }

    /** The insert that gives way to an existing number; nothing comes back when it gave way. */
    method InsertIfAbsent(currency: Currency, id: AccountId, rival: Option<AccountId>, failures: seq<Failure>)
      returns (r: Result<Option<AccountId>>)
      requires id !in ledger.accounts && (rival.Some? ==> rival.value !in ledger.accounts && rival.value != id)
      requires !HasNumber(ledger.accounts, VaultNumber(currency))
      modifies ledger
      ensures forall b :: b in old(ledger.accounts) ==>
        b in ledger.accounts && ledger.accounts[b] == old(ledger.accounts)[b]
      ensures r.Err? ==>
        !IsoCurrency(currency) || (r.error == ConflictSequence && Exhausted(failures, ledger.maxRetries))
      ensures r.Ok? ==>
        var a := if rival.Some? then rival.value else id;
        && IsoCurrency(currency) && r.value == (if rival.Some? then None else Some(id))
        && Apply(old(ledger.Tables()), OpenVault(a, currency)) == (ledger.Tables(), None)
    {
      hide Exhausted, FailureAt, IsoCurrency, Apply, HasNumber, VaultNumber;
      if rival.Some? {
        ledger.OthersCommit([OpenVault(rival.value, currency)]);
        OneOperation(old(ledger.Tables()), OpenVault(rival.value, currency));
        VaultOutcome(old(ledger.Tables()), rival.value, currency);
      }
      VaultOutcome(ledger.Tables(), id, currency);
      var present := HasNumber(ledger.accounts, VaultNumber(currency));
      var fault, seqs, attempts := ledger.WithTransaction(VaultRow(id, currency), 0, failures);
      if fault.Some? {
        return Err(fault.value);
      }
      return Ok(if present then None else Some(id));
    }

    /** The currency's vault: cached, found, created, or, when a concurrent first call wins the insert between
        our lookup and ours (`rival`), the row that call created. At most one vault row is ever added, and a failed
        insert caches nothing. */
    method GetInternalCashAccountId(currency: Currency, id: AccountId, rival: Option<AccountId>, failures: seq<Failure>)
      returns (r: Result<AccountId>)
      requires CacheOk(ledger.Tables(), cachedInternalIds)
      requires id !in ledger.accounts && (rival.Some? ==> rival.value !in ledger.accounts && rival.value != id)
      modifies this, ledger
      ensures CacheOk(ledger.Tables(), cachedInternalIds)
      ensures r.Ok? ==>
        && r.value in ledger.accounts && ledger.accounts[r.value].number == "LE-INTERNAL-CASH-" + currency
        && currency in cachedInternalIds && cachedInternalIds[currency] == r.value
      ensures currency in old(cachedInternalIds) || HasNumber(old(ledger.accounts), VaultNumber(currency)) ==>
        r.Ok? && ledger.Tables() == old(ledger.Tables())
      ensures r.Err? ==>
        && cachedInternalIds == old(cachedInternalIds)
        && (!IsoCurrency(currency) || (r.error == ConflictSequence && Exhausted(failures, ledger.maxRetries)))
      ensures !HasNumber(old(ledger.accounts), VaultNumber(currency)) && !IsoCurrency(currency) ==> r.Err?
      ensures r.Ok? && !HasNumber(old(ledger.accounts), VaultNumber(currency)) ==>
        && r.value == (if rival.Some? then rival.value else id)
        && Apply(old(ledger.Tables()), OpenVault(r.value, currency)) == (ledger.Tables(), None)
        && ledger.accounts == old(ledger.accounts)[r.value :=
             Account("LE-INTERNAL-CASH-" + currency, Debit, currency, 9999999999999999, Active, 0, [])]
    {
      hide Exhausted, FailureAt, IsoCurrency, Apply, HasNumber;
      NumberTaken(ledger.accounts, VaultNumber(currency));
      if currency in cachedInternalIds {
        return Ok(cachedInternalIds[currency]);
      }
      VaultOutcome(ledger.Tables(), if rival.Some? then rival.value else id, currency);
      var number := VaultNumber(currency);
      var existing := FindByAccountNumber(number);
      if existing.Some? {
        cachedInternalIds := cachedInternalIds[currency := existing.value];
        return Ok(existing.value);
      }
      var inserted := InsertIfAbsent(currency, id, rival, failures);
      if inserted.Err? {
        return Err(inserted.error);
      }
      var resolved := inserted.value;
      if resolved == None {
        resolved := FindByAccountNumber(number);
      }
      cachedInternalIds := cachedInternalIds[currency := resolved.value];
      return Ok(resolved.value);
    }
  }

  lemma {:induction false} WrittenLimit(l: Ledger, a: AccountId, limit: string)
    ensures ApplyLimit(l, a, limit).1 == None ==>
      && a in l.accounts && l.accounts[a].status != Closed
      && exists units :: Denotes(limit, units) && 0 <= units <= MAX_UNITS
           && ApplyLimit(l, a, limit).0.accounts == l.accounts[a := l.accounts[a].(limit := units)]
  {
    hide FromDecimalString, ToDecimalString, Denotes, EventStream, MaxEventSeq;
    LimitReads(limit);
  }

  lemma {:induction false} NumberTaken(accounts: map<AccountId, Account>, number: string)
    ensures HasNumber(accounts, number) <==> exists a :: a in accounts && accounts[a].number == number
  {
  }

  /** The three things an insert of a vault row under an unused id can do. */
  lemma {:induction false} VaultOutcome(l: Ledger, a: AccountId, currency: Currency)
    requires a !in l.accounts
    ensures var (l', fault), taken := Apply(l, OpenVault(a, currency)), HasNumber(l.accounts, VaultNumber(currency));
            && (taken ==> l' == l && fault == None)
            && (!taken && !IsoCurrency(currency) ==> l' == l && fault == Some(CheckViolation))
            && (!taken && IsoCurrency(currency) ==>
                  && fault == None && HasNumber(l'.accounts, VaultNumber(currency))
                  && l'.accounts == l.accounts[a :=
                       Account("LE-INTERNAL-CASH-" + currency, Debit, currency, 9999999999999999, Active, 0, [])]
                  && l'.accounts.Keys == l.accounts.Keys + {a} && l'.accounts[a].number == VaultNumber(currency)
                  && (forall b :: b in l.accounts ==> l'.accounts[b] == l.accounts[b]))
  {
    hide IsoCurrency;
    VaultRows(l, a, currency);
    var l' := Apply(l, OpenVault(a, currency)).0;
    assert a in l'.accounts && l'.accounts[a].number == VaultNumber(currency) ==>
      HasNumber(l'.accounts, VaultNumber(currency));
  }

  lemma {:induction false} OneOperation(l: Ledger, op: Op)
    ensures Run(l, [op]) == Apply(l, op).0
  {
    hide Apply;
    assert [op][..0] == [];
  }

  function IdsOf(legs: seq<Leg>): seq<AccountId> {
    seq(|legs|, i requires 0 <= i < |legs| => legs[i].accountId)
  }

  lemma {:induction false} IdsAreAccounts(legs: seq<Leg>)
    ensures (set a | a in IdsOf(legs)) == AccountsOf(legs)
  {
    forall a
      ensures a in IdsOf(legs) <==> a in AccountsOf(legs)
    {
      if a in IdsOf(legs) {
        var i :| 0 <= i < |legs| && IdsOf(legs)[i] == a;
        assert legs[i].accountId == a;
      }
      if a in AccountsOf(legs) {
        var i :| 0 <= i < |legs| && legs[i].accountId == a;
        assert IdsOf(legs)[i] == a;
      }
    }
  }

  lemma {:induction false} SeqsOfLegs(accounts: map<AccountId, Account>, legs: seq<Leg>)
    requires Present(accounts, legs)
    ensures NextSeqs(accounts, legs).Keys == AccountsOf(legs)
    ensures forall i :: 0 <= i < |legs| ==> legs[i].accountId in NextSeqs(accounts, legs)
  {
    assert forall i :: 0 <= i < |legs| ==> legs[i].accountId in AccountsOf(legs);
  }

  lemma {:induction false} OneMoreAccount(legs: seq<Leg>, i: nat)
    requires i < |legs|
    ensures AccountsOf(legs[..i + 1]) == AccountsOf(legs[..i]) + {legs[i].accountId}
  {
    forall a
      ensures a in AccountsOf(legs[..i + 1]) <==> a in AccountsOf(legs[..i]) || a == legs[i].accountId
    {
      if a in AccountsOf(legs[..i]) {
        var k :| 0 <= k < i && legs[..i][k].accountId == a;
        assert legs[..i + 1][k].accountId == a;
      }
      if a == legs[i].accountId {
        assert legs[..i + 1][i].accountId == a;
      }
      if a in AccountsOf(legs[..i + 1]) && a != legs[i].accountId {
        var k :| 0 <= k < i + 1 && legs[..i + 1][k].accountId == a;
        assert legs[..i][k].accountId == a;
      }
    }
  }
}
