/** Every interleaving of sessions equals its commits run one at a time, in commit order. */
module Serializability {
  import opened Prelude
  import opened Seqs
  import opened Money
  import opened DoubleEntry
  import opened Ledger
  import opened Lifecycle
  import opened Invariants
  import opened Preservation
  import opened Growth
  import opened Protocol
  import opened ProtocolSteps

  // ----- what a session keeps while others commit -----

  /** Locked rows, and the streams behind them, stay put. */
  ghost predicate RowsKept(l: Ledger, l': Ledger, rows: map<AccountId, Account>) {
    forall a :: a in rows && a in l.accounts ==>
      && a in l'.accounts && l'.accounts[a] == l.accounts[a]
      && Stream(l', a) == Stream(l, a) && EventStream(l', a) == EventStream(l, a)
  }

  ghost predicate ReferenceKept(l: Ledger, l': Ledger, header: Option<TxRow>) {
    header.Some? && header.value.reference.Some? && !HasReference(l.txs, header.value.reference.value) ==>
      !HasReference(l'.txs, header.value.reference.value)
  }

  ghost predicate TargetKept(l: Ledger, l': Ledger, s: Session) {
    s.marked && s.job.VoidJob? && s.job.target in l.txs && l.txs[s.job.target].status == Posted ==>
      s.job.target in l'.txs && l'.txs[s.job.target].status == Posted
  }

  /** What another session's step, or the clock, may do to the tables a session relies on. */
  ghost predicate Undisturbed(l: Ledger, l': Ledger, s: Session) {
    && Grows(l, l')
    && RowsKept(l, l', s.rows)
    && (FreshId(l, s.job) ==> FreshId(l', s.job))
    && ReferenceKept(l, l', s.header)
    && TargetKept(l, l', s)
  }

  lemma {:induction false} SelfUndisturbed(l: Ledger, s: Session)
    ensures Undisturbed(l, l, s)
  {
    GrowsSelf(l);
  }

  lemma {:induction false} PresentCarries(l: Ledger, l': Ledger, legs: seq<Leg>)
    requires Grows(l, l') && Present(l.accounts, legs)
    ensures Present(l'.accounts, legs)
  {
  }

  lemma {:induction false} LegsCarry(l: Ledger, l': Ledger, t: TxId)
    requires t in l.txs && TxGrows(l, l', t)
    ensures t in l'.txs && LegsOf(l', t) == LegsOf(l, t)
  {
  }

  lemma {:induction false} PreparedCarries(l: Ledger, l': Ledger, job: Job, legs: seq<Leg>)
    requires Prepared(l, job, legs) && Grows(l, l') && (FreshId(l, job) ==> FreshId(l', job))
    ensures Prepared(l', job, legs)
  {
    hide LegsOf, Of, FromDecimalString, AccountGrows;
    match job
    case PostJob(_, _, _, _) => PresentCarries(l, l', legs);
    case VoidJob(_, target) =>
      PresentCarries(l, l', legs);
      LegsCarry(l, l', target);
    case StatusJob(a, _) => assert AccountGrows(l, l', a); AccountStays(l, l', a);
    case LimitJob(_, _) =>
  }

  lemma {:induction false} AccountStays(l: Ledger, l': Ledger, a: AccountId)
    requires a in l.accounts && AccountGrows(l, l', a)
    ensures a in l'.accounts
  {
  }

  lemma {:induction false} MirrorsCarry(l: Ledger, l': Ledger, rows: map<AccountId, Account>)
    requires Mirrors(l, rows) && RowsKept(l, l', rows)
    ensures Mirrors(l', rows)
  {
  }

  lemma {:induction false} LocksCarry(l: Ledger, l': Ledger, wanted: set<AccountId>, rows: map<AccountId, Account>,
        todo: seq<AccountId>)
    requires LocksInOrder(l, wanted, rows, todo) && Grows(l, l')
    ensures LocksInOrder(l', wanted, rows, todo)
  {
    hide Stream, EventStream, TxGrows;
  }

  /** No lost update: what the gate saw is what the entries will extend. */
  lemma {:induction false} GateCarries(l: Ledger, l': Ledger, legs: seq<Leg>, rows: map<AccountId, Account>)
    requires HoldsAll(l, AccountsOf(legs), rows) && RowsKept(l, l', rows)
    ensures forall i :: 0 <= i < |legs| ==> Balance(l', legs[i].accountId) == Balance(l, legs[i].accountId)
    ensures Cleared(l, legs) ==> Cleared(l', legs)
  {
    hide Stream, EventStream, Total;
    HeldLegs(l, legs, rows);
  }

  lemma {:induction false} PostedBeforeCarries(l: Ledger, l': Ledger, a: AccountId, at: Time)
    requires PostedBefore(l, a, at) && Linked(l) && Grows(l, l') && Stream(l', a) == Stream(l, a)
    ensures PostedBefore(l', a, at)
  {
    WhereMembers(l.entries, OfAccount(a));
    forall e | e in Stream(l', a)
      ensures PostedAt(l'.txs, e) <= at
    {
      assert e in Stream(l, a);
      TimeCarries(l, l', e);
    }
  }

  lemma {:induction false} TimedCarries(l: Ledger, l': Ledger, clock: Time, clock': Time, legs: seq<Leg>,
      rows: map<AccountId, Account>, at: Time)
    requires Timed(l, clock, legs, at) && Linked(l) && Grows(l, l') && clock <= clock'
    requires HoldsAll(l, AccountsOf(legs), rows) && RowsKept(l, l', rows)
    ensures Timed(l', clock', legs, at)
  {
    hide Stream, EventStream, Grows, HoldsAll, PostedBefore;
    HeldLegs(l, legs, rows);
    forall i | 0 <= i < |legs|
      ensures PostedBefore(l', legs[i].accountId, at)
    {
      PostedBeforeCarries(l, l', legs[i].accountId, at);
    }
  }

  lemma {:induction false} HeadedCarries(l: Ledger, l': Ledger, clock: Time, clock': Time, job: Job, legs: seq<Leg>,
      rows: map<AccountId, Account>, header: Option<TxRow>)
    requires Headed(l, clock, job, legs, header) && Linked(l) && Grows(l, l') && clock <= clock'
    requires HoldsAll(l, AccountsOf(legs), rows) && RowsKept(l, l', rows) && ReferenceKept(l, l', header)
    ensures Headed(l', clock', job, legs, header)
  {
    hide Timed, RowsKept, Grows, HoldsAll;
    TimedCarries(l, l', clock, clock', legs, rows, header.value.postedAt);
  }

  lemma {:induction false} ChangeableCarries(l: Ledger, l': Ledger, job: Job, rows: map<AccountId, Account>)
    requires !MovesMoney(job) && HoldsAll(l, {job.account}, rows) && RowsKept(l, l', rows) && Changeable(l, job)
    ensures Changeable(l', job)
    ensures l'.accounts[job.account] == l.accounts[job.account]
    ensures EventStream(l', job.account) == EventStream(l, job.account)
  {
    hide EventStream, Stream, Total, FromDecimalString;
    assert job.account in rows;
  }

  lemma {:induction false} ChangeReadyCarries(l: Ledger, l': Ledger, job: Job, rows: map<AccountId, Account>,
        change: Option<(Account, Event)>)
    requires !MovesMoney(job) && HoldsAll(l, {job.account}, rows) && RowsKept(l, l', rows)
      && ChangeReady(l, job, change)
    ensures ChangeReady(l', job, change)
  {
    hide EventStream, Stream, FromDecimalString, ToDecimalString, MaxEventSeq, RowsKept, HoldsAll;
    ChangeableCarries(l, l', job, rows);
  }

  lemma {:induction false} DueCarries(l: Ledger, l': Ledger, clock: Time, clock': Time, due: Due)
    requires DueOk(l, clock, due) && Linked(l) && Grows(l, l') && clock <= clock'
    ensures DueOk(l', clock', due)
  {
    hide EventStream, TxGrows;
    WhereMembers(l.entries, OfAccount(due.account));
    assert AccountGrows(l, l', due.account);
    var st := Stream(l, due.account);
    forall i | 0 <= i < due.seqNo
      ensures PostedAt(l'.txs, Stream(l', due.account)[i]) <= clock'
    {
      assert st[i] in st && Stream(l', due.account)[i] == st[i];
      TimeCarries(l, l', st[i]);
    }
  }

  /** The balance at a settled position never changes again. */
  lemma {:induction false} SettledBalanceCarries(l: Ledger, l': Ledger, a: AccountId, n: nat)
    requires a in l.accounts && n <= |Stream(l, a)| && AccountsOk(l) && AccountsOk(l') && AccountGrows(l, l', a)
    ensures BalanceUpToSeq(l', a, n, None) == BalanceUpToSeq(l, a, n, None)
  {
    hide RowProjects, TimesOk, EventStream, Where, Total;
    assert AccountOk(l, a) && AccountOk(l', a);
    SeqFilters(Stream(l, a), n);
    SeqFilters(Stream(l', a), n);
    assert Stream(l', a)[..n] == Stream(l, a)[..n];
    NoTimeFilter(l.txs, Stream(l, a)[..n]);
    NoTimeFilter(l'.txs, Stream(l', a)[..n]);
  }

  lemma {:induction false} ScheduledCarries(l: Ledger, l': Ledger, clock: Time, clock': Time, due: seq<Due>,
        read: Option<int>)
    requires Scheduled(l, clock, due, read) && Linked(l) && AccountsOk(l) && AccountsOk(l') && Grows(l, l')
      && clock <= clock'
    ensures Scheduled(l', clock', due, read)
  {
    hide BalanceUpToSeq, AccountsOk, Linked;
    assert DueOk(l, clock, due[0]);
    SettledBalanceCarries(l, l', due[0].account, due[0].seqNo);
    forall i | 0 <= i < |due|
      ensures DueOk(l', clock', due[i])
    {
      DueCarries(l, l', clock, clock', due[i]);
    }
  }

  lemma {:induction false} AnswersCarries(l: Ledger, l': Ledger, job: Job, id: TxId)
    requires Answers(l, job, id) && Grows(l, l') && (FreshId(l, job) ==> FreshId(l', job))
    ensures Answers(l', job, id)
  {
    assert TxGrows(l, l', id);
    assert l'.txs[id].(status := Posted).reference == l'.txs[id].reference;
  }

  lemma {:induction false} ReferenceStays(l: Ledger, l': Ledger, reference: string)
    requires HasReference(l.txs, reference) && Grows(l, l')
    ensures HasReference(l'.txs, reference)
  {
    var t :| t in l.txs && l.txs[t].reference == Some(reference);
    assert TxGrows(l, l', t);
    assert l'.txs[t].(status := Posted).reference == l'.txs[t].reference;
  }

  lemma {:induction false} PassedCarries(l: Ledger, l': Ledger, job: Job, legs: seq<Leg>, rows: map<AccountId, Account>)
    requires Passed(l, job, legs, rows) && Grows(l, l') && RowsKept(l, l', rows)
      && (FreshId(l, job) ==> FreshId(l', job))
    ensures Passed(l', job, legs, rows)
  {
    hide Prepared, Cleared, Grows, RowsKept, Mirrors;
    PreparedCarries(l, l', job, legs);
    MirrorsCarry(l, l', rows);
    GateCarries(l, l', legs, rows);
  }

  /** Before the header is written a session relies on its rows, its legs and its unused id. */
  lemma {:induction false} EarlyCarries(l: Ledger, l': Ledger, clock: Time, clock': Time, s: Session)
    requires SessionOk(l, clock, s) && Undisturbed(l, l', s) && clock <= clock'
    requires s.phase.Looking? || s.phase.Starting? || s.phase.Locking? || s.phase.Checking?
    ensures SessionOk(l', clock', s)
  {
    hide Prepared, Passed, Grows, RowsKept, Mirrors, LocksInOrder, FreshId, Clean, NothingWritten, Wanted,
      ReferenceKept, TargetKept;
    match s.phase
    case Looking =>
    case Starting => PreparedCarries(l, l', s.job, s.legs);
    case Locking(todo) =>
      PreparedCarries(l, l', s.job, s.legs);
      MirrorsCarry(l, l', s.rows);
      LocksCarry(l, l', Wanted(s.job, s.legs), s.rows, todo);
    case Checking =>
      PreparedCarries(l, l', s.job, s.legs);
      MirrorsCarry(l, l', s.rows);
    case _ =>
  }

  lemma {:induction false} HeadingCarries(l: Ledger, l': Ledger, clock: Time, clock': Time, s: Session)
    requires SessionOk(l, clock, s) && Undisturbed(l, l', s) && Linked(l) && clock <= clock' && s.phase.Heading?
    ensures SessionOk(l', clock', s)
  {
    hide Prepared, Cleared, Mirrors, Timed, Grows, RowsKept, FreshId, NothingWritten, ReferenceKept, TargetKept;
    PassedCarries(l, l', s.job, s.legs, s.rows);
    TimedCarries(l, l', clock, clock', s.legs, s.rows, s.phase.at);
  }

  /** From the header on it also relies on its timestamp and its reference. */
  lemma {:induction false} LateCarries(l: Ledger, l': Ledger, clock: Time, clock': Time, s: Session)
    requires Passed(l, s.job, s.legs, s.rows) && Headed(l, clock, s.job, s.legs, s.header)
    requires Undisturbed(l, l', s) && Linked(l) && clock <= clock'
    ensures Passed(l', s.job, s.legs, s.rows) && Headed(l', clock', s.job, s.legs, s.header)
  {
    hide Prepared, Grows, RowsKept, Mirrors, ReferenceKept, TargetKept, Cleared, Headed;
    PassedCarries(l, l', s.job, s.legs, s.rows);
    HeadedCarries(l, l', clock, clock', s.job, s.legs, s.rows, s.header);
  }

  lemma {:induction false} WritingCarries(l: Ledger, l': Ledger, clock: Time, clock': Time, s: Session)
    requires SessionOk(l, clock, s) && Undisturbed(l, l', s) && Linked(l) && clock <= clock'
    requires s.phase.Appending? || s.phase.Bumping? || s.phase.Marking?
    ensures SessionOk(l', clock', s)
  {
    hide Passed, Headed, Stamped, BumpsReady, Undisturbed;
    LateCarries(l, l', clock, clock', s);
  }

  lemma {:induction false} CommittingCarries(l: Ledger, l': Ledger, clock: Time, clock': Time, s: Session)
    requires SessionOk(l, clock, s) && Undisturbed(l, l', s) && Linked(l) && clock <= clock'
    requires s.phase.Committing? && MovesMoney(s.job)
    ensures SessionOk(l', clock', s)
  {
    hide Passed, Headed, Stamped, BumpsReady, Grows, RowsKept, FreshId, ReferenceKept;
    LateCarries(l, l', clock, clock', s);
  }

  lemma {:induction false} HoldsCarry(l: Ledger, l': Ledger, wanted: set<AccountId>, rows: map<AccountId, Account>)
    requires HoldsAll(l, wanted, rows) && RowsKept(l, l', rows)
    ensures HoldsAll(l', wanted, rows)
  {
    hide Mirrors, RowsKept;
    MirrorsCarry(l, l', rows);
  }

  lemma {:induction false} RowHeldCarries(l: Ledger, l': Ledger, s: Session)
    requires !MovesMoney(s.job) && Undisturbed(l, l', s)
    requires Prepared(l, s.job, s.legs) && HoldsAll(l, {s.job.account}, s.rows)
    ensures Prepared(l', s.job, s.legs) && HoldsAll(l', {s.job.account}, s.rows) && RowsKept(l, l', s.rows)
  {
    hide Prepared, Grows, RowsKept, HoldsAll, ReferenceKept, TargetKept, FreshId;
    PreparedCarries(l, l', s.job, s.legs);
    HoldsCarry(l, l', {s.job.account}, s.rows);
  }

  lemma {:induction false} ChangingCarries(l: Ledger, l': Ledger, clock: Time, clock': Time, s: Session)
    requires SessionOk(l, clock, s) && Undisturbed(l, l', s) && s.phase.Writing?
    ensures SessionOk(l', clock', s)
  {
    hide Prepared, Changeable, HoldsAll, Undisturbed, RowsKept;
    RowHeldCarries(l, l', s);
    ChangeableCarries(l, l', s.job, s.rows);
  }

  lemma {:induction false} ChangedCarries(l: Ledger, l': Ledger, clock: Time, clock': Time, s: Session)
    requires SessionOk(l, clock, s) && Undisturbed(l, l', s) && s.phase.Committing? && !MovesMoney(s.job)
    ensures SessionOk(l', clock', s)
  {
    hide Prepared, ChangeReady, HoldsAll, Undisturbed, RowsKept;
    RowHeldCarries(l, l', s);
    ChangeReadyCarries(l, l', s.job, s.rows, s.change);
  }

  lemma {:induction false} OutcomeCarries(l: Ledger, l': Ledger, job: Job, reply: Reply)
    requires Outcome(l, job, reply) && Grows(l, l') && (FreshId(l, job) ==> FreshId(l', job))
    ensures Outcome(l', job, reply)
  {
    hide Grows, Answers;
    if reply.Replied? { AnswersCarries(l, l', job, reply.id); }
  }

  lemma {:induction false} AfterwardsCarries(l: Ledger, l': Ledger, clock: Time, clock': Time, s: Session)
    requires SessionOk(l, clock, s) && Undisturbed(l, l', s) && Linked(l) && AccountsOk(l) && AccountsOk(l')
      && clock <= clock'
    requires s.phase.Resolving? || s.phase.Scheduling? || s.phase.Finished?
    ensures SessionOk(l', clock', s)
  {
    hide Grows, RowsKept, ReferenceKept, TargetKept, Outcome, Scheduled, Answers, HasReference, Linked, AccountsOk,
      FreshId, Clean;
    match s.phase
    case Resolving => ReferenceStays(l, l', s.job.reference.value);
    case Scheduling(due, read) =>
      ScheduledCarries(l, l', clock, clock', due, read);
      AnswersCarries(l, l', s.job, s.job.id);
    case Finished(reply) => OutcomeCarries(l, l', s.job, reply);
    case _ =>
  }

  lemma {:induction false} SessionCarries(l: Ledger, l': Ledger, clock: Time, clock': Time, s: Session)
    requires SessionOk(l, clock, s) && Undisturbed(l, l', s) && Inv(l) && Inv(l') && clock <= clock'
    ensures SessionOk(l', clock', s)
  {
    hide SessionOk, Undisturbed, Linked, AccountsOk, TxsOk, ReversalsOk, ReferencesUnique, NumbersUnique, SnapshotsOk;
    match s.phase
    case Looking => EarlyCarries(l, l', clock, clock', s);
    case Starting => EarlyCarries(l, l', clock, clock', s);
    case Locking(_) => EarlyCarries(l, l', clock, clock', s);
    case Checking => EarlyCarries(l, l', clock, clock', s);
    case Heading(_) => HeadingCarries(l, l', clock, clock', s);
    case Appending => WritingCarries(l, l', clock, clock', s);
    case Bumping => WritingCarries(l, l', clock, clock', s);
    case Marking => WritingCarries(l, l', clock, clock', s);
    case Writing => ChangingCarries(l, l', clock, clock', s);
    case Committing =>
      if MovesMoney(s.job) { CommittingCarries(l, l', clock, clock', s); }
      else { ChangedCarries(l, l', clock, clock', s); }
    case Resolving => AfterwardsCarries(l, l', clock, clock', s);
    case Scheduling(_, _) => AfterwardsCarries(l, l', clock, clock', s);
    case Finished(_) => AfterwardsCarries(l, l', clock, clock', s);
  }

  // ----- what a commit leaves alone -----

  lemma {:induction false} MergeElsewhere(l: Ledger, s: Session, a: AccountId)
    requires MovesMoney(s.job) && s.header.Some? && Prepared(l, s.job, s.legs)
    requires HoldsAll(l, AccountsOf(s.legs), s.rows)
    requires Stamped(s.job, s.legs, s.rows, s.entries) && BumpsReady(s.legs, s.rows, s.bumps)
    requires s.marked == s.job.VoidJob? && a in l.accounts && a !in s.rows
    ensures var l' := Merge(l, s);
            && a in l'.accounts && l'.accounts[a] == l.accounts[a]
            && Stream(l', a) == Stream(l, a) && EventStream(l', a) == EventStream(l, a)
  {
    hide Prepared, Stamped, BumpsReady, Merge, Stamp, NextSeqs;
    PublishedMerge(l, s);
    assert !Uses(s.legs, a) by { UnheldUnused(s.legs, a); }
    PublishedElsewhere(l, s.job.id, s.header.value, s.legs, a);
  }

  lemma {:induction false} UnheldUnused(legs: seq<Leg>, a: AccountId)
    requires a !in AccountsOf(legs)
    ensures !Uses(legs, a)
  {
  }

  lemma {:induction false} MoneyRowsKept(l: Ledger, clock: Time, s: Session, rows: map<AccountId, Account>)
    requires MovesMoney(s.job) && MoneyReady(l, clock, s) && s.rows.Keys !! rows.Keys && s.header.Some?
    ensures RowsKept(l, Merge(l, s), rows)
  {
    hide Prepared, Stamped, BumpsReady, Merge, HoldsAll, Cleared, Headed;
    forall a | a in rows && a in l.accounts
      ensures var l' := Merge(l, s);
        && a in l'.accounts && l'.accounts[a] == l.accounts[a]
        && Stream(l', a) == Stream(l, a) && EventStream(l', a) == EventStream(l, a)
    {
      MergeElsewhere(l, s, a);
    }
  }

  /** Two pending voids never share a target: they would hold the same rows. */
  lemma {:induction false} TargetsApart(l: Ledger, s: Session, t: Session)
    requires Passed(l, s.job, s.legs, s.rows) && Passed(l, t.job, t.legs, t.rows)
    requires s.job.VoidJob? && t.job.VoidJob? && s.rows.Keys !! t.rows.Keys
    ensures s.job.target != t.job.target
  {
    hide LegsOf, Mirrors, Cleared;
    var a := SomeWanted(l, s);
    assert a in s.rows.Keys && a !in t.rows.Keys;
    assert a in AccountsOf(s.legs) && a !in AccountsOf(t.legs);
  }

  lemma {:induction false} MarkedPassed(l: Ledger, clock: Time, t: Session)
    requires SessionOk(l, clock, t) && t.marked
    ensures Passed(l, t.job, t.legs, t.rows)
  {
    hide Passed, Headed, Stamped, BumpsReady, Prepared, HoldsAll, ChangeReady, Outcome, Scheduled, Answers,
      LocksInOrder, HasReference;
  }

  lemma {:induction false} MoneyTargetKept(l: Ledger, clock: Time, s: Session, t: Session)
    requires MovesMoney(s.job) && MoneyReady(l, clock, s) && s.header.Some?
    requires SessionOk(l, clock, t) && Apart(s, t) && FreshId(l, s.job)
    ensures TargetKept(l, Merge(l, s), t)
  {
    hide SessionOk, Stamped, BumpsReady, Passed, Headed;
    if t.marked && t.job.VoidJob? && s.job.VoidJob? {
      MarkedPassed(l, clock, t);
      TargetsApart(l, s, t);
    }
  }

  lemma {:induction false} MergedTxs(l: Ledger, s: Session)
    requires MovesMoney(s.job) && s.header.Some? && FreshId(l, s.job)
    ensures forall t :: t in Merge(l, s).txs <==> t in l.txs || t == s.job.id
    ensures forall t :: t in l.txs ==> Merge(l, s).txs[t].reference == l.txs[t].reference
    ensures Merge(l, s).txs[s.job.id].reference == s.header.value.reference
  {
  }

  lemma {:induction false} MoneyUndisturbs(l: Ledger, clock: Time, s: Session, t: Session)
    requires MovesMoney(s.job) && MoneyReady(l, clock, s) && Inv(l) && s.header.Some?
    requires SessionOk(l, clock, t) && Apart(s, t)
    ensures Undisturbed(l, Merge(l, s), t)
  {
    hide SessionOk, Inv, MoneyReady, Merge, Apply, Timely, Grows, RowsKept, TargetKept;
    MovementCommits(l, clock, s);
    ApplyGrows(l, OpOf(s, clock));
    MoneyRowsKept(l, clock, s, t.rows);
    MoneyFresh(l, clock, s);
    MergedTxs(l, s);
    MoneyTargetKept(l, clock, s, t);
  }

  lemma {:induction false} MoneyFresh(l: Ledger, clock: Time, s: Session)
    requires MovesMoney(s.job) && MoneyReady(l, clock, s)
    ensures FreshId(l, s.job)
  {
    hide Headed, Stamped, BumpsReady;
  }

  lemma {:induction false} ChangeUndisturbs(l: Ledger, clock: Time, s: Session, t: Session)
    requires (s.job.StatusJob? || s.job.LimitJob?) && ChangeReady(l, s.job, s.change) && s.header == None
      && s.change.Some?
    requires Inv(l) && s.job.account in s.rows && Apart(s, t)
    ensures Undisturbed(l, Merge(l, s), t)
  {
    hide Inv, Apply, Timely, Grows, FromDecimalString, ToDecimalString, MaxEventSeq, Balance;
    ChangeCommits(l, clock, s);
    ApplyGrows(l, OpOf(s, clock));
    forall a | a in t.rows && a in l.accounts
      ensures EventStream(Merge(l, s), a) == EventStream(l, a)
    {
      assert a != s.job.account;
      WhereSnoc(l.events, s.change.value.1, EventOf(a));
    }
  }

  lemma {:induction false} SnapshotUndisturbs(l: Ledger, a: AccountId, n: int, at: Time, t: Session)
    ensures Undisturbed(l, ApplySnapshot(l, a, n, at).0, t)
  {
    hide Grows, BalanceUpToSeq;
    SnapshotGrows(l, a, n, at);
  }

  // ----- one step of one session -----

  ghost predicate Narrows(s: Session, s': Session) {
    s'.job == s.job && s'.rows.Keys <= s.rows.Keys && (s'.header == s.header || s'.header == None)
  }

  ghost predicate TakesLock(s: Session, s': Session) {
    && s.phase.Locking? && s.phase.todo != []
    && s'.job == s.job && s'.rows.Keys == s.rows.Keys + {s.phase.todo[0]} && s'.header == None
  }

  ghost predicate TakesHeader(s: Session, s': Session) {
    && s.phase.Heading? && s'.job == s.job && s'.rows == s.rows
    && s'.header.Some? && s'.header.value.reference == ReferenceOf(s.job)
  }

  lemma {:induction false} NarrowKeepsApart(s: Session, s': Session, t: Session)
    requires Apart(s, t) && Narrows(s, s')
    ensures Apart(s', t)
  {
  }

  lemma {:induction false} LookNarrows(l: Ledger, s: Session)
    ensures Narrows(s, Look(l, s))
  {
    hide HasReference, Present, Of, LegsOf, FromDecimalString, Accepted, Narrows, Settle, Flip, FindReference;
    SettledNarrows(s);
    UnheldNarrows(s);
  }

  lemma {:induction false} UnheldNarrows(s: Session)
    ensures forall phase, begun, legs :: Narrows(s, s.(phase := phase, begun := begun, legs := legs))
    ensures forall phase, begun :: Narrows(s, s.(phase := phase, begun := begun))
  {
  }

  lemma {:induction false} StartNarrows(l: Ledger, clock: Time, s: Session)
    ensures Narrows(s, Start(l, clock, s).session)
  {
    hide SortBy, Where, WantedIds;
  }

  lemma {:induction false} ResolveNarrows(l: Ledger, s: Session)
    ensures Narrows(s, Resolve(l, s).session)
  {
    hide HasReference;
  }

  lemma {:induction false} SettledNarrows(s: Session)
    ensures forall reply :: Narrows(s, Settle(s, reply))
    ensures forall phase, attempt :: Narrows(s, Released(s).(phase := phase, attempt := attempt))
  {
  }

  lemma {:induction false} RolledBackNarrows(l: Ledger, clock: Time, s: Session)
    ensures forall e :: Narrows(s, RolledBack(l, s, clock, e).session)
  {
    hide Narrows, Settle, OpOf;
    SettledNarrows(s);
  }

  lemma {:induction false} SamePlaceNarrows(s: Session, s': Session)
    requires s'.job == s.job && s'.rows == s.rows && s'.header == s.header
    ensures Narrows(s, s')
  {
  }

  lemma {:induction false} CheckNarrows(l: Ledger, clock: Time, s: Session)
    ensures Narrows(s, Check(l, clock, s).session)
  {
    hide Narrows, CheckMoney, CheckStatus, CheckLimit;
    if MovesMoney(s.job) {
      CheckMoneyNarrows(l, clock, s);
    } else if s.job.StatusJob? {
      CheckStatusNarrows(l, clock, s);
    } else {
      CheckLimitNarrows(l, clock, s);
    }
  }

  lemma {:induction false} CheckMoneyNarrows(l: Ledger, clock: Time, s: Session)
    ensures Narrows(s, CheckMoney(l, clock, s).session)
  {
    hide Narrows, RolledBack, CheckMoney;
    CheckMoneyTurns(l, clock, s);
    RolledBackNarrows(l, clock, s);
    SamePlaceNarrows(s, s.(phase := Heading(clock)));
  }

  lemma {:induction false} CheckStatusNarrows(l: Ledger, clock: Time, s: Session)
    requires s.job.StatusJob?
    ensures Narrows(s, CheckStatus(l, clock, s).session)
  {
    hide Narrows, Settle, RolledBack, BalanceRead;
    SettledNarrows(s);
    RolledBackNarrows(l, clock, s);
    SamePlaceNarrows(s, s.(phase := Writing));
  }

  lemma {:induction false} CheckLimitNarrows(l: Ledger, clock: Time, s: Session)
    requires s.job.LimitJob?
    ensures Narrows(s, CheckLimit(l, clock, s).session)
  {
    hide Narrows, RolledBack;
    RolledBackNarrows(l, clock, s);
    SamePlaceNarrows(s, s.(phase := Writing));
  }

  lemma {:induction false} AppendNarrows(l: Ledger, clock: Time, s: Session)
    requires MovesMoney(s.job) && Present(s.rows, s.legs)
    ensures Narrows(s, AppendEntries(l, clock, s).session)
  {
    hide Narrows, RolledBack, SlotsFree;
    RolledBackNarrows(l, clock, s);
    SamePlaceNarrows(s, s.(entries := Stamp(s.job.id, s.legs, NextSeqs(s.rows, s.legs)), phase := Bumping));
  }

  lemma {:induction false} MarkNarrows(l: Ledger, clock: Time, s: Session)
    requires s.job.VoidJob?
    ensures Narrows(s, MarkTarget(l, clock, s).session)
  {
    hide Narrows, RolledBack;
    RolledBackNarrows(l, clock, s);
    SamePlaceNarrows(s, s.(marked := true, phase := Committing));
  }

  lemma {:induction false} WriteNarrows(l: Ledger, clock: Time, s: Session)
    requires s.job.StatusJob? || (s.job.LimitJob? && FromDecimalString(s.job.limit).Ok?)
    requires s.job.account in s.rows
    ensures Narrows(s, Write(l, clock, s).session)
  {
    hide Narrows, Settle, ChangeOf, FromDecimalString;
    SettledNarrows(s);
    SamePlaceNarrows(s, s.(change := Some(ChangeOf(l, s.job, s.rows[s.job.account])), phase := Committing));
  }

  lemma {:induction false} CommitNarrows(l: Ledger, clock: Time, s: Session)
    requires if MovesMoney(s.job) then s.header.Some? else s.change.Some?
    ensures Narrows(s, CommitTurn(l, clock, s).session)
  {
    hide Merge, DueSnapshots;
  }

  lemma {:induction false} LateNarrows(l: Ledger, clock: Time, s: Session)
    requires Ready(l, s)
    requires
      || s.phase.Appending? || s.phase.Bumping? || s.phase.Marking?
      || s.phase.Writing? || s.phase.Committing? || s.phase.Scheduling?
    ensures Narrows(s, AdvanceTurn(l, clock, s).session)
  {
    hide Narrows, AppendEntries, MarkTarget, Write, CommitTurn, BalanceUpToSeq, NextSeqs, FromDecimalString;
    match s.phase
    case Appending => AppendNarrows(l, clock, s);
    case Marking => MarkNarrows(l, clock, s);
    case Writing => WriteNarrows(l, clock, s);
    case Committing => CommitNarrows(l, clock, s);
    case Bumping => SamePlaceNarrows(s, Bump(l, s).session);
    case Scheduling(_, _) => SamePlaceNarrows(s, ReadBalance(l, s).session);
    case _ =>
  }

  lemma {:induction false} HeadShape(l: Ledger, clock: Time, s: Session)
    requires SessionOk(l, clock, s) && s.phase.Heading? && MovesMoney(s.job)
    ensures Shape(s, Head(l, s).session)
  {
    hide Prepared, Passed, HasReference;
    HeadingIsClean(l, clock, s);
  }

  /** A step only ever gives locks back, except for taking the next row or writing the header. */
  ghost predicate Shape(s: Session, s': Session) {
    Narrows(s, s') || TakesLock(s, s') || TakesHeader(s, s')
  }

  lemma {:induction false} StepShape(l: Ledger, clock: Time, s: Session)
    requires SessionOk(l, clock, s) && Ready(l, s) && !s.phase.Finished?
    ensures Shape(s, AdvanceTurn(l, clock, s).session)
  {
    hide SessionOk, Narrows, TakesHeader, Check, Head, Start, Look, Resolve;
    if s.phase.Locking? {
      LockOk(l, clock, s);
    } else if s.phase.Heading? {
      HeadShape(l, clock, s);
    } else if s.phase.Checking? {
      CheckNarrows(l, clock, s);
    } else if s.phase.Looking? {
      LookNarrows(l, s);
    } else if s.phase.Starting? {
      StartNarrows(l, clock, s);
    } else if s.phase.Resolving? {
      ResolveNarrows(l, s);
    } else {
      LateNarrows(l, clock, s);
    }
  }

  lemma {:induction false} HeadingIsClean(l: Ledger, clock: Time, s: Session)
    requires SessionOk(l, clock, s) && s.phase.Heading?
    ensures s.header == None && MovesMoney(s.job)
    ensures forall at :: HeaderOf(s.job, at).reference == ReferenceOf(s.job)
  {
    hide Prepared, HoldsAll, Cleared;
  }

  lemma {:induction false} OkIsReady(l: Ledger, clock: Time, s: Session)
    requires SessionOk(l, clock, s)
    ensures Ready(l, s)
  {
    hide Headed, Outcome, Prepared, Cleared, BumpsReady, Answers, DueOk, FromDecimalString, Of, LegsOf;
    match s.phase
    case Appending => HeldLegs(l, s.legs, s.rows);
    case Committing => HeaderKnown(l, clock, s);
    case Writing => WriteOk(l, clock, s);
    case _ =>
  }

  lemma {:induction false} AdvanceOk(l: Ledger, clock: Time, s: Session)
    requires SessionOk(l, clock, s) && Inv(l) && ClockOk(l, clock) && !s.phase.Finished?
    ensures Ready(l, s) && TurnOk(l, clock, AdvanceTurn(l, clock, s))
  {
    hide SessionOk, Inv, Look, Start, Lock, Check, Head, AppendEntries, Bump, MarkTarget, Write, CommitTurn,
      Resolve, ReadBalance, TurnOk;
    OkIsReady(l, clock, s);
    LinkedOf(l);
    match s.phase
    case Looking => LookOk(l, clock, s); LookIsTurn(l, clock, s);
    case Starting => StartOk(l, clock, s);
    case Locking(_) => LockOk(l, clock, s);
    case Checking => CheckOk(l, clock, s);
    case Heading(_) => HeadOk(l, clock, s);
    case Appending => AppendOk(l, clock, s);
    case Bumping => BumpOk(l, clock, s);
    case Marking => MarkOk(l, clock, s);
    case Writing => WriteOk(l, clock, s);
    case Committing => CommitOk(l, clock, s);
    case Resolving => ResolveOk(l, clock, s);
    case Scheduling(_, _) => ReadOk(l, clock, s);
    case _ =>
  }

  lemma {:induction false} LookIsTurn(l: Ledger, clock: Time, s: Session)
    requires SessionOk(l, clock, Look(l, s))
    ensures TurnOk(l, clock, Turn(l, Look(l, s), []))
  {
    hide SessionOk, Look, Apply, Timely;
  }

  lemma {:induction false} OnlyCommitWrites(l: Ledger, clock: Time, s: Session)
    requires Ready(l, s) && !s.phase.Committing?
    ensures AdvanceTurn(l, clock, s).db == l
  {
    hide Look, Gate, BalancesFor, SlotsFree, HeaderFault, HasReference, Stamp, NextSeqs, ChangeOf, SortBy, Where,
      BalanceRead, FromDecimalString, Present;
  }

  /** The tables after a step are sound, and every other session's footing is unchanged. */
  lemma {:induction false} AdvanceUndisturbs(l: Ledger, clock: Time, s: Session, t: Session)
    requires SessionOk(l, clock, s) && SessionOk(l, clock, t) && Apart(s, t) && Ready(l, s)
    requires Inv(l) && ClockOk(l, clock)
    ensures Undisturbed(l, AdvanceTurn(l, clock, s).db, t)
  {
    hide SessionOk, Inv, Undisturbed, Merge, MoneyReady, ChangeReady;
    if s.phase.Committing? {
      HeaderKnown(l, clock, s);
      if MovesMoney(s.job) {
        MoneyUndisturbs(l, clock, s, t);
      } else {
        ChangerHolds(l, clock, s);
        ChangeUndisturbs(l, clock, s, t);
      }
    } else {
      OnlyCommitWrites(l, clock, s);
      SelfUndisturbed(l, t);
    }
  }

  lemma {:induction false} ChangerHolds(l: Ledger, clock: Time, s: Session)
    requires SessionOk(l, clock, s) && s.phase.Committing? && !MovesMoney(s.job)
    ensures s.job.account in s.rows
  {
    hide Prepared, ChangeReady, Mirrors;
    assert s.job.account in {s.job.account};
  }

  lemma {:induction false} AdvanceTables(l: Ledger, clock: Time, s: Session)
    requires SessionOk(l, clock, s) && Ready(l, s) && Inv(l) && ClockOk(l, clock)
    ensures Inv(AdvanceTurn(l, clock, s).db) && ClockOk(AdvanceTurn(l, clock, s).db, clock)
  {
    hide SessionOk, Inv, ClockOk, TurnOk, Merge;
    if s.phase.Committing? {
      CommitOk(l, clock, s);
    } else {
      OnlyCommitWrites(l, clock, s);
    }
  }

  // ----- whole worlds -----

  lemma {:induction false} ExplainsCommit(start: Ledger, history: seq<Commit>, l: Ledger, c: Commit, l': Ledger)
    requires Explains(start, history, l) && Timely(l, c.op) && Apply(l, c.op) == (l', c.fault)
    ensures Explains(start, history + [c], l')
  {
    hide Apply, Timely;
    var longer := history + [c];
    assert longer[..|longer| - 1] == history && longer[|longer| - 1] == c;
  }

  /** A history is explained by its operations and outcomes alone, whoever they served. */
  lemma {:induction false} ExplainsOn(start: Ledger, history: seq<Commit>, l: Ledger, turn: Turn, k: nat)
    requires Explains(start, history, l) && Explained(l, turn)
    ensures Explains(start, history + Owned(turn.commits, k), turn.db)
  {
    hide Apply, Timely, Explains;
    if turn.commits == [] {
      assert history + Owned(turn.commits, k) == history;
    } else {
      var c := turn.commits[0].(owner := Some(k));
      assert Owned(turn.commits, k) == [c];
      ExplainsCommit(start, history, l, c, turn.db);
    }
  }

  /** Every other session is as well off as before. */
  ghost predicate OthersKept(w: World, k: nat, turn: Turn) {
    forall j :: 0 <= j < |w.sessions| && j != k ==>
      Apart(turn.session, w.sessions[j]) && Undisturbed(w.db, turn.db, w.sessions[j])
  }

  lemma {:induction false} TakeKeepsApart(w: World, k: nat, turn: Turn)
    requires k < |w.sessions| && AllApart(w.sessions) && OthersKept(w, k, turn)
    ensures AllApart(Take(w, k, turn).sessions)
  {
    hide Undisturbed;
    var after := Take(w, k, turn).sessions;
    forall i, j | 0 <= i < |after| && 0 <= j < |after| && i != j
      ensures Apart(after[i], after[j])
    {
      if j == k { assert Apart(turn.session, w.sessions[i]); }
    }
  }

  lemma {:induction false} TakeKeeps(start: Ledger, w: World, k: nat, turn: Turn)
    requires WorldOk(start, w) && k < |w.sessions|
    requires TurnOk(w.db, w.clock, turn) && Inv(turn.db) && ClockOk(turn.db, w.clock) && OthersKept(w, k, turn)
    ensures WorldOk(start, Take(w, k, turn))
  {
    hide SessionOk, Inv, ClockOk, AllApart, Explains, Explained, Undisturbed, Apart;
    var w' := Take(w, k, turn);
    ExplainsOn(start, w.history, w.db, turn, k);
    TakeKeepsApart(w, k, turn);
    forall j | 0 <= j < |w'.sessions|
      ensures SessionOk(w'.db, w'.clock, w'.sessions[j])
    {
      if j != k {
        SessionCarries(w.db, w'.db, w.clock, w.clock, w.sessions[j]);
      }
    }
  }

  // ----- each move -----

  lemma {:induction false} LockKeepsApart(w: World, k: nat, s': Session, j: nat)
    requires k < |w.sessions| && j < |w.sessions| && j != k && !Blocked(w, k)
    requires Apart(w.sessions[k], w.sessions[j]) && TakesLock(w.sessions[k], s')
    ensures Apart(s', w.sessions[j])
  {
    var a := w.sessions[k].phase.todo[0];
    assert !LockedElsewhere(w, k, a);
    assert a !in w.sessions[j].rows;
  }

  lemma {:induction false} HeaderKeepsApart(w: World, k: nat, s': Session, j: nat)
    requires k < |w.sessions| && j < |w.sessions| && j != k && !Blocked(w, k)
    requires Apart(w.sessions[k], w.sessions[j]) && TakesHeader(w.sessions[k], s')
    ensures Apart(s', w.sessions[j])
  {
    var reference := ReferenceOf(w.sessions[k].job);
    if reference.Some? {
      assert !HeadedElsewhere(w, k, reference.value);
    }
  }

  lemma {:induction false} ShapeKeepsApart(w: World, k: nat, s': Session, j: nat)
    requires k < |w.sessions| && j < |w.sessions| && j != k && !Blocked(w, k)
    requires Apart(w.sessions[k], w.sessions[j]) && Shape(w.sessions[k], s')
    ensures Apart(s', w.sessions[j])
  {
    hide Apart, Blocked, Narrows, TakesLock, TakesHeader;
    if Narrows(w.sessions[k], s') {
      NarrowKeepsApart(w.sessions[k], s', w.sessions[j]);
    } else if TakesLock(w.sessions[k], s') {
      LockKeepsApart(w, k, s', j);
    } else {
      HeaderKeepsApart(w, k, s', j);
    }
  }

  lemma {:induction false} AdvanceKeeps(start: Ledger, w: World, k: nat)
    requires WorldOk(start, w) && Enabled(w, Advance(k))
    ensures CanStep(w, Advance(k)) && WorldOk(start, Next(w, Advance(k)))
  {
    hide SessionOk, Inv, ClockOk, Explains, Undisturbed, Apart, Ready, AdvanceTurn, TurnOk, Shape, Blocked;
    var s := w.sessions[k];
    AdvanceOk(w.db, w.clock, s);
    AdvanceTables(w.db, w.clock, s);
    StepShape(w.db, w.clock, s);
    var turn := AdvanceTurn(w.db, w.clock, s);
    forall j | 0 <= j < |w.sessions| && j != k
      ensures Apart(turn.session, w.sessions[j]) && Undisturbed(w.db, turn.db, w.sessions[j])
    {
      ShapeKeepsApart(w, k, turn.session, j);
      AdvanceUndisturbs(w.db, w.clock, s, w.sessions[j]);
    }
    TakeKeeps(start, w, k, turn);
  }

  /** A step that touches no table of anyone else and only gives locks back. */
  lemma {:induction false} QuietTakeKeeps(start: Ledger, w: World, k: nat, turn: Turn)
    requires WorldOk(start, w) && k < |w.sessions| && TurnOk(w.db, w.clock, turn)
    requires turn.db == w.db && Narrows(w.sessions[k], turn.session)
    ensures WorldOk(start, Take(w, k, turn))
  {
    hide SessionOk, Inv, ClockOk, Explains, Explained, Undisturbed, Apart, Narrows;
    forall j | 0 <= j < |w.sessions| && j != k
      ensures Apart(turn.session, w.sessions[j]) && Undisturbed(w.db, turn.db, w.sessions[j])
    {
      NarrowKeepsApart(w.sessions[k], turn.session, w.sessions[j]);
      SelfUndisturbed(w.db, w.sessions[j]);
    }
    TakeKeeps(start, w, k, turn);
  }

  lemma {:induction false} SkipKeeps(start: Ledger, w: World, k: nat)
    requires WorldOk(start, w) && Enabled(w, Skip(k))
    ensures CanStep(w, Skip(k)) && WorldOk(start, Next(w, Skip(k)))
  {
    hide SessionOk, Inv, ClockOk, Explains, Apart, TurnOk;
    OkIsReady(w.db, w.clock, w.sessions[k]);
    SkipOk(w.db, w.clock, w.sessions[k]);
    QuietTakeKeeps(start, w, k, SkipSnapshot(w.db, w.sessions[k]));
  }

  lemma {:induction false} FailKeeps(start: Ledger, w: World, k: nat)
    requires WorldOk(start, w) && Enabled(w, Fail(k))
    ensures CanStep(w, Fail(k)) && WorldOk(start, Next(w, Fail(k)))
  {
    hide SessionOk, Inv, ClockOk, Explains, Apart, TurnOk, Ready;
    OkIsReady(w.db, w.clock, w.sessions[k]);
    RetryOk(w.db, w.clock, w.retries, w.sessions[k]);
    QuietTakeKeeps(start, w, k, Retry(w.db, w.retries, w.sessions[k]));
  }

  lemma {:induction false} SnapshotTurn(l: Ledger, clock: Time, s: Session)
    requires SessionOk(l, clock, s) && s.phase.Scheduling? && s.phase.read.Some? && Inv(l) && ClockOk(l, clock)
    ensures MovesMoney(s.job) && s.phase.due != []
    ensures var turn := WriteSnapshot(l, clock, s);
            && Inv(turn.db) && ClockOk(turn.db, clock) && Narrows(s, turn.session)
            && turn.db == ApplySnapshot(l, s.phase.due[0].account, s.phase.due[0].seqNo, clock).0
  {
    hide SessionOk, Inv, Timely, ApplySnapshot;
    WriteSnapshotOk(l, clock, s);
    ApplyKeeps(l, TakeSnapshot(s.phase.due[0].account, s.phase.due[0].seqNo, clock));
  }

  lemma {:induction false} TakeNowKeeps(start: Ledger, w: World, k: nat)
    requires WorldOk(start, w) && Enabled(w, TakeNow(k))
    ensures CanStep(w, TakeNow(k)) && WorldOk(start, Next(w, TakeNow(k)))
  {
    hide SessionOk, Inv, ClockOk, Explains, Apart, TurnOk, Undisturbed, Narrows, ApplySnapshot, WriteSnapshot;
    var s := w.sessions[k];
    OkIsReady(w.db, w.clock, s);
    WriteSnapshotOk(w.db, w.clock, s);
    SnapshotTurn(w.db, w.clock, s);
    var turn := WriteSnapshot(w.db, w.clock, s);
    forall j | 0 <= j < |w.sessions| && j != k
      ensures Apart(turn.session, w.sessions[j]) && Undisturbed(w.db, turn.db, w.sessions[j])
    {
      NarrowKeepsApart(s, turn.session, w.sessions[j]);
      SnapshotUndisturbs(w.db, s.phase.due[0].account, s.phase.due[0].seqNo, w.clock, w.sessions[j]);
    }
    TakeKeeps(start, w, k, turn);
  }

  lemma {:induction false} SubmitKeeps(start: Ledger, w: World, job: Job)
    requires WorldOk(start, w) && Enabled(w, Submit(job))
    ensures WorldOk(start, Next(w, Submit(job)))
  {
    hide Inv, ClockOk, Explains, SessionOk, Apart, FreshSession;
    var w' := Next(w, Submit(job));
    FreshSessionOk(w.db, w.clock, job);
    FreshApart(w.sessions, job);
    forall j | 0 <= j < |w'.sessions|
      ensures SessionOk(w'.db, w'.clock, w'.sessions[j])
    {
      if j == |w.sessions| { FreshIsOk(w.db, w.clock, job); }
    }
  }

  lemma {:induction false} FreshIsOk(l: Ledger, clock: Time, job: Job)
    requires FreshSession(l, clock, job)
    ensures SessionOk(l, clock, Fresh(job))
  {
    hide SessionOk;
  }

  lemma {:induction false} FreshApart(sessions: seq<Session>, job: Job)
    requires forall j :: 0 <= j < |sessions| && MovesMoney(job) && MovesMoney(sessions[j].job) ==>
               sessions[j].job.id != job.id
    ensures forall j :: 0 <= j < |sessions| ==> Apart(sessions[j], Fresh(job)) && Apart(Fresh(job), sessions[j])
  {
  }

  ghost predicate FreshSession(l: Ledger, clock: Time, job: Job) { SessionOk(l, clock, Fresh(job)) }

  lemma {:induction false} FreshSessionOk(l: Ledger, clock: Time, job: Job)
    requires FreshId(l, job)
    ensures FreshSession(l, clock, job)
  {
  }

  lemma {:induction false} TickKeeps(start: Ledger, w: World, elapsed: nat)
    requires WorldOk(start, w)
    ensures WorldOk(start, Next(w, Tick(elapsed)))
  {
    hide SessionOk, Inv, Explains, Undisturbed, Apart;
    forall j | 0 <= j < |w.sessions|
      ensures SessionOk(w.db, w.clock + elapsed, w.sessions[j])
    {
      SelfUndisturbed(w.db, w.sessions[j]);
      SessionCarries(w.db, w.db, w.clock, w.clock + elapsed, w.sessions[j]);
    }
  }

  /** Opening an account or a vault writes one new row that nobody holds yet. */
  lemma {:induction false} OpeningIsNew(l: Ledger, op: Op)
    requires (op.OpenAccount? || op.OpenVault?) && Apply(l, op).0 != l
    ensures op.account !in l.accounts && RowChange(l, Apply(l, op).0, op.account)
  {
    hide RowChange, FromDecimalString, MaxEventSeq, EventStream;
    RowOperationIsRowChange(l, op);
  }

  lemma {:induction false} OpeningUndisturbs(l: Ledger, op: Op, t: Session)
    requires (op.OpenAccount? || op.OpenVault?) && Inv(l)
    ensures Undisturbed(l, Apply(l, op).0, t)
  {
    hide Inv, Apply, Grows, Stream, EventStream;
    var l' := Apply(l, op).0;
    ApplyGrows(l, op);
    if l' == l {
      SelfUndisturbed(l, t);
    } else {
      OpeningIsNew(l, op);
      forall a | a in t.rows && a in l.accounts
        ensures Stream(l', a) == Stream(l, a) && EventStream(l', a) == EventStream(l, a)
      {
        RowChangeEvents(l, l', op.account, a);
        RowChangeStream(l, l', op.account, a);
      }
    }
  }

  lemma {:induction false} RowChangeStream(l: Ledger, l': Ledger, a: AccountId, b: AccountId)
    requires RowChange(l, l', a)
    ensures Stream(l', b) == Stream(l, b)
  {
  }

  lemma {:induction false} OpeningTables(l: Ledger, clock: Time, op: Op)
    requires (op.OpenAccount? || op.OpenVault?) && Inv(l) && ClockOk(l, clock)
    ensures Timely(l, op) && Inv(Apply(l, op).0) && ClockOk(Apply(l, op).0, clock)
  {
    hide Inv, RowChange, FromDecimalString, MaxEventSeq, EventStream;
    ApplyKeeps(l, op);
  }

  lemma {:induction false} AdministerKeeps(start: Ledger, w: World, op: Op)
    requires WorldOk(start, w) && Enabled(w, Administer(op))
    ensures WorldOk(start, Next(w, Administer(op)))
  {
    hide SessionOk, Inv, ClockOk, Explains, Undisturbed, Apart, Apply, Timely;
    OpeningTables(w.db, w.clock, op);
    var after := Apply(w.db, op);
    ExplainsCommit(start, w.history, w.db, Commit(op, after.1, None), after.0);
    forall j | 0 <= j < |w.sessions|
      ensures SessionOk(after.0, w.clock, w.sessions[j])
    {
      OpeningUndisturbs(w.db, op, w.sessions[j]);
      SessionCarries(w.db, after.0, w.clock, w.clock, w.sessions[j]);
    }
  }

  /** Every enabled move of every session can be taken, and keeps everything the other sessions rely on. */
  lemma {:induction false} StepKeeps(start: Ledger, w: World, m: Move)
    requires WorldOk(start, w) && Enabled(w, m)
    ensures CanStep(w, m) && WorldOk(start, Next(w, m))
  {
    hide WorldOk, Enabled, Next;
    match m
    case Submit(job) => SubmitKeeps(start, w, job);
    case Advance(k) => AdvanceKeeps(start, w, k);
    case TakeNow(k) => TakeNowKeeps(start, w, k);
    case Skip(k) => SkipKeeps(start, w, k);
    case Fail(k) => FailKeeps(start, w, k);
    case Tick(elapsed) => TickKeeps(start, w, elapsed);
    case Administer(op) => AdministerKeeps(start, w, op);
  }

  // ----- runs -----

  /** A run of the system: any finite interleaving of enabled moves. */
  ghost predicate Trace(from: World, moves: seq<Move>, to: World) {
    if moves == [] then to == from
    else
      var last := moves[|moves| - 1];
      exists w :: Trace(from, moves[..|moves| - 1], w) && StepsTo(w, last, to)
  }

  ghost predicate StepsTo(w: World, m: Move, to: World) {
    Enabled(w, m) && CanStep(w, m) && Next(w, m) == to
  }

  /** No sessions yet, nothing committed yet, a sound ledger. */
  ghost predicate Idle(w: World) {
    w.sessions == [] && w.history == [] && Inv(w.db) && ClockOk(w.db, w.clock)
  }

  lemma {:induction false} IdleIsOk(w: World)
    requires Idle(w)
    ensures WorldOk(w.db, w)
  {
  }

  lemma {:induction false} TraceKeeps(from: World, moves: seq<Move>, to: World)
    requires Idle(from) && Trace(from, moves, to)
    ensures WorldOk(from.db, to)
  {
    hide WorldOk, Idle, Next, Enabled, CanStep;
    if moves == [] {
      IdleIsOk(from);
    } else {
      var front, last := moves[..|moves| - 1], moves[|moves| - 1];
      var w :| Trace(from, front, w) && StepsTo(w, last, to);
      TraceKeeps(from, front, w);
      StepKeeps(from.db, w, last);
    }
  }

  lemma {:induction false} OpsSnoc(history: seq<Commit>)
    requires history != []
    ensures Ops(history)[..|Ops(history)| - 1] == Ops(history[..|history| - 1])
    ensures Ops(history) != [] && Ops(history)[|Ops(history)| - 1] == history[|history| - 1].op
  {
  }

  /** The explained history is a run of atomic operations. */
  lemma {:induction false} ExplainsIsRun(start: Ledger, history: seq<Commit>, end: Ledger)
    requires Explains(start, history, end)
    ensures end == Run(start, Ops(history)) && TimelyRun(start, Ops(history))
  {
    hide Apply, Timely;
    if history != [] {
      var front, last := history[..|history| - 1], history[|history| - 1];
      var l :| Explains(start, front, l) && Timely(l, last.op) && Apply(l, last.op) == (end, last.fault);
      ExplainsIsRun(start, front, l);
      OpsSnoc(history);
    }
  }

  /** Serialisability: whatever the interleaving, the committed tables are those of the atomic operations run
      one at a time in commit order. */
  lemma {:induction false} Serialisable(from: World, moves: seq<Move>, to: World)
    requires Idle(from) && Trace(from, moves, to)
    ensures to.db == Run(from.db, Ops(to.history)) && TimelyRun(from.db, Ops(to.history)) && Inv(to.db)
  {
    hide Trace, Idle, Inv, SessionOk, ClockOk, AllApart, Explains;
    TraceKeeps(from, moves, to);
    ExplainsIsRun(from.db, to.history, to.db);
  }

  lemma {:induction false} PrefixExplained(start: Ledger, history: seq<Commit>, end: Ledger, n: nat) returns (l: Ledger)
    requires Explains(start, history, end) && n <= |history|
    ensures Explains(start, history[..n], l)
    decreases |history|
  {
    hide Apply, Timely;
    if n == |history| {
      assert history[..n] == history;
      l := end;
    } else {
      var front, last := history[..|history| - 1], history[|history| - 1];
      var m :| Explains(start, front, m) && Timely(m, last.op) && Apply(m, last.op) == (end, last.fault);
      assert front[..n] == history[..n];
      l := PrefixExplained(start, front, m, n);
    }
  }

  lemma {:induction false} LastExplained(start: Ledger, history: seq<Commit>, end: Ledger)
    requires Explains(start, history, end) && history != []
    ensures var last := history[|history| - 1];
            Apply(Run(start, Ops(history[..|history| - 1])), last.op) == (end, last.fault)
  {
    hide Apply, Timely, Run, Ops;
    var front, last := history[..|history| - 1], history[|history| - 1];
    var m :| Explains(start, front, m) && Timely(m, last.op) && Apply(m, last.op) == (end, last.fault);
    ExplainsIsRun(start, front, m);
  }

  /** Every commit and every abort had, in that order, the outcome its session acted on. */
  lemma {:induction false} CommitsExplained(from: World, moves: seq<Move>, to: World, i: nat)
    requires Idle(from) && Trace(from, moves, to) && i < |to.history|
    ensures Apply(Run(from.db, Ops(to.history[..i])), to.history[i].op).1 == to.history[i].fault
  {
    hide Apply, Trace, Idle, Inv, SessionOk, ClockOk, AllApart, Explains, Run, Ops;
    TraceKeeps(from, moves, to);
    var l := PrefixExplained(from.db, to.history, to.db, i + 1);
    LastExplained(from.db, to.history[..i + 1], l);
    assert to.history[..i + 1][..i] == to.history[..i];
  }
}
