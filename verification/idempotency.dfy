/** One reference, one transaction, one answer; and what a session checked stays true until it commits. */
module Idempotency {
  import opened Prelude
  import opened DoubleEntry
  import opened Ledger
  import opened Lifecycle
  import opened Invariants
  import opened Growth
  import opened Protocol
  import opened ProtocolSteps
  import opened Serializability

  /** Whoever the move belongs to, a session that does not move keeps its footing. */
  lemma {:induction false} BystanderUndisturbed(start: Ledger, w: World, m: Move, j: nat)
    requires WorldOk(start, w) && Enabled(w, m) && CanStep(w, m)
    requires j < |w.sessions| && (Stepping(m) ==> m.k != j)
    ensures Undisturbed(w.db, Next(w, m).db, w.sessions[j])
    ensures j < |Next(w, m).sessions| && Next(w, m).sessions[j] == w.sessions[j]
  {
    hide SessionOk, Inv, ClockOk, Explains, Undisturbed, Apart, AdvanceTurn, Apply, Blocked, Ready;
    var s := w.sessions[j];
    SelfUndisturbed(w.db, s);
    match m
    case Advance(k) => AdvanceUndisturbs(w.db, w.clock, w.sessions[k], s);
    case TakeNow(k) => TakeNowUndisturbs(w.db, w.clock, w.sessions[k], s);
    case Administer(op) => OpeningUndisturbs(w.db, op, s);
    case _ =>
  }

  lemma {:induction false} TakeNowUndisturbs(l: Ledger, clock: Time, s: Session, t: Session)
    requires SessionOk(l, clock, s) && s.phase.Scheduling? && s.phase.read.Some? && Inv(l) && ClockOk(l, clock)
    ensures MovesMoney(s.job) && s.phase.due != []
    ensures Undisturbed(l, WriteSnapshot(l, clock, s).db, t)
  {
    hide SessionOk, Inv, Undisturbed, ApplySnapshot, WriteSnapshot, Narrows;
    SnapshotTurn(l, clock, s);
    SnapshotUndisturbs(l, s.phase.due[0].account, s.phase.due[0].seqNo, clock, t);
  }

  /** A money session that holds all its rows. */
  predicate HoldingMoney(s: Session) {
    MovesMoney(s.job)
    && (s.phase.Checking? || s.phase.Heading? || s.phase.Appending? || s.phase.Bumping? || s.phase.Marking?
      || s.phase.Committing?)
  }

  lemma {:induction false} HoldingHolds(l: Ledger, clock: Time, s: Session)
    requires SessionOk(l, clock, s) && HoldingMoney(s)
    ensures HoldsAll(l, AccountsOf(s.legs), s.rows)
  {
    hide Prepared, Headed, Stamped, BumpsReady, Cleared, Mirrors, Timed, Outcome, Answers, ChangeReady, Changeable,
      NothingWritten, LocksInOrder, Scheduled, HoldsAll, Clean, HasReference, FreshId, Resolves, Writable;
    match s.phase
    case Checking => assert HoldsAll(l, Wanted(s.job, s.legs), s.rows);
    case Heading(at) => assert Passed(l, s.job, s.legs, s.rows);
    case Appending => assert Appendable(l, clock, s);
    case Bumping => assert Bumpable(l, clock, s);
    case Marking => assert Markable(l, clock, s);
    case Committing => assert MoneyReady(l, clock, s);
  }

  /** No lost update: between reading a balance under its locks and committing the entries that extend it,
      nothing any other session does moves that balance or that row. */
  lemma {:induction false} CheckedBalanceStands(start: Ledger, w: World, m: Move, j: nat)
    requires WorldOk(start, w) && Enabled(w, m) && CanStep(w, m)
    requires j < |w.sessions| && (Stepping(m) ==> m.k != j) && HoldingMoney(w.sessions[j])
    ensures forall i :: 0 <= i < |w.sessions[j].legs| ==>
      var a := w.sessions[j].legs[i].accountId;
      && Balance(Next(w, m).db, a) == Balance(w.db, a)
      && a in w.db.accounts && a in Next(w, m).db.accounts && Next(w, m).db.accounts[a] == w.db.accounts[a]
  {
    hide SessionOk, Inv, ClockOk, AllApart, Explains, Balance, Next, Enabled, CanStep, HoldsAll, Grows, FreshId,
      ReferenceKept, TargetKept;
    var s := w.sessions[j];
    BystanderUndisturbed(start, w, m, j);
    HoldingHolds(w.db, w.clock, s);
    GateCarries(w.db, Next(w, m).db, s.legs, s.rows);
    HeldLegs(w.db, s.legs, s.rows);
  }

  /** What is committed passed the gate on exactly the balances its entries extend. */
  lemma {:induction false} CommitsWhatWasChecked(start: Ledger, w: World, k: nat)
    requires WorldOk(start, w) && k < |w.sessions| && w.sessions[k].phase.Committing? && MovesMoney(w.sessions[k].job)
    ensures forall i :: 0 <= i < |w.sessions[k].legs| ==> LegAllowed(w.db, w.sessions[k].legs[i])
    ensures forall i :: 0 <= i < |w.sessions[k].legs| ==>
      var a := w.sessions[k].legs[i].accountId;
      a in w.sessions[k].bumps && a in w.db.accounts && w.sessions[k].bumps[a] == |Stream(w.db, a)| + 1
  {
    hide SessionOk, ClockOk, AllApart, Explains, Inv;
    var s := w.sessions[k];
    PassedAtCommit(w.db, w.clock, s);
    forall i | 0 <= i < |s.legs|
      ensures var a := s.legs[i].accountId;
        a in s.bumps && a in w.db.accounts && s.bumps[a] == |Stream(w.db, a)| + 1
    {
      NextPosition(w.db, s.legs, s.rows, s.bumps, i);
    }
  }

  /** After its commit a session schedules one snapshot per leg, at the position that leg's entry just took. */
  lemma {:induction false} SchedulesWhatItWrote(start: Ledger, w: World, k: nat)
    requires WorldOk(start, w) && k < |w.sessions| && w.sessions[k].phase.Committing? && MovesMoney(w.sessions[k].job)
    requires CanStep(w, Advance(k))
    ensures var s, s' := w.sessions[k], Next(w, Advance(k)).sessions[k];
            && s'.phase.Scheduling? && s'.phase.read == None && |s'.phase.due| == |s.legs|
            && forall i :: 0 <= i < |s.legs| ==>
                 && s'.phase.due[i].account == s.legs[i].accountId
                 && s'.phase.due[i].seqNo == |Stream(w.db, s.legs[i].accountId)| + 1
  {
    hide SessionOk, ClockOk, AllApart, Explains, Inv, Merge, Stream, LegAllowed, OpOf;
    CommitsWhatWasChecked(start, w, k);
    SomeLegs(w.db, w.clock, w.sessions[k]);
  }

  lemma {:induction false} SomeLegs(l: Ledger, clock: Time, s: Session)
    requires SessionOk(l, clock, s) && s.phase.Committing? && MovesMoney(s.job)
    ensures s.legs != []
  {
    hide Headed, Stamped, BumpsReady, Cleared, Mirrors, HoldsAll;
    assert Prepared(l, s.job, s.legs);
    WantedDistinct(l, s);
  }

  lemma {:induction false} PassedAtCommit(l: Ledger, clock: Time, s: Session)
    requires SessionOk(l, clock, s) && s.phase.Committing? && MovesMoney(s.job)
    ensures Cleared(l, s.legs) && HoldsAll(l, AccountsOf(s.legs), s.rows) && BumpsReady(s.legs, s.rows, s.bumps)
  {
    hide Prepared, Headed, Stamped, BumpsReady, Cleared, Mirrors;
  }

  lemma {:induction false} NextPosition(l: Ledger, legs: seq<Leg>, rows: map<AccountId, Account>,
        bumps: map<AccountId, nat>, i: nat)
    requires Inv(l) && HoldsAll(l, AccountsOf(legs), rows) && BumpsReady(legs, rows, bumps) && i < |legs|
    ensures var a := legs[i].accountId;
            a in bumps && a in l.accounts && bumps[a] == |Stream(l, a)| + 1
  {
    hide HoldsAll, RowProjects, TimesOk;
    HeldLegs(l, legs, rows);
    assert legs[i].accountId in AccountsOf(legs);
    assert AccountOk(l, legs[i].accountId);
  }

  // ----- idempotency -----

  predicate Answered(w: World, k: nat, reference: string, id: TxId) {
    && k < |w.sessions| && ReferenceOf(w.sessions[k].job) == Some(reference)
    && w.sessions[k].phase == Finished(Replied(id))
  }

  lemma {:induction false} AnswerCarriesReference(l: Ledger, clock: Time, s: Session)
    requires SessionOk(l, clock, s) && s.phase.Finished? && s.phase.reply.Replied?
    ensures s.phase.reply.id in l.txs && l.txs[s.phase.reply.id].reference == ReferenceOf(s.job)
  {
  }

  /** Idempotency over all interleavings: every successful call with a reference returns the same id, through the
      fast path, the unique violation and the retries; that id carries the reference and no other transaction does. */
  lemma {:induction false} OneAnswerPerReference(from: World, moves: seq<Move>, to: World, i: nat, j: nat,
        reference: string, x: TxId, y: TxId)
    requires Idle(from) && Trace(from, moves, to)
    requires Answered(to, i, reference, x) && Answered(to, j, reference, y)
    ensures x == y && x in to.db.txs && to.db.txs[x].reference == Some(reference)
    ensures forall t :: t in to.db.txs && to.db.txs[t].reference == Some(reference) ==> t == x
  {
    hide SessionOk, ClockOk, AllApart, Explains, Trace, Idle;
    TraceKeeps(from, moves, to);
    AnswerCarriesReference(to.db, to.clock, to.sessions[i]);
    AnswerCarriesReference(to.db, to.clock, to.sessions[j]);
  }

  /** All or nothing: a refused request has left no transaction, and with it no entry, behind. */
  lemma {:induction false} RefusedLeavesNothing(from: World, moves: seq<Move>, to: World, k: nat)
    requires Idle(from) && Trace(from, moves, to)
    requires k < |to.sessions| && to.sessions[k].phase.Finished? && to.sessions[k].phase.reply.Refused?
      && MovesMoney(to.sessions[k].job)
    ensures to.sessions[k].job.id !in to.db.txs
    ensures forall e :: e in to.db.entries ==> e.txId != to.sessions[k].job.id
  {
    hide SessionOk, ClockOk, AllApart, Explains, Trace, Idle, AccountsOk, TxsOk, ReversalsOk, SnapshotsOk;
    TraceKeeps(from, moves, to);
    RefusedIsFresh(to.db, to.clock, to.sessions[k]);
  }

  lemma {:induction false} RefusedIsFresh(l: Ledger, clock: Time, s: Session)
    requires SessionOk(l, clock, s) && s.phase.Finished? && s.phase.reply.Refused?
    ensures FreshId(l, s.job)
  {
  }

  /** A request answered with somebody else's id created nothing of its own. */
  lemma {:induction false} DuplicateCreatesNothing(from: World, moves: seq<Move>, to: World, k: nat)
    requires Idle(from) && Trace(from, moves, to)
    requires k < |to.sessions| && to.sessions[k].phase.Finished? && to.sessions[k].phase.reply.Replied?
    ensures MovesMoney(to.sessions[k].job)
    ensures to.sessions[k].phase.reply.id == to.sessions[k].job.id || to.sessions[k].job.id !in to.db.txs
  {
    hide SessionOk, ClockOk, AllApart, Explains, Trace, Idle, Inv;
    TraceKeeps(from, moves, to);
    RepliedIsOwnOrFresh(to.db, to.clock, to.sessions[k]);
  }

  lemma {:induction false} RepliedIsOwnOrFresh(l: Ledger, clock: Time, s: Session)
    requires SessionOk(l, clock, s) && s.phase.Finished? && s.phase.reply.Replied?
    ensures MovesMoney(s.job) && (s.phase.reply.id == s.job.id || FreshId(l, s.job))
  {
  }

  /** The unique slots of the log and the second void never come into play: row locks settle both first. */
  lemma {:induction false} LogGuardsNeverFire(start: Ledger, w: World, k: nat)
    requires WorldOk(start, w) && k < |w.sessions|
    ensures w.sessions[k].phase.Appending? ==>
      && CanStep(w, Advance(k)) && Next(w, Advance(k)).sessions[k].phase.Bumping?
    ensures w.sessions[k].phase.Marking? && w.sessions[k].job.VoidJob? ==>
      !MarkedElsewhere(w, k, w.sessions[k].job.target)
  {
    hide SessionOk, ClockOk, Apart, Explains, Inv, AppendEntries;
    var s := w.sessions[k];
    OkIsReady(w.db, w.clock, s);
    if s.phase.Appending? {
      AppendOk(w.db, w.clock, s);
    }
    if s.phase.Marking? && s.job.VoidJob? {
      MarkingPassed(w.db, w.clock, s);
      forall j | 0 <= j < |w.sessions| && j != k && w.sessions[j].marked && w.sessions[j].job.VoidJob?
        ensures w.sessions[j].job.target != s.job.target
      {
        MarkedPassed(w.db, w.clock, w.sessions[j]);
        assert Apart(s, w.sessions[j]);
        RowsApart(s, w.sessions[j]);
        TargetsApart(w.db, s, w.sessions[j]);
      }
    }
  }

  lemma {:induction false} RowsApart(s: Session, t: Session)
    requires Apart(s, t)
    ensures s.rows.Keys !! t.rows.Keys
  {
  }

  lemma {:induction false} MarkingPassed(l: Ledger, clock: Time, s: Session)
    requires SessionOk(l, clock, s) && s.phase.Marking?
    ensures Passed(l, s.job, s.legs, s.rows)
  {
    hide Passed, Headed, Stamped, BumpsReady;
  }
}
