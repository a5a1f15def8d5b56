/** What a caller that repeats a reference is told, in every interleaving. */
module Duplicates {
  import opened Prelude
  import opened Seqs
  import opened Money
  import opened DoubleEntry
  import opened Ledger
  import opened Invariants
  import opened Effects
  import opened Protocol
  import opened ProtocolSteps
  import opened Serializability

  /** The job posts under a reference that is not the empty text. */
  predicate Named(job: Job) { job.PostJob? && job.reference.Some? && job.reference.value != "" }

  /** The session's caller is not left with a bare duplicate error although it gave a reference. */
  predicate NotTurnedAway(s: Session) {
    s.phase == Finished(Refused(DuplicateReference)) ==> !Named(s.job)
  }

  lemma {:induction false} SettledElsewhere(l: Ledger, clock: Time, s: Session)
    ensures forall e :: e != DuplicateReference ==> NotTurnedAway(RolledBack(l, s, clock, e).session)
    ensures forall e :: e != DuplicateReference ==> NotTurnedAway(Settle(s, Refused(e)))
  {
  }

  lemma {:induction false} FundsRefuse(rows: map<AccountId, Account>, balances: map<AccountId, int>, legs: seq<Leg>)
    ensures Gate(rows, balances, legs) != Some(DuplicateReference)
  {
    if Present(rows, legs) { FundsNeverDuplicate(rows, balances, legs); }
  }

  lemma {:induction false} BuildNeverDuplicate(legs: seq<Leg>)
    ensures Of(legs) != Err(DuplicateReference)
  {
    hide FirstFault, FirstBad, OneCurrency;
    FirstFaultMeans(legs);
    OfRefusals(legs);
    if FirstFault(legs).Some? {
      var i :| 0 <= i < |legs| && FirstBad(legs, i, FirstFault(legs).value);
      BadIsNoDuplicate(legs, i, FirstFault(legs).value);
    }
  }

  lemma {:induction false} BadIsNoDuplicate(legs: seq<Leg>, i: nat, e: Error)
    requires i < |legs| && FirstBad(legs, i, e)
    ensures e != DuplicateReference
  {
  }

  lemma {:induction false} LookSpares(l: Ledger, s: Session)
    requires s.phase.Looking?
    ensures NotTurnedAway(Look(l, s))
  {
    hide HasReference, Present, LegsOf, Of, Flip, FromDecimalString, Settle, NotTurnedAway, FindReference;
    if s.job.VoidJob? { BuildNeverDuplicate(Flip(LegsOf(l, s.job.target))); }
    if s.job.LimitJob? { RefusedAsAmount(s.job.limit); }
    LookAnswers(l, s);
    AnswersSpare(s);
  }

  lemma {:induction false} AnswersSpare(s: Session)
    ensures forall e :: e != DuplicateReference ==> NotTurnedAway(Settle(s, Refused(e)))
    ensures forall id :: NotTurnedAway(Settle(s, Replied(id)))
    ensures NotTurnedAway(Settle(s, Changed))
    ensures forall legs :: NotTurnedAway(s.(phase := Starting, begun := true, legs := legs))
  {
  }

  /** The opening reads either answer at once or let the session begin. */
  lemma {:induction false} LookAnswers(l: Ledger, s: Session)
    ensures || (exists reply :: Look(l, s) == Settle(s, reply) && (reply.Refused? ==>
                  || reply.error == AccountNotFound || reply.error == NotFound || reply.error == InvalidTransaction
                  || (s.job.VoidJob? && Of(Flip(LegsOf(l, s.job.target))) == Err(reply.error))
                  || (s.job.LimitJob? && FromDecimalString(s.job.limit) == Err(reply.error))))
            || (exists legs :: Look(l, s) == s.(phase := Starting, begun := true, legs := legs))
  {
    hide HasReference, Present, LegsOf, Of, Flip, FromDecimalString, Settle, FindReference;
    var begun := s.(phase := Starting, begun := true);
    assert begun == begun.(legs := s.legs);
    match s.job
    case PostJob(_, tx, _, reference) =>
      if !Present(l.accounts, tx.legs) {
        assert Look(l, s) == Settle(s, Refused(AccountNotFound));
      } else if Truthy(reference) && HasReference(l.txs, reference.value) {
        assert Look(l, s) == Settle(s, Replied(FindReference(l.txs, reference.value)));
      } else {
        assert Look(l, s) == s.(phase := Starting, begun := true, legs := tx.legs);
      }
    case VoidJob(_, target) =>
      if target !in l.txs {
        assert Look(l, s) == Settle(s, Refused(NotFound));
      } else if l.txs[target].status == Voided {
        assert Look(l, s) == Settle(s, Refused(InvalidTransaction));
      } else if Of(Flip(LegsOf(l, target))).Err? {
        assert Look(l, s) == Settle(s, Refused(Of(Flip(LegsOf(l, target))).error));
      }
    case StatusJob(account, to) =>
      if account !in l.accounts {
        assert Look(l, s) == Settle(s, Refused(AccountNotFound));
      } else if l.accounts[account].status == Closed {
        assert Look(l, s) == Settle(s, Refused(InvalidTransaction));
      } else if l.accounts[account].status == to {
        assert Look(l, s) == Settle(s, Changed);
      } else {
        assert Look(l, s) == begun.(legs := s.legs);
      }
    case LimitJob(account, limit) =>
      if FromDecimalString(limit).Err? {
        assert Look(l, s) == Settle(s, Refused(FromDecimalString(limit).error));
      } else {
        assert Look(l, s) == begun.(legs := s.legs);
      }
  }

  lemma {:induction false} CheckSpares(l: Ledger, clock: Time, s: Session)
    ensures NotTurnedAway(Check(l, clock, s).session)
  {
    hide Gate, BalancesFor, BalanceRead, RolledBack, NotTurnedAway;
    FundsRefuse(s.rows, BalancesFor(l, AccountsOf(s.legs), None), s.legs);
    SettledElsewhere(l, clock, s);
    ReachSpares(s);
  }

  lemma {:induction false} ReachSpares(s: Session)
    ensures forall at :: NotTurnedAway(s.(phase := Heading(at)))
    ensures NotTurnedAway(s.(phase := Writing)) && NotTurnedAway(Settle(s, Changed))
  {
  }

  /** A named request that runs into its reference goes on to look the original up. */
  lemma {:induction false} HeadSpares(l: Ledger, s: Session)
    requires MovesMoney(s.job) && s.phase.Heading?
    ensures NotTurnedAway(Head(l, s).session)
  {
    hide HasReference;
  }

  /** A session that is not finished, or finished otherwise, is spared. */
  lemma {:induction false} OtherwiseSpared(s: Session)
    requires s.phase.Finished? ==> s.phase.reply != Refused(DuplicateReference)
    ensures NotTurnedAway(s)
  {
  }

  lemma {:induction false} AppendSpares(l: Ledger, clock: Time, s: Session)
    requires MovesMoney(s.job) && Present(s.rows, s.legs)
    ensures NotTurnedAway(AppendEntries(l, clock, s).session)
  {
    hide SlotsFree, RolledBack, NotTurnedAway;
    SettledElsewhere(l, clock, s);
    OtherwiseSpared(s.(entries := Stamp(s.job.id, s.legs, NextSeqs(s.rows, s.legs)), phase := Bumping));
  }

  lemma {:induction false} MarkSpares(l: Ledger, clock: Time, s: Session)
    requires s.job.VoidJob?
    ensures NotTurnedAway(MarkTarget(l, clock, s).session)
  {
    hide RolledBack, NotTurnedAway;
    SettledElsewhere(l, clock, s);
    OtherwiseSpared(s.(marked := true, phase := Committing));
  }

  lemma {:induction false} WriteSpares(l: Ledger, clock: Time, s: Session)
    requires s.job.StatusJob? || (s.job.LimitJob? && FromDecimalString(s.job.limit).Ok?)
    requires s.job.account in s.rows
    ensures NotTurnedAway(Write(l, clock, s).session)
  {
    hide RolledBack, NotTurnedAway, ChangeOf, FromDecimalString;
    SettledElsewhere(l, clock, s);
    OtherwiseSpared(s.(change := Some(ChangeOf(l, s.job, s.rows[s.job.account])), phase := Committing));
  }

  lemma {:induction false} ScheduleSpares(s: Session, due: seq<Due>)
    requires MovesMoney(s.job)
    ensures NotTurnedAway(Schedule(s, due))
  {
  }

  lemma {:induction false} CommitSpares(l: Ledger, clock: Time, s: Session)
    requires if MovesMoney(s.job) then s.header.Some? else s.change.Some?
    ensures NotTurnedAway(CommitTurn(l, clock, s).session)
  {
    hide Merge, DueSnapshots, Schedule, NotTurnedAway, OpOf;
    if MovesMoney(s.job) { ScheduleSpares(s, DueSnapshots(s)); }
    ReachSpares(s);
  }

  lemma {:induction false} TurnSpares(l: Ledger, clock: Time, s: Session)
    requires SessionOk(l, clock, s) && Ready(l, s) && !s.phase.Finished?
    ensures NotTurnedAway(AdvanceTurn(l, clock, s).session)
  {
    hide SessionOk, Look, Start, Check, Head, AppendEntries, MarkTarget, Write, CommitTurn, Resolve, NotTurnedAway,
      NextSeqs, BalanceUpToSeq, FromDecimalString, TurnOk;
    match s.phase
    case Looking => LookSpares(l, s);
    case Starting => StartSpares(l, clock, s);
    case Locking(_) => OtherwiseSpared(Lock(l, s).session);
    case Checking => CheckSpares(l, clock, s);
    case Heading(_) => HeadSpares(l, s);
    case Appending => AppendSpares(l, clock, s);
    case Bumping => OtherwiseSpared(Bump(l, s).session);
    case Marking => MarkSpares(l, clock, s);
    case Writing => WriteSpares(l, clock, s);
    case Committing => CommitSpares(l, clock, s);
    case Resolving =>
      ResolveOk(l, clock, s);
      OtherwiseSpared(Resolve(l, s).session);
    case Scheduling(_, _) => OtherwiseSpared(ReadBalance(l, s).session);
  }

  lemma {:induction false} StartSpares(l: Ledger, clock: Time, s: Session)
    ensures NotTurnedAway(Start(l, clock, s).session)
  {
    hide SortBy;
  }

  lemma {:induction false} OtherTurnsSpare(l: Ledger, clock: Time, retries: nat, s: Session)
    ensures NotTurnedAway(Retry(l, retries, s).session)
    ensures s.phase.Scheduling? && MovesMoney(s.job) && s.phase.due != [] ==> NotTurnedAway(SkipSnapshot(l, s).session)
    ensures s.phase.Scheduling? && MovesMoney(s.job) && s.phase.due != [] && s.phase.read.Some? ==>
      NotTurnedAway(WriteSnapshot(l, clock, s).session)
  {
    hide InsertSnapshot;
  }

  ghost predicate NobodyTurnedAway(w: World) {
    forall k :: 0 <= k < |w.sessions| ==> NotTurnedAway(w.sessions[k])
  }

  lemma {:induction false} StepSpares(start: Ledger, w: World, m: Move)
    requires WorldOk(start, w) && NobodyTurnedAway(w) && CanStep(w, m)
    ensures NobodyTurnedAway(Next(w, m))
  {
    hide SessionOk, Inv, ClockOk, AllApart, Explains, NotTurnedAway, Apply, AdvanceTurn, Blocked, Retry, SkipSnapshot,
      WriteSnapshot;
    match m
    case Submit(job) => FreshSpared(job);
    case Advance(k) => TurnSpares(w.db, w.clock, w.sessions[k]);
    case TakeNow(k) => OtherTurnsSpare(w.db, w.clock, w.retries, w.sessions[k]);
    case Skip(k) => OtherTurnsSpare(w.db, w.clock, w.retries, w.sessions[k]);
    case Fail(k) => OtherTurnsSpare(w.db, w.clock, w.retries, w.sessions[k]);
    case Tick(_) =>
    case Administer(_) =>
  }

  lemma {:induction false} FreshSpared(job: Job)
    ensures NotTurnedAway(Fresh(job))
  {
  }

  lemma {:induction false} TraceSpares(from: World, moves: seq<Move>, to: World)
    requires Idle(from) && Trace(from, moves, to)
    ensures NobodyTurnedAway(to)
  {
    hide WorldOk, Next, Enabled, CanStep, NotTurnedAway;
    if moves != [] {
      var front, last := moves[..|moves| - 1], moves[|moves| - 1];
      var w :| Trace(from, front, w) && StepsTo(w, last, to);
      TraceSpares(from, front, w);
      TraceKeeps(from, front, w);
      StepSpares(from.db, w, last);
    }
  }

  /** In no interleaving does a request with a reference end with the duplicate error: it gets the original's id, or
      is refused for another reason. */
  lemma {:induction false} NeverABareDuplicate(from: World, moves: seq<Move>, to: World, k: nat)
    requires Idle(from) && Trace(from, moves, to) && k < |to.sessions|
    requires to.sessions[k].job.PostJob?
      && to.sessions[k].job.reference.Some? && to.sessions[k].job.reference.value != ""
    ensures to.sessions[k].phase != Finished(Refused(DuplicateReference))
  {
    hide Idle, Trace;
    TraceSpares(from, moves, to);
    assert NotTurnedAway(to.sessions[k]);
  }

  /** A request whose reference is already committed when it looks is answered with the original at once; one that
      meets it only when it inserts its header rolls back, and its next step answers with the original. */
  lemma {:induction false} RepeatIsAnswered(w: World, k: nat)
    requires k < |w.sessions| && CanStep(w, Advance(k))
    requires w.sessions[k].job.PostJob?
      && w.sessions[k].job.reference.Some? && w.sessions[k].job.reference.value != ""
    requires exists t :: t in w.db.txs && w.db.txs[t].reference == w.sessions[k].job.reference
    ensures var s, s' := w.sessions[k], Next(w, Advance(k)).sessions[k];
            && ((s.phase.Looking? && Present(w.db.accounts, s.job.tx.legs)) || s.phase.Resolving? ==>
                  exists t :: t in w.db.txs && w.db.txs[t].reference == s.job.reference
                    && s'.phase == Finished(Replied(t)))
            && (s.phase.Heading? ==> s'.phase.Resolving?)
  {
    hide Look, Resolve, Head, Present, HasReference, Next, AdvanceTurn, CanStep;
    var s := w.sessions[k];
    TakenReference(w.db, s.job.reference.value);
    AnsweredNow(w.db, w.clock, s);
    if s.phase.Looking? || s.phase.Resolving? || s.phase.Heading? { AdvancedSession(w, k); }
  }

  lemma {:induction false} AdvancedSession(w: World, k: nat)
    requires k < |w.sessions| && CanStep(w, Advance(k))
    requires w.sessions[k].phase.Looking? || w.sessions[k].phase.Resolving? || w.sessions[k].phase.Heading?
    ensures var s, s' := w.sessions[k], Next(w, Advance(k)).sessions[k];
            && (s.phase.Looking? ==> s' == Look(w.db, s))
            && (s.phase.Resolving? ==> s' == Resolve(w.db, s).session)
            && (s.phase.Heading? ==> MovesMoney(s.job) && s' == Head(w.db, s).session)
  {
    hide Look, Resolve, Head, Blocked;
  }

  lemma {:induction false} TakenReference(l: Ledger, reference: string)
    requires exists t :: t in l.txs && l.txs[t].reference == Some(reference)
    ensures HasReference(l.txs, reference)
  {
  }

  lemma {:induction false} AnsweredNow(l: Ledger, clock: Time, s: Session)
    requires s.job.PostJob? && s.job.reference.Some? && s.job.reference.value != ""
    requires HasReference(l.txs, s.job.reference.value)
    ensures s.phase.Looking? && Present(l.accounts, s.job.tx.legs) ==>
      exists t :: t in l.txs && l.txs[t].reference == s.job.reference && Look(l, s).phase == Finished(Replied(t))
    ensures s.phase.Resolving? ==>
      exists t :: t in l.txs && l.txs[t].reference == s.job.reference
        && Resolve(l, s).session.phase == Finished(Replied(t))
    ensures s.phase.Heading? ==> Head(l, s).session.phase.Resolving?
  {
    hide HasReference, Present;
    var t := FindReference(l.txs, s.job.reference.value);
    assert t in l.txs && l.txs[t].reference == s.job.reference;
  }
}
