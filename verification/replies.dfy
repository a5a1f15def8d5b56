/** What callers are told, against the history that explains the tables. */
module Replies {
  import opened Prelude
  import opened Seqs
  import opened Money
  import opened DoubleEntry
  import opened Ledger
  import opened Invariants
  import opened Preservation
  import opened Protocol
  import opened Serializability

  /** A session's own commit or abort; the snapshots it schedules afterwards are not part of its answer. */
  function OwnedBy(k: nat): Commit -> bool { (c: Commit) => c.owner == Some(k) && !c.op.TakeSnapshot? }

  function Mine(history: seq<Commit>, k: nat): seq<Commit> { Where(history, OwnedBy(k)) }

  function AtOf(op: Op): Time {
    match op
    case Post(_, _, _, _, at) => at
    case VoidTx(_, _, at) => at
    case _ => 0
  }

  /** The entry is the session's operation, at the entry's own timestamp. */
  predicate Serves(c: Commit, job: Job) { c.op == OpAt(job, AtOf(c.op)) }

  /** Exactly one entry of the session, for its operation, with this outcome. */
  predicate Done(mine: seq<Commit>, job: Job, fault: Option<Error>) {
    |mine| == 1 && mine[0].fault == fault && Serves(mine[0], job)
  }

  /** What the history holds for a session, phase by phase. */
  ghost predicate Told(history: seq<Commit>, retries: nat, k: nat, s: Session) {
    var mine := Mine(history, k);
    match s.phase
    case Looking => !s.begun && mine == []
    case Resolving => Done(mine, s.job, Some(DuplicateReference))
    case Scheduling(_, _) => Done(mine, s.job, None)
    case Finished(reply) => ReplyTold(mine, retries, s, reply)
    case _ => s.begun && mine == []
  }

  /** Every answer is the outcome of the session's one entry; only answers from the opening reads and the
      retry-budget conflict have none. */
  ghost predicate ReplyTold(mine: seq<Commit>, retries: nat, s: Session, reply: Reply) {
    match reply
    case Replied(id) =>
      && MovesMoney(s.job)
      && (if id == s.job.id then Done(mine, s.job, None)
          else (!s.begun && mine == []) || Done(mine, s.job, Some(DuplicateReference)))
    case Changed => (!s.begun && mine == []) || Done(mine, s.job, None)
    case Refused(e) =>
      || (!s.begun && mine == [])
      || (e == ConflictSequence && s.attempt >= retries && mine == [])
      || Done(mine, s.job, Some(e))
  }

  // ----- what one turn adds -----

  predicate Underway(s: Session) { s.phase.Starting? || InTransaction(s) }

  predicate Answering(phase: Phase, job: Job, fault: Option<Error>) {
    match fault
    case Some(e) => phase == Finished(Refused(e)) || (phase.Resolving? && e == DuplicateReference)
    case None =>
      || phase.Scheduling? || phase == Finished(Changed)
      || (MovesMoney(job) && phase == Finished(Replied(job.id)))
  }

  /** A turn inside the transaction either says nothing and stays inside, or records the one outcome it answers with,
      or gives up on an exhausted budget. */
  predicate Speaks(retries: nat, s: Session, turn: Turn) {
    var s' := turn.session;
    && s'.job == s.job && s'.begun == s.begun
    && (|| (turn.commits == [] && Underway(s'))
        || (turn.commits == [] && s'.phase == Finished(Refused(ConflictSequence)) && s'.attempt >= retries)
        || (&& |turn.commits| == 1 && turn.commits[0].op == OpAt(s.job, AtOf(turn.commits[0].op))
            && Answering(s'.phase, s.job, turn.commits[0].fault)))
  }

  lemma {:induction false} OpAtServes(job: Job, at: Time)
    ensures OpAt(job, at) == OpAt(job, AtOf(OpAt(job, at)))
  {
  }

  lemma {:induction false} RolledBackSpeaks(retries: nat, l: Ledger, clock: Time, s: Session)
    ensures forall e :: Speaks(retries, s, RolledBack(l, s, clock, e))
  {
    OpAtServes(s.job, if s.header.Some? then s.header.value.postedAt else clock);
  }

  lemma {:induction false} StaysInside(retries: nat, l: Ledger, s: Session, s': Session)
    requires s'.job == s.job && s'.begun == s.begun && Underway(s')
    ensures Speaks(retries, s, Turn(l, s', []))
  {
  }

  lemma {:induction false} StartSpeaks(retries: nat, l: Ledger, clock: Time, s: Session)
    ensures Speaks(retries, s, Start(l, clock, s))
  {
    hide Speaks, RolledBack, SortBy, Where, WantedIds;
    RolledBackSpeaks(retries, l, clock, s);
    var todo := SortBy(Where(WantedIds(s.job, s.legs), Known(l.accounts)), ById());
    StaysInside(retries, l, s, s.(phase := Locking(todo)));
  }

  lemma {:induction false} CheckSpeaks(retries: nat, l: Ledger, clock: Time, s: Session)
    ensures Speaks(retries, s, Check(l, clock, s))
  {
    hide Speaks, RolledBack, CheckMoney, CheckStatus, CheckLimit;
    if MovesMoney(s.job) {
      CheckMoneySpeaks(retries, l, clock, s);
    } else {
      CheckChangeSpeaks(retries, l, clock, s);
    }
  }

  lemma {:induction false} CheckMoneySpeaks(retries: nat, l: Ledger, clock: Time, s: Session)
    ensures Speaks(retries, s, CheckMoney(l, clock, s))
  {
    hide Speaks, RolledBack, CheckMoney;
    CheckMoneyTurns(l, clock, s);
    RolledBackSpeaks(retries, l, clock, s);
    StaysInside(retries, l, s, s.(phase := Heading(clock)));
  }

  lemma {:induction false} CheckChangeSpeaks(retries: nat, l: Ledger, clock: Time, s: Session)
    ensures s.job.StatusJob? ==> Speaks(retries, s, CheckStatus(l, clock, s))
    ensures s.job.LimitJob? ==> Speaks(retries, s, CheckLimit(l, clock, s))
  {
    hide Speaks, RolledBack, BalanceRead, Settle;
    RolledBackSpeaks(retries, l, clock, s);
    StaysInside(retries, l, s, s.(phase := Writing));
    ChangedSpeaks(retries, l, clock, s);
  }

  lemma {:induction false} ChangedSpeaks(retries: nat, l: Ledger, clock: Time, s: Session)
    ensures Speaks(retries, s, Turn(l, Settle(s, Changed), [Commit(OpOf(s, clock), None, None)]))
  {
    OpAtServes(s.job, if s.header.Some? then s.header.value.postedAt else clock);
  }

  lemma {:induction false} HeadSpeaks(retries: nat, l: Ledger, s: Session)
    requires MovesMoney(s.job) && s.phase.Heading?
    ensures Speaks(retries, s, Head(l, s))
  {
    hide HeaderFault;
    OpAtServes(s.job, if s.header.Some? then s.header.value.postedAt else s.phase.at);
  }

  lemma {:induction false} AppendSpeaks(retries: nat, l: Ledger, clock: Time, s: Session)
    requires MovesMoney(s.job) && Present(s.rows, s.legs)
    ensures Speaks(retries, s, AppendEntries(l, clock, s))
  {
    hide Speaks, RolledBack, SlotsFree;
    RolledBackSpeaks(retries, l, clock, s);
    StaysInside(retries, l, s, s.(entries := Stamp(s.job.id, s.legs, NextSeqs(s.rows, s.legs)), phase := Bumping));
  }

  lemma {:induction false} MarkSpeaks(retries: nat, l: Ledger, clock: Time, s: Session)
    requires s.job.VoidJob?
    ensures Speaks(retries, s, MarkTarget(l, clock, s))
  {
    hide Speaks, RolledBack;
    RolledBackSpeaks(retries, l, clock, s);
    StaysInside(retries, l, s, s.(marked := true, phase := Committing));
  }

  lemma {:induction false} WriteSpeaks(retries: nat, l: Ledger, clock: Time, s: Session)
    requires s.job.StatusJob? || (s.job.LimitJob? && FromDecimalString(s.job.limit).Ok?)
    requires s.job.account in s.rows
    ensures Speaks(retries, s, Write(l, clock, s))
  {
    hide Speaks, RolledBack, ChangeOf, FromDecimalString;
    RolledBackSpeaks(retries, l, clock, s);
    StaysInside(retries, l, s, s.(change := Some(ChangeOf(l, s.job, s.rows[s.job.account])), phase := Committing));
  }

  lemma {:induction false} CommitSpeaks(retries: nat, l: Ledger, clock: Time, s: Session)
    requires if MovesMoney(s.job) then s.header.Some? else s.change.Some?
    ensures Speaks(retries, s, CommitTurn(l, clock, s))
  {
    hide Merge, DueSnapshots;
    OpAtServes(s.job, if s.header.Some? then s.header.value.postedAt else clock);
  }

  lemma {:induction false} InsideSpeaks(retries: nat, l: Ledger, clock: Time, s: Session)
    requires Ready(l, s) && Underway(s)
    ensures Speaks(retries, s, AdvanceTurn(l, clock, s))
  {
    hide Speaks, Start, Check, Head, AppendEntries, MarkTarget, Write, CommitTurn, NextSeqs, FromDecimalString;
    match s.phase
    case Starting => StartSpeaks(retries, l, clock, s);
    case Locking(_) => StaysInside(retries, l, s, Lock(l, s).session);
    case Checking => CheckSpeaks(retries, l, clock, s);
    case Heading(_) => HeadSpeaks(retries, l, s);
    case Appending => AppendSpeaks(retries, l, clock, s);
    case Bumping => StaysInside(retries, l, s, Bump(l, s).session);
    case Marking => MarkSpeaks(retries, l, clock, s);
    case Writing => WriteSpeaks(retries, l, clock, s);
    case Committing => CommitSpeaks(retries, l, clock, s);
    case _ =>
  }

  lemma {:induction false} RetrySpeaks(retries: nat, l: Ledger, s: Session)
    requires InTransaction(s)
    ensures Speaks(retries, s, Retry(l, retries, s))
  {
  }

  // ----- the history of one session -----

  lemma {:induction false} MineOn(history: seq<Commit>, commits: seq<Commit>, k: nat, j: nat)
    requires |commits| <= 1
    ensures Mine(history + Owned(commits, k), j) ==
      if j == k && commits != [] && !commits[0].op.TakeSnapshot?
      then Mine(history, k) + [commits[0].(owner := Some(k))] else Mine(history, j)
  {
    if commits == [] {
      assert history + Owned(commits, k) == history;
    } else {
      assert Owned(commits, k) == [commits[0].(owner := Some(k))];
      WhereSnoc(history, commits[0].(owner := Some(k)), OwnedBy(j));
    }
  }

  lemma {:induction false} SpeaksTold(history: seq<Commit>, retries: nat, k: nat, s: Session, turn: Turn)
    requires Underway(s) && Told(history, retries, k, s) && Speaks(retries, s, turn)
    ensures Told(history + Owned(turn.commits, k), retries, k, turn.session)
  {
    hide Mine;
    MineOn(history, turn.commits, k, k);
  }

  lemma {:induction false} LookingTold(history: seq<Commit>, retries: nat, k: nat, s: Session)
    requires s.phase.Looking? && Told(history, retries, k, s)
    ensures !s.begun && Mine(history, k) == []
  {
    hide Mine;
  }

  lemma {:induction false} SettledTold(history: seq<Commit>, retries: nat, k: nat, s: Session)
    requires !s.begun && Mine(history, k) == []
    ensures forall e :: Told(history, retries, k, Settle(s, Refused(e)))
    ensures Told(history, retries, k, Settle(s, Changed))
    ensures forall id :: MovesMoney(s.job) && id != s.job.id ==> Told(history, retries, k, Settle(s, Replied(id)))
  {
    hide Mine;
  }

  lemma {:induction false} StartedTold(history: seq<Commit>, retries: nat, k: nat, s: Session)
    requires Mine(history, k) == []
    ensures forall legs :: Told(history, retries, k, s.(phase := Starting, begun := true, legs := legs))
    ensures Told(history, retries, k, s.(phase := Starting, begun := true))
  {
    hide Mine;
  }

  lemma {:induction false} LookTold(history: seq<Commit>, retries: nat, k: nat, l: Ledger, s: Session)
    requires s.phase.Looking? && Told(history, retries, k, s) && FreshId(l, s.job)
    ensures Told(history, retries, k, Look(l, s))
  {
    hide Mine, Told, Settle, HasReference, Present, LegsOf, Flip, Of, FromDecimalString, Accepted, Truthy;
    LookingTold(history, retries, k, s);
    SettledTold(history, retries, k, s);
    StartedTold(history, retries, k, s);
  }

  lemma {:induction false} ResolveTold(history: seq<Commit>, retries: nat, k: nat, l: Ledger, s: Session)
    requires s.phase.Resolving? && Told(history, retries, k, s) && FreshId(l, s.job)
    ensures Told(history, retries, k, Resolve(l, s).session)
  {
    hide Mine, HasReference;
  }

  lemma {:induction false} ScheduleTold(history: seq<Commit>, retries: nat, k: nat, s: Session, due: seq<Due>)
    requires MovesMoney(s.job) && s.phase.Scheduling? && Told(history, retries, k, s)
    ensures Told(history, retries, k, Schedule(s, due))
    ensures forall read :: Told(history, retries, k, s.(phase := Scheduling(s.phase.due, read)))
  {
    hide Mine, Done;
    assert Done(Mine(history, k), s.job, None);
    if due == [] {
      assert Schedule(s, due).phase == Finished(Replied(s.job.id));
    }
  }

  lemma {:induction false} SameMineTold(history: seq<Commit>, history': seq<Commit>, retries: nat, k: nat, s: Session)
    requires Told(history, retries, k, s) && Mine(history', k) == Mine(history, k)
    ensures Told(history', retries, k, s)
  {
    hide Mine;
  }

  lemma {:induction false} FreshWhileOpening(l: Ledger, clock: Time, s: Session)
    requires SessionOk(l, clock, s) && (s.phase.Looking? || s.phase.Resolving?)
    ensures FreshId(l, s.job)
  {
    hide HasReference;
  }

  /** One statement of session k, told in the history it leaves. */
  lemma {:induction false} AdvanceTold(history: seq<Commit>, retries: nat, k: nat, l: Ledger, clock: Time, s: Session)
    requires SessionOk(l, clock, s) && Ready(l, s) && !s.phase.Finished? && Told(history, retries, k, s)
    ensures var turn := AdvanceTurn(l, clock, s);
            |turn.commits| <= 1 && Told(history + Owned(turn.commits, k), retries, k, turn.session)
  {
    hide SessionOk, Told, Speaks, Start, Lock, Check, Head, AppendEntries, Bump, MarkTarget, Write, CommitTurn,
      Look, Resolve, FromDecimalString, BalanceUpToSeq;
    if Underway(s) {
      InsideSpeaks(retries, l, clock, s);
      SpeaksOnce(retries, s, AdvanceTurn(l, clock, s));
      SpeaksTold(history, retries, k, s, AdvanceTurn(l, clock, s));
    } else {
      QuietTurn(history, k, l, clock, s);
      if s.phase.Scheduling? {
        ScheduleTold(history, retries, k, s, s.phase.due);
      } else {
        FreshWhileOpening(l, clock, s);
        if s.phase.Looking? {
          LookTold(history, retries, k, l, s);
        } else {
          ResolveTold(history, retries, k, l, s);
        }
      }
    }
  }

  lemma {:induction false} SpeaksOnce(retries: nat, s: Session, turn: Turn)
    requires Speaks(retries, s, turn)
    ensures |turn.commits| <= 1
  {
  }

  lemma {:induction false} QuietTurn(history: seq<Commit>, k: nat, l: Ledger, clock: Time, s: Session)
    requires Ready(l, s) && (s.phase.Looking? || s.phase.Resolving? || s.phase.Scheduling?)
    ensures AdvanceTurn(l, clock, s).commits == []
    ensures history + Owned([], k) == history
  {
    hide Look, HasReference, BalanceUpToSeq;
  }

  // ----- all sessions, every run -----

  /** Every session is told of, and no entry belongs to a session that does not exist yet. */
  ghost predicate AllTold(w: World) {
    && (forall k :: 0 <= k < |w.sessions| ==> Told(w.history, w.retries, k, w.sessions[k]))
    && (forall c :: c in w.history && c.owner.Some? ==> c.owner.value < |w.sessions|)
  }

  lemma {:induction false} TakeTold(w: World, k: nat, turn: Turn)
    requires AllTold(w) && k < |w.sessions| && |turn.commits| <= 1
    requires Told(w.history + Owned(turn.commits, k), w.retries, k, turn.session)
    ensures AllTold(Take(w, k, turn))
  {
    hide Told, Mine;
    var w' := Take(w, k, turn);
    forall j | 0 <= j < |w'.sessions|
      ensures Told(w'.history, w.retries, j, w'.sessions[j])
    {
      if j != k {
        MineOn(w.history, turn.commits, k, j);
        SameMineTold(w.history, w'.history, w.retries, j, w.sessions[j]);
      }
    }
  }

  lemma {:induction false} SnapshotTold(w: World, k: nat)
    requires AllTold(w) && Enabled(w, TakeNow(k)) && CanStep(w, TakeNow(k))
    ensures AllTold(Next(w, TakeNow(k)))
  {
    hide Told, Mine, AllTold, BalanceUpToSeq;
    var s := w.sessions[k];
    var turn := WriteSnapshot(w.db, w.clock, s);
    ToldOf(w, k);
    MineOn(w.history, turn.commits, k, k);
    ScheduleTold(w.history, w.retries, k, s, s.phase.due[1..]);
    SameMineTold(w.history, w.history + Owned(turn.commits, k), w.retries, k, turn.session);
    TakeTold(w, k, turn);
  }

  lemma {:induction false} ToldOf(w: World, k: nat)
    requires AllTold(w) && k < |w.sessions|
    ensures Told(w.history, w.retries, k, w.sessions[k])
  {
  }

  lemma {:induction false} SkipTold(w: World, k: nat)
    requires AllTold(w) && Enabled(w, Skip(k)) && CanStep(w, Skip(k))
    ensures AllTold(Next(w, Skip(k)))
  {
    hide Told, Mine, AllTold;
    ToldOf(w, k);
    assert w.history + Owned([], k) == w.history;
    ScheduleTold(w.history, w.retries, k, w.sessions[k], w.sessions[k].phase.due[1..]);
    TakeTold(w, k, SkipSnapshot(w.db, w.sessions[k]));
  }

  lemma {:induction false} FailTold(w: World, k: nat)
    requires AllTold(w) && Enabled(w, Fail(k)) && CanStep(w, Fail(k))
    ensures AllTold(Next(w, Fail(k)))
  {
    hide Told, Mine, AllTold, Speaks, Retry;
    ToldOf(w, k);
    var turn := Retry(w.db, w.retries, w.sessions[k]);
    RetrySpeaks(w.retries, w.db, w.sessions[k]);
    SpeaksOnce(w.retries, w.sessions[k], turn);
    SpeaksTold(w.history, w.retries, k, w.sessions[k], turn);
    TakeTold(w, k, turn);
  }

  lemma {:induction false} SubmitTold(w: World, job: Job)
    requires AllTold(w) && CanStep(w, Submit(job))
    ensures AllTold(Next(w, Submit(job)))
  {
    hide Told, Mine, CanStep;
    var w' := Next(w, Submit(job));
    assert w' == w.(sessions := w.sessions + [Fresh(job)]);
    NewcomerTold(w, job);
    forall k | 0 <= k < |w'.sessions|
      ensures Told(w'.history, w'.retries, k, w'.sessions[k])
    {
      if k < |w.sessions| { assert w'.sessions[k] == w.sessions[k]; }
    }
  }

  lemma {:induction false} NewcomerTold(w: World, job: Job)
    requires AllTold(w)
    ensures Told(w.history, w.retries, |w.sessions|, Fresh(job))
  {
    hide Where;
    WhereNone(w.history, OwnedBy(|w.sessions|));
  }

  lemma {:induction false} AdministerTold(w: World, op: Op)
    requires AllTold(w) && CanStep(w, Administer(op))
    ensures AllTold(Next(w, Administer(op)))
  {
    hide Told, Apply;
    var w' := Next(w, Administer(op));
    forall j | 0 <= j < |w.sessions|
      ensures Told(w'.history, w.retries, j, w.sessions[j])
    {
      WhereSnoc(w.history, Commit(op, Apply(w.db, op).1, None), OwnedBy(j));
      SameMineTold(w.history, w'.history, w.retries, j, w.sessions[j]);
    }
  }

  lemma {:induction false} StepTold(start: Ledger, w: World, m: Move)
    requires WorldOk(start, w) && AllTold(w) && Enabled(w, m) && CanStep(w, m)
    ensures AllTold(Next(w, m))
  {
    hide SessionOk, Inv, ClockOk, AllApart, Explains, AllTold, Told, Apply, AdvanceTurn, Blocked, Ready;
    match m
    case Submit(job) => SubmitTold(w, job);
    case Advance(k) =>
      ToldOf(w, k);
      AdvanceTold(w.history, w.retries, k, w.db, w.clock, w.sessions[k]);
      TakeTold(w, k, AdvanceTurn(w.db, w.clock, w.sessions[k]));
    case TakeNow(k) => SnapshotTold(w, k);
    case Skip(k) => SkipTold(w, k);
    case Fail(k) => FailTold(w, k);
    case Tick(_) => TickTold(w, m);
    case Administer(op) => AdministerTold(w, op);
  }

  lemma {:induction false} TickTold(w: World, m: Move)
    requires AllTold(w) && m.Tick?
    ensures AllTold(Next(w, m))
  {
    hide Told;
  }

  lemma {:induction false} TraceTold(from: World, moves: seq<Move>, to: World)
    requires Idle(from) && Trace(from, moves, to)
    ensures AllTold(to)
  {
    hide WorldOk, Idle, Next, Enabled, CanStep, AllTold;
    if moves == [] {
      IdleTold(from);
    } else {
      var front, last := moves[..|moves| - 1], moves[|moves| - 1];
      var w :| Trace(from, front, w) && StepsTo(w, last, to);
      TraceTold(from, front, w);
      TraceKeeps(from, front, w);
      StepTold(from.db, w, last);
    }
  }

  lemma {:induction false} IdleTold(w: World)
    requires Idle(w)
    ensures AllTold(w)
  {
  }

  /** Replies and history agree after every interleaving. A request answered with its own id has exactly one entry,
      its operation without fault; a change that was made likewise; a refusal past the opening reads is the fault of
      its one entry, or the conflict of an exhausted retry budget with no entry at all. */
  lemma {:induction false} ReplyMatchesHistory(from: World, moves: seq<Move>, to: World, k: nat)
    requires Idle(from) && Trace(from, moves, to) && k < |to.sessions| && to.sessions[k].phase.Finished?
    ensures ReplyTold(Mine(to.history, k), to.retries, to.sessions[k], to.sessions[k].phase.reply)
  {
    hide Idle, Trace, AllTold, Mine, ReplyTold;
    TraceTold(from, moves, to);
    ToldOf(to, k);
  }

  /** The entry stands at one place of the serial order, and run there it has that very outcome. */
  lemma {:induction false} ReplyIsSerialOutcome(from: World, moves: seq<Move>, to: World, k: nat) returns (i: nat)
    requires Idle(from) && Trace(from, moves, to) && k < |to.sessions| && Mine(to.history, k) != []
    ensures i < |to.history| && to.history[i] == Mine(to.history, k)[0] && to.history[i].owner == Some(k)
    ensures Apply(Run(from.db, Ops(to.history[..i])), to.history[i].op).1 == to.history[i].fault
  {
    hide Idle, Trace, Where, Apply, Run, Ops;
    WhereMembers(to.history, OwnedBy(k));
    var c := Mine(to.history, k)[0];
    assert c in Mine(to.history, k);
    i :| 0 <= i < |to.history| && to.history[i] == c;
    CommitsExplained(from, moves, to, i);
  }

  // ----- answers from the opening reads -----

  /** An answer the opening reads give at once is the one the atomic operation would have at that moment, and changes
      nothing either way; only the void of a void transaction may meet another refusal first. */
  lemma {:induction false} OpeningAnswers(l: Ledger, s: Session, at: Time)
    requires Inv(l) && s.phase.Looking? && Look(l, s).phase.Finished? && !Look(l, s).phase.reply.Replied?
    ensures var reply := Look(l, s).phase.reply;
            && (reply.Changed? ==> Apply(l, OpAt(s.job, at)) == (l, None))
            && (reply.Refused? ==>
                  || Apply(l, OpAt(s.job, at)) == (l, Some(reply.error))
                  || (&& s.job.VoidJob? && s.job.target in l.txs && l.txs[s.job.target].status == Voided
                      && reply.error == InvalidTransaction))
  {
    hide Inv, ApplyPost, ApplyVoid, ApplyStatus, ApplyLimit, HasReference, FromDecimalString, Of, LegsOf, Flip, Present,
      FindReference;
    if s.job.PostJob? {
      AbsentAccount(l, s.job.id, s.job.tx, s.job.kind, s.job.reference, at);
    } else if s.job.VoidJob? {
      UnfitTarget(l, s.job.id, s.job.target, at);
    } else if s.job.StatusJob? {
      SettledStatus(l, s.job.account, s.job.to);
    } else {
      UnreadLimit(l, s.job.account, s.job.limit);
    }
  }

  lemma {:induction false} AbsentAccount(l: Ledger, t: TxId, d: Movement, kind: TxType, reference: Option<string>,
        at: Time)
    ensures !Present(l.accounts, d.legs) ==> ApplyPost(l, t, d, kind, reference, at) == (l, Some(AccountNotFound))
  {
    hide BalancesFor, HasReference;
  }

  lemma {:induction false} UnfitTarget(l: Ledger, t: TxId, target: TxId, at: Time)
    ensures target !in l.txs ==> ApplyVoid(l, t, target, at) == (l, Some(NotFound))
    ensures target in l.txs && Of(Flip(LegsOf(l, target))).Err? ==>
      ApplyVoid(l, t, target, at) == (l, Some(Of(Flip(LegsOf(l, target))).error))
  {
    hide Of, LegsOf, Flip, MovementFault;
  }

  lemma {:induction false} SettledStatus(l: Ledger, a: AccountId, to: Status)
    ensures a !in l.accounts ==> ApplyStatus(l, a, to) == (l, Some(AccountNotFound))
    ensures a in l.accounts && l.accounts[a].status == Closed ==>
      ApplyStatus(l, a, to) == (l, Some(InvalidTransaction))
    ensures a in l.accounts && l.accounts[a].status != Closed && l.accounts[a].status == to ==>
      ApplyStatus(l, a, to) == (l, None)
  {
    hide BalanceRead;
  }

  lemma {:induction false} UnreadLimit(l: Ledger, a: AccountId, limit: string)
    ensures FromDecimalString(limit).Err? ==> ApplyLimit(l, a, limit) == (l, Some(FromDecimalString(limit).error))
  {
    hide FromDecimalString;
  }
}
