/** Ascending locks: no wait ever closes a cycle, somebody can always move, and every session ends. */
module Progress {
  import opened Prelude
  import opened Seqs
  import opened Money
  import opened DoubleEntry
  import opened Ledger
  import opened Invariants
  import opened Protocol
  import opened ProtocolSteps
  import opened Serializability
  import opened Idempotency

  // ----- waiting -----

  /** Session k waits for something session j holds. */
  predicate WaitsFor(w: World, k: nat, j: nat) {
    && k < |w.sessions| && j < |w.sessions| && j != k
    && var s, t := w.sessions[k], w.sessions[j];
       match s.phase
       case Locking(todo) => todo != [] && todo[0] in t.rows
       case Heading(_) =>
         ReferenceOf(s.job).Some? && t.header.Some? && t.header.value.reference == ReferenceOf(s.job)
       case Marking => s.job.VoidJob? && t.marked && t.job.VoidJob? && t.job.target == s.job.target
       case _ => false
  }

  lemma {:induction false} BlockedIffWaiting(w: World, k: nat)
    requires k < |w.sessions|
    ensures Blocked(w, k) <==> exists j :: WaitsFor(w, k, j)
  {
    if Blocked(w, k) {
      match w.sessions[k].phase
      case Locking(todo) =>
        var j :| 0 <= j < |w.sessions| && j != k && todo[0] in w.sessions[j].rows;
        assert WaitsFor(w, k, j);
      case Heading(_) =>
        var j :| 0 <= j < |w.sessions| && j != k && w.sessions[j].header.Some?
          && w.sessions[j].header.value.reference == Some(ReferenceOf(w.sessions[k].job).value);
        assert WaitsFor(w, k, j);
      case Marking =>
        var j :| 0 <= j < |w.sessions| && j != k && w.sessions[j].marked && w.sessions[j].job.VoidJob?
          && w.sessions[j].job.target == w.sessions[k].job.target;
        assert WaitsFor(w, k, j);
    }
  }

  /** Later in the order in which locks are taken: a higher row, or past all rows. */
  predicate Later(s: Session, t: Session) {
    && s.phase.Locking? && s.phase.todo != []
    && (t.phase.Heading? || (t.phase.Locking? && t.phase.todo != [] && s.phase.todo[0] < t.phase.todo[0]))
  }

  lemma {:induction false} HeldRowsShape(l: Ledger, clock: Time, s: Session, a: AccountId)
    requires SessionOk(l, clock, s) && a in s.rows
    ensures InTransaction(s)
    ensures s.phase.Locking? ==> s.phase.todo != [] && a < s.phase.todo[0]
  {
    hide Prepared, Passed, Headed, Stamped, BumpsReady, HoldsAll, ChangeReady, Changeable, Outcome, Scheduled, Answers,
      HasReference, Mirrors, MoneyReady;
  }

  lemma {:induction false} HeaderShape(l: Ledger, clock: Time, s: Session)
    requires SessionOk(l, clock, s) && s.header.Some?
    ensures s.phase.Appending? || s.phase.Bumping? || s.phase.Marking? || s.phase.Committing?
  {
    hide Prepared, Passed, Headed, Stamped, BumpsReady, HoldsAll, ChangeReady, Changeable, Outcome, Scheduled, Answers,
      HasReference, Mirrors, MoneyReady, LocksInOrder;
  }

  /** A session that is waited for and waits itself stands strictly later in the lock order. */
  lemma {:induction false} WaitsClimb(start: Ledger, w: World, k: nat, j: nat)
    requires WorldOk(start, w) && WaitsFor(w, k, j) && Blocked(w, j)
    ensures Later(w.sessions[k], w.sessions[j])
  {
    hide SessionOk, ClockOk, AllApart, Explains, Inv;
    var s, t := w.sessions[k], w.sessions[j];
    LogGuardsNeverFire(start, w, j);
    LogGuardsNeverFire(start, w, k);
    if s.phase.Locking? {
      HeldRowsShape(w.db, w.clock, t, s.phase.todo[0]);
    } else if s.phase.Heading? {
      HeaderShape(w.db, w.clock, t);
    }
  }

  lemma {:induction false} LaterChains(s: Session, t: Session, u: Session)
    requires Later(s, t) && Later(t, u)
    ensures Later(s, u)
  {
  }

  /** Each session in the list waits for the next one. */
  ghost predicate WaitChain(w: World, ks: seq<nat>) {
    && (forall i :: 0 <= i < |ks| ==> ks[i] < |w.sessions|)
    && (forall i, j :: 0 <= i && j == i + 1 && j < |ks| ==> WaitsFor(w, ks[i], ks[j]))
  }

  lemma {:induction false} ChainClimbs(start: Ledger, w: World, ks: seq<nat>)
    requires WorldOk(start, w) && WaitChain(w, ks) && |ks| >= 2 && Blocked(w, ks[|ks| - 1])
    ensures Later(w.sessions[ks[0]], w.sessions[ks[|ks| - 1]])
  {
    hide WorldOk, Later, WaitsFor, Blocked;
    var n := |ks|;
    assert WaitsFor(w, ks[n - 2], ks[n - 1]);
    WaitsClimb(start, w, ks[n - 2], ks[n - 1]);
    if n > 2 {
      BlockedIffWaiting(w, ks[n - 2]);
      ChainClimbs(start, w, ks[..n - 1]);
      LaterChains(w.sessions[ks[0]], w.sessions[ks[n - 2]], w.sessions[ks[n - 1]]);
    }
  }

  /** Deadlock freedom: in no reachable state do the waits close a cycle of any length. */
  lemma {:induction false} NoWaitCycle(from: World, moves: seq<Move>, to: World, ks: seq<nat>)
    requires Idle(from) && Trace(from, moves, to) && ks != []
    ensures !WaitChain(to, ks + [ks[0]])
  {
    hide WorldOk, Trace, Idle, WaitsFor, Blocked, Later;
    TraceKeeps(from, moves, to);
    NotLaterThanItself();
    var cycle := ks + [ks[0]];
    if WaitChain(to, cycle) {
      assert cycle[0] == ks[0] && cycle[|cycle| - 1] == ks[0] && WaitsFor(to, cycle[0], cycle[1]);
      BlockedIffWaiting(to, ks[0]);
      ChainClimbs(from.db, to, cycle);
    }
  }

  lemma {:induction false} NotLaterThanItself()
    ensures forall s :: !Later(s, s)
  {
  }

  // ----- somebody can always move -----

  /** How many accounts still lie above the row a session waits for. */
  ghost function Above(w: World, k: nat): nat
    requires k < |w.sessions|
  {
    var s := w.sessions[k];
    if s.phase.Locking? && s.phase.todo != [] then |set a | a in w.db.accounts && a >= s.phase.todo[0]| + 1 else 0
  }

  lemma {:induction false} LaterIsCloser(start: Ledger, w: World, k: nat, j: nat)
    requires WorldOk(start, w) && k < |w.sessions| && j < |w.sessions| && Later(w.sessions[k], w.sessions[j])
    ensures Above(w, j) < Above(w, k)
  {
    hide SessionOk, ClockOk, AllApart, Explains, Inv;
    var s, t := w.sessions[k], w.sessions[j];
    if t.phase.Locking? {
      WaitedRowExists(w.db, w.clock, s);
      var above := set a | a in w.db.accounts && a >= s.phase.todo[0];
      var closer := set a | a in w.db.accounts && a >= t.phase.todo[0];
      assert closer <= above && s.phase.todo[0] in above && s.phase.todo[0] !in closer;
      SmallerSubset(closer, above, s.phase.todo[0]);
    }
  }

  lemma {:induction false} SmallerSubset(xs: set<AccountId>, ys: set<AccountId>, a: AccountId)
    requires xs <= ys && a in ys && a !in xs
    ensures |xs| < |ys|
    decreases |xs|
  {
    if xs == {} {
      assert ys != {};
    } else {
      var x :| x in xs;
      SmallerSubset(xs - {x}, ys - {x}, a);
    }
  }

  lemma {:induction false} WaitedRowExists(l: Ledger, clock: Time, s: Session)
    requires SessionOk(l, clock, s) && s.phase.Locking?
    ensures s.phase.todo != [] && s.phase.todo[0] in l.accounts
  {
    hide Prepared, Mirrors, Wanted;
  }

  lemma {:induction false} WaitedForIsUnfinished(start: Ledger, w: World, k: nat, j: nat)
    requires WorldOk(start, w) && WaitsFor(w, k, j)
    ensures !w.sessions[j].phase.Finished?
  {
    hide SessionOk, ClockOk, AllApart, Explains, Inv;
    var s, t := w.sessions[k], w.sessions[j];
    if s.phase.Locking? {
      HeldRowsShape(w.db, w.clock, t, s.phase.todo[0]);
    } else if s.phase.Heading? {
      HeaderShape(w.db, w.clock, t);
    } else {
      MarkedPassed(w.db, w.clock, t);
      MarkedIsActive(w.db, w.clock, t);
    }
  }

  lemma {:induction false} MarkedIsActive(l: Ledger, clock: Time, s: Session)
    requires SessionOk(l, clock, s) && s.marked
    ensures s.phase.Committing?
  {
    hide Prepared, Passed, Headed, Stamped, BumpsReady, HoldsAll, ChangeReady, Changeable, Outcome, Scheduled, Answers,
      HasReference, Mirrors, LocksInOrder;
  }

  /** Behind every wait stands a session that can take its next step. */
  lemma {:induction false} SomebodyMoves(start: Ledger, w: World, k: nat) returns (j: nat)
    requires WorldOk(start, w) && k < |w.sessions| && !w.sessions[k].phase.Finished?
    ensures j < |w.sessions| && !w.sessions[j].phase.Finished? && !Blocked(w, j)
    decreases Above(w, k), if Blocked(w, k) then 1 else 0
  {
    hide SessionOk, ClockOk, AllApart, Explains, Inv, Blocked, WaitsFor, Later;
    if !Blocked(w, k) {
      j := k;
    } else {
      BlockedIffWaiting(w, k);
      var i :| WaitsFor(w, k, i);
      WaitedIndex(w, k, i);
      WaitedForIsUnfinished(start, w, k, i);
      if Blocked(w, i) {
        WaitsClimb(start, w, k, i);
        LaterIsCloser(start, w, k, i);
        j := SomebodyMoves(start, w, i);
      } else {
        j := i;
      }
    }
  }

  lemma {:induction false} WaitedIndex(w: World, k: nat, j: nat)
    requires WaitsFor(w, k, j)
    ensures j < |w.sessions|
  {
  }

  /** An unblocked, unfinished session has a move: its next statement, or the snapshot it has read. */
  function MoveOf(w: World, j: nat): Move
    requires j < |w.sessions|
  {
    if w.sessions[j].phase.Scheduling? && w.sessions[j].phase.read.Some? then TakeNow(j) else Advance(j)
  }

  /** Whenever a session is unfinished, some session can move. */
  lemma {:induction false} NeverStuck(from: World, moves: seq<Move>, to: World, k: nat) returns (j: nat)
    requires Idle(from) && Trace(from, moves, to)
    requires k < |to.sessions| && !to.sessions[k].phase.Finished?
    ensures j < |to.sessions| && Enabled(to, MoveOf(to, j)) && CanStep(to, MoveOf(to, j))
  {
    hide WorldOk, Trace, Idle, Blocked, Ready;
    TraceKeeps(from, moves, to);
    j := SomebodyMoves(from.db, to, k);
    StepKeeps(from.db, to, MoveOf(to, j));
  }

  // ----- every session ends -----

  /** Statements left in the current attempt and the snapshots after it. */
  function PhaseWork(s: Session): nat {
    var n := 2 * |s.legs|;
    match s.phase
    case Finished(_) => 0
    case Resolving => 1
    case Scheduling(due, read) => 2 * |due| + (if read == None then 1 else 0)
    case Committing => n + 2
    case Writing => n + 3
    case Marking => n + 3
    case Bumping => n + 4
    case Appending => n + 5
    case Heading(_) => n + 6
    case Checking => n + 7
    case Locking(todo) => n + 7 + |todo|
    case Starting => n + 8 + |WantedIds(s.job, s.legs)|
    case Looking => 0
  }

  /** Statements of one whole attempt. */
  function AttemptWork(s: Session): nat { 2 * |s.legs| + 9 + |WantedIds(s.job, s.legs)| }

  function Work(retries: nat): Session -> int {
    (s: Session) =>
      var left := if s.attempt < retries then retries - s.attempt else 0;
      PhaseWork(s) + (if InTransaction(s) || s.phase.Starting? then left * AttemptWork(s) else 0)
  }

  function LookingOne(): Session -> int { (s: Session) => if s.phase.Looking? then 1 else 0 }

  /** Either one more session has left its opening reads, or as many remain and there is less work left. */
  predicate Lighter(retries: nat, before: seq<Session>, after: seq<Session>) {
    || Total(after, LookingOne()) < Total(before, LookingOne())
    || (Total(after, LookingOne()) == Total(before, LookingOne())
      && Total(after, Work(retries)) < Total(before, Work(retries)))
  }

  lemma {:induction false} WorkNonNegative(retries: nat, sessions: seq<Session>)
    ensures Total(sessions, Work(retries)) >= 0 && Total(sessions, LookingOne()) >= 0
  {
    if sessions != [] {
      WorkNonNegative(retries, sessions[..|sessions| - 1]);
      OneWork(retries, sessions[|sessions| - 1]);
    }
  }

  lemma {:induction false} OneWork(retries: nat, s: Session)
    ensures Work(retries)(s) >= PhaseWork(s)
  {
    if s.attempt < retries { Product(retries - s.attempt, AttemptWork(s)); }
  }

  lemma {:induction false} Product(x: nat, y: nat)
    ensures x * y >= 0
    ensures x > 0 ==> x * y == (x - 1) * y + y
  {
  }

  lemma {:induction false} TotalUpdated<T>(xs: seq<T>, k: nat, x: T, w: T -> int)
    requires k < |xs|
    ensures Total(xs[k := x], w) == Total(xs, w) - w(xs[k]) + w(x)
  {
    var ys := xs[k := x];
    assert xs == xs[..k] + [xs[k]] + xs[k + 1..];
    assert ys == xs[..k] + [x] + xs[k + 1..];
    TotalConcat(xs[..k] + [xs[k]], xs[k + 1..], w);
    TotalConcat(xs[..k] + [x], xs[k + 1..], w);
    TotalSnoc(xs[..k], xs[k], w);
    TotalSnoc(xs[..k], x, w);
  }

  /** A session's own step, measured on that session alone. */
  ghost predicate Closer(retries: nat, s: Session, s': Session) {
    && !s'.phase.Looking?
    && (s.phase.Looking? || Work(retries)(s') < Work(retries)(s))
  }

  lemma {:induction false} CloserIsLighter(w: World, k: nat, turn: Turn)
    requires k < |w.sessions| && Closer(w.retries, w.sessions[k], turn.session)
    ensures Lighter(w.retries, w.sessions, Take(w, k, turn).sessions)
  {
    TotalUpdated(w.sessions, k, turn.session, Work(w.retries));
    TotalUpdated(w.sessions, k, turn.session, LookingOne());
  }

  /** Within an attempt, fewer statements remain after a statement than before it. */
  ghost predicate SameAttempt(s: Session, s': Session) {
    && s'.job == s.job && s'.legs == s.legs && s'.attempt == s.attempt && !s'.phase.Looking?
    && PhaseWork(s') < PhaseWork(s)
    && (InTransaction(s') || s'.phase.Starting? ==> InTransaction(s) || s.phase.Starting?)
  }

  lemma {:induction false} SameAttemptCloser(retries: nat, s: Session, s': Session)
    requires SameAttempt(s, s') && !s.phase.Looking?
    ensures Closer(retries, s, s')
  {
    hide PhaseWork, WantedIds;
    var left := if s.attempt < retries then retries - s.attempt else 0;
    Product(left, AttemptWork(s));
    assert AttemptWork(s') == AttemptWork(s);
  }

  lemma {:induction false} RetryCloser(l: Ledger, retries: nat, s: Session)
    requires InTransaction(s)
    ensures Closer(retries, s, Retry(l, retries, s).session)
  {
    hide WantedIds;
    if s.attempt < retries {
      var s' := Retry(l, retries, s).session;
      assert AttemptWork(s') == AttemptWork(s);
      Product(retries - s.attempt, AttemptWork(s));
      assert PhaseWork(s') < AttemptWork(s);
    } else {
      OneWork(retries, s);
    }
  }

  lemma {:induction false} TodoIsShort(l: Ledger, s: Session)
    ensures |SortBy(Where(WantedIds(s.job, s.legs), Known(l.accounts)), ById())| <= |WantedIds(s.job, s.legs)|
  {
    hide WantedIds;
    var ids := Where(WantedIds(s.job, s.legs), Known(l.accounts));
    WhereMembers(WantedIds(s.job, s.legs), Known(l.accounts));
    IdOrder();
    SortBySorts(ids, ById());
    assert |multiset(SortBy(ids, ById()))| == |multiset(ids)|;
  }

  lemma {:induction false} FinishedShortens(s: Session, s': Session)
    requires !s.phase.Looking? && PhaseWork(s) > 0 && s'.phase.Finished?
    requires s'.job == s.job && s'.legs == s.legs && s'.attempt == s.attempt
    ensures SameAttempt(s, s')
  {
    hide WantedIds;
  }

  lemma {:induction false} WorkRemains(s: Session)
    requires s.phase.Starting? || s.phase.Resolving? || InTransaction(s)
    ensures PhaseWork(s) > 0
  {
    hide WantedIds;
  }

  lemma {:induction false} StartShortens(l: Ledger, clock: Time, s: Session)
    requires s.phase.Starting?
    ensures SameAttempt(s, Start(l, clock, s).session)
  {
    hide SortBy, Where, WantedIds, PhaseWork, SameAttempt;
    TodoIsShort(l, s);
    WorkRemains(s);
    var s' := Start(l, clock, s).session;
    if s'.phase.Finished? {
      FinishedShortens(s, s');
    } else {
      LockingShortens(s, SortBy(Where(WantedIds(s.job, s.legs), Known(l.accounts)), ById()));
    }
  }

  lemma {:induction false} LockingShortens(s: Session, todo: seq<AccountId>)
    requires s.phase.Starting? && |todo| <= |WantedIds(s.job, s.legs)|
    ensures SameAttempt(s, s.(phase := Locking(todo)))
  {
    hide WantedIds;
  }

  lemma {:induction false} CheckShortens(l: Ledger, clock: Time, s: Session)
    requires s.phase.Checking?
    ensures SameAttempt(s, Check(l, clock, s).session)
  {
    hide SameAttempt, PhaseWork, CheckMoney, CheckStatus, CheckLimit;
    WorkRemains(s);
    ReachShortens(s);
    CheckedSession(l, clock, s);
    var s' := Check(l, clock, s).session;
    if s'.phase.Finished? {
      FinishedShortens(s, s');
    }
  }

  lemma {:induction false} CheckedSession(l: Ledger, clock: Time, s: Session)
    ensures var s' := Check(l, clock, s).session;
            || s' == s.(phase := Heading(clock)) || s' == s.(phase := Writing)
            || (s'.phase.Finished? && s'.job == s.job && s'.legs == s.legs && s'.attempt == s.attempt)
  {
    hide CheckMoney, CheckStatus, CheckLimit;
    if MovesMoney(s.job) {
      CheckedMoney(l, clock, s);
    } else {
      CheckedChange(l, clock, s);
    }
  }

  lemma {:induction false} CheckedMoney(l: Ledger, clock: Time, s: Session)
    ensures var s' := CheckMoney(l, clock, s).session;
            || s' == s.(phase := Heading(clock))
            || (s'.phase.Finished? && s'.job == s.job && s'.legs == s.legs && s'.attempt == s.attempt)
  {
    hide OpOf, CheckMoney;
    CheckMoneyTurns(l, clock, s);
  }

  lemma {:induction false} CheckedChange(l: Ledger, clock: Time, s: Session)
    requires !MovesMoney(s.job)
    ensures var s' := (if s.job.StatusJob? then CheckStatus(l, clock, s) else CheckLimit(l, clock, s)).session;
            || s' == s.(phase := Writing)
            || (s'.phase.Finished? && s'.job == s.job && s'.legs == s.legs && s'.attempt == s.attempt)
  {
    hide BalanceRead, OpOf;
  }

  lemma {:induction false} ReachShortens(s: Session)
    requires s.phase.Checking?
    ensures forall at :: SameAttempt(s, s.(phase := Heading(at)))
    ensures SameAttempt(s, s.(phase := Writing))
  {
    hide WantedIds;
  }

  lemma {:induction false} LockShortens(l: Ledger, s: Session)
    requires Ready(l, s) && s.phase.Locking?
    ensures SameAttempt(s, Lock(l, s).session)
  {
    hide WantedIds;
  }

  lemma {:induction false} HeadShortens(l: Ledger, s: Session)
    requires s.phase.Heading? && MovesMoney(s.job)
    ensures SameAttempt(s, Head(l, s).session)
  {
    hide HeaderFault, HeaderOf, SameAttempt, PhaseWork;
    WorkRemains(s);
    HeadedShortens(s, HeaderOf(s.job, s.phase.at));
    var s' := Head(l, s).session;
    if s'.phase.Finished? {
      FinishedShortens(s, s');
    }
  }

  lemma {:induction false} HeadedShortens(s: Session, row: TxRow)
    requires s.phase.Heading?
    ensures SameAttempt(s, s.(header := Some(row), phase := Appending))
    ensures SameAttempt(s, Released(s).(phase := Resolving))
  {
    hide WantedIds;
  }

  /** The statement after this one, once it succeeds. */
  predicate NextPhase(s: Session, s': Session) {
    match s.phase
    case Appending => s'.phase.Bumping?
    case Bumping => s'.phase.Marking? || s'.phase.Committing?
    case Marking => s'.phase.Committing?
    case Writing => s'.phase.Committing?
    case Committing => s'.phase.Scheduling? && |s'.phase.due| == |s.legs| && s'.phase.read == None
    case _ => false
  }

  lemma {:induction false} NextPhaseShortens(s: Session, s': Session)
    requires s'.job == s.job && s'.legs == s.legs && s'.attempt == s.attempt && NextPhase(s, s')
    ensures SameAttempt(s, s')
  {
    hide PhaseWork;
    NextPhaseWorks(s, s');
  }

  lemma {:induction false} NextPhaseWorks(s: Session, s': Session)
    requires s'.legs == s.legs && NextPhase(s, s')
    ensures PhaseWork(s') < PhaseWork(s)
  {
    hide WantedIds;
    var n := 2 * |s.legs|;
    match s.phase
    case Appending => assert PhaseWork(s') == n + 4;
    case Bumping => assert PhaseWork(s') <= n + 3;
    case Marking => assert PhaseWork(s') == n + 2;
    case Writing => assert PhaseWork(s') == n + 2;
    case Committing => assert PhaseWork(s') == n + 1;
  }

  lemma {:induction false} WrittenSession(l: Ledger, clock: Time, s: Session)
    requires Ready(l, s) && (s.phase.Appending? || s.phase.Bumping? || s.phase.Marking? || s.phase.Writing?)
    ensures var s' := AdvanceTurn(l, clock, s).session;
            s'.job == s.job && s'.legs == s.legs && s'.attempt == s.attempt && (s'.phase.Finished? || NextPhase(s, s'))
  {
    hide SlotsFree, Stamp, NextSeqs, ChangeOf, FromDecimalString, Start, Lock, Check, Head, Look, Resolve, ReadBalance,
      OpOf, Truthy;
  }

  lemma {:induction false} WriteShortens(l: Ledger, clock: Time, s: Session)
    requires Ready(l, s) && (s.phase.Appending? || s.phase.Bumping? || s.phase.Marking? || s.phase.Writing?)
    ensures SameAttempt(s, AdvanceTurn(l, clock, s).session)
  {
    hide SameAttempt, PhaseWork, AdvanceTurn, NextPhase, Ready;
    WrittenSession(l, clock, s);
    WorkRemains(s);
    var s' := AdvanceTurn(l, clock, s).session;
    if s'.phase.Finished? {
      FinishedShortens(s, s');
    } else {
      NextPhaseShortens(s, s');
    }
  }

  lemma {:induction false} CommitShortens(l: Ledger, clock: Time, s: Session)
    requires Ready(l, s) && s.phase.Committing?
    ensures SameAttempt(s, CommitTurn(l, clock, s).session)
  {
    hide SameAttempt, PhaseWork, Merge;
    WorkRemains(s);
    var s' := CommitTurn(l, clock, s).session;
    if s'.phase.Finished? {
      FinishedShortens(s, s');
    } else {
      assert |DueSnapshots(s)| == |s.legs|;
      NextPhaseShortens(s, s');
    }
  }

  lemma {:induction false} ScheduleShortens(l: Ledger, clock: Time, s: Session)
    requires Ready(l, s) && s.phase.Scheduling?
    ensures SameAttempt(s, SkipSnapshot(l, s).session)
    ensures s.phase.read.Some? ==> SameAttempt(s, WriteSnapshot(l, clock, s).session)
    ensures s.phase.read == None ==> SameAttempt(s, ReadBalance(l, s).session)
  {
    hide WantedIds, BalanceUpToSeq, InsertSnapshot;
  }

  lemma {:induction false} ResolveShortens(l: Ledger, s: Session)
    requires s.phase.Resolving?
    ensures SameAttempt(s, Resolve(l, s).session)
  {
    hide HasReference, SameAttempt, PhaseWork;
    WorkRemains(s);
    FinishedShortens(s, Resolve(l, s).session);
  }

  lemma {:induction false} AdvanceShortens(l: Ledger, clock: Time, s: Session)
    requires Ready(l, s) && !s.phase.Looking? && !s.phase.Finished? && (s.phase.Scheduling? ==> s.phase.read == None)
    ensures SameAttempt(s, AdvanceTurn(l, clock, s).session)
  {
    hide SameAttempt, Start, Lock, Check, Head, CommitTurn, Resolve, ReadBalance;
    match s.phase
    case Starting => StartShortens(l, clock, s);
    case Locking(_) => LockShortens(l, s);
    case Checking => CheckShortens(l, clock, s);
    case Heading(_) => HeadShortens(l, s);
    case Committing => CommitShortens(l, clock, s);
    case Resolving => ResolveShortens(l, s);
    case Scheduling(_, _) => ScheduleShortens(l, clock, s);
    case _ => WriteShortens(l, clock, s);
  }

  lemma {:induction false} LookLeaves(l: Ledger, s: Session)
    ensures !Look(l, s).phase.Looking?
  {
    hide HasReference, Present, Of, LegsOf, FromDecimalString;
  }

  /** The measure of the whole system falls with every step of every session, so between two submissions only
      finitely many steps are possible, however the sessions interleave and whatever fails. */
  lemma {:induction false} EveryStepCounts(w: World, m: Move)
    requires Enabled(w, m) && CanStep(w, m) && Stepping(m)
    ensures Lighter(w.retries, w.sessions, Next(w, m).sessions)
    ensures Total(Next(w, m).sessions, LookingOne()) >= 0 && Total(Next(w, m).sessions, Work(w.retries)) >= 0
  {
    hide Blocked, Ready, AdvanceTurn, WriteSnapshot, SkipSnapshot, Retry, Lighter, Closer, SameAttempt, Look;
    var s := w.sessions[m.k];
    WorkNonNegative(w.retries, Next(w, m).sessions);
    match m
    case Advance(k) =>
      if s.phase.Looking? {
        LookLeaves(w.db, s);
        LookingCloser(w, s);
      } else {
        AdvanceShortens(w.db, w.clock, s);
        SameAttemptCloser(w.retries, s, AdvanceTurn(w.db, w.clock, s).session);
      }
      CloserIsLighter(w, k, AdvanceTurn(w.db, w.clock, s));
    case TakeNow(k) =>
      ReadyToSchedule(w.db, s);
      ScheduleShortens(w.db, w.clock, s);
      SameAttemptCloser(w.retries, s, WriteSnapshot(w.db, w.clock, s).session);
      CloserIsLighter(w, k, WriteSnapshot(w.db, w.clock, s));
    case Skip(k) =>
      ReadyToSchedule(w.db, s);
      ScheduleShortens(w.db, w.clock, s);
      SameAttemptCloser(w.retries, s, SkipSnapshot(w.db, s).session);
      CloserIsLighter(w, k, SkipSnapshot(w.db, s));
    case Fail(k) =>
      RetryCloser(w.db, w.retries, s);
      CloserIsLighter(w, k, Retry(w.db, w.retries, s));
    case _ =>
  }

  lemma {:induction false} ReadyToSchedule(l: Ledger, s: Session)
    requires Ready(l, s) && s.phase.Scheduling?
    ensures MovesMoney(s.job) && s.phase.due != []
  {
  }

  lemma {:induction false} LookingCloser(w: World, s: Session)
    requires s.phase.Looking? && Ready(w.db, s) && !Look(w.db, s).phase.Looking?
    ensures Closer(w.retries, s, AdvanceTurn(w.db, w.clock, s).session)
  {
    hide Look, Work;
  }

  ghost predicate AllFinished(w: World) {
    forall k :: 0 <= k < |w.sessions| ==> w.sessions[k].phase.Finished?
  }

  lemma {:induction false} TraceStep(from: World, moves: seq<Move>, w: World, m: Move)
    requires Trace(from, moves, w) && Enabled(w, m) && CanStep(w, m)
    ensures Trace(from, moves + [m], Next(w, m))
  {
    hide Enabled, CanStep, Next;
    var longer := moves + [m];
    assert longer[..|longer| - 1] == moves && longer[|longer| - 1] == m;
    assert StepsTo(w, m, Next(w, m));
  }

  lemma {:induction false} StepKeepsBudget(w: World, m: Move)
    requires CanStep(w, m) && Stepping(m)
    ensures Next(w, m).retries == w.retries && |Next(w, m).sessions| == |w.sessions|
  {
    hide Ready, Blocked, AdvanceTurn, WriteSnapshot, SkipSnapshot, Retry;
  }

  lemma {:induction false} Descends(w: World, m: Move)
    requires Enabled(w, m) && CanStep(w, m) && Stepping(m)
    ensures Lighter(w.retries, w.sessions, Next(w, m).sessions)
    ensures Total(Next(w, m).sessions, LookingOne()) >= 0 && Total(Next(w, m).sessions, Work(Next(w, m).retries)) >= 0
    ensures Next(w, m).retries == w.retries && |Next(w, m).sessions| == |w.sessions|
  {
    hide Lighter, Enabled, CanStep, Next;
    EveryStepCounts(w, m);
    StepKeepsBudget(w, m);
  }

  /** From every reachable world, whatever else has happened, the sessions' own steps can be taken until every
      session has answered: nobody is left waiting and nothing outside the sessions is needed. */
  lemma {:induction false} EverybodyFinishes(from: World, moves: seq<Move>, w: World)
    returns (more: seq<Move>, end: World)
    requires Idle(from) && Trace(from, moves, w)
    ensures Trace(from, moves + more, end) && AllFinished(end) && |end.sessions| == |w.sessions|
    ensures forall i :: 0 <= i < |more| ==> Stepping(more[i])
    decreases Total(w.sessions, LookingOne()), Total(w.sessions, Work(w.retries))
  {
    hide Idle, Trace, Enabled, CanStep, Next, Total, Work, LookingOne;
    WorkNonNegative(w.retries, w.sessions);
    if AllFinished(w) {
      more, end := [], w;
      assert moves + more == moves;
    } else {
      var k :| 0 <= k < |w.sessions| && !w.sessions[k].phase.Finished?;
      var j := NeverStuck(from, moves, w, k);
      var m := MoveOf(w, j);
      Descends(w, m);
      TraceStep(from, moves, w, m);
      var rest;
      rest, end := EverybodyFinishes(from, moves + [m], Next(w, m));
      more := [m] + rest;
      assert moves + more == moves + [m] + rest;
    }
  }
}
