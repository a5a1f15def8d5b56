/** Each statement of a session keeps what its phase promises, and every commit or abort is one atomic operation. */
module ProtocolSteps {
  import opened Prelude
  import opened Seqs
  import opened Money
  import opened DoubleEntry
  import opened Ledger
  import opened Invariants
  import opened Preservation
  import opened Protocol

  /** A turn either touched no table, or is exactly one atomic operation with the outcome the session saw. */
  ghost predicate Explained(l: Ledger, turn: Turn) {
    if turn.commits == [] then turn.db == l
    else
      && |turn.commits| == 1
      && Timely(l, turn.commits[0].op)
      && Apply(l, turn.commits[0].op) == (turn.db, turn.commits[0].fault)
  }

  ghost predicate TurnOk(l: Ledger, clock: Time, turn: Turn) {
    SessionOk(turn.db, clock, turn.session) && Explained(l, turn)
  }

  // ----- timestamps -----

  lemma {:induction false} ClockBounds(l: Ledger, clock: Time, a: AccountId)
    requires Linked(l) && ClockOk(l, clock)
    ensures PostedBefore(l, a, clock)
  {
    WhereMembers(l.entries, OfAccount(a));
  }

  lemma {:induction false} NowIsTimely(l: Ledger, clock: Time, job: Job)
    requires Linked(l) && ClockOk(l, clock)
    ensures Timely(l, OpAt(job, clock))
  {
    forall a: AccountId
      ensures PostedBefore(l, a, clock)
    {
      ClockBounds(l, clock, a);
    }
  }

  /** A timestamp taken under the row locks is timely for the movement, however late its header is inserted. */
  lemma {:induction false} TimedIsTimely(l: Ledger, clock: Time, s: Session, at: Time)
    requires MovesMoney(s.job) && Prepared(l, s.job, s.legs) && Timed(l, clock, s.legs, at)
    ensures Timely(l, OpAt(s.job, at))
  {
    if s.job.VoidJob? {
      forall i | 0 <= i < |LegsOf(l, s.job.target)|
        ensures PostedBefore(l, LegsOf(l, s.job.target)[i].accountId, at)
      {
        assert s.legs[i].accountId == LegsOf(l, s.job.target)[i].accountId;
      }
    }
  }

  lemma {:induction false} HeadedIsTimely(l: Ledger, clock: Time, s: Session)
    requires Prepared(l, s.job, s.legs) && Headed(l, clock, s.job, s.legs, s.header)
    ensures Timely(l, OpOf(s, clock))
  {
    hide Prepared, Timed, Timely;
    TimedIsTimely(l, clock, s, s.header.value.postedAt);
  }

  // ----- aborts -----

  lemma {:induction false} AbortOk(l: Ledger, clock: Time, s: Session, e: Error)
    requires Timely(l, OpOf(s, clock)) && Apply(l, OpOf(s, clock)) == (l, Some(e)) && FreshId(l, s.job)
    ensures TurnOk(l, clock, RolledBack(l, s, clock, e))
  {
    hide Timely, Apply;
  }

  /** The atomic movement a money session stands for is refused for what its statements were refused for. */
  lemma {:induction false} MovementRefused(l: Ledger, s: Session, at: Time, e: Error)
    requires MovesMoney(s.job) && Prepared(l, s.job, s.legs)
    requires MovementFault(l, s.job.id, HeaderOf(s.job, at), s.legs) == Some(e)
    ensures Apply(l, OpAt(s.job, at)) == (l, Some(e))
  {
    hide MovementFault;
  }

  // ----- looking and starting -----

  lemma {:induction false} LookOk(l: Ledger, clock: Time, s: Session)
    requires SessionOk(l, clock, s) && s.phase.Looking? && Linked(l)
    ensures SessionOk(l, clock, Look(l, s)) && Look(l, s).rows == map[] && Look(l, s).header == None
  {
    hide TxEntries, Balance, Of, FromDecimalString;
    match s.job
    case PostJob(_, _, _, _) => LookPost(l, clock, s);
    case VoidJob(_, _) => LookVoid(l, clock, s);
    case StatusJob(_, _) =>
    case LimitJob(_, _) =>
  }

  lemma {:induction false} LookPost(l: Ledger, clock: Time, s: Session)
    requires Clean(s) && s.legs == [] && FreshId(l, s.job) && s.job.PostJob?
    ensures SessionOk(l, clock, Look(l, s)) && Look(l, s).rows == map[] && Look(l, s).header == None
  {
    hide Accepted, ConvertAt;
  }

  lemma {:induction false} LookVoid(l: Ledger, clock: Time, s: Session)
    requires Clean(s) && s.legs == [] && FreshId(l, s.job) && s.job.VoidJob? && Linked(l)
    ensures SessionOk(l, clock, Look(l, s)) && Look(l, s).rows == map[] && Look(l, s).header == None
  {
    hide LegsOf, Of;
    if Look(l, s).phase.Starting? {
      VoidLegsPresent(l, s.job.target);
    }
  }

  lemma {:induction false} VoidLegsPresent(l: Ledger, target: TxId)
    requires Linked(l) && Of(Flip(LegsOf(l, target))).Ok?
    ensures Of(Flip(LegsOf(l, target))) == Ok(Draft(Flip(LegsOf(l, target)), None))
    ensures Present(l.accounts, Flip(LegsOf(l, target)))
  {
    WhereMembers(l.entries, OfTx(target));
    var es := TxEntries(l, target);
    forall i | 0 <= i < |es|
      ensures es[i].accountId in l.accounts
    {
      assert es[i] in es;
    }
  }

  lemma {:induction false} IdOrder()
    ensures TotalOrder(ById())
  {
  }

  lemma {:induction false} WantedDistinct(l: Ledger, s: Session)
    requires Prepared(l, s.job, s.legs)
    ensures forall i, j :: 0 <= i < j < |WantedIds(s.job, s.legs)| ==>
      WantedIds(s.job, s.legs)[i] != WantedIds(s.job, s.legs)[j]
    ensures forall a :: a in WantedIds(s.job, s.legs) <==> a in Wanted(s.job, s.legs)
    ensures MovesMoney(s.job) ==>
      && |s.legs| >= 2 && DistinctAccounts(s.legs)
      && Accepted(Draft(s.legs, if s.job.PostJob? then s.job.tx.fx else None))
  {
    hide TxEntries, FromDecimalString;
    var ids := WantedIds(s.job, s.legs);
    if MovesMoney(s.job) {
      OfAccepts(s.legs);
      if s.job.PostJob? { assert s.job.tx == Draft(s.legs, s.job.tx.fx); }
      forall a
        ensures a in ids <==> a in Wanted(s.job, s.legs)
      {
        if a in ids {
          var i :| 0 <= i < |ids| && ids[i] == a;
          assert s.legs[i].accountId == a;
        }
        if a in Wanted(s.job, s.legs) {
          var i :| 0 <= i < |s.legs| && s.legs[i].accountId == a;
          assert ids[i] == a;
        }
      }
    }
  }

  /** Distinct rows in non-descending order are strictly ascending. */
  lemma {:induction false} SortedDistinctAscends(ids: seq<AccountId>, sorted: seq<AccountId>)
    requires forall i, j :: 0 <= i < j < |ids| ==> ids[i] != ids[j]
    requires Sorted(sorted, ById()) && multiset(sorted) == multiset(ids)
    ensures Ascending(sorted)
    ensures forall a :: a in sorted <==> a in ids
  {
    forall a
      ensures a in sorted <==> a in ids
    {
      assert a in multiset(sorted) <==> a in multiset(ids);
    }
    forall i, j | 0 <= i < j < |sorted|
      ensures sorted[i] < sorted[j]
    {
      assert ById()(sorted[i], sorted[j]);
      if sorted[i] == sorted[j] {
        TwiceCounts(sorted, i, j);
        OnceCounts(ids, sorted[i]);
        assert false;
      }
    }
  }

  lemma {:induction false} TwiceCounts(xs: seq<AccountId>, i: nat, j: nat)
    requires i < j < |xs| && xs[i] == xs[j]
    ensures multiset(xs)[xs[i]] >= 2
  {
    assert xs == xs[..j] + xs[j..];
    assert xs[..j][i] in multiset(xs[..j]);
    assert xs[j..][0] in multiset(xs[j..]);
  }

  lemma {:induction false} OnceCounts(xs: seq<AccountId>, a: AccountId)
    requires forall i, j :: 0 <= i < j < |xs| ==> xs[i] != xs[j]
    ensures multiset(xs)[a] <= 1
  {
    if xs != [] {
      var front, last := xs[..|xs| - 1], xs[|xs| - 1];
      OnceCounts(front, a);
      assert xs == front + [last];
      if last == a {
        assert a !in front;
      }
    }
  }

  lemma {:induction false} WhereDistinct(ids: seq<AccountId>, p: AccountId -> bool)
    requires forall i, j :: 0 <= i < j < |ids| ==> ids[i] != ids[j]
    ensures forall i, j :: 0 <= i < j < |Where(ids, p)| ==> Where(ids, p)[i] != Where(ids, p)[j]
  {
    if ids != [] {
      var front, last := ids[..|ids| - 1], ids[|ids| - 1];
      WhereDistinct(front, p);
      WhereMembers(front, p);
      assert last !in front;
    }
  }

  lemma {:induction false} TodoInOrder(l: Ledger, s: Session)
    requires Prepared(l, s.job, s.legs)
    ensures var todo := SortBy(Where(WantedIds(s.job, s.legs), Known(l.accounts)), ById());
            && Ascending(todo) && (forall a :: a in todo <==> a in Wanted(s.job, s.legs) && a in l.accounts)
  {
    hide Prepared;
    var ids := Where(WantedIds(s.job, s.legs), Known(l.accounts));
    WantedDistinct(l, s);
    WhereMembers(WantedIds(s.job, s.legs), Known(l.accounts));
    WhereDistinct(WantedIds(s.job, s.legs), Known(l.accounts));
    IdOrder();
    SortBySorts(ids, ById());
    SortedDistinctAscends(ids, SortBy(ids, ById()));
  }

  lemma {:induction false} StartOk(l: Ledger, clock: Time, s: Session)
    requires SessionOk(l, clock, s) && s.phase.Starting? && Linked(l) && ClockOk(l, clock)
    ensures TurnOk(l, clock, Start(l, clock, s))
    ensures Start(l, clock, s).session.rows == map[] && Start(l, clock, s).session.header == None
  {
    hide LegsOf, FromDecimalString, SortBy, Where, Timely;
    var todo := SortBy(Where(WantedIds(s.job, s.legs), Known(l.accounts)), ById());
    TodoInOrder(l, s);
    if todo == [] {
      AllKnown(l, s);
      NowIsTimely(l, clock, s.job);
      AbortOk(l, clock, s, AccountNotFound);
    } else {
      WantedKnown(l, s, todo);
    }
  }

  /** Only a limit change can find its account missing: every other job has read its rows before. */
  lemma {:induction false} AllKnown(l: Ledger, s: Session)
    requires Prepared(l, s.job, s.legs) && forall a :: a in Wanted(s.job, s.legs) ==> a !in l.accounts
    ensures s.job.LimitJob? && Apply(l, OpAt(s.job, 0)) == (l, Some(AccountNotFound))
  {
    hide LegsOf, FromDecimalString;
    var _ := SomeWanted(l, s);
  }

  lemma {:induction false} SomeWanted(l: Ledger, s: Session) returns (a: AccountId)
    requires Prepared(l, s.job, s.legs)
    ensures a in Wanted(s.job, s.legs) && (!s.job.LimitJob? ==> a in l.accounts)
  {
    hide LegsOf, FromDecimalString;
    WantedDistinct(l, s);
    if MovesMoney(s.job) {
      a := s.legs[0].accountId;
    } else {
      a := s.job.account;
    }
  }

  lemma {:induction false} WantedKnown(l: Ledger, s: Session, todo: seq<AccountId>)
    requires Prepared(l, s.job, s.legs) && todo != []
    requires forall a :: a in todo <==> a in Wanted(s.job, s.legs) && a in l.accounts
    ensures forall a :: a in todo <==> a in Wanted(s.job, s.legs)
  {
    hide LegsOf, FromDecimalString;
    if s.job.LimitJob? {
      assert todo[0] in todo;
    }
  }

  // ----- locking and checking -----

  lemma {:induction false} LockOk(l: Ledger, clock: Time, s: Session)
    requires SessionOk(l, clock, s) && s.phase.Locking?
    ensures s.phase.todo != [] && s.phase.todo[0] in l.accounts
    ensures TurnOk(l, clock, Lock(l, s))
    ensures Lock(l, s).session.rows.Keys == s.rows.Keys + {s.phase.todo[0]} && Lock(l, s).session.header == None
  {
    hide Prepared, Wanted;
    LocksOn(l, Wanted(s.job, s.legs), s.rows, s.phase.todo);
  }

  lemma {:induction false} LocksOn(l: Ledger, wanted: set<AccountId>, rows: map<AccountId, Account>,
        todo: seq<AccountId>)
    requires LocksInOrder(l, wanted, rows, todo) && Mirrors(l, rows)
    ensures var rows' := rows[todo[0] := l.accounts[todo[0]]];
            && rows'.Keys == rows.Keys + {todo[0]} && Mirrors(l, rows')
            && (if todo[1..] == [] then HoldsAll(l, wanted, rows') else LocksInOrder(l, wanted, rows', todo[1..]))
  {
    var rows' := rows[todo[0] := l.accounts[todo[0]]];
    assert todo == [todo[0]] + todo[1..];
    if todo[1..] == [] {
      assert rows'.Keys == wanted;
    }
  }

  /** The gate reads only the rows of its own legs. */
  lemma {:induction false} GateSameRows(rows: map<AccountId, Account>, others: map<AccountId, Account>,
        balances: map<AccountId, int>, legs: seq<Leg>)
    requires forall i :: 0 <= i < |legs| ==>
      && legs[i].accountId in rows && legs[i].accountId in others
      && rows[legs[i].accountId] == others[legs[i].accountId]
    ensures Gate(rows, balances, legs) == Gate(others, balances, legs)
  {
    FundsSameRows(rows, others, balances, legs);
  }

  lemma {:induction false} FundsSameRows(rows: map<AccountId, Account>, others: map<AccountId, Account>,
        balances: map<AccountId, int>, legs: seq<Leg>)
    requires forall i :: 0 <= i < |legs| ==>
      && legs[i].accountId in rows && legs[i].accountId in others
      && rows[legs[i].accountId] == others[legs[i].accountId]
    ensures FundsFault(rows, balances, legs) == FundsFault(others, balances, legs)
  {
    if legs != [] {
      FundsSameRows(rows, others, balances, legs[..|legs| - 1]);
    }
  }

  /** Under its locks a session sees, for each leg, exactly the committed row. */
  lemma {:induction false} HeldLegs(l: Ledger, legs: seq<Leg>, rows: map<AccountId, Account>)
    requires HoldsAll(l, AccountsOf(legs), rows)
    ensures forall i :: 0 <= i < |legs| ==>
      && legs[i].accountId in rows && legs[i].accountId in l.accounts
      && rows[legs[i].accountId] == l.accounts[legs[i].accountId]
    ensures Present(rows, legs) && Present(l.accounts, legs) && NextSeqs(rows, legs) == NextSeqs(l.accounts, legs)
  {
    forall i | 0 <= i < |legs|
      ensures legs[i].accountId in rows
    {
      assert legs[i].accountId in AccountsOf(legs);
    }
  }

  lemma {:induction false} HeldGate(l: Ledger, legs: seq<Leg>, rows: map<AccountId, Account>)
    requires HoldsAll(l, AccountsOf(legs), rows)
    ensures Gate(rows, BalancesFor(l, AccountsOf(legs), None), legs) ==
            Gate(l.accounts, BalancesFor(l, AccountsOf(legs), None), legs)
  {
    hide HoldsAll;
    HeldLegs(l, legs, rows);
    GateSameRows(rows, l.accounts, BalancesFor(l, AccountsOf(legs), None), legs);
  }

  /** The gate a session evaluates on its locked rows passes exactly when every leg is allowed on the full-history
      balance its entry will extend. */
  lemma {:induction false} GateDecides(l: Ledger, clock: Time, s: Session)
    requires SessionOk(l, clock, s) && s.phase.Checking? && MovesMoney(s.job) && Inv(l)
    ensures Gate(s.rows, BalancesFor(l, AccountsOf(s.legs), None), s.legs) == None <==>
      forall i :: 0 <= i < |s.legs| ==> LegAllowed(l, s.legs[i])
  {
    hide Prepared, Gate, BalancesFor, HoldsAll, Inv, LegAllowed, AccountsOk, SnapshotsOk;
    HeldGate(l, s.legs, s.rows);
    ReadsSound(l);
    GateExact(l, s.legs);
  }

  lemma {:induction false} TimedNow(l: Ledger, clock: Time, legs: seq<Leg>)
    requires Linked(l) && ClockOk(l, clock)
    ensures Timed(l, clock, legs, clock)
  {
    forall i | 0 <= i < |legs|
      ensures PostedBefore(l, legs[i].accountId, clock)
    {
      ClockBounds(l, clock, legs[i].accountId);
    }
  }

  lemma {:induction false} CheckMoneyOk(l: Ledger, clock: Time, s: Session)
    requires SessionOk(l, clock, s) && s.phase.Checking? && MovesMoney(s.job) && Inv(l) && ClockOk(l, clock)
    ensures TurnOk(l, clock, CheckMoney(l, clock, s))
  {
    hide Prepared, Gate, BalancesFor, Timely, Timed, HoldsAll, Inv, LegAllowed, AccountsOk, SnapshotsOk, Apply;
    HeldGate(l, s.legs, s.rows);
    ReadsSound(l);
    GateExact(l, s.legs);
    LinkedOf(l);
    var gate := Gate(s.rows, BalancesFor(l, AccountsOf(s.legs), None), s.legs);
    if gate.Some? {
      MovementGated(l, s, clock, gate.value);
      UnusedId(l, s.job, s.legs);
      NowIsTimely(l, clock, s.job);
      AbortOk(l, clock, s, gate.value);
    } else {
      TimedNow(l, clock, s.legs);
    }
  }

  lemma {:induction false} MovementGated(l: Ledger, s: Session, at: Time, e: Error)
    requires MovesMoney(s.job) && Prepared(l, s.job, s.legs)
    requires Gate(l.accounts, BalancesFor(l, AccountsOf(s.legs), None), s.legs) == Some(e)
    ensures Apply(l, OpAt(s.job, at)) == (l, Some(e))
  {
    hide Gate, BalancesFor, Prepared, Apply;
    MovementRefused(l, s, at, e);
  }

  lemma {:induction false} CheckStatusOk(l: Ledger, clock: Time, s: Session)
    requires SessionOk(l, clock, s) && s.phase.Checking? && s.job.StatusJob? && Inv(l)
    ensures TurnOk(l, clock, CheckStatus(l, clock, s))
  {
    hide Inv, BalanceRead, Balance, EventStream, MaxEventSeq;
    assert s.job.account in s.rows && s.rows[s.job.account] == l.accounts[s.job.account];
    ReadIsBalance(l, s.job.account);
  }

  lemma {:induction false} ReadIsBalance(l: Ledger, a: AccountId)
    requires Inv(l)
    ensures BalanceRead(l, a, None) == Balance(l, a)
  {
    CurrentRead(l, a);
  }

  lemma {:induction false} CheckLimitOk(l: Ledger, clock: Time, s: Session)
    requires SessionOk(l, clock, s) && s.phase.Checking? && s.job.LimitJob?
    ensures TurnOk(l, clock, CheckLimit(l, clock, s))
  {
    hide FromDecimalString, ToDecimalString, EventStream, MaxEventSeq;
    assert s.job.account in s.rows && s.rows[s.job.account] == l.accounts[s.job.account];
  }

  lemma {:induction false} CheckOk(l: Ledger, clock: Time, s: Session)
    requires SessionOk(l, clock, s) && s.phase.Checking? && Inv(l) && ClockOk(l, clock)
    ensures TurnOk(l, clock, Check(l, clock, s))
  {
    hide SessionOk, TurnOk, Inv, CheckMoney, CheckStatus, CheckLimit;
    if MovesMoney(s.job) {
      CheckMoneyOk(l, clock, s);
    } else if s.job.StatusJob? {
      CheckStatusOk(l, clock, s);
    } else {
      CheckLimitOk(l, clock, s);
    }
  }

  // ----- header, entries, sequences -----

  /** Past the gate, only a duplicate reference can refuse the header. */
  lemma {:induction false} HeadOk(l: Ledger, clock: Time, s: Session)
    requires SessionOk(l, clock, s) && s.phase.Heading? && Inv(l)
    ensures MovesMoney(s.job) && TurnOk(l, clock, Head(l, s))
  {
    hide HoldsAll, Inv, LegAllowed, AccountsOk, SnapshotsOk, Prepared, Timed, HeaderFault, TurnOk, HeaderOf;
    ReadsSound(l);
    GateExact(l, s.legs);
    match HeaderFault(l.txs, s.job.id, HeaderOf(s.job, s.phase.at))
    case None => HeadAccepted(l, clock, s);
    case Some(e) => HeadRefused(l, clock, s, e);
  }

  lemma {:induction false} HeadAccepted(l: Ledger, clock: Time, s: Session)
    requires MovesMoney(s.job) && s.phase.Heading? && NothingWritten(s) && Passed(l, s.job, s.legs, s.rows)
    requires Timed(l, clock, s.legs, s.phase.at)
    requires HeaderFault(l.txs, s.job.id, HeaderOf(s.job, s.phase.at)) == None
    ensures TurnOk(l, clock, Head(l, s))
  {
    hide Passed, Headed, HeaderFault, HeaderOf, Timed, Apply, Timely;
    HeadedAt(l, clock, s.job, s.legs, s.phase.at);
  }

  lemma {:induction false} HeadRefused(l: Ledger, clock: Time, s: Session, e: Error)
    requires MovesMoney(s.job) && s.phase.Heading? && NothingWritten(s) && Prepared(l, s.job, s.legs)
    requires Timed(l, clock, s.legs, s.phase.at)
    requires Gate(l.accounts, BalancesFor(l, AccountsOf(s.legs), None), s.legs) == None
    requires HeaderFault(l.txs, s.job.id, HeaderOf(s.job, s.phase.at)) == Some(e)
    ensures TurnOk(l, clock, Head(l, s))
  {
    hide Timely, Timed, Apply, Prepared, Gate, BalancesFor, HasReference, HeaderFault, TurnOk, RolledBack, FreshId;
    HeaderRefused(l, s, s.phase.at, e);
    TimedIsTimely(l, clock, s, s.phase.at);
    UnusedId(l, s.job, s.legs);
    assert OpOf(s, s.phase.at) == OpAt(s.job, s.phase.at);
    if e == DuplicateReference && Truthy(HeaderOf(s.job, s.phase.at).reference) {
      DuplicateFound(l, s.job, s.phase.at);
      TurnsToResolve(l, clock, s, e);
    } else {
      AbortOk(l, s.phase.at, s, e);
      AbortAnyTime(l, s.phase.at, clock, s, e);
    }
  }

  lemma {:induction false} AbortAnyTime(l: Ledger, at: Time, clock: Time, s: Session, e: Error)
    requires TurnOk(l, at, RolledBack(l, s, at, e))
    ensures TurnOk(l, clock, RolledBack(l, s, at, e))
  {
    hide Timely, Apply, Outcome;
  }

  lemma {:induction false} DuplicateFound(l: Ledger, job: Job, at: Time)
    requires MovesMoney(job) && HeaderFault(l.txs, job.id, HeaderOf(job, at)) == Some(DuplicateReference)
    ensures job.PostJob? && job.reference.Some? && HasReference(l.txs, job.reference.value)
  {
    hide HasReference;
  }

  /** A taken reference ends the transaction and leads to the row that holds it. */
  lemma {:induction false} TurnsToResolve(l: Ledger, clock: Time, s: Session, e: Error)
    requires s.phase.Heading? && s.job.PostJob? && FreshId(l, s.job) && Truthy(s.job.reference)
    requires HasReference(l.txs, s.job.reference.value)
    requires Timely(l, OpOf(s, s.phase.at)) && Apply(l, OpOf(s, s.phase.at)) == (l, Some(e))
    ensures TurnOk(l, clock, Turn(l, Released(s).(phase := Resolving), [Commit(OpOf(s, s.phase.at), Some(e), None)]))
  {
    hide Timely, Apply, HasReference, FreshId, OpOf, SessionOk, Released, Clean;
    ReleasedClean(s, Resolving);
    assert Resolves(l, Released(s).(phase := Resolving));
    ResolvingOk(l, clock, Released(s).(phase := Resolving));
  }

  lemma {:induction false} ReleasedClean(s: Session, phase: Phase)
    ensures var s' := Released(s).(phase := phase);
            Clean(s') && s'.job == s.job && s'.phase == phase
  {
  }

  lemma {:induction false} ResolvingOk(l: Ledger, clock: Time, s: Session)
    requires s.phase.Resolving? && Resolves(l, s)
    ensures SessionOk(l, clock, s)
  {
    hide Appendable, Bumpable, Markable, Writable, Committable, Resolves;
  }

  lemma {:induction false} UnusedId(l: Ledger, job: Job, legs: seq<Leg>)
    requires Prepared(l, job, legs)
    ensures FreshId(l, job)
  {
  }

  lemma {:induction false} HeaderRefused(l: Ledger, s: Session, at: Time, e: Error)
    requires MovesMoney(s.job) && Prepared(l, s.job, s.legs)
    requires Gate(l.accounts, BalancesFor(l, AccountsOf(s.legs), None), s.legs) == None
    requires HeaderFault(l.txs, s.job.id, HeaderOf(s.job, at)) == Some(e)
    ensures Apply(l, OpAt(s.job, at)) == (l, Some(e))
  {
    hide Gate, BalancesFor, Prepared, Apply, HeaderFault;
    MovementRefused(l, s, at, e);
  }

  lemma {:induction false} HeadedAt(l: Ledger, clock: Time, job: Job, legs: seq<Leg>, at: Time)
    requires MovesMoney(job) && Timed(l, clock, legs, at)
    requires HeaderFault(l.txs, job.id, HeaderOf(job, at)) == None
    ensures Headed(l, clock, job, legs, Some(HeaderOf(job, at)))
  {
  }

  /** UNIQUE(account_id, seq) never fires: under the row locks the next position is free. */
  lemma {:induction false} HeldSlotsFree(l: Ledger, s: Session)
    requires Passed(l, s.job, s.legs, s.rows) && Inv(l)
    ensures Present(s.rows, s.legs)
    ensures SlotsFree(l.entries, Stamp(s.job.id, s.legs, NextSeqs(s.rows, s.legs)))
  {
    hide Prepared, SlotsFree, AccountOk, HoldsAll;
    HeldLegs(l, s.legs, s.rows);
    WantedDistinct(l, s);
    UnusedId(l, s.job, s.legs);
    SlotsAlwaysFree(l, s.job.id, s.legs);
  }

  lemma {:induction false} AppendOk(l: Ledger, clock: Time, s: Session)
    requires SessionOk(l, clock, s) && s.phase.Appending? && Inv(l)
    ensures MovesMoney(s.job) && Present(s.rows, s.legs) && TurnOk(l, clock, AppendEntries(l, clock, s))
    ensures AppendEntries(l, clock, s).session.phase.Bumping?
  {
    hide Prepared, SlotsFree, Inv, HoldsAll, Cleared, Headed;
    HeldSlotsFree(l, s);
  }

  lemma {:induction false} BumpOk(l: Ledger, clock: Time, s: Session)
    requires SessionOk(l, clock, s) && s.phase.Bumping? && Inv(l)
    ensures Present(s.rows, s.legs) && TurnOk(l, clock, Bump(l, s))
  {
    hide Prepared, HoldsAll, Cleared, Headed, NextSeqs, Stamped, BumpsReady, Inv;
    BumpsNow(s.job, s.legs, s.rows, s.entries);
    if s.job.VoidJob? { TargetKnown(l, s.job, s.legs); }
  }

  lemma {:induction false} BumpsNow(job: Job, legs: seq<Leg>, rows: map<AccountId, Account>, entries: seq<Entry>)
    requires Stamped(job, legs, rows, entries)
    ensures Present(rows, legs) && BumpsReady(legs, rows, NextSeqs(rows, legs))
  {
  }

  // ----- marking the original void -----

  lemma {:induction false} MarkOk(l: Ledger, clock: Time, s: Session)
    requires SessionOk(l, clock, s) && s.phase.Marking? && Inv(l)
    ensures s.job.VoidJob? && TurnOk(l, clock, MarkTarget(l, clock, s))
  {
    hide Prepared, HoldsAll, Cleared, Headed, Stamped, BumpsReady, Inv, Timely, Apply;
    TargetKnown(l, s.job, s.legs);
    if l.txs[s.job.target].status != Posted {
      UnusedId(l, s.job, s.legs);
      HeadedIsTimely(l, clock, s);
      LateVoidRefused(l, clock, s);
      AbortOk(l, clock, s, InvalidTransaction);
    }
  }

  lemma {:induction false} TargetKnown(l: Ledger, job: Job, legs: seq<Leg>)
    requires Prepared(l, job, legs) && job.VoidJob?
    ensures job.target in l.txs
  {
  }

  lemma {:induction false} MovementPasses(l: Ledger, clock: Time, s: Session)
    requires Inv(l) && Prepared(l, s.job, s.legs) && Cleared(l, s.legs) && Headed(l, clock, s.job, s.legs, s.header)
    ensures s.header.Some? && MovesMoney(s.job)
    ensures MovementFault(l, s.job.id, s.header.value, s.legs) == None
    ensures s.header.value == HeaderOf(s.job, s.header.value.postedAt)
  {
    hide Prepared, MovementFault, Inv;
    WantedDistinct(l, s);
    UnusedId(l, s.job, s.legs);
    MovementFaultExact(l, s.job.id, s.header.value, s.legs);
  }

  lemma {:induction false} LateVoidRefused(l: Ledger, clock: Time, s: Session)
    requires Inv(l) && Prepared(l, s.job, s.legs) && Cleared(l, s.legs) && Headed(l, clock, s.job, s.legs, s.header)
    requires s.job.VoidJob? && l.txs[s.job.target].status != Posted
    ensures Apply(l, OpOf(s, clock)) == (l, Some(InvalidTransaction))
  {
    hide MovementFault, Inv, Headed, Cleared;
    MovementPasses(l, clock, s);
  }

  // ----- lifecycle writes -----

  lemma {:induction false} WriteOk(l: Ledger, clock: Time, s: Session)
    requires SessionOk(l, clock, s) && s.phase.Writing?
    ensures s.job.StatusJob? || (s.job.LimitJob? && FromDecimalString(s.job.limit).Ok?)
    ensures s.job.account in s.rows && TurnOk(l, clock, Write(l, clock, s))
  {
    hide FromDecimalString, ToDecimalString, EventStream, MaxEventSeq, Balance;
    assert s.job.account in s.rows && s.rows[s.job.account] == l.accounts[s.job.account];
  }

  // ----- commit -----

  /** Making a movement's private writes visible is the atomic movement. */
  lemma {:induction false} PublishedMerge(l: Ledger, s: Session)
    requires MovesMoney(s.job) && s.header.Some? && Prepared(l, s.job, s.legs)
    requires HoldsAll(l, AccountsOf(s.legs), s.rows)
    requires Stamped(s.job, s.legs, s.rows, s.entries) && BumpsReady(s.legs, s.rows, s.bumps)
    requires s.marked == s.job.VoidJob?
    ensures Present(l.accounts, s.legs)
    ensures var published := Publish(l, s.job.id, s.header.value, s.legs);
            Merge(l, s) == if s.job.VoidJob? && s.job.target in l.txs then Mark(published, s.job.target) else published
  {
    hide HoldsAll;
    HeldLegs(l, s.legs, s.rows);
    UnusedId(l, s.job, s.legs);
  }

  lemma {:induction false} MovementCommits(l: Ledger, clock: Time, s: Session)
    requires Inv(l) && MovesMoney(s.job) && MoneyReady(l, clock, s)
    ensures Timely(l, OpOf(s, clock)) && Apply(l, OpOf(s, clock)) == (Merge(l, s), None)
  {
    hide Inv, Stamped, BumpsReady, Cleared, Timely, Publish, MovementFault, Merge;
    HeadedIsTimely(l, clock, s);
    MovementPasses(l, clock, s);
    PublishedMerge(l, s);
    AppliedMovement(l, s, s.header.value.postedAt);
  }

  lemma {:induction false} AppliedMovement(l: Ledger, s: Session, at: Time)
    requires MovesMoney(s.job) && Prepared(l, s.job, s.legs)
    requires MovementFault(l, s.job.id, HeaderOf(s.job, at), s.legs) == None
    requires s.job.VoidJob? ==> s.job.target in l.txs && l.txs[s.job.target].status == Posted
    ensures Present(l.accounts, s.legs)
    ensures var published := Publish(l, s.job.id, HeaderOf(s.job, at), s.legs);
            Apply(l, OpAt(s.job, at)) ==
              (if s.job.VoidJob? then Mark(published, s.job.target) else published, None)
  {
    hide MovementFault, Of;
    if s.job.VoidJob? {
      assert s.job.target != s.job.id;
    }
  }

  lemma {:induction false} ChangeCommits(l: Ledger, clock: Time, s: Session)
    requires Inv(l) && (s.job.StatusJob? || s.job.LimitJob?) && ChangeReady(l, s.job, s.change) && s.header == None
    ensures Timely(l, OpOf(s, clock)) && Apply(l, OpOf(s, clock)) == (Merge(l, s), None)
  {
    hide Inv, FromDecimalString, ToDecimalString, BalanceRead, Balance, MaxEventSeq, EventStream;
    ReadIsBalance(l, s.job.account);
  }

  // ----- after the commit -----

  lemma {:induction false} SettledOk(l: Ledger, clock: Time, s: Session, reply: Reply)
    requires Outcome(l, s.job, reply)
    ensures SessionOk(l, clock, Settle(s, reply))
  {
    hide Scheduled, Outcome, HasReference, Prepared, Passed, HoldsAll, Mirrors, LocksInOrder, Headed, Stamped,
      BumpsReady, MoneyReady, Changeable, ChangeReady;
  }

  lemma {:induction false} ScheduleOk(l: Ledger, clock: Time, s: Session, due: seq<Due>)
    requires MovesMoney(s.job) && Answers(l, s.job, s.job.id)
    requires forall i :: 0 <= i < |due| ==> DueOk(l, clock, due[i])
    ensures SessionOk(l, clock, Schedule(s, due))
  {
    hide DueOk, Answers, HasReference, BalanceUpToSeq, FreshId, Prepared, Passed, HoldsAll, Mirrors, LocksInOrder,
      Headed, Stamped, BumpsReady, MoneyReady, Changeable, ChangeReady;
    if due == [] {
      SettledOk(l, clock, s, Replied(s.job.id));
    } else {
      assert Scheduled(l, clock, due, None);
      assert Schedule(s, due).phase == Scheduling(due, None);
    }
  }

  /** A committed leg leaves its account's stream at the position the snapshot scheduler is told about. */
  lemma {:induction false} DueCommitted(l: Ledger, clock: Time, legs: seq<Leg>, bumps: map<AccountId, nat>, i: nat)
    requires Inv(l) && ClockOk(l, clock) && i < |legs|
    requires legs[i].accountId in bumps && legs[i].accountId in l.accounts
    requires 1 <= bumps[legs[i].accountId] == l.accounts[legs[i].accountId].currentSequence
    ensures DueOk(l, clock, Due(legs[i].accountId, bumps[legs[i].accountId]))
  {
    var a := legs[i].accountId;
    assert AccountOk(l, a);
    ClockBounds(l, clock, a);
    forall k | 0 <= k < |Stream(l, a)|
      ensures PostedAt(l.txs, Stream(l, a)[k]) <= clock
    {
      assert Stream(l, a)[k] in Stream(l, a);
    }
  }

  lemma {:induction false} MergedRows(l: Ledger, s: Session, i: nat)
    requires MovesMoney(s.job) && s.header.Some? && i < |s.legs|
    requires HoldsAll(l, AccountsOf(s.legs), s.rows) && BumpsReady(s.legs, s.rows, s.bumps)
    ensures var a := s.legs[i].accountId;
            && a in s.bumps && a in Merge(l, s).accounts
            && 1 <= s.bumps[a] == Merge(l, s).accounts[a].currentSequence
  {
    HeldLegs(l, s.legs, s.rows);
    assert s.legs[i].accountId in AccountsOf(s.legs);
  }

  lemma {:induction false} MergedHeader(l: Ledger, clock: Time, s: Session)
    requires MovesMoney(s.job) && FreshId(l, s.job) && Headed(l, clock, s.job, s.legs, s.header)
    ensures s.header.Some? && Answers(Merge(l, s), s.job, s.job.id)
    ensures ClockOk(l, clock) ==> ClockOk(Merge(l, s), clock)
  {
  }

  lemma {:induction false} MovementScheduled(l: Ledger, clock: Time, s: Session)
    requires Inv(l) && ClockOk(l, clock) && MovesMoney(s.job) && MoneyReady(l, clock, s)
    requires s.header.Some? && Inv(Merge(l, s))
    ensures SessionOk(Merge(l, s), clock, Schedule(s, DueSnapshots(s))) && ClockOk(Merge(l, s), clock)
  {
    hide Inv, Prepared, Cleared, HoldsAll, Headed, Merge, SessionOk, Stamped, BumpsReady, Schedule;
    UnusedId(l, s.job, s.legs);
    MergedHeader(l, clock, s);
    var due := DueSnapshots(s);
    forall i | 0 <= i < |due|
      ensures DueOk(Merge(l, s), clock, due[i])
    {
      MergedRows(l, s, i);
      DueCommitted(Merge(l, s), clock, s.legs, s.bumps, i);
    }
    ScheduleOk(Merge(l, s), clock, s, due);
  }

  lemma {:induction false} CommitOk(l: Ledger, clock: Time, s: Session)
    requires SessionOk(l, clock, s) && s.phase.Committing? && Inv(l) && ClockOk(l, clock)
    ensures if MovesMoney(s.job) then s.header.Some? else s.change.Some?
    ensures TurnOk(l, clock, CommitTurn(l, clock, s)) && Inv(Merge(l, s)) && ClockOk(Merge(l, s), clock)
  {
    hide Inv, TurnOk, SessionOk, Merge, CommitTurn, MoneyReady, ChangeReady;
    HeaderKnown(l, clock, s);
    if MovesMoney(s.job) {
      MoneyCommitOk(l, clock, s);
    } else {
      ChangeCommitOk(l, clock, s);
    }
  }

  lemma {:induction false} MoneyCommitOk(l: Ledger, clock: Time, s: Session)
    requires MovesMoney(s.job) && MoneyReady(l, clock, s) && Inv(l) && ClockOk(l, clock) && s.header.Some?
    ensures TurnOk(l, clock, CommitTurn(l, clock, s)) && Inv(Merge(l, s)) && ClockOk(Merge(l, s), clock)
  {
    hide Inv, Timely, Apply, MoneyReady, Merge, SessionOk, Schedule, DueSnapshots;
    MovementCommits(l, clock, s);
    ApplyKeeps(l, OpOf(s, clock));
    MovementScheduled(l, clock, s);
  }

  lemma {:induction false} ChangeCommitOk(l: Ledger, clock: Time, s: Session)
    requires (s.job.StatusJob? || s.job.LimitJob?) && ChangeReady(l, s.job, s.change) && s.header == None
      && s.change.Some?
    requires Inv(l) && ClockOk(l, clock)
    ensures TurnOk(l, clock, CommitTurn(l, clock, s)) && Inv(Merge(l, s)) && ClockOk(Merge(l, s), clock)
  {
    hide Inv, Timely, Apply, Merge, ChangeReady, Schedule, DueSnapshots;
    ChangeCommits(l, clock, s);
    ApplyKeeps(l, OpOf(s, clock));
    ChangeKeepsTimes(l, clock, s);
  }

  lemma {:induction false} HeaderKnown(l: Ledger, clock: Time, s: Session)
    requires SessionOk(l, clock, s) && s.phase.Committing?
    ensures if MovesMoney(s.job) then s.header.Some? && MoneyReady(l, clock, s)
            else s.header == None && s.change.Some? && ChangeReady(l, s.job, s.change)
  {
    hide Passed, Stamped, BumpsReady, Changeable, ChangeOf;
  }

  lemma {:induction false} ChangeKeepsTimes(l: Ledger, clock: Time, s: Session)
    requires !MovesMoney(s.job) && s.change.Some? && ClockOk(l, clock)
    ensures ClockOk(Merge(l, s), clock)
  {
  }

  lemma {:induction false} Resolvable(l: Ledger, clock: Time, s: Session)
    requires SessionOk(l, clock, s) && s.phase.Resolving?
    ensures FreshId(l, s.job) && s.job.PostJob? && Truthy(s.job.reference) && HasReference(l.txs, s.job.reference.value)
  {
    hide Scheduled, Outcome, HasReference, Prepared, Passed, HoldsAll, Mirrors, LocksInOrder, Headed, Stamped,
      BumpsReady, MoneyReady, Changeable, ChangeReady;
  }

  /** A unique violation always finds the winner: the row that caused it stays. */
  lemma {:induction false} ResolveOk(l: Ledger, clock: Time, s: Session)
    requires SessionOk(l, clock, s) && s.phase.Resolving?
    ensures TurnOk(l, clock, Resolve(l, s)) && Resolve(l, s).session.phase.Finished?
    ensures Resolve(l, s).session.phase.reply.Replied?
  {
    hide Apply, Timely, SessionOk, HasReference;
    Resolvable(l, clock, s);
    SettledOk(l, clock, s, Replied(FindReference(l.txs, s.job.reference.value)));
  }

  lemma {:induction false} ReadOk(l: Ledger, clock: Time, s: Session)
    requires SessionOk(l, clock, s) && s.phase.Scheduling?
    ensures s.phase.due != [] && TurnOk(l, clock, ReadBalance(l, s))
  {
    hide Apply, Timely, DueOk, Answers, BalanceUpToSeq, HasReference, Prepared, Passed, HoldsAll, Mirrors,
      LocksInOrder, Headed, Stamped, BumpsReady, MoneyReady, Changeable, ChangeReady;
  }

  lemma {:induction false} SkipOk(l: Ledger, clock: Time, s: Session)
    requires SessionOk(l, clock, s) && s.phase.Scheduling?
    ensures MovesMoney(s.job) && s.phase.due != [] && TurnOk(l, clock, SkipSnapshot(l, s))
  {
    hide Apply, Timely, DueOk, Answers, BalanceUpToSeq, HasReference, Prepared, Passed, HoldsAll, Mirrors,
      LocksInOrder, Headed, Stamped, BumpsReady, MoneyReady, Changeable, ChangeReady;
    ScheduleOk(l, clock, s, s.phase.due[1..]);
  }

  /** The balance read in an earlier statement is still the balance at that position: history below it is frozen. */
  lemma {:induction false} WriteSnapshotOk(l: Ledger, clock: Time, s: Session)
    requires SessionOk(l, clock, s) && s.phase.Scheduling? && s.phase.read.Some?
    ensures MovesMoney(s.job) && s.phase.due != [] && TurnOk(l, clock, WriteSnapshot(l, clock, s))
  {
    hide BalanceUpToSeq, Answers, Schedule;
    var due, l' := s.phase.due, WriteSnapshot(l, clock, s).db;
    forall i | 0 <= i < |due|
      ensures DueOk(l', clock, due[i])
    {
      assert DueOk(l, clock, due[i]);
      assert Stream(l', due[i].account) == Stream(l, due[i].account);
    }
    assert Answers(l', s.job, s.job.id) by { SameAnswers(l, l', s.job, s.job.id); }
    ScheduleOk(l', clock, s, due[1..]);
    assert DueOk(l, clock, due[0]);
  }

  lemma {:induction false} SameAnswers(l: Ledger, l': Ledger, job: Job, id: TxId)
    requires l'.txs == l.txs && Answers(l, job, id)
    ensures Answers(l', job, id)
  {
  }

  lemma {:induction false} StillPrepared(l: Ledger, clock: Time, s: Session)
    requires SessionOk(l, clock, s) && InTransaction(s)
    ensures Prepared(l, s.job, s.legs)
  {
    hide Prepared, HoldsAll, Mirrors, LocksInOrder, Cleared, Headed, Stamped, BumpsReady, ChangeReady, Changeable;
  }

  lemma {:induction false} RestartOk(l: Ledger, clock: Time, s: Session, attempt: nat)
    requires Prepared(l, s.job, s.legs)
    ensures SessionOk(l, clock, Released(s).(phase := Starting, attempt := attempt))
  {
    hide Prepared, Passed, HoldsAll, Mirrors, LocksInOrder, Headed, Stamped, BumpsReady, MoneyReady, Changeable,
      ChangeReady;
  }

  /** Rolling back loses nothing and leaves nothing: the session starts over, or reports the conflict. */
  lemma {:induction false} RetryOk(l: Ledger, clock: Time, retries: nat, s: Session)
    requires SessionOk(l, clock, s) && InTransaction(s)
    ensures TurnOk(l, clock, Retry(l, retries, s))
  {
    hide Apply, Timely, SessionOk, Prepared;
    StillPrepared(l, clock, s);
    UnusedId(l, s.job, s.legs);
    if s.attempt < retries {
      RestartOk(l, clock, s, s.attempt + 1);
    } else {
      SettledOk(l, clock, s, Refused(ConflictSequence));
    }
  }
}
