/** The write path as it runs: many sessions, one statement at a time, under READ COMMITTED.
    A session's writes are private until its commit; every statement reads the committed tables. */
module Protocol {
  import opened Prelude
  import opened Seqs
  import opened Money
  import opened DoubleEntry
  import opened Ledger
  import opened Invariants
  import opened Preservation

  /** A request to one of the writing services; ids of new rows are fresh. */
  datatype Job =
    | PostJob(id: TxId, tx: Movement, kind: TxType, reference: Option<string>)
    | VoidJob(id: TxId, target: TxId)
    | StatusJob(account: AccountId, to: Status)
    | LimitJob(account: AccountId, limit: string)

  datatype Reply = Replied(id: TxId) | Changed | Refused(error: Error)

  datatype Phase =
    | Looking                       // reads before the transaction
    | Starting                      // BEGIN
    | Locking(todo: seq<AccountId>) // SELECT ... ORDER BY id FOR UPDATE, row by row
    | Checking                      // balances under lock, then the gate
    | Heading(at: Time)             // INSERT INTO transactions, with the timestamp read before it is sent
    | Appending                     // INSERT INTO entries
    | Bumping                       // UPDATE accounts SET current_sequence
    | Marking                       // UPDATE transactions SET status = 'void'
    | Writing                       // lifecycle event and row update
    | Committing                    // COMMIT
    | Resolving                     // unique violation: look the winner up
    | Scheduling(due: seq<Due>, read: Option<int>) // snapshots after the commit
    | Finished(reply: Reply)

  datatype Due = Due(account: AccountId, seqNo: nat)

  datatype Session = Session(
    job: Job,
    phase: Phase,
    begun: bool,                     // whether its transaction was ever begun
    attempt: nat,
    legs: seq<Leg>,
    rows: map<AccountId, Account>,   // locked rows, as the lock statement returned them
    header: Option<TxRow>,           // uncommitted writes from here on
    entries: seq<Entry>,
    bumps: map<AccountId, nat>,
    marked: bool,
    change: Option<(Account, Event)>)

  /** One atomic operation and its outcome, at the step where it took effect, and the session it served. */
  datatype Commit = Commit(op: Op, fault: Option<Error>, owner: Option<nat>)

  datatype World = World(db: Ledger, sessions: seq<Session>, clock: Time, retries: nat, history: seq<Commit>)

  /** What one step of one session leaves behind. */
  datatype Turn = Turn(db: Ledger, session: Session, commits: seq<Commit>)

  // ----- session vocabulary -----

  predicate Truthy(reference: Option<string>) { reference.Some? && reference.value != "" }

  predicate MovesMoney(job: Job) { job.PostJob? || job.VoidJob? }

  /** The rows the lock statement asks for. */
  function WantedIds(job: Job, legs: seq<Leg>): seq<AccountId> {
    if MovesMoney(job) then seq(|legs|, i requires 0 <= i < |legs| => legs[i].accountId)
    else [job.account]
  }

  function Wanted(job: Job, legs: seq<Leg>): set<AccountId> {
    if MovesMoney(job) then AccountsOf(legs) else {job.account}
  }

  function Known(accounts: map<AccountId, Account>): AccountId -> bool { (a: AccountId) => a in accounts }

  function ById(): (AccountId, AccountId) -> bool { (a: AccountId, b: AccountId) => a <= b }

  function HeaderOf(job: Job, at: Time): TxRow
    requires MovesMoney(job)
  {
    if job.PostJob? then PostHeader(job.tx, job.kind, job.reference, at) else ReversalHeader(job.target, at)
  }

  function OpAt(job: Job, at: Time): Op {
    match job
    case PostJob(id, tx, kind, reference) => Post(id, tx, kind, reference, at)
    case VoidJob(id, target) => VoidTx(id, target, at)
    case StatusJob(account, to) => SetStatus(account, to)
    case LimitJob(account, limit) => SetLimit(account, limit)
  }

  /** The atomic operation a session stands for; its timestamp is its header's once there is one. */
  function OpOf(s: Session, clock: Time): Op {
    OpAt(s.job, if s.header.Some? then s.header.value.postedAt else clock)
  }

  /** ROLLBACK or COMMIT: locks released, nothing private left. */
  function Released(s: Session): Session {
    s.(rows := map[], header := None, entries := [], bumps := map[], marked := false, change := None)
  }

  function Reach(db: Ledger, s: Session, phase: Phase): Turn { Turn(db, s.(phase := phase), []) }

  function Settle(s: Session, reply: Reply): Session { Released(s).(phase := Finished(reply)) }

  function RolledBack(db: Ledger, s: Session, clock: Time, e: Error): Turn {
    Turn(db, Settle(s, Refused(e)), [Commit(OpOf(s, clock), Some(e), None)])
  }

  /** The row a unique column selects. */
  ghost function FindReference(txs: map<TxId, TxRow>, reference: string): (t: TxId)
    requires HasReference(txs, reference)
    ensures t in txs && txs[t].reference == Some(reference)
  {
    var t :| t in txs && txs[t].reference == Some(reference);
    t
  }

  // ----- the steps of one session, in program order -----

  /** Reads on the pool: account rows, the idempotency fast path, the transaction to void, the current status. */
  ghost function Look(db: Ledger, s: Session): Session {
    match s.job
    case PostJob(id, tx, _, reference) =>
      if !Present(db.accounts, tx.legs) then Settle(s, Refused(AccountNotFound))
      else if Truthy(reference) && HasReference(db.txs, reference.value) then
        Settle(s, Replied(FindReference(db.txs, reference.value)))
      else s.(phase := Starting, begun := true, legs := tx.legs)
    case VoidJob(id, target) =>
      if target !in db.txs then Settle(s, Refused(NotFound))
      else if db.txs[target].status == Voided then Settle(s, Refused(InvalidTransaction))
      else
        (match Of(Flip(LegsOf(db, target)))
         case Err(e) => Settle(s, Refused(e))
         case Ok(reversal) => s.(phase := Starting, begun := true, legs := reversal.legs))
    case StatusJob(account, to) =>
      if account !in db.accounts then Settle(s, Refused(AccountNotFound))
      else if db.accounts[account].status == Closed then Settle(s, Refused(InvalidTransaction))
      else if db.accounts[account].status == to then Settle(s, Changed)
      else s.(phase := Starting, begun := true)
    case LimitJob(account, limit) =>
      match FromDecimalString(limit)
      case Err(e) => Settle(s, Refused(e))
      case Ok(_) => s.(phase := Starting, begun := true)
  }

  /** The lock statement selects the existing rows in id order; with none there is nothing to wait for. */
  function Start(db: Ledger, clock: Time, s: Session): Turn {
    var todo := SortBy(Where(WantedIds(s.job, s.legs), Known(db.accounts)), ById());
    if todo == [] then RolledBack(db, s, clock, AccountNotFound) else Reach(db, s, Locking(todo))
  }

  /** Takes the next row lock, which returns the row's latest committed version. */
  function Lock(db: Ledger, s: Session): Turn
    requires s.phase.Locking? && s.phase.todo != [] && s.phase.todo[0] in db.accounts
  {
    var a, rest := s.phase.todo[0], s.phase.todo[1..];
    Turn(db, s.(rows := s.rows[a := db.accounts[a]], phase := if rest == [] then Checking else Locking(rest)), [])
  }

  /** The gate; a session that passes it reads the clock for its header at once, before any wait to insert it. */
  function CheckMoney(db: Ledger, clock: Time, s: Session): Turn {
    match Gate(s.rows, BalancesFor(db, AccountsOf(s.legs), None), s.legs)
    case Some(e) => RolledBack(db, s, clock, e)
    case None => Reach(db, s, Heading(clock))
  }

  /** The gate of a money session either aborts it or lets it on. */
  lemma {:induction false} CheckMoneyTurns(db: Ledger, clock: Time, s: Session)
    ensures || (exists e :: CheckMoney(db, clock, s) == RolledBack(db, s, clock, e))
            || CheckMoney(db, clock, s) == Turn(db, s.(phase := Heading(clock)), [])
  {
    hide RolledBack, Gate, BalancesFor, AccountsOf;
  }

  function CheckStatus(db: Ledger, clock: Time, s: Session): Turn
    requires s.job.StatusJob?
  {
    var a, to := s.job.account, s.job.to;
    if a !in s.rows then RolledBack(db, s, clock, AccountNotFound)
    else if s.rows[a].status == Closed then RolledBack(db, s, clock, InvalidTransaction)
    else if s.rows[a].status == to then Turn(db, Settle(s, Changed), [Commit(OpOf(s, clock), None, None)])
    else if to == Closed && BalanceRead(db, a, None) != 0 then RolledBack(db, s, clock, InvalidTransaction)
    else Reach(db, s, Writing)
  }

  function CheckLimit(db: Ledger, clock: Time, s: Session): Turn
    requires s.job.LimitJob?
  {
    var a := s.job.account;
    if a !in s.rows then RolledBack(db, s, clock, AccountNotFound)
    else if s.rows[a].status == Closed then RolledBack(db, s, clock, AccountClosed)
    else Reach(db, s, Writing)
  }

  function Check(db: Ledger, clock: Time, s: Session): Turn {
    if MovesMoney(s.job) then CheckMoney(db, clock, s)
    else if s.job.StatusJob? then CheckStatus(db, clock, s)
    else CheckLimit(db, clock, s)
  }

  /** INSERT of the header; a committed duplicate reference is a unique violation. */
  function Head(db: Ledger, s: Session): Turn
    requires MovesMoney(s.job) && s.phase.Heading?
  {
    var row := HeaderOf(s.job, s.phase.at);
    match HeaderFault(db.txs, s.job.id, row)
    case Some(e) =>
      if e == DuplicateReference && Truthy(row.reference)
      then Turn(db, Released(s).(phase := Resolving), [Commit(OpOf(s, s.phase.at), Some(e), None)])
      else RolledBack(db, s, s.phase.at, e)
    case None => Turn(db, s.(header := Some(row), phase := Appending), [])
  }

  function AppendEntries(db: Ledger, clock: Time, s: Session): Turn
    requires MovesMoney(s.job) && Present(s.rows, s.legs)
  {
    var es := Stamp(s.job.id, s.legs, NextSeqs(s.rows, s.legs));
    if !SlotsFree(db.entries, es) then RolledBack(db, s, clock, UniqueViolation)
    else Turn(db, s.(entries := es, phase := Bumping), [])
  }

  function Bump(db: Ledger, s: Session): Turn
    requires Present(s.rows, s.legs)
  {
    Turn(db, s.(bumps := NextSeqs(s.rows, s.legs), phase := if s.job.VoidJob? then Marking else Committing), [])
  }

  function MarkTarget(db: Ledger, clock: Time, s: Session): Turn
    requires s.job.VoidJob?
  {
    if s.job.target in db.txs && db.txs[s.job.target].status == Posted
    then Turn(db, s.(marked := true, phase := Committing), [])
    else RolledBack(db, s, clock, InvalidTransaction)
  }

  /** The row and the lifecycle event a status or limit change writes. */
  function ChangeOf(db: Ledger, job: Job, row: Account): (Account, Event)
    requires job.StatusJob? || (job.LimitJob? && FromDecimalString(job.limit).Ok?)
  {
    if job.StatusJob? then
      var change := Transition(row.status, job.to);
      (row.(status := job.to, history := row.history + [change]),
       NextEvent(db, job.account, StatusEvent(job.to), Some(change), None))
    else
      var units := FromDecimalString(job.limit).value;
      (row.(limit := units), NextEvent(db, job.account, LimitChanged, None, Some(ToDecimalString(units))))
  }

  function Write(db: Ledger, clock: Time, s: Session): Turn
    requires s.job.StatusJob? || (s.job.LimitJob? && FromDecimalString(s.job.limit).Ok?)
    requires s.job.account in s.rows
  {
    if s.job.LimitJob? && FromDecimalString(s.job.limit).value < 0
    then RolledBack(db, s, clock, CheckViolation)
    else Turn(db, s.(change := Some(ChangeOf(db, s.job, s.rows[s.job.account])), phase := Committing), [])
  }

  /** The private writes made visible, all at once. */
  function Merge(db: Ledger, s: Session): Ledger
    requires MovesMoney(s.job) ==> s.header.Some?
    requires !MovesMoney(s.job) ==> s.change.Some?
  {
    if MovesMoney(s.job) then
      var l := db.(accounts := Bumped(db.accounts, s.bumps),
                   txs := db.txs[s.job.id := s.header.value],
                   entries := db.entries + s.entries);
      if s.marked && s.job.VoidJob? && s.job.target in db.txs
      then l.(txs := l.txs[s.job.target := db.txs[s.job.target].(status := Voided)])
      else l
    else
      db.(accounts := db.accounts[s.job.account := s.change.value.0], events := db.events + [s.change.value.1])
  }

  function DueSnapshots(s: Session): seq<Due> {
    seq(|s.legs|, i requires 0 <= i < |s.legs| =>
      Due(s.legs[i].accountId, if s.legs[i].accountId in s.bumps then s.bumps[s.legs[i].accountId] else 0))
  }

  function CommitTurn(db: Ledger, clock: Time, s: Session): Turn
    requires MovesMoney(s.job) ==> s.header.Some?
    requires !MovesMoney(s.job) ==> s.change.Some?
  {
    Turn(Merge(db, s),
         if MovesMoney(s.job) then Schedule(s, DueSnapshots(s)) else Settle(s, Changed),
         [Commit(OpOf(s, clock), None, None)])
  }

  function Schedule(s: Session, due: seq<Due>): Session
    requires MovesMoney(s.job)
  {
    if due == [] then Settle(s, Replied(s.job.id)) else Released(s).(phase := Scheduling(due, None))
  }

  ghost function Resolve(db: Ledger, s: Session): Turn {
    if s.job.PostJob? && Truthy(s.job.reference) && HasReference(db.txs, s.job.reference.value)
    then Turn(db, Settle(s, Replied(FindReference(db.txs, s.job.reference.value))), [])
    else Turn(db, Settle(s, Refused(DuplicateReference)), [])
  }

  /** takeSnapshot reads the balance in one statement and inserts the row in a later one;
      a snapshot that is not due, or fails, is skipped. */
  function ReadBalance(db: Ledger, s: Session): Turn
    requires s.phase.Scheduling? && s.phase.due != []
  {
    var due := s.phase.due[0];
    Reach(db, s, Scheduling(s.phase.due, Some(BalanceUpToSeq(db, due.account, due.seqNo, None))))
  }

  function WriteSnapshot(db: Ledger, clock: Time, s: Session): Turn
    requires MovesMoney(s.job) && s.phase.Scheduling? && s.phase.due != [] && s.phase.read.Some?
  {
    var due := s.phase.due[0];
    Turn(InsertSnapshot(db, Snapshot(due.account, due.seqNo, s.phase.read.value, clock)),
         Schedule(s, s.phase.due[1..]),
         [Commit(TakeSnapshot(due.account, due.seqNo, clock), None, None)])
  }

  function SkipSnapshot(db: Ledger, s: Session): Turn
    requires MovesMoney(s.job) && s.phase.Scheduling? && s.phase.due != []
  {
    Turn(db, Schedule(s, s.phase.due[1..]), [])
  }

  predicate InTransaction(s: Session) {
    s.phase.Locking? || s.phase.Checking? || s.phase.Heading? || s.phase.Appending? || s.phase.Bumping?
    || s.phase.Marking? || s.phase.Writing? || s.phase.Committing?
  }

  /** A transient database failure: roll back and try again while the budget lasts. */
  function Retry(db: Ledger, retries: nat, s: Session): Turn {
    if s.attempt < retries
    then Turn(db, Released(s).(phase := Starting, attempt := s.attempt + 1), [])
    else Turn(db, Settle(s, Refused(ConflictSequence)), [])
  }

  // ----- waiting -----

  predicate LockedElsewhere(w: World, k: nat, a: AccountId) {
    exists j :: 0 <= j < |w.sessions| && j != k && a in w.sessions[j].rows
  }

  predicate HeadedElsewhere(w: World, k: nat, reference: string) {
    exists j :: 0 <= j < |w.sessions| && j != k
      && w.sessions[j].header.Some? && w.sessions[j].header.value.reference == Some(reference)
  }

  predicate MarkedElsewhere(w: World, k: nat, target: TxId) {
    exists j :: 0 <= j < |w.sessions| && j != k
      && w.sessions[j].marked && w.sessions[j].job.VoidJob? && w.sessions[j].job.target == target
  }

  function ReferenceOf(job: Job): Option<string> { if job.PostJob? then job.reference else None }

  /** A step that must wait: for a row lock, for an uncommitted equal reference, for a row being updated. */
  predicate Blocked(w: World, k: nat)
    requires k < |w.sessions|
  {
    var s := w.sessions[k];
    match s.phase
    case Locking(todo) => todo != [] && LockedElsewhere(w, k, todo[0])
    case Heading(_) => ReferenceOf(s.job).Some? && HeadedElsewhere(w, k, ReferenceOf(s.job).value)
    case Marking => s.job.VoidJob? && MarkedElsewhere(w, k, s.job.target)
    case _ => false
  }

  // ----- what a session in each phase relies on -----

  ghost predicate Clean(s: Session) {
    s.rows == map[] && s.header == None && s.entries == [] && s.bumps == map[] && !s.marked && s.change == None
  }

  ghost predicate NothingWritten(s: Session) {
    s.header == None && s.entries == [] && s.bumps == map[] && !s.marked && s.change == None
  }

  /** Locked rows are still what is committed. */
  ghost predicate Mirrors(l: Ledger, rows: map<AccountId, Account>) {
    forall a :: a in rows ==> a in l.accounts && l.accounts[a] == rows[a]
  }

  /** The legs to post are settled, their accounts exist, and the new id is unused. */
  ghost predicate Prepared(l: Ledger, job: Job, legs: seq<Leg>) {
    match job
    case PostJob(id, tx, _, _) => legs == tx.legs && Present(l.accounts, legs) && id !in l.txs
    case VoidJob(id, target) =>
      && target in l.txs && legs == Flip(LegsOf(l, target)) && Of(legs) == Ok(Draft(legs, None))
      && Present(l.accounts, legs) && id !in l.txs
    case StatusJob(account, _) => legs == [] && account in l.accounts
    case LimitJob(_, limit) => legs == [] && FromDecimalString(limit).Ok?
  }

  ghost predicate Ascending(ids: seq<AccountId>) {
    forall i, j :: 0 <= i < j < |ids| ==> ids[i] < ids[j]
  }

  /** Locks come in ascending id order: what is held lies below what is still wanted. */
  ghost predicate LocksInOrder(l: Ledger, wanted: set<AccountId>, rows: map<AccountId, Account>, todo: seq<AccountId>) {
    && todo != [] && Ascending(todo)
    && (forall i :: 0 <= i < |todo| ==> todo[i] in l.accounts)
    && (forall a, i :: a in rows && 0 <= i < |todo| ==> a < todo[i])
    && (forall a :: a in wanted <==> a in rows || a in todo)
  }

  ghost predicate HoldsAll(l: Ledger, wanted: set<AccountId>, rows: map<AccountId, Account>) {
    Mirrors(l, rows) && rows.Keys == wanted
  }

  ghost predicate Cleared(l: Ledger, legs: seq<Leg>) {
    forall i :: 0 <= i < |legs| ==> LegAllowed(l, legs[i])
  }

  /** A timestamp from the past that no entry of these accounts lies after. */
  ghost predicate Timed(l: Ledger, clock: Time, legs: seq<Leg>, at: Time) {
    at <= clock && forall i :: 0 <= i < |legs| ==> PostedBefore(l, legs[i].accountId, at)
  }

  ghost predicate Headed(l: Ledger, clock: Time, job: Job, legs: seq<Leg>, header: Option<TxRow>) {
    && MovesMoney(job) && header.Some?
    && header.value == HeaderOf(job, header.value.postedAt)
    && (header.value.reference.Some? ==> !HasReference(l.txs, header.value.reference.value))
    && Timed(l, clock, legs, header.value.postedAt)
  }

  ghost predicate Stamped(job: Job, legs: seq<Leg>, rows: map<AccountId, Account>, entries: seq<Entry>) {
    MovesMoney(job) && Present(rows, legs) && entries == Stamp(job.id, legs, NextSeqs(rows, legs))
  }

  ghost predicate BumpsReady(legs: seq<Leg>, rows: map<AccountId, Account>, bumps: map<AccountId, nat>) {
    Present(rows, legs) && bumps == NextSeqs(rows, legs)
  }

  ghost predicate Changeable(l: Ledger, job: Job) {
    match job
    case StatusJob(a, to) =>
      && a in l.accounts && l.accounts[a].status != Closed && l.accounts[a].status != to
      && (to == Closed ==> Balance(l, a) == 0)
    case LimitJob(a, limit) => a in l.accounts && l.accounts[a].status != Closed && FromDecimalString(limit).Ok?
    case _ => false
  }

  ghost predicate ChangeReady(l: Ledger, job: Job, change: Option<(Account, Event)>) {
    && Changeable(l, job)
    && (job.LimitJob? ==> FromDecimalString(job.limit).value >= 0)
    && change == Some(ChangeOf(l, job, l.accounts[job.account]))
  }

  ghost predicate DueOk(l: Ledger, clock: Time, due: Due) {
    && due.account in l.accounts && 1 <= due.seqNo <= |Stream(l, due.account)|
    && forall i :: 0 <= i < due.seqNo ==> PostedAt(l.txs, Stream(l, due.account)[i]) <= clock
  }

  ghost predicate Scheduled(l: Ledger, clock: Time, due: seq<Due>, read: Option<int>) {
    && due != []
    && (forall i :: 0 <= i < |due| ==> DueOk(l, clock, due[i]))
    && (read.Some? ==> read.value == BalanceUpToSeq(l, due[0].account, due[0].seqNo, None))
  }

  ghost predicate FreshId(l: Ledger, job: Job) { MovesMoney(job) ==> job.id !in l.txs }

  /** The id a caller gets back is its own new transaction, or the one that already carried its reference. */
  ghost predicate Answers(l: Ledger, job: Job, id: TxId) {
    && MovesMoney(job) && id in l.txs && l.txs[id].reference == ReferenceOf(job)
    && (id == job.id || (Truthy(ReferenceOf(job)) && FreshId(l, job)))
  }

  /** A refused request has left no transaction behind; an answered one names a committed transaction. */
  ghost predicate Outcome(l: Ledger, job: Job, reply: Reply) {
    match reply
    case Replied(id) => Answers(l, job, id)
    case Refused(_) => FreshId(l, job)
    case Changed => !MovesMoney(job)
  }

  /** A money session that holds its rows and passed the gate. */
  ghost predicate Passed(l: Ledger, job: Job, legs: seq<Leg>, rows: map<AccountId, Account>) {
    MovesMoney(job) && Prepared(l, job, legs) && HoldsAll(l, Wanted(job, legs), rows) && Cleared(l, legs)
  }

  ghost predicate Appendable(l: Ledger, clock: Time, s: Session) {
    && s.entries == [] && s.bumps == map[] && !s.marked && s.change == None
    && Passed(l, s.job, s.legs, s.rows) && Headed(l, clock, s.job, s.legs, s.header)
  }

  ghost predicate Bumpable(l: Ledger, clock: Time, s: Session) {
    && s.bumps == map[] && !s.marked && s.change == None
    && Passed(l, s.job, s.legs, s.rows) && Headed(l, clock, s.job, s.legs, s.header)
    && Stamped(s.job, s.legs, s.rows, s.entries)
  }

  ghost predicate Markable(l: Ledger, clock: Time, s: Session) {
    && s.job.VoidJob? && !s.marked && s.change == None
    && Passed(l, s.job, s.legs, s.rows) && Headed(l, clock, s.job, s.legs, s.header)
    && Stamped(s.job, s.legs, s.rows, s.entries) && BumpsReady(s.legs, s.rows, s.bumps)
  }

  ghost predicate Writable(l: Ledger, s: Session) {
    && NothingWritten(s) && !MovesMoney(s.job) && HoldsAll(l, {s.job.account}, s.rows)
    && Prepared(l, s.job, s.legs) && Changeable(l, s.job)
  }

  ghost predicate Committable(l: Ledger, clock: Time, s: Session) {
    if MovesMoney(s.job) then MoneyReady(l, clock, s)
    else
      && s.header == None && s.entries == [] && s.bumps == map[] && !s.marked
      && HoldsAll(l, {s.job.account}, s.rows) && Prepared(l, s.job, s.legs) && ChangeReady(l, s.job, s.change)
  }

  ghost predicate Resolves(l: Ledger, s: Session) {
    && Clean(s) && FreshId(l, s.job) && s.job.PostJob? && Truthy(s.job.reference)
    && HasReference(l.txs, s.job.reference.value)
  }

  ghost predicate SessionOk(l: Ledger, clock: Time, s: Session) {
    match s.phase
    case Looking => Clean(s) && s.legs == [] && FreshId(l, s.job)
    case Starting => Clean(s) && Prepared(l, s.job, s.legs)
    case Locking(todo) =>
      && NothingWritten(s) && Prepared(l, s.job, s.legs) && Mirrors(l, s.rows)
      && LocksInOrder(l, Wanted(s.job, s.legs), s.rows, todo)
    case Checking => NothingWritten(s) && Prepared(l, s.job, s.legs) && HoldsAll(l, Wanted(s.job, s.legs), s.rows)
    case Heading(at) => NothingWritten(s) && Passed(l, s.job, s.legs, s.rows) && Timed(l, clock, s.legs, at)
    case Appending => Appendable(l, clock, s)
    case Bumping => Bumpable(l, clock, s)
    case Marking => Markable(l, clock, s)
    case Writing => Writable(l, s)
    case Committing => Committable(l, clock, s)
    case Resolving => Resolves(l, s)
    case Scheduling(due, read) =>
      Clean(s) && Scheduled(l, clock, due, read) && MovesMoney(s.job) && Answers(l, s.job, s.job.id)
    case Finished(reply) => Clean(s) && Outcome(l, s.job, reply)
  }

  /** A movement whose private writes are complete. */
  ghost predicate MoneyReady(l: Ledger, clock: Time, s: Session)
    requires MovesMoney(s.job)
  {
    && s.change == None && s.marked == s.job.VoidJob?
    && Passed(l, s.job, s.legs, s.rows) && Headed(l, clock, s.job, s.legs, s.header)
    && Stamped(s.job, s.legs, s.rows, s.entries) && BumpsReady(s.legs, s.rows, s.bumps)
    && (s.job.VoidJob? ==> s.job.target in l.txs && l.txs[s.job.target].status == Posted)
  }

  /** No two sessions hold one row, use one id, or have one reference in flight. */
  ghost predicate Apart(s: Session, t: Session) {
    && s.rows.Keys !! t.rows.Keys
    && (MovesMoney(s.job) && MovesMoney(t.job) ==> s.job.id != t.job.id)
    && (s.header.Some? && t.header.Some? && s.header.value.reference.Some? ==>
          s.header.value.reference != t.header.value.reference)
  }

  ghost predicate AllApart(sessions: seq<Session>) {
    forall i, j :: 0 <= i < |sessions| && 0 <= j < |sessions| && i != j ==> Apart(sessions[i], sessions[j])
  }

  ghost predicate ClockOk(l: Ledger, clock: Time) {
    forall t :: t in l.txs ==> l.txs[t].postedAt <= clock
  }

  // ----- histories -----

  function Ops(history: seq<Commit>): seq<Op> {
    if history == [] then [] else Ops(history[..|history| - 1]) + [history[|history| - 1].op]
  }

  /** Run one at a time in commit order, the operations have the outcomes their sessions saw. */
  ghost predicate Explains(start: Ledger, history: seq<Commit>, end: Ledger) {
    if history == [] then end == start
    else
      var last := history[|history| - 1];
      exists l :: Explains(start, history[..|history| - 1], l)
        && Timely(l, last.op) && Apply(l, last.op) == (end, last.fault)
  }

  ghost predicate WorldOk(start: Ledger, w: World) {
    && Inv(w.db)
    && ClockOk(w.db, w.clock)
    && (forall k :: 0 <= k < |w.sessions| ==> SessionOk(w.db, w.clock, w.sessions[k]))
    && AllApart(w.sessions)
    && Explains(start, w.history, w.db)
  }

  // ----- the step relation -----

  datatype Move =
    | Submit(job: Job)
    | Advance(k: nat)            // the session's next statement
    | TakeNow(k: nat)            // insert the snapshot whose balance was read
    | Skip(k: nat)               // the snapshot is not due, or failed
    | Fail(k: nat)               // transient database failure
    | Tick(elapsed: nat)
    | Administer(op: Op)         // account and vault creation, one statement batch on new rows only

  predicate Stepping(m: Move) { m.Advance? || m.TakeNow? || m.Skip? || m.Fail? }

  ghost predicate Enabled(w: World, m: Move) {
    match m
    case Submit(job) =>
      FreshId(w.db, job)
      && forall j :: 0 <= j < |w.sessions| && MovesMoney(job) && MovesMoney(w.sessions[j].job) ==>
        w.sessions[j].job.id != job.id
    case Advance(k) => k < |w.sessions| && !w.sessions[k].phase.Finished? && !Blocked(w, k)
                       && (w.sessions[k].phase.Scheduling? ==> w.sessions[k].phase.read == None)
    case TakeNow(k) => k < |w.sessions| && w.sessions[k].phase.Scheduling? && w.sessions[k].phase.read.Some?
    case Skip(k) => k < |w.sessions| && w.sessions[k].phase.Scheduling?
    case Fail(k) => k < |w.sessions| && InTransaction(w.sessions[k])
    case Tick(_) => true
    case Administer(op) => op.OpenAccount? || op.OpenVault?
  }

  ghost predicate Ready(l: Ledger, s: Session) {
    match s.phase
    case Locking(todo) => todo != [] && todo[0] in l.accounts
    case Heading(_) => MovesMoney(s.job)
    case Appending => MovesMoney(s.job) && Present(s.rows, s.legs)
    case Bumping => Present(s.rows, s.legs)
    case Marking => s.job.VoidJob?
    case Writing => (s.job.StatusJob? || (s.job.LimitJob? && FromDecimalString(s.job.limit).Ok?))
      && s.job.account in s.rows
    case Committing => if MovesMoney(s.job) then s.header.Some? else s.change.Some?
    case Scheduling(due, _) => MovesMoney(s.job) && due != []
    case _ => true
  }

  ghost function AdvanceTurn(l: Ledger, clock: Time, s: Session): Turn
    requires Ready(l, s)
  {
    match s.phase
    case Looking => Turn(l, Look(l, s), [])
    case Starting => Start(l, clock, s)
    case Locking(_) => Lock(l, s)
    case Checking => Check(l, clock, s)
    case Heading(_) => Head(l, s)
    case Appending => AppendEntries(l, clock, s)
    case Bumping => Bump(l, s)
    case Marking => MarkTarget(l, clock, s)
    case Writing => Write(l, clock, s)
    case Committing => CommitTurn(l, clock, s)
    case Resolving => Resolve(l, s)
    case Scheduling(_, _) => ReadBalance(l, s)
    case Finished(_) => Turn(l, s, [])
  }

  function Owned(commits: seq<Commit>, k: nat): seq<Commit> {
    seq(|commits|, i requires 0 <= i < |commits| => commits[i].(owner := Some(k)))
  }

  function Take(w: World, k: nat, turn: Turn): World
    requires k < |w.sessions|
  {
    w.(db := turn.db, sessions := w.sessions[k := turn.session], history := w.history + Owned(turn.commits, k))
  }

  function Fresh(job: Job): Session {
    Session(job, Looking, false, 0, [], map[], None, [], map[], false, None)
  }

  ghost predicate CanStep(w: World, m: Move) {
    && Enabled(w, m)
    && (Stepping(m) ==> Ready(w.db, w.sessions[m.k]))
  }

  ghost function Next(w: World, m: Move): World
    requires CanStep(w, m)
  {
    match m
    case Submit(job) => w.(sessions := w.sessions + [Fresh(job)])
    case Advance(k) => Take(w, k, AdvanceTurn(w.db, w.clock, w.sessions[k]))
    case TakeNow(k) => Take(w, k, WriteSnapshot(w.db, w.clock, w.sessions[k]))
    case Skip(k) => Take(w, k, SkipSnapshot(w.db, w.sessions[k]))
    case Fail(k) => Take(w, k, Retry(w.db, w.retries, w.sessions[k]))
    case Tick(elapsed) => w.(clock := w.clock + elapsed)
    case Administer(op) =>
      w.(db := Apply(w.db, op).0, history := w.history + [Commit(op, Apply(w.db, op).1, None)])
  }
}
