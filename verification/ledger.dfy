/** The tables, the reads derived from them, and every write as one atomic database transaction. */
module Ledger {
  import opened Prelude
  import opened Seqs
  import opened Money
  import opened DoubleEntry

  /** Milliseconds on one monotone clock. */
  type Time = int

  datatype Status = Active | Frozen | Closed

  datatype Transition = Transition(from: Status, to: Status)

  datatype Account = Account(
    number: string,
    normalSide: Direction,
    currency: Currency,
    limit: int,
    status: Status,
    currentSequence: nat,
    history: seq<Transition>)

  datatype TxStatus = Posted | Voided

  datatype TxType = DepositTx | WithdrawalTx | TransferTx | ReversalTx

  datatype Meta =
    | NoMeta
    | FxMeta(rate: string, fromCurrency: Currency, toCurrency: Currency)
    | ReversalMeta(original: TxId)

  datatype TxRow = TxRow(reference: Option<string>, kind: TxType, status: TxStatus, meta: Meta, postedAt: Time)

  datatype Entry = Entry(
    txId: TxId,
    accountId: AccountId,
    seqNo: nat,
    direction: Direction,
    amount: int,
    currency: Currency)

  datatype Snapshot = Snapshot(accountId: AccountId, seqNo: nat, balance: int, createdAt: Time)

  datatype EventType = AccountOpened | AccountFroze | AccountReactivated | AccountClosure | LimitChanged

  datatype Event = Event(
    accountId: AccountId,
    seqNo: nat,
    kind: EventType,
    change: Option<Transition>,
    limit: Option<string>)

  datatype Ledger = Ledger(
    accounts: map<AccountId, Account>,
    txs: map<TxId, TxRow>,
    entries: seq<Entry>,
    snapshots: seq<Snapshot>,
    events: seq<Event>)

  const EMPTY: Ledger := Ledger(map[], map[], [], [], [])

  // ----- row predicates -----

  function OfAccount(a: AccountId): Entry -> bool { (e: Entry) => e.accountId == a }

  function OfTx(t: TxId): Entry -> bool { (e: Entry) => e.txId == t }

  function UpTo(n: int): Entry -> bool { (e: Entry) => e.seqNo <= n }

  function After(n: int): Entry -> bool { (e: Entry) => e.seqNo > n }

  function PostedAt(txs: map<TxId, TxRow>, e: Entry): Time {
    if e.txId in txs then txs[e.txId].postedAt else 0
  }

  function PostedBy(txs: map<TxId, TxRow>, asOf: Option<Time>): Entry -> bool {
    (e: Entry) => asOf == None || PostedAt(txs, e) <= asOf.value
  }

  function EventOf(a: AccountId): Event -> bool { (v: Event) => v.accountId == a }

  function SnapshotOf(a: AccountId, asOf: Option<Time>): Snapshot -> bool {
    (s: Snapshot) => s.accountId == a && (asOf == None || s.createdAt <= asOf.value)
  }

  // ----- derived reads -----

  /** One account's events in append order. */
  function Stream(l: Ledger, a: AccountId): seq<Entry> { Where(l.entries, OfAccount(a)) }

  function TxEntries(l: Ledger, t: TxId): seq<Entry> { Where(l.entries, OfTx(t)) }

  /** The transactions of a log, each once, in the order of their first entry. */
  function TxIds(log: seq<Entry>): seq<TxId> {
    if log == [] then []
    else
      var front, t := TxIds(log[..|log| - 1]), log[|log| - 1].txId;
      if t in front then front else front + [t]
  }

  lemma {:induction false} TxIdsAre(log: seq<Entry>)
    ensures forall t :: t in TxIds(log) <==> exists e :: e in log && e.txId == t
    ensures Distinct(TxIds(log))
  {
    if log != [] {
      var front, last := log[..|log| - 1], log[|log| - 1];
      TxIdsAre(front);
      assert log == front + [last];
      forall t
        ensures t in TxIds(log) <==> exists e :: e in log && e.txId == t
      {
        if t in TxIds(front) {
          var e :| e in front && e.txId == t;
          assert e in log;
        }
        if t == last.txId { assert last in log; }
      }
    }
  }

  function EventStream(l: Ledger, a: AccountId): seq<Event> { Where(l.events, EventOf(a)) }

  /** Entries on the account's normal side add, entries on the other side subtract. */
  function BalanceEffect(side: Direction, direction: Direction): int {
    if direction == side then 1 else -1
  }

  function BalanceAfterEntry(current: int, side: Direction, direction: Direction, amount: int): int {
    if BalanceEffect(side, direction) == 1 then current + amount else current - amount
  }

  function Delta(side: Direction): Entry -> int {
    (e: Entry) => BalanceAfterEntry(0, side, e.direction, e.amount)
  }

  /** The balance by definition: the full history, nothing cached. */
  function Balance(l: Ledger, a: AccountId): int {
    if a in l.accounts then Total(Stream(l, a), Delta(l.accounts[a].normalSide)) else 0
  }

  function BalanceAsOf(l: Ledger, a: AccountId, asOf: Option<Time>): int {
    if a in l.accounts
    then Total(Where(Stream(l, a), PostedBy(l.txs, asOf)), Delta(l.accounts[a].normalSide))
    else 0
  }

  function BalanceUpToSeq(l: Ledger, a: AccountId, n: int, asOf: Option<Time>): int {
    if a in l.accounts
    then Total(Where(Where(Stream(l, a), UpTo(n)), PostedBy(l.txs, asOf)), Delta(l.accounts[a].normalSide))
    else 0
  }

  /** ORDER BY seq DESC LIMIT 1. */
  function Newest(snapshots: seq<Snapshot>): Option<Snapshot> {
    if snapshots == [] then None
    else
      var rest, last := Newest(snapshots[..|snapshots| - 1]), snapshots[|snapshots| - 1];
      if rest.Some? && rest.value.seqNo >= last.seqNo then rest else Some(last)
  }

  function NewestSnapshot(l: Ledger, a: AccountId, asOf: Option<Time>): Option<Snapshot> {
    Newest(Where(l.snapshots, SnapshotOf(a, asOf)))
  }

  /** The balance as balancesFor computes it: newest usable snapshot plus the trailing entries. */
  function BalanceRead(l: Ledger, a: AccountId, asOf: Option<Time>): int {
    if a !in l.accounts then 0
    else
      var side := l.accounts[a].normalSide;
      match NewestSnapshot(l, a, asOf)
      case None => Total(Where(Stream(l, a), PostedBy(l.txs, asOf)), Delta(side))
      case Some(s) =>
        s.balance + Total(Where(Where(Stream(l, a), After(s.seqNo)), PostedBy(l.txs, asOf)), Delta(side))
  }

  function EntryLegs(es: seq<Entry>): (legs: seq<Leg>)
    ensures |legs| == |es|
    ensures forall i :: 0 <= i < |es| ==>
      legs[i] == Leg(es[i].accountId, es[i].direction, es[i].amount, es[i].currency)
  {
    seq(|es|, i requires 0 <= i < |es| => Leg(es[i].accountId, es[i].direction, es[i].amount, es[i].currency))
  }

  function LegsOf(l: Ledger, t: TxId): seq<Leg> { EntryLegs(TxEntries(l, t)) }

  predicate HasReference(txs: map<TxId, TxRow>, reference: string) {
    exists t :: t in txs && txs[t].reference == Some(reference)
  }

  predicate HasNumber(accounts: map<AccountId, Account>, number: string) {
    exists a :: a in accounts && accounts[a].number == number
  }

  // ----- the gate every money movement passes under its locks -----

  function AccountsOf(legs: seq<Leg>): set<AccountId> {
    set i | 0 <= i < |legs| :: legs[i].accountId
  }

  predicate Present(rows: map<AccountId, Account>, legs: seq<Leg>) {
    forall i :: 0 <= i < |legs| ==> legs[i].accountId in rows
  }

  predicate CurrenciesMatch(rows: map<AccountId, Account>, legs: seq<Leg>)
    requires Present(rows, legs)
  {
    forall i :: 0 <= i < |legs| ==> rows[legs[i].accountId].currency == legs[i].currency
  }

  function PostFault(status: Status, balanceAfter: int, limit: int): Option<Error> {
    if status == Frozen then Some(AccountFrozen)
    else if status == Closed then Some(AccountClosed)
    else if balanceAfter < -limit then Some(InsufficientFunds)
    else None
  }

  function LegFault(account: Account, balance: int, leg: Leg): Option<Error> {
    PostFault(account.status, BalanceAfterEntry(balance, account.normalSide, leg.direction, leg.amount), account.limit)
  }

  function BalanceIn(balances: map<AccountId, int>, a: AccountId): int {
    if a in balances then balances[a] else 0
  }

  /** The first leg, in order, that its account refuses. */
  function FundsFault(rows: map<AccountId, Account>, balances: map<AccountId, int>, legs: seq<Leg>): Option<Error>
    requires Present(rows, legs)
  {
    if legs == [] then None
    else
      var front, last := legs[..|legs| - 1], legs[|legs| - 1];
      var earlier := FundsFault(rows, balances, front);
      if earlier.Some? then earlier
      else LegFault(rows[last.accountId], BalanceIn(balances, last.accountId), last)
  }

  function Gate(rows: map<AccountId, Account>, balances: map<AccountId, int>, legs: seq<Leg>): Option<Error> {
    if !Present(rows, legs) then Some(AccountNotFound)
    else if !CurrenciesMatch(rows, legs) then Some(CurrencyMismatch)
    else FundsFault(rows, balances, legs)
  }

  function BalancesFor(l: Ledger, ids: set<AccountId>, asOf: Option<Time>): map<AccountId, int> {
    map a | a in ids :: BalanceRead(l, a, asOf)
  }

  // ----- writes -----

  function NextSeqs(rows: map<AccountId, Account>, legs: seq<Leg>): map<AccountId, nat>
    requires Present(rows, legs)
  {
    map a | a in AccountsOf(legs) :: rows[a].currentSequence + 1
  }

  function Stamp(t: TxId, legs: seq<Leg>, seqs: map<AccountId, nat>): (es: seq<Entry>)
    requires forall i :: 0 <= i < |legs| ==> legs[i].accountId in seqs
    ensures |es| == |legs|
    ensures forall i :: 0 <= i < |legs| ==>
      es[i] == Entry(t, legs[i].accountId, seqs[legs[i].accountId], legs[i].direction, legs[i].amount, legs[i].currency)
  {
    seq(|legs|, i requires 0 <= i < |legs| =>
      Entry(t, legs[i].accountId, seqs[legs[i].accountId], legs[i].direction, legs[i].amount, legs[i].currency))
  }

  function Bumped(accounts: map<AccountId, Account>, seqs: map<AccountId, nat>): map<AccountId, Account> {
    map a | a in accounts :: if a in seqs then accounts[a].(currentSequence := seqs[a]) else accounts[a]
  }

  /** UNIQUE(account_id, seq) and UNIQUE(transaction_id, account_id) admit the new rows. */
  predicate SlotsFree(log: seq<Entry>, es: seq<Entry>) {
    && (forall i, j :: 0 <= i < |log| && 0 <= j < |es| && log[i].accountId == es[j].accountId ==>
          log[i].seqNo != es[j].seqNo && log[i].txId != es[j].txId)
    && (forall i, j :: 0 <= i < j < |es| ==> es[i].accountId != es[j].accountId)
  }

  /** Header, entries and sequence bumps of one transaction, all at once. */
  function Publish(l: Ledger, t: TxId, row: TxRow, legs: seq<Leg>): Ledger
    requires Present(l.accounts, legs)
  {
    var seqs := NextSeqs(l.accounts, legs);
    l.(accounts := Bumped(l.accounts, seqs),
       txs := l.txs[t := row],
       entries := l.entries + Stamp(t, legs, seqs))
  }

  function MetaOf(d: Draft): Meta {
    if d.fx == None then NoMeta
    else FxMeta(d.fx.value.rate, d.fx.value.base, if |d.legs| > 1 then d.legs[1].currency else "")
  }

  function PostHeader(d: Draft, kind: TxType, reference: Option<string>, at: Time): TxRow {
    TxRow(reference, kind, Posted, MetaOf(d), at)
  }

  function ReversalHeader(target: TxId, at: Time): TxRow {
    TxRow(None, ReversalTx, Posted, ReversalMeta(target), at)
  }

  function HeaderFault(txs: map<TxId, TxRow>, t: TxId, row: TxRow): Option<Error> {
    if row.reference.Some? && HasReference(txs, row.reference.value) then Some(DuplicateReference)
    else if t in txs then Some(UniqueViolation)
    else None
  }

  /** What refuses this movement in this state, in the order the statements run. */
  function MovementFault(l: Ledger, t: TxId, row: TxRow, legs: seq<Leg>): Option<Error> {
    var gate := Gate(l.accounts, BalancesFor(l, AccountsOf(legs), None), legs);
    if gate.Some? then gate
    else if HeaderFault(l.txs, t, row).Some? then HeaderFault(l.txs, t, row)
    else if !SlotsFree(l.entries, Stamp(t, legs, NextSeqs(l.accounts, legs))) then Some(UniqueViolation)
    else None
  }

  function MaxEventSeq(events: seq<Event>): nat {
    if events == [] then 0
    else
      var rest, last := MaxEventSeq(events[..|events| - 1]), events[|events| - 1].seqNo;
      if rest >= last then rest else last
  }

  function NextEvent(l: Ledger, a: AccountId, kind: EventType, change: Option<Transition>,
        limit: Option<string>): Event {
    Event(a, MaxEventSeq(EventStream(l, a)) + 1, kind, change, limit)
  }

  function StatusEvent(to: Status): EventType {
    match to
    case Closed => AccountClosure
    case Frozen => AccountFroze
    case Active => AccountReactivated
  }

  /** CHECK (currency ~ '^[A-Z]{3}$'). */
  predicate IsoCurrency(c: Currency) {
    |c| == 3 && forall i :: 0 <= i < 3 ==> 'A' <= c[i] <= 'Z'
  }

  const VAULT_LIMIT: int := 9999999999999999

  function VaultNumber(c: Currency): string { "LE-INTERNAL-CASH-" + c }

  /** One committed database transaction. */
  datatype Op =
    | Post(id: TxId, tx: Movement, kind: TxType, reference: Option<string>, at: Time)
    | VoidTx(id: TxId, target: TxId, at: Time)
    | SetStatus(account: AccountId, to: Status)
    | SetLimit(account: AccountId, limit: string)
    | OpenAccount(account: AccountId, number: string, side: Direction, currency: Currency, limit: string)
    | OpenVault(account: AccountId, currency: Currency)
    | TakeSnapshot(account: AccountId, seqNo: int, at: Time)

  function ApplyPost(l: Ledger, t: TxId, d: Draft, kind: TxType, reference: Option<string>, at: Time): (Ledger,
        Option<Error>) {
    var row := PostHeader(d, kind, reference, at);
    var fault := MovementFault(l, t, row, d.legs);
    if fault.Some? then (l, fault) else (Publish(l, t, row, d.legs), None)
  }

  function ApplyVoid(l: Ledger, t: TxId, target: TxId, at: Time): (Ledger, Option<Error>) {
    if target !in l.txs then (l, Some(NotFound))
    else
      match Of(Flip(LegsOf(l, target)))
      case Err(e) => (l, Some(e))
      case Ok(reversal) =>
        var row := ReversalHeader(target, at);
        var fault := MovementFault(l, t, row, reversal.legs);
        if fault.Some? then (l, fault)
        else if l.txs[target].status != Posted then (l, Some(InvalidTransaction))
        else
          var published := Publish(l, t, row, reversal.legs);
          (published.(txs := published.txs[target := l.txs[target].(status := Voided)]), None)
  }

  function ApplyStatus(l: Ledger, a: AccountId, to: Status): (Ledger, Option<Error>) {
    if a !in l.accounts then (l, Some(AccountNotFound))
    else
      var current := l.accounts[a];
      if current.status == Closed then (l, Some(InvalidTransaction))
      else if current.status == to then (l, None)
      else if to == Closed && BalanceRead(l, a, None) != 0 then (l, Some(InvalidTransaction))
      else
        var change := Transition(current.status, to);
        (l.(accounts := l.accounts[a := current.(status := to, history := current.history + [change])],
            events := l.events + [NextEvent(l, a, StatusEvent(to), Some(change), None)]), None)
  }

  function ApplyLimit(l: Ledger, a: AccountId, limit: string): (Ledger, Option<Error>) {
    match FromDecimalString(limit)
    case Err(e) => (l, Some(e))
    case Ok(units) =>
      if a !in l.accounts then (l, Some(AccountNotFound))
      else if l.accounts[a].status == Closed then (l, Some(AccountClosed))
      else if units < 0 then (l, Some(CheckViolation))
      else
        (l.(accounts := l.accounts[a := l.accounts[a].(limit := units)],
            events := l.events + [NextEvent(l, a, LimitChanged, None, Some(ToDecimalString(units)))]), None)
  }

  function ApplyOpen(l: Ledger, a: AccountId, number: string, side: Direction, currency: Currency,
        limit: string): (Ledger, Option<Error>) {
    match FromDecimalString(limit)
    case Err(e) => (l, Some(e))
    case Ok(units) =>
      if a in l.accounts || HasNumber(l.accounts, number) then (l, Some(UniqueViolation))
      else if units < 0 || !IsoCurrency(currency) then (l, Some(CheckViolation))
      else
        (l.(accounts := l.accounts[a := Account(number, side, currency, units, Active, 0, [])],
            events := l.events + [NextEvent(l, a, AccountOpened, None, Some(limit))]), None)
  }

  /** ON CONFLICT (account_number) DO NOTHING: an existing vault is left as it is. */
  function ApplyVault(l: Ledger, a: AccountId, currency: Currency): (Ledger, Option<Error>) {
    if HasNumber(l.accounts, VaultNumber(currency)) then (l, None)
    else if a in l.accounts then (l, Some(UniqueViolation))
    else if !IsoCurrency(currency) then (l, Some(CheckViolation))
    else
      var row := Account(VaultNumber(currency), Debit, currency, VAULT_LIMIT, Active, 0, []);
      (l.(accounts := l.accounts[a := row]), None)
  }

  predicate HasSnapshot(snapshots: seq<Snapshot>, a: AccountId, n: int) {
    exists i :: 0 <= i < |snapshots| && snapshots[i].accountId == a && snapshots[i].seqNo == n
  }

  /** ON CONFLICT (account_id, seq) DO NOTHING. */
  function InsertSnapshot(l: Ledger, s: Snapshot): Ledger {
    if HasSnapshot(l.snapshots, s.accountId, s.seqNo) then l else l.(snapshots := l.snapshots + [s])
  }

  function ApplySnapshot(l: Ledger, a: AccountId, n: int, at: Time): (Ledger, Option<Error>) {
    if n <= 0 then (l, None)
    else if a !in l.accounts then (l, Some(CheckViolation))
    else (InsertSnapshot(l, Snapshot(a, n, BalanceUpToSeq(l, a, n, None), at)), None)
  }

  function Apply(l: Ledger, op: Op): (Ledger, Option<Error>) {
    match op
    case Post(id, tx, kind, reference, at) => ApplyPost(l, id, tx, kind, reference, at)
    case VoidTx(id, target, at) => ApplyVoid(l, id, target, at)
    case SetStatus(a, to) => ApplyStatus(l, a, to)
    case SetLimit(a, limit) => ApplyLimit(l, a, limit)
    case OpenAccount(a, number, side, currency, limit) => ApplyOpen(l, a, number, side, currency, limit)
    case OpenVault(a, currency) => ApplyVault(l, a, currency)
    case TakeSnapshot(a, n, at) => ApplySnapshot(l, a, n, at)
  }

  /** Any refusal leaves every table exactly as it was. */
  lemma {:induction false} RefusalChangesNothing(l: Ledger, op: Op)
    requires Apply(l, op).1.Some?
    ensures Apply(l, op).0 == l
  {
  }
}
