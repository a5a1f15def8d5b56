/** The audit trail: pages with a carried running balance, against the full history of the account. */
module Audit {
  import opened Prelude
  import opened Seqs
  import opened DoubleEntry
  import opened Ledger
  import opened Lifecycle
  import opened Invariants

  /** The filters of one listing; all three are optional. */
  datatype Window = Window(asOf: Option<Time>, from: Option<Time>, to: Option<Time>)

  datatype Item = Item(entry: Entry, running: int)

  datatype View = View(balance: int, items: seq<Item>, nextCursor: Option<nat>)

  // ----- the query -----

  function Reached(txs: map<TxId, TxRow>, w: Window): Entry -> bool {
    (e: Entry) =>
      && (w.asOf.Some? ==> PostedAt(txs, e) <= w.asOf.value)
      && (w.to.Some? ==> PostedAt(txs, e) <= w.to.value)
  }

  /** Before the window opens, or at or before the cursor. */
  function Passed(txs: map<TxId, TxRow>, from: Option<Time>, afterSeq: Option<nat>): Entry -> bool {
    (e: Entry) => (from.Some? && PostedAt(txs, e) < from.value) || (afterSeq.Some? && e.seqNo <= afterSeq.value)
  }

  function Shown(p: Entry -> bool, b: Entry -> bool): Entry -> bool { (e: Entry) => p(e) && !b(e) }

  function Take<T>(xs: seq<T>, n: nat): seq<T> { if n <= |xs| then xs[..n] else xs }

  function RawAudit(l: Ledger, a: AccountId, w: Window, afterSeq: Option<nat>, limit: nat): seq<Entry> {
    Take(SortBy(Where(Stream(l, a), Shown(Reached(l.txs, w), Passed(l.txs, w.from, afterSeq))), BySeq()), limit)
  }

  /** The balance the running column starts from. */
  function Base(l: Ledger, a: AccountId, w: Window, afterSeq: Option<nat>): int {
    if w.from.Some? && afterSeq == None then BalanceRead(l, a, Some(w.from.value - 1))
    else BalanceUpToSeq(l, a, if afterSeq.Some? then afterSeq.value else 0, w.asOf)
  }

  function Annotate(rows: seq<Entry>, base: int, side: Direction): seq<Item> {
    if rows == [] then []
    else
      var front, e := Annotate(rows[..|rows| - 1], base, side), rows[|rows| - 1];
      front + [Item(e, (if front == [] then base else front[|front| - 1].running) + Delta(side)(e))]
  }

  function PageOf(items: seq<Item>, limit: nat, balance: int): View {
    var page := Take(items, limit);
    View(balance, page, if |items| > limit && page != [] then Some(page[|page| - 1].entry.seqNo) else None)
  }

  function Page(l: Ledger, a: AccountId, w: Window, afterSeq: Option<nat>, limit: nat): View
    requires a in l.accounts
  {
    PageOf(Annotate(RawAudit(l, a, w, afterSeq, limit + 1), Base(l, a, w, afterSeq), l.accounts[a].normalSide),
           limit, BalanceRead(l, a, if w.to.Some? then w.to else w.asOf))
  }

  lemma {:induction false} AnnotateLength(rows: seq<Entry>, base: int, side: Direction)
    ensures |Annotate(rows, base, side)| == |rows|
  {
    if rows != [] {
      AnnotateLength(rows[..|rows| - 1], base, side);
    }
  }

  /** One page of the audit trail, with its running balance carried row by row. */
  method Get(l: Ledger, a: AccountId, w: Window, afterSeq: Option<nat>, limit: nat) returns (r: Result<View>)
    ensures r == if a in l.accounts then Ok(Page(l, a, w, afterSeq, limit)) else Err(AccountNotFound)
  {
    hide BalanceRead, RawAudit, Base, Delta, PageOf;
    if a !in l.accounts {
      return Err(AccountNotFound);
    }
    var side := l.accounts[a].normalSide;
    var base := Base(l, a, w, afterSeq);
    var running := base;
    var rows := RawAudit(l, a, w, afterSeq, limit + 1);
    var items := [];
    for i := 0 to |rows|
      invariant |items| == i && items == Annotate(rows[..i], base, side)
      invariant running == if i == 0 then base else items[i - 1].running
    {
      assert rows[..i + 1][..i] == rows[..i];
      AnnotateLength(rows[..i + 1], base, side);
      running := running + Delta(side)(rows[i]);
      items := items + [Item(rows[i], running)];
    }
    assert rows[..|rows|] == rows;
    return Ok(PageOf(items, limit, BalanceRead(l, a, if w.to.Some? then w.to else w.asOf)));
  }

  // ----- what the filters select -----

  /** Exactly the elements before the cut satisfy a down-closed filter. */
  lemma {:induction false} DownClosedCut(st: seq<Entry>, p: Entry -> bool, i: nat)
    requires DownClosed(st, p) && i < |st|
    ensures p(st[i]) <==> i < |Where(st, p)|
  {
    DownClosedPrefix(st, p);
    var n := |Where(st, p)|;
    WhereMembers(st, p);
    if i < n {
      assert Where(st, p)[i] == st[i];
      assert st[i] in Where(st, p);
    } else if p(st[i]) {
      PrefixHolds(st, p, i);
      assert st == st[..i + 1] + st[i + 1..];
      WhereConcat(st[..i + 1], st[i + 1..], p);
      WhereAll(st[..i + 1], p);
    }
  }

  lemma {:induction false} PrefixHolds(st: seq<Entry>, p: Entry -> bool, i: nat)
    requires DownClosed(st, p) && i < |st| && p(st[i])
    ensures forall e :: e in st[..i + 1] ==> p(e)
  {
    forall e | e in st[..i + 1]
      ensures p(e)
    {
      var k :| 0 <= k < i + 1 && st[..i + 1][k] == e;
      assert st[k] == e;
    }
  }

  function Slice(st: seq<Entry>, lo: nat, hi: nat): seq<Entry>
    requires hi <= |st|
  {
    if lo <= hi then st[lo..hi] else []
  }

  lemma {:induction false} CutHolds(st: seq<Entry>, p: Entry -> bool, lo: nat, hi: nat)
    requires DownClosed(st, p) && lo <= hi <= |Where(st, p)| <= |st|
    ensures forall e :: e in st[lo..hi] ==> p(e)
  {
    hide Where;
    forall e | e in st[lo..hi]
      ensures p(e)
    {
      var k :| 0 <= k < hi - lo && st[lo..hi][k] == e;
      DownClosedCut(st, p, lo + k);
    }
  }

  lemma {:induction false} CutFails(st: seq<Entry>, p: Entry -> bool, lo: nat, hi: nat)
    requires DownClosed(st, p) && |Where(st, p)| <= lo <= hi <= |st|
    ensures forall e :: e in st[lo..hi] ==> !p(e)
  {
    hide Where;
    forall e | e in st[lo..hi]
      ensures !p(e)
    {
      var k :| 0 <= k < hi - lo && st[lo..hi][k] == e;
      DownClosedCut(st, p, lo + k);
    }
  }

  /** Two down-closed filters cut one contiguous segment out of a stream. */
  lemma {:induction false} Segment(st: seq<Entry>, p: Entry -> bool, b: Entry -> bool)
    requires DownClosed(st, p) && DownClosed(st, b)
    ensures |Where(st, p)| <= |st| && |Where(st, b)| <= |st|
    ensures Where(st, Shown(p, b)) == Slice(st, |Where(st, b)|, |Where(st, p)|)
  {
    hide Where, DownClosed;
    DownClosedPrefix(st, p);
    DownClosedPrefix(st, b);
    var lo, hi := |Where(st, b)|, |Where(st, p)|;
    var mid := if lo <= hi then lo else hi;
    CutHolds(st, b, 0, mid);
    CutHolds(st, p, mid, hi);
    CutFails(st, b, if lo <= hi then lo else |st|, if lo <= hi then hi else |st|);
    CutFails(st, p, hi, |st|);
    JoinedSegments(st, mid, hi, Shown(p, b));
  }

  lemma {:induction false} JoinedSegments(st: seq<Entry>, mid: nat, hi: nat, q: Entry -> bool)
    requires mid <= hi <= |st|
    requires forall e :: e in st[0..mid] ==> !q(e)
    requires forall e :: e in st[mid..hi] ==> q(e)
    requires forall e :: e in st[hi..|st|] ==> !q(e)
    ensures Where(st, q) == st[mid..hi]
  {
    hide Where;
    assert st == st[0..mid] + st[mid..hi] + st[hi..|st|];
    WhereConcat(st[0..mid] + st[mid..hi], st[hi..|st|], q);
    WhereConcat(st[0..mid], st[mid..hi], q);
    WhereNone(st[0..mid], q);
    WhereAll(st[mid..hi], q);
    WhereNone(st[hi..|st|], q);
  }

  // ----- one account's trail -----

  /** How many entries of the stream lie before the first row, and before the end of the window. */
  function Opening(l: Ledger, a: AccountId, from: Option<Time>, afterSeq: Option<nat>): nat {
    |Where(Stream(l, a), Passed(l.txs, from, afterSeq))|
  }

  function Closing(l: Ledger, a: AccountId, w: Window): nat { |Where(Stream(l, a), Reached(l.txs, w))| }

  ghost predicate Sound(l: Ledger, a: AccountId) {
    AccountsOk(l) && SnapshotsOk(l) && a in l.accounts
  }

  lemma {:induction false} FiltersClosed(l: Ledger, a: AccountId, w: Window, afterSeq: Option<nat>)
    requires Sound(l, a)
    ensures DownClosed(Stream(l, a), Reached(l.txs, w)) && DownClosed(Stream(l, a), Passed(l.txs, w.from, afterSeq))
    ensures Opening(l, a, w.from, afterSeq) <= |Stream(l, a)| && Closing(l, a, w) <= |Stream(l, a)|
  {
    hide Where, RowProjects, SnapshotsOk, Balance;
    assert AccountOk(l, a);
    var st := Stream(l, a);
    assert forall i, j :: 0 <= i < j < |st| ==>
      PostedAt(l.txs, st[i]) <= PostedAt(l.txs, st[j]) && st[i].seqNo < st[j].seqNo;
    DownClosedPrefix(st, Reached(l.txs, w));
    DownClosedPrefix(st, Passed(l.txs, w.from, afterSeq));
  }

  lemma {:induction false} RawAuditIs(l: Ledger, a: AccountId, w: Window, afterSeq: Option<nat>, limit: nat)
    requires Sound(l, a)
    ensures Opening(l, a, w.from, afterSeq) <= |Stream(l, a)| && Closing(l, a, w) <= |Stream(l, a)|
    ensures RawAudit(l, a, w, afterSeq, limit) ==
            Take(Slice(Stream(l, a), Opening(l, a, w.from, afterSeq), Closing(l, a, w)), limit)
  {
    hide Where, RowProjects, SnapshotsOk, Balance, TimesOk;
    FiltersClosed(l, a, w, afterSeq);
    var st := Stream(l, a);
    Segment(st, Reached(l.txs, w), Passed(l.txs, w.from, afterSeq));
    assert AccountOk(l, a);
    SortByIdentity(Slice(st, Opening(l, a, w.from, afterSeq), Closing(l, a, w)), BySeq());
  }

  /** The full-history balance after the first n entries. */
  function History(l: Ledger, a: AccountId, n: nat): int
    requires a in l.accounts && n <= |Stream(l, a)|
  {
    Total(Stream(l, a)[..n], Delta(l.accounts[a].normalSide))
  }

  /** A cursor a page may have handed out: some position inside the window. */
  ghost predicate CursorOk(l: Ledger, a: AccountId, w: Window, afterSeq: Option<nat>) {
    afterSeq.Some? ==> Opening(l, a, w.from, None) <= afterSeq.value <= Closing(l, a, w)
  }

  lemma {:induction false} OpeningAtCursor(l: Ledger, a: AccountId, w: Window, c: nat)
    requires Sound(l, a) && CursorOk(l, a, w, Some(c))
    ensures Opening(l, a, w.from, Some(c)) == c
  {
    hide Where, RowProjects, SnapshotsOk, Balance, TimesOk;
    var st, b, b0 := Stream(l, a), Passed(l.txs, w.from, Some(c)), Passed(l.txs, w.from, None);
    FiltersClosed(l, a, w, Some(c));
    FiltersClosed(l, a, w, None);
    assert AccountOk(l, a);
    var n := Opening(l, a, w.from, Some(c));
    if n < |st| {
      DownClosedCut(st, b, n);
    }
    if c < |st| {
      DownClosedCut(st, b, c);
      DownClosedCut(st, b0, c);
    }
    if n > 0 {
      DownClosedCut(st, b, n - 1);
      DownClosedCut(st, b0, n - 1);
    }
    if c > 0 {
      DownClosedCut(st, b, c - 1);
    }
  }

  lemma {:induction false} OpeningOfWindow(l: Ledger, a: AccountId, from: Time)
    requires Sound(l, a)
    ensures Where(Stream(l, a), PostedBy(l.txs, Some(from - 1))) == Where(Stream(l, a), Passed(l.txs, Some(from), None))
  {
    WhereSame(Stream(l, a), PostedBy(l.txs, Some(from - 1)), Passed(l.txs, Some(from), None));
  }

  /** The base is the balance of the full history strictly before the page's first row. */
  lemma {:induction false} BaseIsHistory(l: Ledger, a: AccountId, w: Window, afterSeq: Option<nat>)
    requires Sound(l, a) && CursorOk(l, a, w, afterSeq)
    ensures Opening(l, a, w.from, afterSeq) <= |Stream(l, a)|
    ensures Base(l, a, w, afterSeq) == History(l, a, Opening(l, a, w.from, afterSeq))
  {
    hide Where, Total, RowProjects, Balance, TimesOk, BalanceRead, SnapshotsOk;
    FiltersClosed(l, a, w, afterSeq);
    match afterSeq
    case Some(c) =>
      OpeningAtCursor(l, a, w, c);
      BaseAtCursor(l, a, w, c);
    case None =>
      if w.from.Some? {
        BaseOfWindow(l, a, w);
      } else {
        BaseOfHistory(l, a, w);
      }
  }

  lemma {:induction false} BaseOfWindow(l: Ledger, a: AccountId, w: Window)
    requires Sound(l, a) && w.from.Some? && Opening(l, a, w.from, None) <= |Stream(l, a)|
    ensures Base(l, a, w, None) == History(l, a, Opening(l, a, w.from, None))
  {
    hide Where, Total, RowProjects, Balance, TimesOk, BalanceRead;
    SnapshotReadIsReplay(l, a, Some(w.from.value - 1));
    OpeningOfWindow(l, a, w.from.value);
    FiltersClosed(l, a, w, None);
    DownClosedPrefix(Stream(l, a), Passed(l.txs, w.from, None));
  }

  lemma {:induction false} BaseOfHistory(l: Ledger, a: AccountId, w: Window)
    requires Sound(l, a) && w.from == None && Opening(l, a, w.from, None) <= |Stream(l, a)|
    ensures Base(l, a, w, None) == History(l, a, Opening(l, a, w.from, None))
  {
    hide RowProjects, Balance, TimesOk, BalanceRead, SnapshotsOk;
    assert AccountOk(l, a);
    SeqFilters(Stream(l, a), 0);
    WhereNone(Stream(l, a), Passed(l.txs, None, None));
    assert Stream(l, a)[..0] == [];
  }

  lemma {:induction false} BaseAtCursor(l: Ledger, a: AccountId, w: Window, c: nat)
    requires Sound(l, a) && c <= Closing(l, a, w)
    ensures c <= |Stream(l, a)| && Base(l, a, w, Some(c)) == History(l, a, c)
  {
    hide Where, Total, RowProjects, Balance, TimesOk, BalanceRead, SnapshotsOk;
    assert AccountOk(l, a);
    var st := Stream(l, a);
    SeqFilters(st, c);
    FiltersClosed(l, a, w, None);
    forall e | e in st[..c]
      ensures PostedBy(l.txs, w.asOf)(e)
    {
      var k :| 0 <= k < c && st[..c][k] == e;
      DownClosedCut(st, Reached(l.txs, w), k);
    }
    WhereAll(st[..c], PostedBy(l.txs, w.asOf));
  }

  // ----- pages -----

  /** The statement of the entries from position lo to position hi, each with its full-history balance. */
  function Statement(l: Ledger, a: AccountId, lo: nat, hi: nat): (items: seq<Item>)
    requires a in l.accounts && hi <= |Stream(l, a)|
    ensures |items| == if lo <= hi then hi - lo else 0
    ensures forall k :: 0 <= k < |items| ==> items[k] == Item(Stream(l, a)[lo + k], History(l, a, lo + k + 1))
  {
    if lo <= hi
    then seq(hi - lo, k requires 0 <= k < hi - lo => Item(Stream(l, a)[lo + k], History(l, a, lo + k + 1)))
    else []
  }

  lemma {:induction false} HistoryStep(l: Ledger, a: AccountId, n: nat)
    requires a in l.accounts && n < |Stream(l, a)|
    ensures History(l, a, n + 1) == History(l, a, n) + Delta(l.accounts[a].normalSide)(Stream(l, a)[n])
  {
    var st := Stream(l, a);
    assert st[..n + 1] == st[..n] + [st[n]];
    TotalSnoc(st[..n], st[n], Delta(l.accounts[a].normalSide));
  }

  /** Carrying the running balance row by row gives each row's full-history balance. */
  lemma {:induction false} AnnotateIsStatement(l: Ledger, a: AccountId, lo: nat, hi: nat)
    requires a in l.accounts && lo <= hi <= |Stream(l, a)|
    ensures Annotate(Stream(l, a)[lo..hi], History(l, a, lo), l.accounts[a].normalSide) == Statement(l, a, lo, hi)
    decreases hi - lo
  {
    hide History, Stream, Delta;
    if lo < hi {
      var rows := Stream(l, a)[lo..hi];
      assert rows[..|rows| - 1] == Stream(l, a)[lo..hi - 1];
      AnnotateIsStatement(l, a, lo, hi - 1);
      HistoryStep(l, a, hi - 1);
    }
  }

  function PageEnd(l: Ledger, a: AccountId, w: Window, afterSeq: Option<nat>, limit: nat): nat {
    var lo, hi := Opening(l, a, w.from, afterSeq), Closing(l, a, w);
    if lo + limit < hi then lo + limit else hi
  }

  ghost predicate GoodPage(l: Ledger, a: AccountId, w: Window, afterSeq: Option<nat>, limit: nat)
    requires a in l.accounts
  {
    var lo, hi, end := Opening(l, a, w.from, afterSeq), Closing(l, a, w), PageEnd(l, a, w, afterSeq, limit);
    && hi <= |Stream(l, a)|
    && Page(l, a, w, afterSeq, limit).items == Statement(l, a, lo, end)
    && Page(l, a, w, afterSeq, limit).nextCursor == (if lo + limit < hi then Some(end) else None)
  }

  /** One row more than the page is fetched, only to learn whether another page follows. */
  lemma {:induction false} PageFromStatement(l: Ledger, a: AccountId, lo: nat, hi: nat, limit: nat, balance: int)
    requires a in l.accounts && lo <= hi <= |Stream(l, a)| && AccountOk(l, a) && limit >= 1
    ensures var end := if lo + limit < hi then lo + limit else hi;
            PageOf(Statement(l, a, lo, if lo + limit + 1 < hi then lo + limit + 1 else hi), limit, balance) ==
              View(balance, Statement(l, a, lo, end), if lo + limit < hi then Some(end) else None)
  {
    hide History, RowProjects, TimesOk, Balance, EventStream, Stream;
    var end := if lo + limit < hi then lo + limit else hi;
    var items := Statement(l, a, lo, if lo + limit + 1 < hi then lo + limit + 1 else hi);
    assert Take(items, limit) == Statement(l, a, lo, end);
    if lo + limit < hi {
      assert Take(items, limit)[limit - 1].entry.seqNo == end;
    }
  }

  lemma {:induction false} TakeSlice(st: seq<Entry>, lo: nat, hi: nat, n: nat)
    requires lo <= hi <= |st|
    ensures Take(st[lo..hi], n) == st[lo..if lo + n < hi then lo + n else hi]
  {
  }

  lemma {:induction false} FetchedRows(l: Ledger, a: AccountId, w: Window, afterSeq: Option<nat>, limit: nat)
    requires Sound(l, a) && CursorOk(l, a, w, afterSeq)
    ensures a in l.accounts && Closing(l, a, w) <= |Stream(l, a)|
    ensures var lo, hi := Opening(l, a, w.from, afterSeq), Closing(l, a, w);
            Annotate(RawAudit(l, a, w, afterSeq, limit), Base(l, a, w, afterSeq), l.accounts[a].normalSide) ==
              Statement(l, a, lo, if lo + limit < hi then lo + limit else hi)
  {
    hide Opening, Closing, RawAudit, Base, History, Stream, Sound, CursorOk, Delta, AccountOk;
    SoundAccount(l, a);
    RawAuditIs(l, a, w, afterSeq, limit);
    BaseIsHistory(l, a, w, afterSeq);
    var lo, hi, st := Opening(l, a, w.from, afterSeq), Closing(l, a, w), Stream(l, a);
    if lo <= hi {
      TakeSlice(st, lo, hi, limit);
      AnnotateIsStatement(l, a, lo, if lo + limit < hi then lo + limit else hi);
    }
  }

  /** Each page holds exactly its rows of the window, each with the full-history balance at that row, and hands
      out a cursor exactly when rows remain. */
  lemma {:induction false} PageIs(l: Ledger, a: AccountId, w: Window, afterSeq: Option<nat>, limit: nat)
    requires Sound(l, a) && CursorOk(l, a, w, afterSeq) && limit >= 1
    ensures GoodPage(l, a, w, afterSeq, limit)
  {
    hide Opening, Closing, RawAudit, Base, History, Stream, Sound, CursorOk, BalanceRead, AccountOk, Annotate;
    SoundAccount(l, a);
    FetchedRows(l, a, w, afterSeq, limit + 1);
    var lo, hi := Opening(l, a, w.from, afterSeq), Closing(l, a, w);
    if lo <= hi {
      PageFromStatement(l, a, lo, hi, limit, BalanceRead(l, a, if w.to.Some? then w.to else w.asOf));
    }
  }

  lemma {:induction false} SoundAccount(l: Ledger, a: AccountId)
    requires Sound(l, a)
    ensures a in l.accounts && AccountOk(l, a)
  {
  }

  // ----- cursors a client makes up -----

  lemma {:induction false} AnnotateShift(rows: seq<Entry>, base: int, shift: int, side: Direction)
    ensures |Annotate(rows, base, side)| == |Annotate(rows, base + shift, side)| == |rows|
    ensures forall k :: 0 <= k < |rows| ==>
      && Annotate(rows, base + shift, side)[k].entry == Annotate(rows, base, side)[k].entry
      && Annotate(rows, base + shift, side)[k].running == Annotate(rows, base, side)[k].running + shift
  {
    if rows != [] {
      AnnotateShift(rows[..|rows| - 1], base, shift, side);
    }
  }

  /** A cursor with a row behind it lies at or before the page's opening. */
  lemma {:induction false} CursorBeforeRows(l: Ledger, a: AccountId, w: Window, c: nat)
    requires Sound(l, a) && Opening(l, a, w.from, Some(c)) < Closing(l, a, w)
    ensures c <= Opening(l, a, w.from, Some(c)) && Closing(l, a, w) <= |Stream(l, a)|
  {
    hide Where, RowProjects, SnapshotsOk, Balance, TimesOk;
    FiltersClosed(l, a, w, Some(c));
    assert AccountOk(l, a);
    DownClosedCut(Stream(l, a), Passed(l.txs, w.from, Some(c)), Opening(l, a, w.from, Some(c)));
  }

  lemma {:induction false} OpensLater(l: Ledger, a: AccountId, w: Window, c: nat)
    requires Sound(l, a)
    ensures Opening(l, a, w.from, None) <= Opening(l, a, w.from, Some(c))
  {
    hide Where, Sound;
    var st, n := Stream(l, a), Opening(l, a, w.from, None);
    FiltersClosed(l, a, w, None);
    FiltersClosed(l, a, w, Some(c));
    if n > 0 {
      DownClosedCut(st, Passed(l.txs, w.from, None), n - 1);
      DownClosedCut(st, Passed(l.txs, w.from, Some(c)), n - 1);
    }
  }

  /** How far the running column of a page is off when its cursor lies before the window opens. */
  function CursorGap(l: Ledger, a: AccountId, w: Window, c: nat): int
    requires a in l.accounts && c <= |Stream(l, a)| && Opening(l, a, w.from, Some(c)) <= |Stream(l, a)|
  {
    History(l, a, Opening(l, a, w.from, Some(c))) - History(l, a, c)
  }

  lemma {:induction false} AnyCursorRows(l: Ledger, a: AccountId, w: Window, c: nat, limit: nat)
    requires Sound(l, a) && Opening(l, a, w.from, Some(c)) < Closing(l, a, w)
    ensures c <= Opening(l, a, w.from, Some(c)) && Closing(l, a, w) <= |Stream(l, a)|
    ensures var items := Annotate(RawAudit(l, a, w, Some(c), limit), Base(l, a, w, Some(c)), l.accounts[a].normalSide);
            var lo, hi := Opening(l, a, w.from, Some(c)), Closing(l, a, w);
            && |items| == (if lo + limit < hi then limit else hi - lo)
            && forall k :: 0 <= k < |items| ==>
                 items[k] == Item(Stream(l, a)[lo + k], History(l, a, lo + k + 1) - CursorGap(l, a, w, c))
  {
    hide Opening, Closing, RawAudit, Base, History, Stream, Sound, Delta, AccountOk, Annotate;
    var lo, hi, st := Opening(l, a, w.from, Some(c)), Closing(l, a, w), Stream(l, a);
    SoundAccount(l, a);
    CursorBeforeRows(l, a, w, c);
    BaseAtCursor(l, a, w, c);
    RawAuditIs(l, a, w, Some(c), limit);
    TakeSlice(st, lo, hi, limit);
    var end := if lo + limit < hi then lo + limit else hi;
    AnnotateIsStatement(l, a, lo, end);
    AnnotateShift(st[lo..end], History(l, a, lo), -CursorGap(l, a, w, c), l.accounts[a].normalSide);
    assert History(l, a, lo) + -CursorGap(l, a, w, c) == Base(l, a, w, Some(c));
    var items := Annotate(RawAudit(l, a, w, Some(c), limit), Base(l, a, w, Some(c)), l.accounts[a].normalSide);
    assert items == Annotate(st[lo..end], Base(l, a, w, Some(c)), l.accounts[a].normalSide);
    forall k | 0 <= k < |items|
      ensures items[k] == Item(st[lo + k], History(l, a, lo + k + 1) - CursorGap(l, a, w, c))
    {
      assert Statement(l, a, lo, end)[k] == Item(st[lo + k], History(l, a, lo + k + 1));
      assert Annotate(st[lo..end], History(l, a, lo), l.accounts[a].normalSide)[k] == Statement(l, a, lo, end)[k];
    }
  }

  /** The rows are right for any cursor a client sends, inside the window or not; the running column is off by one
      and the same gap on every row, and right again from the next page on. */
  lemma {:induction false} AnyCursorPage(l: Ledger, a: AccountId, w: Window, c: nat, limit: nat)
    requires Sound(l, a) && limit >= 1
    ensures var lo, hi, page := Opening(l, a, w.from, Some(c)), Closing(l, a, w), Page(l, a, w, Some(c), limit);
            && hi <= |Stream(l, a)| && (page.items != [] <==> lo < hi)
            && (lo < hi ==>
                  && c <= lo && |page.items| == (if lo + limit < hi then limit else hi - lo)
                  && forall k :: 0 <= k < |page.items| ==>
                       page.items[k] == Item(Stream(l, a)[lo + k], History(l, a, lo + k + 1) - CursorGap(l, a, w, c)))
            && page.nextCursor == (if lo + limit < hi then Some(lo + limit) else None)
            && CursorOk(l, a, w, page.nextCursor)
  {
    hide Opening, Closing, RawAudit, Base, History, Stream, Sound, BalanceRead, AccountOk, CursorGap;
    SoundAccount(l, a);
    OpensLater(l, a, w, c);
    var lo, hi := Opening(l, a, w.from, Some(c)), Closing(l, a, w);
    RawAuditIs(l, a, w, Some(c), limit + 1);
    if lo < hi {
      AnyCursorRows(l, a, w, c, limit + 1);
      NumberedFrom(l, a);
    }
  }

  /** Every running balance of such a page is right exactly when the page is empty or the account's balance at the
      cursor is its balance at the page's opening. */
  lemma {:induction false} AnyCursorExact(l: Ledger, a: AccountId, w: Window, c: nat, limit: nat)
    requires Sound(l, a) && limit >= 1
    ensures var lo, items := Opening(l, a, w.from, Some(c)), Page(l, a, w, Some(c), limit).items;
            && lo <= |Stream(l, a)| && (items != [] ==> c <= lo && lo + |items| <= |Stream(l, a)|)
            && ((forall k :: 0 <= k < |items| ==> items[k].running == History(l, a, lo + k + 1)) <==>
                items == [] || History(l, a, c) == History(l, a, lo))
  {
    hide Opening, Closing, Page, Sound, Stream, History;
    SoundAccount(l, a);
    RawAuditIs(l, a, w, Some(c), limit);
    AnyCursorPage(l, a, w, c, limit);
    var items := Page(l, a, w, Some(c), limit).items;
    if items != [] {
      assert items[0].running == History(l, a, Opening(l, a, w.from, Some(c)) + 1) - CursorGap(l, a, w, c);
    }
  }

  lemma {:induction false} NumberedFrom(l: Ledger, a: AccountId)
    requires Sound(l, a)
    ensures forall i :: 0 <= i < |Stream(l, a)| ==> Stream(l, a)[i].seqNo == i + 1
  {
    hide RowProjects, TimesOk, Balance, Stream;
    SoundAccount(l, a);
  }

  /** Following the cursors from one page to the next. */
  ghost function Walk(l: Ledger, a: AccountId, w: Window, afterSeq: Option<nat>, limit: nat): seq<Item>
    requires Sound(l, a) && CursorOk(l, a, w, afterSeq) && limit >= 1
    decreases Closing(l, a, w) - Opening(l, a, w.from, afterSeq)
  {
    PageIs(l, a, w, afterSeq, limit);
    var page := Page(l, a, w, afterSeq, limit);
    match page.nextCursor
    case None => page.items
    case Some(c) =>
      CursorAdvances(l, a, w, afterSeq, limit);
      page.items + Walk(l, a, w, Some(c), limit)
  }

  lemma {:induction false} CursorAdvances(l: Ledger, a: AccountId, w: Window, afterSeq: Option<nat>, limit: nat)
    requires Sound(l, a) && CursorOk(l, a, w, afterSeq) && limit >= 1
    requires Page(l, a, w, afterSeq, limit).nextCursor.Some?
    ensures var c := Page(l, a, w, afterSeq, limit).nextCursor.value;
            && CursorOk(l, a, w, Some(c)) && Opening(l, a, w.from, Some(c)) == c
            && c == Opening(l, a, w.from, afterSeq) + limit
  {
    hide Opening, Closing, Page, Sound, Stream;
    SoundAccount(l, a);
    PageIs(l, a, w, afterSeq, limit);
    OpeningNotEarlier(l, a, w, afterSeq);
    var c := Page(l, a, w, afterSeq, limit).nextCursor.value;
    OpeningAtCursor(l, a, w, c);
  }

  lemma {:induction false} OpeningNotEarlier(l: Ledger, a: AccountId, w: Window, afterSeq: Option<nat>)
    requires Sound(l, a) && CursorOk(l, a, w, afterSeq)
    ensures Opening(l, a, w.from, None) <= Opening(l, a, w.from, afterSeq)
  {
    hide Opening, Closing, Sound;
    if afterSeq.Some? { OpeningAtCursor(l, a, w, afterSeq.value); }
  }

  /** Paging refines the unpaged statement: every row of the window once, in order, each with the balance of the
      whole history at that row, whatever the page size and whichever filters are set. */
  lemma {:induction false} WalkIsStatement(l: Ledger, a: AccountId, w: Window, afterSeq: Option<nat>, limit: nat)
    requires Sound(l, a) && CursorOk(l, a, w, afterSeq) && limit >= 1
    ensures Closing(l, a, w) <= |Stream(l, a)|
    ensures Walk(l, a, w, afterSeq, limit) == Statement(l, a, Opening(l, a, w.from, afterSeq), Closing(l, a, w))
    decreases Closing(l, a, w) - Opening(l, a, w.from, afterSeq)
  {
    hide Opening, Closing, Page, Sound, Stream, CursorOk, History;
    SoundAccount(l, a);
    PageIs(l, a, w, afterSeq, limit);
    var page := Page(l, a, w, afterSeq, limit);
    if page.nextCursor.Some? {
      CursorAdvances(l, a, w, afterSeq, limit);
      WalkIsStatement(l, a, w, page.nextCursor, limit);
    }
  }

  /** The statement's rows are exactly the entries the filters admit. */
  lemma {:induction false} StatementIsWindow(l: Ledger, a: AccountId, w: Window, e: Entry)
    requires Sound(l, a) && Closing(l, a, w) <= |Stream(l, a)|
    ensures (exists k :: 0 <= k < |Statement(l, a, Opening(l, a, w.from, None), Closing(l, a, w))| &&
               Statement(l, a, Opening(l, a, w.from, None), Closing(l, a, w))[k].entry == e) <==>
            e in l.entries && e.accountId == a && Reached(l.txs, w)(e) && !Passed(l.txs, w.from, None)(e)
  {
    hide Where, History, Sound;
    var st, p, b := Stream(l, a), Reached(l.txs, w), Passed(l.txs, w.from, None);
    SoundAccount(l, a);
    FiltersClosed(l, a, w, None);
    Segment(st, p, b);
    WhereMembers(st, Shown(p, b));
    WhereMembers(l.entries, OfAccount(a));
    var lo, hi := Opening(l, a, w.from, None), Closing(l, a, w);
    var items := Statement(l, a, lo, hi);
    if e in Slice(st, lo, hi) {
      var k :| 0 <= k < |Slice(st, lo, hi)| && Slice(st, lo, hi)[k] == e;
      assert items[k].entry == e;
    }
  }

  // ----- the reported balance -----

  /** Everything posted by an instant, as a count of leading entries. */
  lemma {:induction false} ReportedIsHistory(l: Ledger, a: AccountId, w: Window, afterSeq: Option<nat>, limit: nat)
    requires Sound(l, a)
    ensures var until := Window(if w.to.Some? then w.to else w.asOf, None, None);
            && Closing(l, a, until) <= |Stream(l, a)|
            && Page(l, a, w, afterSeq, limit).balance == History(l, a, Closing(l, a, until))
  {
    hide Where, Total, RowProjects, Balance, TimesOk, RawAudit, Base, BalanceRead;
    var at := if w.to.Some? then w.to else w.asOf;
    var until := Window(at, None, None);
    SnapshotReadIsReplay(l, a, at);
    WhereSame(Stream(l, a), PostedBy(l.txs, at), Reached(l.txs, until));
    FiltersClosed(l, a, until, None);
    DownClosedPrefix(Stream(l, a), Reached(l.txs, until));
  }

  /** as_of bounds the rows but, next to a later `to`, not the reported balance. */
  predicate BoundsAgree(w: Window) {
    w.asOf.Some? && w.to.Some? ==> w.to.value <= w.asOf.value
  }

  /** The windows that hold rows and stop them short of the instant the balance is reported at. */
  predicate CanDisagree(w: Window) {
    !BoundsAgree(w) && (w.from.Some? ==> w.from.value <= w.asOf.value)
  }

  lemma {:induction false} AgreeingBounds(l: Ledger, a: AccountId, w: Window)
    requires BoundsAgree(w)
    ensures Closing(l, a, Window(if w.to.Some? then w.to else w.asOf, None, None)) == Closing(l, a, w)
  {
    WhereSame(Stream(l, a), Reached(l.txs, Window(if w.to.Some? then w.to else w.asOf, None, None)), Reached(l.txs, w));
  }

  /** A window that opens after as_of shows nothing. */
  lemma {:induction false} ClosedWindowEmpty(l: Ledger, a: AccountId, w: Window, afterSeq: Option<nat>, limit: nat)
    requires Sound(l, a) && CursorOk(l, a, w, afterSeq) && limit >= 1
    requires w.asOf.Some? && w.from.Some? && w.asOf.value < w.from.value
    ensures Page(l, a, w, afterSeq, limit).items == []
  {
    hide Where, Page, Sound, History;
    SoundAccount(l, a);
    PageIs(l, a, w, afterSeq, limit);
    FiltersClosed(l, a, w, None);
    OpeningNotEarlier(l, a, w, afterSeq);
    var st, p, q := Stream(l, a), Reached(l.txs, w), Passed(l.txs, w.from, None);
    var n := |Where(st, p)|;
    if n > 0 {
      DownClosedPrefix(st, p);
      DownClosedCut(st, p, n - 1);
      DownClosedCut(st, q, n - 1);
    }
  }

  /** On the last page the last running balance is the reported balance, unless as_of lies before `to` inside the
      window. */
  lemma {:induction false} LastPageBalances(l: Ledger, a: AccountId, w: Window, afterSeq: Option<nat>, limit: nat)
    requires Sound(l, a) && CursorOk(l, a, w, afterSeq) && limit >= 1 && !CanDisagree(w)
    requires var page := Page(l, a, w, afterSeq, limit);
             page.nextCursor == None && page.items != []
    ensures var page := Page(l, a, w, afterSeq, limit);
            page.items[|page.items| - 1].running == page.balance
  {
    hide Opening, Closing, Page, Sound, Stream, CursorOk, History;
    if BoundsAgree(w) {
      PageIs(l, a, w, afterSeq, limit);
      ReportedIsHistory(l, a, w, afterSeq, limit);
      AgreeingBounds(l, a, w);
    } else {
      ClosedWindowEmpty(l, a, w, afterSeq, limit);
    }
  }

  /** In general the two differ by exactly what was posted after as_of and up to `to`. */
  lemma {:induction false} LastPageGap(l: Ledger, a: AccountId, w: Window, afterSeq: Option<nat>, limit: nat)
    requires Sound(l, a) && CursorOk(l, a, w, afterSeq) && limit >= 1 && !BoundsAgree(w)
    requires var page := Page(l, a, w, afterSeq, limit);
             page.nextCursor == None && page.items != []
    ensures var until := Closing(l, a, Window(w.to, None, None));
            Closing(l, a, w) <= until <= |Stream(l, a)|
    ensures var page, until := Page(l, a, w, afterSeq, limit), Closing(l, a, Window(w.to, None, None));
            page.balance - page.items[|page.items| - 1].running ==
              Total(Stream(l, a)[Closing(l, a, w)..until], Delta(l.accounts[a].normalSide))
  {
    hide Opening, Closing, Page, Sound, Stream, CursorOk, Delta;
    SoundAccount(l, a);
    PageIs(l, a, w, afterSeq, limit);
    ReportedIsHistory(l, a, w, afterSeq, limit);
    EarlierCloses(l, a, w);
    var st, n, m := Stream(l, a), Closing(l, a, w), Closing(l, a, Window(w.to, None, None));
    assert st[..m] == st[..n] + st[n..m];
    TotalConcat(st[..n], st[n..m], Delta(l.accounts[a].normalSide));
  }

  lemma {:induction false} EarlierCloses(l: Ledger, a: AccountId, w: Window)
    requires Sound(l, a) && !BoundsAgree(w)
    ensures Closing(l, a, w) <= Closing(l, a, Window(w.to, None, None))
  {
    hide Where, Sound;
    var st, p, q := Stream(l, a), Reached(l.txs, w), Reached(l.txs, Window(w.to, None, None));
    FiltersClosed(l, a, w, None);
    FiltersClosed(l, a, Window(w.to, None, None), None);
    DownClosedPrefix(st, p);
    var n := |Where(st, p)|;
    if n > 0 {
      DownClosedCut(st, p, n - 1);
      DownClosedCut(st, q, n - 1);
    }
  }
}
