/** Reading page after page while the ledger grows: successive ledgers of one run, one per page. */
module Appends {
  import opened Prelude
  import opened Seqs
  import opened DoubleEntry
  import opened Ledger
  import opened Invariants
  import opened Preservation
  import opened Growth
  import opened Audit

  // ----- successive ledgers -----

  /** Sound ledgers, each an extension of the one before. */
  ghost predicate Successive(states: seq<Ledger>) {
    && (forall i :: 0 <= i < |states| ==> Inv(states[i]))
    && (forall i, j :: 0 <= i <= j < |states| ==> Grows(states[i], states[j]))
  }

  /** The ledger that read number i meets; the last one stays. */
  function Nth(states: seq<Ledger>, i: nat): Ledger
    requires states != []
  {
    if i < |states| then states[i] else states[|states| - 1]
  }

  lemma {:induction false} NthGrows(states: seq<Ledger>, i: nat, j: nat)
    requires states != [] && Successive(states) && i <= j
    ensures Inv(Nth(states, i)) && Grows(Nth(states, i), Nth(states, j))
  {
    hide Inv, Grows;
    var m, n := if i < |states| then i else |states| - 1, if j < |states| then j else |states| - 1;
    assert Grows(states[m], states[n]);
  }

  /** The ledgers met at given moments of one run. */
  function Moments(ops: seq<Op>, cuts: seq<nat>): (states: seq<Ledger>)
    requires forall i :: 0 <= i < |cuts| ==> cuts[i] <= |ops|
    ensures |states| == |cuts| && forall i :: 0 <= i < |cuts| ==> states[i] == Run(EMPTY, ops[..cuts[i]])
  {
    seq(|cuts|, i requires 0 <= i < |cuts| => Run(EMPTY, ops[..cuts[i]]))
  }

  lemma {:induction false} LaterMoment(ops: seq<Op>, m: nat, n: nat)
    requires m <= n <= |ops| && TimelyRun(EMPTY, ops)
    ensures Inv(Run(EMPTY, ops[..m])) && Grows(Run(EMPTY, ops[..m]), Run(EMPTY, ops[..n]))
  {
    hide Inv, Grows, Run, TimelyRun;
    assert ops == ops[..n] + ops[n..] && ops[..n] == ops[..m] + ops[m..n];
    RunTogether(EMPTY, ops[..n], ops[n..]);
    RunTogether(EMPTY, ops[..m], ops[m..n]);
    EmptyLedgerOk();
    RunKeeps(EMPTY, ops[..m]);
    RunGrows(Run(EMPTY, ops[..m]), ops[m..n]);
  }

  /** Whatever moments of a run the reads fall on, in order, they meet successive ledgers. */
  lemma {:induction false} MomentsAreSuccessive(ops: seq<Op>, cuts: seq<nat>)
    requires TimelyRun(EMPTY, ops)
    requires forall i, j :: 0 <= i <= j < |cuts| ==> cuts[i] <= cuts[j] <= |ops|
    ensures Successive(Moments(ops, cuts))
  {
    hide Inv, Grows, TimelyRun, Run;
    var states := Moments(ops, cuts);
    forall i, j | 0 <= i <= j < |states|
      ensures Inv(states[i]) && Grows(states[i], states[j])
    {
      LaterMoment(ops, cuts[i], cuts[j]);
    }
  }

  /** What one growth step means for one account's trail. */
  lemma {:induction false} TrailGrows(l: Ledger, l': Ledger, a: AccountId)
    requires Inv(l) && Inv(l') && Grows(l, l') && a in l.accounts
    ensures Sound(l, a) && Sound(l', a) && AccountGrows(l, l', a) && SameTimes(l, l', a)
  {
    hide AccountsOk, SnapshotsOk, TxsOk, ReversalsOk, AccountGrows, TxGrows, Grows;
    GrowthKeepsAccount(l, l', a);
    WhereMembers(l.entries, OfAccount(a));
    forall e | e in Stream(l, a)
      ensures PostedAt(l'.txs, e) == PostedAt(l.txs, e)
    {
      TimeCarries(l, l', e);
    }
  }

  lemma {:induction false} GrowthKeepsAccount(l: Ledger, l': Ledger, a: AccountId)
    requires Grows(l, l') && a in l.accounts
    ensures AccountGrows(l, l', a) && a in l'.accounts
  {
    hide Stream, EventStream;
  }

  // ----- one growth step -----

  lemma {:induction false} FilterGrows(l: Ledger, l': Ledger, a: AccountId, w: Window, afterSeq: Option<nat>)
    requires SameTimes(l, l', a) && Stream(l, a) <= Stream(l', a)
    ensures Closing(l, a, w) <= Closing(l', a, w)
    ensures Opening(l, a, w.from, afterSeq) <= Opening(l', a, w.from, afterSeq)
  {
    hide Where;
    var st, st' := Stream(l, a), Stream(l', a);
    WhereSame(st, Reached(l.txs, w), Reached(l'.txs, w));
    WhereSame(st, Passed(l.txs, w.from, afterSeq), Passed(l'.txs, w.from, afterSeq));
    WherePrefix(st, st', Reached(l'.txs, w));
    WherePrefix(st, st', Passed(l'.txs, w.from, afterSeq));
  }

  /** While a row lies at or past the opening, appends do not move the opening. */
  lemma {:induction false} OpeningStays(l: Ledger, l': Ledger, a: AccountId, w: Window, afterSeq: Option<nat>)
    requires Sound(l, a) && Sound(l', a) && SameTimes(l, l', a) && Stream(l, a) <= Stream(l', a)
    requires Opening(l, a, w.from, afterSeq) < |Stream(l, a)|
    ensures Opening(l', a, w.from, afterSeq) == Opening(l, a, w.from, afterSeq)
  {
    hide Where, Sound;
    FilterGrows(l, l', a, w, afterSeq);
    FiltersClosed(l, a, w, afterSeq);
    FiltersClosed(l', a, w, afterSeq);
    var n, st, st' := Opening(l, a, w.from, afterSeq), Stream(l, a), Stream(l', a);
    DownClosedCut(st, Passed(l.txs, w.from, afterSeq), n);
    DownClosedCut(st', Passed(l'.txs, w.from, afterSeq), n);
    assert st[n] in st && st'[n] == st[n];
  }

  lemma {:induction false} StatementStays(l: Ledger, l': Ledger, a: AccountId, lo: nat, hi: nat)
    requires a in l.accounts && AccountGrows(l, l', a) && hi <= |Stream(l, a)|
    ensures Statement(l', a, lo, hi) == Statement(l, a, lo, hi)
  {
    hide EventStream;
    forall n | 0 <= n <= hi
      ensures History(l', a, n) == History(l, a, n)
    {
      assert Stream(l', a)[..n] == Stream(l, a)[..n];
    }
  }

  /** A page that has a next page is settled: entries appended later never change it. */
  lemma {:induction false} PageIsStable(l: Ledger, l': Ledger, a: AccountId, w: Window, afterSeq: Option<nat>,
        limit: nat)
    requires Sound(l, a) && Sound(l', a) && AccountGrows(l, l', a) && SameTimes(l, l', a)
    requires CursorOk(l, a, w, afterSeq) && limit >= 1 && Page(l, a, w, afterSeq, limit).nextCursor.Some?
    ensures CursorOk(l', a, w, afterSeq)
    ensures Page(l', a, w, afterSeq, limit).items == Page(l, a, w, afterSeq, limit).items
    ensures Page(l', a, w, afterSeq, limit).nextCursor == Page(l, a, w, afterSeq, limit).nextCursor
  {
    hide Opening, Closing, Page, Sound, History;
    SoundAccount(l, a);
    PageIs(l, a, w, afterSeq, limit);
    FilterGrows(l, l', a, w, afterSeq);
    OpeningStays(l, l', a, w, afterSeq);
    OpeningNotEarlier(l, a, w, afterSeq);
    OpeningStays(l, l', a, w, None);
    PageIs(l', a, w, afterSeq, limit);
    StatementStays(l, l', a, Opening(l, a, w.from, afterSeq), PageEnd(l, a, w, afterSeq, limit));
  }

  /** Appends between two pages never skip or repeat a row: the page already read, followed by the rest as it is
      read later, is the whole later listing. */
  lemma {:induction false} AppendsBetweenPages(l: Ledger, l': Ledger, a: AccountId, w: Window,
        afterSeq: Option<nat>, limit: nat)
    requires Inv(l) && Inv(l') && Grows(l, l') && a in l.accounts
    ensures Sound(l, a) && Sound(l', a)
    ensures CursorOk(l, a, w, afterSeq) && limit >= 1 && Page(l, a, w, afterSeq, limit).nextCursor.Some? ==>
      var page := Page(l, a, w, afterSeq, limit);
      && CursorOk(l', a, w, afterSeq) && CursorOk(l', a, w, page.nextCursor)
      && page.items + Walk(l', a, w, page.nextCursor, limit) == Walk(l', a, w, afterSeq, limit)
  {
    hide Opening, Closing, Page, Sound, CursorOk, AccountGrows, SameTimes, Inv, Grows;
    TrailGrows(l, l', a);
    SoundAccount(l, a);
    SoundAccount(l', a);
    if CursorOk(l, a, w, afterSeq) && limit >= 1 && Page(l, a, w, afterSeq, limit).nextCursor.Some? {
      PageIsStable(l, l', a, w, afterSeq, limit);
      CursorAdvances(l', a, w, afterSeq, limit);
    }
  }

  // ----- a walk over successive ledgers -----

  /** A listing under way: read number i is due, with a cursor that is good there. */
  ghost predicate Reading(states: seq<Ledger>, i: nat, a: AccountId, w: Window, afterSeq: Option<nat>) {
    && states != [] && Successive(states)
    && Sound(Nth(states, i), a) && CursorOk(Nth(states, i), a, w, afterSeq)
  }

  function Ahead(states: seq<Ledger>, i: nat): nat { if i + 1 < |states| then |states| - i else 0 }

  function Unread(l: Ledger, a: AccountId, w: Window, afterSeq: Option<nat>): nat {
    if Opening(l, a, w.from, afterSeq) <= Closing(l, a, w) then Closing(l, a, w) - Opening(l, a, w.from, afterSeq)
      else 0
  }

  function NthPage(states: seq<Ledger>, i: nat, a: AccountId, w: Window, afterSeq: Option<nat>, limit: nat): View
    requires states != [] && a in Nth(states, i).accounts
  {
    Page(Nth(states, i), a, w, afterSeq, limit)
  }

  /** Following the cursors while the ledger grows: read number i meets the i-th ledger. Returns the rows, and
      which ledger the last page came from. */
  ghost function LiveWalk(states: seq<Ledger>, i: nat, a: AccountId, w: Window, afterSeq: Option<nat>, limit: nat)
      : (seq<Item>, nat)
    requires Reading(states, i, a, w, afterSeq) && limit >= 1
    decreases Ahead(states, i), Unread(Nth(states, i), a, w, afterSeq)
  {
    NextRead(states, i, a, w, afterSeq, limit);
    var page := NthPage(states, i, a, w, afterSeq, limit);
    if page.nextCursor == None then (page.items, i)
    else
      var (rest, last) := LiveWalk(states, i + 1, a, w, page.nextCursor, limit);
      (page.items + rest, last)
  }

  /** A cursor handed out by one read is good for the next, and leaves less to read once the ledger stands still. */
  lemma {:induction false} NextRead(states: seq<Ledger>, i: nat, a: AccountId, w: Window, afterSeq: Option<nat>,
        limit: nat)
    requires Reading(states, i, a, w, afterSeq) && limit >= 1
    ensures a in Nth(states, i).accounts
    ensures var next := NthPage(states, i, a, w, afterSeq, limit).nextCursor;
            next.Some? ==>
              && Reading(states, i + 1, a, w, next)
              && (Ahead(states, i + 1) < Ahead(states, i)
                  || (Ahead(states, i + 1) == Ahead(states, i)
                      && Unread(Nth(states, i + 1), a, w, next) < Unread(Nth(states, i), a, w, afterSeq)))
  {
    hide Opening, Closing, Page, Sound, CursorOk, Inv, Grows, Successive, Unread;
    var l, l' := Nth(states, i), Nth(states, i + 1);
    SoundAccount(l, a);
    if Page(l, a, w, afterSeq, limit).nextCursor.Some? {
      NthGrows(states, i, i + 1);
      NthGrows(states, i + 1, i + 1);
      AppendsBetweenPages(l, l', a, w, afterSeq, limit);
      LessUnread(l, a, w, afterSeq, limit);
    }
  }

  lemma {:induction false} LessUnread(l: Ledger, a: AccountId, w: Window, afterSeq: Option<nat>, limit: nat)
    requires Sound(l, a) && CursorOk(l, a, w, afterSeq) && limit >= 1
    requires Page(l, a, w, afterSeq, limit).nextCursor.Some?
    ensures Unread(l, a, w, Page(l, a, w, afterSeq, limit).nextCursor) < Unread(l, a, w, afterSeq)
  {
    hide Opening, Closing, Page, Sound;
    CursorAdvances(l, a, w, afterSeq, limit);
  }

  /** Paging while others post yields exactly the listing of the ledger its last page was read from: no row skipped,
      none repeated, every running balance the full-history one. */
  lemma {:induction false} LiveWalkIsListing(states: seq<Ledger>, i: nat, a: AccountId, w: Window,
        afterSeq: Option<nat>, limit: nat)
    requires Reading(states, i, a, w, afterSeq) && limit >= 1
    ensures var (items, last) := LiveWalk(states, i, a, w, afterSeq, limit);
            && last >= i && Reading(states, last, a, w, afterSeq)
            && items == Walk(Nth(states, last), a, w, afterSeq, limit)
    decreases Ahead(states, i), Unread(Nth(states, i), a, w, afterSeq)
  {
    hide Opening, Closing, Page, Sound, CursorOk, Inv, Grows, Successive, Nth, Ahead, Unread;
    NextRead(states, i, a, w, afterSeq, limit);
    var l, next := Nth(states, i), NthPage(states, i, a, w, afterSeq, limit).nextCursor;
    if next.Some? {
      LiveWalkIsListing(states, i + 1, a, w, next, limit);
      var last := LiveWalk(states, i + 1, a, w, next, limit).1;
      NthGrows(states, i, last);
      NthGrows(states, last, last);
      AppendsBetweenPages(l, Nth(states, last), a, w, afterSeq, limit);
    }
  }

  lemma {:induction false} WalkGrows(l: Ledger, l': Ledger, a: AccountId, w: Window, afterSeq: Option<nat>, limit: nat)
    requires Inv(l) && Inv(l') && Grows(l, l') && Sound(l, a) && Sound(l', a) && limit >= 1
    requires CursorOk(l, a, w, afterSeq) && CursorOk(l', a, w, afterSeq)
    ensures Walk(l, a, w, afterSeq, limit) <= Walk(l', a, w, afterSeq, limit)
  {
    hide Opening, Closing, Page, CursorOk, Inv, Grows, AccountsOk, SnapshotsOk, SameTimes, History;
    TrailGrows(l, l', a);
    WalkIsStatement(l, a, w, afterSeq, limit);
    WalkIsStatement(l', a, w, afterSeq, limit);
    FilterGrows(l, l', a, w, afterSeq);
    if Opening(l, a, w.from, afterSeq) < Closing(l, a, w) {
      OpeningStays(l, l', a, w, afterSeq);
      StatementStays(l, l', a, Opening(l, a, w.from, afterSeq), Closing(l, a, w));
    }
  }

  /** And what the first page's reader would have seen in one go comes first, unchanged. */
  lemma {:induction false} LiveWalkExtends(states: seq<Ledger>, i: nat, a: AccountId, w: Window,
        afterSeq: Option<nat>, limit: nat)
    requires Reading(states, i, a, w, afterSeq) && limit >= 1
    ensures Walk(Nth(states, i), a, w, afterSeq, limit) <= LiveWalk(states, i, a, w, afterSeq, limit).0
  {
    hide Page, Sound, CursorOk, Inv, Grows, Successive, Nth;
    LiveWalkIsListing(states, i, a, w, afterSeq, limit);
    var last := LiveWalk(states, i, a, w, afterSeq, limit).1;
    NthGrows(states, i, last);
    NthGrows(states, last, last);
    WalkGrows(Nth(states, i), Nth(states, last), a, w, afterSeq, limit);
  }
}
