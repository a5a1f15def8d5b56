/** Keyset pagination: the transaction feed, the account list and an account's own transactions. */
module Keyset {
  import opened Prelude
  import opened Seqs
  import opened DoubleEntry
  import opened Ledger
  import opened Lifecycle
  import opened Invariants

  /** What a cursor carries: a timestamp and the id that breaks ties. */
  datatype Key = Key(at: Time, id: nat)

  /** ORDER BY at DESC, id DESC. */
  function NewestFirst(): (Key, Key) -> bool {
    (x: Key, y: Key) => x.at > y.at || (x.at == y.at && x.id >= y.id)
  }

  /** ORDER BY at ASC, id ASC. */
  function OldestFirst(): (Key, Key) -> bool {
    (x: Key, y: Key) => x.at < y.at || (x.at == y.at && x.id <= y.id)
  }

  ghost predicate LinearOrder(ahead: (Key, Key) -> bool) {
    && (forall x, y :: ahead(x, y) || ahead(y, x))
    && (forall x, y, z :: ahead(x, y) && ahead(y, z) ==> ahead(x, z))
    && (forall x, y :: ahead(x, y) && ahead(y, x) ==> x == y)
  }

  lemma {:induction false} BothOrdersLinear()
    ensures LinearOrder(NewestFirst()) && LinearOrder(OldestFirst())
  {
  }

  /** A query over one table: a filter, a sort key, a direction. */
  datatype Query<!T> = Query(filter: T -> bool, key: T -> Key, ahead: (Key, Key) -> bool)

  function RowOrder<T>(q: Query<T>): (T, T) -> bool { (x: T, y: T) => q.ahead(q.key(x), q.key(y)) }

  /** Strictly past the cursor in the query's order. */
  function Past<T>(q: Query<T>, cursor: Option<Key>): T -> bool {
    (x: T) => cursor.Some? ==> !q.ahead(q.key(x), cursor.value)
  }

  datatype Page<T> = Page(items: seq<T>, nextCursor: Option<Key>)

  function Limit<T>(xs: seq<T>, n: nat): seq<T> { if n <= |xs| then xs[..n] else xs }

  /** WHERE filter AND past the cursor ORDER BY key LIMIT limit + 1; the extra row only tells that more follow. */
  function Fetch<T>(table: seq<T>, q: Query<T>, cursor: Option<Key>, limit: nat): Page<T> {
    var rows := Limit(SortBy(Where(table, Both(q.filter, Past(q, cursor))), RowOrder(q)), limit + 1);
    var page := Limit(rows, limit);
    Page(page, if |rows| > limit && page != [] then Some(q.key(page[|page| - 1])) else None)
  }

  // ----- sorting commutes with filtering -----

  lemma {:induction false} InsertWhere<T(!new)>(xs: seq<T>, x: T, le: (T, T) -> bool, p: T -> bool)
    requires TotalOrder(le) && Sorted(xs, le)
    ensures Where(Insert(xs, x, le), p) == if p(x) then Insert(Where(xs, p), x, le) else Where(xs, p)
  {
    if xs == [] {
      assert [x][..0] == [];
    } else {
      var front, last := xs[..|xs| - 1], xs[|xs| - 1];
      if le(last, x) {
        WhereSnoc(xs, x, p);
        KeptBelow(xs, x, le, p);
      } else {
        InsertWhere(front, x, le, p);
        WhereSnoc(Insert(front, x, le), last, p);
        assert xs == front + [last];
        WhereSnoc(front, last, p);
        if p(x) && !p(last) {
          assert Where(xs, p) == Where(front, p);
        }
      }
    }
  }

  /** Below x before filtering, below x after. */
  lemma {:induction false} KeptBelow<T(!new)>(xs: seq<T>, x: T, le: (T, T) -> bool, p: T -> bool)
    requires TotalOrder(le) && Sorted(xs, le) && xs != [] && le(xs[|xs| - 1], x)
    ensures Insert(Where(xs, p), x, le) == Where(xs, p) + [x]
  {
    var kept := Where(xs, p);
    if kept != [] {
      WhereMembers(xs, p);
      assert kept[|kept| - 1] in kept;
      var i :| 0 <= i < |xs| && xs[i] == kept[|kept| - 1];
      assert i < |xs| - 1 ==> le(xs[i], xs[|xs| - 1]);
    }
  }

  lemma {:induction false} SortWhere<T(!new)>(xs: seq<T>, le: (T, T) -> bool, p: T -> bool)
    requires TotalOrder(le)
    ensures SortBy(Where(xs, p), le) == Where(SortBy(xs, le), p)
  {
    hide Sorted, TotalOrder;
    if xs != [] {
      var front, last := xs[..|xs| - 1], xs[|xs| - 1];
      SortWhere(front, le, p);
      SortBySorts(front, le);
      InsertWhere(SortBy(front, le), last, le, p);
      if p(last) {
        assert (Where(front, p) + [last])[..|Where(front, p)|] == Where(front, p);
      }
    }
  }

  // ----- one listing -----

  /** The whole listing: what the pages must add up to. */
  function Listing<T>(table: seq<T>, q: Query<T>): seq<T> { SortBy(Where(table, q.filter), RowOrder(q)) }

  ghost predicate DistinctKeys<T>(xs: seq<T>, key: T -> Key) {
    forall i, j :: 0 <= i < j < |xs| ==> key(xs[i]) != key(xs[j])
  }

  lemma {:induction false} RowOrderTotal<T(!new)>(q: Query<T>)
    requires LinearOrder(q.ahead)
    ensures TotalOrder(RowOrder(q))
  {
  }

  lemma {:induction false} DistinctMembers<T>(xs: seq<T>, ys: seq<T>, key: T -> Key)
    requires DistinctKeys(xs, key) && multiset(ys) == multiset(xs)
    ensures DistinctKeys(ys, key)
  {
    forall i, j | 0 <= i < j < |ys|
      ensures key(ys[i]) != key(ys[j])
    {
      TwoPlaces(ys, i, j);
      assert multiset(xs)[ys[i]] >= 1 && multiset(xs)[ys[j]] >= 1;
      assert ys[i] in xs && ys[j] in xs;
      if ys[i] == ys[j] {
        OncePlaced(xs, key, ys[i]);
      }
    }
  }

  lemma {:induction false} TwoPlaces<T>(ys: seq<T>, i: nat, j: nat)
    requires i < j < |ys|
    ensures multiset(ys)[ys[i]] >= 1 && multiset(ys)[ys[j]] >= 1
    ensures ys[i] == ys[j] ==> multiset(ys)[ys[i]] >= 2
  {
    assert ys == ys[..j] + ys[j..];
    assert ys[..j][i] in multiset(ys[..j]);
    assert ys[j..][0] in multiset(ys[j..]);
  }

  lemma {:induction false} OncePlaced<T>(xs: seq<T>, key: T -> Key, x: T)
    requires DistinctKeys(xs, key)
    ensures multiset(xs)[x] <= 1
  {
    if xs != [] {
      var front, last := xs[..|xs| - 1], xs[|xs| - 1];
      OncePlaced(front, key, x);
      assert xs == front + [last];
      assert last == x ==> x !in front;
    }
  }

  lemma {:induction false} WhereKeepsDistinct<T(!new)>(xs: seq<T>, p: T -> bool, key: T -> Key)
    requires DistinctKeys(xs, key)
    ensures DistinctKeys(Where(xs, p), key)
  {
    if xs != [] {
      var front, last := xs[..|xs| - 1], xs[|xs| - 1];
      WhereKeepsDistinct(front, p, key);
      WhereMembers(front, p);
      forall i | 0 <= i < |Where(front, p)|
        ensures key(Where(front, p)[i]) != key(last)
      {
        assert Where(front, p)[i] in Where(front, p);
      }
    }
  }

  lemma {:induction false} ListingShape<T(!new)>(table: seq<T>, q: Query<T>)
    requires LinearOrder(q.ahead) && DistinctKeys(table, q.key)
    ensures Sorted(Listing(table, q), RowOrder(q)) && DistinctKeys(Listing(table, q), q.key)
    ensures multiset(Listing(table, q)) == multiset(Where(table, q.filter))
  {
    hide LinearOrder, DistinctKeys, Sorted;
    RowOrderTotal(q);
    SortBySorts(Where(table, q.filter), RowOrder(q));
    WhereKeepsDistinct(table, q.filter, q.key);
    DistinctMembers(Where(table, q.filter), Listing(table, q), q.key);
  }

  /** In a strictly ordered listing, what lies past the k-th key is exactly the rest. */
  lemma {:induction false} PastIsRest<T(!new)>(xs: seq<T>, q: Query<T>, k: nat)
    requires LinearOrder(q.ahead) && Sorted(xs, RowOrder(q)) && DistinctKeys(xs, q.key) && k < |xs|
    ensures Where(xs, Past(q, Some(q.key(xs[k])))) == xs[k + 1..]
  {
    hide Where;
    var p := Past(q, Some(q.key(xs[k])));
    assert xs == xs[..k + 1] + xs[k + 1..];
    WhereConcat(xs[..k + 1], xs[k + 1..], p);
    forall x | x in xs[..k + 1]
      ensures !p(x)
    {
      var i :| 0 <= i < k + 1 && xs[..k + 1][i] == x;
      assert i < k ==> RowOrder(q)(xs[i], xs[k]);
    }
    WhereNone(xs[..k + 1], p);
    forall x | x in xs[k + 1..]
      ensures p(x)
    {
      var i :| 0 <= i < |xs| - k - 1 && xs[k + 1..][i] == x;
      assert xs[k + 1 + i] == x && RowOrder(q)(xs[k], x);
    }
    WhereAll(xs[k + 1..], p);
  }

  /** A cursor that stands for position n of the listing. */
  ghost predicate At<T>(table: seq<T>, q: Query<T>, cursor: Option<Key>, n: nat) {
    && n <= |Listing(table, q)|
    && (if n == 0 then cursor == None else cursor == Some(q.key(Listing(table, q)[n - 1])))
  }

  lemma {:induction false} RowsPast<T(!new)>(table: seq<T>, q: Query<T>, cursor: Option<Key>, n: nat)
    requires LinearOrder(q.ahead) && DistinctKeys(table, q.key) && At(table, q, cursor, n)
    ensures SortBy(Where(table, Both(q.filter, Past(q, cursor))), RowOrder(q)) == Listing(table, q)[n..]
  {
    hide LinearOrder, DistinctKeys, Sorted, SortBy, Where;
    WhereWhere(table, q.filter, Past(q, cursor));
    RowOrderTotal(q);
    SortWhere(Where(table, q.filter), RowOrder(q), Past(q, cursor));
    ListingShape(table, q);
    if n == 0 {
      WhereAll(Listing(table, q), Past(q, None));
    } else {
      PastIsRest(Listing(table, q), q, n - 1);
    }
  }

  /** A page is the next stretch of the listing; it has a cursor exactly when rows remain, and that cursor stands
      for where it stopped, also among equal timestamps. */
  lemma {:induction false} FetchIs<T(!new)>(table: seq<T>, q: Query<T>, cursor: Option<Key>, n: nat, limit: nat)
    requires LinearOrder(q.ahead) && DistinctKeys(table, q.key) && At(table, q, cursor, n) && limit >= 1
    ensures var all, page := Listing(table, q), Fetch(table, q, cursor, limit);
            var end := if n + limit < |all| then n + limit else |all|;
            && page.items == all[n..end]
            && (page.nextCursor.Some? <==> end < |all|)
            && (page.nextCursor.Some? ==> At(table, q, page.nextCursor, end))
  {
    hide LinearOrder, DistinctKeys, Listing;
    RowsPast(table, q, cursor, n);
  }

  ghost function Walk<T(!new)>(table: seq<T>, q: Query<T>, cursor: Option<Key>, n: nat, limit: nat): seq<T>
    requires LinearOrder(q.ahead) && DistinctKeys(table, q.key) && At(table, q, cursor, n) && limit >= 1
    decreases |Listing(table, q)| - n
  {
    FetchIs(table, q, cursor, n, limit);
    var page := Fetch(table, q, cursor, limit);
    if page.nextCursor == None then page.items
    else page.items + Walk(table, q, page.nextCursor, n + limit, limit)
  }

  lemma {:induction false} WalkIsRest<T(!new)>(table: seq<T>, q: Query<T>, cursor: Option<Key>, n: nat, limit: nat)
    requires LinearOrder(q.ahead) && DistinctKeys(table, q.key) && At(table, q, cursor, n) && limit >= 1
    ensures Walk(table, q, cursor, n, limit) == Listing(table, q)[n..]
    decreases |Listing(table, q)| - n
  {
    hide LinearOrder, DistinctKeys, Listing, Fetch;
    FetchIs(table, q, cursor, n, limit);
    var page, all := Fetch(table, q, cursor, limit), Listing(table, q);
    if page.nextCursor.Some? {
      WalkIsRest(table, q, page.nextCursor, n + limit, limit);
      assert all[n..n + limit] + all[n + limit..] == all[n..];
    }
  }

  /** Following the cursors from the start gives every row the filter admits exactly once, in the query's order. */
  lemma {:induction false} WalkIsListing<T(!new)>(table: seq<T>, q: Query<T>, limit: nat)
    requires LinearOrder(q.ahead) && DistinctKeys(table, q.key) && limit >= 1
    ensures At(table, q, None, 0)
    ensures Walk(table, q, None, 0, limit) == Listing(table, q)
    ensures Sorted(Walk(table, q, None, 0, limit), RowOrder(q))
    ensures multiset(Walk(table, q, None, 0, limit)) == multiset(Where(table, q.filter))
  {
    hide LinearOrder, DistinctKeys, Listing, Fetch, Sorted, Where;
    assert At(table, q, None, 0);
    WalkIsRest(table, q, None, 0, limit);
    ListingShape(table, q);
    assert Listing(table, q)[0..] == Listing(table, q);
  }

  // ----- the global transaction feed -----

  datatype FeedRow = FeedRow(id: TxId, row: TxRow)

  datatype FeedFilter = FeedFilter(kind: Option<TxType>, status: Option<TxStatus>)

  function FeedRows(l: Ledger, ids: seq<TxId>): (rows: seq<FeedRow>)
    requires forall t :: t in ids ==> t in l.txs
    ensures |rows| == |ids| && forall i :: 0 <= i < |ids| ==> rows[i] == FeedRow(ids[i], l.txs[ids[i]])
  {
    seq(|ids|, i requires 0 <= i < |ids| => FeedRow(ids[i], l.txs[ids[i]]))
  }

  function FeedQuery(f: FeedFilter): Query<FeedRow> {
    Query((r: FeedRow) =>
            && (f.kind.Some? ==> r.row.kind == f.kind.value)
            && (f.status.Some? ==> r.row.status == f.status.value),
          (r: FeedRow) => Key(r.row.postedAt, r.id),
          NewestFirst())
  }

  /** The feed's table holds every transaction exactly once: none is stored without entries. */
  lemma {:induction false} FeedIsComplete(l: Ledger)
    requires Inv(l)
    ensures forall t :: t in TxIds(l.entries) <==> t in l.txs
    ensures DistinctKeys(FeedRows(l, TxIds(l.entries)), (r: FeedRow) => Key(r.row.postedAt, r.id))
  {
    hide AccountsOk, ReversalsOk, SnapshotsOk, NumbersUnique, ReferencesUnique;
    StoredIds(l);
  }

  /** The global feed: following nextCursor yields every transaction the filters admit once, newest first with
      ties broken by id, for every page size. */
  lemma {:induction false} FeedWalk(l: Ledger, f: FeedFilter, limit: nat)
    requires Inv(l) && limit >= 1
    ensures forall t :: t in TxIds(l.entries) ==> t in l.txs
    ensures var table, q := FeedRows(l, TxIds(l.entries)), FeedQuery(f);
            && LinearOrder(q.ahead) && DistinctKeys(table, q.key) && At(table, q, None, 0)
            && Walk(table, q, None, 0, limit) == Listing(table, q)
            && (forall t :: t in l.txs ==>
                  (FeedRow(t, l.txs[t]) in Walk(table, q, None, 0, limit) <==> q.filter(FeedRow(t, l.txs[t]))))
            && (forall t :: t in l.txs ==>
                  (FeedRow(t, l.txs[t]) in Walk(table, q, None, 0, limit) <==>
                     && (f.kind == None || f.kind == Some(l.txs[t].kind))
                     && (f.status == None || f.status == Some(l.txs[t].status))))
            && (forall i, j :: 0 <= i < j < |Walk(table, q, None, 0, limit)| ==>
                  var x, y := Walk(table, q, None, 0, limit)[i], Walk(table, q, None, 0, limit)[j];
                  x.row.postedAt > y.row.postedAt || (x.row.postedAt == y.row.postedAt && x.id >= y.id))
  {
    hide Inv, LinearOrder, Listing, Walk, TxIds;
    FeedIsComplete(l);
    BothOrdersLinear();
    var table, q := FeedRows(l, TxIds(l.entries)), FeedQuery(f);
    assert DistinctKeys(table, q.key);
    WalkIsListing(table, q, limit);
    WhereMembers(table, q.filter);
    forall t | t in l.txs
      ensures FeedRow(t, l.txs[t]) in Walk(table, q, None, 0, limit) <==> q.filter(FeedRow(t, l.txs[t]))
    {
      var i :| 0 <= i < |TxIds(l.entries)| && TxIds(l.entries)[i] == t;
      assert table[i] == FeedRow(t, l.txs[t]);
      SameMembers(Walk(table, q, None, 0, limit), Where(table, q.filter), table[i]);
    }
  }

  lemma {:induction false} SameMembers<T>(xs: seq<T>, ys: seq<T>, x: T)
    requires multiset(xs) == multiset(ys)
    ensures x in xs <==> x in ys
  {
    assert x in multiset(xs) <==> x in multiset(ys);
  }

  // ----- one account's transactions -----

  function AccountQuery(): Query<Entry> {
    Query((e: Entry) => true, (e: Entry) => Key(0, e.seqNo), OldestFirst())
  }

  /** An account's own list: following the sequence cursors yields its stream, in order. */
  lemma {:induction false} AccountWalk(l: Ledger, a: AccountId, limit: nat)
    requires AccountsOk(l) && a in l.accounts && limit >= 1
    ensures var q := AccountQuery();
            && LinearOrder(q.ahead) && DistinctKeys(Stream(l, a), q.key) && At(Stream(l, a), q, None, 0)
            && Walk(Stream(l, a), q, None, 0, limit) == Stream(l, a)
  {
    hide Where, RowProjects, Balance, Walk, LinearOrder;
    assert AccountOk(l, a);
    var q, st := AccountQuery(), Stream(l, a);
    BothOrdersLinear();
    WalkIsListing(st, q, limit);
    WhereAll(st, q.filter);
    SortByIdentity(st, RowOrder(q));
  }

  // ----- the account list -----

  datatype ListedAccount = ListedAccount(id: AccountId, createdAt: Time, status: Status, kind: string)

  datatype AccountFilter = AccountFilter(status: Option<Status>, kind: Option<string>)

  function AccountsQuery(f: AccountFilter): Query<ListedAccount> {
    Query((r: ListedAccount) =>
            && (f.status.Some? ==> r.status == f.status.value)
            && (f.kind.Some? ==> r.kind == f.kind.value),
          (r: ListedAccount) => Key(r.createdAt, r.id),
          OldestFirst())
  }

  /** The account list: every admitted account once, oldest first, ties broken by id. */
  lemma {:induction false} AccountListWalk(table: seq<ListedAccount>, f: AccountFilter, limit: nat)
    requires (forall i, j :: 0 <= i < j < |table| ==> table[i].id != table[j].id) && limit >= 1
    ensures var q := AccountsQuery(f);
            && LinearOrder(q.ahead) && DistinctKeys(table, q.key) && At(table, q, None, 0)
            && Sorted(Walk(table, q, None, 0, limit), RowOrder(q))
            && multiset(Walk(table, q, None, 0, limit)) == multiset(Where(table, q.filter))
            && (forall r :: r in Walk(table, q, None, 0, limit) <==>
                  && r in table && (f.status == None || f.status == Some(r.status))
                  && (f.kind == None || f.kind == Some(r.kind)))
            && (forall i, j :: 0 <= i < j < |Walk(table, q, None, 0, limit)| ==>
                  var x, y := Walk(table, q, None, 0, limit)[i], Walk(table, q, None, 0, limit)[j];
                  x.createdAt < y.createdAt || (x.createdAt == y.createdAt && x.id <= y.id))
  {
    hide LinearOrder, Walk, Listing, Where;
    BothOrdersLinear();
    var q := AccountsQuery(f);
    assert DistinctKeys(table, q.key);
    WalkIsListing(table, q, limit);
    WhereMembers(table, q.filter);
    forall r
      ensures r in Walk(table, q, None, 0, limit) <==> r in table && q.filter(r)
    {
      SameMembers(Walk(table, q, None, 0, limit), Where(table, q.filter), r);
    }
  }
}
