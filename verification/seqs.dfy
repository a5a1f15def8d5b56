/** Filtering, summing and ordering of table rows: the meaning of WHERE, SUM and ORDER BY. */
module Seqs {

  /** The rows that satisfy p, in order. */
  function Where<T>(xs: seq<T>, p: T -> bool): seq<T> {
    if xs == [] then []
    else
      var rest := Where(xs[..|xs| - 1], p);
      if p(xs[|xs| - 1]) then rest + [xs[|xs| - 1]] else rest
  }

  /** The sum of w over the rows. */
  function Total<T>(xs: seq<T>, w: T -> int): int {
    if xs == [] then 0 else Total(xs[..|xs| - 1], w) + w(xs[|xs| - 1])
  }

  function Masked<T>(p: T -> bool, w: T -> int): T -> int {
    (x: T) => if p(x) then w(x) else 0
  }

  function Both<T>(p: T -> bool, q: T -> bool): T -> bool {
    (x: T) => p(x) && q(x)
  }

  ghost predicate Distinct<T>(xs: seq<T>) { forall i, j :: 0 <= i < j < |xs| ==> xs[i] != xs[j] }

  lemma {:induction false} WhereConcat<T>(xs: seq<T>, ys: seq<T>, p: T -> bool)
    ensures Where(xs + ys, p) == Where(xs, p) + Where(ys, p)
  {
    if ys == [] {
      assert xs + ys == xs;
    } else {
      var front := ys[..|ys| - 1];
      assert (xs + ys)[..|xs + ys| - 1] == xs + front;
      WhereConcat(xs, front, p);
    }
  }

  lemma {:induction false} TotalConcat<T>(xs: seq<T>, ys: seq<T>, w: T -> int)
    ensures Total(xs + ys, w) == Total(xs, w) + Total(ys, w)
  {
    if ys == [] {
      assert xs + ys == xs;
    } else {
      var front := ys[..|ys| - 1];
      assert (xs + ys)[..|xs + ys| - 1] == xs + front;
      TotalConcat(xs, front, w);
    }
  }

  lemma {:induction false} WhereMembers<T>(xs: seq<T>, p: T -> bool)
    ensures |Where(xs, p)| <= |xs|
    ensures forall x :: x in Where(xs, p) <==> x in xs && p(x)
  {
    if xs != [] {
      var front := xs[..|xs| - 1];
      WhereMembers(front, p);
      assert xs == front + [xs[|xs| - 1]];
    }
  }

  lemma {:induction false} WhereSame<T>(xs: seq<T>, p: T -> bool, q: T -> bool)
    requires forall x :: x in xs ==> p(x) == q(x)
    ensures Where(xs, p) == Where(xs, q)
  {
    if xs != [] {
      WhereSame(xs[..|xs| - 1], p, q);
    }
  }

  lemma {:induction false} WhereNone<T>(xs: seq<T>, p: T -> bool)
    requires forall x :: x in xs ==> !p(x)
    ensures Where(xs, p) == []
  {
    if xs != [] {
      WhereNone(xs[..|xs| - 1], p);
    }
  }

  lemma {:induction false} WhereAll<T>(xs: seq<T>, p: T -> bool)
    requires forall x :: x in xs ==> p(x)
    ensures Where(xs, p) == xs
  {
    if xs != [] {
      WhereAll(xs[..|xs| - 1], p);
      assert xs == xs[..|xs| - 1] + [xs[|xs| - 1]];
    }
  }

  /** When exactly one position satisfies p, the filter is that single row. */
  lemma {:induction false} WhereOne<T>(xs: seq<T>, p: T -> bool, i: nat)
    requires i < |xs| && p(xs[i])
    requires forall j :: 0 <= j < |xs| && j != i ==> !p(xs[j])
    ensures Where(xs, p) == [xs[i]]
  {
    assert xs == xs[..i] + [xs[i]] + xs[i + 1..];
    WhereConcat(xs[..i] + [xs[i]], xs[i + 1..], p);
    WhereConcat(xs[..i], [xs[i]], p);
    WhereNone(xs[..i], p);
    WhereNone(xs[i + 1..], p);
    assert [xs[i]][..0] == [];
  }

  lemma {:induction false} WhereWhere<T>(xs: seq<T>, p: T -> bool, q: T -> bool)
    ensures Where(Where(xs, p), q) == Where(xs, Both(p, q))
  {
    if xs != [] {
      var front, last := xs[..|xs| - 1], xs[|xs| - 1];
      WhereWhere(front, p, q);
      WhereConcat(Where(front, p), [last], q);
      assert [last][..0] == [];
    }
  }

  lemma {:induction false} TotalSame<T>(xs: seq<T>, v: T -> int, w: T -> int)
    requires forall x :: x in xs ==> v(x) == w(x)
    ensures Total(xs, v) == Total(xs, w)
  {
    if xs != [] {
      TotalSame(xs[..|xs| - 1], v, w);
    }
  }

  lemma {:induction false} TotalWhere<T>(xs: seq<T>, p: T -> bool, w: T -> int)
    ensures Total(Where(xs, p), w) == Total(xs, Masked(p, w))
  {
    if xs != [] {
      var front := xs[..|xs| - 1];
      TotalWhere(front, p, w);
      TotalConcat(Where(front, p), [xs[|xs| - 1]], w);
      assert [xs[|xs| - 1]][..0] == [];
    }
  }

  /** If v + w agree with u on every row, so do their totals. */
  lemma {:induction false} TotalAdd<T>(xs: seq<T>, v: T -> int, w: T -> int, u: T -> int)
    requires forall x :: x in xs ==> v(x) + w(x) == u(x)
    ensures Total(xs, v) + Total(xs, w) == Total(xs, u)
  {
    if xs != [] {
      TotalAdd(xs[..|xs| - 1], v, w, u);
    }
  }

  lemma {:induction false} TotalZero<T>(xs: seq<T>, w: T -> int)
    requires forall x :: x in xs ==> w(x) == 0
    ensures Total(xs, w) == 0
  {
    if xs != [] {
      TotalZero(xs[..|xs| - 1], w);
    }
  }

  lemma {:induction false} TotalOne<T>(x: T, w: T -> int)
    ensures Total([x], w) == w(x)
  {
    assert [x][..0] == [];
  }

  lemma {:induction false} TotalPair<T>(x: T, y: T, w: T -> int)
    ensures Total([x, y], w) == w(x) + w(y)
  {
    TotalOne(x, w);
    TotalOne(y, w);
    TotalConcat([x], [y], w);
    assert [x] + [y] == [x, y];
  }

  lemma {:induction false} WhereSnoc<T>(xs: seq<T>, x: T, p: T -> bool)
    ensures Where(xs + [x], p) == if p(x) then Where(xs, p) + [x] else Where(xs, p)
  {
    assert (xs + [x])[..|xs|] == xs;
  }

  lemma {:induction false} TotalSnoc<T>(xs: seq<T>, x: T, w: T -> int)
    ensures Total(xs + [x], w) == Total(xs, w) + w(x)
  {
    assert (xs + [x])[..|xs|] == xs;
  }

  /** A filter of a prefix is a prefix of the filter. */
  lemma {:induction false} WherePrefix<T>(xs: seq<T>, ys: seq<T>, p: T -> bool)
    requires xs <= ys
    ensures Where(xs, p) <= Where(ys, p)
  {
    assert ys == xs + ys[|xs|..];
    WhereConcat(xs, ys[|xs|..], p);
  }

  // ----- ORDER BY -----

  ghost predicate TotalOrder<T(!new)>(le: (T, T) -> bool) {
    && (forall x, y :: le(x, y) || le(y, x))
    && (forall x, y, z :: le(x, y) && le(y, z) ==> le(x, z))
  }

  ghost predicate Sorted<T>(xs: seq<T>, le: (T, T) -> bool) {
    forall i, j :: 0 <= i < j < |xs| ==> le(xs[i], xs[j])
  }

  function Insert<T>(xs: seq<T>, x: T, le: (T, T) -> bool): seq<T> {
    if xs == [] || le(xs[|xs| - 1], x) then xs + [x]
    else Insert(xs[..|xs| - 1], x, le) + [xs[|xs| - 1]]
  }

  /** Stable insertion sort: the meaning of ORDER BY. */
  function SortBy<T>(xs: seq<T>, le: (T, T) -> bool): seq<T> {
    if xs == [] then [] else Insert(SortBy(xs[..|xs| - 1], le), xs[|xs| - 1], le)
  }

  lemma {:induction false} InsertMembers<T>(xs: seq<T>, x: T, le: (T, T) -> bool)
    ensures multiset(Insert(xs, x, le)) == multiset(xs) + multiset{x}
  {
    if xs != [] && !le(xs[|xs| - 1], x) {
      InsertMembers(xs[..|xs| - 1], x, le);
      assert xs == xs[..|xs| - 1] + [xs[|xs| - 1]];
    }
  }

  lemma {:induction false} InsertSorted<T(!new)>(xs: seq<T>, x: T, le: (T, T) -> bool)
    requires TotalOrder(le) && Sorted(xs, le)
    ensures Sorted(Insert(xs, x, le), le)
  {
    if xs == [] {
    } else if le(xs[|xs| - 1], x) {
      forall i | 0 <= i < |xs|
        ensures le(xs[i], x)
      {
        assert le(xs[i], xs[|xs| - 1]);
      }
    } else {
      var front, last := xs[..|xs| - 1], xs[|xs| - 1];
      InsertSorted(front, x, le);
      InsertMembers(front, x, le);
      var ins := Insert(front, x, le);
      forall i | 0 <= i < |ins|
        ensures le(ins[i], last)
      {
        assert ins[i] in multiset(ins);
        if ins[i] != x {
          assert ins[i] in multiset(front);
        }
      }
    }
  }

  lemma {:induction false} SortBySorts<T(!new)>(xs: seq<T>, le: (T, T) -> bool)
    requires TotalOrder(le)
    ensures Sorted(SortBy(xs, le), le)
    ensures multiset(SortBy(xs, le)) == multiset(xs)
  {
    hide Insert, Sorted, TotalOrder;
    if xs == [] {
      NothingSorted(le);
    } else {
      var front, last := xs[..|xs| - 1], xs[|xs| - 1];
      SortBySorts(front, le);
      InsertSorted(SortBy(front, le), last, le);
      InsertMembers(SortBy(front, le), last, le);
      assert xs == front + [last];
    }
  }

  lemma {:induction false} NothingSorted<T>(le: (T, T) -> bool)
    ensures Sorted([], le)
  {
  }

  /** ORDER BY leaves rows that already are in order alone. */
  lemma {:induction false} SortByIdentity<T>(xs: seq<T>, le: (T, T) -> bool)
    requires Sorted(xs, le)
    ensures SortBy(xs, le) == xs
  {
    if xs != [] {
      var front, last := xs[..|xs| - 1], xs[|xs| - 1];
      SortByIdentity(front, le);
      assert front != [] ==> front[|front| - 1] == xs[|xs| - 2];
      assert Insert(front, last, le) == front + [last];
      assert xs == front + [last];
    }
  }
}
