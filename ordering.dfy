/** The two operations that every database query of the model performs on a
    table: selecting the rows that satisfy a `where` predicate, and ordering
    them by one column (`orderBy: { column: 'asc' | 'desc' }`). */
module Ordering {

  datatype Direction = Asc | Desc

  /** `a` may come before `b` in a result ordered in direction `d`. */
  predicate Precedes(a: real, b: real, d: Direction) {
    if d == Asc then a <= b else a >= b
  }

  predicate Sorted<T>(s: seq<T>, key: T -> real, d: Direction) {
    forall i, j :: 0 <= i < j < |s| ==> Precedes(key(s[i]), key(s[j]), d)
  }

  /** The rows of `s` that satisfy `p`, in their original order. */
  function Filter<T(!new)>(s: seq<T>, p: T -> bool): (r: seq<T>)
    ensures forall x :: multiset(r)[x] == if p(x) then multiset(s)[x] else 0
    ensures forall x :: x in r <==> x in s && p(x)
    ensures |r| <= |s|
  {
    if s == [] then []
    else
      var rest := Filter(s[1..], p);
      assert s == [s[0]] + s[1..];
      if p(s[0]) then [s[0]] + rest else rest
  }

  /** Inserts `x` into the ordered sequence `s`, before the first element that
      `x` precedes. */
  function Insert<T>(x: T, s: seq<T>, key: T -> real, d: Direction): (r: seq<T>)
    requires Sorted(s, key, d)
    ensures Sorted(r, key, d)
    ensures multiset(r) == multiset(s) + multiset{x}
  {
    if s == [] then [x]
    else if Precedes(key(x), key(s[0]), d) then
      InsertFront(x, s, key, d);
      [x] + s
    else
      assert s == [s[0]] + s[1..];
      var rest := Insert(x, s[1..], key, d);
      ConsSorted(s[0], rest, key, d);
      [s[0]] + rest
  }

  lemma InsertFront<T>(x: T, s: seq<T>, key: T -> real, d: Direction)
    requires Sorted(s, key, d) && s != [] && Precedes(key(x), key(s[0]), d)
    ensures Sorted([x] + s, key, d)
  {
    var r := [x] + s;
    forall i, j | 0 <= i < j < |r| ensures Precedes(key(r[i]), key(r[j]), d) {
      if i == 0 && j > 1 {
        assert Precedes(key(s[0]), key(s[j - 1]), d);
      }
    }
  }

  /** Prepending `y` keeps a sequence ordered when `y` precedes all of it. */
  lemma ConsSorted<T>(y: T, rest: seq<T>, key: T -> real, d: Direction)
    requires Sorted(rest, key, d)
    requires forall z :: z in multiset(rest) ==> Precedes(key(y), key(z), d)
    ensures Sorted([y] + rest, key, d)
  {
    var r := [y] + rest;
    forall i, j | 0 <= i < j < |r| ensures Precedes(key(r[i]), key(r[j]), d) {
      if i == 0 {
        assert r[j] == rest[j - 1];
        assert rest[j - 1] in multiset(rest);
      }
    }
  }

  /** The rows of `s` ordered by `key` in direction `d`. */
  function SortBy<T>(s: seq<T>, key: T -> real, d: Direction): (r: seq<T>)
    ensures Sorted(r, key, d)
    ensures multiset(r) == multiset(s)
  {
    if s == [] then []
    else
      assert s == [s[0]] + s[1..];
      Insert(s[0], SortBy(s[1..], key, d), key, d)
  }

  /** A sorted query result is exactly the filtered rows: each row that
      satisfies the predicate appears as often as in the table, no other row
      appears. */
  lemma {:induction false} SortedSelection<T(!new)>(s: seq<T>, p: T -> bool, key: T -> real, d: Direction)
    ensures var r := SortBy(Filter(s, p), key, d);
      && Sorted(r, key, d)
      && (forall x :: x in r <==> x in s && p(x))
      && |r| <= |s|
  {
    var f := Filter(s, p);
    var r := SortBy(f, key, d);
    assert |r| == |multiset(r)| == |multiset(f)| == |f|;
    forall x ensures x in r <==> x in s && p(x) {
      assert x in r <==> x in multiset(r);
      assert x in f <==> x in multiset(f);
    }
  }
}
