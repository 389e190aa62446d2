/** Generic sequence operations standing for JavaScript's `Array.prototype.filter` and `find`. */
module Sequences {
  import opened Wrappers

  /** `a` can be obtained from `b` by deleting elements: the order of `a` is the order in `b`. */
  ghost predicate IsSubsequence<T>(a: seq<T>, b: seq<T>)
    decreases |b|
  {
    a == [] || (b != [] && if a[0] == b[0] then IsSubsequence(a[1..], b[1..]) else IsSubsequence(a, b[1..]))
  }

  /** No element occurs twice. */
  ghost predicate Distinct<T>(s: seq<T>)
  {
    forall i, j :: 0 <= i < j < |s| ==> s[i] != s[j]
  }

  /** `s.filter(keep)`: the elements that satisfy `keep`, in their original order and multiplicity. */
  function Filter<T(!new)>(s: seq<T>, keep: T -> bool): (r: seq<T>)
    ensures |r| <= |s|
    ensures forall x :: x in r ==> keep(x)
    ensures forall x :: x in r <==> x in s && keep(x)
    ensures forall x :: multiset(r)[x] == if keep(x) then multiset(s)[x] else 0
    ensures IsSubsequence(r, s)
  {
    if s == [] then []
    else
      var rest := Filter(s[1..], keep);
      assert s == [s[0]] + s[1..];
      if keep(s[0]) then
        assert ([s[0]] + rest)[1..] == rest;
        [s[0]] + rest
      else
        rest
  }

  /** `s.findIndex(f)` as an option: the FIRST index whose element satisfies `f`. */
  function IndexWhere<T>(s: seq<T>, f: T -> bool): (r: Option<nat>)
    ensures r.Some? ==> r.value < |s| && f(s[r.value])
    ensures r.Some? ==> forall j :: 0 <= j < r.value ==> !f(s[j])
    ensures r.None? <==> forall j :: 0 <= j < |s| ==> !f(s[j])
  {
    if s == [] then None
    else if f(s[0]) then Some(0)
    else
      match IndexWhere(s[1..], f)
      case None => None
      case Some(k) => Some(k + 1)
  }

  /** No element is preceded by one with a smaller key. */
  ghost predicate Descending<T>(s: seq<T>, key: T -> int)
  {
    forall i, j :: 0 <= i < j < |s| ==> key(s[i]) >= key(s[j])
  }

  /** Places `x` ahead of the first element whose key is not larger than its own, so `x` goes
      before the elements of equal key that `sorted` already holds. */
  function InsertDescending<T>(x: T, sorted: seq<T>, key: T -> int): (r: seq<T>)
    requires Descending(sorted, key)
    ensures |r| == |sorted| + 1
    ensures forall y :: y in r ==> y == x || y in sorted
    ensures Descending(r, key)
  {
    if sorted == [] || key(sorted[0]) <= key(x) then [x] + sorted
    else
      var head := sorted[0];
      var tail := sorted[1..];
      var rest := InsertDescending(x, tail, key);
      assert sorted == [head] + tail;
      forall y | y in rest ensures key(y) <= key(head) {
        if y != x {
          var k :| 0 <= k < |tail| && tail[k] == y;
          assert sorted[k + 1] == y;
        }
      }
      var r := [head] + rest;
      assert forall j :: 0 < j < |r| ==> r[j] == rest[j - 1];
      r
  }

  /** Inserting adds exactly one occurrence of `x`. */
  lemma {:induction false} InsertDescendingCounts<T>(x: T, sorted: seq<T>, key: T -> int)
    requires Descending(sorted, key)
    ensures multiset(InsertDescending(x, sorted, key)) == multiset(sorted) + multiset{x}
  {
    if !(sorted == [] || key(sorted[0]) <= key(x)) {
      InsertDescendingCounts(x, sorted[1..], key);
      assert sorted == [sorted[0]] + sorted[1..];
    }
  }

  /** The predicate "has key `v`", one function value per key so that filters by it compare equal. */
  function KeyIs<T(!new)>(key: T -> int, v: int): (f: T -> bool)
    ensures forall y :: f(y) == (key(y) == v)
  {
    (y: T) => key(y) == v
  }

  /** Filtering a sequence with one more element in front. */
  lemma FilterCons<T(!new)>(x: T, s: seq<T>, keep: T -> bool)
    ensures Filter([x] + s, keep) == (if keep(x) then [x] else []) + Filter(s, keep)
  {
    assert ([x] + s)[1..] == s;
  }

  /** Inserting `x` keeps, among the elements of any one key, the order of `[x] + sorted`: `x` only
      passes elements of a larger key. */
  lemma {:induction false} InsertKeepsKeyClass<T(!new)>(x: T, sorted: seq<T>, key: T -> int, v: int)
    requires Descending(sorted, key)
    ensures Filter(InsertDescending(x, sorted, key), KeyIs(key, v)) == Filter([x] + sorted, KeyIs(key, v))
  {
    if !(sorted == [] || key(sorted[0]) <= key(x)) {
      var f := KeyIs(key, v);
      var head := sorted[0];
      var tail := sorted[1..];
      var rest := InsertDescending(x, tail, key);
      assert sorted == [head] + tail;
      assert InsertDescending(x, sorted, key) == [head] + rest;
      InsertKeepsKeyClass(x, tail, key, v);
      // Filter(rest, f) == Filter([x] + tail, f)
      FilterCons(head, rest, f);
      FilterCons(x, tail, f);
      FilterCons(x, sorted, f);
      FilterCons(head, tail, f);
      var ft := Filter(tail, f);
      assert key(head) > key(x);
      if f(head) {
        assert !f(x);
        assert Filter([head] + rest, f) == [head] + ft;
        assert Filter([x] + sorted, f) == [head] + ft;
      } else if f(x) {
        assert Filter([head] + rest, f) == [x] + ft;
        assert Filter([x] + sorted, f) == [x] + ft;
      } else {
        assert Filter([head] + rest, f) == ft;
        assert Filter([x] + sorted, f) == ft;
      }
    }
  }

  /** A sort by descending key (insertion sort from the back). */
  function SortDescending<T>(s: seq<T>, key: T -> int): (r: seq<T>)
    ensures Descending(r, key)
    ensures multiset(r) == multiset(s)
  {
    if s == [] then []
    else
      var rest := SortDescending(s[1..], key);
      InsertDescendingCounts(s[0], rest, key);
      assert s == [s[0]] + s[1..];
      InsertDescending(s[0], rest, key)
  }

  /** The sort is stable: the elements of any one key keep their relative order. */
  lemma {:induction false} SortDescendingIsStable<T(!new)>(s: seq<T>, key: T -> int, v: int)
    ensures Filter(SortDescending(s, key), KeyIs(key, v)) == Filter(s, KeyIs(key, v))
  {
    if s != [] {
      var rest := SortDescending(s[1..], key);
      SortDescendingIsStable(s[1..], key, v);
      InsertKeepsKeyClass(s[0], rest, key, v);
      FilterCons(s[0], rest, KeyIs(key, v));
      FilterCons(s[0], s[1..], KeyIs(key, v));
      assert s == [s[0]] + s[1..];
    }
  }

  /** In a sequence without repeats every element occurs at most once. */
  lemma {:induction false} DistinctCountsAtMostOne<T>(s: seq<T>)
    requires Distinct(s)
    ensures forall x :: multiset(s)[x] <= 1
  {
    if s != [] {
      assert s == [s[0]] + s[1..];
      assert Distinct(s[1..]) by {
        forall i, j | 0 <= i < j < |s[1..]| ensures s[1..][i] != s[1..][j] {
          assert s[1..][i] == s[i + 1] && s[1..][j] == s[j + 1];
        }
      }
      DistinctCountsAtMostOne(s[1..]);
      assert s[0] !in s[1..] by {
        forall i | 0 <= i < |s[1..]| ensures s[1..][i] != s[0] {
          assert s[1..][i] == s[i + 1];
        }
      }
    }
  }
}
