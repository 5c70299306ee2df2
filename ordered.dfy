/** Orders used by the reshaping step: `pivot(...).sort_index()` lays dates out in ascending
    order, and pandas orders the column labels (country codes) as Python compares strings,
    code point by code point. */
module Ordered {

  ghost predicate StrictTotalOrder<T(!new)>(lt: (T, T) -> bool)
  {
    && (forall x :: !lt(x, x))
    && (forall x, y, z :: lt(x, y) && lt(y, z) ==> lt(x, z))
    && (forall x, y :: x != y ==> lt(x, y) || lt(y, x))
  }

  /** Strictly ascending, hence without repetitions. */
  ghost predicate Increasing<T>(s: seq<T>, lt: (T, T) -> bool)
  {
    forall i, j :: 0 <= i < j < |s| ==> lt(s[i], s[j])
  }

  predicate IntLess(a: int, b: int)
  {
    a < b
  }

  /** Python's `a < b` on two strings. */
  predicate StrLess(a: string, b: string)
  {
    if a == [] then b != []
    else if b == [] then false
    else if a[0] != b[0] then a[0] < b[0]
    else StrLess(a[1..], b[1..])
  }

  lemma IntLessIsStrictTotalOrder()
    ensures StrictTotalOrder(IntLess)
  {
  }

  lemma {:induction false} StrLessIrreflexive(a: string)
    ensures !StrLess(a, a)
  {
    if a != [] {
      StrLessIrreflexive(a[1..]);
    }
  }

  lemma {:induction false} StrLessTransitive(a: string, b: string, c: string)
    requires StrLess(a, b) && StrLess(b, c)
    ensures StrLess(a, c)
  {
    if a != [] && b != [] && c != [] && a[0] == b[0] && b[0] == c[0] {
      StrLessTransitive(a[1..], b[1..], c[1..]);
    }
  }

  lemma {:induction false} StrLessConnected(a: string, b: string)
    requires a != b
    ensures StrLess(a, b) || StrLess(b, a)
  {
    if a != [] && b != [] && a[0] == b[0] {
      assert a == [a[0]] + a[1..] && b == [b[0]] + b[1..];
      StrLessConnected(a[1..], b[1..]);
    }
  }

  lemma StrLessIsStrictTotalOrder()
    ensures StrictTotalOrder(StrLess)
  {
    forall x: string ensures !StrLess(x, x) {
      StrLessIrreflexive(x);
    }
    forall x: string, y: string, z: string | StrLess(x, y) && StrLess(y, z)
      ensures StrLess(x, z)
    {
      StrLessTransitive(x, y, z);
    }
    forall x: string, y: string | x != y ensures StrLess(x, y) || StrLess(y, x) {
      StrLessConnected(x, y);
    }
  }

  lemma IncreasingTail<T(!new)>(s: seq<T>, y: T, lt: (T, T) -> bool)
    requires Increasing(s, lt) && |s| > 0 && y in s[1..]
    ensures lt(s[0], y)
  {
    var k :| 0 <= k < |s[1..]| && s[1..][k] == y;
    assert s[k + 1] == y;
  }

  /** `s` with `x` added at its place; `s` itself when `x` is already there. */
  function Insert<T(==,!new)>(s: seq<T>, x: T, lt: (T, T) -> bool): (r: seq<T>)
    requires StrictTotalOrder(lt) && Increasing(s, lt)
    ensures Increasing(r, lt)
    ensures forall y :: y in r <==> y in s || y == x
  {
    if s == [] then [x]
    else if x == s[0] then s
    else if lt(x, s[0]) then
      assert forall y :: y in s[1..] ==> lt(s[0], y) by {
        forall y | y in s[1..] ensures lt(s[0], y) { IncreasingTail(s, y, lt); }
      }
      [x] + s
    else
      var t := Insert(s[1..], x, lt);
      assert forall y :: y in t ==> lt(s[0], y) by {
        forall y | y in t ensures lt(s[0], y) {
          if y != x { IncreasingTail(s, y, lt); }
        }
      }
      [s[0]] + t
  }

  /** The distinct elements of `xs` in ascending order. */
  function SortedDistinct<T(==,!new)>(xs: seq<T>, lt: (T, T) -> bool): (r: seq<T>)
    requires StrictTotalOrder(lt)
    ensures Increasing(r, lt)
    ensures forall y :: y in r <==> y in xs
  {
    if xs == [] then []
    else
      var r := Insert(SortedDistinct(xs[..|xs| - 1], lt), xs[|xs| - 1], lt);
      assert xs == xs[..|xs| - 1] + [xs[|xs| - 1]];
      r
  }

  lemma IncreasingInjective<T(!new)>(s: seq<T>, i: int, j: int, lt: (T, T) -> bool)
    requires StrictTotalOrder(lt) && Increasing(s, lt)
    requires 0 <= i < |s| && 0 <= j < |s| && i != j
    ensures s[i] != s[j]
  {
    if i < j { assert lt(s[i], s[j]); } else { assert lt(s[j], s[i]); }
  }

  /** Two ascending sequences with the same elements are the same sequence, so the pivot
      layout depends only on which labels occur, never on the order of the rows. */
  lemma {:induction false} IncreasingUnique<T(!new)>(a: seq<T>, b: seq<T>, lt: (T, T) -> bool)
    requires StrictTotalOrder(lt) && Increasing(a, lt) && Increasing(b, lt)
    requires forall y :: y in a <==> y in b
    ensures a == b
    decreases |a|
  {
    if a != [] { assert a[0] in b; }
    if b != [] { assert b[0] in a; }
    if a != [] {
      assert a[0] in b;
      assert b != [];
      var m :| 0 <= m < |b| && b[m] == a[0];
      assert b[0] in a;
      var n :| 0 <= n < |a| && a[n] == b[0];
      assert a[0] == b[0];
      assert a == [a[0]] + a[1..] && b == [b[0]] + b[1..];
      forall y ensures y in a[1..] <==> y in b[1..] {
        if y in a[1..] {
          IncreasingTail(a, y, lt);
          assert y != a[0];
          assert y in a;
          assert y in b;
          assert y in b[1..];
        }
        if y in b[1..] {
          IncreasingTail(b, y, lt);
          assert y != b[0];
          assert y in b;
          assert y in a;
          assert y in a[1..];
        }
      }
      IncreasingUnique(a[1..], b[1..], lt);
    }
  }

  /** Reordering or repeating the input does not change the sorted distinct labels. */
  lemma SortedDistinctDependsOnlyOnElements<T(!new)>(xs: seq<T>, ys: seq<T>, lt: (T, T) -> bool)
    requires StrictTotalOrder(lt)
    requires forall y :: y in xs <==> y in ys
    ensures SortedDistinct(xs, lt) == SortedDistinct(ys, lt)
  {
    IncreasingUnique(SortedDistinct(xs, lt), SortedDistinct(ys, lt), lt);
  }
}
