/**
 * The three list rewrites the store performs on its item tables:
 * `reduce` to a sum, `map` that rewrites the matching rows, `filter` that
 * drops them.
 */
module ItemLists {

  /** `items.reduce((sum, item) => sum + f(item), 0)`, folded from the left. */
  function SumBy<T>(s: seq<T>, f: T -> real): real
  {
    if s == [] then 0.0 else SumBy(s[..|s| - 1], f) + f(s[|s| - 1])
  }

  /** Appending a row adds its value to the sum. */
  lemma {:induction false} SumByAppend<T>(s: seq<T>, x: T, f: T -> real)
    ensures SumBy(s + [x], f) == SumBy(s, f) + f(x)
  {
    assert (s + [x])[..|s + [x]| - 1] == s;
  }

  /** The sum is monotone in every row's value. */
  lemma {:induction false} SumByMonotone<T>(a: seq<T>, b: seq<T>, f: T -> real)
    requires |a| == |b|
    requires forall i :: 0 <= i < |a| ==> f(a[i]) <= f(b[i])
    ensures SumBy(a, f) <= SumBy(b, f)
  {
    if a != [] {
      SumByMonotone(a[..|a| - 1], b[..|b| - 1], f);
    }
  }

  /** Rows whose values agree give equal sums. */
  lemma {:induction false} SumByCongruent<T>(a: seq<T>, b: seq<T>, f: T -> real)
    requires |a| == |b|
    requires forall i :: 0 <= i < |a| ==> f(a[i]) == f(b[i])
    ensures SumBy(a, f) == SumBy(b, f)
  {
    if a != [] {
      SumByCongruent(a[..|a| - 1], b[..|b| - 1], f);
    }
  }

  /** A table whose every row is worth nothing sums to zero. */
  lemma {:induction false} SumByZero<T>(s: seq<T>, f: T -> real)
    requires forall i :: 0 <= i < |s| ==> f(s[i]) == 0.0
    ensures SumBy(s, f) == 0.0
  {
    if s != [] {
      SumByZero(s[..|s| - 1], f);
    }
  }

  /** `s.map(x => p(x) ? g(x) : x)`: every matching row is rewritten, every other row is kept. */
  function MapWhere<T>(s: seq<T>, p: T -> bool, g: T --> T): (r: seq<T>)
    requires forall x :: x in s && p(x) ==> g.requires(x)
    ensures |r| == |s|
    ensures forall i :: 0 <= i < |s| ==> r[i] == if p(s[i]) then g(s[i]) else s[i]
  {
    if s == [] then []
    else
      var last := s[|s| - 1];
      MapWhere(s[..|s| - 1], p, g) + [if p(last) then g(last) else last]
  }

  /** When no row matches, the rewrite changes nothing. */
  lemma {:induction false} MapWhereNoMatch<T>(s: seq<T>, p: T -> bool, g: T --> T)
    requires forall x :: x in s ==> !p(x)
    ensures MapWhere(s, p, g) == s
  {
  }

  /** `s.filter(x => !drop(x))`. */
  function RemoveWhere<T>(s: seq<T>, drop: T -> bool): (r: seq<T>)
    ensures |r| <= |s|
    ensures forall i :: 0 <= i < |r| ==> r[i] in s && !drop(r[i])
    ensures forall i :: 0 <= i < |s| && !drop(s[i]) ==> s[i] in r
    ensures forall i :: 0 <= i < |s| && !drop(s[i]) ==> multiset(r)[s[i]] == multiset(s)[s[i]]
  {
    if s == [] then []
    else
      assert s == [s[0]] + s[1..];
      if drop(s[0]) then RemoveWhere(s[1..], drop)
      else [s[0]] + RemoveWhere(s[1..], drop)
  }

  /**
   * Filtering distributes over concatenation; together with the one-row
   * cases of the definition this says the kept rows stay in their order.
   */
  lemma {:induction false} RemoveWhereConcat<T>(a: seq<T>, b: seq<T>, drop: T -> bool)
    ensures RemoveWhere(a + b, drop) == RemoveWhere(a, drop) + RemoveWhere(b, drop)
  {
    if a != [] {
      assert (a + b)[0] == a[0] && (a + b)[1..] == a[1..] + b;
      RemoveWhereConcat(a[1..], b, drop);
    } else {
      assert a + b == b;
    }
  }

  /** When no row matches, the filter keeps the list as it is. */
  lemma {:induction false} RemoveWhereNoMatch<T>(s: seq<T>, drop: T -> bool)
    requires forall i :: 0 <= i < |s| ==> !drop(s[i])
    ensures RemoveWhere(s, drop) == s
  {
    if s != [] {
      RemoveWhereNoMatch(s[1..], drop);
    }
  }

  /** When some row matches, the filter makes the list strictly shorter. */
  lemma {:induction false} RemoveWhereShrinks<T>(s: seq<T>, drop: T -> bool, i: nat)
    requires i < |s| && drop(s[i])
    ensures |RemoveWhere(s, drop)| < |s|
  {
    if i > 0 {
      RemoveWhereShrinks(s[1..], drop, i - 1);
    }
  }
}
