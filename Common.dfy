/** Values and list operations shared by the components: the optional value
    of an absent field, and `Array.prototype.filter` with what it promises. */
module Common {

  datatype Option<T> = None | Some(value: T)

  /** The value of an optional field, or `fallback` when it is absent. */
  function GetOr<T>(o: Option<T>, fallback: T): T
  {
    if o.Some? then o.value else fallback
  }

  /** `xs.filter(f)`: the elements satisfying `f`, in their original order. */
  function Filter<T>(xs: seq<T>, f: T -> bool): (r: seq<T>)
    ensures |r| <= |xs|
    ensures forall k | 0 <= k < |r| :: f(r[k])
  {
    if xs == [] then [] else (if f(xs[0]) then [xs[0]] else []) + Filter(xs[1..], f)
  }

  /** `xs` is `ys` with some elements left out, the rest in the same order. */
  predicate IsSubsequence<T(==)>(xs: seq<T>, ys: seq<T>)
  {
    if xs == [] then true
    else if ys == [] then false
    else if xs[0] == ys[0] then IsSubsequence(xs[1..], ys[1..])
    else IsSubsequence(xs, ys[1..])
  }

  /** An element is kept exactly when it is in the list and satisfies `f`. */
  lemma {:induction false} FilterMembership<T>(xs: seq<T>, f: T -> bool, x: T)
    ensures x in Filter(xs, f) <==> x in xs && f(x)
  {
    if xs != [] {
      FilterMembership(xs[1..], f, x);
      assert xs == [xs[0]] + xs[1..];
    }
  }

  /** Filtering keeps the relative order of the kept elements. */
  lemma {:induction false} FilterIsSubsequence<T>(xs: seq<T>, f: T -> bool)
    ensures IsSubsequence(Filter(xs, f), xs)
  {
    if xs != [] {
      FilterIsSubsequence(xs[1..], f);
      var rest := Filter(xs[1..], f);
      if f(xs[0]) {
        assert Filter(xs, f) == [xs[0]] + rest;
        assert ([xs[0]] + rest)[1..] == rest;
      } else {
        assert Filter(xs, f) == rest;
        SubsequenceOfTail(rest, xs);
      }
    }
  }

  /** A subsequence of the tail is a subsequence of the whole list. */
  lemma {:induction false} SubsequenceOfTail<T>(xs: seq<T>, ys: seq<T>)
    requires ys != [] && IsSubsequence(xs, ys[1..])
    ensures IsSubsequence(xs, ys)
  {
    if xs != [] && xs[0] == ys[0] {
      var t := ys[1..];
      if t != [] && xs[0] == t[0] {
        SubsequenceOfTail(xs[1..], t);
      } else {
        SubsequenceDropHead(xs, t);
      }
    }
  }

  /** Dropping the first element of a subsequence keeps it a subsequence. */
  lemma {:induction false} SubsequenceDropHead<T>(xs: seq<T>, ys: seq<T>)
    requires xs != [] && IsSubsequence(xs, ys)
    ensures IsSubsequence(xs[1..], ys)
  {
    if ys != [] {
      if xs[0] == ys[0] {
        if ys[1..] != [] { SubsequenceOfTail(xs[1..], ys); } else { assert xs[1..] == []; }
      } else {
        SubsequenceDropHead(xs, ys[1..]);
        SubsequenceOfTail(xs[1..], ys);
      }
    }
  }

  /** Filtering twice by the same test is filtering once. */
  lemma {:induction false} FilterIdempotent<T>(xs: seq<T>, f: T -> bool)
    ensures Filter(Filter(xs, f), f) == Filter(xs, f)
  {
    FilterKeepsAll(Filter(xs, f), f);
  }

  /** When every element satisfies the test nothing is dropped. */
  lemma {:induction false} FilterKeepsAll<T>(xs: seq<T>, f: T -> bool)
    requires forall k | 0 <= k < |xs| :: f(xs[k])
    ensures Filter(xs, f) == xs
  {
    if xs != [] {
      FilterKeepsAll(xs[1..], f);
      assert xs == [xs[0]] + xs[1..];
    }
  }

  /** When no element satisfies the test nothing is kept. */
  lemma {:induction false} FilterDropsAll<T>(xs: seq<T>, f: T -> bool)
    requires forall k | 0 <= k < |xs| :: !f(xs[k])
    ensures Filter(xs, f) == []
  {
    if xs != [] {
      FilterDropsAll(xs[1..], f);
    }
  }

  /** Filtering distributes over concatenation. */
  lemma {:induction false} FilterAppend<T>(xs: seq<T>, ys: seq<T>, f: T -> bool)
    ensures Filter(xs + ys, f) == Filter(xs, f) + Filter(ys, f)
  {
    if xs == [] {
      assert xs + ys == ys;
    } else {
      var zs := xs + ys;
      assert zs[0] == xs[0] && zs[1..] == xs[1..] + ys;
      FilterAppend(xs[1..], ys, f);
      FilterCons(zs, f);
      FilterCons(xs, f);
    }
  }

  /** One step of `Filter`, stated on its own. */
  lemma FilterCons<T>(xs: seq<T>, f: T -> bool)
    requires xs != []
    ensures Filter(xs, f) == (if f(xs[0]) then [xs[0]] else []) + Filter(xs[1..], f)
  {
  }

  /** Tests that agree on every element select the same elements. */
  lemma {:induction false} FilterSame<T>(xs: seq<T>, f: T -> bool, g: T -> bool)
    requires forall k | 0 <= k < |xs| :: f(xs[k]) == g(xs[k])
    ensures Filter(xs, f) == Filter(xs, g)
  {
    if xs != [] {
      FilterCons(xs, f);
      FilterCons(xs, g);
      FilterSame(xs[1..], f, g);
    }
  }

  /** The number of elements that satisfy `f`. */
  function CountWhere<T>(xs: seq<T>, f: T -> bool): nat
  {
    if xs == [] then 0 else (if f(xs[0]) then 1 else 0) + CountWhere(xs[1..], f)
  }

  /** Filtering by `f` keeps exactly as many elements as satisfy `f`, and what is
      dropped are the ones that do not. */
  lemma {:induction false} FilterLength<T>(xs: seq<T>, f: T -> bool, g: T -> bool)
    requires forall x :: g(x) == !f(x)
    ensures |Filter(xs, f)| == CountWhere(xs, f)
    ensures |Filter(xs, f)| == |xs| - CountWhere(xs, g)
  {
    if xs != [] {
      FilterLength(xs[1..], f, g);
    }
  }

  /** `Math.round(passed / total * 100)` for whole counts, computed on the exact
      share: JavaScript rounds halves up, which on non-negative values is the
      floor of x + 1/2. The program computes the share in doubles, where a share
      whose percentage is exactly a half can fall just below it (23 of 40). */
  function RoundedPercent(passed: nat, total: nat): nat
    requires total > 0
  {
    (200 * passed + total) / (2 * total)
  }

  /** Multiplying by a non-negative number keeps the order. */
  lemma {:induction false} MulMonotone(d: int, a: int, b: int)
    requires d >= 0
    ensures a <= b ==> d * a <= d * b
    decreases if a < b then b - a else 0
  {
    if a < b {
      MulMonotone(d, a, b - 1);
      assert d * b == d * (b - 1) + d;
    }
  }

  /** A quotient below `k`: the dividend is below `k` times the divisor. */
  lemma DivBelow(n: int, d: int, k: int)
    requires d > 0 && n < d * k
    ensures n / d < k
  {
    var q := n / d;
    assert d * q <= n;
    MulMonotone(d, k, q);
  }

  /** A quotient of at least `k`: the dividend is at least `k` times the divisor. */
  lemma DivAtLeast(n: int, d: int, k: int)
    requires d > 0 && d * k <= n
    ensures k <= n / d
  {
    var q := n / d;
    assert n < d * (q + 1);
    MulMonotone(d, q + 1, k);
  }

  /** Of at most `total` passed the rounded percentage is at most 100, all
      passed is 100 and none passed is 0. */
  lemma RoundedPercentRange(passed: nat, total: nat)
    requires 0 < total && passed <= total
    ensures RoundedPercent(passed, total) <= 100
    ensures passed == total ==> RoundedPercent(passed, total) == 100
    ensures passed == 0 ==> RoundedPercent(passed, total) == 0
  {
    var n := 200 * passed + total;
    DivBelow(n, 2 * total, 101);
    if passed == total {
      DivAtLeast(n, 2 * total, 100);
    }
    if passed == 0 {
      DivBelow(n, 2 * total, 1);
    }
  }

  /** Dividing by a positive number keeps a bound on either side. */
  lemma DivideBounds(lo: real, p: real, hi: real, t: real)
    requires t > 0.0 && t * lo <= p < t * hi
    ensures lo <= p / t < hi
  {
    assert p / t * t == p;
  }

  /** The rounded percentage is the whole number nearest to the exact
      percentage, exact halves going up. */
  lemma RoundedPercentNearest(passed: nat, total: nat)
    requires total > 0
    ensures var r := RoundedPercent(passed, total) as real;
            var x := 100.0 * (passed as real) / (total as real);
            r - 0.5 <= x < r + 0.5
  {
    var r := RoundedPercent(passed, total);
    var n := 200 * passed + total;
    assert 2 * total * r <= n < 2 * total * r + 2 * total;
    var t := total as real;
    var rr := r as real;
    var p := 100.0 * (passed as real);
    assert (2 * total * r) as real == 2.0 * t * rr;
    assert t * (rr - 0.5) <= p < t * (rr + 0.5);
    DivideBounds(rr - 0.5, p, rr + 0.5, t);
  }

  /** No element occurs twice. */
  predicate Distinct<T(==)>(xs: seq<T>)
  {
    forall i, j | 0 <= i < j < |xs| :: xs[i] != xs[j]
  }

  /** The set of a list's elements. */
  function Elements<T>(xs: seq<T>): set<T>
  {
    set x | x in xs
  }

  /** Filtering a list without repetitions gives one without repetitions. */
  lemma {:induction false} FilterDistinct<T>(xs: seq<T>, f: T -> bool)
    requires Distinct(xs)
    ensures Distinct(Filter(xs, f))
  {
    if xs != [] {
      var rest := Filter(xs[1..], f);
      assert Distinct(xs[1..]) by {
        forall i, j | 0 <= i < j < |xs[1..]| ensures xs[1..][i] != xs[1..][j] {
          assert xs[1..][i] == xs[i + 1] && xs[1..][j] == xs[j + 1];
        }
      }
      FilterDistinct(xs[1..], f);
      FilterMembership(xs[1..], f, xs[0]);
      assert xs[0] !in xs[1..];
      FilterCons(xs, f);
      var r := Filter(xs, f);
      if f(xs[0]) {
        forall i, j | 0 <= i < j < |r| ensures r[i] != r[j] {
          if i == 0 {
            assert r[j] == rest[j - 1];
          } else {
            assert r[i] == rest[i - 1] && r[j] == rest[j - 1];
          }
        }
      }
    }
  }

  /** A list without repetitions has as many elements as its set. */
  lemma {:induction false} DistinctCard<T>(xs: seq<T>)
    requires Distinct(xs)
    ensures |Elements(xs)| == |xs|
  {
    if xs != [] {
      var t := xs[1..];
      assert Distinct(t) by {
        forall i, j | 0 <= i < j < |t| ensures t[i] != t[j] {
          assert t[i] == xs[i + 1] && t[j] == xs[j + 1];
        }
      }
      DistinctCard(t);
      assert xs == [xs[0]] + t;
      assert Elements(xs) == {xs[0]} + Elements(t);
      assert xs[0] !in Elements(t);
    }
  }
}
