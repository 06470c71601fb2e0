/**
 * `Series.quantile(0.90)` with pandas' default linear interpolation, over
 * the values that are present: sort them, take the position
 * 0.9 * (n - 1), and interpolate between the two neighbouring values.
 * Amounts are whole cents, so the sorted values are integers and the
 * quantile is an exact rational.
 */
module Quantiles {
  predicate SortedAsc(s: seq<int>)
  {
    forall i, j :: 0 <= i < j < |s| ==> s[i] <= s[j]
  }

  function Insert(x: int, s: seq<int>): (r: seq<int>)
    requires SortedAsc(s)
    ensures SortedAsc(r) && multiset(r) == multiset(s) + multiset{x}
    ensures |r| == |s| + 1 && (r[0] == x || (s != [] && r[0] == s[0]))
  {
    if s == [] then [x]
    else if x <= s[0] then [x] + s
    else
      assert s == [s[0]] + s[1..];
      [s[0]] + Insert(x, s[1..])
  }

  /** The values in ascending order. */
  function Sort(s: seq<int>): (r: seq<int>)
    ensures SortedAsc(r) && multiset(r) == multiset(s)
  {
    if s == [] then []
    else
      assert s == [s[0]] + s[1..];
      Insert(s[0], Sort(s[1..]))
  }

  /**
   * `quantile(0.90)`: the sorted values interpolated at position
   * 0.9 * (n - 1), whose whole part is `j` and whose fraction is
   * `rem` tenths.
   */
  function Quantile90(vals: seq<int>): real
    requires |vals| > 0
  {
    var v := Sort(vals);
    var j := 9 * (|v| - 1) / 10;
    var rem := 9 * (|v| - 1) % 10;
    if j + 1 < |v| then Lerp(v[j], v[j + 1], rem) else v[j] as real
  }

  /** Linear interpolation `tenths` tenths of the way from `a` to `b`. */
  function Lerp(a: int, b: int, tenths: int): real
  {
    a as real + (tenths as real / 10.0) * (b - a) as real
  }

  lemma LerpBounds(a: int, b: int, tenths: int)
    requires a <= b && 0 <= tenths <= 10
    ensures a as real <= Lerp(a, b, tenths) <= b as real
  {
    var f := tenths as real / 10.0;
    var d := (b - a) as real;
    assert 0.0 <= f * d;
    assert f * d <= d by {
      assert (1.0 - f) * d >= 0.0;
    }
  }

  /** A value of a permutation of `vals` is a value of `vals`. */
  lemma PermutedValue(vals: seq<int>, v: seq<int>, k: nat) returns (i: nat)
    requires multiset(v) == multiset(vals) && k < |v|
    ensures i < |vals| && vals[i] == v[k]
  {
    assert v[k] in multiset(vals);
    i :| 0 <= i < |vals| && vals[i] == v[k];
  }

  /**
   * The quantile lies between two neighbouring sorted values: the one at
   * the whole part of 0.9 * (n - 1) and the next, or that one alone when
   * it is the last.
   */
  lemma QuantileBetween(vals: seq<int>) returns (lo: nat, hi: nat)
    requires |vals| > 0
    ensures lo == 9 * (|vals| - 1) / 10 && hi == (if lo + 1 < |vals| then lo + 1 else lo)
    ensures var v := Sort(vals);
            lo < |v| && hi < |v| && v[lo] as real <= Quantile90(vals) <= v[hi] as real
  {
    var v := Sort(vals);
    assert |v| == |vals| by {
      assert |multiset(v)| == |multiset(vals)|;
    }
    var j := 9 * (|v| - 1) / 10;
    var rem := 9 * (|v| - 1) % 10;
    assert j < |v| && 0 <= rem <= 10;
    if j + 1 < |v| {
      assert Quantile90(vals) == Lerp(v[j], v[j + 1], rem);
      LerpBounds(v[j], v[j + 1], rem);
      lo, hi := j, j + 1;
    } else {
      assert Quantile90(vals) == v[j] as real;
      lo, hi := j, j;
    }
  }

  /**
   * The quantile lies between the smallest and the largest value: some
   * value is at or below it and some value at or above it.
   */
  lemma QuantileBounds(vals: seq<int>)
    requires |vals| > 0
    ensures exists i :: 0 <= i < |vals| && vals[i] as real <= Quantile90(vals)
    ensures exists i :: 0 <= i < |vals| && Quantile90(vals) <= vals[i] as real
  {
    var lo, hi := QuantileBetween(vals);
    var il := PermutedValue(vals, Sort(vals), lo);
    var ih := PermutedValue(vals, Sort(vals), hi);
  }

  /** Some value is at or above the quantile. */
  lemma QuantileReached(vals: seq<int>) returns (i: nat)
    requires |vals| > 0
    ensures i < |vals| && Quantile90(vals) <= vals[i] as real
  {
    var lo, hi := QuantileBetween(vals);
    i := PermutedValue(vals, Sort(vals), hi);
  }

  /** The quantile of the values is at most their maximum. */
  lemma QuantileAtMostMax(vals: seq<int>, m: int)
    requires |vals| > 0
    requires forall i :: 0 <= i < |vals| ==> vals[i] <= m
    ensures Quantile90(vals) <= m as real
  {
    QuantileBounds(vals);
  }
}
