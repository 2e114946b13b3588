/**
 * The arithmetic of the SQL rollups, in exact integers: rates in
 * hundredths of a percent, durations in hundredths of a minute, and the
 * NULL-skipping AVG and MAX over nullable columns.
 */
module Measures {
  import opened Wrappers
  import opened Text

  /**
   * ROUND(num * 100.0 / NULLIF(den, 0), 2), in hundredths of a percent:
   * NULL for an empty group, at most 100.00 when num <= den, exactly
   * 100.00 when num == den and 0.00 when num == 0; otherwise the
   * quotient rounded to two decimals.
   */
  function Rate(num: nat, den: nat): (r: Option<nat>)
    ensures r.None? <==> den == 0
    ensures r.Some? ==> RoundsTo(num * 10000, den, r.value)
    ensures r.Some? && num <= den ==> r.value <= 10000
    ensures r.Some? && num == den ==> r.value == 10000
    ensures r.Some? && num == 0 ==> r.value == 0
  {
    if den == 0 then None
    else
      var v := RoundHalfUp(num * 10000, den);
      RateBounds(num, den, v);
      Some(v)
  }

  lemma RateBounds(num: nat, den: nat, v: nat)
    requires den > 0
    requires (2 * v - 1) * den <= 2 * (num * 10000) < (2 * v + 1) * den
    ensures num <= den ==> v <= 10000
    ensures num == den ==> v == 10000
    ensures num == 0 ==> v == 0
  {
    if num <= den && v > 10000 {
      MulMono(20001, 2 * v - 1, den);
    }
    if num == den && v < 10000 {
      MulMono(2 * v + 1, 19999, den);
    }
    if num == 0 && v > 0 {
      MulMono(1, 2 * v - 1, den);
    }
  }

  /** A larger numerator over the same group never gives a smaller rate. */
  lemma RateMonotone(a: nat, b: nat, den: nat)
    requires a <= b && den > 0
    ensures Rate(a, den).value <= Rate(b, den).value
  {
    var ra, rb := Rate(a, den).value, Rate(b, den).value;
    if ra > rb {
      MulMono(2 * rb + 1, 2 * ra - 1, den);
    }
  }

  /** CONCAT(ROUND(num * 100.0 / NULLIF(den, 0), 2), '%'); CONCAT with NULL is NULL. */
  function RateText(num: nat, den: nat): (r: Option<string>)
    ensures r.Some? <==> den > 0
    ensures r.Some? ==> ParseRate(r.value) == Rate(num, den)
  {
    match Rate(num, den)
    case None => None
    case Some(h) => PercentTextRoundTrip(h); Some(PercentText(h))
  }

  // ---------------------------------------------------------------------
  // Durations.

  /** The non-NULL values of a column, as AVG and MAX see them. */
  function NonNull<T(==,!new)>(s: seq<Option<T>>): (r: seq<T>)
    ensures |r| <= |s|
    ensures forall x :: x in r <==> Some(x) in s
    ensures r == [] <==> forall i :: 0 <= i < |s| ==> s[i].None?
  {
    if s == [] then []
    else
      var r := NonNull(s[..|s| - 1]);
      assert s == s[..|s| - 1] + [s[|s| - 1]];
      match s[|s| - 1]
      case Some(x) => r + [x]
      case None => r
  }

  /** Where at most one entry is non-NULL, AVG and MAX see at most one value. */
  lemma {:induction false} NonNullAtMostOne<T(!new)>(s: seq<Option<T>>)
    requires forall i, j :: 0 <= i < j < |s| ==> !(s[i].Some? && s[j].Some?)
    ensures |NonNull(s)| <= 1
  {
    if s != [] {
      var p := s[..|s| - 1];
      NonNullAtMostOne(p);
      if s[|s| - 1].Some? {
        assert forall i :: 0 <= i < |p| ==> p[i].None?;
      }
    }
  }

  function SumInts(s: seq<int>): int
  {
    if s == [] then 0 else SumInts(s[..|s| - 1]) + s[|s| - 1]
  }

  function MaxInts(s: seq<int>): (m: int)
    requires s != []
    ensures m in s
    ensures forall i :: 0 <= i < |s| ==> s[i] <= m
  {
    if |s| == 1 then s[0]
    else
      var p := s[..|s| - 1];
      var m := MaxInts(p);
      assert forall i :: 0 <= i < |p| ==> p[i] == s[i];
      if s[|s| - 1] > m then s[|s| - 1] else m
  }

  /**
   * ROUND(AVG(seconds) / 60, 2), in hundredths of a minute: NULL when no
   * value is, otherwise the mean of the non-NULL values rounded.
   */
  function AvgMinutes(s: seq<Option<int>>): (r: Option<int>)
    ensures r.None? <==> forall i :: 0 <= i < |s| ==> s[i].None?
    ensures r.Some? ==> RoundsTo(SumInts(NonNull(s)) * 100, |NonNull(s)| * 60, r.value)
  {
    var v := NonNull(s);
    if v == [] then None
    else
      Some(RoundHalfAway(SumInts(v) * 100, |v| * 60))
  }

  /**
   * ROUND(MAX(seconds) / 60, 2), in hundredths of a minute: NULL when no
   * value is, otherwise the largest non-NULL value rounded.
   */
  function MaxMinutes(s: seq<Option<int>>): (r: Option<int>)
    ensures r.None? <==> forall i :: 0 <= i < |s| ==> s[i].None?
    ensures r.Some? ==> RoundsTo(MaxInts(NonNull(s)) * 100, 60, r.value)
  {
    var v := NonNull(s);
    if v == [] then None
    else
      Some(RoundHalfAway(MaxInts(v) * 100, 60))
  }

  /** ROUND(seconds / 60, 2) of one value, in hundredths of a minute. */
  function Minutes(secs: Option<int>): (r: Option<int>)
    ensures r.Some? <==> secs.Some?
    ensures r.Some? ==> RoundsTo(secs.value * 100, 60, r.value)
    ensures r.Some? ==> (secs.value >= 0 <==> r.value >= 0) || r.value == 0
  {
    match secs
    case None => None
    case Some(x) => Some(RoundHalfAway(x * 100, 60))
  }

  lemma {:induction false} SumIntsAtMost(s: seq<int>, m: int)
    requires forall i :: 0 <= i < |s| ==> s[i] <= m
    ensures SumInts(s) <= |s| * m
  {
    if s != [] {
      SumIntsAtMost(s[..|s| - 1], m);
    }
  }

  /**
   * ROUND with halves away from zero is monotone in the exact value:
   * x1/d1 <= x2/d2 gives a rounded first value at most the second.
   */
  lemma RoundHalfAwayMonotone(x1: int, d1: nat, x2: int, d2: nat)
    requires d1 > 0 && d2 > 0
    requires x1 * d2 <= x2 * d1
    ensures RoundHalfAway(x1, d1) <= RoundHalfAway(x2, d2)
  {
    var r1, r2 := RoundHalfAway(x1, d1), RoundHalfAway(x2, d2);
    if r1 > r2 {
      // r1 bounds x1/d1 from below, r2 bounds x2/d2 from above, and they
      // meet at (2 * r2 + 1) / 2.
      var c := 2 * r2 + 1;
      MulMono(c, 2 * r1 - 1, d1);
      NoValueBetween(x1, d1, x2, d2, c);
    }
  }

  /** No x1/d1 <= x2/d2 has x2/d2 <= c/2 <= x1/d1 with either inequality strict. */
  lemma NoValueBetween(x1: int, d1: nat, x2: int, d2: nat, c: int)
    requires d1 > 0 && d2 > 0
    requires x1 * d2 <= x2 * d1
    ensures !(2 * x1 >= c * d1 && (x1 < 0 ==> 2 * x1 > c * d1)
              && 2 * x2 <= c * d2 && (x2 >= 0 ==> 2 * x2 < c * d2))
  {
    if 2 * x1 >= c * d1 && 2 * x2 <= c * d2 {
      MulMono(c * d1, 2 * x1, d2);
      MulMono(2 * x2, c * d2, d1);
      MulAssoc(c, d1, d2);
      Double(x1, d2);
      Double(x2, d1);
      if x2 >= 0 && 2 * x2 < c * d2 {
        MulStrict(2 * x2, c * d2, d1);
      } else if x2 < 0 {
        MulStrict(x2, 0, d1);
        if x1 < 0 && 2 * x1 > c * d1 {
          MulStrict(c * d1, 2 * x1, d2);
        } else if x1 >= 0 {
          MulMono(0, x1, d2);
        }
      }
    }
  }

  lemma MulAssoc(a: int, b: int, c: int)
    ensures (a * b) * c == (a * c) * b
  {
  }

  lemma Double(a: int, b: int)
    ensures (2 * a) * b == 2 * (a * b)
  {
  }

  lemma MulStrict(a: int, b: int, k: nat)
    requires a < b && k > 0
    ensures a * k < b * k
  {
  }

  /** The average duration of a group never exceeds its maximum. */
  lemma AvgAtMostMax(s: seq<Option<int>>)
    requires AvgMinutes(s).Some?
    ensures MaxMinutes(s).Some? && AvgMinutes(s).value <= MaxMinutes(s).value
  {
    var v := NonNull(s);
    var m, n, total := MaxInts(v), |v|, SumInts(v);
    SumIntsAtMost(v, m);
    assert (total * 100) * 60 <= (m * 100) * (n * 60) by {
      MulMono(total, n * m, 6000);
      Scale(m, n);
    }
    RoundHalfAwayMonotone(total * 100, n * 60, m * 100, 60);
  }

  lemma Scale(m: int, n: int)
    ensures (m * 100) * (n * 60) == (n * m) * 6000
  {
  }
}
