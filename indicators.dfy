/**
 * The two column indicators the strategies compute with pandas vector
 * operations: the cumulative volume-weighted average price and the
 * exponential moving average with `adjust=False`.
 */
module Indicators {
  import opened Floats
  import opened Series

  /** `(close * volume).cumsum() / volume.cumsum()` at bar i. */
  function VwapAt(c: seq<real>, v: seq<real>, i: nat): Float
    requires |c| == |v| && i < |c|
  {
    Quotient(Dot(c[..i + 1], v[..i + 1]), Sum(v[..i + 1]))
  }

  /** The VWAP column: one cumulative average per bar. */
  function Vwap(c: seq<real>, v: seq<real>): (r: seq<Float>)
    requires |c| == |v|
    ensures |r| == |c|
    ensures forall i :: 0 <= i < |r| ==> r[i] == Quotient(Dot(c[..i + 1], v[..i + 1]), Sum(v[..i + 1]))
  {
    seq(|c|, i requires 0 <= i < |c| => VwapAt(c, v, i))
  }

  /** With non-negative volumes and some volume traded, the VWAP lies within the closes seen so far. */
  lemma VwapBetween(c: seq<real>, v: seq<real>, i: nat)
    requires |c| == |v| && i < |c|
    requires forall j :: 0 <= j < |v| ==> v[j] >= 0.0
    requires Sum(v[..i + 1]) > 0.0
    ensures VwapAt(c, v, i).Finite?
    ensures Min(c[..i + 1]) <= VwapAt(c, v, i).v <= Max(c[..i + 1])
  {
    var cs, vs := c[..i + 1], v[..i + 1];
    assert forall j :: 0 <= j < |vs| ==> vs[j] == v[j];
    DotBounds(cs, vs, Min(cs), Max(cs));
    AverageWithin(Dot(cs, vs), Sum(vs), Min(cs), Max(cs));
  }

  /** A positive total spread over amounts between lo and hi averages between lo and hi. */
  lemma AverageWithin(turnover: real, total: real, lo: real, hi: real)
    requires total > 0.0 && lo * total <= turnover <= hi * total
    ensures Quotient(turnover, total).Finite?
    ensures lo <= Quotient(turnover, total).v <= hi
  {
    QuotientBetween(turnover, total, lo, hi);
  }

  /** A flat price gives a VWAP equal to that price. */
  lemma VwapOfFlatPrice(c: seq<real>, v: seq<real>, i: nat, p: real)
    requires |c| == |v| && i < |c|
    requires forall j :: 0 <= j < |v| ==> v[j] >= 0.0
    requires Sum(v[..i + 1]) > 0.0
    requires forall j :: 0 <= j < |c| ==> c[j] == p
    ensures VwapAt(c, v, i) == Finite(p)
  {
    VwapBetween(c, v, i);
    var cs := c[..i + 1];
    assert cs[0] == p;
    assert Min(cs) == p && Max(cs) == p;
  }

  /** Before any volume is traded the VWAP is 0 / 0, a NaN. */
  lemma VwapWithoutVolume(c: seq<real>, v: seq<real>, i: nat)
    requires |c| == |v| && i < |c|
    requires forall j :: 0 <= j <= i ==> v[j] == 0.0
    ensures VwapAt(c, v, i) == NaN
  {
    ZeroVolume(c[..i + 1], v[..i + 1]);
  }

  lemma {:induction false} ZeroVolume(c: seq<real>, v: seq<real>)
    requires |c| == |v|
    requires forall j :: 0 <= j < |v| ==> v[j] == 0.0
    ensures Sum(v) == 0.0 && Dot(c, v) == 0.0
  {
    if |v| > 0 {
      var n := |v| - 1;
      assert forall j :: 0 <= j < n ==> v[..n][j] == v[j];
      ZeroVolume(c[..n], v[..n]);
    }
  }

  /** The smoothing factor for a span: 2 / (span + 1). */
  function Alpha(span: real): (a: real)
    requires span >= 1.0
    ensures 0.0 < a <= 1.0
  {
    2.0 / (span + 1.0)
  }

  /** `ewm(alpha=a, adjust=False).mean()` at bar i: seeded with x[0]. */
  function EmaAt(x: seq<real>, a: real, i: nat): real
    requires i < |x|
  {
    if i == 0 then x[0] else a * x[i] + (1.0 - a) * EmaAt(x, a, i - 1)
  }

  /** The EMA column `ewm(span=span, adjust=False).mean()`. */
  function Ema(x: seq<real>, span: real): (r: seq<real>)
    requires span >= 1.0
    ensures |r| == |x|
    ensures |x| > 0 ==> r[0] == x[0]
    ensures forall i :: 0 < i < |x| ==> r[i] == Alpha(span) * x[i] + (1.0 - Alpha(span)) * r[i - 1]
  {
    seq(|x|, i requires 0 <= i < |x| => EmaAt(x, Alpha(span), i))
  }

  /** An EMA value is a weighted average: bounded by any bounds of the values seen so far. */
  lemma {:induction false} EmaBounded(x: seq<real>, a: real, i: nat, lo: real, hi: real)
    requires i < |x| && 0.0 < a <= 1.0
    requires forall j :: 0 <= j <= i ==> lo <= x[j] <= hi
    ensures lo <= EmaAt(x, a, i) <= hi
  {
    if i > 0 {
      EmaBounded(x, a, i - 1, lo, hi);
      Blend(x[i], EmaAt(x, a, i - 1), a, lo, hi);
    }
  }

  /** A convex combination of two values in [lo, hi] stays in [lo, hi]. */
  lemma Blend(p: real, q: real, a: real, lo: real, hi: real)
    requires lo <= p <= hi && lo <= q <= hi && 0.0 <= a <= 1.0
    ensures lo <= a * p + (1.0 - a) * q <= hi
  {
    var b := 1.0 - a;
    Product(a, p - lo);
    Product(b, q - lo);
    Product(a, hi - p);
    Product(b, hi - q);
    assert a * p + b * q - lo == a * (p - lo) + b * (q - lo);
    assert hi - (a * p + b * q) == a * (hi - p) + b * (hi - q);
  }

  lemma Product(x: real, y: real)
    requires x >= 0.0 && y >= 0.0
    ensures x * y >= 0.0
  {
  }

  /** Each EMA value lies between the smallest and the largest close seen so far. */
  lemma EmaBetween(x: seq<real>, span: real, i: nat)
    requires span >= 1.0 && i < |x|
    ensures Min(x[..i + 1]) <= Ema(x, span)[i] <= Max(x[..i + 1])
  {
    var seen := x[..i + 1];
    assert forall j :: 0 <= j <= i ==> seen[j] == x[j];
    EmaBounded(x, Alpha(span), i, Min(seen), Max(seen));
  }

  /** span 2 gives a = 2/3: 10, then 2/3 * 11 + 1/3 * 10, then 2/3 * 12 + 1/3 * 32/3. */
  lemma EmaExample()
    ensures Ema([10.0, 11.0, 12.0], 2.0) == [10.0, 32.0 / 3.0, 104.0 / 9.0]
  {
    var x := [10.0, 11.0, 12.0];
    assert Alpha(2.0) == 2.0 / 3.0;
    assert EmaAt(x, 2.0 / 3.0, 1) == 32.0 / 3.0;
    assert EmaAt(x, 2.0 / 3.0, 2) == 104.0 / 9.0;
  }

  /** The EMA column as stored in the frame. */
  function EmaColumn(x: seq<real>, span: real): (r: seq<Float>)
    requires span >= 1.0
    ensures |r| == |x| && forall i :: 0 <= i < |x| ==> r[i] == Finite(Ema(x, span)[i])
  {
    var e := Ema(x, span);
    seq(|x|, i requires 0 <= i < |x| => Finite(e[i]))
  }
}
