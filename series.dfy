/**
 * Slices and aggregates over one numeric column of a price series (closes,
 * highs, lows or volumes), as exact reals. Python's negative-index slices are
 * written out: `Tail(s, k)` is `s[-k:]`, `Window(s, a, b)` is `s[-a:-b]`.
 */
module Series {

  function Abs(x: real): (r: real)
    ensures r >= 0.0 && (r == x || r == -x)
  {
    if x < 0.0 then -x else x
  }

  /** s[-1] */
  function Last(s: seq<real>): real
    requires |s| > 0
  {
    s[|s| - 1]
  }

  /** s[-k:] on a series of at least k values. */
  function Tail(s: seq<real>, k: nat): (t: seq<real>)
    requires k <= |s|
    ensures |t| == k
  {
    s[|s| - k..]
  }

  /** s[-start:-stop] on a series of at least `start` values. */
  function Window(s: seq<real>, start: nat, stop: nat): (w: seq<real>)
    requires 0 < stop <= start <= |s|
    ensures |w| == start - stop
  {
    s[|s| - start..|s| - stop]
  }

  /** DataFrame.tail(n): the last n values, or all of them when there are fewer. */
  function Recent(s: seq<real>, n: nat): (t: seq<real>)
    ensures |t| == if |s| <= n then |s| else n
    ensures t == s[|s| - |t|..]
  {
    if |s| <= n then s else s[|s| - n..]
  }

  /** The largest value of a non-empty series. */
  function Max(s: seq<real>): (m: real)
    requires |s| > 0
    ensures m in s
    ensures forall i :: 0 <= i < |s| ==> s[i] <= m
  {
    if |s| == 1 then s[0]
    else
      var m' := Max(s[..|s| - 1]);
      assert forall i :: 0 <= i < |s| - 1 ==> s[i] == s[..|s| - 1][i];
      if s[|s| - 1] > m' then s[|s| - 1] else m'
  }

  /** The smallest value of a non-empty series. */
  function Min(s: seq<real>): (m: real)
    requires |s| > 0
    ensures m in s
    ensures forall i :: 0 <= i < |s| ==> m <= s[i]
  {
    if |s| == 1 then s[0]
    else
      var m' := Min(s[..|s| - 1]);
      assert forall i :: 0 <= i < |s| - 1 ==> s[i] == s[..|s| - 1][i];
      if s[|s| - 1] < m' then s[|s| - 1] else m'
  }

  function Sum(s: seq<real>): real
  {
    if |s| == 0 then 0.0 else Sum(s[..|s| - 1]) + s[|s| - 1]
  }

  /** The arithmetic mean of a non-empty series. */
  function Mean(s: seq<real>): real
    requires |s| > 0
  {
    Sum(s) / |s| as real
  }

  /** Sum of a[k] * b[k]: the turnover of closes a traded at volumes b. */
  function Dot(a: seq<real>, b: seq<real>): real
    requires |a| == |b|
  {
    if |a| == 0 then 0.0 else Dot(a[..|a| - 1], b[..|b| - 1]) + a[|a| - 1] * b[|b| - 1]
  }

  /** Sum of the squared deviations of s from mu. */
  function SquaredDeviations(s: seq<real>, mu: real): (d: real)
    ensures d >= 0.0
  {
    if |s| == 0 then 0.0
    else
      var x := s[|s| - 1] - mu;
      assert x * x >= 0.0;
      SquaredDeviations(s[..|s| - 1], mu) + x * x
  }

  /** The sample variance (ddof = 1), the square of pandas' std(). */
  function Variance(s: seq<real>): (v: real)
    requires |s| >= 2
    ensures v >= 0.0
  {
    SquaredDeviations(s, Mean(s)) / (|s| - 1) as real
  }

  /** The number of entries of s equal to x, Python's `(s == x).sum()`. */
  function Occurrences(s: seq<real>, x: real): nat
  {
    if |s| == 0 then 0 else Occurrences(s[..|s| - 1], x) + (if s[|s| - 1] == x then 1 else 0)
  }

  /** The positions at which s holds x. */
  function Positions(s: seq<real>, x: real): set<nat>
  {
    set i: nat | i < |s| && s[i] == x
  }

  /** Counting equal entries is counting the distinct positions that hold the value. */
  lemma {:induction false} OccurrencesArePositions(s: seq<real>, x: real)
    ensures Occurrences(s, x) == |Positions(s, x)|
  {
    if |s| > 0 {
      var n := |s| - 1;
      OccurrencesArePositions(s[..n], x);
      var before := Positions(s[..n], x);
      assert n !in before;
      if s[n] == x {
        assert Positions(s, x) == before + {n};
      } else {
        assert Positions(s, x) == before;
      }
    }
  }

  /** Every value of a bounded series bounds its sum accordingly. */
  lemma {:induction false} SumBounds(s: seq<real>, lo: real, hi: real)
    requires forall i :: 0 <= i < |s| ==> lo <= s[i] <= hi
    ensures |s| as real * lo <= Sum(s) <= |s| as real * hi
  {
    if |s| > 0 {
      var n := |s| - 1;
      assert forall i :: 0 <= i < n ==> s[..n][i] == s[i];
      SumBounds(s[..n], lo, hi);
      assert |s| as real * lo == n as real * lo + lo;
      assert |s| as real * hi == n as real * hi + hi;
    }
  }

  /** The mean lies between the smallest and the largest value. */
  lemma MeanBetween(s: seq<real>)
    requires |s| > 0
    ensures Min(s) <= Mean(s) <= Max(s)
  {
    var lo, hi := Min(s), Max(s);
    SumBounds(s, lo, hi);
    MeanOfBoundedSum(s, lo, hi);
  }

  lemma MeanOfBoundedSum(s: seq<real>, lo: real, hi: real)
    requires |s| > 0
    requires |s| as real * lo <= Sum(s) <= |s| as real * hi
    ensures lo <= Mean(s) <= hi
  {
    QuotientBetween(Sum(s), |s| as real, lo, hi);
  }

  lemma QuotientBetween(x: real, n: real, lo: real, hi: real)
    requires n > 0.0 && n * lo <= x <= n * hi
    ensures lo <= x / n <= hi
  {
    var q := x / n;
    assert q * n == x;
  }

  lemma Distribute(k: real, x: real, y: real)
    ensures k * (x + y) == k * x + k * y
  {
  }

  /** With non-negative weights, the turnover is bounded by the extreme prices. */
  lemma DotBounds(a: seq<real>, b: seq<real>, lo: real, hi: real)
    requires |a| == |b|
    requires forall i :: 0 <= i < |a| ==> lo <= a[i] <= hi
    requires forall i :: 0 <= i < |b| ==> b[i] >= 0.0
    ensures lo * Sum(b) <= Dot(a, b) <= hi * Sum(b)
  {
    DotAbove(a, b, lo);
    DotBelow(a, b, hi);
  }

  lemma {:induction false} DotAbove(a: seq<real>, b: seq<real>, lo: real)
    requires |a| == |b|
    requires forall i :: 0 <= i < |a| ==> lo <= a[i]
    requires forall i :: 0 <= i < |b| ==> b[i] >= 0.0
    ensures lo * Sum(b) <= Dot(a, b)
  {
    if |a| > 0 {
      var n := |a| - 1;
      var a', b' := a[..n], b[..n];
      assert forall i :: 0 <= i < n ==> a'[i] == a[i];
      assert forall i :: 0 <= i < n ==> b'[i] == b[i];
      DotAbove(a', b', lo);
      StepAbove(lo, Sum(b'), Dot(a', b'), a[n], b[n], Sum(b), Dot(a, b));
    }
  }

  lemma {:induction false} DotBelow(a: seq<real>, b: seq<real>, hi: real)
    requires |a| == |b|
    requires forall i :: 0 <= i < |a| ==> a[i] <= hi
    requires forall i :: 0 <= i < |b| ==> b[i] >= 0.0
    ensures Dot(a, b) <= hi * Sum(b)
  {
    if |a| > 0 {
      var n := |a| - 1;
      var a', b' := a[..n], b[..n];
      assert forall i :: 0 <= i < n ==> a'[i] == a[i];
      assert forall i :: 0 <= i < n ==> b'[i] == b[i];
      DotBelow(a', b', hi);
      StepBelow(hi, Sum(b'), Dot(a', b'), a[n], b[n], Sum(b), Dot(a, b));
    }
  }

  /** One more trade at a price of at least lo keeps the turnover at least lo times the volume. */
  lemma StepAbove(lo: real, total: real, turnover: real, x: real, w: real, total': real, turnover': real)
    requires lo * total <= turnover && lo <= x && w >= 0.0
    requires total' == total + w && turnover' == turnover + x * w
    ensures lo * total' <= turnover'
  {
    assert (x - lo) * w >= 0.0;
    Distribute(lo, total, w);
  }

  /** One more trade at a price of at most hi keeps the turnover at most hi times the volume. */
  lemma StepBelow(hi: real, total: real, turnover: real, x: real, w: real, total': real, turnover': real)
    requires turnover <= hi * total && x <= hi && w >= 0.0
    requires total' == total + w && turnover' == turnover + x * w
    ensures turnover' <= hi * total'
  {
    assert (hi - x) * w >= 0.0;
    Distribute(hi, total, w);
  }
}
