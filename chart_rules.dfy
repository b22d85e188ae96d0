/**
 * The seventeen chart-pattern predicates over the close column of a price
 * frame. Each reads the tail of the series through negative-index slices
 * (`Tail(c, k)` is `c[-k:]`, `Window(c, a, b)` is `c[-a:-b]`) and compares
 * means, extremes and percent changes. A series shorter than the deepest
 * index a rule touches is excluded by its precondition.
 *
 * Most rules end with a "breakout" test that compares the last close with the
 * extreme of a window that contains that very close; such a rule can never
 * hold, and its contract says so.
 */
module ChartRules {
  import opened Floats
  import opened Series

  // ------------------------------------------------------------- helpers

  /** The last close lies inside the range of every tail that contains it. */
  lemma LastWithinTail(c: seq<real>, k: nat)
    requires 1 <= k <= |c|
    ensures Min(Tail(c, k)) <= Last(c) <= Max(Tail(c, k))
  {
    assert Tail(c, k)[k - 1] == Last(c);
  }

  /** Python's built-in min of two floats. */
  function Lesser(a: real, b: real): (m: real)
    ensures m <= a && m <= b && (m == a || m == b)
  {
    if b < a then b else a
  }

  /** Python's built-in max of two floats. */
  function Greater(a: real, b: real): (m: real)
    ensures m >= a && m >= b && (m == a || m == b)
  {
    if b > a then b else a
  }

  /** `all(c[i] > c[i-1] for i in range(lo, hi))`, indices written from the front. */
  predicate Rising(c: seq<real>, lo: nat, hi: nat)
    requires 1 <= lo <= hi <= |c|
  {
    forall i :: lo <= i < hi ==> c[i] > c[i - 1]
  }

  /** `all(c[i] < c[i-1] for i in range(lo, hi))`. */
  predicate Falling(c: seq<real>, lo: nat, hi: nat)
    requires 1 <= lo <= hi <= |c|
  {
    forall i :: lo <= i < hi ==> c[i] < c[i - 1]
  }

  /** Series.pct_change(): entry 0 is missing, entry k is c[k] / c[k-1] - 1. */
  function PctChange(s: seq<real>): (r: seq<Float>)
    ensures |r| == |s|
    ensures |s| > 0 ==> r[0] == NaN
  {
    seq(|s|, k requires 0 <= k < |s| => PctChangeAt(s, k))
  }

  /** Entry k of `pct_change()`. */
  function PctChangeAt(s: seq<real>, k: nat): Float
    requires k < |s|
  {
    if k == 0 then NaN else Plus(Quotient(s[k], s[k - 1]), Finite(-1.0))
  }

  /** The relative change (a - b) / b from a close b to the next close a. */
  function RelChange(a: real, b: real): real {
    if b == 0.0 then 0.0 else (a - b) / b
  }

  /** The sum of the successive relative changes (s[k] - s[k-1]) / s[k-1]. */
  function RelativeChangeSum(s: seq<real>): real {
    if |s| <= 1 then 0.0
    else RelativeChangeSum(s[..|s| - 1]) + RelChange(s[|s| - 1], s[|s| - 2])
  }

  /** `s.pct_change().sum() > 0.1`: the missing first change is skipped. */
  predicate Flagpole(s: seq<real>) {
    Gt(NanSum(PctChange(s)), Finite(0.1))
  }

  /** `s.pct_change().sum() < -0.1`. */
  predicate DownPole(s: seq<real>) {
    Lt(NanSum(PctChange(s)), Finite(-0.1))
  }

  /** For a nonzero previous close, pandas' ratio minus one is the relative change. */
  lemma RelativeChange(a: real, b: real)
    requires b != 0.0
    ensures Plus(Quotient(a, b), Finite(-1.0)) == Finite(RelChange(a, b))
  {
    assert (a - b) / b == a / b - b / b;
  }

  /** Extending a series by one close extends its percent changes by one entry. */
  lemma PctChangeSnoc(s: seq<real>)
    requires |s| >= 2 && s[|s| - 2] != 0.0
    ensures PctChange(s)[..|s| - 1] == PctChange(s[..|s| - 1])
    ensures PctChange(s)[|s| - 1] == Finite(RelChange(s[|s| - 1], s[|s| - 2]))
  {
    var n := |s| - 1;
    var p, q := PctChange(s)[..n], PctChange(s[..n]);
    forall k | 0 <= k < n
      ensures p[k] == q[k]
    {
      PctChangeAtPrefix(s, n, k);
    }
    RelativeChange(s[n], s[n - 1]);
  }

  /** A percent change depends only on the closes up to it. */
  lemma PctChangeAtPrefix(s: seq<real>, n: nat, k: nat)
    requires k < n <= |s|
    ensures PctChangeAt(s[..n], k) == PctChangeAt(s, k)
  {
    if k > 0 {
      assert s[..n][k] == s[k] && s[..n][k - 1] == s[k - 1];
    }
  }

  /** With no zero price, the percent-change sum is the sum of the relative changes. */
  lemma {:induction false} PctChangeSum(s: seq<real>)
    requires forall k :: 0 <= k < |s| ==> s[k] != 0.0
    ensures NanSum(PctChange(s)) == Finite(RelativeChangeSum(s))
  {
    if |s| >= 2 {
      var n := |s| - 1;
      var prefix := s[..n];
      assert forall k :: 0 <= k < n ==> prefix[k] == s[k];
      PctChangeSum(prefix);
      PctChangeSnoc(s);
      NanSumSnoc(PctChange(s), RelativeChangeSum(prefix), RelChange(s[n], s[n - 1]));
    } else if |s| == 1 {
      assert PctChange(s)[..0] == [];
    }
  }

  lemma NanSumSnoc(p: seq<Float>, total: real, x: real)
    requires |p| > 0 && NanSum(p[..|p| - 1]) == Finite(total) && p[|p| - 1] == Finite(x)
    ensures NanSum(p) == Finite(total + x)
  {
  }

  /** The flagpole of a ten-bar window is the sum of its nine relative changes. */
  lemma FlagpoleIsRelativeChangeSum(s: seq<real>)
    requires forall k :: 0 <= k < |s| ==> s[k] != 0.0
    ensures Flagpole(s) <==> RelativeChangeSum(s) > 0.1
    ensures DownPole(s) <==> RelativeChangeSum(s) < -0.1
  {
    PctChangeSum(s);
  }

  /** `len([p for p in s if abs(p - level) < 0.01 * level])` */
  function NearCount(s: seq<real>, level: real): (n: nat)
    ensures n > 0 <==> exists k :: 0 <= k < |s| && Abs(s[k] - level) < 0.01 * level
    ensures level <= 0.0 ==> n == 0
  {
    if |s| == 0 then 0
    else NearCount(s[..|s| - 1], level) + (if Abs(s[|s| - 1] - level) < 0.01 * level then 1 else 0)
  }

  /** The positions of the closes within 1% of the level. */
  function Touches(s: seq<real>, level: real): set<nat> {
    set k: nat | k < |s| && Abs(s[k] - level) < 0.01 * level
  }

  /** The count is the number of closes within 1% of the level, so `touches >= 3` means three such closes. */
  lemma {:induction false} NearCountIsTouches(s: seq<real>, level: real)
    ensures NearCount(s, level) == |Touches(s, level)|
  {
    if |s| > 0 {
      var n := |s| - 1;
      NearCountIsTouches(s[..n], level);
      var before := Touches(s[..n], level);
      assert n !in before;
      if Abs(s[n] - level) < 0.01 * level {
        assert Touches(s, level) == before + {n};
      } else {
        assert Touches(s, level) == before;
      }
    }
  }

  // --------------------------------------------------------------- flags

  function BullFlag(c: seq<real>): (r: bool)
    requires |c| >= 10
    ensures !r
  {
    var flagpole := Flagpole(Tail(c, 10));
    var consolidation := Mean(Tail(c, 5)) < Mean(Window(c, 10, 5));
    var breakout := Last(c) > Max(Tail(c, 5));
    LastWithinTail(c, 5);
    flagpole && consolidation && breakout
  }

  function BearFlag(c: seq<real>): (r: bool)
    requires |c| >= 10
    ensures !r
  {
    var flagpole := DownPole(Tail(c, 10));
    var consolidation := Mean(Tail(c, 5)) > Mean(Window(c, 10, 5));
    var breakout := Last(c) < Min(Tail(c, 5));
    LastWithinTail(c, 5);
    flagpole && consolidation && breakout
  }

  // --------------------------------------------------- double top/bottom

  function DoubleTop(c: seq<real>): (r: bool)
    requires |c| >= 10
    ensures r <==> var first := Window(c, 10, 5);
      0.99 * Max(first) < Max(Tail(c, 5)) < 1.01 * Max(first) &&
      forall i :: 0 <= i < 5 ==> Last(c) < first[i]
    ensures r ==> Max(Window(c, 10, 5)) > 0.0
  {
    var resistance := Max(Window(c, 10, 5));
    var secondPeak := Max(Tail(c, 5));
    var neckline := Min(Window(c, 10, 5));
    Abs(resistance - secondPeak) < 0.01 * resistance && Last(c) < neckline
  }

  function DoubleBottom(c: seq<real>): (r: bool)
    requires |c| >= 10
    ensures r <==> var first := Window(c, 10, 5);
      0.99 * Min(first) < Min(Tail(c, 5)) < 1.01 * Min(first) &&
      forall i :: 0 <= i < 5 ==> Last(c) > first[i]
    ensures r ==> Min(Window(c, 10, 5)) > 0.0
  {
    var support := Min(Window(c, 10, 5));
    var secondTrough := Min(Tail(c, 5));
    var neckline := Max(Window(c, 10, 5));
    Abs(support - secondTrough) < 0.01 * support && Last(c) > neckline
  }

  /** A close below the first window's low cannot also be above its high. */
  lemma DoubleTopBottomExclusive(c: seq<real>)
    requires |c| >= 10
    ensures !(DoubleTop(c) && DoubleBottom(c))
  {
    var first := Window(c, 10, 5);
    assert Min(first) <= first[0] <= Max(first);
  }

  /** A flat run followed by one lower close is a double top. */
  lemma DoubleTopExample()
    ensures DoubleTop([10.0, 10.0, 10.0, 10.0, 10.0, 10.0, 10.0, 10.0, 10.0, 9.0])
  {
    var c := [10.0, 10.0, 10.0, 10.0, 10.0, 10.0, 10.0, 10.0, 10.0, 9.0];
    FlatExtremes(Window(c, 10, 5), 10.0);
    assert Tail(c, 5)[0] == 10.0 && Tail(c, 5)[4] == 9.0;
  }

  /** A flat run followed by one higher close is a double bottom. */
  lemma DoubleBottomExample()
    ensures DoubleBottom([10.0, 10.0, 10.0, 10.0, 10.0, 10.0, 10.0, 10.0, 10.0, 11.0])
  {
    var c := [10.0, 10.0, 10.0, 10.0, 10.0, 10.0, 10.0, 10.0, 10.0, 11.0];
    FlatExtremes(Window(c, 10, 5), 10.0);
    assert Tail(c, 5)[0] == 10.0 && Tail(c, 5)[4] == 11.0;
  }

  /** A flat window has its one value as maximum and minimum. */
  lemma FlatExtremes(t: seq<real>, x: real)
    requires |t| > 0 && forall i :: 0 <= i < |t| ==> t[i] == x
    ensures Max(t) == x && Min(t) == x
  {
  }

  // --------------------------------------------------- head and shoulders

  function HeadAndShoulders(c: seq<real>): (r: bool)
    requires |c| >= 15
    ensures !r
  {
    var leftShoulder := Max(Window(c, 15, 10));
    var head := Max(Window(c, 10, 5));
    var rightShoulder := Max(Tail(c, 5));
    var neckline := Lesser(Min(Window(c, 15, 10)), Min(Tail(c, 5)));
    LastWithinTail(c, 5);
    head > leftShoulder && head > rightShoulder && Last(c) < neckline
  }

  function InverseHeadAndShoulders(c: seq<real>): (r: bool)
    requires |c| >= 15
    ensures !r
  {
    var leftShoulder := Min(Window(c, 15, 10));
    var head := Min(Window(c, 10, 5));
    var rightShoulder := Min(Tail(c, 5));
    var neckline := Greater(Max(Window(c, 15, 10)), Max(Tail(c, 5)));
    LastWithinTail(c, 5);
    head < leftShoulder && head < rightShoulder && Last(c) > neckline
  }

  // ------------------------------------------------------ cup and bottoms

  function CupAndHandle(c: seq<real>): (r: bool)
    requires |c| >= 20
    ensures !r
  {
    var cup := Min(Window(c, 20, 10)) < Mean(Window(c, 20, 10));
    var handle := Mean(Tail(c, 10)) < Mean(Window(c, 20, 10));
    var breakout := Last(c) > Max(Tail(c, 10));
    LastWithinTail(c, 10);
    cup && handle && breakout
  }

  function RoundedBottom(c: seq<real>): (r: bool)
    requires |c| >= 20
    ensures !r
  {
    var downtrend := Mean(Window(c, 20, 10)) > Mean(Tail(c, 10));
    var breakout := Last(c) > Max(Tail(c, 10));
    LastWithinTail(c, 10);
    downtrend && breakout
  }

  // ---------------------------------------------------------- triangles

  function AscendingTriangle(c: seq<real>): (r: bool)
    requires |c| >= 11
    ensures !r
  {
    var n := |c|;
    var resistance := Max(Tail(c, 10));
    var higherLows := Rising(c, n - 10, n - 1);
    var breakout := Last(c) > resistance;
    LastWithinTail(c, 10);
    higherLows && breakout
  }

  function DescendingTriangle(c: seq<real>): (r: bool)
    requires |c| >= 11
    ensures !r
  {
    var n := |c|;
    var support := Min(Tail(c, 10));
    var lowerHighs := Falling(c, n - 10, n - 1);
    var breakout := Last(c) < support;
    LastWithinTail(c, 10);
    lowerHighs && breakout
  }

  function SymmetricalTriangle(c: seq<real>): (r: bool)
    requires |c| >= 11
    ensures !r
  {
    var n := |c|;
    var lowerHighs := Falling(c, n - 10, n - 5);
    var higherLows := Rising(c, n - 5, n - 1);
    var breakout := Last(c) > Max(Tail(c, 5)) || Last(c) < Min(Tail(c, 5));
    LastWithinTail(c, 5);
    lowerHighs && higherLows && breakout
  }

  function RisingWedge(c: seq<real>): (r: bool)
    requires |c| >= 11
    ensures !r
  {
    var n := |c|;
    var higherHighs := Rising(c, n - 10, n - 5);
    var higherLows := Rising(c, n - 5, n - 1);
    var breakout := Last(c) < Min(Tail(c, 5));
    LastWithinTail(c, 5);
    higherHighs && higherLows && breakout
  }

  function FallingWedge(c: seq<real>): (r: bool)
    requires |c| >= 11
    ensures !r
  {
    var n := |c|;
    var lowerHighs := Falling(c, n - 10, n - 5);
    var lowerLows := Falling(c, n - 5, n - 1);
    var breakout := Last(c) > Max(Tail(c, 5));
    LastWithinTail(c, 5);
    lowerHighs && lowerLows && breakout
  }

  // ------------------------------------------- rectangle, pennant, triples

  function RectanglePattern(c: seq<real>): (r: bool)
    requires |c| >= 10
    ensures !r
  {
    var support := Min(Tail(c, 10));
    var resistance := Max(Tail(c, 10));
    LastWithinTail(c, 10);
    Last(c) > resistance || Last(c) < support
  }

  /** The volume argument is accepted and not read. */
  function Pennant(c: seq<real>, volume: seq<real>): (r: bool)
    requires |c| >= 20
    ensures !r
  {
    var flagpole := Flagpole(Window(c, 20, 10));
    var consolidation := Variance(Tail(c, 10)) < Variance(Window(c, 20, 10));
    var breakout := Last(c) > Max(Tail(c, 10));
    LastWithinTail(c, 10);
    flagpole && consolidation && breakout
  }

  function TripleTop(c: seq<real>): (r: bool)
    requires |c| >= 15
    ensures !r
  {
    var resistance := Max(Tail(c, 15));
    var neckline := Min(Tail(c, 15));
    var touches := NearCount(Tail(c, 15), resistance);
    LastWithinTail(c, 15);
    Last(c) < neckline && touches >= 3
  }

  function TripleBottom(c: seq<real>): (r: bool)
    requires |c| >= 15
    ensures !r
  {
    var support := Min(Tail(c, 15));
    var neckline := Max(Tail(c, 15));
    var touches := NearCount(Tail(c, 15), support);
    LastWithinTail(c, 15);
    Last(c) > neckline && touches >= 3
  }
}
