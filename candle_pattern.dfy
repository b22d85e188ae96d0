/**
 * The `CandlePattern.detect_*` methods: each takes the last 30, 40 or 60
 * bars of the close column (`DataFrame.tail`), computes pandas aggregates
 * (rolling-10 max/min, sample std, NaN-skipping max/min, an equality count)
 * and reports a fixed pattern name with the status "Detected" or
 * "Not Detected". The downloaded frame is the parameter `close`.
 */
module CandlePattern {
  import opened Floats
  import opened Series
  import opened Rolling

  datatype Status = Detected | NotDetected

  /** The status string of the returned dictionary. */
  function StatusText(s: Status): (t: string)
    ensures t == "Detected" <==> s == Detected
    ensures t == "Not Detected" <==> s == NotDetected
  {
    match s
    case Detected => "Detected"
    case NotDetected => "Not Detected"
  }

  /** The dictionary `{"pattern": ..., "status": ...}`. */
  datatype Report = Report(pattern: string, status: Status)

  /** A detector either returns its report or raises IndexError (iloc on an empty frame). */
  datatype Outcome = Reported(report: Report) | IndexError

  function Verdict(name: string, found: bool): (o: Outcome)
    ensures o.Reported? && o.report.pattern == name
    ensures o.report.status == Detected <==> found
  {
    Reported(Report(name, if found then Detected else NotDetected))
  }

  predicate Found(o: Outcome) {
    o.Reported? && o.report.status == Detected
  }

  /** Series.std() squared: NaN for fewer than two values. */
  function SampleVariance(t: seq<real>): Float {
    if |t| >= 2 then Finite(Variance(t)) else NaN
  }

  /** `(s == x).sum()` for a float x: a NaN equals nothing. */
  function CountEqual(s: seq<real>, x: Float): nat {
    if x.Finite? then Occurrences(s, x.v) else 0
  }

  /** Series.max() / Series.min(), NaN on an empty slice. */
  function Ratio(t: seq<real>): Float {
    if |t| == 0 then NaN else Quotient(Max(t), Min(t))
  }

  /** std() < 0.01 is var() < 0.0001, no square root needed. */
  predicate NarrowRange(t: seq<real>) {
    Lt(SampleVariance(t), Finite(0.0001))
  }

  // ---------------------------------------------------------------- flags

  function DetectBullFlag(close: seq<real>): (o: Outcome)
    ensures o.IndexError? <==> |close| == 0
    ensures o.Reported? ==> o.report.pattern == "Bull Flag"
    ensures Found(o) <==> var t := Recent(close, 30);
      |t| >= 2 && t[0] < t[|t| - 1] && Variance(t) < 0.0001
  {
    if |close| == 0 then IndexError
    else
      var t := Recent(close, 30);
      Verdict("Bull Flag", t[0] < Last(t) && NarrowRange(t))
  }

  function DetectBearFlag(close: seq<real>): (o: Outcome)
    ensures o.IndexError? <==> |close| == 0
    ensures o.Reported? ==> o.report.pattern == "Bear Flag"
    ensures Found(o) <==> var t := Recent(close, 30);
      |t| >= 2 && t[0] > t[|t| - 1] && Variance(t) < 0.0001
  {
    if |close| == 0 then IndexError
    else
      var t := Recent(close, 30);
      Verdict("Bear Flag", t[0] > Last(t) && NarrowRange(t))
  }

  /** The trend tests of the two flags exclude each other. */
  lemma FlagsExclusive(close: seq<real>)
    ensures !(Found(DetectBullFlag(close)) && Found(DetectBearFlag(close)))
  {
  }

  /** One bar has no sample standard deviation, so neither flag is reported. */
  lemma SingleBarNoFlag(close: seq<real>)
    requires |close| == 1
    ensures DetectBullFlag(close).Reported? && !Found(DetectBullFlag(close))
    ensures DetectBearFlag(close).Reported? && !Found(DetectBearFlag(close))
  {
  }

  function DetectPennant(close: seq<real>): (o: Outcome)
    ensures o.IndexError? <==> |close| == 0
    ensures o.Reported? ==> o.report.pattern == "Pennant"
    ensures Found(o) <==> var t := Recent(close, 40);
      |t| >= 2 && t[0] < t[|t| - 1] && Variance(t) < 0.0001
  {
    if |close| == 0 then IndexError
    else
      var t := Recent(close, 40);
      Verdict("Pennant", t[0] < Last(t) && NarrowRange(t))
  }

  // ------------------------------------------------- repeated tops/bottoms

  /** The bars of `t` equal to the largest rolling-10 maximum. */
  function PeakCount(t: seq<real>): (n: nat)
    ensures n == if |t| >= 10 then Occurrences(t, Max(t)) else 0
  {
    RollingMaxPeak(t, 10);
    CountEqual(t, SkipMax(RollingMax(t, 10)))
  }

  /** The bars of `t` equal to the smallest rolling-10 minimum. */
  function TroughCount(t: seq<real>): (n: nat)
    ensures n == if |t| >= 10 then Occurrences(t, Min(t)) else 0
  {
    RollingMinTrough(t, 10);
    CountEqual(t, SkipMin(RollingMin(t, 10)))
  }

  function DetectDoubleTop(close: seq<real>): (o: Outcome)
    ensures o.Reported? && o.report.pattern == "Double Top"
    ensures Found(o) <==> var t := Recent(close, 40);
      |t| >= 10 && |Positions(t, Max(t))| >= 2
  {
    var t := Recent(close, 40);
    if |t| >= 10 then OccurrencesArePositions(t, Max(t)); Verdict("Double Top", PeakCount(t) >= 2)
    else Verdict("Double Top", PeakCount(t) >= 2)
  }

  function DetectDoubleBottom(close: seq<real>): (o: Outcome)
    ensures o.Reported? && o.report.pattern == "Double Bottom"
    ensures Found(o) <==> var t := Recent(close, 40);
      |t| >= 10 && |Positions(t, Min(t))| >= 2
  {
    var t := Recent(close, 40);
    if |t| >= 10 then OccurrencesArePositions(t, Min(t)); Verdict("Double Bottom", TroughCount(t) >= 2)
    else Verdict("Double Bottom", TroughCount(t) >= 2)
  }

  function DetectTripleTop(close: seq<real>): (o: Outcome)
    ensures o.Reported? && o.report.pattern == "Triple Top"
    ensures Found(o) <==> var t := Recent(close, 60);
      |t| >= 10 && |Positions(t, Max(t))| >= 3
  {
    var t := Recent(close, 60);
    if |t| >= 10 then OccurrencesArePositions(t, Max(t)); Verdict("Triple Top", PeakCount(t) >= 3)
    else Verdict("Triple Top", PeakCount(t) >= 3)
  }

  function DetectTripleBottom(close: seq<real>): (o: Outcome)
    ensures o.Reported? && o.report.pattern == "Triple Bottom"
    ensures Found(o) <==> var t := Recent(close, 60);
      |t| >= 10 && |Positions(t, Min(t))| >= 3
  {
    var t := Recent(close, 60);
    if |t| >= 10 then OccurrencesArePositions(t, Min(t)); Verdict("Triple Bottom", TroughCount(t) >= 3)
    else Verdict("Triple Bottom", TroughCount(t) >= 3)
  }

  // ---------------------------------------------------- head and shoulders

  function DetectHeadAndShoulders(close: seq<real>): (o: Outcome)
    ensures o.Reported? && o.report.pattern == "Head and Shoulders"
    ensures Found(o) <==> var t := Recent(close, 40);
      |t| > 0 && ((Min(t) > 0.0 && Max(t) > 1.2 * Min(t)) || (Min(t) == 0.0 && Max(t) > 0.0))
  {
    var t := Recent(close, 40);
    if |t| > 0 then RatioAbove(Max(t), Min(t)); Verdict("Head and Shoulders", Gt(Ratio(t), Finite(1.2)))
    else Verdict("Head and Shoulders", Gt(Ratio(t), Finite(1.2)))
  }

  function DetectInverseHeadAndShoulders(close: seq<real>): (o: Outcome)
    ensures o.Reported? && o.report.pattern == "Inverse Head and Shoulders"
    ensures Found(o) <==> var t := Recent(close, 40);
      |t| > 0 && Min(t) < 0.0 && Max(t) > 0.8 * Min(t)
  {
    var t := Recent(close, 40);
    if |t| > 0 then RatioBelow(Max(t), Min(t)); Verdict("Inverse Head and Shoulders", Lt(Ratio(t), Finite(0.8)))
    else Verdict("Inverse Head and Shoulders", Lt(Ratio(t), Finite(0.8)))
  }

  /** Real prices are never negative, and then the inverse pattern is never reported. */
  lemma InverseHeadAndShouldersInert(close: seq<real>)
    requires forall i :: 0 <= i < |close| ==> close[i] >= 0.0
    ensures !Found(DetectInverseHeadAndShoulders(close))
  {
    var t := Recent(close, 40);
    if |t| > 0 {
      assert forall i :: 0 <= i < |t| ==> t[i] == close[|close| - |t| + i];
      assert Min(t) >= 0.0;
    }
  }

  /** max / min > 1.2 for a largest value hi and a smallest value lo. */
  lemma RatioAbove(hi: real, lo: real)
    requires lo <= hi
    ensures Gt(Quotient(hi, lo), Finite(1.2)) <==> (lo > 0.0 && hi > 1.2 * lo) || (lo == 0.0 && hi > 0.0)
  {
    if lo > 0.0 {
      PositiveRatioAbove(hi, lo);
    } else if lo < 0.0 {
      NegativeRatioAbove(hi, lo);
    }
  }

  lemma PositiveRatioAbove(hi: real, lo: real)
    requires 0.0 < lo
    ensures hi / lo > 1.2 <==> hi > 1.2 * lo
  {
    var q := hi / lo;
    assert q * lo == hi;
    ScaleAbove(q, lo, 1.2);
  }

  lemma NegativeRatioAbove(hi: real, lo: real)
    requires lo < 0.0 && lo <= hi
    ensures !(hi / lo > 1.2)
  {
    var q := hi / lo;
    assert q * lo == hi;
    ScaleBelowNegative(q, lo, 1.2);
    assert 1.2 * lo < lo;
  }

  /** max / min < 0.8 for a largest value hi and a smallest value lo. */
  lemma RatioBelow(hi: real, lo: real)
    requires lo <= hi
    ensures Lt(Quotient(hi, lo), Finite(0.8)) <==> lo < 0.0 && hi > 0.8 * lo
  {
    if lo > 0.0 {
      PositiveRatioBelow(hi, lo);
    } else if lo < 0.0 {
      NegativeRatioBelow(hi, lo);
    }
  }

  lemma PositiveRatioBelow(hi: real, lo: real)
    requires 0.0 < lo <= hi
    ensures !(hi / lo < 0.8)
  {
    var q := hi / lo;
    assert q * lo == hi;
    ScaleAbove(q, lo, 0.8);
  }

  lemma NegativeRatioBelow(hi: real, lo: real)
    requires lo < 0.0
    ensures hi / lo < 0.8 <==> hi > 0.8 * lo
  {
    var q := hi / lo;
    assert q * lo == hi;
    ScaleAboveNegative(q, lo, 0.8);
  }

  /** For m > 0: q > k iff q * m > k * m. */
  lemma ScaleAbove(q: real, m: real, k: real)
    requires m > 0.0
    ensures q > k <==> q * m > k * m
  {
    if q > k {
      assert (q - k) * m > 0.0;
    } else {
      assert (k - q) * m >= 0.0;
    }
  }

  /** For m < 0: q > k iff q * m < k * m. */
  lemma ScaleBelowNegative(q: real, m: real, k: real)
    requires m < 0.0
    ensures q > k <==> q * m < k * m
  {
    ScaleAbove(q, -m, k);
  }

  /** For m < 0: q < k iff q * m > k * m. */
  lemma ScaleAboveNegative(q: real, m: real, k: real)
    requires m < 0.0
    ensures q < k <==> q * m > k * m
  {
    ScaleAbove(k, -m, q);
  }

  // ------------------------------------------------- cup and rounded bottom

  /**
   * The test that detect_cup_and_handle and detect_rounded_bottom share, word
   * for word: the first close below the minimum and the last close above it.
   */
  predicate CupShape(t: seq<real>)
    requires |t| > 0
  {
    var low := Min(t);
    t[0] < low && Last(t) > low
  }

  function DetectCupAndHandle(close: seq<real>): (o: Outcome)
    ensures o.IndexError? <==> |close| == 0
    ensures o.Reported? ==> o.report.pattern == "Cup and Handle"
    ensures !Found(o)
  {
    if |close| == 0 then IndexError
    else Verdict("Cup and Handle", CupShape(Recent(close, 40)))
  }

  /** The same test as cup and handle under another name: the two always agree. */
  function DetectRoundedBottom(close: seq<real>): (o: Outcome)
    ensures o.IndexError? <==> |close| == 0
    ensures o.Reported? ==> o.report.pattern == "Rounded Bottom"
    ensures Found(o) <==> Found(DetectCupAndHandle(close))
    ensures !Found(o)
  {
    if |close| == 0 then IndexError
    else Verdict("Rounded Bottom", CupShape(Recent(close, 40)))
  }

  // ------------------------------------------------- triangles and wedges

  function DetectAscendingTriangle(close: seq<real>): (o: Outcome)
    ensures o.IndexError? <==> |close| == 0
    ensures o.Reported? ==> o.report.pattern == "Ascending Triangle"
    ensures !Found(o)
  {
    if |close| == 0 then IndexError
    else
      var t := Recent(close, 40);
      var lows, highs := RollingMin(t, 10), RollingMax(t, 10);
      var higherLows := Gt(lows[|t| - 1], lows[0]);
      var flatTop := Eq(highs[|t| - 1], SkipMax(highs));
      Verdict("Ascending Triangle", higherLows && flatTop)
  }

  function DetectDescendingTriangle(close: seq<real>): (o: Outcome)
    ensures o.IndexError? <==> |close| == 0
    ensures o.Reported? ==> o.report.pattern == "Descending Triangle"
    ensures !Found(o)
  {
    if |close| == 0 then IndexError
    else
      var t := Recent(close, 40);
      var highs, lows := RollingMax(t, 10), RollingMin(t, 10);
      var lowerHighs := Lt(highs[|t| - 1], highs[0]);
      var flatBottom := Eq(lows[|t| - 1], SkipMin(lows));
      Verdict("Descending Triangle", lowerHighs && flatBottom)
  }

  function DetectSymmetricalTriangle(close: seq<real>): (o: Outcome)
    ensures o.IndexError? <==> |close| == 0
    ensures o.Reported? ==> o.report.pattern == "Symmetrical Triangle"
    ensures !Found(o)
  {
    if |close| == 0 then IndexError
    else
      var t := Recent(close, 40);
      var highs, lows := RollingMax(t, 10), RollingMin(t, 10);
      var higherLows := Gt(lows[|t| - 1], lows[0]);
      var lowerHighs := Lt(highs[|t| - 1], highs[0]);
      Verdict("Symmetrical Triangle", higherLows && lowerHighs)
  }

  function DetectRisingWedge(close: seq<real>): (o: Outcome)
    ensures o.IndexError? <==> |close| == 0
    ensures o.Reported? ==> o.report.pattern == "Rising Wedge"
    ensures !Found(o)
  {
    if |close| == 0 then IndexError
    else
      var t := Recent(close, 40);
      var highs, lows := RollingMax(t, 10), RollingMin(t, 10);
      var higherHighs := Gt(highs[|t| - 1], highs[0]);
      var higherLows := Gt(lows[|t| - 1], lows[0]);
      Verdict("Rising Wedge", higherHighs && higherLows)
  }

  function DetectFallingWedge(close: seq<real>): (o: Outcome)
    ensures o.IndexError? <==> |close| == 0
    ensures o.Reported? ==> o.report.pattern == "Falling Wedge"
    ensures !Found(o)
  {
    if |close| == 0 then IndexError
    else
      var t := Recent(close, 40);
      var highs, lows := RollingMax(t, 10), RollingMin(t, 10);
      var lowerHighs := Lt(highs[|t| - 1], highs[0]);
      var lowerLows := Lt(lows[|t| - 1], lows[0]);
      Verdict("Falling Wedge", lowerHighs && lowerLows)
  }

  // --------------------------------------------------------------- rectangle

  function DetectRectanglePattern(close: seq<real>): (o: Outcome)
    ensures o.IndexError? <==> |close| == 0
    ensures o.Reported? ==> o.report.pattern == "Rectangle Pattern"
    ensures Found(o) <==> var t := Recent(close, 40);
      |t| >= 10 && Max(Tail(t, 10)) == Max(t) && Min(Tail(t, 10)) == Min(t)
  {
    if |close| == 0 then IndexError
    else
      var t := Recent(close, 40);
      RangeHolds(t);
      Verdict("Rectangle Pattern", AtRange(t))
  }

  /** The latest rolling-10 high and low equal the highest high and the lowest low. */
  predicate AtRange(t: seq<real>)
    requires |t| > 0
  {
    var highs, lows := RollingMax(t, 10), RollingMin(t, 10);
    var atTop := Eq(highs[|t| - 1], SkipMax(highs));
    var atBottom := Eq(lows[|t| - 1], SkipMin(lows));
    atTop && atBottom
  }

  lemma RangeHolds(t: seq<real>)
    requires |t| > 0
    ensures AtRange(t) <==> |t| >= 10 && Max(Tail(t, 10)) == Max(t) && Min(Tail(t, 10)) == Min(t)
  {
    TopHolds(t);
    BottomHolds(t);
  }

  lemma TopHolds(t: seq<real>)
    requires |t| > 0
    ensures Eq(RollingMax(t, 10)[|t| - 1], SkipMax(RollingMax(t, 10)))
        <==> |t| >= 10 && Max(Tail(t, 10)) == Max(t)
  {
    if |t| >= 10 {
      LatestRollingMax(t, 10);
      RollingMaxPeak(t, 10);
    } else {
      assert RollingMax(t, 10)[|t| - 1] == NaN;
    }
  }

  lemma BottomHolds(t: seq<real>)
    requires |t| > 0
    ensures Eq(RollingMin(t, 10)[|t| - 1], SkipMin(RollingMin(t, 10)))
        <==> |t| >= 10 && Min(Tail(t, 10)) == Min(t)
  {
    if |t| >= 10 {
      LatestRollingMin(t, 10);
      RollingMinTrough(t, 10);
    } else {
      assert RollingMin(t, 10)[|t| - 1] == NaN;
    }
  }
}
