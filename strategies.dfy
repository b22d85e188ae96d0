/**
 * `TradingStrategies`: a price frame plus five scanners. Each scanner walks
 * the bars and appends a `(timestamp, name)` event for every bar that passes
 * its test; `vwap_bounce` and `ema_crossover` first write new columns into
 * the frame.
 */
module Strategies {
  import opened Floats
  import opened Series
  import opened Rolling
  import opened Indicators
  import opened Scan

  /** The frame's columns; the columns the scanners write are kept in `added`. */
  datatype Bars = Bars(
    timestamp: seq<Timestamp>,
    close: seq<real>,
    high: seq<real>,
    low: seq<real>,
    volume: seq<real>,
    added: map<string, seq<Float>>)

  /** Every column has one entry per bar. */
  predicate Aligned(b: Bars) {
    var n := |b.close|;
    |b.timestamp| == n && |b.high| == n && |b.low| == n && |b.volume| == n &&
    forall name :: name in b.added ==> |b.added[name]| == n
  }

  type Frame = b: Bars | Aligned(b) witness Bars([], [], [], [], [], map[])

  // ------------------------------------------------------- the bar tests

  /** A close above every earlier high on a volume surge of more than 50%. */
  predicate BreakoutAt(f: Frame, i: nat) {
    1 <= i < |f.close| && f.close[i] > Max(f.high[..i]) && f.volume[i] > f.volume[i - 1] * 1.5
  }

  function BreakoutHit(f: Frame): nat -> bool {
    (i: nat) => BreakoutAt(f, i)
  }

  /** A close above the VWAP by less than 0.2. */
  predicate BounceAt(c: seq<real>, vwap: seq<Float>, i: nat) {
    i < |c| && i < |vwap| &&
    Lt(Magnitude(Minus(Finite(c[i]), vwap[i])), Finite(0.2)) && Gt(Finite(c[i]), vwap[i])
  }

  function BounceHit(c: seq<real>, vwap: seq<Float>): nat -> bool {
    (i: nat) => BounceAt(c, vwap, i)
  }

  /** The short EMA was below the long one and is now above it. */
  predicate CrossAt(short: seq<Float>, long: seq<Float>, i: nat) {
    1 <= i < |short| && i < |long| &&
    Lt(short[i - 1], long[i - 1]) && Gt(short[i], long[i])
  }

  function CrossHit(short: seq<Float>, long: seq<Float>): nat -> bool {
    (i: nat) => CrossAt(short, long, i)
  }

  /** With A = low[i-3], B = high[i-2], C = low[i-1], D = close[i]: A < C < B and D > B. */
  predicate AbcdAt(f: Frame, i: nat) {
    3 <= i < |f.close| && f.low[i - 3] < f.low[i - 1] < f.high[i - 2] && f.close[i] > f.high[i - 2]
  }

  function AbcdHit(f: Frame): nat -> bool {
    (i: nat) => AbcdAt(f, i)
  }

  /** The volume exceeds threshold times its rolling average. */
  predicate SpikeAt(v: seq<real>, avg: seq<Float>, threshold: real, i: nat) {
    i < |v| && i < |avg| && Gt(Finite(v[i]), Scale(avg[i], threshold))
  }

  function SpikeHit(v: seq<real>, avg: seq<Float>, threshold: real): nat -> bool {
    (i: nat) => SpikeAt(v, avg, threshold, i)
  }

  /** The loop bound of `range(lo, n)`: the scan ends at n, or at once when n < lo. */
  function ScanEnd(lo: nat, n: nat): nat {
    if n < lo then lo else n
  }

  // ------------------------------------------------------------ the class

  class TradingStrategies {
    var df: Frame

    constructor (frame: Frame)
      ensures df == frame
    {
      df := frame;
    }

    method BreakoutStrategy() returns (signals: seq<Event>)
      ensures signals == Signals(df.timestamp, BreakoutHit(df), 1, "Breakout")
    {
      var f := df;
      var n := |f.close|;
      signals := [];
      var i := 1;
      while i < n
        invariant 1 <= i <= ScanEnd(1, n)
        invariant signals == Stamp(f.timestamp, Hits(BreakoutHit(f), 1, i), "Breakout")
      {
        var prevHigh := Max(f.high[..i]);
        StampNext(f.timestamp, BreakoutHit(f), 1, i, "Breakout");
        if f.close[i] > prevHigh && f.volume[i] > f.volume[i - 1] * 1.5 {
          signals := signals + [Event(f.timestamp[i], "Breakout")];
        }
        i := i + 1;
      }
    }

    method VwapBounce() returns (signals: seq<Event>)
      modifies this
      ensures df == old(df).(added := old(df).added["VWAP" := Vwap(old(df).close, old(df).volume)])
      ensures signals == Signals(df.timestamp, BounceHit(df.close, df.added["VWAP"]), 1, "VWAP Bounce")
    {
      var vwap := Vwap(df.close, df.volume);
      df := df.(added := df.added["VWAP" := vwap]);
      var f := df;
      var column := f.added["VWAP"];
      assert column == vwap;
      var n := |f.close|;
      signals := [];
      var i := 1;
      while i < n
        invariant df == f
        invariant 1 <= i <= ScanEnd(1, n)
        invariant signals == Stamp(f.timestamp, Hits(BounceHit(f.close, vwap), 1, i), "VWAP Bounce")
      {
        var price, average := f.close[i], column[i];
        StampNext(f.timestamp, BounceHit(f.close, vwap), 1, i, "VWAP Bounce");
        if Lt(Magnitude(Minus(Finite(price), average)), Finite(0.2)) && Gt(Finite(price), average) {
          signals := signals + [Event(f.timestamp[i], "VWAP Bounce")];
        }
        i := i + 1;
      }
    }

    /** The source's default spans are 9 and 20; pandas refuses a span below 1. */
    method EmaCrossover(short: real, long: real) returns (signals: seq<Event>)
      requires short >= 1.0 && long >= 1.0
      modifies this
      ensures df == old(df).(added := old(df).added
        ["EMA_short" := EmaColumn(old(df).close, short)]
        ["EMA_long" := EmaColumn(old(df).close, long)])
      ensures signals == Signals(df.timestamp,
        CrossHit(df.added["EMA_short"], df.added["EMA_long"]), 1, "Bullish EMA Crossover")
    {
      var fast := EmaColumn(df.close, short);
      df := df.(added := df.added["EMA_short" := fast]);
      var slow := EmaColumn(df.close, long);
      df := df.(added := df.added["EMA_long" := slow]);
      var f := df;
      var es, el := f.added["EMA_short"], f.added["EMA_long"];
      assert es == fast && el == slow;
      var n := |f.close|;
      signals := [];
      var i := 1;
      while i < n
        invariant df == f
        invariant 1 <= i <= ScanEnd(1, n)
        invariant signals == Stamp(f.timestamp, Hits(CrossHit(fast, slow), 1, i), "Bullish EMA Crossover")
      {
        StampNext(f.timestamp, CrossHit(fast, slow), 1, i, "Bullish EMA Crossover");
        if Lt(es[i - 1], el[i - 1]) && Gt(es[i], el[i]) {
          signals := signals + [Event(f.timestamp[i], "Bullish EMA Crossover")];
        }
        i := i + 1;
      }
    }

    method AbcdPattern() returns (signals: seq<Event>)
      ensures signals == Signals(df.timestamp, AbcdHit(df), 3, "ABCD Pattern")
    {
      var f := df;
      var n := |f.close|;
      signals := [];
      var i := 3;
      while i < n
        invariant 3 <= i <= ScanEnd(3, n)
        invariant signals == Stamp(f.timestamp, Hits(AbcdHit(f), 3, i), "ABCD Pattern")
      {
        var a, b, c, d := f.low[i - 3], f.high[i - 2], f.low[i - 1], f.close[i];
        StampNext(f.timestamp, AbcdHit(f), 3, i, "ABCD Pattern");
        if a < c < b && d > b {
          signals := signals + [Event(f.timestamp[i], "ABCD Pattern")];
        }
        i := i + 1;
      }
    }

    /** The source's default threshold is 2. */
    method UnusualVolume(threshold: real) returns (signals: seq<Event>)
      ensures signals == Signals(df.timestamp,
        SpikeHit(df.volume, RollingMean(df.volume, 10), threshold), 10, "Unusual Volume")
    {
      var f := df;
      var average := RollingMean(f.volume, 10);
      var n := |f.close|;
      signals := [];
      var i := 10;
      while i < n
        invariant 10 <= i <= ScanEnd(10, n)
        invariant signals == Stamp(f.timestamp, Hits(SpikeHit(f.volume, average, threshold), 10, i), "Unusual Volume")
      {
        StampNext(f.timestamp, SpikeHit(f.volume, average, threshold), 10, i, "Unusual Volume");
        if Gt(Finite(f.volume[i]), Scale(average[i], threshold)) {
          signals := signals + [Event(f.timestamp[i], "Unusual Volume")];
        }
        i := i + 1;
      }
    }
  }

  // --------------------------------------------- what each scanner reports

  /** Bar i is a breakout iff it closes above every earlier high on a surge of volume. */
  lemma BreakoutReported(f: Frame, i: nat)
    ensures i in Hits(BreakoutHit(f), 1, |f.timestamp|) <==>
      1 <= i < |f.close| && (forall j :: 0 <= j < i ==> f.close[i] > f.high[j]) &&
      f.volume[i] > 1.5 * f.volume[i - 1]
  {
    HitsMember(BreakoutHit(f), 1, |f.timestamp|, i);
    assert BreakoutHit(f)(i) == BreakoutAt(f, i);
    if 1 <= i < |f.close| {
      AboveEarlierHighs(f.high, f.close[i], i);
    }
  }

  /** A close above the maximum of the earlier highs is above each of them, and conversely. */
  lemma AboveEarlierHighs(high: seq<real>, price: real, i: nat)
    requires 1 <= i <= |high|
    ensures price > Max(high[..i]) <==> forall j :: 0 <= j < i ==> price > high[j]
  {
    var earlier := high[..i];
    assert forall j :: 0 <= j < i ==> earlier[j] == high[j];
  }

  /** A bounce needs a finite VWAP strictly below the close, by less than 0.2. */
  lemma BounceReported(c: seq<real>, vwap: seq<Float>, i: nat)
    ensures i in Hits(BounceHit(c, vwap), 1, |c|) <==>
      1 <= i < |c| && i < |vwap| && vwap[i].Finite? && 0.0 < c[i] - vwap[i].v < 0.2
  {
    HitsMember(BounceHit(c, vwap), 1, |c|, i);
    assert BounceHit(c, vwap)(i) == BounceAt(c, vwap, i);
    if i < |c| && i < |vwap| {
      BounceTest(c[i], vwap[i]);
    }
  }

  /** The two float tests of a bounce on a close x and a VWAP value v. */
  lemma BounceTest(x: real, v: Float)
    ensures Lt(Magnitude(Minus(Finite(x), v)), Finite(0.2)) && Gt(Finite(x), v) <==>
      v.Finite? && 0.0 < x - v.v < 0.2
  {
  }

  /** The first bar is never a bounce, whatever the VWAP there. */
  lemma NoBounceAtFirstBar(c: seq<real>, vwap: seq<Float>)
    ensures 0 !in Hits(BounceHit(c, vwap), 1, |c|)
  {
  }

  /** On EMA columns the crossover test is the strict test on the two averages. */
  lemma CrossoverReported(x: seq<real>, short: real, long: real, i: nat)
    requires short >= 1.0 && long >= 1.0
    ensures i in Hits(CrossHit(EmaColumn(x, short), EmaColumn(x, long)), 1, |x|) <==>
      1 <= i < |x| &&
      Ema(x, short)[i - 1] < Ema(x, long)[i - 1] && Ema(x, short)[i] > Ema(x, long)[i]
  {
    var fast, slow := EmaColumn(x, short), EmaColumn(x, long);
    assert CrossHit(fast, slow)(i) == CrossAt(fast, slow, i);
    if 1 <= i < |x| {
      CrossOnFinite(fast, slow, i);
    }
  }

  lemma CrossOnFinite(short: seq<Float>, long: seq<Float>, i: nat)
    requires 1 <= i < |short| && i < |long|
    requires short[i - 1].Finite? && long[i - 1].Finite? && short[i].Finite? && long[i].Finite?
    ensures CrossAt(short, long, i) <==>
      short[i - 1].v < long[i - 1].v && short[i].v > long[i].v
  {
  }

  /** A crossover leaves the short EMA above the long one, so the next bar cannot cross again. */
  lemma NoConsecutiveCrossovers(short: seq<Float>, long: seq<Float>, i: nat)
    requires CrossAt(short, long, i)
    ensures !CrossAt(short, long, i + 1)
  {
  }

  /** An ABCD bar closes above its A low and its C low. */
  lemma AbcdRises(f: Frame, i: nat)
    requires i in Hits(AbcdHit(f), 3, |f.timestamp|)
    ensures f.low[i - 3] < f.low[i - 1] < f.close[i]
  {
  }

  /**
   * Bar i is unusual iff i >= 10 and its volume exceeds threshold times the
   * mean of the ten volumes ending at bar i, bar i included.
   */
  lemma UnusualVolumeReported(v: seq<real>, threshold: real, i: nat)
    ensures i in Hits(SpikeHit(v, RollingMean(v, 10), threshold), 10, |v|) <==>
      10 <= i < |v| && v[i] > Mean(v[i - 9..i + 1]) * threshold
  {
    var average := RollingMean(v, 10);
    assert SpikeHit(v, average, threshold)(i) == SpikeAt(v, average, threshold, i);
    if 10 <= i < |v| {
      SpikeOnFullWindow(v, average, threshold, i);
    }
  }

  lemma SpikeOnFullWindow(v: seq<real>, average: seq<Float>, threshold: real, i: nat)
    requires average == RollingMean(v, 10) && 9 <= i < |v|
    ensures SpikeAt(v, average, threshold, i) <==> v[i] > Mean(v[i - 9..i + 1]) * threshold
  {
    assert average[i] == Finite(Mean(v[i - 9..i + 1]));
  }

  /** Bar 9 has the first full window but is never scanned. */
  lemma UnusualVolumeSkipsBarNine(v: seq<real>, threshold: real)
    ensures 9 !in Hits(SpikeHit(v, RollingMean(v, 10), threshold), 10, |v|)
  {
  }
}
