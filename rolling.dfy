/**
 * pandas rolling windows (`s.rolling(window=w)`, min_periods = w) and the
 * NaN-skipping `max()`/`min()` of a float column.
 */
module Rolling {
  import opened Series
  import opened Floats

  /** s.rolling(window=w).max(): NaN until a full window of w values exists. */
  function RollingMax(s: seq<real>, w: nat): (r: seq<Float>)
    requires w >= 1
    ensures |r| == |s|
    ensures forall i :: 0 <= i < |s| && i + 1 < w ==> r[i] == NaN
    ensures forall i :: w - 1 <= i < |s| ==> r[i] == Finite(Max(s[i + 1 - w..i + 1]))
  {
    seq(|s|, i requires 0 <= i < |s| => RollingMaxAt(s, w, i))
  }

  /** Entry i of `s.rolling(window=w).max()`. */
  function RollingMaxAt(s: seq<real>, w: nat, i: nat): Float
    requires w >= 1 && i < |s|
  {
    if i + 1 >= w then Finite(Max(s[i + 1 - w..i + 1])) else NaN
  }

  /** s.rolling(window=w).min() */
  function RollingMin(s: seq<real>, w: nat): (r: seq<Float>)
    requires w >= 1
    ensures |r| == |s|
    ensures forall i :: 0 <= i < |s| && i + 1 < w ==> r[i] == NaN
    ensures forall i :: w - 1 <= i < |s| ==> r[i] == Finite(Min(s[i + 1 - w..i + 1]))
  {
    seq(|s|, i requires 0 <= i < |s| => RollingMinAt(s, w, i))
  }

  /** Entry i of `s.rolling(window=w).min()`. */
  function RollingMinAt(s: seq<real>, w: nat, i: nat): Float
    requires w >= 1 && i < |s|
  {
    if i + 1 >= w then Finite(Min(s[i + 1 - w..i + 1])) else NaN
  }

  /** s.rolling(window=w).mean(): window i is s[i-w+1..i], the value at i included. */
  function RollingMean(s: seq<real>, w: nat): (r: seq<Float>)
    requires w >= 1
    ensures |r| == |s|
    ensures forall i :: 0 <= i < |s| && i + 1 < w ==> r[i] == NaN
    ensures forall i :: w - 1 <= i < |s| ==> r[i] == Finite(Mean(s[i + 1 - w..i + 1]))
  {
    seq(|s|, i requires 0 <= i < |s| => RollingMeanAt(s, w, i))
  }

  /** Entry i of `s.rolling(window=w).mean()`. */
  function RollingMeanAt(s: seq<real>, w: nat, i: nat): Float
    requires w >= 1 && i < |s|
  {
    if i + 1 >= w then Finite(Mean(s[i + 1 - w..i + 1])) else NaN
  }

  /** Series.max() with skipna: NaN only when every entry is NaN. */
  function SkipMax(xs: seq<Float>): (m: Float)
    ensures m.NaN? <==> forall i :: 0 <= i < |xs| ==> xs[i].NaN?
    ensures !m.NaN? ==> m in xs && forall i :: 0 <= i < |xs| && !xs[i].NaN? ==> Le(xs[i], m)
  {
    if |xs| == 0 then NaN
    else
      var m' := SkipMax(xs[..|xs| - 1]);
      var x := xs[|xs| - 1];
      assert forall i :: 0 <= i < |xs| - 1 ==> xs[i] == xs[..|xs| - 1][i];
      if x.NaN? then m'
      else if m'.NaN? || Le(m', x) then x
      else m'
  }

  /** Series.min() with skipna. */
  function SkipMin(xs: seq<Float>): (m: Float)
    ensures m.NaN? <==> forall i :: 0 <= i < |xs| ==> xs[i].NaN?
    ensures !m.NaN? ==> m in xs && forall i :: 0 <= i < |xs| && !xs[i].NaN? ==> Le(m, xs[i])
  {
    if |xs| == 0 then NaN
    else
      var m' := SkipMin(xs[..|xs| - 1]);
      var x := xs[|xs| - 1];
      assert forall i :: 0 <= i < |xs| - 1 ==> xs[i] == xs[..|xs| - 1][i];
      if x.NaN? then m'
      else if m'.NaN? || Le(x, m') then x
      else m'
  }

  /** Some entry holds the NaN-skipping maximum, once some entry is not NaN. */
  lemma SkipMaxIndex(xs: seq<Float>, k: nat) returns (j: nat)
    requires k < |xs| && !xs[k].NaN?
    ensures j < |xs| && xs[j] == SkipMax(xs)
  {
    var m := SkipMax(xs);
    assert m in xs;
    j :| 0 <= j < |xs| && xs[j] == m;
  }

  /** Some entry holds the NaN-skipping minimum, once some entry is not NaN. */
  lemma SkipMinIndex(xs: seq<Float>, k: nat) returns (j: nat)
    requires k < |xs| && !xs[k].NaN?
    ensures j < |xs| && xs[j] == SkipMin(xs)
  {
    var m := SkipMin(xs);
    assert m in xs;
    j :| 0 <= j < |xs| && xs[j] == m;
  }

  /** The largest rolling maximum is the maximum of the whole series, once one full window exists. */
  lemma RollingMaxPeak(s: seq<real>, w: nat)
    requires w >= 1
    ensures w <= |s| ==> SkipMax(RollingMax(s, w)) == Finite(Max(s))
    ensures |s| < w ==> SkipMax(RollingMax(s, w)) == NaN
  {
    if w <= |s| {
      var top := RollingMaxAttained(s, w);
      var a := RollingMaxBelow(s, w, top);
      assert Le(RollingMax(s, w)[top], SkipMax(RollingMax(s, w)));
    }
  }

  lemma RollingMaxAttained(s: seq<real>, w: nat) returns (j: nat)
    requires 1 <= w <= |s|
    ensures j < |s| && RollingMax(s, w)[j] == Finite(Max(s))
  {
    var k :| 0 <= k < |s| && s[k] == Max(s);
    j := CoveringWindow(|s|, w, k);
    WindowMaxIsMax(s, j + 1 - w, j + 1, k);
  }

  lemma RollingMaxBelow(s: seq<real>, w: nat, top: nat) returns (a: real)
    requires 1 <= w && top < |s| && RollingMax(s, w)[top] == Finite(Max(s))
    ensures SkipMax(RollingMax(s, w)) == Finite(a) && a <= Max(s)
  {
    var r := RollingMax(s, w);
    var j := SkipMaxIndex(r, top);
    assert r[j] != NaN;
    a := Max(s[j + 1 - w..j + 1]);
    WindowMaxBelow(s, j + 1 - w, j + 1);
  }

  /** The smallest rolling minimum is the minimum of the whole series, once one full window exists. */
  lemma RollingMinTrough(s: seq<real>, w: nat)
    requires w >= 1
    ensures w <= |s| ==> SkipMin(RollingMin(s, w)) == Finite(Min(s))
    ensures |s| < w ==> SkipMin(RollingMin(s, w)) == NaN
  {
    if w <= |s| {
      var bottom := RollingMinAttained(s, w);
      var a := RollingMinAbove(s, w, bottom);
      assert Le(SkipMin(RollingMin(s, w)), RollingMin(s, w)[bottom]);
    }
  }

  lemma RollingMinAttained(s: seq<real>, w: nat) returns (j: nat)
    requires 1 <= w <= |s|
    ensures j < |s| && RollingMin(s, w)[j] == Finite(Min(s))
  {
    var k :| 0 <= k < |s| && s[k] == Min(s);
    j := CoveringWindow(|s|, w, k);
    WindowMinIsMin(s, j + 1 - w, j + 1, k);
  }

  lemma RollingMinAbove(s: seq<real>, w: nat, bottom: nat) returns (a: real)
    requires 1 <= w && bottom < |s| && RollingMin(s, w)[bottom] == Finite(Min(s))
    ensures SkipMin(RollingMin(s, w)) == Finite(a) && Min(s) <= a
  {
    var r := RollingMin(s, w);
    var j := SkipMinIndex(r, bottom);
    assert r[j] != NaN;
    a := Min(s[j + 1 - w..j + 1]);
    WindowMinAbove(s, j + 1 - w, j + 1);
  }

  /** The latest rolling maximum is the maximum of the last w values. */
  lemma LatestRollingMax(s: seq<real>, w: nat)
    requires 1 <= w <= |s|
    ensures RollingMax(s, w)[|s| - 1] == Finite(Max(Tail(s, w)))
  {
    assert Tail(s, w) == s[|s| - w..|s|];
  }

  /** The latest rolling minimum is the minimum of the last w values. */
  lemma LatestRollingMin(s: seq<real>, w: nat)
    requires 1 <= w <= |s|
    ensures RollingMin(s, w)[|s| - 1] == Finite(Min(Tail(s, w)))
  {
    assert Tail(s, w) == s[|s| - w..|s|];
  }

  /** Some full window of w positions ends at j and contains position k. */
  lemma CoveringWindow(n: nat, w: nat, k: nat) returns (j: nat)
    requires 1 <= w <= n && k < n
    ensures w - 1 <= j < n && j + 1 - w <= k <= j
  {
    if k >= w - 1 {
      j := k;
    } else {
      j := w - 1;
    }
  }

  /** A window that holds a position of the maximum has the same maximum. */
  lemma WindowMaxIsMax(s: seq<real>, lo: nat, hi: nat, k: nat)
    requires lo <= k < hi <= |s| && s[k] == Max(s)
    ensures Max(s[lo..hi]) == Max(s)
  {
    WindowMaxAbove(s, lo, hi, k);
    WindowMaxBelow(s, lo, hi);
  }

  /** A window that holds a position of the minimum has the same minimum. */
  lemma WindowMinIsMin(s: seq<real>, lo: nat, hi: nat, k: nat)
    requires lo <= k < hi <= |s| && s[k] == Min(s)
    ensures Min(s[lo..hi]) == Min(s)
  {
    WindowMinBelow(s, lo, hi, k);
    WindowMinAbove(s, lo, hi);
  }

  lemma WindowMaxBelow(s: seq<real>, lo: nat, hi: nat)
    requires lo < hi <= |s|
    ensures Max(s[lo..hi]) <= Max(s)
  {
    var t := s[lo..hi];
    var i :| 0 <= i < |t| && t[i] == Max(t);
    assert t[i] == s[lo + i];
  }

  lemma WindowMaxAbove(s: seq<real>, lo: nat, hi: nat, k: nat)
    requires lo <= k < hi <= |s|
    ensures s[k] <= Max(s[lo..hi])
  {
    assert s[lo..hi][k - lo] == s[k];
  }

  lemma WindowMinAbove(s: seq<real>, lo: nat, hi: nat)
    requires lo < hi <= |s|
    ensures Min(s) <= Min(s[lo..hi])
  {
    var t := s[lo..hi];
    var i :| 0 <= i < |t| && t[i] == Min(t);
    assert t[i] == s[lo + i];
  }

  lemma WindowMinBelow(s: seq<real>, lo: nat, hi: nat, k: nat)
    requires lo <= k < hi <= |s|
    ensures Min(s[lo..hi]) <= s[k]
  {
    assert s[lo..hi][k - lo] == s[k];
  }
}
