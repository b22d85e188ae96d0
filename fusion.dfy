/**
 * `make_recommendation` of the version with chart patterns: the strategy
 * event lists and pattern flags are collected into a list of signal names in
 * a fixed order, then a four-branch decision list reads RSI, the MACD
 * histogram, the sentiment and two of those names.
 */
module Fusion {
  import opened Series
  import opened Scan
  import ChartRules
  import BasicFusion

  const RiskTolerance: real := 0.5
  const SentimentThreshold: real := 0.1

  const Buy: string := "BUY (Low RSI, Positive Sentiment, Breakout)"
  const Sell: string := "SELL (High RSI, Negative Sentiment, Head and Shoulders)"
  const HoldNeutral: string := "HOLD (Neutral Sentiment)"
  const HoldRisk: string := "HOLD (Risk Management Applied)"

  /** The twelve arguments after the sentiment: three event lists, nine pattern flags. */
  datatype Detections = Detections(
    breakout: seq<Event>,
    vwap: seq<Event>,
    ema: seq<Event>,
    bullFlag: bool,
    bearFlag: bool,
    doubleTop: bool,
    doubleBottom: bool,
    headAndShoulders: bool,
    inverseHeadAndShoulders: bool,
    cupAndHandle: bool,
    ascendingTriangle: bool,
    descendingTriangle: bool)

  /** The entries of the signal list; `Name` is the string the list holds. */
  datatype Signal =
    | Breakout | VwapBounce | EmaCrossover | BullFlag | BearFlag | DoubleTop | DoubleBottom
    | HeadAndShoulders | InverseHeadAndShoulders | CupAndHandle | AscendingTriangle | DescendingTriangle

  function Name(s: Signal): string {
    match s
    case Breakout => "Breakout"
    case VwapBounce => "VWAP Bounce"
    case EmaCrossover => "EMA Crossover"
    case BullFlag => "Bull Flag"
    case BearFlag => "Bear Flag"
    case DoubleTop => "Double Top"
    case DoubleBottom => "Double Bottom"
    case HeadAndShoulders => "Head and Shoulders"
    case InverseHeadAndShoulders => "Inverse Head and Shoulders"
    case CupAndHandle => "Cup and Handle"
    case AscendingTriangle => "Ascending Triangle"
    case DescendingTriangle => "Descending Triangle"
  }

  /** Whether the argument behind a signal is truthy: a list when non-empty, a flag when set. */
  predicate Raised(d: Detections, s: Signal) {
    match s
    case Breakout => |d.breakout| > 0
    case VwapBounce => |d.vwap| > 0
    case EmaCrossover => |d.ema| > 0
    case BullFlag => d.bullFlag
    case BearFlag => d.bearFlag
    case DoubleTop => d.doubleTop
    case DoubleBottom => d.doubleBottom
    case HeadAndShoulders => d.headAndShoulders
    case InverseHeadAndShoulders => d.inverseHeadAndShoulders
    case CupAndHandle => d.cupAndHandle
    case AscendingTriangle => d.ascendingTriangle
    case DescendingTriangle => d.descendingTriangle
  }

  /** The position of a signal in the order the list is built. */
  function Rank(s: Signal): nat {
    match s
    case Breakout => 0
    case VwapBounce => 1
    case EmaCrossover => 2
    case BullFlag => 3
    case BearFlag => 4
    case DoubleTop => 5
    case DoubleBottom => 6
    case HeadAndShoulders => 7
    case InverseHeadAndShoulders => 8
    case CupAndHandle => 9
    case AscendingTriangle => 10
    case DescendingTriangle => 11
  }

  /** Distinct signals carry distinct names, so the list of names means the same as the list of signals. */
  lemma NamesDistinct(a: Signal, b: Signal)
    ensures Name(a) == Name(b) <==> a == b
  {
  }

  /** The list of strings make_recommendation holds for a list of signals. */
  function Names(r: seq<Signal>): (ns: seq<string>)
    ensures |ns| == |r| && forall i :: 0 <= i < |r| ==> ns[i] == Name(r[i])
  {
    seq(|r|, i requires 0 <= i < |r| => Name(r[i]))
  }

  /** A name is in the string list iff its signal is in the signal list. */
  lemma NameListed(r: seq<Signal>, s: Signal)
    ensures Name(s) in Names(r) <==> s in r
  {
    if Name(s) in Names(r) {
      var i :| 0 <= i < |r| && Names(r)[i] == Name(s);
      NamesDistinct(r[i], s);
    }
  }

  /** The signals in the order make_recommendation tests their arguments. */
  const Catalog: seq<Signal> := [
    Breakout, VwapBounce, EmaCrossover, BullFlag, BearFlag, DoubleTop, DoubleBottom,
    HeadAndShoulders, InverseHeadAndShoulders, CupAndHandle, AscendingTriangle, DescendingTriangle]

  /** The one-entry list appended when a flag is on. */
  function Include(on: bool, s: Signal): seq<Signal> {
    if on then [s] else []
  }

  /** The raised signals among the first k tests, in test order. */
  function Chosen(d: Detections, k: nat): seq<Signal>
    requires k <= |Catalog|
  {
    if k == 0 then []
    else Chosen(d, k - 1) + Include(Raised(d, Catalog[k - 1]), Catalog[k - 1])
  }

  /** The signal list make_recommendation builds. */
  function Collected(d: Detections): seq<Signal> {
    Chosen(d, |Catalog|)
  }

  /** Entry i of the catalog is the signal of rank i, and every signal is listed. */
  lemma CatalogRanks(s: Signal)
    ensures forall i :: 0 <= i < |Catalog| ==> Rank(Catalog[i]) == i
    ensures Rank(s) < |Catalog| && Catalog[Rank(s)] == s
  {
  }

  /** After k tests, s is present once if its rank is below k and it is raised, else absent. */
  lemma {:induction false} ChosenCount(d: Detections, k: nat, s: Signal)
    requires k <= |Catalog|
    ensures multiset(Chosen(d, k))[s] == if Rank(s) < k && Raised(d, s) then 1 else 0
  {
    if k > 0 {
      ChosenCount(d, k - 1, s);
      ChosenStep(d, k, s);
      CatalogEntry(k - 1, s);
    }
  }

  /** Test k adds one s exactly when the k-th catalog entry is s and it is raised. */
  lemma ChosenStep(d: Detections, k: nat, s: Signal)
    requires 0 < k <= |Catalog|
    ensures multiset(Chosen(d, k))[s] ==
      multiset(Chosen(d, k - 1))[s] + if Raised(d, Catalog[k - 1]) && Catalog[k - 1] == s then 1 else 0
  {
    var t := Catalog[k - 1];
    assert multiset(Chosen(d, k)) == multiset(Chosen(d, k - 1)) + multiset(Include(Raised(d, t), t));
    IncludeCount(Raised(d, t), t, s);
  }

  /** Catalog entry i is s exactly when s has rank i. */
  lemma CatalogEntry(i: nat, s: Signal)
    requires i < |Catalog|
    ensures Catalog[i] == s <==> Rank(s) == i
  {
    CatalogRanks(s);
  }

  /** The appended piece holds s once exactly when it is s and switched on. */
  lemma IncludeCount(on: bool, t: Signal, s: Signal)
    ensures multiset(Include(on, t))[s] == if on && t == s then 1 else 0
  {
  }

  /** After k tests, the signals present have rank below k, in increasing rank. */
  lemma {:induction false} ChosenRanked(d: Detections, k: nat)
    requires k <= |Catalog|
    ensures forall i :: 0 <= i < |Chosen(d, k)| ==> Rank(Chosen(d, k)[i]) < k
    ensures forall i, j :: 0 <= i < j < |Chosen(d, k)| ==> Rank(Chosen(d, k)[i]) < Rank(Chosen(d, k)[j])
  {
    if k > 0 {
      ChosenRanked(d, k - 1);
      var t, before := Catalog[k - 1], Chosen(d, k - 1);
      CatalogRanks(t);
      assert Rank(t) == k - 1;
      if Raised(d, t) {
        var r := Chosen(d, k);
        assert r == before + [t];
        forall i | 0 <= i < |r|
          ensures Rank(r[i]) < k
        {
          if i < |before| {
            assert r[i] == before[i];
          }
        }
        forall i, j | 0 <= i < j < |r|
          ensures Rank(r[i]) < Rank(r[j])
        {
          assert r[i] == before[i];
          if j < |before| {
            assert r[j] == before[j];
          }
        }
      } else {
        assert Chosen(d, k) == before;
      }
    }
  }

  /** A signal is collected iff its argument is truthy, and then exactly once. */
  lemma CollectedIff(d: Detections, s: Signal)
    ensures s in Collected(d) <==> Raised(d, s)
    ensures multiset(Collected(d))[s] == if Raised(d, s) then 1 else 0
  {
    CatalogRanks(s);
    ChosenCount(d, |Catalog|, s);
  }

  /** The signals come out in the order they are tested. */
  lemma CollectedOrdered(d: Detections)
    ensures forall i, j :: 0 <= i < j < |Collected(d)| ==> Rank(Collected(d)[i]) < Rank(Collected(d)[j])
  {
    ChosenRanked(d, |Catalog|);
  }

  /** The four-branch decision list: the specification that MakeRecommendation's branches are proved against. */
  function Decide(rsi: real, macdHist: real, sentiment: real, signals: seq<Signal>): string {
    if rsi < 30.0 && macdHist > 0.0 && sentiment > SentimentThreshold && Breakout in signals then Buy
    else if rsi > 70.0 && macdHist < 0.0 && sentiment < -SentimentThreshold && HeadAndShoulders in signals then Sell
    else if Abs(sentiment) < RiskTolerance then HoldNeutral
    else HoldRisk
  }

  /** The recommendation for the given inputs. */
  function Recommend(rsi: real, macdHist: real, sentiment: real, d: Detections): (r: string)
    ensures r == Buy || r == Sell || r == HoldNeutral || r == HoldRisk
    ensures r == HoldRisk ==> sentiment <= -0.5 || sentiment >= 0.5
  {
    Decide(rsi, macdHist, sentiment, Collected(d))
  }

  /** The twelve `if flag: signals.append(name)` of make_recommendation, in source order. */
  method CollectSignals(d: Detections) returns (signals: seq<Signal>)
    ensures signals == Collected(d)
  {
    signals := [];
    for k := 0 to |Catalog|
      invariant signals == Chosen(d, k)
    {
      var s := Catalog[k];
      if Raised(d, s) {
        signals := signals + [s];
      }
    }
  }

  /** make_recommendation itself: collects the signals with a loop, then runs the decision list of Decide. */
  method MakeRecommendation(rsi: real, macdHist: real, sentiment: real, d: Detections)
    returns (recommendation: string)
    ensures recommendation == Recommend(rsi, macdHist, sentiment, d)
  {
    var signals := CollectSignals(d);
    if rsi < 30.0 && macdHist > 0.0 && sentiment > SentimentThreshold && Breakout in signals {
      recommendation := Buy;
    } else if rsi > 70.0 && macdHist < 0.0 && sentiment < -SentimentThreshold && HeadAndShoulders in signals {
      recommendation := Sell;
    } else if Abs(sentiment) < RiskTolerance {
      recommendation := HoldNeutral;
    } else {
      recommendation := HoldRisk;
    }
  }

  // ------------------------------------------------------------ properties

  /** BUY exactly when oversold, momentum rising, news good and some breakout event exists. */
  lemma BuyIff(rsi: real, macdHist: real, sentiment: real, d: Detections)
    ensures Recommend(rsi, macdHist, sentiment, d) == Buy <==>
      rsi < 30.0 && macdHist > 0.0 && sentiment > 0.1 && |d.breakout| > 0
  {
    CollectedIff(d, Breakout);
    CollectedIff(d, HeadAndShoulders);
  }

  /** SELL exactly when overbought, momentum falling, news bad and head-and-shoulders flagged. */
  lemma SellIff(rsi: real, macdHist: real, sentiment: real, d: Detections)
    ensures Recommend(rsi, macdHist, sentiment, d) == Sell <==>
      rsi > 70.0 && macdHist < 0.0 && sentiment < -0.1 && d.headAndShoulders
  {
    CollectedIff(d, Breakout);
    CollectedIff(d, HeadAndShoulders);
  }

  /** Otherwise HOLD, neutral iff |sentiment| < 0.5. */
  lemma HoldCases(rsi: real, macdHist: real, sentiment: real, d: Detections)
    ensures var r := Recommend(rsi, macdHist, sentiment, d);
      r != Buy && r != Sell ==> (r == HoldNeutral <==> -0.5 < sentiment < 0.5)
  {
  }

  /** Only the breakout list and the head-and-shoulders flag influence the result. */
  lemma OtherSignalsIgnored(rsi: real, macdHist: real, sentiment: real, d: Detections, e: Detections)
    requires (|d.breakout| > 0) == (|e.breakout| > 0) && d.headAndShoulders == e.headAndShoulders
    ensures Recommend(rsi, macdHist, sentiment, d) == Recommend(rsi, macdHist, sentiment, e)
  {
    BuyIff(rsi, macdHist, sentiment, d);
    BuyIff(rsi, macdHist, sentiment, e);
    SellIff(rsi, macdHist, sentiment, d);
    SellIff(rsi, macdHist, sentiment, e);
  }

  /** Fed by the head-and-shoulders rule, which never fires, the bot never says SELL. */
  lemma SellUnreachable(rsi: real, macdHist: real, sentiment: real, d: Detections, close: seq<real>)
    requires |close| >= 15 && d.headAndShoulders == ChartRules.HeadAndShoulders(close)
    ensures Recommend(rsi, macdHist, sentiment, d) != Sell
  {
    SellIff(rsi, macdHist, sentiment, d);
  }

  /** Every BUY or SELL here is a BUY or SELL of the version without patterns; its HOLDs are kept. */
  lemma RefinesBasic(rsi: real, macdHist: real, sentiment: real, d: Detections)
    ensures Recommend(rsi, macdHist, sentiment, d) == Buy ==>
      BasicFusion.MakeRecommendation(rsi, macdHist, sentiment) == BasicFusion.Buy
    ensures Recommend(rsi, macdHist, sentiment, d) == Sell ==>
      BasicFusion.MakeRecommendation(rsi, macdHist, sentiment) == BasicFusion.Sell
    ensures BasicFusion.MakeRecommendation(rsi, macdHist, sentiment) == HoldNeutral ==>
      Recommend(rsi, macdHist, sentiment, d) == HoldNeutral
    ensures BasicFusion.MakeRecommendation(rsi, macdHist, sentiment) == HoldRisk ==>
      Recommend(rsi, macdHist, sentiment, d) == HoldRisk
  {
    BuyIff(rsi, macdHist, sentiment, d);
    SellIff(rsi, macdHist, sentiment, d);
  }
}
