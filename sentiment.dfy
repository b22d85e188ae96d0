/**
 * `calculate_sentiment`: the mean polarity of the news headlines, 0 when
 * there are none. The natural-language scorer that gives each headline its
 * polarity is the parameter `polarity`.
 */
module Sentiment {
  import opened Series

  /** The polarity of each headline, in headline order. */
  function Scores(headlines: seq<string>, polarity: string -> real): (s: seq<real>)
    ensures |s| == |headlines|
    ensures forall k :: 0 <= k < |headlines| ==> s[k] == polarity(headlines[k])
  {
    if |headlines| == 0 then []
    else Scores(headlines[..|headlines| - 1], polarity) + [polarity(headlines[|headlines| - 1])]
  }

  /** The mean of the scores, or 0 for no scores: the specification of CalculateSentiment. */
  function Average(s: seq<real>): real {
    if |s| == 0 then 0.0 else Mean(s)
  }

  /** calculate_sentiment itself: an early 0 for no headlines, then a loop that gathers the scores. */
  method CalculateSentiment(headlines: seq<string>, polarity: string -> real) returns (score: real)
    ensures score == Average(Scores(headlines, polarity))
  {
    if |headlines| == 0 {
      return 0.0;
    }
    var scores: seq<real> := [];
    for k := 0 to |headlines|
      invariant scores == Scores(headlines[..k], polarity)
    {
      assert headlines[..k + 1][..k] == headlines[..k];
      scores := scores + [polarity(headlines[k])];
    }
    assert headlines[..|headlines|] == headlines;
    score := Sum(scores) / |scores| as real;
  }

  /** The average of some scores lies between the smallest and the largest. */
  lemma AverageBetween(s: seq<real>)
    requires |s| > 0
    ensures Min(s) <= Average(s) <= Max(s)
  {
    MeanBetween(s);
  }

  /** Polarities in [-1, 1] give a sentiment in [-1, 1], with or without headlines. */
  lemma SentimentInRange(headlines: seq<string>, polarity: string -> real)
    requires forall k :: 0 <= k < |headlines| ==> -1.0 <= polarity(headlines[k]) <= 1.0
    ensures -1.0 <= Average(Scores(headlines, polarity)) <= 1.0
  {
    var s := Scores(headlines, polarity);
    assert forall k :: 0 <= k < |s| ==> -1.0 <= s[k] <= 1.0;
    AverageWithin(s, -1.0, 1.0);
  }

  /** Bounds on every score that hold of 0 also bound the average. */
  lemma AverageWithin(s: seq<real>, lo: real, hi: real)
    requires lo <= 0.0 <= hi
    requires forall k :: 0 <= k < |s| ==> lo <= s[k] <= hi
    ensures lo <= Average(s) <= hi
  {
    if |s| > 0 {
      SumBounds(s, lo, hi);
      MeanOfBoundedSum(s, lo, hi);
    }
  }
}
