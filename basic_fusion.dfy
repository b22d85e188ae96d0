/**
 * The recommendation of the version without chart patterns: RSI, the MACD
 * histogram and the news sentiment feed one if/elif decision list.
 */
module BasicFusion {
  import opened Series
  import opened Sentiment

  const RiskTolerance: real := 0.5
  const SentimentThreshold: real := 0.1

  const Buy: string := "BUY (Low RSI, Positive Sentiment)"
  const Sell: string := "SELL (High RSI, Negative Sentiment)"
  const HoldNeutral: string := "HOLD (Neutral Sentiment)"
  const HoldRisk: string := "HOLD (Risk Management Applied)"

  /** Oversold, rising momentum and good news. */
  predicate Oversold(rsi: real, macdHist: real, sentiment: real) {
    rsi < 30.0 && macdHist > 0.0 && sentiment > SentimentThreshold
  }

  /** Overbought, falling momentum and bad news. */
  predicate Overbought(rsi: real, macdHist: real, sentiment: real) {
    rsi > 70.0 && macdHist < 0.0 && sentiment < -SentimentThreshold
  }

  function MakeRecommendation(rsi: real, macdHist: real, sentiment: real): (r: string)
    ensures r == Buy || r == Sell || r == HoldNeutral || r == HoldRisk
    ensures r == HoldRisk ==> sentiment <= -0.5 || sentiment >= 0.5
  {
    if Oversold(rsi, macdHist, sentiment) then Buy
    else if Overbought(rsi, macdHist, sentiment) then Sell
    else if Abs(sentiment) < RiskTolerance then HoldNeutral
    else HoldRisk
  }

  /** BUY exactly when oversold with rising momentum and good news. */
  lemma BuyIff(rsi: real, macdHist: real, sentiment: real)
    ensures MakeRecommendation(rsi, macdHist, sentiment) == Buy <==>
      rsi < 30.0 && macdHist > 0.0 && sentiment > 0.1
  {
  }

  /** SELL exactly when overbought with falling momentum and bad news; never together with BUY. */
  lemma SellIff(rsi: real, macdHist: real, sentiment: real)
    ensures MakeRecommendation(rsi, macdHist, sentiment) == Sell <==>
      rsi > 70.0 && macdHist < 0.0 && sentiment < -0.1
    ensures !(Oversold(rsi, macdHist, sentiment) && Overbought(rsi, macdHist, sentiment))
  {
  }

  /** Otherwise HOLD, neutral iff |sentiment| < 0.5. */
  lemma HoldCases(rsi: real, macdHist: real, sentiment: real)
    ensures !Oversold(rsi, macdHist, sentiment) && !Overbought(rsi, macdHist, sentiment) ==>
      (MakeRecommendation(rsi, macdHist, sentiment) == HoldNeutral <==> -0.5 < sentiment < 0.5)
  {
  }

  /** With no headlines the sentiment is 0, which always gives a neutral HOLD. */
  lemma NoHeadlinesHold(rsi: real, macdHist: real, polarity: string -> real)
    ensures MakeRecommendation(rsi, macdHist, Average(Scores([], polarity))) == HoldNeutral
  {
  }
}
