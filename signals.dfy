/**
 * The per-instrument signals of user_price_fetcher.py: the strength/weakness
 * narrative (lines 52-55), the current price (line 69), the recommendation and
 * its insight string (lines 96-101) and the earnings status (line 125).
 * Metadata keys are `Option`s: `None` is a key the provider did not send.
 */
module Signals {
  import opened Wrappers
  import opened Text
  import opened Indicators

  /** `info.get(k, 0)` and `info.get(k, 0) or 0` for a key that is sent or missing. */
  function OrZero(v: Option<real>): real
  {
    v.GetOr(0.0)
  }

  /** Python truthiness of an optional number: present and non-zero. */
  predicate Truthy(v: Option<real>)
  {
    v.Some? && v.value != 0.0
  }

  // ---------------------------------------------------------------------
  // Strength/weakness narrative (lines 52-55)

  const HighMargins: string := "Strength: High Margins"
  const LowMargins: string := "Weakness: Low Margins"
  const SolidGrowth: string := " & Solid Growth"
  const MarginThreshold: real := 0.15
  const GrowthThreshold: real := 0.05

  /**
   * The narrative opens with the margin verdict and gains the growth remark
   * when revenue grows by more than 5%; a missing margin or growth counts as 0.
   */
  function Narrative(margins: Option<real>, growth: Option<real>): (r: string)
    ensures StartsWith(r, HighMargins) <==> OrZero(margins) > MarginThreshold
    ensures StartsWith(r, LowMargins) <==> OrZero(margins) <= MarginThreshold
    ensures EndsWith(r, SolidGrowth) <==> OrZero(growth) > GrowthThreshold
    ensures r == HighMargins || r == LowMargins || r == HighMargins + SolidGrowth || r == LowMargins + SolidGrowth
  {
    var lead := if OrZero(margins) > MarginThreshold then HighMargins else LowMargins;
    var r := if OrZero(growth) > GrowthThreshold then lead + SolidGrowth else lead;
    assert r[..|lead|] == lead;
    assert r[0] == lead[0];
    assert r[|r| - 1] == if OrZero(growth) > GrowthThreshold then 'h' else 's';
    r
  }

  /** Lines 54-55 as written, with the in-place append, proved to build `Narrative`. */
  method BuildNarrative(margins: Option<real>, growth: Option<real>) returns (strengthWeakness: string)
    ensures strengthWeakness == Narrative(margins, growth)
  {
    var m := margins.GetOr(0.0);
    var g := growth.GetOr(0.0);
    strengthWeakness := if m > MarginThreshold then HighMargins else LowMargins;
    if g > GrowthThreshold {
      strengthWeakness := strengthWeakness + SolidGrowth;
    }
  }

  /** A missing margin and a missing growth give the plain weakness verdict. */
  lemma MissingRatiosGiveWeakness()
    ensures Narrative(None, None) == LowMargins
  {
  }

  // ---------------------------------------------------------------------
  // Current price (line 69)

  /** `currentPrice or regularMarketPrice or 0`: the first truthy one. */
  function CurrentPrice(current: Option<real>, regular: Option<real>): (r: real)
    ensures Truthy(current) ==> r == current.value
    ensures !Truthy(current) && Truthy(regular) ==> r == regular.value
    ensures !Truthy(current) && !Truthy(regular) ==> r == 0.0
  {
    if Truthy(current) then current.value
    else if Truthy(regular) then regular.value
    else 0.0
  }

  // ---------------------------------------------------------------------
  // Recommendation (lines 96-99)

  datatype Recommendation = Buy | Hold | Sell

  function RecommendationLabel(r: Recommendation): string
  {
    match r
    case Buy => "BUY"
    case Hold => "HOLD"
    case Sell => "SELL"
  }

  /** The three recommendations go out under three different labels. */
  lemma RecommendationLabelsDiffer(a: Recommendation, b: Recommendation)
    ensures RecommendationLabel(a) == RecommendationLabel(b) <==> a == b
  {
  }

  const FairValuation: real := 25.0

  /** The BUY condition of line 98: above the 200-bar average and a truthy P/E under 25. */
  predicate BuySignal(price: real, ma200: real, pe: real)
  {
    price > ma200 && pe != 0.0 && pe < FairValuation
  }

  /**
   * First match wins: BUY, then SELL below 98% of the 200-bar average, else
   * HOLD. `pe` is `info.get("trailingPE", 0)`, so a missing P/E is 0 and
   * never buys. The 200-bar average may be the sentinel 0 on a short history,
   * and is compared as it stands.
   */
  function Recommend(price: real, ma200: real, pe: real): (r: Recommendation)
    ensures r == Buy <==> BuySignal(price, ma200, pe)
    ensures r == Sell <==> !BuySignal(price, ma200, pe) && price < ma200 * StopLossFactor
    ensures r == Hold <==> !BuySignal(price, ma200, pe) && price >= ma200 * StopLossFactor
  {
    if BuySignal(price, ma200, pe) then Buy
    else if price < ma200 * StopLossFactor then Sell
    else Hold
  }

  /** The stop-loss reported beside the recommendation is exactly the SELL trigger. */
  lemma SellIsBelowStopLoss(price: real, ma200: real, pe: real)
    ensures Recommend(price, ma200, pe) == Sell <==>
      !BuySignal(price, ma200, pe) && price < StopLoss(ma200)
  {
  }

  /** Worked cases, against a 200-bar average of 100. */
  lemma RecommendationExamples()
    ensures Recommend(105.0, 100.0, 20.0) == Buy
    ensures Recommend(97.0, 100.0, 30.0) == Sell
    ensures Recommend(97.0, 100.0, 20.0) == Sell
    ensures Recommend(99.0, 100.0, 30.0) == Hold
  {
  }

  /**
   * Because the 200-bar average is the sentinel 0 on a history shorter than
   * 200 bars, any positive price with a P/E strictly between 0 and 25 is a BUY
   * there, although no average was computed.
   */
  lemma ShortHistoryCanBuy(closes: seq<real>, price: real, pe: real)
    requires |closes| < LongWindow && price > 0.0 && 0.0 < pe < FairValuation
    ensures Recommend(price, MovingAverage(closes, LongWindow), pe) == Buy
  {
  }

  /** On a short history a non-negative price is never a SELL. */
  lemma ShortHistoryNeverSells(closes: seq<real>, price: real, pe: real)
    requires |closes| < LongWindow && price >= 0.0
    ensures Recommend(price, MovingAverage(closes, LongWindow), pe) != Sell
  {
  }

  /** A negative P/E is truthy and under 25, so it can BUY. */
  lemma NegativePeCanBuy()
    ensures Recommend(105.0, 100.0, -5.0) == Buy
  {
  }

  /** A missing P/E reads as 0, which is falsy: it never buys. */
  lemma MissingPeNeverBuys(price: real, ma200: real)
    ensures Recommend(price, ma200, OrZero(None)) != Buy
  {
  }

  // ---------------------------------------------------------------------
  // Insight string (line 101)

  const SourceLabel: string := "standard feeds"

  /** `'Fair' if pe < 25 else 'High'`; a missing P/E is 0 and reads as Fair. */
  function ValuationTier(pe: real): string
  {
    if pe < FairValuation then "Fair" else "High"
  }

  function NewsClause(sentiment: string): string
  {
    "NEWS: " + sentiment + " (" + SourceLabel + ")."
  }

  function StrategyClause(earningsDate: string): string
  {
    "Strategy: Monitor earnings on " + earningsDate + "."
  }

  /** The insight: the valuation tier, then the news sentiment, then the earnings date to watch. */
  function Insight(pe: real, sentiment: string, earningsDate: string): (r: string)
    ensures StartsWith(r, "VALUATION: Fair.") <==> pe < FairValuation
    ensures StartsWith(r, "VALUATION: High.") <==> pe >= FairValuation
    ensures Contains(r, NewsClause(sentiment))
    ensures EndsWith(r, StrategyClause(earningsDate))
    ensures |r| == 18 + |NewsClause(sentiment)| + |StrategyClause(earningsDate)|
    ensures OccursAt(r, " " + NewsClause(sentiment) + " ", 16)
  {
    var lead := "VALUATION: " + ValuationTier(pe) + ".";
    var m := " " + NewsClause(sentiment) + " ";
    var strategy := StrategyClause(earningsDate);
    var r := lead + m + strategy;
    assert |lead| == 16 && lead[11] == if pe < FairValuation then 'F' else 'H';
    ConcatParts(lead, m, strategy);
    assert r[17..17 + |NewsClause(sentiment)|] == m[1..1 + |NewsClause(sentiment)|] == NewsClause(sentiment);
    OccurrenceIsFound(r, NewsClause(sentiment), 17);
    r
  }

  // ---------------------------------------------------------------------
  // Earnings status (line 125)

  datatype EarningsStatus = Exceeded | Meets

  function EarningsStatusLabel(s: EarningsStatus): string
  {
    match s
    case Exceeded => "EXCEEDED"
    case Meets => "MEETS"
  }

  /** The two earnings statuses go out under different labels. */
  lemma EarningsStatusLabelsDiffer(a: EarningsStatus, b: EarningsStatus)
    ensures EarningsStatusLabel(a) == EarningsStatusLabel(b) <==> a == b
  {
  }

  /** EXCEEDED when trailing EPS beats forward EPS, each defaulting to 0 when missing. */
  function EarningsStatusOf(trailingEps: Option<real>, forwardEps: Option<real>): (s: EarningsStatus)
    ensures s == Exceeded <==> OrZero(trailingEps) > OrZero(forwardEps)
  {
    if trailingEps.GetOr(0.0) > forwardEps.GetOr(0.0) then Exceeded else Meets
  }

  /**
   * The zero defaults make absence look like data: with no EPS at all the
   * status is MEETS, and a positive trailing EPS with no forward estimate
   * is EXCEEDED.
   */
  lemma EarningsStatusDefaults(trailing: real)
    ensures EarningsStatusOf(None, None) == Meets
    ensures trailing > 0.0 ==> EarningsStatusOf(Some(trailing), None) == Exceeded
  {
  }
}
