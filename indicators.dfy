/**
 * Technical indicators over one instrument's daily bars (user_price_fetcher.py,
 * lines 46-47, 59-65 and 118) and the currency trend advisory over a rate series
 * (lines 25-32). The price history is handed in: fetching it is not modelled.
 */
module Indicators {
  import opened Wrappers

  /** One daily bar of a price history; the bar's date is only a chart label. */
  datatype Bar = Bar(high: real, low: real, close: real)

  const ShortWindow: nat := 50
  const LongWindow: nat := 200
  const StopLossFactor: real := 0.98
  const ChartBars: nat := 126

  function Closes(bars: seq<Bar>): (r: seq<real>)
    ensures |r| == |bars|
    ensures forall i :: 0 <= i < |bars| ==> r[i] == bars[i].close
  {
    seq(|bars|, i requires 0 <= i < |bars| => bars[i].close)
  }

  function Highs(bars: seq<Bar>): (r: seq<real>)
    ensures |r| == |bars|
    ensures forall i :: 0 <= i < |bars| ==> r[i] == bars[i].high
  {
    seq(|bars|, i requires 0 <= i < |bars| => bars[i].high)
  }

  function Lows(bars: seq<Bar>): (r: seq<real>)
    ensures |r| == |bars|
    ensures forall i :: 0 <= i < |bars| ==> r[i] == bars[i].low
  {
    seq(|bars|, i requires 0 <= i < |bars| => bars[i].low)
  }

  function Sum(xs: seq<real>): real
  {
    if xs == [] then 0.0 else xs[0] + Sum(xs[1..])
  }

  /** The arithmetic mean, pandas' `Series.mean()` on a non-empty series. */
  function Mean(xs: seq<real>): real
    requires |xs| > 0
  {
    Sum(xs) / (|xs| as real)
  }

  /** pandas' `tail(n)`: the last `n` elements, or all of them when there are fewer. */
  function Tail<T>(xs: seq<T>, n: nat): (r: seq<T>)
    ensures |r| == if |xs| <= n then |xs| else n
    ensures r == xs[|xs| - |r|..]
  {
    if |xs| <= n then xs else xs[|xs| - n..]
  }

  /** The largest element: at least every element, and one of them. */
  function Maximum(xs: seq<real>): (m: real)
    requires |xs| > 0
    ensures forall i :: 0 <= i < |xs| ==> xs[i] <= m
    ensures exists i :: 0 <= i < |xs| && xs[i] == m
  {
    if |xs| == 1 then xs[0]
    else
      var t := Maximum(xs[1..]);
      assert forall i :: 1 <= i < |xs| ==> xs[i] == xs[1..][i - 1];
      if xs[0] >= t then xs[0] else t
  }

  /** The smallest element: at most every element, and one of them. */
  function Minimum(xs: seq<real>): (m: real)
    requires |xs| > 0
    ensures forall i :: 0 <= i < |xs| ==> m <= xs[i]
    ensures exists i :: 0 <= i < |xs| && xs[i] == m
  {
    if |xs| == 1 then xs[0]
    else
      var t := Minimum(xs[1..]);
      assert forall i :: 1 <= i < |xs| ==> xs[i] == xs[1..][i - 1];
      if xs[0] <= t then xs[0] else t
  }

  /**
   * `closes.rolling(window=w).mean().iloc[-1] if len(closes) >= w else 0`:
   * the mean of the last `w` closes, and the sentinel 0 when the history is
   * shorter than the window. The sentinel cannot be told apart from a real
   * average of 0, and the recommendation compares against it as if it were a
   * price (see Signals.Recommend).
   */
  function MovingAverage(closes: seq<real>, w: nat): real
    requires w > 0
  {
    if |closes| >= w then Mean(closes[|closes| - w..]) else 0.0
  }

  /** `ma200 * 0.98`, applied to the sentinel as well. */
  function StopLoss(ma200: real): real
  {
    ma200 * StopLossFactor
  }

  /** `history['High'].max()`; pandas yields NaN on an empty history, modelled as `None`. */
  function AllTimeHigh(history: seq<Bar>): (r: Option<real>)
    ensures r.None? <==> history == []
    ensures r.Some? ==> forall i :: 0 <= i < |history| ==> history[i].high <= r.value
    ensures r.Some? ==> exists i :: 0 <= i < |history| && history[i].high == r.value
  {
    if history == [] then None else Some(Maximum(Highs(history)))
  }

  /** `history['Low'].min()`; `None` on an empty history. */
  function AllTimeLow(history: seq<Bar>): (r: Option<real>)
    ensures r.None? <==> history == []
    ensures r.Some? ==> forall i :: 0 <= i < |history| ==> r.value <= history[i].low
    ensures r.Some? ==> exists i :: 0 <= i < |history| && history[i].low == r.value
  {
    if history == [] then None else Some(Minimum(Lows(history)))
  }

  /** `list(history.tail(126)['Close'])`: the closes of the most recent 126 bars, in order. */
  function ChartData(history: seq<Bar>): (r: seq<real>)
    ensures |r| == if |history| <= ChartBars then |history| else ChartBars
    ensures forall i :: 0 <= i < |r| ==> r[i] == history[|history| - |r| + i].close
  {
    Closes(Tail(history, ChartBars))
  }

  // ---------------------------------------------------------------------
  // Sums and means

  lemma {:induction false} SumAppend(a: seq<real>, b: seq<real>)
    ensures Sum(a + b) == Sum(a) + Sum(b)
  {
    if a == [] {
      assert a + b == b;
    } else {
      assert (a + b)[1..] == a[1..] + b;
      SumAppend(a[1..], b);
    }
  }

  lemma {:induction false} SumAtLeast(xs: seq<real>, lo: real)
    requires forall i :: 0 <= i < |xs| ==> lo <= xs[i]
    ensures lo * (|xs| as real) <= Sum(xs)
  {
    if xs != [] {
      SumAtLeast(xs[1..], lo);
      assert lo * (|xs| as real) == lo + lo * (|xs[1..]| as real);
    }
  }

  lemma {:induction false} SumAtMost(xs: seq<real>, hi: real)
    requires forall i :: 0 <= i < |xs| ==> xs[i] <= hi
    ensures Sum(xs) <= hi * (|xs| as real)
  {
    if xs != [] {
      SumAtMost(xs[1..], hi);
      assert hi * (|xs| as real) == hi + hi * (|xs[1..]| as real);
    }
  }

  lemma {:induction false} SumBelow(xs: seq<real>, hi: real)
    requires |xs| > 0
    requires forall i :: 0 <= i < |xs| ==> xs[i] < hi
    ensures Sum(xs) < hi * (|xs| as real)
  {
    SumAtMost(xs[1..], hi);
    assert hi * (|xs| as real) == hi + hi * (|xs[1..]| as real);
  }

  lemma {:induction false} SumAbove(xs: seq<real>, lo: real)
    requires |xs| > 0
    requires forall i :: 0 <= i < |xs| ==> lo < xs[i]
    ensures lo * (|xs| as real) < Sum(xs)
  {
    SumAtLeast(xs[1..], lo);
    assert lo * (|xs| as real) == lo + lo * (|xs[1..]| as real);
  }

  lemma QuotientAtLeast(s: real, n: real, lo: real)
    requires n > 0.0 && lo * n <= s
    ensures lo <= s / n
  {
  }

  lemma QuotientAtMost(s: real, n: real, hi: real)
    requires n > 0.0 && s <= hi * n
    ensures s / n <= hi
  {
  }

  lemma MeanAtLeastMinimum(xs: seq<real>)
    requires |xs| > 0
    ensures Minimum(xs) <= Mean(xs)
  {
    var n, lo, s := |xs| as real, Minimum(xs), Sum(xs);
    SumAtLeast(xs, lo);
    QuotientAtLeast(s, n, lo);
  }

  lemma MeanAtMostMaximum(xs: seq<real>)
    requires |xs| > 0
    ensures Mean(xs) <= Maximum(xs)
  {
    var n, hi, s := |xs| as real, Maximum(xs), Sum(xs);
    SumAtMost(xs, hi);
    QuotientAtMost(s, n, hi);
  }

  /** A mean lies between the smallest and the largest element. */
  lemma MeanWithinRange(xs: seq<real>)
    requires |xs| > 0
    ensures Minimum(xs) <= Mean(xs) <= Maximum(xs)
  {
    MeanAtLeastMinimum(xs);
    MeanAtMostMaximum(xs);
  }

  // ---------------------------------------------------------------------
  // Properties of the moving averages and the stop-loss

  /**
   * With enough history the moving average is a true average of the last `w`
   * closes: it lies between the lowest and the highest close of that window.
   * With less history it is the sentinel 0: no partial window is ever used.
   */
  lemma MovingAverageOfWindow(closes: seq<real>, w: nat)
    requires w > 0
    ensures |closes| < w ==> MovingAverage(closes, w) == 0.0
    ensures |closes| >= w ==>
      var window := closes[|closes| - w..];
      Minimum(window) <= MovingAverage(closes, w) <= Maximum(window)
  {
    if |closes| >= w {
      MeanWithinRange(closes[|closes| - w..]);
    }
  }

  /** Bars older than the window never influence the moving average. */
  lemma MovingAverageIgnoresOlderBars(older: seq<real>, closes: seq<real>, w: nat)
    requires 0 < w <= |closes|
    ensures MovingAverage(older + closes, w) == MovingAverage(closes, w)
  {
    var s := older + closes;
    assert s[|s| - w..] == closes[|closes| - w..];
  }

  /** On a history shorter than 200 bars the stop-loss is the sentinel 0 as well. */
  lemma StopLossOfShortHistory(closes: seq<real>)
    requires |closes| < LongWindow
    ensures StopLoss(MovingAverage(closes, LongWindow)) == 0.0
  {
  }

  /**
   * With 200 bars of positive closes the stop-loss is a positive level strictly
   * below the 200-bar average, two percent under it.
   */
  lemma StopLossBelowAverage(closes: seq<real>)
    requires |closes| >= LongWindow
    requires forall i :: |closes| - LongWindow <= i < |closes| ==> closes[i] > 0.0
    ensures var ma := MovingAverage(closes, LongWindow);
      0.0 < StopLoss(ma) < ma && ma - StopLoss(ma) == ma / 50.0
  {
    var window := closes[|closes| - LongWindow..];
    MovingAverageOfWindow(closes, LongWindow);
    assert Minimum(window) > 0.0;
  }

  // ---------------------------------------------------------------------
  // Currency advisory (lines 25-32)

  datatype Advice = Wait | ConvertNow

  function AdviceLabel(a: Advice): string
  {
    match a
    case Wait => "WAIT - Upward Trend"
    case ConvertNow => "CONVERT NOW - Downward Trend"
  }

  /** The two pieces of advice go out under different labels. */
  lemma AdviceLabelsDiffer(a: Advice, b: Advice)
    ensures AdviceLabel(a) == AdviceLabel(b) <==> a == b
  {
  }

  datatype CurrencyAdvisory = CurrencyAdvisory(rate: real, advice: Advice)

  /**
   * The rate is the last close; the advice compares the mean of the last 5
   * closes with the mean of the last 20 (of all of them when there are fewer,
   * as pandas' `tail` does). An empty series makes `iloc[-1]` raise, which
   * fails the whole request: `None` here.
   */
  function CurrencyAdvice(rates: seq<real>): (r: Option<CurrencyAdvisory>)
    ensures r.None? <==> rates == []
    ensures r.Some? ==> r.value.rate == rates[|rates| - 1]
  {
    if rates == [] then None
    else
      var sma5 := Mean(Tail(rates, 5));
      var sma20 := Mean(Tail(rates, 20));
      Some(CurrencyAdvisory(rates[|rates| - 1], if sma5 > sma20 then Wait else ConvertNow))
  }

  /** With at least 20 rates the advice is WAIT exactly when the 5-bar mean of the last closes beats the 20-bar one. */
  lemma CurrencyAdviceIsCrossover(rates: seq<real>)
    requires |rates| >= 20
    ensures CurrencyAdvice(rates).Some?
    ensures CurrencyAdvice(rates).value.advice == Wait <==>
      Mean(rates[|rates| - 5..]) > Mean(rates[|rates| - 20..])
  {
  }

  /** With 5 to 19 rates, the long mean is taken over the whole series. */
  lemma ShortFxAdvice(rates: seq<real>)
    requires 5 <= |rates| < 20
    ensures CurrencyAdvice(rates).Some?
    ensures CurrencyAdvice(rates).value.advice == Wait <==> Mean(rates[|rates| - 5..]) > Mean(rates)
  {
  }

  /** With 1 to 4 rates, both means are over the whole series, so the advice is CONVERT NOW. */
  lemma VeryShortFxAdvice(rates: seq<real>)
    requires 1 <= |rates| < 5
    ensures CurrencyAdvice(rates).Some? && CurrencyAdvice(rates).value.advice == ConvertNow
  {
  }

  predicate StrictlyIncreasing(xs: seq<real>)
  {
    forall i, j :: 0 <= i < j < |xs| ==> xs[i] < xs[j]
  }

  predicate StrictlyDecreasing(xs: seq<real>)
  {
    forall i, j :: 0 <= i < j < |xs| ==> xs[i] > xs[j]
  }

  /** Splits the last 20 rates into the 15 older ones and the last 5, and the two means accordingly. */
  lemma SplitWindow(rates: seq<real>) returns (older: seq<real>, recent: seq<real>)
    requires |rates| >= 20
    ensures older == rates[|rates| - 20..|rates| - 5] && recent == rates[|rates| - 5..]
    ensures Mean(Tail(rates, 5)) == Sum(recent) / 5.0
    ensures Mean(Tail(rates, 20)) == (Sum(older) + Sum(recent)) / 20.0
  {
    var n := |rates|;
    older, recent := rates[n - 20..n - 5], rates[n - 5..];
    assert rates[n - 20..] == older + recent;
    SumAppend(older, recent);
  }

  /** On rising rates the older 15 lie below the first of the last 5, and the last 5 at or above it. */
  lemma RisingBounds(rates: seq<real>, older: seq<real>, recent: seq<real>)
    requires |rates| >= 20 && StrictlyIncreasing(rates)
    requires older == rates[|rates| - 20..|rates| - 5] && recent == rates[|rates| - 5..]
    ensures Sum(older) < recent[0] * 15.0 && recent[0] * 5.0 <= Sum(recent)
  {
    var x := recent[0];
    forall i | 0 <= i < |older|
      ensures older[i] < x
    {
      assert older[i] == rates[|rates| - 20 + i] && x == rates[|rates| - 5];
    }
    forall i | 0 <= i < |recent|
      ensures x <= recent[i]
    {
      assert recent[i] == rates[|rates| - 5 + i] && x == rates[|rates| - 5];
    }
    SumBelow(older, x);
    SumAtLeast(recent, x);
  }

  /** On falling rates the older 15 lie above the first of the last 5, and the last 5 at or below it. */
  lemma FallingBounds(rates: seq<real>, older: seq<real>, recent: seq<real>)
    requires |rates| >= 20 && StrictlyDecreasing(rates)
    requires older == rates[|rates| - 20..|rates| - 5] && recent == rates[|rates| - 5..]
    ensures recent[0] * 15.0 < Sum(older) && Sum(recent) <= recent[0] * 5.0
  {
    var x := recent[0];
    forall i | 0 <= i < |older|
      ensures older[i] > x
    {
      assert older[i] == rates[|rates| - 20 + i] && x == rates[|rates| - 5];
    }
    forall i | 0 <= i < |recent|
      ensures recent[i] <= x
    {
      assert recent[i] == rates[|rates| - 5 + i] && x == rates[|rates| - 5];
    }
    SumAbove(older, x);
    SumAtMost(recent, x);
  }

  /** Fifteen values under `x` beside five at least `x`: the five have the higher mean. */
  lemma RecentAboveWhole(sa: real, sb: real, x: real)
    requires sa < x * 15.0 && x * 5.0 <= sb
    ensures sb / 5.0 > (sa + sb) / 20.0
  {
  }

  /** Fifteen values over `x` beside five at most `x`: the five have the lower mean. */
  lemma RecentBelowWhole(sa: real, sb: real, x: real)
    requires x * 15.0 < sa && sb <= x * 5.0
    ensures sb / 5.0 < (sa + sb) / 20.0
  {
  }

  /** A rate that rose over each of the last 20 periods gives WAIT. */
  lemma RisingRatesSayWait(rates: seq<real>)
    requires |rates| >= 20 && StrictlyIncreasing(rates)
    ensures CurrencyAdvice(rates).Some? && CurrencyAdvice(rates).value.advice == Wait
  {
    var older, recent := SplitWindow(rates);
    RisingBounds(rates, older, recent);
    RecentAboveWhole(Sum(older), Sum(recent), recent[0]);
  }

  /** A rate that fell over each of the last 20 periods gives CONVERT NOW. */
  lemma FallingRatesSayConvert(rates: seq<real>)
    requires |rates| >= 20 && StrictlyDecreasing(rates)
    ensures CurrencyAdvice(rates).Some? && CurrencyAdvice(rates).value.advice == ConvertNow
  {
    var older, recent := SplitWindow(rates);
    FallingBounds(rates, older, recent);
    RecentBelowWhole(Sum(older), Sum(recent), recent[0]);
  }

  /** A flat rate is no upward trend: equal means give CONVERT NOW. */
  lemma {:induction false} FlatRatesSayConvert(rates: seq<real>, c: real)
    requires |rates| >= 20 && forall i :: 0 <= i < |rates| ==> rates[i] == c
    ensures CurrencyAdvice(rates).Some? && CurrencyAdvice(rates).value.advice == ConvertNow
  {
    var older, recent := SplitWindow(rates);
    assert forall i :: 0 <= i < |older| ==> older[i] == rates[|rates| - 20 + i];
    assert forall i :: 0 <= i < |recent| ==> recent[i] == rates[|rates| - 5 + i];
    ConstantSum(older, c);
    ConstantSum(recent, c);
    FlatMeans(Sum(older), Sum(recent), c);
  }

  /** A slice of constant rates sums to its length times the constant. */
  lemma ConstantSum(xs: seq<real>, c: real)
    requires forall i :: 0 <= i < |xs| ==> xs[i] == c
    ensures Sum(xs) == c * (|xs| as real)
  {
    SumAtLeast(xs, c);
    SumAtMost(xs, c);
  }

  /** Equal parts give equal means. */
  lemma FlatMeans(sa: real, sb: real, c: real)
    requires sa == c * 15.0 && sb == c * 5.0
    ensures sb / 5.0 == (sa + sb) / 20.0
  {
  }

}
