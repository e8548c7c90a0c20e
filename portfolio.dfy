/**
 * The portfolio snapshot assembled by `lambda_handler` in user_price_fetcher.py
 * (lines 24-140): the currency advisory, then one pass over the user's
 * subscriptions building one snapshot per instrument and collecting the
 * earnings calendar, which is sorted at the end. The provider's answers for
 * each instrument are inputs.
 */
module Portfolio {
  import opened Wrappers
  import opened Indicators
  import opened Risk
  import opened Signals
  import opened Calendar

  /** The metadata keys of `stock.info` the handler reads; `None` is a missing key. */
  datatype Info = Info(
    currentPrice: Option<real>,
    regularMarketPrice: Option<real>,
    trailingPE: Option<real>,
    trailingEps: Option<real>,
    forwardEps: Option<real>,
    operatingMargins: Option<real>,
    revenueGrowth: Option<real>,
    fiftyTwoWeekHigh: Option<real>,
    fiftyTwoWeekLow: Option<real>,
    totalDebt: Option<real>,
    freeCashflow: Option<real>)

  /** What the provider returns for one symbol: metadata, one year of bars, the next earnings date and the news titles. */
  datatype MarketData = MarketData(info: Info, history: seq<Bar>, earnings: Option<EarningsDate>, news: seq<Option<string>>)

  /** One stored subscription row: the ticker and the sentiment a separate job may have written. */
  datatype Subscription = Subscription(ticker: string, sentiment: Option<string>)

  datatype Instrument = Instrument(subscription: Subscription, market: MarketData)

  datatype Technicals = Technicals(
    ma50: real, ma200: real, ath: Option<real>, atl: Option<real>,
    h52: Option<real>, l52: Option<real>, stopLoss: real)

  datatype Fundamentals = Fundamentals(
    pe: real, eps: Option<real>, debt: Option<real>, cashFlow: Option<real>, earningsStatus: EarningsStatus)

  datatype InstrumentSnapshot = InstrumentSnapshot(
    ticker: string,
    sentiment: string,
    currentPrice: real,
    strengthWeakness: string,
    chartData: seq<real>,
    recommendation: Recommendation,
    tech: Technicals,
    fundamentals: Fundamentals,
    geoStatus: GeoStatus,
    geoRiskScore: nat,
    earningsDate: string,
    insight: string)

  datatype PortfolioSnapshot = PortfolioSnapshot(
    portfolio: seq<InstrumentSnapshot>,
    currency: CurrencyAdvisory,
    earningsCalendar: seq<CalendarEntry>,
    forex: Option<real>)

  const DefaultSentiment: string := "NEUTRAL"

  function TechnicalsOf(history: seq<Bar>, info: Info): Technicals
  {
    var ma200 := MovingAverage(Closes(history), LongWindow);
    Technicals(MovingAverage(Closes(history), ShortWindow), ma200,
      AllTimeHigh(history), AllTimeLow(history),
      info.fiftyTwoWeekHigh, info.fiftyTwoWeekLow, StopLoss(ma200))
  }

  function FundamentalsOf(info: Info): Fundamentals
  {
    Fundamentals(OrZero(info.trailingPE), info.trailingEps, info.totalDebt, info.freeCashflow,
      EarningsStatusOf(info.trailingEps, info.forwardEps))
  }

  /** The snapshot of one instrument (the dictionary appended at lines 103-131). */
  function SnapshotOf(inst: Instrument): InstrumentSnapshot
  {
    var info := inst.market.info;
    var sentiment := inst.subscription.sentiment.GetOr(DefaultSentiment);
    var tech := TechnicalsOf(inst.market.history, info);
    var price := CurrentPrice(info.currentPrice, info.regularMarketPrice);
    var pe := OrZero(info.trailingPE);
    var earningsDate := EarningsDateLabel(inst.market.earnings);
    var score := GeoRiskScore(inst.market.news);
    InstrumentSnapshot(inst.subscription.ticker, sentiment, price,
      Narrative(info.operatingMargins, info.revenueGrowth),
      ChartData(inst.market.history),
      Recommend(price, tech.ma200, pe), tech, FundamentalsOf(info),
      StatusOf(score), score, earningsDate, Insight(pe, sentiment, earningsDate))
  }

  /** The calendar entry one instrument contributes, if any. */
  function EntryOf(inst: Instrument, today: int): Option<CalendarEntry>
  {
    CalendarEntryFor(inst.subscription.ticker, inst.market.earnings, today)
  }

  /** The snapshots appended to `portfolio_data`, in subscription order. */
  function Snapshots(xs: seq<Instrument>): seq<InstrumentSnapshot>
  {
    Mapped(SnapshotOf, xs)
  }

  /** `f` applied to each element, built by appending as the loop does. */
  function Mapped<A, B>(f: A -> B, xs: seq<A>): seq<B>
  {
    if xs == [] then [] else Mapped(f, xs[..|xs| - 1]) + [f(xs[|xs| - 1])]
  }

  lemma {:induction false} MappedAt<A, B>(f: A -> B, xs: seq<A>)
    ensures |Mapped(f, xs)| == |xs|
    ensures forall i :: 0 <= i < |xs| ==> Mapped(f, xs)[i] == f(xs[i])
    decreases |xs|
  {
    if xs != [] {
      var init := xs[..|xs| - 1];
      MappedAt(f, init);
      assert forall i :: 0 <= i < |init| ==> init[i] == xs[i];
    }
  }

  lemma {:induction false} MappedAppend<A, B>(f: A -> B, a: seq<A>, b: seq<A>)
    ensures Mapped(f, a + b) == Mapped(f, a) + Mapped(f, b)
    decreases |b|
  {
    if b == [] {
      assert a + b == a;
    } else {
      var b' := b[..|b| - 1];
      assert (a + b)[..|a + b| - 1] == a + b';
      assert (a + b)[|a + b| - 1] == b[|b| - 1];
      MappedAppend(f, a, b');
    }
  }

  lemma MappedStep<A, B>(f: A -> B, xs: seq<A>, i: nat)
    requires i < |xs|
    ensures Mapped(f, xs[..i + 1]) == Mapped(f, xs[..i]) + [f(xs[i])]
  {
    assert xs[..i + 1][..i] == xs[..i];
  }

  /** The entries appended to `global_earnings_calendar`, in subscription order. */
  function CalendarEntries(xs: seq<Instrument>, today: int): seq<CalendarEntry>
  {
    if xs == [] then []
    else
      var last := EntryOf(xs[|xs| - 1], today);
      CalendarEntries(xs[..|xs| - 1], today) + (if last.Some? then [last.value] else [])
  }

  /**
   * The whole response body: a failure when the rate history is empty (the
   * exception of line 27), otherwise the snapshots in subscription order, the
   * currency advisory and the sorted calendar.
   */
  function PortfolioOf(xs: seq<Instrument>, fxRates: seq<real>, forex: Option<real>, today: int): Result<PortfolioSnapshot>
  {
    match CurrencyAdvice(fxRates)
    case None => Failure("empty exchange-rate history")
    case Some(currency) =>
      Success(PortfolioSnapshot(Snapshots(xs), currency, SortByDays(CalendarEntries(xs, today)), forex))
  }

  // ---------------------------------------------------------------------
  // The imperative handler

  /** The body of the loop over `user_items`, in the order the source computes it. */
  method AnalyzeInstrument(inst: Instrument, today: int) returns (snapshot: InstrumentSnapshot, entry: Option<CalendarEntry>)
    ensures snapshot == SnapshotOf(inst)
    ensures entry == EntryOf(inst, today)
  {
    var symbol := inst.subscription.ticker;
    var info := inst.market.info;
    var history := inst.market.history;
    var sentiment := inst.subscription.sentiment.GetOr(DefaultSentiment);
    var chart := ChartData(history);

    var strengthWeakness := BuildNarrative(info.operatingMargins, info.revenueGrowth);

    var closes := Closes(history);
    var ma50 := MovingAverage(closes, ShortWindow);
    var ma200 := MovingAverage(closes, LongWindow);
    var ath := AllTimeHigh(history);
    var atl := AllTimeLow(history);
    var currentPrice := CurrentPrice(info.currentPrice, info.regularMarketPrice);

    var earningsDate := NoEarningsDate;
    entry := None;
    if inst.market.earnings.Some? {
      var raw := inst.market.earnings.value;
      earningsDate := raw.text;
      var daysUntil := DaysUntil(raw.day, today);
      if 0 <= daysUntil <= CalendarDays {
        entry := Some(CalendarEntry(symbol, earningsDate, daysUntil));
      }
    }

    var riskScore := ScoreHeadlines(inst.market.news);
    var geoStatus := StatusOf(riskScore);

    var pe := OrZero(info.trailingPE);
    var recommendation := Hold;
    if BuySignal(currentPrice, ma200, pe) {
      recommendation := Buy;
    } else if currentPrice < ma200 * StopLossFactor {
      recommendation := Sell;
    }
    var insight := Insight(pe, sentiment, earningsDate);

    snapshot := InstrumentSnapshot(symbol, sentiment, currentPrice, strengthWeakness, chart, recommendation,
      Technicals(ma50, ma200, ath, atl, info.fiftyTwoWeekHigh, info.fiftyTwoWeekLow, StopLoss(ma200)),
      FundamentalsOf(info), geoStatus, riskScore, earningsDate, insight);
  }

  /** What one more turn of the loop adds to the calendar. */
  lemma CalendarStep(xs: seq<Instrument>, i: nat, today: int)
    requires i < |xs|
    ensures var e := EntryOf(xs[i], today);
      CalendarEntries(xs[..i + 1], today) == CalendarEntries(xs[..i], today) + (if e.Some? then [e.value] else [])
  {
    assert xs[..i + 1][..i] == xs[..i];
  }

  /** The loop of lines 37-131: one snapshot per subscription, and the calendar entries, in order. */
  method CollectSnapshots(xs: seq<Instrument>, today: int)
    returns (portfolio: seq<InstrumentSnapshot>, calendar: seq<CalendarEntry>)
    ensures portfolio == Snapshots(xs)
    ensures calendar == CalendarEntries(xs, today)
  {
    portfolio, calendar := [], [];
    for i := 0 to |xs|
      invariant portfolio == Snapshots(xs[..i])
      invariant calendar == CalendarEntries(xs[..i], today)
    {
      var snapshot, entry := AnalyzeInstrument(xs[i], today);
      portfolio := portfolio + [snapshot];
      if entry.Some? {
        calendar := calendar + [entry.value];
      }
      MappedStep(SnapshotOf, xs, i);
      CalendarStep(xs, i, today);
    }
    assert xs[..|xs|] == xs;
  }

  /** `lambda_handler` from the currency advisory to the response body. */
  method BuildPortfolio(xs: seq<Instrument>, fxRates: seq<real>, forex: Option<real>, today: int)
    returns (r: Result<PortfolioSnapshot>)
    ensures r == PortfolioOf(xs, fxRates, forex, today)
  {
    if fxRates == [] {
      return Failure("empty exchange-rate history");
    }
    var currentFx := fxRates[|fxRates| - 1];
    var sma5 := Mean(Tail(fxRates, 5));
    var sma20 := Mean(Tail(fxRates, 20));
    var advice := if sma5 > sma20 then Wait else ConvertNow;
    assert CurrencyAdvice(fxRates) == Some(CurrencyAdvisory(currentFx, advice));

    var portfolio, calendar := CollectSnapshots(xs, today);
    r := Success(PortfolioSnapshot(portfolio, CurrencyAdvisory(currentFx, advice), SortByDays(calendar), forex));
  }

  // ---------------------------------------------------------------------
  // Properties of the snapshot

  /** The request fails exactly when there is no exchange-rate history. */
  lemma FailsOnlyWithoutRates(xs: seq<Instrument>, fxRates: seq<real>, forex: Option<real>, today: int)
    ensures PortfolioOf(xs, fxRates, forex, today).Failure? <==> fxRates == []
  {
  }

  lemma SnapshotsAt(xs: seq<Instrument>)
    ensures |Snapshots(xs)| == |xs|
    ensures forall i :: 0 <= i < |xs| ==> Snapshots(xs)[i] == SnapshotOf(xs[i])
  {
    MappedAt(SnapshotOf, xs);
  }

  /** One snapshot per subscription, in subscription order. */
  lemma SnapshotsFollowSubscriptions(xs: seq<Instrument>, fxRates: seq<real>, forex: Option<real>, today: int)
    requires fxRates != []
    ensures var p := PortfolioOf(xs, fxRates, forex, today).value.portfolio;
      |p| == |xs| && forall i :: 0 <= i < |xs| ==> p[i] == SnapshotOf(xs[i]) && p[i].ticker == xs[i].subscription.ticker
  {
    SnapshotsAt(xs);
  }

  /**
   * Instruments are processed independently: the snapshots of a concatenation
   * are the concatenation of the snapshots, so leaving one instrument out
   * neither changes nor reorders the others.
   */
  lemma SnapshotsAppend(a: seq<Instrument>, b: seq<Instrument>)
    ensures Snapshots(a + b) == Snapshots(a) + Snapshots(b)
  {
    MappedAppend(SnapshotOf, a, b);
  }

  lemma {:induction false} CalendarEntriesAppend(a: seq<Instrument>, b: seq<Instrument>, today: int)
    ensures CalendarEntries(a + b, today) == CalendarEntries(a, today) + CalendarEntries(b, today)
    decreases |b|
  {
    if b == [] {
      assert a + b == a;
    } else {
      var b' := b[..|b| - 1];
      assert (a + b)[..|a + b| - 1] == a + b';
      assert (a + b)[|a + b| - 1] == b[|b| - 1];
      CalendarEntriesAppend(a, b', today);
    }
  }

  /** Every collected entry is one instrument's own entry, due within the 30-day window. */
  lemma {:induction false} CalendarEntriesAreDue(xs: seq<Instrument>, today: int)
    ensures forall e :: e in CalendarEntries(xs, today) ==>
      0 <= e.daysLeft <= CalendarDays && exists i :: 0 <= i < |xs| && EntryOf(xs[i], today) == Some(e)
    decreases |xs|
  {
    if xs != [] {
      var init := xs[..|xs| - 1];
      CalendarEntriesAreDue(init, today);
      forall e | e in CalendarEntries(xs, today)
        ensures 0 <= e.daysLeft <= CalendarDays && exists i :: 0 <= i < |xs| && EntryOf(xs[i], today) == Some(e)
      {
        if e in CalendarEntries(init, today) {
          var i :| 0 <= i < |init| && EntryOf(init[i], today) == Some(e);
          assert xs[i] == init[i];
        } else {
          assert EntryOf(xs[|xs| - 1], today) == Some(e);
        }
      }
    }
  }

  /** An instrument whose entry is due appears in the collected calendar. */
  lemma {:induction false} DueEntriesAreCollected(xs: seq<Instrument>, today: int, i: nat)
    requires i < |xs| && EntryOf(xs[i], today).Some?
    ensures EntryOf(xs[i], today).value in CalendarEntries(xs, today)
    decreases |xs|
  {
    if i < |xs| - 1 {
      var init := xs[..|xs| - 1];
      assert init[i] == xs[i];
      DueEntriesAreCollected(init, today, i);
    }
  }

  /**
   * The reported calendar is ordered by days left, lists each due entry, lists
   * nothing out of the 30-day window, and keeps subscription order among
   * entries due the same day.
   */
  lemma CalendarIsSortedAndComplete(xs: seq<Instrument>, fxRates: seq<real>, forex: Option<real>, today: int)
    requires fxRates != []
    ensures var cal := PortfolioOf(xs, fxRates, forex, today).value.earningsCalendar;
      && SortedByDays(cal)
      && multiset(cal) == multiset(CalendarEntries(xs, today))
      && (forall k :: WithDays(cal, k) == WithDays(CalendarEntries(xs, today), k))
      && (forall e :: e in cal ==> 0 <= e.daysLeft <= CalendarDays)
      && (forall i :: 0 <= i < |xs| && EntryOf(xs[i], today).Some? ==> EntryOf(xs[i], today).value in cal)
  {
    var entries := CalendarEntries(xs, today);
    var cal := SortByDays(entries);
    CalendarEntriesAreDue(xs, today);
    forall e | e in cal
      ensures 0 <= e.daysLeft <= CalendarDays
    {
      assert e in multiset(cal);
    }
    forall i | 0 <= i < |xs| && EntryOf(xs[i], today).Some?
      ensures EntryOf(xs[i], today).value in cal
    {
      DueEntriesAreCollected(xs, today, i);
      assert EntryOf(xs[i], today).value in multiset(entries);
    }
  }

  /**
   * The fields of one snapshot agree with each other: the stop-loss is 98% of
   * the 200-bar average, a SELL is below the stop-loss, the status is the
   * score's band, a "TBD" date never reaches the calendar, and the insight
   * quotes the sentiment and the earnings date it names.
   */
  lemma SnapshotIsConsistent(inst: Instrument, today: int)
    ensures var s := SnapshotOf(inst);
      && s.tech.stopLoss == s.tech.ma200 * StopLossFactor
      && (s.recommendation == Sell ==> s.currentPrice < s.tech.stopLoss)
      && s.geoStatus == StatusOf(s.geoRiskScore)
      && (inst.market.earnings.None? ==> s.earningsDate == NoEarningsDate && EntryOf(inst, today).None?)
      && (inst.subscription.sentiment.None? ==> s.sentiment == DefaultSentiment)
      && Text.Contains(s.insight, NewsClause(s.sentiment))
      && Text.EndsWith(s.insight, StrategyClause(s.earningsDate))
  {
  }
}
