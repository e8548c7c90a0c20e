# Market intelligence pipeline: portfolio analytics and subscriptions

This project is a Dafny model of the two request handlers of the market
intelligence pipeline.

- **The portfolio fetcher** (`lambda_handler` of `user_price_fetcher.py`).
  For each ticker a user subscribes to, it turns market data into one
  portfolio snapshot:
  - the 50- and 200-bar moving averages, each 0 when the history is too short;
  - the all-time high and low, and the 98 % stop-loss;
  - a margin/growth narrative and the current price;
  - a keyword-weighted geopolitical risk score over the first five headlines, and its STABLE/ELEVATED/CRITICAL band;
  - a BUY/HOLD/SELL recommendation, a templated insight, and the earnings status;
  - the last 126 closes for the chart.

  It also collects the earnings dates due within 30 days into a calendar sorted
  by days left, and derives the USD/INR advice (WAIT or CONVERT NOW) from a
  5-rate against 20-rate crossover.
- **The subscription handler** (`lambda_handler` of `user_ticker_handler.py`).
  It answers OPTIONS, reads the JSON body, defaults the user to `U001`,
  normalises the ticker (strip, upper-case), refuses a blank one with 400, and
  then adds (POST) or removes (DELETE) the `(user_id, ticker)` row of the
  subscription table, or answers 405.

Market data (the quote fields, the 1-year bar history, the earnings date, the
headlines, the FX closes) and the current day are parameters of the model.
The subscription table is a `map<(string, string), string>` field of the
class `Subscriptions.SubscriptionTable`, which its methods update in place.

Modules:
- `Wrappers`: `Option` and `Result`.
- `Text`: the ASCII case mapping, `strip` and substring test the handlers use.
- `Indicators`: bars, sums and means, the moving averages, extremes, stop-loss, chart data and the currency advice.
- `Risk`: the headline risk score, as a function and as the nested loop of the source, and its status bands.
- `Signals`: the narrative, price, recommendation, insight and earnings status.
- `Calendar`: earnings entries and the stable sort by days left.
- `Portfolio`: one snapshot per instrument; the loop over subscriptions; the whole response.
- `Subscriptions`: the subscription handler.

The model follows the code as written, including these behaviours:
- A missing trailing P/E reads as 0.
  - It therefore never yields BUY (`Signals.MissingPeNeverBuys`).
  - The insight nevertheless calls that valuation "Fair", because `0 < 25`.
  - A negative P/E can yield BUY (`Signals.NegativePeCanBuy`).
- The 200-bar average is the sentinel 0 on a history shorter than 200 bars.
  - Any positive price beats it, so BUY is reachable on a short history (`Signals.ShortHistoryCanBuy`).
  - SELL is then out of reach (`Signals.ShortHistoryNeverSells`).
- The currency means use whatever is available when fewer than 5 or 20 rates exist (pandas `tail`), so 1 to 4 rates always give CONVERT NOW (`Indicators.ShortFxAdvice`, `Indicators.VeryShortFxAdvice`).
- An empty FX series raises an exception, which makes the whole response a 500. Within the model this is the only failure (`Portfolio.FailsOnlyWithoutRates`); the source has others, listed under "## Left out".
- No failure is isolated to one instrument. A quote field that is absent reads as the default the code gives it.

## Model

| member | source | states |
|---|---|---|
| Wrappers.Option.GetOr | user_price_fetcher.py:42 | a missing value reads as the default, a present one as itself |
| Text.TrimStart | user_ticker_handler.py:35 | the result is a suffix of the input, and starts with no whitespace |
| Text.TrimEnd | user_ticker_handler.py:35 | the result is a prefix of the input, and ends with no whitespace |
| Text.Strip | user_ticker_handler.py:35 | `strip()` returns a contiguous slice of its input with only whitespace around it, and that slice neither starts nor ends with whitespace |
| Text.StripEmptyIffAllSpace | user_ticker_handler.py:35-37 | the stripped ticker is empty exactly when the raw ticker is all whitespace |
| Text.StripOfTrimmed | user_ticker_handler.py:35 | stripping a string without surrounding whitespace changes nothing |
| Text.UpperKeepsSpace | user_ticker_handler.py:35 | `upper()` neither creates nor removes whitespace at any position |
| Text.UpperIdempotent | user_ticker_handler.py:35 | `upper()` applied twice equals `upper()` once |
| Text.LowerIdempotent | user_price_fetcher.py:89 | `lower()` applied twice equals `lower()` once |
| Text.LowerOfUpper | user_price_fetcher.py:89 | lower-casing an upper-cased title equals lower-casing the title |
| Text.OccurrenceIsFound | user_price_fetcher.py:91 | an occurrence of the word at any index makes `word in title` true |
| Text.FoundHasOccurrence | user_price_fetcher.py:91 | when `word in title` holds, there is an index where the word occurs |
| Text.ContainsIffOccurs | user_price_fetcher.py:91 | the substring test holds exactly when the word occurs at some index |
| Text.FoundCharsOccur | user_price_fetcher.py:91 | a title that contains the word contains each of the word's characters |
| Indicators.Closes | user_price_fetcher.py:59-60 | the close column has one entry per bar, and each entry is that bar's close |
| Indicators.Highs | user_price_fetcher.py:64 | the high column has one entry per bar, and each entry is that bar's high |
| Indicators.Lows | user_price_fetcher.py:65 | the low column has one entry per bar, and each entry is that bar's low |
| Indicators.Tail | user_price_fetcher.py:28-29 | `tail(n)` is the last `min(n, len)` elements of the series |
| Indicators.Maximum | user_price_fetcher.py:64 | at least every element, and equal to one of them |
| Indicators.Minimum | user_price_fetcher.py:65 | at most every element, and equal to one of them |
| Indicators.AllTimeHigh | user_price_fetcher.py:64 | none exactly for an empty history; otherwise the highest bar high, reached by some bar |
| Indicators.AllTimeLow | user_price_fetcher.py:65 | none exactly for an empty history; otherwise the lowest bar low, reached by some bar |
| Indicators.ChartData | user_price_fetcher.py:47 | the last `min(126, len)` closes, in order |
| Indicators.SumAppend | user_price_fetcher.py:28-29 | the sum of a concatenation is the sum of the sums |
| Indicators.SumAtLeast | user_price_fetcher.py:59-60 | a lower bound on every element bounds the sum by count times that bound |
| Indicators.SumAtMost | user_price_fetcher.py:59-60 | an upper bound on every element bounds the sum by count times that bound |
| Indicators.SumBelow | user_price_fetcher.py:28-32 | a strict upper bound on every element of a non-empty series bounds the sum strictly |
| Indicators.SumAbove | user_price_fetcher.py:28-32 | a strict lower bound on every element of a non-empty series bounds the sum strictly |
| Indicators.QuotientAtLeast | user_price_fetcher.py:59-60 | helper for `MeanAtLeastMinimum`: dividing a sum bounded below by `lo * n` by `n > 0` gives at least `lo` (real arithmetic) |
| Indicators.QuotientAtMost | user_price_fetcher.py:59-60 | helper for `MeanAtMostMaximum`: dividing a sum bounded above by `hi * n` by `n > 0` gives at most `hi` (real arithmetic) |
| Indicators.MeanAtLeastMinimum | user_price_fetcher.py:59-60 | a mean is at least the smallest element |
| Indicators.MeanAtMostMaximum | user_price_fetcher.py:59-60 | a mean is at most the largest element |
| Indicators.MeanWithinRange | user_price_fetcher.py:59-60 | a mean lies between the smallest and the largest element |
| Indicators.MovingAverageOfWindow | user_price_fetcher.py:59-60 | with fewer closes than the window the average is exactly 0; otherwise it lies between the lowest and highest close of the last `w` closes |
| Indicators.MovingAverageIgnoresOlderBars | user_price_fetcher.py:59-60 | closes older than the window do not change the moving average |
| Indicators.StopLossOfShortHistory | user_price_fetcher.py:118 | with under 200 bars the stop-loss is 0 |
| Indicators.StopLossBelowAverage | user_price_fetcher.py:118 | when the last 200 closes are positive, the stop-loss is positive, below the 200-bar average, and exactly one fiftieth of it below |
| Indicators.CurrencyAdvice | user_price_fetcher.py:26-32 | none exactly when there is no rate (the source raises); otherwise the rate is the last close |
| Indicators.AdviceLabelsDiffer | user_price_fetcher.py:32 | "WAIT - Upward Trend" and "CONVERT NOW - Downward Trend" name one piece of advice each |
| Indicators.CurrencyAdviceIsCrossover | user_price_fetcher.py:28-32 | with at least 20 rates, WAIT exactly when the mean of the last 5 exceeds the mean of the last 20 |
| Indicators.ShortFxAdvice | user_price_fetcher.py:28-32 | with 5 to 19 rates, WAIT exactly when the mean of the last 5 exceeds the mean of the whole series |
| Indicators.VeryShortFxAdvice | user_price_fetcher.py:28-32 | with 1 to 4 rates, both means cover the whole series, so the advice is CONVERT NOW |
| Indicators.SplitWindow | user_price_fetcher.py:28-29 | the 20-rate window is the 15 older rates followed by the 5-rate window; the 5-rate mean is their sum over 5 and the 20-rate mean the total over 20 |
| Indicators.RisingBounds | user_price_fetcher.py:28-29 | on strictly rising rates the 15 older rates sum below 15 times the first of the last 5, and the last 5 sum to at least 5 times it |
| Indicators.FallingBounds | user_price_fetcher.py:28-29 | on strictly falling rates the 15 older rates sum above 15 times the first of the last 5, and the last 5 sum to at most 5 times it |
| Indicators.RecentAboveWhole | user_price_fetcher.py:28-32 | helper for `RisingRatesSayWait`: a real-arithmetic step, the 5-rate mean beats the 20-rate mean when the recent sum is large enough against the older one |
| Indicators.RecentBelowWhole | user_price_fetcher.py:28-32 | helper for `FallingRatesSayConvert`: a real-arithmetic step, the 5-rate mean is below the 20-rate mean when the recent sum is small enough against the older one |
| Indicators.RisingRatesSayWait | user_price_fetcher.py:28-32 | strictly rising rates give WAIT |
| Indicators.FallingRatesSayConvert | user_price_fetcher.py:28-32 | strictly falling rates give CONVERT NOW |
| Indicators.ConstantSum | user_price_fetcher.py:28-29 | constant rates sum to their count times the constant |
| Indicators.FlatMeans | user_price_fetcher.py:28-32 | helper for `FlatRatesSayConvert`: a real-arithmetic step, equal parts give equal 5-rate and 20-rate means |
| Indicators.FlatRatesSayConvert | user_price_fetcher.py:28-32 | constant rates give CONVERT NOW, because the comparison is strict |
| Risk.FirstNews | user_price_fetcher.py:85 | `news[:5]` is the prefix of `min(5, len)` headlines: all of them when there are five or fewer |
| Risk.ShortNewsIsScoredWhole | user_price_fetcher.py:85-91 | with five headlines or fewer, every headline is scored |
| Risk.ScoreHeadlines | user_price_fetcher.py:85-91 | the nested loop over headlines and keywords computes the geopolitical risk score |
| Risk.RiskScoreAppend | user_price_fetcher.py:88-91 | the score of a concatenation of headlines is the sum of the scores |
| Risk.GeoRiskScoreIgnoresLaterNews | user_price_fetcher.py:85 | headlines after the fifth never change the score |
| Risk.TableScore | user_price_fetcher.py:87-91 | a title scores 30/25/25/15/10 for each of war/tariff/sanction/election/trade it contains, and 105 at most |
| Risk.KeywordScoreAtMostTotal | user_price_fetcher.py:90-91 | a title scores at most the total weight of the table |
| Risk.RiskScoreAtMostPerItem | user_price_fetcher.py:88-91 | a list of headlines scores at most 105 per headline |
| Risk.GeoRiskScoreBounded | user_price_fetcher.py:85-91 | the risk score lies between 0 and 525 |
| Risk.HeadlineScoreIgnoresCase | user_price_fetcher.py:89-91 | upper- or lower-casing a title does not change its score |
| Risk.StatusOf | user_price_fetcher.py:93 | STABLE exactly below 30, ELEVATED exactly from 30 to below 60, CRITICAL exactly from 60 |
| Risk.GeoStatusLabelsDiffer | user_price_fetcher.py:93 | "STABLE", "ELEVATED" and "CRITICAL" name one band each |
| Risk.StatusMonotone | user_price_fetcher.py:93 | a higher score never gives a less severe status |
| Risk.MissingChar | user_price_fetcher.py:91 | a title missing one of the word's characters does not contain the word |
| Risk.TradeWarKeywords | user_price_fetcher.py:87-91 | "trade war escalates" matches war and trade: 40 |
| Risk.ElectionKeywords | user_price_fetcher.py:87-91 | "election results in" matches election only: 15 |
| Risk.TradeWarHeadline | user_price_fetcher.py:89-91 | the capitalised headline "Trade war escalates" scores 40 after lower-casing |
| Risk.ElectionHeadline | user_price_fetcher.py:89-91 | the headline "Election results in" scores 15 |
| Risk.TradeWarElectionExample | user_price_fetcher.py:85-93 | the two headlines together score 55, which is ELEVATED |
| Risk.RepeatedKeywordCountsOnce | user_price_fetcher.py:90-91 | a keyword that appears three times in a title counts once: 30 |
| Signals.Narrative | user_price_fetcher.py:52-55 | one of the two margin verdicts, optionally followed by " & Solid Growth", and nothing else; "Strength: High Margins" exactly when the margin exceeds 0.15, "Weakness: Low Margins" exactly otherwise; the growth remark exactly when growth exceeds 0.05; a missing ratio reads as 0 |
| Signals.BuildNarrative | user_price_fetcher.py:54-55 | the assignment followed by the conditional `+=` builds exactly the narrative |
| Signals.MissingRatiosGiveWeakness | user_price_fetcher.py:52-54 | with no margin and no growth the narrative is "Weakness: Low Margins" |
| Signals.CurrentPrice | user_price_fetcher.py:69 | the current price when it is present and non-zero; else the regular market price when it is present and non-zero; else 0 |
| Signals.Recommend | user_price_fetcher.py:96-99 | BUY exactly when the price beats the 200-bar average and the P/E is non-zero and under 25; SELL exactly when it is not a BUY and the price is under 98 % of the average; HOLD exactly otherwise |
| Signals.RecommendationLabelsDiffer | user_price_fetcher.py:97-99 | "BUY", "HOLD" and "SELL" name one recommendation each |
| Signals.SellIsBelowStopLoss | user_price_fetcher.py:99 | SELL exactly when it is not a BUY and the price is under the reported stop-loss |
| Signals.RecommendationExamples | user_price_fetcher.py:96-99 | against an average of 100: 105 at P/E 20 is BUY, 97 is SELL at P/E 20 or 30, 99 at P/E 30 is HOLD |
| Signals.ShortHistoryCanBuy | user_price_fetcher.py:98 | with under 200 bars, any positive price with a P/E in (0, 25) is a BUY |
| Signals.ShortHistoryNeverSells | user_price_fetcher.py:99 | with under 200 bars, a non-negative price is never a SELL |
| Signals.NegativePeCanBuy | user_price_fetcher.py:98 | a negative P/E passes the valuation test |
| Signals.MissingPeNeverBuys | user_price_fetcher.py:96-98 | a missing P/E never gives BUY |
| Signals.Insight | user_price_fetcher.py:101 | starts "VALUATION: Fair." exactly when the P/E is under 25 and "VALUATION: High." exactly otherwise; then, between single spaces, the news clause quoting the sentiment with its source; then the strategy clause with the earnings date; its length leaves room for nothing else |
| Signals.EarningsStatusOf | user_price_fetcher.py:125 | EXCEEDED exactly when the trailing EPS exceeds the forward EPS, a missing one reading as 0 |
| Signals.EarningsStatusLabelsDiffer | user_price_fetcher.py:125 | "EXCEEDED" and "MEETS" name one status each |
| Signals.EarningsStatusDefaults | user_price_fetcher.py:125 | with neither EPS the status is MEETS; a positive trailing EPS with no forward EPS is EXCEEDED |
| Calendar.EarningsDateLabel | user_price_fetcher.py:74-78 | "TBD" without an earnings date, otherwise the date's text |
| Calendar.CalendarEntryFor | user_price_fetcher.py:75-82 | an entry exactly when there is a date from 0 to 30 days ahead; the entry names the ticker and the date text |
| Calendar.CalendarExamples | user_price_fetcher.py:74-82 | a date 15 days ahead is listed with 15 days left; 45 days ahead or no date is not listed |
| Calendar.SortByDays | user_price_fetcher.py:137 | the result is sorted by days left, is a permutation of the input, and keeps the input order among equal days |
| Calendar.WithDaysCons | user_price_fetcher.py:137 | the entries with a given day count of a prepended list are the head (if it matches) followed by those of the rest |
| Calendar.InsertAddsEntry | user_price_fetcher.py:137 | insertion adds exactly that entry to the calendar's multiset |
| Calendar.InsertKeepsBound | user_price_fetcher.py:137 | inserting an entry due no sooner than `d` into a calendar due no sooner than `d` keeps it so |
| Calendar.InsertKeepsOrder | user_price_fetcher.py:137 | inserting into a sorted calendar keeps it sorted |
| Calendar.InsertIsStable | user_price_fetcher.py:137 | insertion puts the new entry before the existing entries with the same day count |
| Calendar.WithDaysFirst | user_price_fetcher.py:137 | the head is the first of the entries with its own day count |
| Calendar.WithDaysOfLater | user_price_fetcher.py:137 | a sorted calendar holds no entry with fewer days than its head |
| Calendar.SameHeadSameTails | user_price_fetcher.py:137 | two calendars that agree per day count and share their first entry agree per day count after it |
| Calendar.StableSortIsUnique | user_price_fetcher.py:137 | two sorted calendars with the same entries in the same order per day count are equal |
| Calendar.SortByDaysIsTheStableSort | user_price_fetcher.py:137 | any sorted arrangement keeping the order per day count is the sort's result, as Python's stable `sorted` promises |
| Portfolio.AnalyzeInstrument | user_price_fetcher.py:38-131 | the body of the loop computes the instrument's snapshot and its calendar entry |
| Portfolio.MappedAt | user_price_fetcher.py:103 | the list built by appending `f` of each element has one entry per element, entry i being `f` of element i |
| Portfolio.MappedAppend | user_price_fetcher.py:103 | mapping a concatenation concatenates the mapped lists |
| Portfolio.MappedStep | user_price_fetcher.py:103 | one more loop pass appends `f` of the next element |
| Portfolio.CalendarStep | user_price_fetcher.py:82 | one more loop pass appends the instrument's calendar entry when it has one |
| Portfolio.CollectSnapshots | user_price_fetcher.py:34-131 | the loop yields one snapshot per subscription and the due calendar entries, in subscription order |
| Portfolio.BuildPortfolio | user_price_fetcher.py:24-143 | the handler's result is the portfolio response, or the failure when there is no FX rate |
| Portfolio.FailsOnlyWithoutRates | user_price_fetcher.py:142-143 | within the model, the response fails exactly when there is no FX rate |
| Portfolio.SnapshotsAt | user_price_fetcher.py:103 | snapshot i is the snapshot of instrument i |
| Portfolio.SnapshotsFollowSubscriptions | user_price_fetcher.py:103-104 | the portfolio has one snapshot per subscription, in order, each naming its ticker |
| Portfolio.SnapshotsAppend | user_price_fetcher.py:103 | instruments are analysed independently: the snapshots of a concatenation concatenate |
| Portfolio.CalendarEntriesAppend | user_price_fetcher.py:82 | the calendar entries of a concatenation concatenate |
| Portfolio.CalendarEntriesAreDue | user_price_fetcher.py:81-82 | every collected entry is 0 to 30 days ahead and comes from some instrument |
| Portfolio.DueEntriesAreCollected | user_price_fetcher.py:81-82 | every instrument's due entry is collected |
| Portfolio.CalendarIsSortedAndComplete | user_price_fetcher.py:137 | the published calendar is sorted, a stable permutation of the collected entries, all due within 30 days, and holds every due entry |
| Portfolio.SnapshotIsConsistent | user_price_fetcher.py:93-131 | stop-loss is 98 % of the 200-bar average; a SELL is below it; the status is the score's band; no date gives "TBD" and no calendar entry; no sentiment gives NEUTRAL; the insight quotes the sentiment and the date |
| Subscriptions.EffectiveUser | user_ticker_handler.py:32-34 | "U001" exactly when the user id is missing or empty, never empty |
| Subscriptions.NormalizedShape | user_ticker_handler.py:35-37 | a normalised ticker has no surrounding whitespace and no lower-case letter, and is empty exactly when the raw ticker is missing or all whitespace |
| Subscriptions.NormalizeIdempotent | user_ticker_handler.py:35 | normalising a normalised ticker changes nothing |
| Subscriptions.Route | user_ticker_handler.py:21-66 | for each decision, the exact condition on method, body and ticker that leads to it, in the source's order; the key is (effective user, normalised ticker); the asset type defaults to STOCK |
| Subscriptions.Apply | user_ticker_handler.py:40-66 | POST maps the key to the asset type, DELETE removes the key, nothing else changes the table, and no other key ever changes |
| Subscriptions.ApplyKeepsStoreWellFormed | user_ticker_handler.py:32-46 | every key the handler writes has a non-empty user and a non-empty normalised ticker |
| Subscriptions.ApplyIsIdempotent | user_ticker_handler.py:40-63 | repeating a decision, and so a request, leaves the table as the first one did |
| Subscriptions.AddThenRemoveRestores | user_ticker_handler.py:42-58 | adding an absent key and then removing it restores the table |
| Subscriptions.RemoveAbsentIsNoOp | user_ticker_handler.py:53-63 | deleting an absent subscription answers 200 and changes nothing |
| Subscriptions.BlankTickerIsRefused | user_ticker_handler.py:35-38 | a blank ticker is refused with 400 whatever the method, OPTIONS aside |
| Subscriptions.NormalizeExample | user_ticker_handler.py:35 | " aapl " normalises to "AAPL" |
| Subscriptions.PostExample | user_ticker_handler.py:32-46 | a POST of " aapl " with no user and no asset type stores ("U001", "AAPL") as STOCK |
| Subscriptions.SubscriptionTable.constructor | user_ticker_handler.py:5-7 | the table starts with the given rows |
| Subscriptions.SubscriptionTable.Put | user_ticker_handler.py:42-46 | the key now maps to the asset type; every other row is unchanged |
| Subscriptions.SubscriptionTable.Delete | user_ticker_handler.py:55-58 | the key is gone whether or not it was present; every other row is unchanged |
| Subscriptions.SubscriptionTable.Handle | user_ticker_handler.py:9-74 | the status is the routed decision's; the new table is the decision applied to the old one; each decision's message |
| Subscriptions.SuccessTextsNameTicker | user_ticker_handler.py:50-62 | "Successfully added …" and "Successfully removed …" end with the ticker, never coincide, and differ for different tickers |
| Subscriptions.AddThenRemove | user_ticker_handler.py:40-63 | a POST then a DELETE of a new subscription leaves the table as it was |

## Left out

- HTTP plumbing is not modelled: the CORS headers, the JSON encoding of bodies, `json.dumps(default=str)`, and the response envelope.
- The `server_time` and `last_sync` timestamps are not modelled.
- The chart labels (`strftime` of the bar dates) are not modelled.
- The store and the market-data service are not modelled.
  - The fetcher's query of the user's rows (lines 12-22) is replaced by the list of instruments it is given, so the user-id default there only feeds I/O.
  - The forex quote of line 138 is a parameter passed through unchanged.
  - The current day is a parameter, one `today` for the whole request. The source calls `datetime.now()` again for each instrument (line 80), so a request that runs across midnight can count days left from two different days; the model does not capture that.
  - An exception raised by the store or a network call is not modelled.
- The unused `est_status` of line 62 is not modelled, because nothing reads it.
- A quote field whose value is JSON `null` is not modelled: `None` in the model means the key is absent. Values that make Python raise on comparison (line 101 with a null P/E) fall under this too.
- Exact decimal and floating-point behaviour is not modelled: prices, rates and ratios are `real`.
- Case mapping and whitespace are ASCII only. Other Unicode characters pass through `upper`, `lower` and `strip` unchanged.
- Subscriptions.SubscriptionTable.Handle: the text of the 500 error is the parse error carried by the malformed body. Exceptions from `put_item` and `delete_item` are not modelled.
- Subscriptions.SubscriptionTable.Put: it stores only the asset type. It does not model that `put_item` also replaces other attributes of the row, such as `recent_news_sentiment`.
- A request field whose value is JSON `null` is not modelled either: `Subscriptions.Fields` reads `None` as an absent field. For a body with `"asset_type": null`, line 45 stores null, while the model stores "STOCK".
- Portfolio.FailsOnlyWithoutRates: an `'Earnings Date'` entry that holds an empty list is not modelled. Line 76 then raises IndexError and lines 142-143 turn the whole response into a 500. The model's `earnings: Option<EarningsDate>` cannot express that input and reads it as no date ("TBD", no calendar entry), so the lemma's "only without rates" holds for the model, not for every input of the source.
- The top-level `fx_advice` of the response (line 139) is not a separate field of `Portfolio.PortfolioSnapshot`: it duplicates `currency.advice`.
- The sentiment analysis that writes `recent_news_sentiment` is not part of this model; it is read as a given optional field.
