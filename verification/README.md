# ZoneAlert core in Dafny

ZoneAlert is a stock-analysis dashboard. Its analytical core, modelled here as
pure Dafny functions and proved about, consists of:

- **the zone engine.** From a candle series it finds pivot highs and lows with
  a window that adapts to the timeframe. It proposes *fresh* supply and demand
  zones (pivots that price never revisited and that reacted by at least 3%)
  and *tested* zones (interior candles retested once or twice within 2% that
  reacted by at least 4%). It then ranks them, keeps at most 12, scores each
  one out of 100, classifies it strong, medium or weak, and adds
  higher-timeframe confluence.
- **the breakout engine.** On the last candle it tries, in priority order, a
  resistance breakout, a support breakdown, a bullish moving-average breakout,
  a volume breakout and an all-time-high attempt. The first one found is
  scored with a 0–100 confirmation. An index scan keeps the stocks scoring at
  least 30, strongest first.
- **the dashboard helpers.** These are the signal for a breakout type, the
  six-way zone filter, the exchange symbol formatter, higher-timeframe zone
  collection and the proximity alert with its 30-minute cooldown and 50-entry
  log.
- **the data manager's pure parts.** These are row cleaning, the five-minute
  cache, the market-hours check and the multi-symbol fetch.

Modules follow the program's structure:

- `Candles`: candles, optional values and rolling windows.
- `Ranking`: a stable sort by a strict weak order.
- `Pivots`, `Zones`, `ZoneScoring` and `ZoneDetector`: the zone engine.
- `Breakouts`: the breakout engine.
- `Alerts`: the proximity alert.
- `Text`: the ASCII string operations the formatter needs.
- `Dashboard`: the other dashboard helpers.
- `DataManager`: the data manager's pure parts.

The model's conventions:

- Prices are `real`.
- A pandas rolling value that is still undefined is `None`.
- Time is an integer count of microseconds since `datetime.min`.
- Downloads and fetchers are function parameters.
- The zone and breakout engines are given series whose prices are positive
  and whose volumes are non-negative (`Priced`, and `PricedFeed` and
  `PricedHtfFeed` for fetched data). This is an assumption about the data
  source. Cleaning repairs highs, lows and volumes but keeps a zero price.

Points where the model follows the code rather than its comments:

- The tested-zone retest window covers 19 candles, not 20.
- The tie-break in the zone ranking favours the *older* touch, although the
  comment says "most recent first".
- Resistance and support exist only once there are more than 20 candles.
- The alert cooldown is strictly longer than 30 minutes.
- The `max(…, 2.0)` floor on the all-time-high strength never applies, and the
  5% distance test before it is implied by the 2% test inside. The model
  proves both facts.
- The confirmation cap of 100 never binds: the largest possible sum is 100.

## Model

| member | source | states |
|---|---|---|
| Candles.RollingMax | breakout_detector.py:25 | Undefined until a full 20-window exists. Once defined it is the maximum of the window: an upper bound on it that one of its elements attains. |
| Candles.RollingMin | breakout_detector.py:26 | Undefined until a full window exists. Once defined it is the window's minimum, attained by one of its elements. |
| Candles.RollingMean | breakout_detector.py:22-24 | Undefined until a full window exists. Once defined it is the mean of exactly the last `w` values, and positive (or non-negative) when the values are. |
| Ranking.Top | zone_detector.py:280-288 | Stable sort, then cut: the result has length the smaller of n and the input length, is a sub-multiset of the input, and keeps everything when the input is short. |
| Ranking.SortRanked | zone_detector.py:280-285 | Under a strict weak order, the sorted sequence never lists an element after one it outranks. |
| Ranking.SortStable | breakout_detector.py:217 | Equal-key elements keep their input order, as Python's stable `sort` does. |
| Ranking.TopRanked | zone_detector.py:280-288 | The kept prefix is ranked. Every element cut off is outranked by, or tied with, every element kept. |
| Pivots.WindowSize | zone_detector.py:56-87 | The window is the timeframe's base size for 30 to 99 candles, one smaller for fewer than 30 candles (never below 1), and one larger from 100 candles on (never above 6). It always lies in 1 to 6. |
| Pivots.WindowMonotone | zone_detector.py:81-87 | A longer series never gets a narrower window. |
| Pivots.UnlistedTimeframe | zone_detector.py:79 | An unknown timeframe behaves exactly like base window 3: 2, 3 or 4 by length. |
| Pivots.BeatsAll | zone_detector.py:96-101 | The inner pivot scan succeeds iff the candidate strictly beats every other value in range. |
| Pivots.PivotHighs | zone_detector.py:89-107 | Every reported index has `w` candles on each side, and its high strictly exceeds all of theirs. Indices ascend. Every such index is reported. |
| Pivots.PivotLows | zone_detector.py:109-127 | The mirror image for lows: sound, ascending and complete. |
| Zones.ReactionStrength | zone_detector.py:252-272 | Never negative. Zero for a candle among the last five. |
| Zones.DemandReaction | zone_detector.py:259-266 | Measured over the next 5 to 10 candles, the demand reaction is at least the percentage rise from the low to every one of their highs, and when positive equals the rise to one of them. |
| Zones.SupplyReaction | zone_detector.py:267-272 | The mirror image: at least the percentage fall from the high to every later low of the window, and when positive equal to the fall to one of them. |
| Zones.FreshZones | zone_detector.py:129-179 | Each zone comes from a pivot price never revisited within 1%, has reaction at least 3%, one touch, and high quality iff reaction at least 5%. Every pivot meeting those tests yields a zone. |
| Zones.TouchLookAhead | zone_detector.py:194-196 | The retest count looks at most 19 candles ahead and depends only on them. |
| Zones.TestedAt | zone_detector.py:188-236 | An interior candle yields a tested zone of a kind iff it was retested once or twice within 2% and reacted by at least 4%. The zone counts the touches plus one, is not fresh, and is high quality iff reaction at least 6%. |
| Zones.TestedZones | zone_detector.py:181-238 | Every tested zone has that shape. Every qualifying interior candle and kind yields one. |
| ZoneScoring.OutranksIsStrictWeakOrder | zone_detector.py:280-285 | The ranking key (quality, reaction, freshness, then earlier touch) is a strict weak order. |
| ZoneScoring.RankZones | zone_detector.py:274-288 | At most 12 zones, all drawn from the input (as a sub-multiset, and all of it when it has at most 12), in ranking order. |
| ZoneScoring.RankZonesKeepsBest | zone_detector.py:280-288 | No zone cut off outranks a kept one. Zones with equal keys keep their detection order. |
| ZoneScoring.TieBreakFavoursOlder | zone_detector.py:284 | Among zones equal in quality, reaction and freshness, the earlier-touched one ranks first. |
| ZoneScoring.Classify | zone_detector.py:316-322 | Strong iff score ≥ 70, medium iff 45 ≤ score < 70, weak iff score < 45. |
| ZoneScoring.ClassifyMonotone | zone_detector.py:316-322 | A higher score never gets a weaker class. |
| ZoneScoring.ScoreBounds | zone_detector.py:292-314 | The capped reaction, freshness, quality, confluence and capped volume parts add up to a score between 0 and 100. |
| ZoneScoring.ScoreMonotoneInReaction | zone_detector.py:296-297 | A stronger reaction never lowers the score or its class. |
| ZoneScoring.ScoreExample | zone_detector.py:292-322 | A fresh high-quality zone with an 8% reaction and nothing else scores 75, which is strong. |
| ZoneScoring.NearCount | zone_detector.py:346-349 | The count of higher-timeframe zones within 2% of the given kind is positive iff one exists. |
| ZoneScoring.ConfluenceSum | zone_detector.py:342-353 | The uncapped accumulator is 1.0 per same-kind zone within 2% plus 0.3 per opposite-kind one. It is positive iff some zone lies within 2%, and at least 1 when a same-kind one does. |
| ZoneScoring.Confluence | zone_detector.py:337-355 | The confluence is the weighted count of nearby zones capped at 1.0. It lies in [0, 1], is 0 without higher-timeframe zones, is positive iff one lies within 2%, and is exactly 1 when a same-kind one does. |
| ZoneScoring.OppositeConfluence | zone_detector.py:350-355 | Opposite-kind zones alone give 0.3 each: 0.3, 0.6 or 0.9 for one to three, and the cap 1.0 from four on. |
| ZoneScoring.VolumeScore | zone_detector.py:520-542 | The volume score lies between 0 and 25. |
| ZoneScoring.VolumeScoreSaturates | zone_detector.py:534-538 | The score reaches its cap of 25 exactly when the zone's candles trade at least the series' mean volume. |
| ZoneScoring.ScoreZone | zone_detector.py:292-324 | Scoring changes only the score and strength. The score is the five-part formula of reaction, freshness, quality, confluence and volume, it lies in [0, 100], and the strength is its classification. |
| ZoneScoring.AddConfluence | zone_detector.py:328-335 | Each zone gets its confluence recorded and nothing else changes. |
| ZoneDetector.Candidates | zone_detector.py:29-44 | Every candidate is a fresh zone anchored on a pivot of the adaptive window, or a tested zone, and is unscored. |
| ZoneDetector.FreshSupplyIsCandidate | zone_detector.py:32-37 | A never-revisited pivot high that reacted by 3% or more becomes a fresh supply candidate at that candle's high. |
| ZoneDetector.TestedIsCandidate | zone_detector.py:42-44 | An interior candle that qualifies as a tested zone of a kind becomes a tested candidate of that kind at its anchor. |
| ZoneDetector.FinishKeeps | zone_detector.py:48-52 | Scoring and confluence keep a candidate's kind, level, touch and freshness. |
| ZoneDetector.FinishReported | zone_detector.py:48-52 | A scored candidate satisfies what detection reports: origin, score in 0 to 100 with its class, confluence recorded exactly when higher-timeframe zones are given, support iff one of them lies within 2%. |
| ZoneDetector.KeptByRanking | zone_detector.py:274-288 | With at most 12 candidates, ranking drops none of them. |
| ZoneDetector.Finalise | zone_detector.py:47-52 | Scoring and confluence keep the ranking order. |
| ZoneDetector.DetectZones | zone_detector.py:14-54 | At most 12 zones, in ranking order: zone i is the i-th ranked candidate, scored and given its confluence. |
| ZoneDetector.DetectZonesReported | zone_detector.py:14-54 | Each detected zone has a positive level, a pivot or tested origin and a score in [0, 100] with its class. It has confluence recorded iff higher-timeframe zones were given, and support iff one lies within 2%. |
| ZoneDetector.FreshPivotIsCandidate | zone_detector.py:36-40 | A never-revisited pivot low that reacted by 3% or more becomes a fresh demand candidate at that candle's low. |
| ZoneDetector.CandidateReported | zone_detector.py:44-54 | When at most 12 candidates exist, every candidate is reported with its kind, level, touch and freshness. |
| ZoneDetector.FreshPivotReported | zone_detector.py:14-54 | When at most 12 candidates exist, a fresh pivot low that reacted by 3% or more is reported at its level. |
| Breakouts.Resistance | breakout_detector.py:59 | Defined iff there are more than 20 candles. It is the highest high of the 20 candles before the last. |
| Breakouts.Support | breakout_detector.py:72 | Defined iff more than 20 candles. It is the lowest low of the 20 candles before the last. |
| Breakouts.ResistanceCheck | breakout_detector.py:58-69 | Fires iff resistance is defined, the high exceeds it and the close is at least 2% above it. The pattern's level is the resistance and its strength is the percentage rise of the close over it, at least 2. |
| Breakouts.SupportCheck | breakout_detector.py:71-82 | Fires iff support is defined and the close is at least 2% below it. The level is the support and the strength is the percentage fall of the close below it, at least 2. |
| Breakouts.MaCheck | breakout_detector.py:84-104 | Fires iff there are at least 50 candles, SMA20 > SMA50, the previous close was at or below its SMA20, and the close is at least 1% above SMA20. The level is SMA20 and the strength is the percentage rise of the close over it. |
| Breakouts.VolumeCheck | breakout_detector.py:106-118 | Fires iff volume exceeds 1.5× its 20-candle mean and the close moved at least 3% either way. The level is the previous close and the strength is the absolute percentage change from it. |
| Breakouts.CountNearAth | breakout_detector.py:127 | The count is positive iff some recent high is within 2% of the all-time high, and full iff all are. |
| Breakouts.TwoNearAth | breakout_detector.py:127-129 | The count reaches two iff two distinct positions hold highs within 2% of the all-time high. |
| Breakouts.AttemptsMeans | breakout_detector.py:126-129 | At least two attempts iff two of the last 10 highs reach 98% of the all-time high. |
| Breakouts.AthCheck | breakout_detector.py:120-140 | Fires iff at least two of the last 10 highs are within 2% of the all-time high, volume exceeds 1.3× its mean and the close is above 98% of the high. |
| Breakouts.AthFloorNeverApplies | breakout_detector.py:131-136 | The reported strength is always the raw move from 95% of the high; the 2.0 floor never binds. |
| Breakouts.Analyze | breakout_detector.py:52-142 | No pattern iff every check fails. Otherwise the first check in priority order that fires. |
| Breakouts.ResistanceWins | breakout_detector.py:60-69 | A resistance breakout is reported whenever it fires, whatever else fires. |
| Breakouts.VolumeTier | breakout_detector.py:154-160 | 40, 25, 15 or 0 points by volume ratio thresholds 2.0, 1.5 and 1.2. |
| Breakouts.StrengthTier | breakout_detector.py:163-169 | 30, 20, 10 or 0 points by strength thresholds 5, 3 and 2. |
| Breakouts.Confirmation | breakout_detector.py:144-184 | The confirmation lies between 10 and 100 and equals the sum of the three parts, so the cap never cuts. |
| Breakouts.ConfirmationMonotone | breakout_detector.py:153-169 | A higher volume ratio or strength never lowers the confirmation. |
| Breakouts.DetectedClearsScan | breakout_detector.py:205 | Any detected breakout other than a moving-average one scores at least 30. A volume breakout scores at least 55. |
| Breakouts.QuietMaBreakoutDropped | breakout_detector.py:205 | A moving-average breakout with low volume and a small move scores 15 and is dropped by the scan. |
| Breakouts.DetectBreakout | breakout_detector.py:11-50 | No data or fewer than 20 candles gives nothing. Otherwise there is a breakout iff a pattern fires, carrying the last close, the move, the volume ratio and the confirmation. |
| Breakouts.Collect | breakout_detector.py:193-214 | The hits are exactly the symbols whose `.NS` fetch gives a breakout scoring at least 30. |
| Breakouts.ScanIndexBreakouts | breakout_detector.py:186-219 | The scan is a permutation of the hits, ordered by non-increasing confirmation, and both sound and complete. |
| Breakouts.ScanKeepsIndexOrder | breakout_detector.py:217 | Hits with equal confirmation stay in index order. |
| Breakouts.StrengthLabel | breakout_detector.py:230 | Strong iff strength ≥ 5, moderate iff 3 ≤ strength < 5, weak otherwise. |
| Breakouts.ConfidenceLabel | breakout_detector.py:231 | High iff confirmation ≥ 70, medium iff 40 ≤ confirmation < 70, low otherwise. |
| Breakouts.StrengthLabelMatchesTier | breakout_detector.py:163-169 | The summary's strength label agrees with the confirmation's strength tier. |
| Dashboard.SignalOf | app.py:641-650 | Buy iff an upward breakout type, sell iff a support breakdown, watch iff a volume breakout. |
| Dashboard.SignalOfEveryKind | app.py:641-650 | Every kind the breakout engine reports has a definite signal: sell exactly for the breakdown, watch exactly for the volume breakout. |
| Dashboard.FilterZones | app.py:652-688 | A zone is kept iff it passes all six filters, and the kept zones keep their order. |
| Dashboard.FilterAppend | app.py:657-686 | Filtering distributes over concatenation. |
| Dashboard.FilterIdempotent | app.py:652-688 | Filtering twice equals filtering once. |
| Dashboard.FormatSymbol | app.py:690-701 | For an NSE exchange the result is the upper-cased symbol, with `.NS` appended exactly when it does not already end in it. Otherwise a trailing `.NS` is removed. |
| Dashboard.FormatNseIdempotent | app.py:692-696 | Formatting an NSE symbol twice changes nothing. |
| Dashboard.FormatRoundTrip | app.py:690-701 | Formatting for NSE, then for another exchange, gives back the upper-cased symbol. |
| Dashboard.HtfMapping | app.py:720-730 | Only the six listed timeframes have higher timeframes, two or three of them. |
| Dashboard.SelectedHtfs | app.py:732 | At most the first two higher timeframes are used. |
| Dashboard.HtfPeriod | app.py:735-740 | Weekly and monthly data use one year for short periods and two years for one to three months. Every other case keeps the period. |
| Dashboard.ZonesOn | app.py:742-750 | Nothing when the fetch fails or is empty. Otherwise the first min(3, n) zones detected on that timeframe's own data, in order, each tagged with the timeframe. |
| Dashboard.ZonesOnSound | app.py:742-750 | Every contributed zone, untagged, is one the timeframe's detection reported. |
| Dashboard.ZonesOnAllTwo | app.py:732-750 | Over two timeframes the collection is the first one's zones followed by the second one's. |
| Dashboard.HtfZones | app.py:715-756 | No zones for an unmapped timeframe. Otherwise the zones of the first selected timeframe followed by those of the second: at most six, each tagged with a selected timeframe and drawn from its detection. |
| Dashboard.DailyChartHtfs | app.py:726-740 | A daily chart consults weekly and monthly data, over one year for short periods. |
| Alerts.Distance | app.py:894 | The distance is non-negative and zero iff price and level coincide. |
| Alerts.LatestMatch | app.py:900-901 | None iff no earlier alert is for this symbol and level. Otherwise it is the latest such alert's time. |
| Alerts.FiresMeans | app.py:896-903 | A zone alerts iff it is within the alert distance and every earlier alert for it is more than 30 minutes old. |
| Alerts.Trim | app.py:925-926 | The trimmed log is the last min(n, 50) alerts. |
| Alerts.Step | app.py:893-926 | With no alert the log is unchanged. Otherwise the new alert is last, at most 50 entries remain, and the rest is the tail of the old log. |
| Alerts.CheckAlerts | app.py:891-926 | A call never grows the log beyond 50 entries, or beyond its old size when that was larger. |
| Alerts.Fired | app.py:893-915 | At most one alert per zone, each the new alert of one of the zones. |
| Alerts.TrimTrim | app.py:925-926 | Trimming after every append is the same as trimming once at the end. |
| Alerts.CheckAlertsAppends | app.py:891-926 | With no alert raised the log is unchanged. Otherwise it is the old log followed by the raised alerts in zone order, cut to its last 50 entries. |
| Alerts.NearZoneFires | app.py:893-915 | A zone within the alert distance, with no alert at its level in the last 30 minutes and no earlier zone at its level, raises its alert. |
| Alerts.NearZoneAlerted | app.py:891-926 | With at most 50 zones such an alert is in the log the call returns. |
| Alerts.OnePerLevelPerCall | app.py:893-915 | One call adds at most one alert per zone level. Each is for this symbol and for a zone within the alert distance. |
| Text.Contains | app.py:692 | The substring test holds iff `sub` occurs at some position. |
| Text.UpperIdempotent | app.py:694 | Upper-casing twice equals upper-casing once. |
| DataManager.Repair | data_manager.py:170-178 | The high becomes the largest of the four prices and the low the smallest. Open and close are kept and the volume becomes its absolute value. |
| DataManager.Repaired | data_manager.py:166-178 | The kept rows are exactly the complete rows whose repaired high and low differ, repaired. Every result is a valid candle. |
| DataManager.Clean | data_manager.py:156-183 | Cleaning is a permutation of the kept, repaired rows, sorted by timestamp, and all valid. |
| DataManager.CleanIsStable | data_manager.py:181 | Rows with equal timestamps keep their download order. |
| DataManager.FlatRowDropped | data_manager.py:173-175 | A row whose four prices are equal is dropped. |
| DataManager.CacheExpiry | data_manager.py:185-199 | Validity only expires: valid at a later time means valid earlier, and once 300 seconds have passed the entry stays invalid. |
| DataManager.GetStockData | data_manager.py:17-58 | A valid entry is served unchanged. Otherwise a successful download is cleaned, returned and stored with the current time, and a failed or empty one returns nothing and leaves the cache alone. |
| DataManager.RepeatServedFromCache | data_manager.py:29-33 | Data just downloaded is served again, whatever the source now returns, for the next five minutes. |
| DataManager.MarketOpen | data_manager.py:240-262 | Open iff a weekday, from 9:30 through 16:00 inclusive. |
| DataManager.GetMultiple | data_manager.py:135-154 | The result holds exactly the symbols whose fetch succeeded, each with its data. |

## Left out

- The Streamlit user interface, charts, the EMA indicators and the email
  notifications. They are presentation and I/O.
- The downloads from Yahoo Finance and the wall clock. Downloads are function
  parameters, and the time (`now`, weekday, hour, minute) is passed in.
- Exception handling in the scan and the higher-timeframe collection. A fetch
  that fails is modelled as `None`. The model has no arithmetic errors to
  swallow, because prices are positive.
- Floating point, NaN and infinity. Prices are exact reals, so decimal
  thresholds such as 0.98 are exact. Cleaning removes NaN prices, and NaN
  volume is not modelled.
- The unused zone routines `_cluster_pivots`, `_detect_support_resistance_zones`,
  `_filter_zones`, `_calculate_zone_strength`, `_calculate_recency_score` and
  `_calculate_reaction_score`. `detect_zones` never calls them.
  `_calculate_volume_score` is modelled, because the strength score uses it.
- `get_real_time_price`, `get_stock_info`, `validate_symbol`,
  `get_market_hours_data` and `clear_cache`. These are network calls or a
  trivial reset.
- Human-readable strings: alert messages, the pattern display names, the
  `volume_increase` field of a volume breakout and the summary sentence. Only
  the summary's two labels are modelled.
- DataManager.Clean: pandas `sort_index` is not guaranteed stable. The model
  sorts stably, which differs only for rows with duplicate timestamps.
- Dashboard.FormatSymbol: upper-casing covers ASCII letters only. Python's `str.upper`
  also maps other scripts.
- Alerts.CheckAlerts: the model reads one `now` for the whole call, where the
  code reads the clock afresh for each zone.
- DataManager.MarketOpen: the minute is required to be below 60, as the wall
  clock guarantees. The check is on the machine's local clock, with no
  US/Eastern conversion, as in the code.
- Alerts.NearZoneAlerted: stated for at most 50 zones and a clock past its
  first 30 minutes. With more zones, later alerts can push an early one out
  of the 50-entry log. The clock bound is what makes `datetime.min` count as
  "no earlier alert".
- `Priced`, `PricedFeed` and `PricedHtfFeed`: positive prices are assumed of
  the data source, not established by cleaning. A zero price passes
  `_clean_data`, and the code would then divide by it.
- The session-state persistence of the alert log and of the cache. Both are
  values threaded through calls.
