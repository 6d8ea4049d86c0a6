# Stock scorer, company search and valuation panel — a Dafny model

This project models the decision logic of a small stock-analysis application:

- **The scoring engine** (`StockScorer` in `Algorithmev1.py`). It accepts a quote from the market-data provider (`fetch_data`'s checks) and maps each of eighteen financial figures or price/dividend series to a 0–10 score through strict-inequality band tables, where missing data reads as a neutral 5.0. It picks a weight profile by sector and horizon and folds the scores into a 0–100 score rounded to two decimals, with a per-indicator breakdown. It also resolves company names to tickers (`search_ticker`).
- **The hybrid company search** (`smart_search.py`). It builds the reverse ticker index of the alias table and searches that table (exact ticker, exact name, then fuzzy matches kept above 60, de-duplicated, sorted stably by score and cut to the limit). It merges these local suggestions with the remote provider's and reads the ticker back out of a chosen `"TICKER - Name"` suggestion.
- **The dashboard's classifiers** (`Home.py`). These are the valuation analysis over P/E, PEG and P/B with its majority verdict, the verdict banner for the global score and the colour of each indicator tile.

The modules follow that structure:

- `Financials`: the quote as a field map, `safe_get`, and the price/dividend series.
- `Bands`: the shared `if/elif` band-table shape, with its monotonicity and threshold lemmas.
- `Indicators`: the `score_*` methods.
- `Profiles`: the sector × horizon weight policy.
- `Scoring`: aggregation, the `StockScorer` class and `search_ticker`.
- `SmartSearch`: the company search.
- `Valuation`: the dashboard classifiers.
- `Strings` and `Wrappers`: the Python string operations used, and `Option`.

Code that updates state step by step is written imperatively, each method proved equal to a specification function:

- `StockScorer` is a class whose methods update its fields.
- The loop that fills `TICKER_TO_NAME` is a method.
- So are the two fuzzy loops of `search_local_cache`, the merge loops of `smart_search` and the signal list of `get_valuation_analysis`.

The properties are proved about those specification functions.

A quote holding only a sector of "Unknown" and a current price is rejected by `fetch_data`: Algorithmev1.py:42 requires at least five fields, one of them `symbol`. `Scoring.BlankQuoteScoresFifty` proves a score of exactly 50.0 for every accepted quote without figures or history.

`extract_ticker` reads back the ticker of `"t - name"` only when `t` also does not end in `" -"`: otherwise the first `" - "` starts inside the ticker. `SmartSearch.ExtractTickerRoundTripCounterexample` shows this for every such ticker. Tickers of that form do not occur in practice, so this is recorded here rather than as a finding.

## Model

| member | source | states |
|---|---|---|
| Financials.SafeGet | Algorithmev1.py:216-219 | a missing or `None` field reads as "N/A"; any other value is returned unchanged and the result is never `None` |
| Bands.AboveMonotone | Algorithmev1.py:230-249 | a higher-is-better band chain with ranked scores never gives a larger figure a lower score |
| Bands.BelowAntitone | Algorithmev1.py:355-368 | a lower-is-better band chain with ranked scores never gives a larger figure a higher score |
| Bands.AboveBand | Algorithmev1.py:230-249 | band i of a chain with decreasing thresholds is exactly the interval (bound i, bound i-1] and scores score i |
| Bands.AboveAtThreshold | Algorithmev1.py:230-249 | the comparisons are strict: a figure exactly on a threshold takes the next lower band |
| Bands.BelowAtThreshold | Algorithmev1.py:355-368 | a figure exactly on a lower-is-better threshold takes the next band |
| Indicators.ScoreMomentum | Algorithmev1.py:221-251 | fewer than two closes is neutral; otherwise the score is one of the band chain's scores |
| Indicators.ScoreMomentum6M | Algorithmev1.py:221-251 | the six-month momentum score lies in [1, 10] |
| Indicators.ScoreMomentum3M | Algorithmev1.py:253-281 | the three-month momentum score lies in [1, 10] |
| Indicators.ScoreMomentumMonotone | Algorithmev1.py:228-249 | a better performance never scores lower |
| Indicators.Rsi | Algorithmev1.py:288-294 | the last 14-period RSI, whenever it is defined, lies in [0, 100] |
| Indicators.RsiScoreShape | Algorithmev1.py:301-312 | on [0, 100] the RSI score lies in [0, 10], never rises with the RSI, is above 9 exactly below 30 and at most 3 from 70 |
| Indicators.ScoreRsi | Algorithmev1.py:283-314 | fewer than 15 samples or an undefined RSI is neutral; otherwise the piecewise-linear score; always in [0, 10] |
| Indicators.ScoreVolumeTrend | Algorithmev1.py:316-346 | fewer than 20 samples, or an older mean volume of 0, is neutral; otherwise the percentage change of the last 10 samples' mean over the 20 before goes through the volume bands; always in [1, 10] |
| Indicators.ScoreDividendGrowth | Algorithmev1.py:630-660 | fewer than two dividends, or an older 252-event window summing to 0, is neutral; otherwise the percentage change of the recent window over the older one goes through the growth bands; always in [1, 10] |
| Indicators.ShortDividendHistoryIsNeutral | Algorithmev1.py:637-641 | with fewer than 504 dividends the older window is empty and the score is always neutral |
| Indicators.ScorePEAsWritten | Algorithmev1.py:348-368 | the P/E score as written, when it does not raise, is one of its band scores or neutral, within [1, 10] |
| Indicators.ScorePE | Algorithmev1.py:348-368 | the corrected P/E score returns one of its band scores or neutral, within [1, 10] |
| Indicators.ScorePEG | Algorithmev1.py:370-388 | a positive PEG scores its band in the lower-is-better table; any result that does not raise is a band score or neutral, within [1, 10] |
| Indicators.ScoreRevenueGrowth | Algorithmev1.py:390-414 | when it does not raise, a band score or neutral, within [1, 10] |
| Indicators.ScoreProfitMargins | Algorithmev1.py:416-438 | a numeric margin scores the band of its percentage in the higher-is-better table; any result that does not raise is a band score or neutral, within [1, 10] |
| Indicators.ScoreOperatingMargin | Algorithmev1.py:440-462 | a numeric margin scores the band of its percentage in the higher-is-better table; any result that does not raise is a band score or neutral, within [1, 10] |
| Indicators.ScoreROE | Algorithmev1.py:464-486 | a numeric ROE scores the band of its percentage in the higher-is-better table; any result that does not raise is a band score or neutral, within [1, 10] |
| Indicators.ScoreROA | Algorithmev1.py:488-510 | a numeric ROA scores the band of its percentage in the higher-is-better table; any result that does not raise is a band score or neutral, within [1, 10] |
| Indicators.ScoreDebtToEquity | Algorithmev1.py:512-534 | a numeric ratio scores its band in the lower-is-better table; any result that does not raise is a band score or neutral, within [1, 10] |
| Indicators.ScoreDebtToAssets | Algorithmev1.py:536-562 | never raises, since it runs under `try`; numeric debt over numeric non-zero assets scores the band of the percentage in the lower-is-better table; every result is a band score or neutral, within [1, 10] |
| Indicators.ScoreCurrentRatio | Algorithmev1.py:564-584 | a numeric ratio scores its band in the higher-is-better table; any result that does not raise is a band score or neutral, within [1, 10] |
| Indicators.ScoreFreeCashFlow | Algorithmev1.py:586-606 | a numeric amount scores its band in the higher-is-better table; any result that does not raise is a band score or neutral, within [1, 10] |
| Indicators.ScoreDividendYield | Algorithmev1.py:608-628 | a numeric non-zero yield scores the band of its percentage in the higher-is-better table; any result that does not raise is a band score or neutral, within [1, 10] |
| Indicators.ScorePriceToBook | Algorithmev1.py:662-682 | a positive ratio scores its band in the lower-is-better table; any result that does not raise is a band score or neutral, within [1, 10] |
| Indicators.ScoreBeta | Algorithmev1.py:684-704 | when it does not raise, a band score or neutral, within [1, 10] |
| Indicators.MissingFiguresAreNeutral | Algorithmev1.py:216-704 | every field-based indicator scores exactly 5.0 when its field is missing or `None` |
| Indicators.NonPositiveRatiosAreNeutral | Algorithmev1.py:350-667 | P/E, PEG and P/B at or below zero and a zero dividend yield score 5.0 |
| Indicators.PEFallbackAsWritten | Algorithmev1.py:350-353 | as written, a missing trailing P/E is never replaced by the forward one: the P/E score is then neutral |
| Indicators.PEFallbackCounterexample | Algorithmev1.py:350-353 | a quote carrying only a forward P/E of 12 scores 5.0 as written, and 9.0 once corrected |
| Indicators.PEFallback | Algorithmev1.py:350-368 | the corrected score bands the trailing P/E when present and non-zero, otherwise the forward P/E; it agrees with the code as written whenever the trailing P/E is a non-zero number |
| Indicators.ScorePEAntitone | Algorithmev1.py:355-368 | a higher P/E never scores higher |
| Indicators.ScoreRevenueGrowthMonotone | Algorithmev1.py:390-414 | faster revenue growth never scores lower |
| Indicators.ScoreBetaAntitone | Algorithmev1.py:684-704 | a higher beta never scores higher |
| Indicators.ScorePEAsWrittenAntitone | Algorithmev1.py:348-368 | the engine's P/E score, as written, never rises with a positive trailing P/E |
| Indicators.ScorePEGAntitone | Algorithmev1.py:370-388 | a higher positive PEG never scores higher |
| Indicators.ScoreProfitMarginsMonotone | Algorithmev1.py:416-438 | a wider profit margin never scores lower |
| Indicators.ScoreOperatingMarginMonotone | Algorithmev1.py:440-462 | a wider operating margin never scores lower |
| Indicators.ScoreROEMonotone | Algorithmev1.py:464-486 | a higher return on equity never scores lower |
| Indicators.ScoreROAMonotone | Algorithmev1.py:488-510 | a higher return on assets never scores lower |
| Indicators.ScoreDebtToEquityAntitone | Algorithmev1.py:512-534 | a higher debt-to-equity never scores higher |
| Indicators.ScoreDebtToAssetsAntitone | Algorithmev1.py:536-562 | against the same positive total assets, more debt never scores higher |
| Indicators.ScoreCurrentRatioMonotone | Algorithmev1.py:564-584 | a higher current ratio never scores lower |
| Indicators.ScoreFreeCashFlowMonotone | Algorithmev1.py:586-606 | more free cash flow never scores lower |
| Indicators.ScoreDividendYieldMonotone | Algorithmev1.py:608-628 | a higher dividend yield never scores lower, the neutral zero yield included |
| Indicators.ScorePriceToBookAntitone | Algorithmev1.py:662-682 | a higher positive price-to-book never scores higher |
| Indicators.ThresholdsAreStrict | Algorithmev1.py:221-704 | a six-month gain of exactly 30 % scores 9, a P/E of exactly 10 scores 9, a beta of exactly 2 scores 2 |
| Profiles.NameIsInjective | Algorithmev1.py:716-970 | distinct indicators carry distinct labels, and each label names back its indicator |
| Profiles.SectorSelection | Algorithmev1.py:716-950 | a sector value selects a named sector's profile exactly when it is that sector's name |
| Profiles.DefaultSelection | Algorithmev1.py:951-970 | every value that is none of the eleven names, and only those, selects the default profile |
| Profiles.ProfileShape | Algorithmev1.py:716-970 | every profile has five to seven distinct indicators with positive weights summing to 1.0, except Real Estate short, whose weights sum to 0.80 |
| Scoring.Evaluate | Algorithmev1.py:221-704 | every indicator score lies in [0, 10]; the history-based ones and debt/assets never raise; the P/E entry is `score_pe_ratio` as written |
| Scoring.EvaluatePE | Algorithmev1.py:350-353 | the engine's P/E entry is neutral whenever the trailing P/E is missing, and equals the corrected P/E score whenever the trailing P/E is a non-zero number |
| Scoring.EvaluatedEntries | Algorithmev1.py:716-970 | the weighted list holds, entry by entry, the indicator's score, the profile's weight and the indicator's label |
| Scoring.EvaluatedFails | Algorithmev1.py:716-970 | building the list fails exactly when one of the profile's indicators raises |
| Scoring.EvaluatedWeights | Algorithmev1.py:977-978 | the list's weights sum to the profile's total, and over positive weights every entry is on the 0-10 scale |
| Scoring.Round2Close | Algorithmev1.py:981 | rounding to two decimals moves a value by at most half a hundredth |
| Scoring.Round2Monotone | Algorithmev1.py:981 | rounding never reverses an order |
| Scoring.FinalInRange | Algorithmev1.py:977-983 | with scores in [0, 10] and non-negative weights, the unrounded and final scores lie in [0, 100], within half a hundredth of each other |
| Scoring.AllNeutralIsFifty | Algorithmev1.py:977-983 | when every score is 5.0 the final score is exactly 50.0 |
| Scoring.FinalMonotone | Algorithmev1.py:977-983 | raising any indicator's score, weights unchanged, never lowers the final score |
| Scoring.BreakdownKeys | Algorithmev1.py:973-975 | the breakdown holds exactly the list's labels |
| Scoring.BreakdownValues | Algorithmev1.py:973-975 | with distinct labels, each label holds its own entry's score |
| Scoring.BreakdownMatchesProfile | Algorithmev1.py:973-975 | after a scored run the breakdown holds exactly the selected profile's labels, each with its indicator's score |
| Scoring.RejectedExactly | Algorithmev1.py:36-71 | a run returns `None` exactly when the quote is missing or fails the five-field, `symbol`, sector-or-price checks |
| Scoring.RaisedExactly | Algorithmev1.py:706-970 | a run raises exactly when the quote is accepted and one of its profile's indicators raises |
| Scoring.ScoredInRange | Algorithmev1.py:706-985 | a scored run lies in [0, 100], within half a hundredth of 10 · Σ s·w / Σ w |
| Scoring.BlankIsNeutral | Algorithmev1.py:216-704 | without figures and without history, every indicator scores 5.0 |
| Scoring.BlankQuoteScoresFifty | Algorithmev1.py:706-985 | an accepted quote with no figures and no history scores exactly 50.0 in every sector and horizon |
| Scoring.StockScorer.constructor | Algorithmev1.py:19-34 | the ticker is upper-cased and the horizon lower-cased; no quote, an empty breakdown and a score of 0 |
| Scoring.StockScorer.FetchData | Algorithmev1.py:36-71 | succeeds exactly on an accepted quote; stores the quote, and the sector and industry once it is found; nothing else changes |
| Scoring.StockScorer.Aggregate | Algorithmev1.py:973-983 | the breakdown is rebuilt from the weighted list in order and the final score is the rounded normalised average |
| Scoring.StockScorer.CalculateScore | Algorithmev1.py:706-985 | returns the specified run and keeps ticker and horizon; stores the quote, sector and industry as `fetch_data` does; a scored run sets the breakdown of its weighted list and the final score; a rejected or raising run leaves both alone |
| Scoring.SearchTicker | Algorithmev1.py:199-214 | the alias of the stripped lower-cased name; else the upper-cased input when it has at most six characters and is upper-case or dotted; else `None` |
| Scoring.TickerPassesThrough | Algorithmev1.py:208-211 | a short upper-case ticker that is not an alias is returned as it stands |
| Scoring.DottedTickerIsUpperCased | Algorithmev1.py:208-211 | a short dotted ticker is upper-cased whatever its case |
| SmartSearch.TickerIndexKeys | smart_search.py:186-190 | the reverse index holds exactly the table's tickers |
| SmartSearch.TickerIndexFirst | smart_search.py:186-190 | each ticker maps to the full name of the first entry carrying it |
| SmartSearch.BuildTickerIndex | smart_search.py:187-190 | the module-level loop builds exactly that index |
| SmartSearch.NameHitsValid | smart_search.py:222-227 | the name loop keeps only scores above 60 and never repeats a ticker |
| SmartSearch.TickerHitsValid | smart_search.py:237-241 | the ticker loop keeps both properties and only appends after the name hits |
| SmartSearch.NameHitsComplete | smart_search.py:222-227 | the name hits carry exactly the tickers of the name matches scoring above 60: none is lost, none is invented |
| SmartSearch.TickerHitsComplete | smart_search.py:237-241 | the ticker loop's hits carry exactly the tickers already seen plus those of the ticker matches scoring above 60 |
| SmartSearch.CollectNames | smart_search.py:222-227 | the name loop with its seen set computes the name hits, and the set is their tickers |
| SmartSearch.CollectTickers | smart_search.py:237-241 | the ticker loop, continuing from the name hits, computes the ticker hits, and the set is their tickers |
| SmartSearch.SortPermutes | smart_search.py:243 | the sort is a permutation |
| SmartSearch.SortDescending | smart_search.py:243 | the sort orders by non-increasing score |
| SmartSearch.SortStable | smart_search.py:243 | the sort is stable: the hits of each score keep their original order |
| SmartSearch.SortKeepsScores | smart_search.py:243 | sorting keeps every score above 60 |
| SmartSearch.SortKeepsTickers | smart_search.py:243 | sorting keeps tickers unique |
| SmartSearch.TopHits | smart_search.py:243-244 | sorting then cutting sound hits keeps them sound and descending, keeps exactly `min(limit, n)` of them, permutes and is stable before the cut, and keeps every ticker when all fit |
| SmartSearch.LocalResultsProperties | smart_search.py:193-244 | an exact ticker, in any case, wins over an exact name, each giving one hit scoring 100; otherwise the hits score above 60, never repeat a ticker, and are exactly the first `min(limit, n)` of the n collected hits once sorted stably by descending score, the sort being a permutation |
| SmartSearch.CollectedTickers | smart_search.py:222-241 | the collected fuzzy hits carry exactly the tickers of the good name and ticker matches |
| SmartSearch.LocalResultsComplete | smart_search.py:193-244 | when the fuzzy hits fit within `limit`, the results carry every good match's ticker and no other |
| SmartSearch.SearchLocalCache | smart_search.py:193-244 | the local search computes exactly the specified results |
| SmartSearch.DedupProperties | smart_search.py:355-370 | the merge keeps each ticker once, keeps only given suggestions and keeps every ticker present |
| SmartSearch.DedupPrefix | smart_search.py:358-370 | merging local then remote suggestions keeps the merged local ones as a prefix |
| SmartSearch.KeepUnseen | smart_search.py:359-370 | one merge loop extends the merge of the suggestions seen so far, with the seen set equal to their tickers |
| SmartSearch.Merge | smart_search.py:355-370 | the two loops compute the de-duplicated merge of the local labels followed by the remote suggestions |
| SmartSearch.SuggestionsProperties | smart_search.py:317-380 | an empty query gives the eight defaults; a local top score above 85 returns the local labels alone; otherwise the merge capped at `limit`, local first, each ticker once, or the single not-found message exactly when both sources are empty |
| SmartSearch.Search | smart_search.py:317-380 | `smart_search` computes exactly the specified suggestions |
| SmartSearch.ExtractTickerHead | smart_search.py:404-406 | a selection holding `" - "` and neither marker reads back as its stripped head |
| SmartSearch.NotFoundMessageHasNoTicker | smart_search.py:396-398 | the not-found message reads back as no ticker |
| SmartSearch.LabelHead | smart_search.py:404-405 | the head of a label before its first `" - "` is its ticker when no `" - "` starts inside it |
| SmartSearch.ExtractTickerRoundTrip | smart_search.py:383-406 | a label whose ticker is stripped, holds no `" - "` and does not end in `" -"`, and that carries neither marker, reads back as its ticker |
| SmartSearch.ExtractTickerRoundTripCounterexample | smart_search.py:404-405 | a ticker ending in `" -"` reads back without that ending |
| Valuation.Classify | Home.py:113-135 | a ratio is green below its first threshold, yellow up to its second and red from it on (15/25 for P/E, 1/2 for PEG, 1/3 for P/B) |
| Valuation.ClassifyAntitone | Home.py:113-135 | a higher ratio never reads cheaper |
| Valuation.SignalFor | Home.py:113-135 | a ratio contributes one signal exactly when it is a positive number, with its value and band |
| Valuation.Verdict | Home.py:140-148 | green when greens outnumber reds, red when reds outnumber greens, balanced on a tie |
| Valuation.Check | Home.py:113-135 | one check raises exactly on a text value and otherwise appends the ratio's signal, if any |
| Valuation.GetValuationAnalysis | Home.py:105-150 | the step-by-step analysis computes exactly the specified analysis |
| Valuation.SignalsOrdered | Home.py:111-135 | at most three signals, in the order P/E, PEG, P/B, each positive and in its band |
| Valuation.SignalsPresent | Home.py:107-135 | each ratio is listed exactly when its value, after the P/E fallback, is a positive number |
| Valuation.InsufficientExactly | Home.py:137-138 | the insufficient-data answer comes exactly when no ratio is positive and none is text |
| Valuation.ForwardPEFallback | Home.py:107 | a missing or zero trailing P/E falls back to a positive forward P/E, which becomes the first signal |
| Valuation.SingleSignalVerdict | Home.py:140-148 | a single signal decides the verdict alone |
| Valuation.VerdictMonotone | Home.py:140-148 | adding a green signal never makes the verdict dearer, and adding a red one never makes it cheaper |
| Valuation.Rate | Home.py:395-414 | exactly one banner per score: from 80, from 65, from 50, from 35, else |
| Valuation.RateMonotone | Home.py:395-414 | a higher global score never gets a weaker banner |
| Valuation.TileColour | Home.py:479-493 | exactly one tile colour per score: from 8, from 6, from 4, from 2, else |
| Valuation.TileMatchesBanner | Home.py:479-493 | the tile bands are not the banner's bands scaled by ten; the exact ranges where the two colours agree |

## Findings

| source | as written | input that shows it | evidently intended | confidence | as-written member | corrected member |
|---|---|---|---|---|---|---|
| Algorithmev1.py:350 | `safe_get('trailingPE') or safe_get('forwardPE')`: a missing trailing P/E reads as the truthy "N/A", so the forward P/E is never consulted for it and the score is neutral | a quote whose only P/E field is `forwardPE` = 12 | fall back to the forward P/E when the trailing one is missing, as the valuation panel does at Home.py:107 (score 9.0 for 12) | medium, not executed | Indicators.PEFallbackCounterexample | Indicators.PEFallback |

The scoring engine in `Scoring` evaluates the P/E entry as written (`Indicators.ScorePEAsWritten`), so every run it describes is the code's. `Indicators.PEFallbackAsWritten` states that behaviour for every quote, `Indicators.PEFallback` proves the intended fallback for the corrected `Indicators.ScorePE`, and `Scoring.EvaluatePE` shows that the two agree whenever the trailing P/E is a non-zero number.

## Left out

- Market-data I/O: the provider's quote, the 6- and 3-month histories and the dividend series are parameters. A request that raises is a missing quote (`None`), and a failed history fetch is an empty series. `self.stock` is not modelled.
- `search_yahoo_api` (smart_search.py:247-314), a network lookup: its suggestions are the `remote` parameter of `SmartSearch.Search`.
- The fuzzy matcher: the (choice, score) lists that `process.extract` returns for names and for tickers are parameters. The model assumes only that each choice is a key of the table or of the index; the `limit * 2` top-k selection is not modelled.
- The alias tables `POPULAR_COMPANIES` and `common_names` are parameters. Their content is configuration, not logic, and only the eight default suggestions are transcribed.
- Floating point: figures are exact reals. numpy's infinities and NaN are modelled only where the code reaches them: a first close of 0 in momentum, and a zero mean loss in the RSI.
- Scoring.Round2: rounds half up on exact reals. Python's `round` on binary floats can differ on values that are ties in decimal.
- Strings.Upper, Strings.Lower, Strings.IsUpperCased: case mapping and the `str.isupper()` test cover ASCII letters only; Python's are Unicode-aware (`"É".isupper()` is true).
- Default arguments: `horizon='long'` (Algorithmev1.py:19), `limit=5` (smart_search.py:193) and `limit=8` (smart_search.py:317) are not modelled as defaults; callers pass every argument.
- SmartSearch.LocalResults, SmartSearch.Search: `limit` is a natural number; a negative limit, which Python slicing counts from the end, is not modelled.
- SmartSearch.Search: the permissive retry repeats the same local search. With the matcher's answers fixed it returns what the first search did, so it is modelled as written but can never change the outcome.
- All `print` output, `display_results`, `main` and `input()`.
- The Streamlit pages apart from the three classifiers, which covers widgets, charts, tables, the cached data loader and the `format_*` helpers. The copies of the valuation analysis in `App.py` and `App_avec_onglets.py` differ only in message text and are not modelled separately.
- The emoji icons, verdict sentences and signal descriptions of the dashboard: icons follow the colours one to one, and the texts are formatting only.
- The dashboard's `calculate_scores` call (Home.py:368-370) names a method `StockScorer` does not define, so that path is not modelled.
- The dashboard's help-text scales (e.g. Home.py:212-215) describe scores the code does not compute. The model follows the indicator code.
