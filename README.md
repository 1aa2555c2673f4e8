# Stock scorer, modelled in Dafny

This project models the scoring core of a small Taiwan-stock screening app. For each code in a comma-separated list, the app fetches a year of daily bars and computes the 20- and 60-bar simple moving averages of the close. From the last bars it derives:

- bullish alignment (MA20 above MA60);
- a rising MA60 (the last value against the one four bars earlier);
- today's and yesterday's volume in 1000-share lots;
- the bias, the percentage gap between the close and MA20.

It adds these into a score: +25 and +25 for the two trend tests, +20 for more than 1000 lots, +10 for a bias below 10, +20 for the prime-entry band `0 < bias <= 3`, and −10 when volume shrank. The score is clamped to [0,100]. The app also returns a buy note (絕佳買點 prime entry / 乖離過大 overextended / 整理中 consolidating), a volume note (增量 / 量縮) and a reference stop of MA20 × 0.97. Series shorter than 60 bars give no report, and the scan keeps the reports that were produced, in input order.

Modules:

- `Wrappers`: `Option`.
- `MovingAverage`: window sums and means, the rolling-mean column as a specification (`RollingMeanAt`, `RollingColumn`), and a one-pass running-sum method `RollingMean` proved against it.
- `Scoring`: the bar and indicator data and the bias as an IEEE-style quotient (`ExtReal`: a finite value, ±∞, or NaN; every comparison with NaN is false). It also holds the additive rule (`RawScore`, `Score`), the notes, the stop, and the class `PriceFrame`, whose moving-average columns are added in place. `AnalyzeStock` builds the score step by step the way the routine does, and is proved equal to the functional `Analysis`.
- `Symbols`: `split(",")`, `strip()` using Python's whitespace set, and the comprehension that drops empty pieces.
- `Scan`: the result-collecting loop `ScanStocks` (it calls `AnalyzeStock`), proved equal to `Collected`, with lemmas on order, completeness, duplicates and concatenation.

Details of the code that the model keeps:

- The prime-entry band is `0 < bias <= 3` (app.py:48).
- The trend test reads MA60 at `iloc[-5]`, four bars before the last (app.py:30).
- The volume penalty compares today's volume with yesterday's (app.py:56).
- The scan does not remove duplicate symbols (app.py:78-80).

A consequence of the code as written: with 60 to 63 bars, the earlier MA60 is undefined. The trend bonus then never applies, so a score of 100 needs at least 64 bars (`NoTrendBonusBeforeLookback`). A score of 100 also needs volume that did not shrink; the app's own tip text does not list that condition (`Score`).

## Model

| member | source | states |
|---|---|---|
| `MovingAverage.RollingMeanAt` | app.py:25-26 | reference definition: the rolling mean at bar t is defined exactly when at least w bars end at t, and is then the mean of those w closes |
| `MovingAverage.RollingMean` | app.py:25-26 | the one-pass running-sum loop yields, at every bar, exactly the trailing-window mean (or undefined before the window fills) |
| `MovingAverage.RollingColumn` | app.py:25-26 | reference definition: one entry per bar, each the rolling mean at that bar |
| `MovingAverage.MeanOfConstant` | app.py:25-26 | a trailing mean over a window of one constant price equals that price |
| `MovingAverage.SumAppend` | app.py:25-26 | window sums add over concatenation (the basis of the running sum) |
| `Scoring.BiasPct` | app.py:37 | the bias is finite exactly when MA20 ≠ 0, and then bias × MA20 = (close − MA20) × 100; a zero MA20 gives NaN exactly when the close is 0 too, +∞ for a positive close and −∞ for a negative one |
| `Scoring.Indicators.IsTrendUp` | app.py:34 | MA60 is rising iff the earlier MA60, read as NaN when undefined, compares below the latest; so an undefined earlier value makes the test false |
| `Scoring.IndicatorsOf` | app.py:25-36 | last close; MA20 and MA60 as the means of the last 20 and 60 closes; the earlier MA60 is defined iff there are at least 64 bars, and is then the mean of closes n−64..n−5; volumes in lots |
| `Scoring.RawScore` | app.py:40-58 | the unclamped score lies in [−10,100]; it is negative only as −10, exactly when no bonus applies and volume shrank |
| `Scoring.Score` | app.py:40-61 | the score lies in [0,100]; the clamp only lifts −10 to 0; it is 100 iff bullish, MA60 rising, over 1000 lots, 0 < bias ≤ 3 and volume not shrinking |
| `Scoring.BuyNoteOf` | app.py:47-52 | prime entry iff 0 < bias ≤ 3, overextended iff bias > 10, consolidating iff neither (NaN bias: consolidating) |
| `Scoring.VolNoteOf` | app.py:55-58 | definition: the shrinking-volume note iff today's lots are strictly below yesterday's |
| `Scoring.StopOf` | app.py:70 | the stop lies exactly 3% of MA20 below MA20, for every MA20; for a positive MA20 it is below MA20 |
| `Scoring.ReportOf` | app.py:63-71 | the returned row carries the symbol, the last close, the bias, today's lots, a score in [0,100] that is 100 iff all five conditions hold, the prime-entry note iff the bias is in the band, the shrinking note iff volume fell, and the stop MA20 × 0.97 |
| `Scoring.Analysis` | app.py:18-72 | a report exists iff the series has at least 60 bars; it then carries the symbol, the last close, the last volume in lots, the stop 0.97 × the mean of the last 20 closes, and a score in [0,100] |
| `Scoring.PriceFrame.constructor` | app.py:21 | the frame holds the fetched closes and volumes and no average columns yet |
| `Scoring.PriceFrame.AddMovingAverages` | app.py:25-26 | afterwards the MA20 and MA60 columns are the rolling-mean columns of the closes |
| `Scoring.Tally` | app.py:40-61 | the step-by-step tally of bonuses, penalty and clamp equals the score rule `Score`, with the buy note and volume note of the indicators |
| `Scoring.ColumnsGiveIndicators` | app.py:25-36 | reading the last rows of the two rolling-mean columns gives exactly `IndicatorsOf` of the bars |
| `Scoring.AnalyzeStock` | app.py:18-72 | returns a report iff the series has at least 60 bars; the report equals the functional analysis, carries the symbol and a score in [0,100] |
| `Scoring.TrendUpIff` | app.py:30-34 | with at least 64 bars, MA60 is rising iff the four newest closes sum to more than the four closes that left the window |
| `Scoring.NoTrendBonusBeforeLookback` | app.py:22-42 | with 60 to 63 bars the trend test is false and the score is at most 75 |
| `Scoring.ConstantSeries` | app.py:25-52 | a flat series: MA20 = MA60 = price, bias 0 for a non-zero price, no bullish or prime-entry bonus, MA60 not rising, note consolidating, stop = 0.97 × price, score at most 30 |
| `Scoring.BiasBandsInPrice` | app.py:37-52 | for a positive MA20: prime entry iff MA20 < close ≤ 1.03 × MA20; overextended iff close > 1.1 × MA20; +10 iff close < 1.1 × MA20 (a close exactly 10% above gets neither) |
| `Scoring.VolumePenaltyIsolated` | app.py:54-58 | yesterday's volume moves the raw score only through the penalty, by exactly 10 when today's volume is below it |
| `Symbols.IsSpaceExactly` | app.py:16 | the whitespace test `IsSpace` behind `strip()` accepts exactly the 29 characters of Python's `str.isspace`, listed one by one |
| `Symbols.Split` | app.py:16 | splitting on commas yields at least one piece and no piece contains a comma |
| `Symbols.JoinSplit` | app.py:16 | joining the pieces with commas gives back the text |
| `Symbols.SplitJoin` | app.py:16 | comma-free pieces joined with commas split back into the same pieces |
| `Symbols.SplitAtComma` | app.py:16 | the pieces of `a,b` are the pieces of a followed by those of b |
| `Symbols.TrimStart` | app.py:16 | drops a whitespace prefix, leaving a suffix that is empty or starts with a non-space |
| `Symbols.TrimEnd` | app.py:16 | drops a whitespace suffix, leaving a prefix that is empty or ends with a non-space |
| `Symbols.Strip` | app.py:16 | the stripped text is empty or starts and ends with a non-space, and contains no comma if the input had none |
| `Symbols.StripIsInfix` | app.py:16 | stripping removes exactly a whitespace prefix and a whitespace suffix, keeping the text between |
| `Symbols.NonEmptyStripped` | app.py:16 | yields no more symbols than there were pieces |
| `Symbols.NonEmptyStrippedSymbols` | app.py:16 | when no piece contains a comma, every kept entry is non-empty, has no surrounding whitespace and contains no comma |
| `Symbols.NonEmptyStrippedAppend` | app.py:16 | the filter distributes over concatenation of piece lists |
| `Symbols.ParseSymbols` | app.py:16 | every parsed symbol is non-empty, has no surrounding whitespace and contains no comma; there are no more symbols than pieces |
| `Symbols.ParseAtComma` | app.py:16 | parsing `a,b` gives the symbols of a followed by those of b: order is kept and repeated codes are not merged |
| `Symbols.ParseCode` | app.py:16 | a comma-free code without surrounding whitespace parses to itself, also behind one space |
| `Scan.Collected` | app.py:76-80 | the collected results are no more than the symbols |
| `Scan.Hits` | app.py:76-80 | the successful positions are in range, strictly increasing, and include every position whose analysis succeeded |
| `Scan.CollectedInOrder` | app.py:76-80 | the k-th collected result is the analysis of the k-th successful position |
| `Scan.CollectedAppend` | app.py:76-80 | scanning a concatenated list gives the results of each part, in order |
| `Scan.CollectedKeepsDuplicates` | app.py:76-80 | a symbol listed twice is reported twice |
| `Scan.ScanReportsValid` | app.py:76-80 | every scanned report comes from a listed symbol whose series had at least 60 bars, and has a score in [0,100] |
| `Scan.Analyzer` | app.py:19-72 | a symbol yields a report iff its fetch succeeded and gave at least 60 bars, and the report is then the analysis of that series |
| `Scan.ScanStocks` | app.py:76-80 | the loop that calls the scoring routine per symbol collects exactly `Collected` of the symbols |

## Left out

- The web page: page set-up, title, sidebar widgets, button, spinner, table styling (`highlight_100`), tabs and charts (app.py:6-15, 82-106). These are presentation only; the sidebar text is the parser's input.
- The market-data fetch (`yf.Ticker(...).history`, app.py:20-21 and 99). It is network I/O done by a foreign library, so it is a parameter: a series for `AnalyzeStock`, and a function `fetch: string -> Option<seq<Bar>>` for the scan, where `None` stands for a failed fetch. Because the fetch is a function, a symbol listed twice gets the same series both times, while the app fetches over the network once per occurrence and the two answers can differ; `CollectedKeepsDuplicates` relies on this.
- The bare `except: return None` (app.py:72). Only its effect is modelled: a failed fetch yields no report. Other exceptions cannot arise in the model.
- Display formatting: `round(..., 2)`, the percent and lot labels, `int(vol_today)` and the emoji prefixes of the notes (app.py:50, 52, 63-70). The report carries the exact values and the note as an enumeration.
- Floating point in the arithmetic: closes, means, the bias and the ×0.97 are exact reals. Only the quotient by a zero MA20 follows IEEE-754 (±∞, NaN), through `ExtReal`, and a negative zero is not distinguished. NaN closes or volumes in the fetched data are not modelled.
- Bar fields other than close and volume (open, high, low, date), and pandas' `df.empty` for a frame without rows, which the length test already covers.
- Column storage: `PriceFrame` stores each column as a sequence field that the method reassigns, not as a pandas column in a shared frame.
- auto_scan.py is not part of this model. It is LINE push messaging over HTTP, an exchange JSON fetch with float parsing, and a report script, with no scoring logic.
