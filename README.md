# Eco-Health-AI: a Dafny model of the risk-scoring dashboard

Eco-Health-AI is a single-page React dashboard. A user enters environmental metrics for a
location: AQI, temperature, humidity, rainfall and population density. Fixed formulas turn
them into three disease predictions (Dengue, Respiratory Distress, Typhoid), each with a
probability, a risk level and a trend. The predictions are ranked and averaged into a risk
score, and the finished result is recorded in the application's in-memory state. The
dashboard then derives statistics, a per-year chart series and a recent-report list from
that state.

This project models that core in Dafny. There is one module per source file:

- `Types` (types.ts): the records `EnvironmentalData`, `DiseasePrediction`, `AnalysisResult`
  and `HistoricalEntry`. It also holds the enums `RiskLevel` and `Trend`, and a `Tone`
  type for the three colour families the views use.
- `Constants` (constants.tsx): the seed history.
- `GeminiService` (services/geminiService.ts): only the choice between generated text, the
  "unavailable" text and the fallback text.
- `RiskMeter` (components/RiskMeter.tsx): the meter's colour band.
- `AnalyzeArea` (components/AnalyzeArea.tsx):
  - the three scoring rules;
  - the stable descending sort;
  - the score;
  - `Analyze`, the record that `handlePredict` builds;
  - the card classifiers and the tips toggle;
  - class `AnalyzeState`, the panel's state. Its `HandlePredict` calls `App.AppState.AddResult`,
    which is how the model represents the `onAddResult` callback.
- `App` (App.tsx): class `AppState` with its four state fields and `AddResult`. There is
  also a value-level description of `addResult` (`Record`) with lemmas about n successive
  calls, and the `renderContent` switch.
- `Dashboard` (components/Dashboard.tsx): total cases, average AQI, high-risk count, the
  year list, the chart rows (a loop, as in the source), the recent reports and their badge.

Inputs are modelled as `real`s. Probabilities are integers obtained with `.Floor`. The
network call, the random id and case count, and the clock are all parameters:
`insightFor`, `id`, `cases` and `timestamp`. The only constraint on `cases` is the bound
the source guarantees, `0 <= cases < 500`.

Chart rows assign each entry's cases under its disease (components/Dashboard.tsx:29-31), so
the last entry for a year and disease wins. `Dashboard.ChartKeepsLastNotSum` shows this on a
sample with two such entries: the row holds 50, not 150.

## Model

| member | source | states |
|---|---|---|
| `GeminiService.InsightText` | services/geminiService.ts:29-42 | the insight is never empty: generated text when non-empty, the "unavailable" text for an empty answer, the fallback text when the call throws |
| `RiskMeter.GetColor` | components/RiskMeter.tsx:15-19 | green iff s < 30, amber iff 30 <= s < 70, red iff s >= 70 (so exactly one band per score) |
| `RiskMeter.GetColorMonotone` | components/RiskMeter.tsx:15-19 | band severity never decreases as the score grows |
| `App.DerivedEntry` | App.tsx:30-34 | the derived entry has year 2024, the top prediction's disease, and cases in [0, 499] |
| `App.Record` | App.tsx:27-36 | one addResult: the result is prepended (older results unchanged, in order) and exactly one entry is appended (earlier entries unchanged) |
| `App.RecordAllRecent` | App.tsx:28 | after n calls the result list is the n results newest first, followed by the old list |
| `App.RecordAllHistory` | App.tsx:35 | after n calls the history is the old history followed by the n derived entries in call order |
| `App.RecordAllGrowth` | App.tsx:27-36 | after n calls both lists have grown by exactly n and the list's head is the latest result |
| `App.SeedWellFormed` | constants.tsx:26-37 | every seed entry has a four-digit year and non-negative cases |
| `App.ViewFor` | App.tsx:38-111 | 'analyze', 'upload', 'history' and 'about' select their views; 'dashboard' and every other tab select the dashboard |
| `App.AppState.constructor` | App.tsx:12-15 | initial state: tab 'dashboard', light theme, no results, history equal to the seed data |
| `App.AppState.AddResult` | App.tsx:27-36 | the new state is `Record` of the old one; only the two lists change, and the invariant (four-digit years, non-negative cases) is kept |
| `App.AppState.CurrentView` | App.tsx:38-43 | the analysis view is shown iff the active tab is 'analyze' |
| `App.StartUp` | App.tsx:12-15 | a fresh application is on the dashboard tab in the light theme, has no results, and its history is exactly the ten seed entries |
| `AnalyzeArea.CappedFloor` | components/AnalyzeArea.tsx:38-52 | min(95, floor(x)): at most 95, equal to 95 iff x >= 95, otherwise the integer just below or at x; non-negative for non-negative x |
| `AnalyzeArea.DengueCard` | components/AnalyzeArea.tsx:36-42 | name Dengue, probability min(95, floor(rainfall/3 + humidity/2)), Critical iff rainfall > 200 and High otherwise, trend Up, its three tips |
| `AnalyzeArea.RespiratoryCard` | components/AnalyzeArea.tsx:43-49 | name Respiratory Distress, probability min(95, floor(aqi * 1.5)), High iff aqi > 100 and Moderate otherwise, trend Up, its three tips |
| `AnalyzeArea.TyphoidCard` | components/AnalyzeArea.tsx:50-56 | name Typhoid, probability min(95, floor(temperature + rainfall/10)), always Moderate, trend Stable, its three tips |
| `AnalyzeArea.Cards` | components/AnalyzeArea.tsx:35-56 | exactly the three card literals, in the written order Dengue, Respiratory Distress, Typhoid (table positions 0, 1, 2) |
| `AnalyzeArea.CardBounds` | components/AnalyzeArea.tsx:38-52 | every probability is <= 95, and >= 0 when the inputs it reads are non-negative |
| `AnalyzeArea.Insert` | components/AnalyzeArea.tsx:57 | inserting into a non-increasing list keeps it non-increasing and one longer |
| `AnalyzeArea.SortByProbability` | components/AnalyzeArea.tsx:57 | the sorted list has the same length and is non-increasing in probability |
| `AnalyzeArea.SortPermutes` | components/AnalyzeArea.tsx:57 | the sorted list is a permutation of the input |
| `AnalyzeArea.SortStable` | components/AnalyzeArea.tsx:57 | stability: for every probability value, the predictions with that value keep their input order |
| `AnalyzeArea.SortedPairs` | components/AnalyzeArea.tsx:57 | in a sorted list every earlier probability is >= every later one |
| `AnalyzeArea.Predict` | components/AnalyzeArea.tsx:35-57 | three predictions, non-increasing, a permutation of the three literals |
| `AnalyzeArea.PredictTieOrder` | components/AnalyzeArea.tsx:35-57 | equal probabilities keep the literal order Dengue, Respiratory Distress, Typhoid |
| `AnalyzeArea.RiskScore` | components/AnalyzeArea.tsx:59 | the score is the floor of the mean: score * n <= sum < (score + 1) * n |
| `AnalyzeArea.ScoreWithinRange` | components/AnalyzeArea.tsx:59 | the score lies between any lower and upper bound of the probabilities |
| `AnalyzeArea.PredictScoreBounds` | components/AnalyzeArea.tsx:57-59 | for every input, the score of the sorted cards lies between the last and the first probability, which is at most 95 |
| `AnalyzeArea.Analyze` | components/AnalyzeArea.tsx:28-70 | empty location gives the alert "Please enter a location" and nothing else; otherwise the record carries the given id, location, timestamp, inputs and insight, three sorted predictions permuting the literals with ties in the written order, and a score that is the floor of their mean, between the lowest and highest probability, <= 95 |
| `AnalyzeArea.DefaultFormPrediction` | components/AnalyzeArea.tsx:20-59 | the initial form yields Dengue 72, Respiratory Distress 67, Typhoid 40, in that order, and score 59 |
| `AnalyzeArea.BarColor` | components/AnalyzeArea.tsx:270 | probability bar: red iff p > 70, amber iff 40 < p <= 70, green iff p <= 40 |
| `AnalyzeArea.BarColorMonotone` | components/AnalyzeArea.tsx:270 | bar severity never decreases as the probability grows |
| `AnalyzeArea.BarAndMeterAt70` | components/AnalyzeArea.tsx:270 | at 70 the bar is amber while the meter is red; above 70 both are red |
| `AnalyzeArea.BadgeColor` | components/AnalyzeArea.tsx:250-254 | the risk badge is red iff the level is High or Critical, amber iff Low or Moderate |
| `AnalyzeArea.ToggleTips` | components/AnalyzeArea.tsx:279 | clicking the expanded card collapses to none; clicking any other card expands exactly that one |
| `AnalyzeArea.ToggleTipsTwice` | components/AnalyzeArea.tsx:279 | two clicks on one card restore the state iff nothing or that card was expanded before |
| `AnalyzeArea.AnalyzeState.constructor` | components/AnalyzeArea.tsx:15-26 | initial panel state: empty location, the default form, no result, no tips expanded |
| `AnalyzeArea.AnalyzeState.SetLocation` | components/AnalyzeArea.tsx:121 | the location becomes the typed value; nothing else changes |
| `AnalyzeArea.AnalyzeState.SetFormData` | components/AnalyzeArea.tsx:134 | the form becomes the new record; nothing else changes |
| `AnalyzeArea.AnalyzeState.ClickTips` | components/AnalyzeArea.tsx:279 | the expanded card becomes `ToggleTips` of the old one; nothing else changes |
| `AnalyzeArea.AnalyzeState.HandlePredict` | components/AnalyzeArea.tsx:28-76 | empty location: alert, and neither the panel result nor the app's lists change; otherwise exactly one record (`Analyze`) is stored as result and recorded once through addResult |
| `AnalyzeArea.AnalyzeState.Publish` | components/AnalyzeArea.tsx:72-73 | the panel's result becomes the new record and the app's lists become `Record` of the old ones; form, location, tips, tab and theme are unchanged |
| `AnalyzeArea.MumbaiSession` | components/AnalyzeArea.tsx:20-76 | analysing "Mumbai" with the initial form adds one result and one entry, filed under Dengue, with score 59 |
| `Dashboard.TotalCases` | components/Dashboard.tsx:15 | the sum of cases over all entries; non-negative when every count is |
| `Dashboard.TotalCasesAppend` | components/Dashboard.tsx:15 | the total of a concatenation is the sum of the totals |
| `Dashboard.TotalCasesAfterRecord` | components/Dashboard.tsx:15 | recording a result raises the total by exactly its case count |
| `Dashboard.SeedTotalCases` | constants.tsx:26-37 | the seed data totals 1840 cases |
| `Dashboard.AverageAqi` | components/Dashboard.tsx:16-18 | 45.0 with no results, otherwise the mean AQI (average times count equals the AQI sum) |
| `Dashboard.AverageAqiWithinRange` | components/Dashboard.tsx:16-18 | the mean lies between any bounds of the individual AQI values |
| `Dashboard.CountAbove` | components/Dashboard.tsx:21 | the count is the number of positions whose probability exceeds t (the items filter keeps); hence at most the length, 0 iff none exceeds t, the length iff all do |
| `Dashboard.HighRiskCount` | components/Dashboard.tsx:20-22 | 0 without results; otherwise the number of the latest result's predictions above 60, so at most their count, and 0 iff none exceeds 60 |
| `Dashboard.DefaultFormAlerts` | components/Dashboard.tsx:20-22 | after analysing the initial form the dashboard shows 2 high-risk alerts |
| `Dashboard.InsertYear` | components/Dashboard.tsx:25 | adding a year to a strictly increasing list keeps it strictly increasing, with exactly the old years plus the new one |
| `Dashboard.Years` | components/Dashboard.tsx:25 | the years present, each exactly once (strictly increasing), and nothing else |
| `Dashboard.FourDigitOrder` | components/Dashboard.tsx:25 | for four-digit years, decimal-string order (what sort() compares) equals numeric order |
| `Dashboard.YearsInStringOrder` | components/Dashboard.tsx:25 | in every history the application can hold, the year list is also ascending as strings, hence is the list sort() produces |
| `Dashboard.SeedYears` | components/Dashboard.tsx:25 | the seed data gives the years 2019 to 2023 |
| `Dashboard.EntriesIn` | components/Dashboard.tsx:28 | an entry is kept iff it is in the history and has the requested year; no longer than the history |
| `Dashboard.EntriesInConcat` | components/Dashboard.tsx:28 | the filter of a concatenation is the concatenation of the filters, so the kept entries keep their history order |
| `Dashboard.Overwrite` | components/Dashboard.tsx:29-31 | the last item's cases are stored under its disease, and every key is the disease of some item |
| `Dashboard.LastMatch` | components/Dashboard.tsx:29-31 | reference reading: the position of the last entry with the year and disease, with no later match, or -1 |
| `Dashboard.RowIsLastWrite` | components/Dashboard.tsx:27-31 | a row has disease d iff some entry of that year names d, and then holds the cases of the last such entry |
| `Dashboard.RowKeys` | components/Dashboard.tsx:27-31 | a row's diseases are exactly those with an entry in that year; others are absent |
| `Dashboard.ChartEntry` | components/Dashboard.tsx:27-32 | the forEach loop leaves exactly the last-write-wins map `Overwrite` of the year's items |
| `Dashboard.BuildChartData` | components/Dashboard.tsx:26-33 | one row per year, in the order of the year list, each row's year that year and its values the last-write-wins map of that year's entries |
| `Dashboard.DuplicateSampleYears` | components/Dashboard.tsx:25 | two entries for 2020 and one for 2021 give the years [2020, 2021] |
| `Dashboard.ChartKeepsLastNotSum` | components/Dashboard.tsx:29-31 | with Dengue 100 and then Dengue 50 in 2020, the 2020 row holds Dengue 50, not 150 |
| `Dashboard.RecentReports` | components/Dashboard.tsx:122 | at most five reports: the first min(5, n) results, in order |
| `Dashboard.ReportBadge` | components/Dashboard.tsx:129 | a report's badge is red iff its score is above 60, green otherwise |
| `Dashboard.NewestReportFirst` | components/Dashboard.tsx:122 | after recording, the new result heads the report list and the older ones follow |

## Left out

- The `setTimeout` delay, the async sequencing and the `loading` spinner of `handlePredict`
  (components/AnalyzeArea.tsx:30-33, 74-75). They are timing and UI concerns. The button is
  disabled while loading, so re-entrant calls are not modelled.
- `getAIInsights` (services/geminiService.ts): building the prompt, the API key, and the
  network call with its model configuration. The panel receives the insight as the opaque
  total function `insightFor`. `GeminiService.InsightText` models only how the outcome of
  the call becomes the returned string.
- `insightFor` is assumed to resolve. `getAIInsights` can still reject when creating the
  client or building the prompt throws (services/geminiService.ts:11, before its `try`);
  `handlePredict` would then never record a result or clear `loading`. That path is not modelled.
- `Math.random` and `Date`: the id, the timestamp and the case count are parameters. Only
  the case count's range is kept.
- The report download (components/AnalyzeArea.tsx:78-104): the text template, Blob, URL
  and DOM anchor, and JavaScript number formatting.
- IEEE-754 floating point, `toFixed(1)` on the average AQI, and the NaN that `Number()`
  yields for non-numeric input. All inputs are exact reals.
- The risk meter's SVG geometry (components/RiskMeter.tsx:9-13).
- JSX and CSS rendering, the recharts configuration, the "history" and "about" page
  contents, `components/Navbar.tsx`, the dark-theme effect that touches `document`
  (App.tsx:17-25), the non-functional upload input and `DISEASE_ICONS`. `activeTab` and
  `isDark` are only read and initialised here; Navbar's setters are not modelled.
- A chart row keeps its year apart from the disease map (`Dashboard.ChartRow`), while the
  source builds one object (components/Dashboard.tsx:27-30), where a disease named "year"
  would overwrite the row's year. No history the application can hold has such a name: the
  seed diseases and the three prediction names are the only ones.
- Dashboard.Years: sorts numerically, while the source's bare sort() compares the years'
  decimal strings. The two orders agree for four-digit years (`Dashboard.FourDigitOrder`).
  Those are the only years the application's history holds (`App.AppState.Valid`), so
  `Dashboard.YearsInStringOrder` covers every reachable state; other years are not modelled.
- AnalyzeArea.RiskScore: requires a non-empty list. For an empty list the source computes
  NaN, but its only caller always passes three predictions.
- App.AppState.AddResult: requires a non-empty prediction list. For an empty list the
  source has already queued the prepend (App.tsx:28) when reading `predictions[0].name`
  throws a TypeError (App.tsx:32), so the two lists would fall out of step. This cannot
  happen in the application: every result the panel builds has three predictions.
