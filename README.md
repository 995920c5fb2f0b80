# ESG portfolio risk scoring — a Dafny model

Two analysis scripts score the clients of a bank's loan book for
environmental and social (E&S) risk and summarise the book.

- `esg_risk_project.py` maps each client's E and S ratings (Low, Medium,
  High) to scores 1, 2 and 3. It takes the worse of the two
  (`Max_Risk_Score`, a non-compensatory rule). A client goes on the watchlist
  when that score is 3 and its Environmental & Social Action Plan (ESAP) is
  Delayed or Not Started. For the score-3 clients it sums exposure per ESAP
  status and reindexes that series to the order Closed, Delayed,
  In Progress, Not Started. From the series it reads `failed_compliance`,
  and from the watchlist column it reads the watchlist exposure and count.
- `esg_analysis.py` adds the two scores (`Total_ESG_Risk_Score`, 2..6) and
  flags a client as high-risk at a total of 5 or more. It builds three
  tables:
  - a sector table (loan total, mean score, high-risk count), sorted by
    loan total, largest first;
  - a client count per ESAP status;
  - a client count and loan book per green-finance tag.

  It also reports the book's total value, the high-risk count and the green
  loan book.

The model is made of six modules:

- `Portfolio` (portfolio.dfy): the client record, the rating enums and the
  rating-to-score map.
- `GroupBy` (groupby.dfy): the pandas operations the tables are built from.
  These are boolean-mask selection, column sums, `groupby` over the keys
  that occur, and `sort_values(ascending=False)`.
- `EsgRiskProject` (risk_project.dfy): the first script.
- `RiskComplianceFinding` (compliance.dfy): a concrete input on which the
  first script's `failed_compliance` goes wrong (see "## Findings").
- `EsgAnalysis` (analysis.dfy): the second script.
- `ScoringComparison` (comparison.dfy): the two scoring policies compared.

Each script adds its score columns to its DataFrame in place. That is
modelled as a class holding the rows and one `seq` per added column
(`ScoredTape`, `AnalysisFrame`). Its `AddScoreColumns` method establishes
that every cell holds the scoring rule applied to its row. A read-only
method then computes the report totals from those columns.

Exposure is a whole number of dollars (`nat`). A pandas float cell of the
ESAP series is `Value = NaN | Num(amount)`, and `+` on cells propagates
NaN. `groupby` emits groups in the sorted order of their labels:
- statuses: Closed, Delayed, In Progress, Not Started;
- green tags: "No" before "Yes";
- sectors: in code-point order of their labels (so "TMT" comes before "Textiles").

The model keeps that order.

Each script hard-codes its own scoring rule, and each is modelled as it
stands. `ScoringComparison.ThreeRecordScenario` shows that a Medium/Medium
client totals 4 under the additive rule and is not flagged at the threshold
of 5.

## Model

| member | source | states |
|---|---|---|
| Portfolio.RiskMap | esg_risk_project.py:95-97 | looking up a label in the rating map gives a score exactly when the label is one of "Low", "Medium", "High", and then it is that rating's score |
| Portfolio.Score | esg_analysis.py:45-48 | every rating scores between 1 and 3 |
| Portfolio.ScoreStrictlyMonotone | esg_risk_project.py:95 | one rating is below another exactly when its score is smaller |
| EsgRiskProject.MaxRiskScore | esg_risk_project.py:99-101 | the score is at least both dimension scores and equals one of them; it lies in 1..3; it is 3 exactly when E or S is High, so a High is never masked |
| EsgRiskProject.Watchlist | esg_risk_project.py:103-109 | a client is on the watchlist exactly when E or S is High and its plan is Delayed or Not Started |
| EsgRiskProject.HighRiskOnly | esg_risk_project.py:128 | `high_risk_only` holds exactly the clients with a High in some dimension |
| EsgRiskProject.WatchlistExposure | esg_risk_project.py:259 | the exposure of the rows the `Watchlist` column selects: at most the book's exposure, and 0 when no client is watchlisted; `WatchlistSplit` relates it to the ESAP series |
| EsgRiskProject.WatchlistCount | esg_risk_project.py:260 | the number of watchlisted rows: at most the number of clients, and 0 exactly when no client is watchlisted |
| EsgRiskProject.WatchlistWithinHighRisk | esg_risk_project.py:103-109 | every watchlisted client is in `high_risk_only`; the watchlist count is at most the number of high-risk clients, which is at most the number of clients |
| EsgRiskProject.WatchlistSplit | esg_risk_project.py:259 | the watchlist exposure is the score-3 exposure of Delayed plus that of Not Started |
| EsgRiskProject.EsapSummary | esg_risk_project.py:128-129 | every entry of the grouped series belongs to a status some score-3 client has and holds that status's score-3 exposure; no status appears twice; `EsapSummaryLookup` states that every such status has an entry |
| EsgRiskProject.EsapSummaryLookup | esg_risk_project.py:128-129 | the grouped series has an entry for a status exactly when some score-3 client has it, and the entry is those clients' exposure |
| EsgRiskProject.EsapSummaryTotal | esg_risk_project.py:128-129 | summed over its statuses, the series (before and after the reindex) is the total exposure of `high_risk_only` |
| EsgRiskProject.Reindex | esg_risk_project.py:136-138 | the reindexed series has one entry per label of the order, in that order, with the old value or NaN |
| EsgRiskProject.Lookup | esg_risk_project.py:136-138 | looking a label up in a series finds nothing exactly when no entry carries the label, and otherwise a value stored under it |
| EsgRiskProject.ReindexedSummary | esg_risk_project.py:136-138 | the reindexed series has four entries, Closed, Delayed, In Progress, Not Started, in that order; `ReindexedSummaryShape` gives their values |
| EsgRiskProject.ReindexedSummaryShape | esg_risk_project.py:136-138 | after the reindex there are exactly four entries, Closed, Delayed, In Progress, Not Started; a status no score-3 client has is present with NaN |
| EsgRiskProject.Get | esg_risk_project.py:173 | `Series.get(k, default)` returns the default only when no entry carries label k; otherwise it returns a value stored under k, NaN included |
| EsgRiskProject.FillNa | esg_risk_project.py:173 | `fillna` keeps every label and every number, replaces each NaN by the fill value, and leaves no NaN |
| EsgRiskProject.Add | esg_risk_project.py:173 | float addition is a number exactly when both operands are, and then it is their sum; NaN absorbs the other operand |
| EsgRiskProject.StalledTotal | esg_risk_project.py:173 | the Delayed cell plus the Not Started cell: a number whenever the series holds no NaN, NaN whenever either cell read is NaN |
| EsgRiskProject.FailedComplianceAsWritten | esg_risk_project.py:136-173 | as written, failed compliance is NaN exactly when Delayed or Not Started has no score-3 client, and otherwise it equals the watchlist exposure |
| EsgRiskProject.GetReindexed | esg_risk_project.py:173 | `.get(s, 0)` on the reindexed series is NaN exactly when no score-3 client has status s, never the default 0 |
| EsgRiskProject.GetFilled | esg_risk_project.py:173 | after `fillna(0)`, `.get(s, 0)` is the score-3 exposure of status s |
| EsgRiskProject.FailedCompliance | esg_risk_project.py:173 | failed compliance, with missing statuses counted as 0, equals the watchlist exposure |
| EsgRiskProject.RiskSummaryOrderIndependent | esg_risk_project.py:128-138 | reordering the clients changes neither ESAP series, nor the watchlist exposure, nor the watchlist count |
| EsgRiskProject.ScoredTape.AddScoreColumns | esg_risk_project.py:96-109 | afterwards every row's E score, S score, maximum score and watchlist cell follow the scoring rules |
| EsgRiskProject.ScoredTape.WatchlistTotals | esg_risk_project.py:259-260 | the exposure and the number of rows selected by the watchlist column are the watchlist exposure and count |
| RiskComplianceFinding.FailedComplianceNaNExample | esg_risk_project.py:173 | one High client whose plan is Not Started: watchlist exposure 100 000, written failed compliance NaN, intended 100 000 |
| GroupBy.Group | esg_risk_project.py:128 | a boolean-mask selection keeps exactly the rows whose key matches, and no more rows than there are |
| GroupBy.PresentKeys | esg_analysis.py:74-76 | `groupby` emits exactly the listed keys that occur, each once when the listing is distinct |
| GroupBy.SortDescending | esg_analysis.py:70 | sorting descending yields a non-increasing reordering of the rows |
| EsgAnalysis.TotalScore | esg_analysis.py:50-51 | the total lies in 2..6, is 2 only for Low/Low and is 6 only for High/High |
| EsgAnalysis.HighRiskFlag | esg_analysis.py:53-54 | the flag is set exactly for High/Medium, Medium/High and High/High |
| EsgAnalysis.FlagBoundary | esg_analysis.py:53-54 | Medium/Medium, High/Low and Low/High total 4 and are not flagged |
| EsgAnalysis.TotalVal | esg_analysis.py:108 | `total_val` is at least every client's loan; `PortfolioSummaryTotals` and `GreenFinanceTotals` show each table adds up to it |
| EsgAnalysis.HighRiskCount | esg_analysis.py:109 | `high_risk_count` is at most the number of clients, and 0 exactly when no client is flagged |
| EsgAnalysis.FlagCountSum | esg_analysis.py:109 | counting flags row by row gives `high_risk_count`, which is at most the number of clients |
| EsgAnalysis.SectorRowOf | esg_analysis.py:62-68 | a sector's score sum lies between 2 and 6 times its client count; its high-risk clients are at most its clients; it has clients exactly when the sector occurs |
| EsgAnalysis.AvgEsgRisk | esg_analysis.py:66 | the mean score of a sector with clients lies in 2..6 |
| EsgAnalysis.PortfolioSummary | esg_analysis.py:62-71 | the sector table is ordered by loan total, largest first, and is a reordering of the grouped rows |
| EsgAnalysis.GroupBySector | esg_analysis.py:62-69 | every grouped row has clients and holds its own sector's aggregates |
| EsgAnalysis.GroupBySectorRowsCover | esg_analysis.py:62-69 | every sector that occurs has a grouped row |
| EsgAnalysis.GroupBySectorRowsDistinct | esg_analysis.py:62-69 | no grouped row repeats |
| EsgAnalysis.PortfolioSummaryRows | esg_analysis.py:62-71 | the sorted table has one row per sector present: each client's sector has a row, each row has clients and its own sector's aggregates, no row repeats, and loan totals are non-increasing |
| EsgAnalysis.PortfolioSummaryTotals | esg_analysis.py:62-71 | over the table, loan totals add up to `total_val`, high-risk counts to `high_risk_count`, and client counts to the number of clients |
| EsgAnalysis.EsapStatus | esg_analysis.py:74-78 | every count is positive and is the number of clients with that status; no status appears twice |
| EsgAnalysis.EsapStatusCover | esg_analysis.py:74-78 | every status that occurs has a row |
| EsgAnalysis.EsapStatusTotal | esg_analysis.py:74-78 | the counts add up to the number of clients |
| EsgAnalysis.GreenFinance | esg_analysis.py:81-88 | every row has clients and holds its own tag's client count and loan book; no tag appears twice |
| EsgAnalysis.GreenBook | esg_analysis.py:110 | `green_book` is 0 when no row carries the "Yes" tag, and otherwise the loan book of a "Yes" row |
| EsgAnalysis.GreenFinanceTotals | esg_analysis.py:81-88 | over the green-finance table, client counts add up to the number of clients and loan books to `total_val` |
| EsgAnalysis.GreenBookIsGreenLoans | esg_analysis.py:110 | `green_book` is the loan book of the green-tagged clients, and 0 when no client is tagged |
| EsgAnalysis.AnalysisOrderIndependent | esg_analysis.py:62-88 | reordering the clients changes none of the three tables, nor `total_val`, nor `high_risk_count` |
| EsgAnalysis.AnalysisFrame.AddScoreColumns | esg_analysis.py:47-54 | afterwards every row's E score, S score, total and flag cells follow the scoring rules |
| EsgAnalysis.AnalysisFrame.ReportTotals | esg_analysis.py:108-110 | the totals are `total_val`, the number of flagged rows of the flag column, and the green loan book |
| ScoringComparison.AdditiveFlagWithinMaxHigh | esg_analysis.py:53-54 | every additively flagged client has maximum score 3; a High/Low client has maximum score 3 but is not flagged |
| ScoringComparison.ThreeRecordScenario | esg_analysis.py:50-54 | for High/Low Not Started, Medium/Medium Closed and Low/Low Delayed: totals 4, 4, 2 and none flagged; maximum scores 3, 2, 1, and only the first is watchlisted |

## Left out

- Synthetic data generation (`generate_portfolio` in esg_risk_project.py:25-85 and the data dictionary in esg_analysis.py:12-39) draws random samples. The client rows are an input sequence instead.
- The transition-risk overlay (esg_risk_project.py:182-253) is floating-point decay plus Gaussian noise and feeds a chart only.
- Plotting is output only: charts, the heatmap pivot and the `billions` formatter.
- CSV export and its error handling (esg_analysis.py:94-99) are file I/O.
- Console printing is output only: `green_ratio`, the high-risk percentage and the formatting of figures.
- The `/1e6` scaling at esg_risk_project.py:129 and :259 is not modelled: the ESAP series and the watchlist exposure are kept in whole dollars. The source divides before it adds, so its `failed_compliance` and watchlist exposure agree only up to float rounding (Delayed 100 000 and Not Started 200 000 give 0.1 + 0.2 = 0.30000000000000004 against 300000 / 1e6 = 0.3).
- EsgRiskProject.FailedCompliance: its equality with the watchlist exposure holds over exact whole-dollar sums; the source's float values meet it only up to rounding, as the previous line shows.
- `Country` feeds only a chart (esg_analysis.py:149) and the CSV export (esg_analysis.py:95). `HSE_Compliance` feeds only the CSV export. `Client_ID` feeds only the row count (esg_analysis.py:84) and the CSV export.
- EsgRiskProject.Lookup, EsgRiskProject.Reindex and EsgRiskProject.Get assume a unique index: on a repeated label they take the first entry, where pandas' `reindex` raises ValueError and `.get` returns a sub-Series. They are applied only to `EsapSummary`, whose statuses are proved distinct.
- Float rounding is not modelled. Sums are exact integers, and `Avg_ESG_Risk` is the exact quotient of a score sum by a client count.
- EsgAnalysis.PortfolioSummary: does not fix the order of sectors with equal loan totals, because the default pandas sort is not stable.
- GroupBy.SortDescending: does not fix the order of rows with equal keys, for the same reason.
- Labels outside the rating map are modelled only in `Portfolio.RiskMap` (no score, pandas' NaN). Client ratings are an enum, so every stored rating has a score.
- Integer width: pandas sums in 64 bits, and the model's sums are unbounded. The generated portfolios stay far below 2^63.

## Findings

| source | as written | input that shows it | evidently intended | confidence | as-written member | corrected member |
|---|---|---|---|---|---|---|
| esg_risk_project.py:173 | `esap_summary.get('Delayed', 0) + esap_summary.get('Not Started', 0)` runs after the reindex at lines 136-138. A status with no score-3 client is then present with NaN, so `.get` returns NaN rather than 0, and the sum is NaN | one Oil & Gas client rated High/Low with plan Not Started and exposure 100 000: its watchlist exposure is 100 000, but `failed_compliance` is NaN because no score-3 client is Delayed | a missing status counts as 0 (`fillna(0)` before `.get`), which makes `failed_compliance` equal the watchlist exposure over exact sums (the source's `/1e6` floats agree only up to rounding) | high, not executed | EsgRiskProject.FailedComplianceAsWritten | EsgRiskProject.FailedCompliance |
