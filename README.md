# SEO anomaly detector — a Dafny model

The detector reads three exports that describe a website's pages: a crawl
(Screaming Frog or Lumar), Google Analytics 4, and Google Search Console. It
renames each export's URL column to `URL` and left-joins the crawl with the
analytics frame and then with the search-console frame. It then runs a fixed
battery of nine checks on every joined row. Each row with at least one
triggered check produces one Finding: its URL, the triggered labels joined by
`", "`, and a Severity equal to the number of labels. Findings keep the crawl's
row order.

Two scripts implement this. The batch script's `detect_anomalies` runs all
nine checks. The interactive dashboard runs the same join and the same first
eight checks. Its ninth check, the OpenAI EEAT score, runs only when the joined
frame has an `OpenAI: 1` column, and it skips a cell that is not an `int` or a
`float`.

The project is organised as follows:

- `values.dfy` (module `Values`): cells (`VInt`, `VReal`, `VStr`, `VNull`) and
  rows. It defines `row.get`, `pd.notna`, Python's `==` and `in`, and how
  pandas matches merge keys. A NaN cell and the `None` of a missing column are
  both `VNull`.
- `loader.dfy` (module `Loader`): the shared rename and the two left merges.
  It also defines the errors the join can raise, and lemmas saying which crawl
  and which analytics or search-console cell each joined cell comes from.
- `rules.dfy` (module `Rules`): the reference definition. The battery is a list
  of declarative rules (`OneOf`, `Threshold`) evaluated by one generic
  function, with lemmas about each check. It also states the battery as the
  source's sequence of `if …: issues.append(…)` steps (`AppendIf`).
- `findings.dfy` (module `Findings`): the Finding record, the `", "` join and
  split, and the report as the subsequence of the rows that have a label.
- `autoload.dfy` (module `Autoload`): `detect_anomalies` as imperative code. A
  loop over the joined rows with a per-row check method is proved equal to the
  reference report.
- `dashboard.dfy` (module `Dashboard`): the dashboard script in the same form.
  It includes the column-dependent ninth check, and a proof that on
  well-formed frames the dashboard reports exactly what the batch script
  reports.
- `aswritten.dfy` (module `AsWritten`): the checks as Python runs them
  (for the dashboard, with line 61's block as intended), where a text cell in a numeric comparison raises `TypeError`. See
  "## Findings".

The model has no I/O. The three frames are parameters (`Table` values), and
the report is returned as a `seq<Finding>`.

Non-numeric cells: in the model, a text cell in a numeric column skips that
check. This is the behaviour the report evidently intends, and it is what the
dashboard's guarded check does. The code as written raises `TypeError` instead
(see "## Findings").

The code also accepts a crawl frame that already has a `URL` column and no
`Address` column: the rename does nothing and the merge on `URL` succeeds. The
model follows the code (`Loader.Normalize`).

## Model

| member | source | states |
|---|---|---|
| Values.Get | seo_anomaly_detector_autoload.py:26 | `row.get(col)`: the cell, or a missing value when the row has no such column |
| Values.NotNa | seo_anomaly_detector_autoload.py:34 | `pd.notna`: the cell is not missing |
| Values.IsNumber | seo_anomaly_dashboard_final.py:61 | `isinstance(val, (int, float))` on a present cell |
| Values.PyEq | seo_anomaly_detector_autoload.py:26-31 | Python's `==` on cells: an int equals a float of the same value, text equals only the same text, a missing value equals nothing |
| Values.PyIn | seo_anomaly_detector_autoload.py:26-31 | `v in [...]`: some listed value is `==` to the cell |
| Values.KeyMatch | seo_anomaly_detector_autoload.py:19 | when the merge pairs two keys: they are `==`, or both are missing (pandas matches NaN with NaN) |
| Loader.Count | seo_anomaly_detector_autoload.py:19 | how often a label occurs in a column list; zero exactly when it is absent |
| Loader.RenameLabels | seo_anomaly_detector_autoload.py:14-16 | renaming keeps the number of labels; the renamed label is present iff the old one was, and every other label is kept |
| Loader.Rename | seo_anomaly_detector_autoload.py:14-16 | renaming keeps every row and renames the column list |
| Loader.CrawlKeyed | seo_anomaly_detector_autoload.py:14 | `crawl_df.rename(columns={'Address': 'URL'})`: every crawl row is kept, and the result has `URL` exactly when the crawl frame has `Address` or `URL` |
| Loader.KeyFirstLabels | seo_anomaly_detector_autoload.py:15-16 | the labels after renaming the first column to `URL`: as many as before, `URL` first, and `URL` present exactly when there was a column |
| Loader.KeyFirst | seo_anomaly_detector_autoload.py:15-16 | `df.rename(columns={df.columns[0]: 'URL'})`: every row is kept, and the labels are those of KeyFirstLabels, with `URL` first |
| Loader.RenameKey | seo_anomaly_detector_autoload.py:14-16 | renaming one row: the `from` cell moves to `to` |
| Loader.RenameCells | seo_anomaly_detector_autoload.py:14-16 | after a rename, each row's `to` cell is its old `from` cell, `from` is gone, and every other cell is unchanged; a row without `from` is unchanged |
| Loader.KeyFirstRows | seo_anomaly_detector_autoload.py:15-16 | in the renamed analytics or search-console frame, row i's URL is the original first column's cell and its other cells are the original row's |
| Loader.Without | seo_anomaly_detector_autoload.py:19 | the right frame's columns minus the key: exactly the labels other than `URL` |
| Loader.Lookup | seo_anomaly_detector_autoload.py:19 | the merge's match for a key is the first right row whose URL matches it; when there is none, no right row matches |
| Loader.MergeLeft | seo_anomaly_detector_autoload.py:19 | a left merge has exactly one row per left row |
| Loader.MergeLeftColumns | seo_anomaly_detector_autoload.py:19 | a left merge's columns are the left frame's, in order, followed by the right frame's labels other than `URL`, and no others |
| Loader.Extra | seo_anomaly_detector_autoload.py:19 | the cells a left merge adds to a left row: the matching right row's non-key cells, or NaN in every right column when none matches |
| Loader.NullRow | seo_anomaly_detector_autoload.py:19 | the fill a left merge gives a row with no match: exactly the given columns, each NaN |
| Loader.Joined | seo_anomaly_detector_autoload.py:19 | the cell a right-only column takes for a key: the matching right row's, or NaN |
| Loader.Normalize | seo_anomaly_detector_autoload.py:14-19 | the join fails exactly when the analytics or search-console frame has no columns (IndexError, analytics checked first), the renamed crawl frame has no `URL` (KeyError), or a frame the merges join has `URL` more than once after the rename (ValueError); otherwise it has one row per crawl row |
| Loader.RenameCovered | seo_anomaly_detector_autoload.py:14-16 | renaming keeps every cell inside the frame's columns |
| Loader.MergeCovered | seo_anomaly_detector_autoload.py:19 | a left merge keeps every cell inside the merged frame's columns |
| Loader.JoinedColumns | seo_anomaly_detector_autoload.py:14-19 | the joined frame's columns are `URL`, the crawl columns other than `Address`, and the analytics and search-console columns other than each frame's first |
| Loader.NormalizeCovered | seo_anomaly_detector_autoload.py:14-19 | every joined cell belongs to a column of the joined frame |
| Loader.RenameWellFormed | seo_anomaly_detector_autoload.py:14-16 | renaming to a label that is not already taken keeps a frame rectangular |
| Loader.KeyedWellFormed | seo_anomaly_detector_autoload.py:14-16 | the three renamed frames are rectangular |
| Loader.ExtraWithin | seo_anomaly_detector_autoload.py:19 | the cells a merge adds come from the right frame's non-key columns |
| Loader.MergedLeftCell | seo_anomaly_detector_autoload.py:19 | a left merge keeps each left cell that the right frame does not also have |
| Loader.MergedRightCell | seo_anomaly_detector_autoload.py:19 | a right-only column of a merged row holds the matching right row's cell, or NaN when none matches |
| Loader.JoinFollowsCrawl | seo_anomaly_detector_autoload.py:14-19 | the joined frame has one row per crawl row, in crawl order; joined row i's URL is crawl row i's Address (its URL when there is no Address) |
| Loader.CrawlKeyColumn | seo_anomaly_detector_autoload.py:14 | the crawl column that becomes the key: the renamed crawl frame has `URL` exactly when the crawl frame has this column |
| Loader.JoinKeepsCrawlCells | seo_anomaly_detector_autoload.py:19 | every crawl cell other than the key reaches the joined row unchanged |
| Loader.JoinBringsAnalytics | seo_anomaly_detector_autoload.py:15-19 | an analytics column of joined row i holds the cell of the analytics row whose URL matches the crawl row's, or NaN |
| Loader.JoinBringsSearchConsole | seo_anomaly_detector_autoload.py:16-19 | the same for a search-console column |
| Rules.LabelsUpTo | seo_anomaly_detector_autoload.py:22-57 | the first k checks add at most k labels |
| Rules.Fires | seo_anomaly_detector_autoload.py:26-57 | when a check adds its label: a categorical check when the cell is not `==` to an allowed value, a numeric check when the cell is a present number passing the strict comparison |
| Rules.AppendIf | seo_anomaly_detector_autoload.py:26-57 | one `if …: issues.append(label)` step |
| Rules.Above | seo_anomaly_detector_autoload.py:34 | `pd.notna(v) and v > bound` on a number cell |
| Rules.Below | seo_anomaly_detector_autoload.py:38 | `pd.notna(v) and v < bound` on a number cell |
| Rules.RowIssues | seo_anomaly_detector_autoload.py:22-57 | the batch script's label list for a row: the labels of the nine checks that fire, in order |
| Rules.FiredSpec | seo_anomaly_detector_autoload.py:22-57 | the labels are exactly those of the checks that fire, in strictly increasing check order; every check that fires contributes its label |
| Rules.LabelIff | seo_anomaly_detector_autoload.py:26-57 | with distinct labels, a check's label is listed iff that check fires |
| Rules.LabelsUpToPrefix | seo_anomaly_dashboard_final.py:35-57 | the labels of the first k checks depend only on those k checks |
| Rules.BatteryShape | seo_anomaly_detector_autoload.py:26-57 | there are eight shared checks and nine in all |
| Rules.BatteryDistinct | seo_anomaly_detector_autoload.py:26-57 | the nine labels are pairwise different |
| Rules.SharedNotEeat | seo_anomaly_dashboard_final.py:35-62 | no shared check carries the EEAT label |
| Rules.BatteryCommaFree | seo_anomaly_detector_autoload.py:26-57 | no label contains a comma |
| Rules.CommaFreeLabel | seo_anomaly_detector_autoload.py:26-57 | each of the nine label texts is free of commas |
| Rules.StatusRule | seo_anomaly_detector_autoload.py:26-27 | "Non-200/3xx status" is listed iff the status is not 200, 301 or 302 (an int or an equal float); a missing status is always flagged |
| Rules.IndexabilityRule | seo_anomaly_detector_autoload.py:30-31 | "Not indexable" is listed iff Indexability is neither "Indexable" nor "Canonical"; a missing value is always flagged |
| Rules.NumericRules | seo_anomaly_detector_autoload.py:34-57 | each of the seven numeric labels is listed iff its cell is a present number passing the strict comparison (depth > 4, words < 300, performance < 50, CTR < 0.5, position > 20, engagement < 0.3, EEAT < 0.5) |
| Rules.SharedUnfold | seo_anomaly_detector_autoload.py:26-53 | the shared checks are eight consecutive conditional appends, in order |
| Rules.SharedConditions | seo_anomaly_detector_autoload.py:26-53 | each shared check fires under the source's condition and adds the source's label |
| Rules.SharedAsChecks | seo_anomaly_detector_autoload.py:26-53 | the shared labels are the result of the source's first eight `if`/`append` steps |
| Rules.BatterySplit | seo_anomaly_detector_autoload.py:26-57 | the batch labels are the shared labels, then the EEAT label when the score is a number below 0.5 |
| Rules.BatteryAsChecks | seo_anomaly_detector_autoload.py:26-57 | the batch labels are the result of the source's nine `if`/`append` steps |
| Rules.IndexOfIssue | seo_anomaly_detector_autoload.py:26-57 | finds the position of the first check that carries a label; no earlier check does |
| Rules.IndexOfOwnIssue | seo_anomaly_detector_autoload.py:26-57 | with distinct labels, a check's own label is found at that check's position |
| Rules.RowIssuesOrdered | seo_anomaly_detector_autoload.py:22-57 | a row has at most nine labels, each at most once, in the fixed check order |
| Rules.AbsentRowIssues | seo_anomaly_detector_autoload.py:26-57 | a row with nothing but its URL gets exactly "Non-200/3xx status" and "Not indexable" |
| Rules.BoundariesDoNotFire | seo_anomaly_detector_autoload.py:34-57 | values equal to a threshold (depth 4, 300 words, score 50, CTR 0.5, position 20, engagement 0.3, EEAT 0.5) add no label |
| Findings.SplitFromCommaFree | seo_anomaly_detector_autoload.py:62 | splitting reads comma-free text through as one piece |
| Findings.SplitJoin | seo_anomaly_detector_autoload.py:62 | splitting Issues at ", " gives back the labels when none contains a comma |
| Findings.Join | seo_anomaly_detector_autoload.py:62 | `", ".join(issues)` |
| Findings.Split | seo_anomaly_detector_autoload.py:62 | splitting Issues at `", "`, the reading under which Severity counts the items of Issues |
| Findings.FindingOf | seo_anomaly_detector_autoload.py:59-64 | a row yields at most one Finding, and one exactly when it has a label |
| Findings.ReportUpTo | seo_anomaly_detector_autoload.py:21-64 | the first k rows yield at most k Findings |
| Findings.Report | seo_anomaly_detector_autoload.py:59-64 | the Findings a battery produces over a frame's rows |
| Findings.ReportUpToAgree | seo_anomaly_dashboard_final.py:64-69 | two batteries that label every row alike give the same report |
| Findings.EmittedUpTo | seo_anomaly_detector_autoload.py:21-64 | the positions of the flagged rows lie within the rows read |
| Findings.EmittedPositions | seo_anomaly_detector_autoload.py:21-64 | the flagged positions strictly increase and include every row with a label |
| Findings.EmittedDescribed | seo_anomaly_detector_autoload.py:59-64 | Finding p carries the URL, joined labels and label count of the row at flagged position p |
| Findings.ReportSpec | seo_anomaly_detector_autoload.py:21-64 | the report is the subsequence of the rows that have a label: one Finding per such row, in row order, none for a row without a label |
| Findings.FindingsShape | seo_anomaly_detector_autoload.py:59-64 | every Finding has between 1 and \|rules\| labels, and its Severity is the number of ", "-separated items of Issues |
| Findings.LabelAbsentFromReport | seo_anomaly_detector_autoload.py:59-64 | a label that no row gets appears in none of the Findings' `", "`-separated Issues |
| Findings.LabelsFromRules | seo_anomaly_detector_autoload.py:62 | every listed label is some check's label, so it contains no comma |
| Autoload.CheckRow | seo_anomaly_detector_autoload.py:22-57 | the nine `if`/`append` steps compute exactly the battery's labels for the row |
| Autoload.AutoloadRun | seo_anomaly_detector_autoload.py:10-66 | what `detect_anomalies` returns: the join's error, or the battery's report over the joined rows |
| Autoload.DetectAnomalies | seo_anomaly_detector_autoload.py:10-66 | the loop over the joined rows returns the reference report (one Finding per labelled row, in order), or the join's error |
| Autoload.Rerun | seo_anomaly_detector_autoload.py:10-66 | two runs on the same frames return the same result |
| Autoload.FindingsFollowCrawl | seo_anomaly_detector_autoload.py:19-64 | the Findings' URLs are crawl Addresses of distinct crawl rows, in crawl order, and a crawl row is among them exactly when its joined row has a label |
| Autoload.AutoloadFindingsShape | seo_anomaly_detector_autoload.py:59-64 | when the run succeeds, every Finding has Severity between 1 and 9, equal to the number of ", "-separated items of Issues |
| Autoload.EeatAbsentWithoutColumn | seo_anomaly_detector_autoload.py:14-57 | when no input frame has an `OpenAI: 1` column (and rows hold cells only in their own columns), no joined row and no Finding carries "Low OpenAI EEAT score" |
| Autoload.UnmatchedAnalyticsSkipped | seo_anomaly_detector_autoload.py:19-53 | a crawl URL without an analytics row reads analytics-only cells as missing, so no numeric check on them fires |
| Autoload.UnmatchedSearchConsoleSkipped | seo_anomaly_detector_autoload.py:19-49 | the same for a crawl URL without a search-console row |
| Autoload.HealthyRowNotReported | seo_anomaly_detector_autoload.py:22-64 | status 200, "Indexable", depth 2, 500 words and no other data: no label and no Finding |
| Autoload.BrokenThinRow | seo_anomaly_detector_autoload.py:22-64 | status 404, "Indexable", 100 words: one Finding with "Non-200/3xx status, Thin content" and Severity 2 |
| Autoload.NoindexLowCtrRow | seo_anomaly_detector_autoload.py:22-64 | status 200, "Noindex", CTR 0.2, position 35: one Finding with "Not indexable, Low CTR, Poor average position" and Severity 3 |
| Autoload.AbsentRowFinding | seo_anomaly_detector_autoload.py:22-64 | a row with nothing but its URL gives one Finding with "Non-200/3xx status, Not indexable" and Severity 2 |
| Dashboard.DashboardSplit | seo_anomaly_dashboard_final.py:35-62 | the dashboard's labels are the shared ones, plus the EEAT label only when the column exists and the cell is a number below 0.5 |
| Dashboard.DashboardRules | seo_anomaly_dashboard_final.py:35-62 | the dashboard's checks: the eight shared ones, then the guarded EEAT check only when the joined frame has an `OpenAI: 1` column (line 59) |
| Dashboard.DashboardIssues | seo_anomaly_dashboard_final.py:31-62 | the dashboard's label list for a row of a frame with the given columns |
| Dashboard.DashboardRun | seo_anomaly_dashboard_final.py:21-69 | what the dashboard shows: the join's error, or the dashboard checks' report over the joined rows |
| Dashboard.CheckRow | seo_anomaly_dashboard_final.py:31-62 | the dashboard's checks, including the column test and the `isinstance` guard, compute exactly the dashboard battery's labels |
| Dashboard.AnomalyReport | seo_anomaly_dashboard_final.py:21-69 | the dashboard's loop returns the dashboard battery's report over the joined rows, or the join's error |
| Dashboard.SharedLacksEeat | seo_anomaly_dashboard_final.py:35-57 | the shared checks never list the EEAT label |
| Dashboard.EeatNeedsColumn | seo_anomaly_dashboard_final.py:59 | without an `OpenAI: 1` column, no row gets "Low OpenAI EEAT score" |
| Dashboard.EeatAbsentWithoutColumn | seo_anomaly_dashboard_final.py:21-59 | when no input frame has an `OpenAI: 1` column, the joined frame lacks it too: the dashboard runs only the eight shared checks, and no row and no Finding carries the EEAT label |
| Dashboard.EeatGuarded | seo_anomaly_dashboard_final.py:59-62 | with the column, the EEAT label is listed iff the cell is present, an int or a float, and below 0.5; a text cell is skipped |
| Dashboard.DashboardAgreesWithBatch | seo_anomaly_dashboard_final.py:35-62 | per row, the dashboard lists the batch labels, except that it drops the EEAT label when the frame lacks the column |
| Dashboard.DashboardMatchesBatch | seo_anomaly_dashboard_final.py:21-69 | on frames with no stray cells, the dashboard's result equals the batch script's |
| Dashboard.DashboardFindingsShape | seo_anomaly_dashboard_final.py:64-69 | when the dashboard run succeeds, every Finding has Severity between 1 and 9, equal to the number of ", "-separated items of Issues |
| AsWritten.StrictSpec | seo_anomaly_detector_autoload.py:34-57 | the checks as written succeed iff no unguarded comparison meets a text cell, and then list the reference labels; otherwise they fail at the first such column |
| AsWritten.Raises | seo_anomaly_detector_autoload.py:34-57 | a check raises `TypeError`: an unguarded comparison meets a text cell |
| AsWritten.StrictUpTo | seo_anomaly_detector_autoload.py:22-57 | the checks as Python runs them: the labels, or the column of the first check that raises |
| AsWritten.StrictLabels | seo_anomaly_detector_autoload.py:22-57 | all nine checks as Python runs them: the labels, or the column of the first check that raises (StrictSpec states when each occurs) |
| AsWritten.StrictReportUpTo | seo_anomaly_detector_autoload.py:21-66 | the run as Python executes it: the first row whose checks raise aborts it |
| AsWritten.StrictReportSpec | seo_anomaly_detector_autoload.py:21-64 | the run as written succeeds iff no row raises, and then returns the reference report |
| AsWritten.TextCellCrashes | seo_anomaly_detector_autoload.py:38 | a page with Word Count "unknown" and nothing else wrong gets no label from the reference checks, while the script as written fails at Word Count |
| AsWritten.ScriptsAsWritten | seo_anomaly_dashboard_final.py:35-62 | as written, the dashboard fails only where the batch script fails too; the batch script alone fails only on a text `OpenAI: 1` cell; where both succeed their labels agree, up to the EEAT label the dashboard drops for a frame without the column |

## Left out

- Excel input and CSV output (`pd.read_excel`, `to_csv`, the download
  button) are not modelled. The frames are parameters, and the report is a
  `seq<Finding>`. The report's CSV header is `URL,Issues,Severity`. An empty
  report is an empty `pd.DataFrame`, whose CSV has no header at all; the model
  leaves this case out with the rest of the CSV.
- The Streamlit page (title, uploaders, `st.write`, the `if crawl_file and
  ga_file and gsc_file` gate) is user-interface code and is not modelled.
  `load_datasets` and `main` are file plumbing and are not modelled either.
- Duplicate join keys: pandas repeats a crawl row once per matching analytics
  or search-console row. The model's merge takes the first matching row.
  `Loader.InputsOk` requires keys that are unique after the rename, and the
  lemmas that relate joined cells to their sources assume it. The
  `DetectAnomalies` and `AnomalyReport` methods do not.
- Loader.Normalize: the ValueError `merge` raises when the key columns of two
  frames have incompatible dtypes is not modelled, since cells carry no
  dtype. When a merge has both a missing and a duplicated key label, the
  model reports the crawl side first; pandas' order of these checks is not
  modelled.
- Column collisions: pandas adds `_x`/`_y` suffixes to shared non-key labels.
  `Loader.InputsOk` assumes that the renamed frames share only `URL`, and that
  each frame's labels are distinct. When that fails, the model's merge lets
  the right frame's cell win where pandas would keep both under suffixed
  labels (so `row.get` of the plain label would read None); the
  `DetectAnomalies` and `AnomalyReport` methods do not require `InputsOk`.
- IEEE floating point is not modelled. Numbers are exact `real`s or `int`s,
  and NaN is `VNull`. The checks compare strictly, as the source does.
- numpy dtypes are not modelled. Every `int` or `float` cell passes the
  dashboard's `isinstance(val, (int, float))` test, although a numpy `int64`
  would fail it.
- `seo_anomaly_dashboard_final.py:61` is indented one level deeper than line
  60, so the script does not parse. The model gives the evident intent: lines
  61-62 form the body of line 60's block.
- Dashboard.DashboardMatchesBatch: it is stated for the skipping checks. With
  the checks as written, the two scripts differ exactly as
  AsWritten.ScriptsAsWritten states.

## Findings

| source | as written | input that shows it | evidently intended | confidence | as-written member | corrected member |
|---|---|---|---|---|---|---|
| seo_anomaly_detector_autoload.py:34-57 | `pd.notna(v) and v < 300` compares a text cell with a number, which raises `TypeError` and aborts the whole run. The same holds for all seven numeric checks of the batch script and for the six unguarded numeric checks of the dashboard (seo_anomaly_dashboard_final.py:41-57, with line 61's block as intended). | a crawl row with Status Code 200, Indexability "Indexable", Crawl Depth 2, Word Count "unknown" (not one of the texts `read_excel` reads as NaN, so it holds on the Excel path too) | a cell that is not a number is skipped, as the dashboard's guarded EEAT check does | not executed | AsWritten.TextCellCrashes | Autoload.DetectAnomalies |
