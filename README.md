# Hierarchical company-count report — a Dafny model

This project models the core of a small set of Flask applications. They count a
company table by branch (支店) and by account (アカウント), and they turn the counts
into a five-column spreadsheet:

- level;
- item name (項目名);
- type tag (種別);
- count (件数);
- note (備考).

The report comes in three near-duplicate copies, and each copy is modelled as written:

- `real_data_app.py`:
  - measures every account over a period token;
  - puts the subtotal at level 3;
  - groups branches by id.
- `excel_only_app.py`:
  - apportions one global figure over the accounts;
  - puts the subtotal at level 2;
  - groups branches by name.
- `real_data_implementation_example.py`:
  - folds a per-status query result;
  - groups branches by name.

Around the builders the model covers:

- the period resolver;
- the apportionment rule with its `max(1, …)` variant;
- the two row-style lookups;
- the `%Y-%m-%d` date checks of the endpoints.

Modules:

| module | file | what it holds |
|---|---|---|
| `Wrappers` | wrappers.dfy | `Option`, `Result` |
| `Dates` | dates.dfy | proleptic Gregorian dates and ordinals; `strptime(s, '%Y-%m-%d')` as CPython matches it; `strftime` with `%Y-%m-%d` and with `%Y年%m月%d日` |
| `Rows` | rows.dfy | the row, the tag constants, sums of the count column by tag |
| `Period` | period.dfy | `get_companies_data_by_period`: token → interval, then the guarded counter |
| `Grouping` | grouping.dfy | `get_all_areas_with_accounts` (by id); the `areas = {}` loop (by name, dict insertion order) |
| `RealReport`, `RealStyle`, `RealSummary` | real_report.dfy, real_style.dfy, real_summary.dfy | `real_data_app.py`: the builder; the style branch of `export_mapping`; the loops of `get_filtered_data` and `get_date_range_data` |
| `Apportion`, `ExcelOnlyReport`, `ExcelOnlyStyle` | apportion.dfy, excel_only_report.dfy, excel_only_style.dfy | `excel_only_app.py`: share/remainder plans; the two builders; the date endpoints; the style loop |
| `ExampleReport` | example_report.dfy | `real_data_implementation_example.py` |

How the source's entities appear in the model:

- The database is a parameter:
  - `CountQuery` answers `(new, updated)` for (branch, account, interval), or `None` when the query raises;
  - `StatusQuery` answers the per-status rows of the example;
  - `DayCounts` answers the figures of one day, or `None` when a count query of the summary raises.
- "Today" is a parameter: a day ordinal or a `Date`. The builder of `real_data_app.py` reads the clock again for its notes. That reading enters as its own text (`nowText`), independent of the day the counter measures from.
- The builder of `real_data_app.py` gets `start_date` and `end_date` once. It passes them to the counter and also writes them into its notes. In the model, `Request` holds them twice: as the counter's optional ordinals (`startDate`, `endDate`) and as the note texts (`startText`, `endText`). Nothing ties the two, so the model also admits requests in which they disagree.
- The mapping read (`get_area_account_mapping`, which has no `try`) is `Option<seq<MappingItem>>` in the three endpoints that can observe its failure. `None` stands for the raise: 500 in `get_date_range_data` and `export_excel_by_date`, and the uncaught exception (None) in `generate_real_hierarchical_excel_data`.
- The loops that append to `hierarchical_data`, fill the `areas` dictionary and keep running totals are methods with loop invariants. Each method is proved equal to a function (`Report`, `GroupByName`, `AreaDetailOf` and so on), and the lemmas state the layout and the sums of those functions.
- The `areas` dictionary is a `map<string, AreaGroup>` together with the sequence of its keys in insertion order.

Where the code departs from the behaviour its documentation describes, the model follows the code:

- `real_data_app.py` sums new + update + unassigned into the branch total, but its per-account counter always reports unassigned = 0. The branch-level unassigned figure is never added in the builder. The documented two-account example (10 and 4, then 0 and 0, with 2 unassigned) therefore gives a 支店合計 of 14, not 16 (`RealReport.TwoAccountScenario`).
- A branch with no accounts emits no rows at all in `real_data_app.py`, not a header with a zero total (`RealReport.BranchLayout`).
- The today variant of `excel_only_app.py` is not exact. With 0 < total < n accounts it hands out n + total (`ExcelOnlyReport.TodayHandout`).
- A malformed date is answered with 400 only by `excel_only_app.py`. In `get_date_range_data` of `real_data_app.py` the `strptime` error is caught by the generic handler, so the answer is 500 (`RealSummary.GetDateRangeData`).
- `export_excel_by_date` tests the date only when it is truthy. An empty string is not validated. It reaches the summary, fails to parse there, and the summary falls back to now (`ExcelOnlyReport.ExportTarget`, `ExcelOnlyReport.SummaryByDateFacts`).

## Model

| member | source | states |
|---|---|---|
| Dates.ParseIsoDate | excel_only_app.py:1009 | a parse succeeds only with a valid calendar date, and that date is the one the text spells: the year is the four leading digits, the month is the `%m` field after the first '-', the day is the `%d` field after the second '-', and the day field ends the text |
| Dates.ParseThenFormat | excel_only_app.py:1009 | a ten-character text that parses, and whose day does not start with a space, is exactly the `%Y-%m-%d` form of the date it gives |
| Dates.SpacePaddedDayAccepted | excel_only_app.py:1009 | `%d` also accepts a space before a one-digit day: "2025-01- 5" gives 5 January 2025, whose ISO form is a different text |
| Dates.FormatThenParse | excel_only_app.py:149 | every valid date written as `%Y-%m-%d` parses back to itself |
| Dates.MonthThirteenRejected | excel_only_app.py:1006-1011 | "2025-13-40", "2025-01-32" and "2025-02-29" are rejected |
| Dates.LeapDayAccepted | excel_only_app.py:1009 | "2024-02-29" parses to 29 February 2024 |
| Dates.ShortFieldsAccepted | excel_only_app.py:1009 | "2025-1-5" is accepted (one-digit `%m` and `%d`) and gives 5 January 2025 |
| Dates.FormatJapanese | excel_only_app.py:150 | the `%Y年%m月%d日` text of every valid date has exactly 11 characters |
| Dates.FormatJapaneseInjective | excel_only_app.py:150 | different dates give different `%Y年%m月%d日` texts |
| Period.DaysBefore | real_data_app.py:252 | `today - timedelta(days=k)` is defined exactly when it stays at or after day 1, and is then today - k |
| Period.Lookback | real_data_app.py:248-259 | only today, week, month and year are look-back periods |
| Period.ResolvePeriod | real_data_app.py:248-265 | today, week, month and year end today, start 0/7/30/365 days earlier and start ≤ end; custom with both dates passes them through; anything else is (today, today); it fails exactly when the look-back leaves the calendar |
| Period.PeriodLengths | real_data_app.py:248-265 | today covers 1 day, week 8, month 31, year 366; `all` resolves to today alone |
| Period.CountsByPeriod | real_data_app.py:241-305 | only a period error escapes; unassigned is always 0; a failed query gives new = update = 0 and the error mark; otherwise the counts are the query's over the resolved period |
| Period.CustomNeverRaises | real_data_app.py:260-262 | a custom range with both dates never raises |
| Grouping.AccountsOf | real_data_app.py:217 | the filtered list holds exactly the mapping rows of that branch id, and no more rows than the mapping |
| Grouping.AccountsOfSingle | real_data_app.py:217 | a one-row mapping is kept iff its branch id matches |
| Grouping.AccountsOfAppend | real_data_app.py:217 | the filter distributes over concatenation, so the kept rows stay in mapping order with every duplicate |
| Grouping.AreaEntry | real_data_app.py:214-237 | the entry keeps id and name; `has_hellowork_accounts` iff some row has the id; `has_data` iff it has accounts and a positive company count that did not raise |
| Grouping.AllAreasWithAccounts | real_data_app.py:201-239 | one entry per branch of the branch table, in its order |
| Grouping.GroupStep | excel_only_app.py:288-299 | appending a row either appends its account to the group of that name or adds a new group last; nothing else changes |
| Grouping.GroupNamesFacts | excel_only_app.py:288-299 | group names are distinct, every row's name has a group, every group's name occurs in the mapping |
| Grouping.GroupAccountsFacts | excel_only_app.py:296-299 | each group holds the accounts of all rows with its name, in mapping order |
| Grouping.GroupIdFacts | excel_only_app.py:291-295 | each group keeps the area_id of the first row with its name |
| Grouping.GroupOrderFacts | excel_only_app.py:322 | groups come in the order their names first appear |
| Grouping.GroupCountFacts | excel_only_app.py:303 | the groups hold len(mapping) accounts in all |
| Grouping.MirrorsStepNew | excel_only_app.py:291-295 | inserting a new key keeps the dictionary equal to the grouped list |
| Grouping.MirrorsStepKnown | excel_only_app.py:296-299 | appending to a known key keeps the dictionary equal to the grouped list |
| Grouping.GroupMappingByName | excel_only_app.py:288-299 | the loop that fills the dictionary yields exactly `GroupByName(mapping)` |
| Grouping.AddRow | excel_only_app.py:290-299 | one pass of the loop body, which inserts a new name with no accounts and then appends the row's account, keeps the dictionary and its key order equal to the grouped list |
| Grouping.DictItems | excel_only_app.py:322 | `areas.items()` gives the groups in key insertion order |
| RealReport.DateText | real_data_app.py:318-334 | `date_text`: now's date for today, week, month and year; "start〜end" for custom; '' for any other token |
| RealReport.GenerateHierarchicalExcelData | real_data_app.py:307-475 | the rows appended are exactly `Report(areas)` |
| RealReport.NotesQuoteDateText | real_data_app.py:318-464 | every tagged row of the sheet (新規, 更新, 振り分けなし, 小計, 支店合計) quotes that one `date_text` in its note: now's date for a named period, "start〜end" for custom; no header or separator row quotes a date |
| RealReport.EmitBranch | real_data_app.py:337-473 | one branch's rows are `BranchRows` |
| RealReport.EmitAccounts | real_data_app.py:351-454 | the account rows and the three accumulators; a raising counter adds nothing |
| RealReport.AccountBlockLayout | real_data_app.py:355-454 | an account gives an L2 header and L3 新規, 更新, 振り分けなし (0) and 小計 = new + update, zeros when the counter raised |
| RealReport.AccountsRowsLayout | real_data_app.py:355-454 | k accounts give 5k rows, block j at 5j |
| RealReport.BranchLayout | real_data_app.py:337-473 | no accounts: no rows; k ≥ 1: 5k+3 rows, L1 header, k account blocks, L1 支店合計, separator |
| RealReport.BlockSums | real_data_app.py:375-454 | per block: 新規 and 更新 rows are the counts shown, 振り分けなし is 0, 小計 is their sum |
| RealReport.AccountsRowsSums | real_data_app.py:375-419 | over a branch, the tagged rows add up to the accumulators; the 小計 rows add up to new + update |
| RealReport.BranchSums | real_data_app.py:417-464 | 支店合計 = sum of 小計 = sum of 新規 + 更新 + 振り分けなし, which is the accumulators' new + update + unassigned |
| RealReport.BranchTotalRowHoldsSum | real_data_app.py:457-464 | the 支店合計 row at 5k+1 holds the sum of the branch's 小計 rows |
| RealReport.ReportSums | real_data_app.py:337-473 | over the sheet, 支店合計 rows add up to 小計 rows, which add up to 新規 + 更新; 振り分けなし adds to 0 |
| RealReport.ScenarioTotals | real_data_app.py:417-419 | with counts (10, 4) and (0, 0) the accumulators are (10, 4, 0) |
| RealReport.TwoAccountScenario | real_data_app.py:337-473 | that branch has 13 rows, subtotals 14 and 0, and a 支店合計 of 14 |
| RealStyle.RowStyle | real_data_app.py:1283-1310 | level 1 is branch total iff the name contains 合計, else header; level 2 is account; level 3 is by tag 小計/新規/更新/other; anything else is separator |
| RealStyle.ShownCount | real_data_app.py:1325-1327 | the count is blanked only on a level-1 or level-2 row whose name lacks 合計 |
| RealStyle.StyleRows | real_data_app.py:1277-1327 | one style and one shown count per row, in order |
| RealStyle.TotalRowNamesTotal | real_data_app.py:460 | every 支店合計 row's name contains 合計 |
| RealStyle.HeaderNameContains | real_data_app.py:1284 | a header row looks like a total row exactly when the branch name contains 合計 |
| RealStyle.AccountsRowsCountsKept | real_data_app.py:1325-1327 | no count of an account block is blanked |
| RealStyle.BranchCountsKept | real_data_app.py:1325-1327 | no number of the builder's output is blanked (headers are already '') |
| RealStyle.ReportCountsKept | real_data_app.py:1325-1327 | the same over the whole sheet |
| RealStyle.BlockStyles | real_data_app.py:1292-1307 | an account block is styled account, 新規, 更新, plain leaf, 小計 |
| RealStyle.BranchEndStyles | real_data_app.py:1283-1310 | the branch header gets the total style iff its name contains 合計; 支店合計 gets the total style; the separator gets the separator style |
| RealStyle.BranchBlockStyles | real_data_app.py:1292-1307 | every account block of a branch gets those five styles at its positions |
| RealStyle.BranchStyles | real_data_app.py:1283-1310 | the styles down a whole branch, position by position |
| RealSummary.PeriodText | real_data_app.py:1387-1396 | week, month and all get their own text; every other token, year included, reads 今日 |
| RealSummary.YearLabelledToday | real_data_app.py:1387-1396 | `year` is labelled 今日 although it measures 366 days against today's 1 |
| RealSummary.AccountDetailFacts | real_data_app.py:1447-1484 | an account's total is new + update and its unassigned is 0; the counts are the query's over the token's period, or 0 |
| RealSummary.AreaDetailFacts | real_data_app.py:1445-1503 | a branch lists its first three accounts in order; its new and update are their sums; its total adds its own unassigned figure |
| RealSummary.AreaTotalsAdd | real_data_app.py:1489-1513 | the branch totals add up to total_new + total_update + total_unassigned |
| RealSummary.GetFilteredData | real_data_app.py:1398-1516 | at most the first 5 branches; the totals are the sums of the branch figures; total_companies is their sum and the sum of the branch totals; a failed branch read gives the empty 今日 answer |
| RealSummary.FilteredAreas | real_data_app.py:1407-1503 | the branch loop yields each branch's detail and the running totals |
| RealSummary.FilteredAreaDetail | real_data_app.py:1408-1503 | one branch's detail is `AreaDetailOf` |
| RealSummary.RangeAccountFacts | real_data_app.py:1592-1608 | an account's figures are the query's over exactly the given range, or 0; unassigned 0; total new + update; today plays no part |
| RealSummary.RangeAreaFacts | real_data_app.py:1571-1620 | a branch lists all its accounts in order; its total is the account totals plus its own unassigned figure |
| RealSummary.RangeAreasAdd | real_data_app.py:1611-1630 | the branch totals add up to total_all |
| RealSummary.GetDateRangeData | real_data_app.py:1524-1635 | a missing or empty date gives 400; an unparseable date, or a mapping read that raises, gives 500; otherwise period_text is the ISO form of the two parsed dates, the raw texts are echoed, and there is one entry per name group with totals that add up |
| RealSummary.RangePeriodText | real_data_app.py:1545 | period_text is 23 characters, " 〜 " between two ISO dates, and each half parses back to its date |
| RealSummary.RangeTotals | real_data_app.py:1545-1620 | the branch loop yields each branch's detail and running totals whose sum is total_all |
| RealSummary.RangeAreaDetail | real_data_app.py:1564-1620 | one branch's detail is `RangeAreaOf` |
| Apportion.ByDatePlan | excel_only_app.py:302-317 | with accounts and a positive figure: each·n + rem = total and rem < n, for new and for updated; otherwise all zeros |
| Apportion.ByDateExact | excel_only_app.py:308-312 | with n > 0 the plan splits both figures exactly |
| Apportion.ClampedEach | excel_only_app.py:434 | `max(1, total // n) if total > 0 else 0` is at least 1 iff the total is positive |
| Apportion.ClampedRem | excel_only_app.py:436 | the remainder is below n and not above the total |
| Apportion.PlanToday | excel_only_app.py:431-457 | month figures if either is positive, else week figures; all zeros and the summary date without accounts |
| Apportion.ClampedHandout | excel_only_app.py:434-446 | each·n + rem is 0 for 0, the total for total ≥ n, and n + total > total for 0 < total < n |
| ExcelOnlyReport.ResolveTarget | excel_only_app.py:106-109 | no date means now; a text is parsed; a date is taken as given |
| ExcelOnlyReport.SummaryByDateFacts | excel_only_app.py:103-174 | an unparseable text, the first or last representable day, or a count query that raises falls back to now with zero figures; otherwise the figures of that day; an empty text falls back |
| ExcelOnlyReport.ByDateConfig | excel_only_app.py:302-317 | the by-date sheet uses `ByDatePlan` of the day's figures over len(mapping) |
| ExcelOnlyReport.TodayConfig | excel_only_app.py:431-457 | the today sheet uses `PlanToday` and its data period |
| ExcelOnlyReport.BuildRows | excel_only_app.py:322-395 | the rows appended are exactly `Report(groups)` |
| ExcelOnlyReport.EmitAccounts | excel_only_app.py:334-375 | the account rows and `area_total`; the global account index advances by the branch's account count |
| ExcelOnlyReport.GenerateByDate | excel_only_app.py:275-395 | the by-date sheet is `Report` over the name groups with the by-date plan; no mapping rows give an empty sheet; otherwise its 新規 rows add up to target_new and its 更新 rows to target_updated |
| ExcelOnlyReport.GenerateToday | excel_only_app.py:397-535 | the today sheet is `Report` over the name groups with the today plan; no mapping rows give an empty sheet; a month (or week) figure strictly between 0 and n accounts puts n + figure into the 新規 rows |
| ExcelOnlyReport.AccountsRowsLayout | excel_only_app.py:334-375 | k accounts give 4k rows, block j at 4j |
| ExcelOnlyReport.BranchLayout | excel_only_app.py:322-393 | 4k+3 rows: L1 header; per account L2 header, L3 新規, L3 更新, L2 小計; L1 支店合計; separator |
| ExcelOnlyReport.BlockSums | excel_only_app.py:345-375 | an account's 新規 and 更新 are its shares; its 小計 is their sum |
| ExcelOnlyReport.AccountsRowsShares | excel_only_app.py:345-347 | the 新規 rows add up to each·k plus rem when the run starts at global index 0; the same for 更新 |
| ExcelOnlyReport.AccountsRowsSums | excel_only_app.py:366-375 | the 小計 rows add up to 新規 + 更新 |
| ExcelOnlyReport.AreaTotalSums | excel_only_app.py:366-367 | `area_total` is the sum of the 小計 rows |
| ExcelOnlyReport.BranchSums | excel_only_app.py:322-393 | per branch: the shares, 支店合計 = sum of 小計 = 新規 + 更新, and the 支店合計 row at 4k+1 holds it |
| ExcelOnlyReport.ReportShares | excel_only_app.py:319-347 | over the sheet, 新規 adds up to each·N + rem with N = number of accounts, because only global index 0 gets the remainder |
| ExcelOnlyReport.ReportSums | excel_only_app.py:322-393 | over the sheet, 支店合計 adds up to 小計, which adds up to 新規 + 更新 |
| ExcelOnlyReport.ByDateSharesSum | excel_only_app.py:308-312 | with n > 0 the by-date shares add back to both targets |
| ExcelOnlyReport.ByDateHandsOutTarget | excel_only_app.py:302-393 | a non-empty mapping: 新規 rows add up to target_new, 更新 to target_updated, 支店合計 to both |
| ExcelOnlyReport.TodayHandout | excel_only_app.py:431-535 | today sheet: 0 for a 0 figure, the figure when it is ≥ n, and n + figure (an over-count) when 0 < figure < n |
| ExcelOnlyReport.ExportTarget | excel_only_app.py:1003-1011 | 400 iff a non-empty date fails `%Y-%m-%d`; no date passes as None; an empty text passes as text |
| ExcelOnlyReport.ExportExcelByDate | excel_only_app.py:999-1014 | 400 in exactly those cases; otherwise 500 exactly when the builder's mapping read raises (caught at 1137-1138); otherwise the by-date sheet of that summary |
| ExcelOnlyReport.DateSummaryEndpoint | excel_only_app.py:1270-1288 | 400 iff the path text does not parse, otherwise the summary of that date |
| ExcelOnlyStyle.RowStyle | excel_only_app.py:1069-1088 | level 1 is total iff tag 支店合計, else header; level 2 is subtotal iff tag 小計, else account; level 3 is leaf; else separator |
| ExcelOnlyStyle.StyleRows | excel_only_app.py:1064-1101 | one style per row, and right alignment iff the count is not '' |
| ExcelOnlyStyle.BranchStyles | excel_only_app.py:1064-1101 | down a branch: header, then account/leaf/leaf/小計 per account, then total and separator; exactly 新規, 更新, 小計 and 支店合計 are right-aligned |
| ExampleReport.FoldStatusCounts | real_data_implementation_example.py:27-30 | keys are exactly new and updated; each holds the last matching row's count, or 0 |
| ExampleReport.LastCountAbsent | real_data_implementation_example.py:27-30 | a status absent from the result keeps 0 |
| ExampleReport.LastCountFound | real_data_implementation_example.py:27-30 | a status present once gets that row's count |
| ExampleReport.DefaultRange | real_data_implementation_example.py:41-44 | no range: the first of the current month to today, start ≤ end |
| ExampleReport.ResolveRange | real_data_implementation_example.py:40-47 | a given range is used as is; otherwise the default |
| ExampleReport.LabelOf | real_data_implementation_example.py:40-51 | a single date iff a range is given with equal ends; otherwise start - end of the range used |
| ExampleReport.DefaultLabelOnFirstDay | real_data_implementation_example.py:41-45 | on the first of a month the default label still reads "d - d" |
| ExampleReport.LabelTextInjective | real_data_implementation_example.py:45-51 | different labels give different texts |
| ExampleReport.GenerateRealHierarchicalExcelData | real_data_implementation_example.py:34-141 | None (the uncaught exception) when the mapping read at line 37 raises or any status query raises; otherwise the sheet over the name groups |
| ExampleReport.BuildRows | real_data_implementation_example.py:68-140 | the same for the branch loop |
| ExampleReport.EmitAccounts | real_data_implementation_example.py:79-123 | the account rows and `area_total`, or None at the first query that raises |
| ExampleReport.AccountsRowsLayout | real_data_implementation_example.py:79-123 | k accounts give 4k rows, block j at 4j |
| ExampleReport.BranchLayout | real_data_implementation_example.py:68-140 | 4k+3 rows: L1 header; per account L2, L3 新規, L3 更新, L2 小計; L1 支店合計; separator |
| ExampleReport.BlockSums | real_data_implementation_example.py:87-123 | an account's 新規 and 更新 are the folded figures and 小計 is their sum |
| ExampleReport.AccountsRowsSums | real_data_implementation_example.py:114-123 | the 小計 rows add up to 新規 + 更新 and to `area_total` |
| ExampleReport.BranchSums | real_data_implementation_example.py:114-131 | 支店合計 = sum of 小計 = 新規 + 更新, held by the row at 4k+1 |
| ExampleReport.ReportSums | real_data_implementation_example.py:68-140 | over the sheet, 支店合計 adds up to 小計, which adds up to 新規 + 更新 |

## Left out

- Database access is not modelled. SQLAlchemy queries, ORM classes and connections are parameters. The count queries answer counts, or `None` for a raised query. The mapping read is fallible only in the three endpoints named above; everywhere else it is a plain sequence.
- The unassigned-count queries of `get_filtered_data` and `get_date_range_data` are left out. Their filter construction is database code, so each branch's unassigned figure is an input.
- Clocks are not modelled. `datetime.now()` and `date.today()` are parameters. `real_data_implementation_example.py` reads the clock twice (once in the builder and once per account); the model uses one "today" for both.
- Flask routes, `jsonify`, `send_file`, the HTML templates and pandas are left out, and so is writing the workbook. The endpoints are modelled only as their status decision and the rows they would write.
- openpyxl is reduced to the style class of each row. Fonts, fills, borders, column widths and freeze panes are not modelled, and neither is alignment in `real_data_app.py`.
- The notes' wording is not modelled. A note is a tag saying what it refers to (branch id, account id, period text, error mark).
- `get_companies_summary_by_date` reports neighbouring days (`prev_*`, `next_*`) and `total_companies`. These are not modelled; only their overflow at the ends of the calendar is kept, as the fallback it causes.
- `get_companies_summary` (the month and week figures of the today sheet) is an input.
- Non-string JSON values for the date parameters are not modelled. The model takes a text or nothing.
- Dates.ParseIsoDate: only ASCII digits are accepted. CPython's `\d` also matches other Unicode digits.
- Dates.FormatIsoDate: always writes four year digits. CPython's `%Y` is platform-dependent for years below 1000.
- Dates.FormatJapanese: always writes four year digits, while `%Y` is platform-dependent below year 1000. The same holds for `ExampleReport.LabelText` and every note date built on these two functions.
- RealSummary.GetFilteredData: the answer to a failed branch read (real_data_app.py:1375-1384) has no `total_unassigned` key; the model's record always has that field and puts 0 in it.
- RealReport.GenerateHierarchicalExcelData: takes the branch list of `get_all_areas_with_accounts` as already read. A raise in that read (the mapping and branch queries at real_data_app.py:204-207) leaves the builder uncaught, and the model does not represent it.
- The database's `func.date(...).between` and `created_at.between` on datetimes are an interval of day ordinals here. The query function decides what falls inside.
- Apportion.Share has no contract of its own. What it hands out is stated over whole runs by `ExcelOnlyReport.AccountsRowsShares` and `ExcelOnlyReport.ReportShares`.
- `hellowork_app.py`, `app.py`, `required_sql_queries.py` and the diagnostic and test scripts are not part of this model.
