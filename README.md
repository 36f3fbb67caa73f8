# AI project dashboard: analytics and reports, modelled in Dafny

This project models the computing core of the AI project dashboard, a
portfolio tracker for AI initiatives. The core has three parts. The domain
records are projects, KPIs, budget entries and risk entries, together with
the fields derived from them. The analytics are ROI, the portfolio health
score, KPI trend analysis and the executive summary text. The report
generator produces the portfolio overview, budget variance, risk register
and executive summary reports in Markdown, plus an HTML wrapper.

The modules follow the source:

- `Models` holds the records. `Numeric` holds Python's `round`. `Text`
  holds `str()` of integers, `str.join` and `str.replace`. `Seqs` holds
  `sum`, `mean`, comprehensions, the stable `sorted`, dict grouping and
  slicing.
- The analytics live in `Roi`, `Health`, `Trends` and `Summary`.
- The reports live in `ReportCommon`, `OverviewReport`, `BudgetReport`,
  `RiskReport`, `ExecutiveReport` and `Html`.

The loops that build the reports and the groupings are methods with
loops. Each such method is proved equal to a specification function, and
the properties are proved about that function. The list-building in the
KPI and risk summary sections, like the rest of the pure logic, is written
as functions, with lemmas about them.

Some behaviours of the code are modelled as written, and the lemmas make
them visible:

- The overview lists projects by the *string* value of their priority,
  which puts "low" before "medium" (`OverviewReport.PriorityRankIsStringOrder`).
- The health detail sentences are chosen from the unrounded sub-scores.
- With no data, the overall health score is the mean 66.25, which
  round-half-to-even turns into 66.2 (`Health.EmptyPortfolioHealth`).
- A KPI with a zero target has rate 0 but is on target whenever its value
  is not negative (`Models.ZeroTargetKpi`).

## Model

| member | source | states |
|---|---|---|
| Models.ValidateDates | src/models.py:86-91 | a project is rejected, with the validator's message, exactly when its target date precedes its start date; otherwise it is returned unchanged |
| Models.IsActive | src/models.py:93-101 | a project is active exactly when its status is neither planning nor retired |
| Models.DaysUntilTarget | src/models.py:103-109 | absent exactly when there is no target date; for an accepted project never fewer than the days to the start date; 0 on the target day |
| Models.AchievementRate | src/models.py:127-133 | 0 for a zero target, otherwise within 0.005 of current / target * 100 |
| Models.IsOnTarget | src/models.py:135-139 | the value meets or exceeds the target; its partners are Models.ZeroTargetKpi and Models.OnTargetReachesFullRate |
| Models.ZeroTargetKpi | src/models.py:127-139 | with a zero target the rate is 0 and the KPI is on target exactly when its value is not negative |
| Models.OnTargetReachesFullRate | src/models.py:127-139 | with a positive target, a KPI on target has a rate of at least 100 |
| Models.AchievementRateNonNegative | src/models.py:127-133 | a non-negative value over a positive target gives a non-negative rate |
| Models.IsOverBudget | src/models.py:169-173 | actual spend exceeds the plan; Models.Variance and Models.VariancePercentage state their sign under it |
| Models.Variance | src/models.py:155-159 | within 0.005 of actual - planned; not negative when over budget, not positive when under, 0 on plan |
| Models.VariancePercentage | src/models.py:161-167 | 0 for a zero plan; otherwise within 0.005 of the rounded variance / planned * 100, and with a positive plan its sign follows over/under budget |
| Models.RiskScore | src/models.py:193-197 | probability x impact lies in 1..25 for entries within the field bounds |
| Models.RiskLevel | src/models.py:199-210 | each of the four levels holds exactly on its score band (from 15, 10, 5, below 5) |
| Models.CriticalNeedsBothHigh | src/models.py:188-210 | a valid critical risk has probability and impact both at least 3 |
| Numeric.RoundHalfEven | src/models.py:133 | the integer chosen is within 0.5 of the input and is the input itself for whole numbers |
| Numeric.RoundError | src/models.py:159 | round(x, n) lies within half a unit of the last kept digit of x |
| Numeric.RoundSign | src/models.py:167 | rounding never flips the sign of a number |
| Numeric.RoundTieToEven | src/analytics.py:153-155 | round(66.25, 1) == 66.2: a tie goes to the even digit |
| Text.IntToStringRoundTrip | src/report_generator.py:78-82 | str(i) is an optional "-" followed by digits, and reads back as i: int(str(i)) == i, for negative numbers too |
| Text.NatToStringRoundTrip | src/report_generator.py:205 | int(str(n)) == n |
| Text.NatToStringInjective | src/report_generator.py:205 | different counts print differently |
| Text.JoinSix | src/analytics.py:356 | joining six parts puts the separator between each pair of neighbours |
| Seqs.Filter | src/analytics.py:197 | a list comprehension with a condition keeps only elements of the input that pass, and is no longer than the input |
| Seqs.SumOfAppend | src/analytics.py:211-212 | the sum over a concatenation is the sum of the sums |
| Seqs.MeanAtLeast | src/analytics.py:189 | the mean of values all at least lo is at least lo |
| Seqs.MeanAtMost | src/analytics.py:189 | the mean of values all at most hi is at most hi |
| Seqs.SortBy | src/analytics.py:305 | sorted() returns a permutation of its input |
| Seqs.SortBySorted | src/analytics.py:305 | sorted() returns the elements in non-decreasing key order |
| Seqs.SortByStable | src/analytics.py:305 | sorted() is stable: the elements with any given key keep their input order |
| Seqs.GroupedStep | src/report_generator.py:126-128 | one setdefault(...).append step keeps every bucket equal to the elements with its key, and adds a key exactly when it is new |
| Seqs.DedupFirstAppearance | src/report_generator.py:130 | dict keys come in order of the first appearance of each key |
| Seqs.SumGroupsPartition | src/report_generator.py:130-133 | the per-bucket sums over all keys add up to the total sum |
| Seqs.AppendMapped | src/report_generator.py:62-67 | the loop appends one mapped line per element, in order |
| Seqs.Take | src/analytics.py:316 | s[:stop] is a prefix of s, of length min(stop, len(s)) for a non-negative stop; a negative stop drops the last -stop elements, or all of them when there are fewer |
| Health.StatusPoints | src/analytics.py:182-188 | the points per status lie in 30..100, with 100 only for production and 30 only for retired |
| Health.ScoreStatus | src/analytics.py:173-189 | the status score lies in 30..100, and is 50 without projects |
| Health.AllProductionScoresFull | src/analytics.py:173-189 | a portfolio entirely in production scores 100 |
| Health.ScoreRisks | src/analytics.py:191-203 | the risk score lies in 0..100, and is 80 without risks |
| Health.AllResolvedScores95 | src/analytics.py:197-199 | a risk list whose every entry is resolved scores 95 |
| Health.WorstRisksScoreZero | src/analytics.py:201-203 | the score is 0 when every unresolved risk has score 25 |
| Health.ValidRisksNeedNoClamp | src/analytics.py:201-203 | with valid entries, the clamp has no effect and the score is the remapped mean |
| Health.BudgetScoreFor | src/analytics.py:217-227 | the piecewise budget score lies in 0..100; it is at least 90 exactly when spend is at or under plan, and 90 on plan |
| Health.BudgetScoreMonotone | src/analytics.py:219-227 | overspending more never raises the budget score |
| Health.ScoreBudget | src/analytics.py:205-227 | 75 without entries or with a zero total plan, otherwise the piecewise score of the total variance percentage |
| Health.WithinPlanScoresHigh | src/analytics.py:214-220 | spending no more than a positive total plan scores at least 90 |
| Health.ScoreKpis | src/analytics.py:229-237 | the KPI score is at most 100, 60 without KPIs, and not negative when no rate is |
| Health.AllOnTargetKpisScoreFull | src/analytics.py:229-237 | every KPI at 100 percent or above gives the full KPI score |
| Health.BandOf | src/analytics.py:240-245 | the three bands of the detail sentences: from 80, from 60, below 60 |
| Health.StatusDetail | src/analytics.py:239-245 | the status sentence for a score; Health.StatusDetailIdentifiesBand proves it depends only on the band |
| Health.RiskDetail | src/analytics.py:247-253 | the risk sentence; its partner is Health.RiskDetailIdentifiesBand |
| Health.BudgetDetail | src/analytics.py:255-261 | the budget sentence; its partner is Health.BudgetDetailIdentifiesBand |
| Health.KpiDetail | src/analytics.py:263-269 | the KPI sentence; its partner is Health.KpiDetailIdentifiesBand |
| Health.StatusDetailIdentifiesBand | src/analytics.py:239-245 | two scores get the same status sentence exactly when they are in the same band |
| Health.RiskDetailIdentifiesBand | src/analytics.py:247-253 | the same for the risk sentence |
| Health.BudgetDetailIdentifiesBand | src/analytics.py:255-261 | the same for the budget sentence |
| Health.KpiDetailIdentifiesBand | src/analytics.py:263-269 | the same for the KPI sentence |
| Health.ComputeHealth | src/analytics.py:130-171 | the overall score is within 0.05 of the equal-weight (25% each) combination of the four unrounded sub-scores; each reported sub-score is within 0.05 of its unrounded score and keeps its bounds; the overall score is at most 100; the sentences are those of the unrounded sub-scores |
| Health.EmptyPortfolioHealth | src/analytics.py:148-155 | with no data the sub-scores are 50, 80, 75 and 60, and the overall score is 66.2 |
| Health.AllProductionHealth | src/analytics.py:148-171 | an all-production portfolio has status score 100 and the "strong pipeline" sentence |
| Roi.InvestmentNonNegative | src/analytics.py:62 | entries within the field bounds give a non-negative spend |
| Roi.MonthsActive | src/analytics.py:66 | the months active are max(1, days / 30) |
| Roi.EstimatedReturn | src/analytics.py:64-74 | a positive monthly estimate gives at least that estimate; otherwise the spend scaled by the mean KPI rate, or 0 without KPIs |
| Roi.ComputeRoi | src/analytics.py:44-93 | the reported spend and return are within 0.005 of the unrounded spend and three-way return; with positive spend the ROI is within 0.005 of (return - spend) / spend * 100, and its sign follows gain or loss; without spend it is 0; payback exists exactly when estimate and spend are positive, and is within 0.05 of their ratio |
| Roi.RoiIgnoresClockWithoutEstimate | src/analytics.py:64-74 | without a monthly estimate, the date of today does not matter |
| Roi.RoiFromKpis | src/analytics.py:69-80 | without an estimate, and with KPIs and spend, the ROI is the mean rate minus 100, rounded |
| Roi.PortfolioRoi | src/analytics.py:95-108 | one result per project in input order, each computed from that project's own budgets and KPIs with no estimate |
| Trends.GroupsOf | src/analytics.py:275-289 | the per-trend groups; Trends.AnalyzePartition proves they partition the input |
| Trends.Analyze | src/analytics.py:275-289 | the loop builds each trend's list of KPIs in input order |
| Trends.AnalyzePartition | src/analytics.py:275-289 | every KPI is in the group of its own trend and only there; the groups form a partition of the input |
| Trends.TrendSummary | src/analytics.py:307-311 | the counts are the group sizes and add up to the number of KPIs |
| Trends.BelowKept | src/analytics.py:304 | the comprehension keeps only input KPIs whose rate is below the threshold |
| Trends.Underperforming | src/analytics.py:291-305 | the result is sorted by rate and holds only input KPIs below the threshold |
| Trends.UnderperformingExact | src/analytics.py:304-305 | the result holds each KPI below the threshold exactly as often as the input does, and no other KPI |
| Trends.UnderperformingStable | src/analytics.py:305 | KPIs of equal rate keep their input order |
| Trends.ByRateDescending | src/analytics.py:316 | the reversed sort is a permutation in non-increasing rate order |
| Trends.TopPerformers | src/analytics.py:313-316 | the first `limit` KPIs (all of them when fewer) in non-increasing rate order, all taken from the input |
| Trends.TopPerformersAreBest | src/analytics.py:316 | no KPI left out has a higher rate than any KPI kept |
| Trends.TopPerformersStable | src/analytics.py:316 | among KPIs of equal rate, the result keeps a prefix of them in input order |
| Summary.Names | src/analytics.py:388 | the names of the projects, in order |
| Summary.HealthLabel | src/analytics.py:362-366 | each of the four labels holds exactly on its band of the overall score |
| Summary.ActiveCount | src/analytics.py:361 | the active count never exceeds the number of projects |
| Summary.ActiveCountExact | src/analytics.py:361 | exactly the projects in development, testing or production are counted, each once |
| Summary.OverviewSection | src/analytics.py:358-372 | the section opens with its heading |
| Summary.StatusCountsTotal | src/analytics.py:376-378 | the per-status counts add up to the number of projects |
| Summary.StatusLinesListPresent | src/analytics.py:381-384 | the listing has as many lines as there are statuses that some project has: statuses with a zero count are skipped |
| Summary.StatusSectionText | src/analytics.py:380-391 | the section opens with its heading |
| Summary.CountByStatus | src/analytics.py:376-378 | the counting loop gives each status the number of projects with it |
| Summary.AppendStatusLines | src/analytics.py:380-384 | the listing loop appends the line of each present status, in declaration order |
| Summary.StatusSection | src/analytics.py:374-391 | the method produces the status section text |
| Summary.OverUnder | src/analytics.py:403 | "over budget" exactly when the variance is positive |
| Summary.BudgetSection | src/analytics.py:393-410 | exactly the no-data text without entries; otherwise the text opens with the heading and the "Total Planned" label |
| Summary.KpiStatsOf | src/analytics.py:417-431 | the on-target and below-70 counts are at most the total, and the trend counts add up to it |
| Summary.KpiSection | src/analytics.py:412-436 | exactly the no-data text without KPIs; otherwise the text opens with the heading |
| Summary.RiskStatusCountsTotal | src/analytics.py:443-445 | open, mitigating and resolved risks add up to all risks |
| Summary.CriticalOpenRisks | src/analytics.py:443-446 | only open risks of score 15 or more, never more than the open risks |
| Summary.RiskSection | src/analytics.py:438-460 | exactly the no-data text without risks; otherwise the text opens with the heading |
| Summary.Rules | src/analytics.py:470-499 | the recommendation rules in fixed order, with the fallback; characterised by Summary.RulesFireIndependently and Summary.RulesInOrder |
| Summary.Recommendations | src/analytics.py:462-499 | the rules applied to the health sub-scores, the under-70 KPI count and the planning share |
| Summary.RulesFireIndependently | src/analytics.py:470-499 | each recommendation appears exactly when its own trigger holds, and the fallback appears exactly when none does |
| Summary.RulesInOrder | src/analytics.py:470-499 | recommendations follow the fixed rule order, each at most once |
| Summary.RulesSteps | src/analytics.py:470-499 | the step-by-step appends of the source give the rule set |
| Summary.RecommendationsText | src/analytics.py:470-501 | the section opens with its heading |
| Summary.RecommendationsSection | src/analytics.py:462-501 | the method produces the recommendations text of the rule set |
| Summary.SummaryText | src/analytics.py:322-356 | the executive summary text; Summary.SummarySections gives its six sections |
| Summary.SummarySections | src/analytics.py:345-356 | the summary is the six sections in fixed order, separated by blank lines |
| Summary.SummaryStartsWithOverview | src/analytics.py:345-372 | the summary opens with the overview heading |
| Summary.Generate | src/analytics.py:322-356 | generate() gives the six sections, computing the health score when none is given |
| ReportCommon.NameOf | src/report_generator.py:125-135 | project_map.get(pid, pid); its partners are ReportCommon.NameOfFound and ReportCommon.NameOfLastWins |
| ReportCommon.NameOfFound | src/report_generator.py:125-135 | an id no project carries stands for itself; a known id is named by a project that carries it |
| ReportCommon.NameOfLastWins | src/report_generator.py:125 | when projects share an id, the last one names it |
| ReportCommon.NameMap | src/report_generator.py:213 | the dict built in one pass looks up every id as the name lookup does |
| ReportCommon.OpenRiskCountSplit | src/report_generator.py:72 | the open-risk figure is the open plus the mitigating risks, and with the resolved ones it accounts for all risks |
| ReportCommon.StatusIcon | src/report_generator.py:317-326 | every status tag is bracketed |
| ReportCommon.StatusIconInjective | src/report_generator.py:317-326 | every status has its own tag |
| OverviewReport.PriorityRankIsStringOrder | src/report_generator.py:62 | the listing order is the string order of the priority values, which is not severity order |
| OverviewReport.ByPriority | src/report_generator.py:62 | the projects sorted by priority value; characterised by OverviewReport.ByPriorityOrder |
| OverviewReport.ByPriorityOrder | src/report_generator.py:62 | every project is listed once, in string order of priority; equal priorities keep input order |
| OverviewReport.OverviewHead | src/report_generator.py:45-61 | thirteen head lines precede the listing |
| OverviewReport.QuickStats | src/report_generator.py:74-84 | seven statistics lines close the report |
| OverviewReport.OverviewLength | src/report_generator.py:32-86 | the report has 20 lines plus one per project |
| OverviewReport.OverviewListing | src/report_generator.py:58-67 | the project rows follow the head, in priority order |
| OverviewReport.PortfolioOverview | src/report_generator.py:32-86 | the method produces the joined overview lines |
| BudgetReport.ProjectKeysExact | src/report_generator.py:125-130 | each project id occurring in the entries is a key once, in order of first appearance, and every key has entries |
| BudgetReport.ProjectSumsAddUp | src/report_generator.py:126-133 | the per-project planned and actual sums add up to the overall totals |
| BudgetReport.GroupByProject | src/report_generator.py:126-128 | the loop groups the entries by project id, with the keys in insertion order |
| BudgetReport.RowStatus | src/report_generator.py:134 | each of "Over", "Under" and "On Track" holds exactly on the sign of the variance |
| BudgetReport.ProjectRows | src/report_generator.py:130-138 | one row per key |
| BudgetReport.ProjectRowsAt | src/report_generator.py:130-138 | row i is built from key i's entries and name |
| BudgetReport.AppendProjectRows | src/report_generator.py:130-138 | the loop appends the project rows in key order |
| BudgetReport.CategoryOrderIsStringOrder | src/report_generator.py:149 | the category order is the string order of the category values |
| BudgetReport.CategoryOrderDistinct | src/report_generator.py:149 | the order lists every category exactly once |
| BudgetReport.CategorySumsAddUp | src/report_generator.py:145-152 | the per-category sums add up to the overall totals |
| BudgetReport.Present | src/report_generator.py:149 | lists only categories taken from the given order |
| BudgetReport.PresentExact | src/report_generator.py:145-149 | a category is listed exactly when it has entries |
| BudgetReport.PresentOrdered | src/report_generator.py:149 | listing keeps the order of the categories |
| BudgetReport.PresentCategoriesSorted | src/report_generator.py:145-149 | the listed categories are exactly the categories with entries, in increasing string order of their values |
| BudgetReport.GroupByCategory | src/report_generator.py:145-147 | the loop groups the entries by category |
| BudgetReport.CategoryRows | src/report_generator.py:149-156 | one row per listed category |
| BudgetReport.CategoryRowsAt | src/report_generator.py:149-156 | row i is the row of the i-th listed category, built from exactly that category's entries |
| BudgetReport.AppendCategoryRows | src/report_generator.py:149-156 | the loop appends the category rows in sorted order |
| BudgetReport.SummaryLines | src/report_generator.py:98-123 | twelve lines precede the project rows |
| BudgetReport.VarianceLength | src/report_generator.py:88-158 | the report has 16 fixed lines, plus one per project id and one per present category |
| BudgetReport.VarianceProjects | src/report_generator.py:120-138 | the project rows follow the summary, in key order |
| BudgetReport.BudgetVarianceReport | src/report_generator.py:88-158 | the method produces the joined variance lines |
| RiskReport.CellTextReadsBack | src/report_generator.py:205 | a dash stands for an empty cell only; any other cell shows digits that read back as its count |
| RiskReport.MatrixLines | src/report_generator.py:201-206 | the matrix has five rows |
| RiskReport.AllCellsExact | src/report_generator.py:201-204 | every cell is shown once, and every valid risk falls in a shown cell |
| RiskReport.MatrixTotal | src/report_generator.py:200-206 | the 25 cell counts add up to the open plus mitigating risks |
| RiskReport.BuildMatrixRow | src/report_generator.py:202-206 | the inner loop builds the row for one probability |
| RiskReport.BuildMatrix | src/report_generator.py:201-206 | the outer loop builds the rows for probability 5 down to 1 |
| RiskReport.ByScore | src/report_generator.py:215 | the risks sorted by descending score; characterised by RiskReport.ByScoreOrder and RiskReport.ByScoreStable |
| RiskReport.ByScoreOrder | src/report_generator.py:215 | every risk is listed once, in non-increasing score order |
| RiskReport.ByScoreStable | src/report_generator.py:215 | risks of equal score keep their input order |
| RiskReport.ShortMitigation | src/report_generator.py:217 | a mitigation is shown whole up to 50 characters; a longer one is cut to its first 50, followed by "..." |
| RiskReport.DetailRows | src/report_generator.py:215-221 | one row per risk |
| RiskReport.DetailRowsAt | src/report_generator.py:215-221 | row i is built from risk i and its project's name |
| RiskReport.AppendDetailRows | src/report_generator.py:215-221 | the loop appends the detail rows in order |
| RiskReport.RegisterHead | src/report_generator.py:170-197 | eleven lines precede the matrix |
| RiskReport.RegisterLayout | src/report_generator.py:160-223 | the report has 20 lines plus one per risk, and the detail rows close it |
| RiskReport.RegisterMatrix | src/report_generator.py:191-206 | the matrix rows follow the eleven head lines |
| RiskReport.RiskRegisterReport | src/report_generator.py:160-223 | the method produces the joined register lines |
| ExecutiveReport.FrameRecoverable | src/report_generator.py:252 | the summary can be cut back out between the header and its blank line and the footer and its newline |
| ExecutiveReport.HeaderLayout | src/report_generator.py:240-244 | the header opens with the title, and the generation time follows verbatim |
| ExecutiveReport.ExecutiveSummaryReport | src/report_generator.py:225-252 | the framed summary equals the one the generator computes on its own |
| Html.Escape | src/report_generator.py:269-272 | the three chained replaces; Html.EscapeRoundTrip and Html.EscapeInjective are its partners |
| Html.EscapeIsOnePass | src/report_generator.py:269-272 | the three chained replaces escape each character on its own |
| Html.EscapeLeavesNoBrackets | src/report_generator.py:269-272 | no raw '<' or '>' is left, and the text grows by at most four characters per character |
| Html.AmpersandsOpenEntities | src/report_generator.py:269-272 | every '&' of the result opens one of the three entities |
| Html.PlainTextUnchanged | src/report_generator.py:269-272 | text without the three characters is left as is |
| Html.EscapeRoundTrip | src/report_generator.py:269-272 | decoding the escaped text recovers it exactly |
| Html.EscapeInjective | src/report_generator.py:269-272 | distinct texts stay distinct once escaped |
| Html.PageHeadEndsWithPre | src/report_generator.py:274-312 | the page head ends with the tag that opens the report text |
| Html.WrapRecoverable | src/report_generator.py:274-314 | whatever the head, the escaped report sits between it and the closing tags, and decodes back to the report |
| Html.ToHtml | src/report_generator.py:254-314 | the page template around the escaped report; Html.ContentRecoverable is its partner |
| Html.ContentRecoverable | src/report_generator.py:254-314 | the page starts with the template head, ends with the closing tags, and holds the escaped report, which decodes back |

## Left out

- The database layer (src/database.py) and the web app (src/app.py) are not part of this model. Their storage, queries and pages are outside the core.
- The clock is a parameter. The current date is a `today` day number. The report timestamps (`datetime.now()`, `date.today()` formatted) are the string parameters `generated` and `period`.
- Dates are whole day numbers. Calendar arithmetic and `timedelta.days` are not modelled.
- Floating point is modelled as exact reals. Binary representation error is not modelled.
- Formatting of real numbers (`:,.2f`, `:+,.2f`, `.1f`, `.0f` and `str()` of a float) is supplied as the functions of a `NumberFormat` parameter, so the model proves nothing about those digits. `str()` of an integer is modelled.
- OverviewReport.OverviewHead: the four component cells print every sub-score as a real through `NumberFormat.plain`. In the source, a sub-score that Python computes as an `int` is printed without a decimal point: the mean of the integer status points, the fixed budget bands 85, 70 and 55, and the `min`/`max` clamps that return the integer bound. The model does not track whether a sub-score is an `int` or a `float` (Health.ComputeHealth returns reals throughout), so the difference between `90` and `90.0` in those cells is not modelled. The overall score is always a float in the source, so its printing is unaffected.
- Pydantic validation other than the date order is left out: generated ids (`uuid4`), string length limits, and rejecting out-of-range amounts or scores. `ValidBudget` and `ValidRisk` state those bounds, and the lemmas that need them take them as preconditions.
- `Models.RiskScore`: the 1..25 bound is stated only for entries within the field bounds, because the record itself does not enforce them.
- `RiskReport.MatrixTotal`: requires every risk to be within the field bounds. Risks outside 1..5 fall in no shown cell, exactly as in the source.
- `Health.ScoreKpis`: the lower bound is conditional, because KPI values are not constrained in sign.
- The `scores.get(p.status, 50)` and `icons.get(status, "[?]")` fallbacks cannot be reached with a closed enum, so they are not modelled.
- The budget table groups by category enum rather than by the category's string value. The two give the same buckets, because the values are distinct. The sorting of the value strings is `BudgetReport.CategoryOrder`, proved to be their string order.
- `Roi.PortfolioRoi` passes a fixed day 0 as `today`. The clock is never read without a monthly estimate (`Roi.RoiIgnoresClockWithoutEstimate`).
- The HTML title is inserted unescaped, as in the source. Nothing is proved about a title that contains markup.
- `Html.Unescape` is a reference inverse for the escape, not a function of the source.
- Summary.BudgetSection: states only the no-data text and the opening heading and label. The planned, actual and variance figures and the over/under wording are given by the function body (Summary.OverUnder states the wording), and no lemma ties them to the totals.
- Summary.KpiSection: states only the no-data text and the heading. The total, on-target, trend and below-70 lines are given by the function body over Summary.KpiStatsOf, whose counts are proved, and no lemma ties the lines to them.
- Summary.RiskSection: states only the no-data text and the heading. The status counts and the critical-risk lines are given by the function body over Summary.RiskStatusCountsTotal and Summary.CriticalOpenRisks, and no lemma ties the lines to them.
