/** The executive summary: six Markdown sections (overview, status
    distribution, budget, KPIs, risks, recommendations) joined by blank
    lines. Real numbers are rendered by the caller's NumberFormat. */
module Summary {

  import opened Common
  import opened Seqs
  import opened Text
  import opened Models
  import opened Health
  import opened Trends

  function Abs(x: real): real { if x < 0.0 then -x else x }

  /** p.name for every project, in order. */
  function Names(ps: seq<Project>): (r: seq<string>)
    ensures |r| == |ps|
    ensures forall i :: 0 <= i < |ps| ==> r[i] == ps[i].name
  {
    if ps == [] then [] else [ps[0].name] + Names(ps[1..])
  }

  // ---------------------------------------------------------------------
  // overview
  // ---------------------------------------------------------------------

  /** The label of the overall score: four bands at 80, 60 and 40. */
  function HealthLabel(score: real): (name: string)
    ensures name == "Excellent" <==> score >= 80.0
    ensures name == "Good" <==> 60.0 <= score < 80.0
    ensures name == "Fair" <==> 40.0 <= score < 60.0
    ensures name == "Needs Attention" <==> score < 40.0
  {
    if score >= 80.0 then "Excellent"
    else if score >= 60.0 then "Good"
    else if score >= 40.0 then "Fair"
    else "Needs Attention"
  }

  /** The number of projects in development, testing or production; never
      more than the number of projects. */
  function ActiveCount(projects: seq<Project>): (n: nat)
    ensures n <= |projects|
  {
    |Filter(projects, IsActive)|
  }

  /** Exactly the projects counted active are in an active status. */
  lemma ActiveCountExact(projects: seq<Project>, p: Project)
    ensures multiset(Filter(projects, IsActive))[p]
         == if p.status in {Development, Testing, Production} then multiset(projects)[p] else 0
  {
    FilterMultiplicity(projects, IsActive, p);
  }

  function OverviewSection(projects: seq<Project>, health: HealthScore, fmt: NumberFormat): (text: string)
    ensures "## Portfolio Overview\n\n" <= text
  {
    var head := "## Portfolio Overview\n\n";
    var rest := "The AI portfolio consists of **" + IntToString(|projects|) + " projects**, "
    + "of which **" + IntToString(ActiveCount(projects)) + "** are actively in development, testing, or production. "
    + "The overall portfolio health score is **" + fmt.plain(health.overallScore) + "/100** ("
    + HealthLabel(health.overallScore) + ").";
    head + rest
  }

  // ---------------------------------------------------------------------
  // status distribution
  // ---------------------------------------------------------------------

  /** The number of projects with status s. */
  function StatusCount(projects: seq<Project>, s: ProjectStatus): nat
  {
    |WithKey(projects, StatusOf, s)|
  }

  /** The per-status counts add up to the number of projects. */
  lemma StatusCountsTotal(projects: seq<Project>)
    ensures StatusCount(projects, Planning) + StatusCount(projects, Development) + StatusCount(projects, Testing)
          + StatusCount(projects, Production) + StatusCount(projects, Retired) == |projects|
  {
    var ks := ProjectStatuses;
    forall p | p in projects ensures StatusOf(p) in ks {
      match p.status
      case Planning => assert ks[0] == Planning;
      case Development => assert ks[1] == Development;
      case Testing => assert ks[2] == Testing;
      case Production => assert ks[3] == Production;
      case Retired => assert ks[4] == Retired;
    }
    CountGroupsPartition(projects, StatusOf, ks);
    var k1, k2, k3, k4 := ks[1..], ks[2..], ks[3..], ks[4..];
    assert k1 == [Development, Testing, Production, Retired] && k1[1..] == k2;
    assert k2 == [Testing, Production, Retired] && k2[1..] == k3;
    assert k3 == [Production, Retired] && k3[1..] == k4;
    assert k4 == [Retired] && k4[1..] == [];
    assert CountGroups(projects, StatusOf, k4) == StatusCount(projects, Retired);
    assert CountGroups(projects, StatusOf, k3) == StatusCount(projects, Production) + StatusCount(projects, Retired);
    assert CountGroups(projects, StatusOf, k2) == StatusCount(projects, Testing) + CountGroups(projects, StatusOf, k3);
    assert CountGroups(projects, StatusOf, k1) == StatusCount(projects, Development) + CountGroups(projects, StatusOf, k2);
    assert CountGroups(projects, StatusOf, ks) == StatusCount(projects, Planning) + CountGroups(projects, StatusOf, k1);
  }

  function StatusLineText(s: ProjectStatus, count: nat): string
  {
    "- **" + StatusTitle(s) + "**: " + IntToString(count) + " project(s)"
  }

  /** One line per status of ss that some project has, in the order of ss. */
  function StatusLines(projects: seq<Project>, ss: seq<ProjectStatus>): (lines: seq<string>)
    ensures |lines| <= |ss|
  {
    if ss == [] then []
    else
      var s := ss[|ss| - 1];
      StatusLines(projects, ss[..|ss| - 1])
      + (if StatusCount(projects, s) > 0 then [StatusLineText(s, StatusCount(projects, s))] else [])
  }

  /** Whether some project has status s. */
  function HasStatus(projects: seq<Project>): ProjectStatus -> bool
  {
    s => StatusCount(projects, s) > 0
  }

  /** A status is listed exactly when some project has it. */
  lemma {:induction false} StatusLinesListPresent(projects: seq<Project>, ss: seq<ProjectStatus>)
    ensures |StatusLines(projects, ss)| == |Filter(ss, HasStatus(projects))|
  {
    if ss != [] {
      var s := ss[|ss| - 1];
      var front := ss[..|ss| - 1];
      var present := if StatusCount(projects, s) > 0 then 1 else 0;
      calc {
        |StatusLines(projects, ss)|;
        |StatusLines(projects, front)| + present;
        { StatusLinesListPresent(projects, front); }
        |Filter(front, HasStatus(projects))| + present;
        { FilterAppend(front, [s], HasStatus(projects)); assert ss == front + [s]; }
        |Filter(ss, HasStatus(projects))|;
      }
    }
  }

  function CriticalProjects(projects: seq<Project>): seq<Project>
  {
    WithKey(projects, PriorityOf, Critical)
  }

  function CriticalLine(projects: seq<Project>): seq<string>
  {
    if CriticalProjects(projects) == [] then []
    else ["\n**Critical priority projects**: " + Join(Names(CriticalProjects(projects)), ", ")]
  }

  const StatusHeading: string := "## Project Status Distribution\n"

  function StatusSectionText(projects: seq<Project>): (text: string)
    ensures StatusHeading <= text
  {
    JoinHead([StatusHeading] + StatusLines(projects, ProjectStatuses) + CriticalLine(projects), "\n");
    Join([StatusHeading] + StatusLines(projects, ProjectStatuses) + CriticalLine(projects), "\n")
  }

  /** The count for s in a status-count dict, 0 when absent. */
  function CountIn(counts: map<ProjectStatus, nat>, s: ProjectStatus): nat
  {
    if s in counts then counts[s] else 0
  }

  /** The counting loop: one increment for each project's status. */
  method CountByStatus(projects: seq<Project>) returns (counts: map<ProjectStatus, nat>)
    ensures forall s :: CountIn(counts, s) == StatusCount(projects, s)
  {
    counts := map[];
    for i := 0 to |projects|
      invariant forall s :: CountIn(counts, s) == StatusCount(projects[..i], s)
    {
      var p := projects[i];
      assert projects[..i + 1] == projects[..i] + [p];
      forall s ensures StatusCount(projects[..i + 1], s) == StatusCount(projects[..i], s) + (if p.status == s then 1 else 0) {
        WithKeySnoc(projects[..i], p, StatusOf, s);
      }
      ghost var before := counts;
      counts := counts[p.status := CountIn(counts, p.status) + 1];
      assert forall s :: CountIn(counts, s) == CountIn(before, s) + (if p.status == s then 1 else 0);
    }
    assert projects[..|projects|] == projects;
  }

  /** The listing loop: one line for each status with a non-zero count. */
  method AppendStatusLines(lines: seq<string>, projects: seq<Project>, counts: map<ProjectStatus, nat>)
    returns (out: seq<string>)
    requires forall s :: CountIn(counts, s) == StatusCount(projects, s)
    ensures out == lines + StatusLines(projects, ProjectStatuses)
  {
    out := lines;
    for j := 0 to |ProjectStatuses|
      invariant out == lines + StatusLines(projects, ProjectStatuses[..j])
    {
      var status := ProjectStatuses[j];
      var count := CountIn(counts, status);
      if count > 0 {
        out := out + [StatusLineText(status, count)];
      }
      ghost var done := ProjectStatuses[..j + 1];
      assert done[|done| - 1] == status && done[..|done| - 1] == ProjectStatuses[..j];
    }
    assert ProjectStatuses[..|ProjectStatuses|] == ProjectStatuses;
  }

  /** _status_section(): counts projects per status in a map, then lists the
      present statuses in declaration order and the critical projects. */
  method StatusSection(projects: seq<Project>) returns (text: string)
    ensures text == StatusSectionText(projects)
  {
    var counts := CountByStatus(projects);
    var lines := AppendStatusLines([StatusHeading], projects, counts);
    var critical := WithKey(projects, PriorityOf, Critical);
    assert critical == CriticalProjects(projects);
    ghost var listed := lines;
    if critical != [] {
      lines := lines + ["\n**Critical priority projects**: " + Join(Names(critical), ", ")];
    }
    assert lines == listed + CriticalLine(projects);
    text := Join(lines, "\n");
  }

  // ---------------------------------------------------------------------
  // budget
  // ---------------------------------------------------------------------

  /** "over budget" exactly when the total variance is positive. */
  function OverUnder(variance: real): (t: string)
    ensures t == "over budget" <==> variance > 0.0
    ensures t == "under budget" <==> variance <= 0.0
  {
    if variance <= 0.0 then "under budget" else "over budget"
  }

  const NoBudgetText: string := "## Budget Summary\n\nNo budget data available."

  function BudgetSection(budgets: seq<BudgetEntry>, fmt: NumberFormat): (text: string)
    ensures budgets == [] ==> text == NoBudgetText
    ensures budgets != [] ==> "## Budget Summary\n\n- **Total Planned**: $" <= text
  {
    if budgets == [] then NoBudgetText
    else
      var planned := SumOf(budgets, PlannedAmount);
      var actual := SumOf(budgets, ActualAmount);
      var variance := actual - planned;
      var pct := if planned > 0.0 then variance / planned * 100.0 else 0.0;
      var head := "## Budget Summary\n\n- **Total Planned**: $";
      var rest := fmt.money(planned) + "\n"
        + "- **Total Actual**: $" + fmt.money(actual) + "\n"
        + "- **Variance**: $" + fmt.money(Abs(variance)) + " (" + fmt.oneDecimal(Abs(pct)) + "% " + OverUnder(variance) + ")";
      head + rest
  }

  // ---------------------------------------------------------------------
  // KPIs
  // ---------------------------------------------------------------------

  /** The figures of the KPI section. */
  datatype KpiStats = KpiStats(total: nat, onTarget: nat, average: real,
                               up: nat, stable: nat, down: nat, belowSeventy: nat)

  function KpiStatsOf(kpis: seq<Kpi>): (s: KpiStats)
    requires kpis != []
    ensures s.total == |kpis|
    ensures s.onTarget <= s.total && s.belowSeventy <= s.total
    ensures s.up + s.stable + s.down == s.total
  {
    var trends := TrendSummary(kpis);
    KpiStats(|kpis|, |Filter(kpis, IsOnTarget)|, Mean(kpis, AchievementRate),
             trends.up, trends.stable, trends.down, |Underperforming(kpis, 70.0)|)
  }

  const NoKpiText: string := "## KPI Performance\n\nNo KPI data available."

  function KpiSection(kpis: seq<Kpi>, fmt: NumberFormat): (text: string)
    ensures kpis == [] ==> text == NoKpiText
    ensures kpis != [] ==> "## KPI Performance\n" <= text
  {
    if kpis == [] then NoKpiText
    else
      var s := KpiStatsOf(kpis);
      var lines := [
        "## KPI Performance\n",
        "- **Total KPIs tracked**: " + IntToString(s.total),
        "- **On target**: " + IntToString(s.onTarget) + "/" + IntToString(s.total)
          + " (" + fmt.noDecimals(s.onTarget as real / s.total as real * 100.0) + "%)",
        "- **Average achievement**: " + fmt.oneDecimal(s.average) + "%",
        "- **Trends**: " + IntToString(s.up) + " improving, " + IntToString(s.stable) + " stable, "
          + IntToString(s.down) + " declining"
      ] + (if s.belowSeventy > 0
           then ["\n**Attention needed**: " + IntToString(s.belowSeventy) + " KPI(s) below 70% target."]
           else []);
      JoinHead(lines, "\n");
      Join(lines, "\n")
  }

  // ---------------------------------------------------------------------
  // risks
  // ---------------------------------------------------------------------

  /** The number of risks with status s. */
  function RiskStatusCount(risks: seq<RiskEntry>, s: RiskStatus): nat
  {
    |WithKey(risks, RiskStatusOf, s)|
  }

  /** Open, mitigating and resolved risks add up to all risks. */
  lemma RiskStatusCountsTotal(risks: seq<RiskEntry>)
    ensures RiskStatusCount(risks, Open) + RiskStatusCount(risks, Mitigating) + RiskStatusCount(risks, Resolved) == |risks|
  {
    var ks := [Open, Mitigating, Resolved];
    forall r | r in risks ensures RiskStatusOf(r) in ks {
      match r.status
      case Open => assert ks[0] == Open;
      case Mitigating => assert ks[1] == Mitigating;
      case Resolved => assert ks[2] == Resolved;
    }
    CountGroupsPartition(risks, RiskStatusOf, ks);
    var k1, k2 := ks[1..], ks[2..];
    assert k1 == [Mitigating, Resolved] && k1[1..] == k2;
    assert k2 == [Resolved] && k2[1..] == [];
    assert CountGroups(risks, RiskStatusOf, k2) == RiskStatusCount(risks, Resolved);
    assert CountGroups(risks, RiskStatusOf, k1) == RiskStatusCount(risks, Mitigating) + RiskStatusCount(risks, Resolved);
    assert CountGroups(risks, RiskStatusOf, ks) == RiskStatusCount(risks, Open) + CountGroups(risks, RiskStatusOf, k1);
  }

  predicate IsCriticalRisk(r: RiskEntry) { RiskLevel(r) == "critical" }

  /** Open risks at the critical level; resolved and mitigating ones are not
      counted. */
  function CriticalOpenRisks(risks: seq<RiskEntry>): (r: seq<RiskEntry>)
    ensures |r| <= RiskStatusCount(risks, Open)
    ensures forall x :: x in r ==> x in risks && x.status == Open && RiskScore(x) >= 15
  {
    Filter(WithKey(risks, RiskStatusOf, Open), IsCriticalRisk)
  }

  const NoRiskText: string := "## Risk Profile\n\nNo risks recorded."

  function RiskSection(risks: seq<RiskEntry>): (text: string)
    ensures risks == [] ==> text == NoRiskText
    ensures risks != [] ==> "## Risk Profile\n" <= text
  {
    if risks == [] then NoRiskText
    else
      var critical := CriticalOpenRisks(risks);
      var lines := [
        "## Risk Profile\n",
        "- **Open risks**: " + IntToString(RiskStatusCount(risks, Open)),
        "- **Being mitigated**: " + IntToString(RiskStatusCount(risks, Mitigating)),
        "- **Resolved**: " + IntToString(RiskStatusCount(risks, Resolved))
      ] + (if critical != []
           then ["\n**Critical risks (" + IntToString(|critical|) + ")** require immediate attention."]
           else []);
      JoinHead(lines, "\n");
      Join(lines, "\n")
  }

  // ---------------------------------------------------------------------
  // recommendations
  // ---------------------------------------------------------------------

  datatype Rec = BudgetReview | RiskMitigation | KpiImprovement(count: nat) | PipelineAcceleration | PerformingWell

  /** The position of each rule in the fixed rule order. */
  function Rank(r: Rec): nat
  {
    match r
    case BudgetReview => 0
    case RiskMitigation => 1
    case KpiImprovement(_) => 2
    case PipelineAcceleration => 3
    case PerformingWell => 4
  }

  function RecText(r: Rec): string
  {
    match r
    case BudgetReview =>
      "- **Budget Review**: Conduct an immediate review of projects exceeding planned budgets and implement cost controls."
    case RiskMitigation =>
      "- **Risk Mitigation**: Prioritize mitigation plans for high-impact risks in the active portfolio."
    case KpiImprovement(n) =>
      "- **KPI Improvement**: " + IntToString(n)
      + " KPI(s) are significantly below target. Consider resource reallocation or scope adjustment."
    case PipelineAcceleration =>
      "- **Pipeline Acceleration**: A large portion of the portfolio is still in planning. Consider accelerating development timelines."
    case PerformingWell =>
      "- Portfolio is performing well. Continue current trajectory."
  }

  /** More than 40 percent of the projects are still in planning. */
  predicate PlanningHeavy(projects: seq<Project>)
  {
    StatusCount(projects, Planning) as real > |projects| as real * 0.4
  }

  /** The rule set on its inputs: the budget and risk sub-scores, the number
      of KPIs below 70 percent and whether planning dominates. Each rule is
      independent; the fallback applies when none fires. */
  function Rules(budgetScore: real, riskScore: real, underCount: nat, planningHeavy: bool): seq<Rec>
  {
    var fired :=
      (if budgetScore < 70.0 then [BudgetReview] else [])
      + (if riskScore < 70.0 then [RiskMitigation] else [])
      + (if underCount > 0 then [KpiImprovement(underCount)] else [])
      + (if planningHeavy then [PipelineAcceleration] else []);
    if fired == [] then [PerformingWell] else fired
  }

  /** Each rule's line appears exactly when its trigger holds, the fallback
      exactly when no trigger holds, and the lines follow the rule order. */
  lemma RulesFireIndependently(budgetScore: real, riskScore: real, underCount: nat, planningHeavy: bool)
    ensures BudgetReview in Rules(budgetScore, riskScore, underCount, planningHeavy) <==> budgetScore < 70.0
    ensures RiskMitigation in Rules(budgetScore, riskScore, underCount, planningHeavy) <==> riskScore < 70.0
    ensures KpiImprovement(underCount) in Rules(budgetScore, riskScore, underCount, planningHeavy) <==> underCount > 0
    ensures forall n :: KpiImprovement(n) in Rules(budgetScore, riskScore, underCount, planningHeavy) ==> n == underCount
    ensures PipelineAcceleration in Rules(budgetScore, riskScore, underCount, planningHeavy) <==> planningHeavy
    ensures PerformingWell in Rules(budgetScore, riskScore, underCount, planningHeavy)
        <==> !(budgetScore < 70.0 || riskScore < 70.0 || underCount > 0 || planningHeavy)
  {
    var a := if budgetScore < 70.0 then [BudgetReview] else [];
    var b := if riskScore < 70.0 then [RiskMitigation] else [];
    var c := if underCount > 0 then [KpiImprovement(underCount)] else [];
    var d := if planningHeavy then [PipelineAcceleration] else [];
    assert forall x :: x in a + b + c + d <==> x in a || x in b || x in c || x in d;
  }

  /** The lines come in rule order, each rule at most once. */
  lemma RulesInOrder(budgetScore: real, riskScore: real, underCount: nat, planningHeavy: bool)
    ensures forall i, j :: 0 <= i < j < |Rules(budgetScore, riskScore, underCount, planningHeavy)| ==>
      Rank(Rules(budgetScore, riskScore, underCount, planningHeavy)[i])
      < Rank(Rules(budgetScore, riskScore, underCount, planningHeavy)[j])
  {
    var a := if budgetScore < 70.0 then [BudgetReview] else [];
    var b := if riskScore < 70.0 then [RiskMitigation] else [];
    var c := if underCount > 0 then [KpiImprovement(underCount)] else [];
    var d := if planningHeavy then [PipelineAcceleration] else [];
    RanksIncrease(a, 0, b, 1, c, 2, d, 3);
  }

  /** Four runs of at most one element each, with increasing ranks, in
      order. */
  lemma RanksIncrease(a: seq<Rec>, ra: nat, b: seq<Rec>, rb: nat, c: seq<Rec>, rc: nat, d: seq<Rec>, rd: nat)
    requires |a| <= 1 && |b| <= 1 && |c| <= 1 && |d| <= 1
    requires ra < rb < rc < rd
    requires forall x :: x in a ==> Rank(x) == ra
    requires forall x :: x in b ==> Rank(x) == rb
    requires forall x :: x in c ==> Rank(x) == rc
    requires forall x :: x in d ==> Rank(x) == rd
    ensures forall i, j :: 0 <= i < j < |a + b + c + d| ==> Rank((a + b + c + d)[i]) < Rank((a + b + c + d)[j])
  {
    var s := a + b + c + d;
    forall i, j | 0 <= i < j < |s| ensures Rank(s[i]) < Rank(s[j]) {
      var x, y := s[i], s[j];
      assert x in s && y in s;
    }
  }

  /** The rule set, written as the appends that fire one after another. */
  lemma RulesSteps(budgetScore: real, riskScore: real, underCount: nat, planningHeavy: bool,
                   a: seq<Rec>, b: seq<Rec>, c: seq<Rec>, d: seq<Rec>)
    requires a == if budgetScore < 70.0 then [BudgetReview] else []
    requires b == if riskScore < 70.0 then a + [RiskMitigation] else a
    requires c == if underCount > 0 then b + [KpiImprovement(underCount)] else b
    requires d == if planningHeavy then c + [PipelineAcceleration] else c
    ensures (if |d| == 0 then [PerformingWell] else d) == Rules(budgetScore, riskScore, underCount, planningHeavy)
  {
  }

  /** The recommendations of a portfolio: the rule set applied to its health
      sub-scores, its underperforming KPIs and its planning share. */
  function Recommendations(projects: seq<Project>, kpis: seq<Kpi>, health: HealthScore): seq<Rec>
  {
    Rules(health.budgetScore, health.riskScore, UnderperformingCount(kpis), PlanningHeavy(projects))
  }

  /** The number of KPIs below 70 percent of target. */
  function UnderperformingCount(kpis: seq<Kpi>): nat
  {
    |Underperforming(kpis, 70.0)|
  }

  /** The lines of a list of recommendations. */
  function RecLines(recs: seq<Rec>): (lines: seq<string>)
    ensures |lines| == |recs|
  {
    MapSeq(recs, RecText)
  }

  const RecHeading: string := "## Recommendations\n"

  function RecommendationsText(projects: seq<Project>, kpis: seq<Kpi>, health: HealthScore): (text: string)
    ensures RecHeading <= text
  {
    JoinHead([RecHeading] + RecLines(Recommendations(projects, kpis, health)), "\n");
    Join([RecHeading] + RecLines(Recommendations(projects, kpis, health)), "\n")
  }

  /** _recommendations_section(): collects every rule that fires, in rule
      order, and the fallback when none did, then writes one line each
      under the heading. */
  method RecommendationsSection(projects: seq<Project>, kpis: seq<Kpi>, health: HealthScore)
    returns (text: string)
    ensures text == RecommendationsText(projects, kpis, health)
  {
    var underperforming := UnderperformingCount(kpis);
    var heavy := PlanningHeavy(projects);
    var fired: seq<Rec> := [];
    if health.budgetScore < 70.0 {
      fired := fired + [BudgetReview];
    }
    ghost var a := fired;
    if health.riskScore < 70.0 {
      fired := fired + [RiskMitigation];
    }
    ghost var b := fired;
    if underperforming > 0 {
      fired := fired + [KpiImprovement(underperforming)];
    }
    ghost var c := fired;
    if heavy {
      fired := fired + [PipelineAcceleration];
    }
    RulesSteps(health.budgetScore, health.riskScore, underperforming, heavy, a, b, c, fired);
    if |fired| == 0 {
      fired := fired + [PerformingWell];
    }
    var recs := [RecHeading] + RecLines(fired);
    text := Join(recs, "\n");
  }

  // ---------------------------------------------------------------------
  // the whole summary
  // ---------------------------------------------------------------------

  /** The given health score, or the one computed from the same data. */
  function HealthOrCompute(health: Option<HealthScore>, projects: seq<Project>, kpis: seq<Kpi>,
                           budgets: seq<BudgetEntry>, risks: seq<RiskEntry>): HealthScore
  {
    if health.Some? then health.value else ComputeHealth(projects, risks, budgets, kpis)
  }

  /** The six sections in order, separated by one blank line. */
  function SummaryText(projects: seq<Project>, kpis: seq<Kpi>, budgets: seq<BudgetEntry>,
                       risks: seq<RiskEntry>, health: Option<HealthScore>, fmt: NumberFormat): string
  {
    var h := HealthOrCompute(health, projects, kpis, budgets, risks);
    Join([OverviewSection(projects, h, fmt), StatusSectionText(projects), BudgetSection(budgets, fmt),
          KpiSection(kpis, fmt), RiskSection(risks), RecommendationsText(projects, kpis, h)], "\n\n")
  }

  /** The summary is the six sections in fixed order with a blank line
      between neighbours, and each section opens with its own heading. */
  lemma SummarySections(projects: seq<Project>, kpis: seq<Kpi>, budgets: seq<BudgetEntry>,
                        risks: seq<RiskEntry>, health: Option<HealthScore>, fmt: NumberFormat)
    ensures SummaryText(projects, kpis, budgets, risks, health, fmt)
         == OverviewSection(projects, HealthOrCompute(health, projects, kpis, budgets, risks), fmt)
            + "\n\n" + StatusSectionText(projects)
            + "\n\n" + BudgetSection(budgets, fmt)
            + "\n\n" + KpiSection(kpis, fmt)
            + "\n\n" + RiskSection(risks)
            + "\n\n" + RecommendationsText(projects, kpis, HealthOrCompute(health, projects, kpis, budgets, risks))
  {
    var h := HealthOrCompute(health, projects, kpis, budgets, risks);
    JoinSix(OverviewSection(projects, h, fmt), StatusSectionText(projects), BudgetSection(budgets, fmt),
            KpiSection(kpis, fmt), RiskSection(risks), RecommendationsText(projects, kpis, h), "\n\n");
  }

  /** The summary opens with the overview heading. */
  lemma SummaryStartsWithOverview(projects: seq<Project>, kpis: seq<Kpi>, budgets: seq<BudgetEntry>,
                                  risks: seq<RiskEntry>, health: Option<HealthScore>, fmt: NumberFormat)
    ensures "## Portfolio Overview\n\n" <= SummaryText(projects, kpis, budgets, risks, health, fmt)
  {
    var h := HealthOrCompute(health, projects, kpis, budgets, risks);
    var parts := [OverviewSection(projects, h, fmt), StatusSectionText(projects), BudgetSection(budgets, fmt),
                  KpiSection(kpis, fmt), RiskSection(risks), RecommendationsText(projects, kpis, h)];
    JoinHead(parts, "\n\n");
    PrefixTransitive("## Portfolio Overview\n\n", parts[0], Join(parts, "\n\n"));
  }

  /** generate(): computes the health score when none is given and joins the
      six sections. */
  method Generate(projects: seq<Project>, kpis: seq<Kpi>, budgets: seq<BudgetEntry>,
                  risks: seq<RiskEntry>, health: Option<HealthScore>, fmt: NumberFormat)
    returns (text: string)
    ensures text == SummaryText(projects, kpis, budgets, risks, health, fmt)
  {
    var h := if health.Some? then health.value else ComputeHealth(projects, risks, budgets, kpis);
    var status := StatusSection(projects);
    var recs := RecommendationsSection(projects, kpis, h);
    var sections := [OverviewSection(projects, h, fmt), status, BudgetSection(budgets, fmt),
                     KpiSection(kpis, fmt), RiskSection(risks), recs];
    text := Join(sections, "\n\n");
  }

}
