/** The portfolio overview report: the health table, the project listing
    sorted by the priority's string value, and the quick statistics. The
    generation timestamp is a parameter. */
module OverviewReport {

  import opened Seqs
  import opened Text
  import opened Models
  import opened Health
  import opened Summary
  import opened ReportCommon

  /** The position of a priority's value among the four values in Python's
      string order: "critical" < "high" < "low" < "medium". */
  function PriorityRank(p: Priority): real
  {
    match p
    case Critical => 0.0
    case High => 1.0
    case Low => 2.0
    case Medium => 3.0
  }

  /** The rank order is exactly the string order of the values, which puts
      low before medium: the listing is alphabetical, not by severity. */
  lemma PriorityRankIsStringOrder(a: Priority, b: Priority)
    ensures PriorityRank(a) < PriorityRank(b) <==> StrLess(PriorityValue(a), PriorityValue(b))
    ensures PriorityRank(a) == PriorityRank(b) <==> a == b
  {
    var x, y := PriorityValue(a), PriorityValue(b);
    if a == b {
      StrLessIrreflexive(x);
    } else {
      assert x[0] != y[0];
      StrLessFirst(x, y);
    }
  }

  function ProjectPriorityKey(p: Project): real { PriorityRank(p.priority) }

  /** sorted(projects, key=lambda x: x.priority.value) */
  function ByPriority(projects: seq<Project>): seq<Project>
  {
    SortBy(projects, ProjectPriorityKey)
  }

  /** The listing holds every project exactly once, no project comes after
      one whose priority value is a larger string, and projects of the same
      priority keep their input order. */
  lemma ByPriorityOrder(projects: seq<Project>, pr: Priority)
    ensures multiset(ByPriority(projects)) == multiset(projects)
    ensures forall i, j :: 0 <= i < j < |projects| ==>
      !StrLess(PriorityValue(ByPriority(projects)[j].priority), PriorityValue(ByPriority(projects)[i].priority))
    ensures WithKey(ByPriority(projects), PriorityOf, pr) == WithKey(projects, PriorityOf, pr)
  {
    var sorted := ByPriority(projects);
    SortBySorted(projects, ProjectPriorityKey);
    forall i, j | 0 <= i < j < |projects|
      ensures !StrLess(PriorityValue(sorted[j].priority), PriorityValue(sorted[i].priority))
    {
      PriorityRankIsStringOrder(sorted[j].priority, sorted[i].priority);
    }
    SortByStable(projects, ProjectPriorityKey, PriorityRank(pr));
    forall p | p in projects ensures (ProjectPriorityKey(p) == PriorityRank(pr) <==> PriorityOf(p) == pr) {
      PriorityRankIsStringOrder(p.priority, pr);
    }
    forall p | p in sorted ensures (ProjectPriorityKey(p) == PriorityRank(pr) <==> PriorityOf(p) == pr) {
      PriorityRankIsStringOrder(p.priority, pr);
    }
    WithKeyCongruent(projects, ProjectPriorityKey, PriorityRank(pr), PriorityOf, pr);
    WithKeyCongruent(sorted, ProjectPriorityKey, PriorityRank(pr), PriorityOf, pr);
  }

  /** One row of the project table. */
  function ProjectRow(p: Project): string
  {
    "| " + p.name + " | " + StatusIcon(p.status) + " " + StatusTitle(p.status) + " | "
    + PriorityTitle(p.priority) + " | " + p.owner + " | " + p.department + " |"
  }

  /** The title, the health table and the project-table header. */
  function OverviewHead(health: HealthScore, generated: string, fmt: NumberFormat): (lines: seq<string>)
    ensures |lines| == 13
  {
    ["# AI Portfolio Overview Report",
     "_Generated: " + generated + "_\n",
     "## Health Score: " + fmt.plain(health.overallScore) + "/100\n",
     "| Component | Score |",
     "|-----------|-------|",
     "| Status Distribution | " + fmt.plain(health.statusScore) + " |",
     "| Risk Profile | " + fmt.plain(health.riskScore) + " |",
     "| Budget Adherence | " + fmt.plain(health.budgetScore) + " |",
     "| KPI Achievement | " + fmt.plain(health.kpiScore) + " |",
     "",
     "## Projects\n",
     "| Project | Status | Priority | Owner | Department |",
     "|---------|--------|----------|-------|------------|"]
  }

  /** The quick statistics. */
  function QuickStats(projects: seq<Project>, kpis: seq<Kpi>, budgets: seq<BudgetEntry>,
                      risks: seq<RiskEntry>, fmt: NumberFormat): (lines: seq<string>)
    ensures |lines| == 7
  {
    ["",
     "## Quick Stats\n",
     "- **Total Projects**: " + IntToString(|projects|),
     "- **Active Projects**: " + IntToString(ActiveCount(projects)),
     "- **Total Budget**: $" + fmt.money(SumOf(budgets, PlannedAmount)) + " planned / $"
       + fmt.money(SumOf(budgets, ActualAmount)) + " actual",
     "- **Open Risks**: " + IntToString(OpenRiskCount(risks)),
     "- **KPIs Tracked**: " + IntToString(|kpis|)]
  }

  /** The lines of the report: the head, one row per project in priority
      order, then the quick statistics. */
  function OverviewLines(projects: seq<Project>, kpis: seq<Kpi>, budgets: seq<BudgetEntry>,
                         risks: seq<RiskEntry>, generated: string, fmt: NumberFormat): seq<string>
  {
    OverviewHead(ComputeHealth(projects, risks, budgets, kpis), generated, fmt)
    + MapSeq(ByPriority(projects), ProjectRow)
    + QuickStats(projects, kpis, budgets, risks, fmt)
  }

  /** The report has the 13 head lines, one row per project and the 7
      statistics lines. */
  lemma OverviewLength(projects: seq<Project>, kpis: seq<Kpi>, budgets: seq<BudgetEntry>,
                       risks: seq<RiskEntry>, generated: string, fmt: NumberFormat)
    ensures |OverviewLines(projects, kpis, budgets, risks, generated, fmt)| == 20 + |projects|
  {
  }

  /** The project rows follow the head, in priority order. */
  lemma OverviewListing(projects: seq<Project>, kpis: seq<Kpi>, budgets: seq<BudgetEntry>,
                        risks: seq<RiskEntry>, generated: string, fmt: NumberFormat)
    ensures OverviewLines(projects, kpis, budgets, risks, generated, fmt)[13..13 + |projects|]
         == MapSeq(ByPriority(projects), ProjectRow)
  {
  }

  /** portfolio_overview(): computes the health score, lists the projects in
      priority order one row at a time, then adds the statistics. */
  method PortfolioOverview(projects: seq<Project>, kpis: seq<Kpi>, budgets: seq<BudgetEntry>,
                           risks: seq<RiskEntry>, generated: string, fmt: NumberFormat)
    returns (text: string)
    ensures text == Join(OverviewLines(projects, kpis, budgets, risks, generated, fmt), "\n")
  {
    var health := ComputeHealth(projects, risks, budgets, kpis);
    var lines := OverviewHead(health, generated, fmt);
    lines := AppendMapped(lines, ByPriority(projects), ProjectRow);
    lines := lines + QuickStats(projects, kpis, budgets, risks, fmt);
    text := Join(lines, "\n");
  }

}
