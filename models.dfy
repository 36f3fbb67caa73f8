/** The domain records of the AI project portfolio: projects, KPIs, budget
    entries and risk entries, their closed value sets, and the fields the
    records derive from their stored ones. */
module Models {

  import opened Common
  import opened Numeric
  import opened Text

  // ---------------------------------------------------------------------
  // closed value sets
  // ---------------------------------------------------------------------

  datatype ProjectStatus = Planning | Development | Testing | Production | Retired

  datatype Priority = Critical | High | Medium | Low

  datatype Trend = Up | Down | Stable

  datatype BudgetCategory = Compute | ApiCalls | Personnel | Infrastructure | Other

  datatype RiskStatus = Open | Mitigating | Resolved

  /** The statuses in declaration order (iteration over the enum). */
  const ProjectStatuses: seq<ProjectStatus> := [Planning, Development, Testing, Production, Retired]

  function StatusValue(s: ProjectStatus): string
  {
    match s
    case Planning => "planning"
    case Development => "development"
    case Testing => "testing"
    case Production => "production"
    case Retired => "retired"
  }

  /** status.value.title() */
  function StatusTitle(s: ProjectStatus): string
  {
    match s
    case Planning => "Planning"
    case Development => "Development"
    case Testing => "Testing"
    case Production => "Production"
    case Retired => "Retired"
  }

  function PriorityValue(p: Priority): string
  {
    match p
    case Critical => "critical"
    case High => "high"
    case Medium => "medium"
    case Low => "low"
  }

  /** priority.value.title() */
  function PriorityTitle(p: Priority): string
  {
    match p
    case Critical => "Critical"
    case High => "High"
    case Medium => "Medium"
    case Low => "Low"
  }

  function TrendValue(t: Trend): string
  {
    match t
    case Up => "up"
    case Down => "down"
    case Stable => "stable"
  }

  function CategoryValue(c: BudgetCategory): string
  {
    match c
    case Compute => "compute"
    case ApiCalls => "api_calls"
    case Personnel => "personnel"
    case Infrastructure => "infrastructure"
    case Other => "other"
  }

  /** category.value.replace('_', ' ').title() */
  function CategoryTitle(c: BudgetCategory): string
  {
    match c
    case Compute => "Compute"
    case ApiCalls => "Api Calls"
    case Personnel => "Personnel"
    case Infrastructure => "Infrastructure"
    case Other => "Other"
  }

  function RiskStatusValue(s: RiskStatus): string
  {
    match s
    case Open => "open"
    case Mitigating => "mitigating"
    case Resolved => "resolved"
  }

  /** status.value.title() */
  function RiskStatusTitle(s: RiskStatus): string
  {
    match s
    case Open => "Open"
    case Mitigating => "Mitigating"
    case Resolved => "Resolved"
  }

  // ---------------------------------------------------------------------
  // projects
  // ---------------------------------------------------------------------

  /** Calendar dates as day numbers. */
  type Day = int

  datatype Project = Project(
    id: string,
    name: string,
    description: string,
    status: ProjectStatus,
    priority: Priority,
    owner: string,
    startDate: Day,
    targetDate: Option<Day>,
    modelUsed: string,
    useCase: string,
    department: string)

  const DateOrderError: string := "target_date must not be before start_date"

  predicate DatesOrdered(p: Project)
  {
    p.targetDate.None? || p.startDate <= p.targetDate.value
  }

  /** The model validator run after construction: a project whose target
      date precedes its start date is rejected, any other is kept as is. */
  function ValidateDates(p: Project): (r: Result<Project, string>)
    ensures r.Ok? <==> DatesOrdered(p)
    ensures r.Ok? ==> r.value == p
    ensures r.Err? ==> r.error == DateOrderError
  {
    if p.targetDate.Some? && p.targetDate.value < p.startDate then Err(DateOrderError) else Ok(p)
  }

  /** Development, testing and production count as active; planning and
      retired do not. */
  function IsActive(p: Project): (b: bool)
    ensures b <==> p.status != Planning && p.status != Retired
  {
    p.status.Development? || p.status.Testing? || p.status.Production?
  }

  /** Days from today to the target date; absent exactly when there is no
      target date, and for an accepted project never fewer than the days
      from today to the start date. */
  function DaysUntilTarget(p: Project, today: Day): (r: Option<int>)
    ensures r.None? <==> p.targetDate.None?
    ensures r.Some? && DatesOrdered(p) ==> r.value >= p.startDate - today
    ensures r.Some? && today == p.targetDate.value ==> r.value == 0
  {
    if p.targetDate.None? then None else Some(p.targetDate.value - today)
  }

  // ---------------------------------------------------------------------
  // KPIs
  // ---------------------------------------------------------------------

  datatype Kpi = Kpi(
    id: string,
    projectId: string,
    metricName: string,
    currentValue: real,
    targetValue: real,
    unit: string,
    trend: Trend)

  /** Percentage of the target reached, to two decimals; 0 for a zero
      target. */
  function AchievementRate(k: Kpi): (r: real)
    ensures k.targetValue == 0.0 ==> r == 0.0
    ensures k.targetValue != 0.0 ==>
      k.currentValue / k.targetValue * 100.0 - 0.005 <= r <= k.currentValue / k.targetValue * 100.0 + 0.005
  {
    if k.targetValue == 0.0 then 0.0
    else
      var x := k.currentValue / k.targetValue * 100.0;
      RoundError(x, 2);
      ScaleOf(2);
      Round(x, 2)
  }

  predicate IsOnTarget(k: Kpi)
  {
    k.currentValue >= k.targetValue
  }

  /** With a zero target the rate is 0 and the KPI is on target exactly
      when its current value is not negative. */
  lemma ZeroTargetKpi(k: Kpi)
    requires k.targetValue == 0.0
    ensures AchievementRate(k) == 0.0
    ensures IsOnTarget(k) <==> k.currentValue >= 0.0
  {
  }

  /** With a positive target, a KPI on target has a rate of at least 100. */
  lemma {:induction false} OnTargetReachesFullRate(k: Kpi)
    requires k.targetValue > 0.0 && IsOnTarget(k)
    ensures AchievementRate(k) >= 100.0
  {
    var x := k.currentValue / k.targetValue * 100.0;
    assert k.currentValue / k.targetValue >= 1.0;
    RoundAtLeast(x, 2, 100);
  }

  /** A non-negative current value over a positive target gives a
      non-negative rate. */
  lemma {:induction false} AchievementRateNonNegative(k: Kpi)
    requires k.targetValue > 0.0 && k.currentValue >= 0.0
    ensures AchievementRate(k) >= 0.0
  {
    var x := k.currentValue / k.targetValue * 100.0;
    assert k.currentValue / k.targetValue >= 0.0;
    RoundAtLeast(x, 2, 0);
  }

  // ---------------------------------------------------------------------
  // budget entries
  // ---------------------------------------------------------------------

  datatype BudgetEntry = BudgetEntry(
    id: string,
    projectId: string,
    category: BudgetCategory,
    plannedAmount: real,
    actualAmount: real,
    currency: string)

  /** The field bounds: both amounts are at least 0. */
  predicate ValidBudget(b: BudgetEntry)
  {
    b.plannedAmount >= 0.0 && b.actualAmount >= 0.0
  }

  predicate IsOverBudget(b: BudgetEntry)
  {
    b.actualAmount > b.plannedAmount
  }

  /** actual - planned to two decimals: never negative when over budget,
      never positive when under, zero when on plan. */
  function Variance(b: BudgetEntry): (r: real)
    ensures IsOverBudget(b) ==> r >= 0.0
    ensures b.actualAmount < b.plannedAmount ==> r <= 0.0
    ensures b.actualAmount == b.plannedAmount ==> r == 0.0
    ensures b.actualAmount - b.plannedAmount - 0.005 <= r <= b.actualAmount - b.plannedAmount + 0.005
  {
    var x := b.actualAmount - b.plannedAmount;
    RoundError(x, 2);
    ScaleOf(2);
    RoundSign(x, 2);
    Round(x, 2)
  }

  /** The rounded variance as a percentage of the plan, to two decimals; 0
      for a zero plan, and with a positive plan its sign follows the
      variance. */
  function VariancePercentage(b: BudgetEntry): (r: real)
    ensures b.plannedAmount == 0.0 ==> r == 0.0
    ensures b.plannedAmount != 0.0 ==>
      Variance(b) / b.plannedAmount * 100.0 - 0.005 <= r <= Variance(b) / b.plannedAmount * 100.0 + 0.005
    ensures b.plannedAmount > 0.0 && IsOverBudget(b) ==> r >= 0.0
    ensures b.plannedAmount > 0.0 && b.actualAmount <= b.plannedAmount ==> r <= 0.0
  {
    if b.plannedAmount == 0.0 then 0.0
    else
      var x := Variance(b) / b.plannedAmount * 100.0;
      assert b.plannedAmount > 0.0 && Variance(b) >= 0.0 ==> x >= 0.0;
      assert b.plannedAmount > 0.0 && Variance(b) <= 0.0 ==> x <= 0.0;
      RoundSign(x, 2);
      RoundError(x, 2);
      ScaleOf(2);
      Round(x, 2)
  }

  // ---------------------------------------------------------------------
  // risk entries
  // ---------------------------------------------------------------------

  datatype RiskEntry = RiskEntry(
    id: string,
    projectId: string,
    riskDescription: string,
    probability: int,
    impact: int,
    mitigation: string,
    status: RiskStatus)

  /** The field bounds: probability and impact each in 1..5. */
  predicate ValidRisk(r: RiskEntry)
  {
    1 <= r.probability <= 5 && 1 <= r.impact <= 5
  }

  /** probability x impact, in 1..25 for a valid entry. */
  function RiskScore(r: RiskEntry): (s: int)
    ensures ValidRisk(r) ==> 1 <= s <= 25
  {
    assert ValidRisk(r) ==> 1 <= r.probability * r.impact <= 25 by {
      if ValidRisk(r) {
        assert r.probability * r.impact <= 5 * r.impact <= 25;
        assert r.probability * r.impact >= r.impact >= 1;
      }
    }
    r.probability * r.impact
  }

  /** The four bands: critical from 15, high from 10, medium from 5, low
      below; the bands are disjoint and cover every score. */
  function RiskLevel(r: RiskEntry): (level: string)
    ensures level == "critical" <==> RiskScore(r) >= 15
    ensures level == "high" <==> 10 <= RiskScore(r) < 15
    ensures level == "medium" <==> 5 <= RiskScore(r) < 10
    ensures level == "low" <==> RiskScore(r) < 5
  {
    var score := RiskScore(r);
    if score >= 15 then "critical"
    else if score >= 10 then "high"
    else if score >= 5 then "medium"
    else "low"
  }

  /** A valid risk is critical only when both probability and impact are
      at least 3. */
  lemma CriticalNeedsBothHigh(r: RiskEntry)
    requires ValidRisk(r) && RiskLevel(r) == "critical"
    ensures r.probability >= 3 && r.impact >= 3
  {
    SmallFactorBound(r.probability, r.impact);
  }

  lemma SmallFactorBound(p: int, i: int)
    requires 1 <= p <= 5 && 1 <= i <= 5
    ensures p <= 2 ==> p * i <= 10
    ensures i <= 2 ==> p * i <= 10
  {
    if p <= 2 {
      assert p * i <= 2 * i;
    }
    if i <= 2 {
      assert p * i <= p * 2;
    }
  }

  // ---------------------------------------------------------------------
  // field accessors, named so they can be passed as keys and amounts
  // ---------------------------------------------------------------------

  function ProjectIdOf(p: Project): string { p.id }
  function StatusOf(p: Project): ProjectStatus { p.status }
  function PriorityOf(p: Project): Priority { p.priority }
  function KpiProject(k: Kpi): string { k.projectId }
  function KpiTrend(k: Kpi): Trend { k.trend }
  function BudgetProject(b: BudgetEntry): string { b.projectId }
  function BudgetCategoryOf(b: BudgetEntry): BudgetCategory { b.category }
  function PlannedAmount(b: BudgetEntry): real { b.plannedAmount }
  function ActualAmount(b: BudgetEntry): real { b.actualAmount }
  function RiskStatusOf(r: RiskEntry): RiskStatus { r.status }

}
