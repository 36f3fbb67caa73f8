/** The portfolio health score: four sub-scores (status mix, risk profile,
    budget adherence, KPI achievement), each with its own default for no
    data, weighted equally into an overall score, plus one sentence per
    sub-score. */
module Health {

  import opened Numeric
  import opened Seqs
  import opened Models

  function Min(a: real, b: real): real { if a <= b then a else b }
  function Max(a: real, b: real): real { if a >= b then a else b }

  // ---------------------------------------------------------------------
  // status distribution
  // ---------------------------------------------------------------------

  /** Points per status: production 100 down to retired 30. */
  function StatusPoints(s: ProjectStatus): (r: real)
    ensures 30.0 <= r <= 100.0
    ensures r == 100.0 <==> s == Production
    ensures r == 30.0 <==> s == Retired
  {
    match s
    case Production => 100.0
    case Testing => 80.0
    case Development => 70.0
    case Planning => 50.0
    case Retired => 30.0
  }

  function ProjectPoints(p: Project): real { StatusPoints(p.status) }

  /** Mean status points; 50 for no projects. */
  function ScoreStatus(projects: seq<Project>): (r: real)
    ensures 30.0 <= r <= 100.0
    ensures projects == [] ==> r == 50.0
  {
    if projects == [] then 50.0
    else
      MeanAtLeast(projects, ProjectPoints, 30.0);
      MeanAtMost(projects, ProjectPoints, 100.0);
      Mean(projects, ProjectPoints)
  }

  /** A portfolio entirely in production scores exactly 100. */
  lemma AllProductionScoresFull(projects: seq<Project>)
    requires projects != []
    requires forall p :: p in projects ==> p.status == Production
    ensures ScoreStatus(projects) == 100.0
  {
    MeanAtLeast(projects, ProjectPoints, 100.0);
  }

  // ---------------------------------------------------------------------
  // risk profile
  // ---------------------------------------------------------------------

  predicate Unresolved(r: RiskEntry) { r.status != Resolved }

  function ScoreReal(r: RiskEntry): real { RiskScore(r) as real }

  /** The linear remap of a mean risk score: 1 gives 100, 25 gives 0. */
  function RiskRemap(avg: real): real
  {
    100.0 - (avg - 1.0) * (100.0 / 24.0)
  }

  /** 80 for no risks, 95 when every risk is resolved, otherwise the remapped
      mean score of the unresolved risks clamped to [0, 100]. */
  function ScoreRisks(risks: seq<RiskEntry>): (r: real)
    ensures 0.0 <= r <= 100.0
    ensures risks == [] ==> r == 80.0
  {
    if risks == [] then 80.0
    else
      var open := Filter(risks, Unresolved);
      if open == [] then 95.0
      else Max(0.0, Min(100.0, RiskRemap(Mean(open, ScoreReal))))
  }

  /** A risk list whose every entry is resolved scores 95. */
  lemma AllResolvedScores95(risks: seq<RiskEntry>)
    requires risks != []
    requires forall r :: r in risks ==> r.status == Resolved
    ensures ScoreRisks(risks) == 95.0
  {
    FilterNone(risks, Unresolved);
  }

  /** The risk score falls to 0 when every unresolved risk has the worst
      score 25. */
  lemma WorstRisksScoreZero(risks: seq<RiskEntry>)
    requires exists r :: r in risks && Unresolved(r)
    requires forall r :: r in risks && Unresolved(r) ==> RiskScore(r) == 25
    ensures ScoreRisks(risks) == 0.0
  {
    var open := Filter(risks, Unresolved);
    var x :| x in risks && Unresolved(x);
    FilterMultiplicity(risks, Unresolved, x);
    assert x in open;
    MeanAtLeast(open, ScoreReal, 25.0);
    MeanAtMost(open, ScoreReal, 25.0);
  }

  /** With valid entries the clamp never bites: the score is exactly the
      remapped mean. */
  lemma ValidRisksNeedNoClamp(risks: seq<RiskEntry>)
    requires forall r :: r in risks ==> ValidRisk(r)
    requires Filter(risks, Unresolved) != []
    ensures ScoreRisks(risks) == RiskRemap(Mean(Filter(risks, Unresolved), ScoreReal))
  {
    var open := Filter(risks, Unresolved);
    MeanAtLeast(open, ScoreReal, 1.0);
    MeanAtMost(open, ScoreReal, 25.0);
  }

  // ---------------------------------------------------------------------
  // budget adherence
  // ---------------------------------------------------------------------

  /** The piecewise score of a total variance percentage: at or under plan
      90 plus half the saving (at most 100), then 85, 70 and 55 up to 5, 10
      and 20 percent over, then 40 less a point per further percent, never
      below 0. */
  function BudgetScoreFor(v: real): (r: real)
    ensures 0.0 <= r <= 100.0
    ensures v == 0.0 ==> r == 90.0
    ensures v <= 0.0 <==> r >= 90.0
  {
    if v <= 0.0 then Min(100.0, 90.0 + (-v) * 0.5)
    else if v <= 5.0 then 85.0
    else if v <= 10.0 then 70.0
    else if v <= 20.0 then 55.0
    else Max(0.0, 40.0 - (v - 20.0))
  }

  /** Overspending more never raises the budget score. */
  lemma BudgetScoreMonotone(a: real, b: real)
    requires a <= b
    ensures BudgetScoreFor(b) <= BudgetScoreFor(a)
  {
  }

  /** (actual - planned) / planned * 100 over all entries. */
  function TotalVariancePct(budgets: seq<BudgetEntry>): real
    requires SumOf(budgets, PlannedAmount) != 0.0
  {
    (SumOf(budgets, ActualAmount) - SumOf(budgets, PlannedAmount)) / SumOf(budgets, PlannedAmount) * 100.0
  }

  /** 75 for no entries or a zero total plan, otherwise the piecewise score
      of the total variance percentage. */
  function ScoreBudget(budgets: seq<BudgetEntry>): (r: real)
    ensures 0.0 <= r <= 100.0
    ensures budgets == [] || SumOf(budgets, PlannedAmount) == 0.0 ==> r == 75.0
    ensures budgets != [] && SumOf(budgets, PlannedAmount) != 0.0 ==> r == BudgetScoreFor(TotalVariancePct(budgets))
  {
    if budgets == [] then 75.0
    else if SumOf(budgets, PlannedAmount) == 0.0 then 75.0
    else BudgetScoreFor(TotalVariancePct(budgets))
  }

  /** Spending no more than a positive total plan scores at least 90. */
  lemma WithinPlanScoresHigh(budgets: seq<BudgetEntry>)
    requires SumOf(budgets, PlannedAmount) > 0.0
    requires SumOf(budgets, ActualAmount) <= SumOf(budgets, PlannedAmount)
    ensures ScoreBudget(budgets) >= 90.0
  {
    var planned := SumOf(budgets, PlannedAmount);
    var diff := SumOf(budgets, ActualAmount) - planned;
    assert diff / planned <= 0.0;
  }

  // ---------------------------------------------------------------------
  // KPI achievement
  // ---------------------------------------------------------------------

  /** min(achievement_rate, 120) */
  function CappedRate(k: Kpi): real { Min(AchievementRate(k), 120.0) }

  /** 60 for no KPIs, otherwise the mean capped rate, at most 100. KPI values
      are not constrained in sign, so the score is non-negative only when
      every rate is. */
  function ScoreKpis(kpis: seq<Kpi>): (r: real)
    ensures r <= 100.0
    ensures kpis == [] ==> r == 60.0
    ensures (forall k :: k in kpis ==> AchievementRate(k) >= 0.0) ==> r >= 0.0
  {
    if kpis == [] then 60.0
    else
      assert (forall k :: k in kpis ==> AchievementRate(k) >= 0.0) ==> Mean(kpis, CappedRate) >= 0.0 by {
        if forall k :: k in kpis ==> AchievementRate(k) >= 0.0 {
          MeanAtLeast(kpis, CappedRate, 0.0);
        }
      }
      Min(100.0, Mean(kpis, CappedRate))
  }

  /** Every KPI at or above 100 percent gives the full KPI score. */
  lemma AllOnTargetKpisScoreFull(kpis: seq<Kpi>)
    requires kpis != []
    requires forall k :: k in kpis ==> AchievementRate(k) >= 100.0
    ensures ScoreKpis(kpis) == 100.0
  {
    MeanAtLeast(kpis, CappedRate, 100.0);
  }

  // ---------------------------------------------------------------------
  // detail sentences
  // ---------------------------------------------------------------------

  datatype Band = Strong | Middling | Weak

  /** The three bands every detail sentence uses: from 80, from 60, below. */
  function BandOf(score: real): (b: Band)
    ensures b == Strong <==> score >= 80.0
    ensures b == Middling <==> 60.0 <= score < 80.0
    ensures b == Weak <==> score < 60.0
  {
    if score >= 80.0 then Strong else if score >= 60.0 then Middling else Weak
  }

  function StatusDetail(score: real): string
  {
    match BandOf(score)
    case Strong => "Strong project pipeline with active production systems"
    case Middling => "Healthy mix of projects across lifecycle stages"
    case Weak => "Portfolio needs attention - many projects in early or retired stages"
  }

  function RiskDetail(score: real): string
  {
    match BandOf(score)
    case Strong => "Risk profile is well managed"
    case Middling => "Some risks require attention"
    case Weak => "Significant risks need immediate mitigation"
  }

  function BudgetDetail(score: real): string
  {
    match BandOf(score)
    case Strong => "Budget is on track or under planned spending"
    case Middling => "Minor budget overruns detected"
    case Weak => "Significant budget overruns require corrective action"
  }

  function KpiDetail(score: real): string
  {
    match BandOf(score)
    case Strong => "KPIs are largely on target"
    case Middling => "Some KPIs are below target"
    case Weak => "Multiple KPIs significantly below target"
  }

  /* Each detail sentence names its band and nothing finer: two scores get
     the same sentence exactly when they fall in the same band. */

  lemma StatusDetailIdentifiesBand(a: real, b: real)
    ensures StatusDetail(a) == StatusDetail(b) <==> BandOf(a) == BandOf(b)
  {
  }

  lemma RiskDetailIdentifiesBand(a: real, b: real)
    ensures RiskDetail(a) == RiskDetail(b) <==> BandOf(a) == BandOf(b)
  {
  }

  lemma BudgetDetailIdentifiesBand(a: real, b: real)
    ensures BudgetDetail(a) == BudgetDetail(b) <==> BandOf(a) == BandOf(b)
  {
  }

  lemma KpiDetailIdentifiesBand(a: real, b: real)
    ensures KpiDetail(a) == KpiDetail(b) <==> BandOf(a) == BandOf(b)
  {
  }

  // ---------------------------------------------------------------------
  // the combined score
  // ---------------------------------------------------------------------

  datatype Details = Details(status: string, risk: string, budget: string, kpi: string)

  datatype HealthScore = HealthScore(
    overallScore: real,
    statusScore: real,
    riskScore: real,
    budgetScore: real,
    kpiScore: real,
    details: Details)

  /** Rounding to one decimal moves a number by at most 0.05. */
  lemma RoundToTenth(x: real)
    ensures x - 0.05 <= Round(x, 1) <= x + 0.05
  {
    ScaleOf(1);
    RoundError(x, 1);
  }

  /** The equal-weight mean of the four sub-scores (25% each), to one decimal,
      with each sub-score also rounded to one decimal. The sentences are chosen from the
      unrounded sub-scores. */
  function ComputeHealth(projects: seq<Project>, risks: seq<RiskEntry>,
                         budgets: seq<BudgetEntry>, kpis: seq<Kpi>): (h: HealthScore)
    ensures 30.0 <= h.statusScore <= 100.0
    ensures 0.0 <= h.riskScore <= 100.0
    ensures 0.0 <= h.budgetScore <= 100.0
    ensures h.kpiScore <= 100.0
    ensures h.overallScore <= 100.0
    ensures (forall k :: k in kpis ==> AchievementRate(k) >= 0.0) ==> h.kpiScore >= 0.0 && h.overallScore >= 0.0
    ensures h.details == Details(StatusDetail(ScoreStatus(projects)), RiskDetail(ScoreRisks(risks)),
                                 BudgetDetail(ScoreBudget(budgets)), KpiDetail(ScoreKpis(kpis)))
    ensures var m := ScoreStatus(projects) * 0.25 + ScoreRisks(risks) * 0.25
                   + ScoreBudget(budgets) * 0.25 + ScoreKpis(kpis) * 0.25;
      m - 0.05 <= h.overallScore <= m + 0.05
    ensures ScoreStatus(projects) - 0.05 <= h.statusScore <= ScoreStatus(projects) + 0.05
    ensures ScoreRisks(risks) - 0.05 <= h.riskScore <= ScoreRisks(risks) + 0.05
    ensures ScoreBudget(budgets) - 0.05 <= h.budgetScore <= ScoreBudget(budgets) + 0.05
    ensures ScoreKpis(kpis) - 0.05 <= h.kpiScore <= ScoreKpis(kpis) + 0.05
  {
    var s := ScoreStatus(projects);
    var r := ScoreRisks(risks);
    var b := ScoreBudget(budgets);
    var k := ScoreKpis(kpis);
    var x := s * 0.25 + r * 0.25 + b * 0.25 + k * 0.25;
    RoundAtLeast(s, 1, 30);
    RoundAtMost(s, 1, 100);
    RoundAtLeast(r, 1, 0);
    RoundAtMost(r, 1, 100);
    RoundAtLeast(b, 1, 0);
    RoundAtMost(b, 1, 100);
    RoundAtMost(k, 1, 100);
    RoundAtMost(x, 1, 100);
    RoundSign(k, 1);
    RoundSign(x, 1);
    RoundToTenth(x);
    RoundToTenth(s);
    RoundToTenth(r);
    RoundToTenth(b);
    RoundToTenth(k);
    HealthScore(Round(x, 1), Round(s, 1), Round(r, 1), Round(b, 1), Round(k, 1),
                Details(StatusDetail(s), RiskDetail(r), BudgetDetail(b), KpiDetail(k)))
  }

  /** With no data at all every default applies: 50, 80, 75 and 60, whose
      mean 66.25 rounds half-to-even to 66.2. */
  lemma EmptyPortfolioHealth()
    ensures ComputeHealth([], [], [], []).statusScore == 50.0
    ensures ComputeHealth([], [], [], []).riskScore == 80.0
    ensures ComputeHealth([], [], [], []).budgetScore == 75.0
    ensures ComputeHealth([], [], [], []).kpiScore == 60.0
    ensures ComputeHealth([], [], [], []).overallScore == 66.2
  {
    RoundWhole(50, 1);
    RoundWhole(80, 1);
    RoundWhole(75, 1);
    RoundWhole(60, 1);
    assert 50.0 * 0.25 + 80.0 * 0.25 + 75.0 * 0.25 + 60.0 * 0.25 == 66.25;
    RoundTieToEven();
  }

  /** A portfolio entirely in production has the full status score. */
  lemma AllProductionHealth(projects: seq<Project>, risks: seq<RiskEntry>,
                            budgets: seq<BudgetEntry>, kpis: seq<Kpi>)
    requires projects != []
    requires forall p :: p in projects ==> p.status == Production
    ensures ComputeHealth(projects, risks, budgets, kpis).statusScore == 100.0
    ensures ComputeHealth(projects, risks, budgets, kpis).details.status
         == "Strong project pipeline with active production systems"
  {
    AllProductionScoresFull(projects);
    RoundWhole(100, 1);
  }

}
