/** Return on investment per project and across the portfolio: spend is the
    sum of actual budget amounts, the return is either a monthly estimate
    times the months since start or the spend scaled by the mean KPI
    achievement. */
module Roi {

  import opened Common
  import opened Numeric
  import opened Seqs
  import opened Models

  datatype RoiResult = RoiResult(
    projectId: string,
    projectName: string,
    totalInvestment: real,
    estimatedReturn: real,
    roiPercentage: real,
    paybackMonths: Option<real>)

  /** Total actual spend over the given entries. */
  function Investment(budgets: seq<BudgetEntry>): real
  {
    SumOf(budgets, ActualAmount)
  }

  /** Non-negative actual amounts give a non-negative spend. */
  lemma InvestmentNonNegative(budgets: seq<BudgetEntry>)
    requires forall b :: b in budgets ==> ValidBudget(b)
    ensures Investment(budgets) >= 0.0
  {
    SumAtLeast(budgets, ActualAmount, 0.0);
  }

  /** max(1, days since start / 30), a true division: never below one month. */
  function MonthsActive(p: Project, today: Day): (m: real)
    ensures m >= 1.0
    ensures m >= (today - p.startDate) as real / 30.0
    ensures m == 1.0 || m == (today - p.startDate) as real / 30.0
  {
    var months := (today - p.startDate) as real / 30.0;
    if 1.0 >= months then 1.0 else months
  }

  /** The unrounded return: a positive monthly estimate wins; otherwise the
      spend scaled by the mean achievement rate when there are KPIs, and 0
      when there are none. */
  function EstimatedReturn(p: Project, budgets: seq<BudgetEntry>, kpis: seq<Kpi>,
                           estimate: real, today: Day): (r: real)
    ensures estimate > 0.0 ==> r >= estimate
    ensures estimate <= 0.0 && kpis == [] ==> r == 0.0
    ensures estimate <= 0.0 && kpis != [] ==> r == Investment(budgets) * (Mean(kpis, AchievementRate) / 100.0)
  {
    if estimate > 0.0 then
      var m := MonthsActive(p, today);
      assert estimate * m >= estimate * 1.0;
      estimate * m
    else if kpis != [] then Investment(budgets) * (Mean(kpis, AchievementRate) / 100.0)
    else 0.0
  }

  /** The ROI of one project. A zero (or negative) spend gives ROI 0; the
      payback period exists exactly when both the monthly estimate and the
      spend are positive, and is then spend / estimate to one decimal. */
  function ComputeRoi(p: Project, budgets: seq<BudgetEntry>, kpis: seq<Kpi>,
                      estimate: real, today: Day): (r: RoiResult)
    ensures r.projectId == p.id && r.projectName == p.name
    ensures r.paybackMonths.Some? <==> estimate > 0.0 && Investment(budgets) > 0.0
    ensures r.paybackMonths.Some? ==>
      Investment(budgets) / estimate - 0.05 <= r.paybackMonths.value <= Investment(budgets) / estimate + 0.05
    ensures Investment(budgets) <= 0.0 ==> r.roiPercentage == 0.0
    ensures Investment(budgets) > 0.0 ==>
      (EstimatedReturn(p, budgets, kpis, estimate, today) >= Investment(budgets) ==> r.roiPercentage >= 0.0) &&
      (EstimatedReturn(p, budgets, kpis, estimate, today) <= Investment(budgets) ==> r.roiPercentage <= 0.0)
    ensures Investment(budgets) > 0.0 ==>
      var x := (EstimatedReturn(p, budgets, kpis, estimate, today) - Investment(budgets)) / Investment(budgets) * 100.0;
      x - 0.005 <= r.roiPercentage <= x + 0.005
    ensures Investment(budgets) - 0.005 <= r.totalInvestment <= Investment(budgets) + 0.005
    ensures EstimatedReturn(p, budgets, kpis, estimate, today) - 0.005 <= r.estimatedReturn
         <= EstimatedReturn(p, budgets, kpis, estimate, today) + 0.005
    ensures budgets == [] && kpis == [] && estimate <= 0.0 ==> r == RoiResult(p.id, p.name, 0.0, 0.0, 0.0, None)
  {
    var invest := Investment(budgets);
    var ret := EstimatedReturn(p, budgets, kpis, estimate, today);
    var roi :=
      if invest > 0.0 then
        var x := (ret - invest) / invest * 100.0;
        assert ret >= invest ==> x >= 0.0;
        assert ret <= invest ==> x <= 0.0;
        RoundSign(x, 2);
        RoundError(x, 2);
        Round(x, 2)
      else 0.0;
    var payback :=
      if estimate > 0.0 && invest > 0.0 then
        RoundError(invest / estimate, 1);
        ScaleOf(1);
        Some(Round(invest / estimate, 1))
      else None;
    RoundError(invest, 2);
    RoundError(ret, 2);
    ScaleOf(2);
    RoundWhole(0, 2);
    RoiResult(p.id, p.name, Round(invest, 2), Round(ret, 2), roi, payback)
  }

  /** Without a monthly estimate the clock does not matter. */
  lemma RoiIgnoresClockWithoutEstimate(p: Project, budgets: seq<BudgetEntry>, kpis: seq<Kpi>,
                                       estimate: real, today1: Day, today2: Day)
    requires estimate <= 0.0
    ensures ComputeRoi(p, budgets, kpis, estimate, today1) == ComputeRoi(p, budgets, kpis, estimate, today2)
  {
  }

  /** Without a monthly estimate and with KPIs and spend, the ROI is the mean
      achievement rate minus 100, to two decimals. */
  lemma RoiFromKpis(p: Project, budgets: seq<BudgetEntry>, kpis: seq<Kpi>, estimate: real, today: Day)
    requires estimate <= 0.0 && kpis != [] && Investment(budgets) > 0.0
    ensures ComputeRoi(p, budgets, kpis, estimate, today).roiPercentage == Round(Mean(kpis, AchievementRate) - 100.0, 2)
  {
    var invest := Investment(budgets);
    var m := Mean(kpis, AchievementRate);
    var ret := EstimatedReturn(p, budgets, kpis, estimate, today);
    assert ret == invest * (m / 100.0);
    ScaledGain(invest, m);
    assert (ret - invest) / invest * 100.0 == m - 100.0;
  }

  /** Spending `invest` and getting back invest * m / 100 is a gain of
      m - 100 percent. */
  lemma ScaledGain(invest: real, m: real)
    requires invest > 0.0
    ensures (invest * (m / 100.0) - invest) / invest * 100.0 == m - 100.0
  {
    var q := m / 100.0 - 1.0;
    var y := (invest * (m / 100.0) - invest) / invest;
    assert invest * (m / 100.0) - invest == invest * q;
    assert y * invest == invest * q;
    assert (y - q) * invest == 0.0;
  }

  /** compute_portfolio_roi: one result per project, in input order, each
      computed from that project's own budgets and KPIs only, with no
      monthly estimate. */
  method PortfolioRoi(projects: seq<Project>, allBudgets: seq<BudgetEntry>, allKpis: seq<Kpi>)
    returns (results: seq<RoiResult>)
    ensures |results| == |projects|
    ensures forall i :: 0 <= i < |projects| ==>
      results[i] == ComputeRoi(projects[i], WithKey(allBudgets, BudgetProject, projects[i].id),
                               WithKey(allKpis, KpiProject, projects[i].id), 0.0, 0)
    ensures forall i :: 0 <= i < |projects| ==>
      results[i].projectId == projects[i].id && results[i].projectName == projects[i].name
  {
    results := [];
    for i := 0 to |projects|
      invariant |results| == i
      invariant forall j :: 0 <= j < i ==>
        results[j] == ComputeRoi(projects[j], WithKey(allBudgets, BudgetProject, projects[j].id),
                                 WithKey(allKpis, KpiProject, projects[j].id), 0.0, 0)
    {
      var project := projects[i];
      var projBudgets := WithKey(allBudgets, BudgetProject, project.id);
      var projKpis := WithKey(allKpis, KpiProject, project.id);
      // the clock is never read without an estimate (RoiIgnoresClockWithoutEstimate)
      var result := ComputeRoi(project, projBudgets, projKpis, 0.0, 0);
      results := results + [result];
    }
  }
}
