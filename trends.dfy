/** KPI trend analysis: grouping by trend direction, the underperformers
    below a threshold in ascending order of achievement, counts per trend
    and the best performers in descending order. */
module Trends {

  import opened Seqs
  import opened Models

  /** The three lists of analyze(), keyed "up", "down" and "stable". */
  datatype TrendGroups = TrendGroups(up: seq<Kpi>, down: seq<Kpi>, stable: seq<Kpi>)

  function Group(g: TrendGroups, t: Trend): seq<Kpi>
  {
    match t
    case Up => g.up
    case Down => g.down
    case Stable => g.stable
  }

  /** The groups analyze() builds: each trend's KPIs in input order. */
  function GroupsOf(kpis: seq<Kpi>): TrendGroups
  {
    TrendGroups(WithKey(kpis, KpiTrend, Up), WithKey(kpis, KpiTrend, Down), WithKey(kpis, KpiTrend, Stable))
  }

  /** analyze(): appends each KPI to the list of its trend. */
  method Analyze(kpis: seq<Kpi>) returns (g: TrendGroups)
    ensures g == GroupsOf(kpis)
  {
    var up, down, stable := [], [], [];
    for i := 0 to |kpis|
      invariant up == WithKey(kpis[..i], KpiTrend, Up)
      invariant down == WithKey(kpis[..i], KpiTrend, Down)
      invariant stable == WithKey(kpis[..i], KpiTrend, Stable)
    {
      var k := kpis[i];
      assert kpis[..i + 1] == kpis[..i] + [k];
      WithKeySnoc(kpis[..i], k, KpiTrend, Up);
      WithKeySnoc(kpis[..i], k, KpiTrend, Down);
      WithKeySnoc(kpis[..i], k, KpiTrend, Stable);
      match k.trend
      case Up => up := up + [k];
      case Down => down := down + [k];
      case Stable => stable := stable + [k];
    }
    assert kpis[..|kpis|] == kpis;
    g := TrendGroups(up, down, stable);
  }

  /** The grouping is a partition: every KPI lands in the group of its own
      trend and only there, nothing is lost or duplicated, and the group
      sizes add up to the input size. */
  lemma AnalyzePartition(kpis: seq<Kpi>)
    ensures forall k :: k in kpis ==> k in Group(GroupsOf(kpis), k.trend)
    ensures forall t: Trend, k :: k in Group(GroupsOf(kpis), t) ==> k in kpis && k.trend == t
    ensures multiset(GroupsOf(kpis).up) + multiset(GroupsOf(kpis).down) + multiset(GroupsOf(kpis).stable)
         == multiset(kpis)
    ensures |GroupsOf(kpis).up| + |GroupsOf(kpis).down| + |GroupsOf(kpis).stable| == |kpis|
  {
    GroupsCover(kpis);
    var g := GroupsOf(kpis);
    assert |g.up| + |g.down| + |g.stable| == |kpis| by {
      GroupsMultiset(kpis);
      assert |multiset(g.up) + multiset(g.down) + multiset(g.stable)| == |multiset(kpis)|;
    }
    GroupsMultiset(kpis);
  }

  lemma GroupsCover(kpis: seq<Kpi>)
    ensures forall k :: k in kpis ==> k in Group(GroupsOf(kpis), k.trend)
  {
    forall k | k in kpis ensures k in Group(GroupsOf(kpis), k.trend) {
      WithKeyMember(kpis, KpiTrend, k);
    }
  }

  lemma GroupsMultiset(kpis: seq<Kpi>)
    ensures multiset(GroupsOf(kpis).up) + multiset(GroupsOf(kpis).down) + multiset(GroupsOf(kpis).stable)
         == multiset(kpis)
  {
    var u, d, s := multiset(GroupsOf(kpis).up), multiset(GroupsOf(kpis).down), multiset(GroupsOf(kpis).stable);
    forall x ensures (u + d + s)[x] == multiset(kpis)[x] {
      WithKeyMultiplicity(kpis, KpiTrend, Up, x);
      WithKeyMultiplicity(kpis, KpiTrend, Down, x);
      WithKeyMultiplicity(kpis, KpiTrend, Stable, x);
      assert (u + d + s)[x] == u[x] + d[x] + s[x];
      match x.trend
      case Up => assert d[x] == 0 && s[x] == 0;
      case Down => assert u[x] == 0 && s[x] == 0;
      case Stable => assert u[x] == 0 && d[x] == 0;
    }
    assert u + d + s == multiset(kpis);
  }

  /** get_trend_summary(): the size of each group. */
  datatype TrendCounts = TrendCounts(up: nat, down: nat, stable: nat)

  function TrendSummary(kpis: seq<Kpi>): (c: TrendCounts)
    ensures c.up == |GroupsOf(kpis).up| && c.down == |GroupsOf(kpis).down| && c.stable == |GroupsOf(kpis).stable|
    ensures c.up + c.down + c.stable == |kpis|
  {
    var g := GroupsOf(kpis);
    AnalyzePartition(kpis);
    TrendCounts(|g.up|, |g.down|, |g.stable|)
  }

  // ---------------------------------------------------------------------
  // underperformers
  // ---------------------------------------------------------------------

  /** The condition k.achievement_rate < threshold. */
  function IsBelow(threshold: real): Kpi -> bool
  {
    k => AchievementRate(k) < threshold
  }

  /** Every KPI kept by the filter is an input KPI below the threshold. */
  lemma BelowKept(kpis: seq<Kpi>, threshold: real)
    ensures forall k :: k in Filter(kpis, IsBelow(threshold)) ==> k in kpis && AchievementRate(k) < threshold
  {
    forall k | k in Filter(kpis, IsBelow(threshold))
      ensures k in kpis && AchievementRate(k) < threshold
    {
      assert IsBelow(threshold)(k);
    }
  }

  /** Filtering on the rate keeps, of the KPIs with a given rate, all or
      none, and in input order. */
  lemma {:induction false} BelowWithRate(kpis: seq<Kpi>, threshold: real, v: real)
    ensures WithKey(Filter(kpis, IsBelow(threshold)), AchievementRate, v)
         == if v < threshold then WithKey(kpis, AchievementRate, v) else []
  {
    if kpis != [] {
      var h := if AchievementRate(kpis[0]) < threshold then [kpis[0]] else [];
      BelowWithRate(kpis[1..], threshold, v);
      WithKeyAppend(h, Filter(kpis[1..], IsBelow(threshold)), AchievementRate, v);
      WithKeyCons(kpis[0], kpis[1..], AchievementRate, v);
      assert kpis == [kpis[0]] + kpis[1..];
      if h != [] {
        WithKeyCons(kpis[0], [], AchievementRate, v);
        assert h == [kpis[0]] + [];
      }
    }
  }

  /** get_underperforming_kpis(): the KPIs below the threshold, by ascending
      achievement rate. */
  function Underperforming(kpis: seq<Kpi>, threshold: real): (r: seq<Kpi>)
    ensures |r| <= |kpis|
    ensures forall k :: k in r ==> k in kpis && AchievementRate(k) < threshold
    ensures SortedBy(r, AchievementRate)
  {
    var under := Filter(kpis, IsBelow(threshold));
    BelowKept(kpis, threshold);
    SortBySorted(under, AchievementRate);
    var r := SortBy(under, AchievementRate);
    assert forall k :: k in r ==> k in multiset(under);
    r
  }

  /** The result holds exactly the KPIs below the threshold, each as often
      as in the input. */
  lemma UnderperformingExact(kpis: seq<Kpi>, threshold: real, x: Kpi)
    ensures multiset(Underperforming(kpis, threshold))[x]
         == if AchievementRate(x) < threshold then multiset(kpis)[x] else 0
  {
    FilterMultiplicity(kpis, IsBelow(threshold), x);
  }

  /** The sort is stable: KPIs with equal rates keep their input order. */
  lemma UnderperformingStable(kpis: seq<Kpi>, threshold: real, v: real)
    ensures WithKey(Underperforming(kpis, threshold), AchievementRate, v)
         == if v < threshold then WithKey(kpis, AchievementRate, v) else []
  {
    SortByStable(Filter(kpis, IsBelow(threshold)), AchievementRate, v);
    BelowWithRate(kpis, threshold, v);
  }

  // ---------------------------------------------------------------------
  // top performers
  // ---------------------------------------------------------------------

  /** The sort key of sorted(..., reverse=True): ascending in the negated
      rate is descending in the rate, and ties keep their input order. */
  function NegRate(k: Kpi): real { -AchievementRate(k) }

  function ByRateDescending(kpis: seq<Kpi>): (r: seq<Kpi>)
    ensures multiset(r) == multiset(kpis)
    ensures forall i, j :: 0 <= i < j < |r| ==> AchievementRate(r[i]) >= AchievementRate(r[j])
  {
    SortBySorted(kpis, NegRate);
    SortBy(kpis, NegRate)
  }

  /** get_top_performers(): the first `limit` KPIs by descending rate (a
      negative limit drops that many from the end, like a slice). */
  function TopPerformers(kpis: seq<Kpi>, limit: int): (r: seq<Kpi>)
    ensures limit >= 0 ==> |r| == if limit <= |kpis| then limit else |kpis|
    ensures forall k :: k in r ==> k in kpis
    ensures forall i, j :: 0 <= i < j < |r| ==> AchievementRate(r[i]) >= AchievementRate(r[j])
  {
    var sorted := ByRateDescending(kpis);
    var r := Take(sorted, limit);
    assert forall k :: k in r ==> k in kpis by {
      forall k | k in r ensures k in kpis {
        var n :| 0 <= n < |r| && r[n] == k;
        assert sorted[n] == k;
        assert k in multiset(sorted);
      }
    }
    assert forall i :: 0 <= i < |r| ==> r[i] == sorted[i];
    r
  }

  /** Nothing left out beats anything kept: every KPI of the input not in
      the result has a rate no higher than every KPI in it. */
  lemma TopPerformersAreBest(kpis: seq<Kpi>, limit: int, x: Kpi, y: Kpi)
    requires x in TopPerformers(kpis, limit)
    requires y in multiset(kpis) - multiset(TopPerformers(kpis, limit))
    ensures AchievementRate(x) >= AchievementRate(y)
  {
    var sorted := ByRateDescending(kpis);
    var r := TopPerformers(kpis, limit);
    var n := |r|;
    assert r == sorted[..n];
    LeftOutOfPrefix(sorted, n, y);
    var i :| 0 <= i < n && r[i] == x;
    var j :| 0 <= j < |sorted[n..]| && sorted[n..][j] == y;
    assert sorted[i] == x && sorted[n + j] == y;
  }

  lemma RateKeysAgree(s: seq<Kpi>, v: real)
    ensures WithKey(s, NegRate, -v) == WithKey(s, AchievementRate, v)
  {
    WithKeyCongruent(s, NegRate, -v, AchievementRate, v);
  }

  /** Among KPIs with the same rate, the result keeps a prefix of them in
      input order. */
  lemma TopPerformersStable(kpis: seq<Kpi>, limit: int, v: real)
    ensures WithKey(TopPerformers(kpis, limit), AchievementRate, v) <= WithKey(kpis, AchievementRate, v)
  {
    var sorted := ByRateDescending(kpis);
    var r := TopPerformers(kpis, limit);
    assert WithKey(r, AchievementRate, v) <= WithKey(sorted, AchievementRate, v) by {
      assert r == sorted[..|r|];
      WithKeyPrefix(sorted, |r|, AchievementRate, v);
    }
    assert WithKey(sorted, AchievementRate, v) == WithKey(kpis, AchievementRate, v) by {
      SortByStable(kpis, NegRate, -v);
      RateKeysAgree(sorted, v);
      RateKeysAgree(kpis, v);
    }
  }

}
