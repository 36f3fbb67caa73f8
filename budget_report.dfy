/** The budget variance report: overall totals, one row per project id in
    order of first appearance, and one row per category present in the
    category value's string order. The generation timestamp is a
    parameter. */
module BudgetReport {

  import opened Seqs
  import opened Text
  import opened Models
  import opened ReportCommon

  // ---------------------------------------------------------------------
  // grouping by project
  // ---------------------------------------------------------------------

  function ProjectIds(budgets: seq<BudgetEntry>): seq<string>
  {
    MapSeq(budgets, BudgetProject)
  }

  /** The keys of project_budgets, in insertion order. */
  function ProjectKeys(budgets: seq<BudgetEntry>): seq<string>
  {
    Dedup(ProjectIds(budgets))
  }

  /** Each project id with an entry is a key exactly once, keys follow the
      first appearance of their id, and every entry's id is a key. */
  lemma ProjectKeysExact(budgets: seq<BudgetEntry>, i: nat, j: nat)
    requires i < j < |ProjectKeys(budgets)|
    ensures Distinct(ProjectKeys(budgets))
    ensures forall b :: b in budgets ==> b.projectId in ProjectKeys(budgets)
    ensures forall k :: k in ProjectKeys(budgets) ==> WithKey(budgets, BudgetProject, k) != []
    ensures FirstIndex(ProjectIds(budgets), ProjectKeys(budgets)[i]) < FirstIndex(ProjectIds(budgets), ProjectKeys(budgets)[j])
  {
    KeysCover(budgets);
    DedupFirstAppearance(ProjectIds(budgets), i, j);
  }

  lemma KeysCover(budgets: seq<BudgetEntry>)
    ensures forall b :: b in budgets ==> b.projectId in ProjectKeys(budgets)
    ensures forall k :: k in ProjectKeys(budgets) ==> WithKey(budgets, BudgetProject, k) != []
  {
    var ids := ProjectIds(budgets);
    forall b | b in budgets ensures b.projectId in ProjectKeys(budgets) {
      var n :| 0 <= n < |budgets| && budgets[n] == b;
      assert ids[n] == b.projectId;
    }
    forall k | k in ProjectKeys(budgets) ensures WithKey(budgets, BudgetProject, k) != [] {
      var n :| 0 <= n < |ids| && ids[n] == k;
      WithKeyMember(budgets, BudgetProject, budgets[n]);
    }
  }

  /** Grouping by project loses and duplicates nothing: the per-project
      planned and actual sums add up to the overall totals. */
  lemma ProjectSumsAddUp(budgets: seq<BudgetEntry>)
    ensures SumGroups(budgets, BudgetProject, ProjectKeys(budgets), PlannedAmount) == SumOf(budgets, PlannedAmount)
    ensures SumGroups(budgets, BudgetProject, ProjectKeys(budgets), ActualAmount) == SumOf(budgets, ActualAmount)
  {
    KeysCover(budgets);
    SumGroupsPartition(budgets, BudgetProject, ProjectKeys(budgets), PlannedAmount);
    SumGroupsPartition(budgets, BudgetProject, ProjectKeys(budgets), ActualAmount);
  }

  /** for b in budgets: project_budgets.setdefault(b.project_id, []).append(b);
      the keys are returned in the dict's insertion order. */
  method GroupByProject(budgets: seq<BudgetEntry>) returns (keys: seq<string>, groups: map<string, seq<BudgetEntry>>)
    ensures keys == ProjectKeys(budgets)
    ensures forall k :: k in groups <==> k in keys
    ensures Grouped(groups, budgets, BudgetProject)
  {
    keys, groups := [], map[];
    GroupedEmpty(BudgetProject);
    for i := 0 to |budgets|
      invariant keys == Dedup(MapSeq(budgets[..i], BudgetProject))
      invariant Grouped(groups, budgets[..i], BudgetProject)
    {
      var b := budgets[i];
      assert budgets[..i + 1] == budgets[..i] + [b];
      GroupedStep(keys, groups, budgets[..i], b, BudgetProject);
      if b.projectId !in groups {
        keys := keys + [b.projectId];
      }
      groups := groups[b.projectId := (if b.projectId in groups then groups[b.projectId] else []) + [b]];
    }
    assert budgets[..|budgets|] == budgets;
    forall k ensures k in groups <==> k in keys {
      GroupedDomain(groups, budgets, BudgetProject, k);
    }
  }

  // ---------------------------------------------------------------------
  // project rows
  // ---------------------------------------------------------------------

  /** "Over" for a positive variance, "Under" for a negative one,
      "On Track" at exactly zero. */
  function RowStatus(v: real): (t: string)
    ensures t == "Over" <==> v > 0.0
    ensures t == "Under" <==> v < 0.0
    ensures t == "On Track" <==> v == 0.0
  {
    if v > 0.0 then "Over" else if v < 0.0 then "Under" else "On Track"
  }

  function ProjectRow(name: string, entries: seq<BudgetEntry>, fmt: NumberFormat): string
  {
    var planned := SumOf(entries, PlannedAmount);
    var actual := SumOf(entries, ActualAmount);
    "| " + name + " | $" + fmt.money(planned) + " | $" + fmt.money(actual)
    + " | $" + fmt.signedMoney(actual - planned) + " | " + RowStatus(actual - planned) + " |"
  }

  /** One row per key, in key order, for the key's entries and the name the
      projects give it. */
  function ProjectRows(projects: seq<Project>, budgets: seq<BudgetEntry>, keys: seq<string>,
                       fmt: NumberFormat): (rows: seq<string>)
    ensures |rows| == |keys|
  {
    if keys == [] then []
    else
      var k := keys[|keys| - 1];
      ProjectRows(projects, budgets, keys[..|keys| - 1], fmt)
      + [ProjectRow(NameOf(projects, k), WithKey(budgets, BudgetProject, k), fmt)]
  }

  /** Row i is the row of key i. */
  lemma {:induction false} ProjectRowsAt(projects: seq<Project>, budgets: seq<BudgetEntry>, keys: seq<string>,
                                         fmt: NumberFormat, i: nat)
    requires i < |keys|
    ensures ProjectRows(projects, budgets, keys, fmt)[i]
         == ProjectRow(NameOf(projects, keys[i]), WithKey(budgets, BudgetProject, keys[i]), fmt)
  {
    var front := keys[..|keys| - 1];
    if i < |front| {
      ProjectRowsAt(projects, budgets, front, fmt, i);
    }
  }

  /** for pid, entries in project_budgets.items(): one row each */
  method AppendProjectRows(lines: seq<string>, projects: seq<Project>, names: map<string, string>,
                           budgets: seq<BudgetEntry>, keys: seq<string>,
                           groups: map<string, seq<BudgetEntry>>, fmt: NumberFormat)
    returns (out: seq<string>)
    requires forall pid :: Lookup(names, pid) == NameOf(projects, pid)
    requires forall k :: k in keys ==> k in groups
    requires Grouped(groups, budgets, BudgetProject)
    ensures out == lines + ProjectRows(projects, budgets, keys, fmt)
  {
    out := lines;
    for j := 0 to |keys|
      invariant out == lines + ProjectRows(projects, budgets, keys[..j], fmt)
    {
      var pid := keys[j];
      var entries := groups[pid];
      var name := Lookup(names, pid);
      assert entries == WithKey(budgets, BudgetProject, pid);
      assert name == NameOf(projects, pid);
      ghost var done := keys[..j + 1];
      assert done[..|done| - 1] == keys[..j] && done[|done| - 1] == pid;
      assert ProjectRows(projects, budgets, done, fmt)
          == ProjectRows(projects, budgets, keys[..j], fmt) + [ProjectRow(name, entries, fmt)];
      out := out + [ProjectRow(name, entries, fmt)];
    }
    assert keys[..|keys|] == keys;
  }

  // ---------------------------------------------------------------------
  // grouping by category
  // ---------------------------------------------------------------------

  /** The categories in the string order of their values:
      "api_calls" < "compute" < "infrastructure" < "other" < "personnel". */
  const CategoryOrder: seq<BudgetCategory> := [ApiCalls, Compute, Infrastructure, Other, Personnel]

  function CategoryRank(c: BudgetCategory): nat
  {
    match c
    case ApiCalls => 0
    case Compute => 1
    case Infrastructure => 2
    case Other => 3
    case Personnel => 4
  }

  /** CategoryOrder lists every category once, at its rank, and the rank
      order is the string order of the values. */
  lemma CategoryOrderIsStringOrder(a: BudgetCategory, b: BudgetCategory)
    ensures CategoryOrder[CategoryRank(a)] == a
    ensures CategoryRank(a) < CategoryRank(b) <==> StrLess(CategoryValue(a), CategoryValue(b))
  {
    var x, y := CategoryValue(a), CategoryValue(b);
    if a == b {
      StrLessIrreflexive(x);
    } else {
      assert x[0] != y[0];
      StrLessFirst(x, y);
    }
  }

  lemma CategoryOrderDistinct()
    ensures Distinct(CategoryOrder)
    ensures forall c :: c in CategoryOrder
  {
    forall c ensures c in CategoryOrder {
      CategoryOrderIsStringOrder(c, c);
    }
  }

  /** Grouping by category loses and duplicates nothing either. */
  lemma CategorySumsAddUp(budgets: seq<BudgetEntry>)
    ensures SumGroups(budgets, BudgetCategoryOf, CategoryOrder, PlannedAmount) == SumOf(budgets, PlannedAmount)
    ensures SumGroups(budgets, BudgetCategoryOf, CategoryOrder, ActualAmount) == SumOf(budgets, ActualAmount)
  {
    CategoryOrderDistinct();
    SumGroupsPartition(budgets, BudgetCategoryOf, CategoryOrder, PlannedAmount);
    SumGroupsPartition(budgets, BudgetCategoryOf, CategoryOrder, ActualAmount);
  }

  /** The categories of cs that some entry has, in the order of cs. */
  function Present(budgets: seq<BudgetEntry>, cs: seq<BudgetCategory>): (r: seq<BudgetCategory>)
    ensures forall c :: c in r ==> c in cs
  {
    if cs == [] then []
    else
      var c := cs[|cs| - 1];
      Present(budgets, cs[..|cs| - 1]) + (if WithKey(budgets, BudgetCategoryOf, c) != [] then [c] else [])
  }

  /** A category of cs is listed exactly when it has entries. */
  lemma {:induction false} PresentExact(budgets: seq<BudgetEntry>, cs: seq<BudgetCategory>, c: BudgetCategory)
    ensures c in Present(budgets, cs) <==> c in cs && WithKey(budgets, BudgetCategoryOf, c) != []
  {
    if cs != [] {
      var front := cs[..|cs| - 1];
      assert cs == front + [cs[|cs| - 1]];
      PresentExact(budgets, front, c);
    }
  }

  /** Listing keeps the order of cs. */
  lemma {:induction false} PresentOrdered(budgets: seq<BudgetEntry>, cs: seq<BudgetCategory>)
    requires forall i, j :: 0 <= i < j < |cs| ==> CategoryRank(cs[i]) < CategoryRank(cs[j])
    ensures forall i, j :: 0 <= i < j < |Present(budgets, cs)| ==>
      CategoryRank(Present(budgets, cs)[i]) < CategoryRank(Present(budgets, cs)[j])
  {
    if cs != [] {
      var c := cs[|cs| - 1];
      var front := cs[..|cs| - 1];
      var r := Present(budgets, front);
      PresentOrdered(budgets, front);
      forall x | x in r ensures CategoryRank(x) < CategoryRank(c) {
        var n :| 0 <= n < |front| && front[n] == x;
        assert cs[n] == x && cs[|cs| - 1] == c;
      }
      var p := Present(budgets, cs);
      forall i, j | 0 <= i < j < |p| ensures CategoryRank(p[i]) < CategoryRank(p[j]) {
        if j < |r| {
          assert p[i] == r[i] && p[j] == r[j];
        } else {
          assert p[i] == r[i] && r[i] in r && p[j] == c;
        }
      }
    }
  }

  /** The category table lists exactly the categories that have entries,
      each once, in increasing string order of the category value. */
  lemma PresentCategoriesSorted(budgets: seq<BudgetEntry>)
    ensures forall c :: c in Present(budgets, CategoryOrder) <==> WithKey(budgets, BudgetCategoryOf, c) != []
    ensures forall i, j :: 0 <= i < j < |Present(budgets, CategoryOrder)| ==>
      StrLess(CategoryValue(Present(budgets, CategoryOrder)[i]), CategoryValue(Present(budgets, CategoryOrder)[j]))
  {
    CategoryOrderDistinct();
    var p := Present(budgets, CategoryOrder);
    forall c ensures c in p <==> WithKey(budgets, BudgetCategoryOf, c) != [] {
      PresentExact(budgets, CategoryOrder, c);
    }
    PresentOrdered(budgets, CategoryOrder);
    forall i, j | 0 <= i < j < |p| ensures StrLess(CategoryValue(p[i]), CategoryValue(p[j])) {
      CategoryOrderIsStringOrder(p[i], p[j]);
    }
  }

  /** for b in budgets: cat_budgets.setdefault(b.category.value, []).append(b) */
  method GroupByCategory(budgets: seq<BudgetEntry>) returns (groups: map<BudgetCategory, seq<BudgetEntry>>)
    ensures Grouped(groups, budgets, BudgetCategoryOf)
  {
    groups := map[];
    GroupedEmpty(BudgetCategoryOf);
    for i := 0 to |budgets|
      invariant Grouped(groups, budgets[..i], BudgetCategoryOf)
    {
      var b := budgets[i];
      assert budgets[..i + 1] == budgets[..i] + [b];
      GroupedSnoc(groups, budgets[..i], b, BudgetCategoryOf);
      groups := groups[b.category := (if b.category in groups then groups[b.category] else []) + [b]];
    }
    assert budgets[..|budgets|] == budgets;
  }

  function CategoryRow(c: BudgetCategory, entries: seq<BudgetEntry>, fmt: NumberFormat): string
  {
    var planned := SumOf(entries, PlannedAmount);
    var actual := SumOf(entries, ActualAmount);
    "| " + CategoryTitle(c) + " | $" + fmt.money(planned) + " | $" + fmt.money(actual)
    + " | $" + fmt.signedMoney(actual - planned) + " |"
  }

  /** One row per category of cs that has entries, in the order of cs. */
  function CategoryRows(budgets: seq<BudgetEntry>, cs: seq<BudgetCategory>, fmt: NumberFormat): (rows: seq<string>)
    ensures |rows| == |Present(budgets, cs)|
  {
    if cs == [] then []
    else
      var c := cs[|cs| - 1];
      var entries := WithKey(budgets, BudgetCategoryOf, c);
      CategoryRows(budgets, cs[..|cs| - 1], fmt) + (if entries != [] then [CategoryRow(c, entries, fmt)] else [])
  }

  /** Row i is the row of the i-th listed category, over that category's
      entries. */
  lemma {:induction false} CategoryRowsAt(budgets: seq<BudgetEntry>, cs: seq<BudgetCategory>, fmt: NumberFormat, i: nat)
    requires i < |Present(budgets, cs)|
    ensures CategoryRows(budgets, cs, fmt)[i]
         == CategoryRow(Present(budgets, cs)[i], WithKey(budgets, BudgetCategoryOf, Present(budgets, cs)[i]), fmt)
  {
    var front := cs[..|cs| - 1];
    if i < |Present(budgets, front)| {
      CategoryRowsAt(budgets, front, fmt, i);
    }
  }

  /** for cat, entries in sorted(cat_budgets.items()): one row each, for
      the categories cs (the report passes CategoryOrder, the sorted keys). */
  method AppendCategoryRows(lines: seq<string>, budgets: seq<BudgetEntry>, cs: seq<BudgetCategory>,
                            groups: map<BudgetCategory, seq<BudgetEntry>>, fmt: NumberFormat)
    returns (out: seq<string>)
    requires Grouped(groups, budgets, BudgetCategoryOf)
    ensures out == lines + CategoryRows(budgets, cs, fmt)
  {
    out := lines;
    for j := 0 to |cs|
      invariant out == lines + CategoryRows(budgets, cs[..j], fmt)
    {
      var c := cs[j];
      ghost var done := cs[..j + 1];
      assert done[..|done| - 1] == cs[..j] && done[|done| - 1] == c;
      assert c in groups <==> WithKey(budgets, BudgetCategoryOf, c) != [];
      if c in groups {
        assert groups[c] == WithKey(budgets, BudgetCategoryOf, c);
        out := out + [CategoryRow(c, groups[c], fmt)];
      }
    }
    assert cs[..|cs|] == cs;
  }

  // ---------------------------------------------------------------------
  // the report
  // ---------------------------------------------------------------------

  function SummaryLines(budgets: seq<BudgetEntry>, generated: string, fmt: NumberFormat): (lines: seq<string>)
    ensures |lines| == 12
  {
    var planned := SumOf(budgets, PlannedAmount);
    var actual := SumOf(budgets, ActualAmount);
    ["# Budget Variance Report",
     "_Generated: " + generated + "_\n",
     "## Overall Summary\n",
     "| Metric | Amount |",
     "|--------|--------|",
     "| Total Planned | $" + fmt.money(planned) + " |",
     "| Total Actual | $" + fmt.money(actual) + " |",
     "| Variance | $" + fmt.signedMoney(actual - planned) + " |",
     "",
     "## By Project\n",
     "| Project | Planned | Actual | Variance | Status |",
     "|---------|---------|--------|----------|--------|"]
  }

  const CategoryHead: seq<string> :=
    ["", "## By Category\n", "| Category | Planned | Actual | Variance |", "|----------|---------|--------|----------|"]

  /** The lines of the report. */
  function VarianceLines(projects: seq<Project>, budgets: seq<BudgetEntry>, generated: string,
                         fmt: NumberFormat): seq<string>
  {
    SummaryLines(budgets, generated, fmt)
    + ProjectRows(projects, budgets, ProjectKeys(budgets), fmt)
    + CategoryHead
    + CategoryRows(budgets, CategoryOrder, fmt)
  }

  /** The report has 16 fixed lines, one row per distinct project id and
      one per category present. */
  lemma VarianceLength(projects: seq<Project>, budgets: seq<BudgetEntry>, generated: string, fmt: NumberFormat)
    ensures |VarianceLines(projects, budgets, generated, fmt)|
         == 16 + |ProjectKeys(budgets)| + |Present(budgets, CategoryOrder)|
  {
  }

  /** The project rows follow the 12 summary lines, in key order. */
  lemma VarianceProjects(projects: seq<Project>, budgets: seq<BudgetEntry>, generated: string, fmt: NumberFormat)
    ensures VarianceLines(projects, budgets, generated, fmt)[12..12 + |ProjectKeys(budgets)|]
         == ProjectRows(projects, budgets, ProjectKeys(budgets), fmt)
  {
    var head := SummaryLines(budgets, generated, fmt);
    var rows := ProjectRows(projects, budgets, ProjectKeys(budgets), fmt);
    var tail := CategoryRows(budgets, CategoryOrder, fmt);
    assert VarianceLines(projects, budgets, generated, fmt) == head + rows + (CategoryHead + tail);
    Middle(head, rows, CategoryHead + tail);
  }

  /** budget_variance_report(): the totals, then the project buckets in
      insertion order, then the category buckets in sorted order. */
  method BudgetVarianceReport(projects: seq<Project>, budgets: seq<BudgetEntry>, generated: string,
                              fmt: NumberFormat)
    returns (text: string)
    ensures text == Join(VarianceLines(projects, budgets, generated, fmt), "\n")
  {
    var lines := SummaryLines(budgets, generated, fmt);
    var names := NameMap(projects);
    var keys, byProject := GroupByProject(budgets);
    lines := AppendProjectRows(lines, projects, names, budgets, keys, byProject, fmt);
    lines := lines + CategoryHead;
    var byCategory := GroupByCategory(budgets);
    lines := AppendCategoryRows(lines, budgets, CategoryOrder, byCategory, fmt);
    text := Join(lines, "\n");
  }

}
