/** The risk register report: the status counts, the 5 x 5 matrix of
    unresolved risks by probability and impact, and one detail row per risk
    in decreasing score order. The generation timestamp is a parameter. */
module RiskReport {

  import opened Seqs
  import opened Text
  import opened Models
  import opened Health
  import opened Summary
  import opened ReportCommon

  // ---------------------------------------------------------------------
  // the matrix
  // ---------------------------------------------------------------------

  /** The matrix cell a risk falls in: (probability, impact). */
  function RiskCell(r: RiskEntry): (int, int) { (r.probability, r.impact) }

  /** The number of risks among active in cell (prob, imp). */
  function CellCount(active: seq<RiskEntry>, prob: int, imp: int): nat
  {
    |WithKey(active, RiskCell, (prob, imp))|
  }

  /** str(count) if count > 0 else "-": an empty cell shows a dash, any
      other cell its count in decimal. */
  function CellText(n: nat): string
  {
    if n > 0 then IntToString(n) else "-"
  }

  /** The dash stands for zero only, and any other cell reads back as its
      count. */
  lemma CellTextReadsBack(n: nat)
    ensures CellText(n) == "-" <==> n == 0
    ensures n > 0 ==> (forall i :: 0 <= i < |CellText(n)| ==> IsDigit(CellText(n)[i]))
                      && DigitsValue(CellText(n)) == n
  {
    NatToStringRoundTrip(n);
    if n > 0 {
      assert IsDigit(CellText(n)[0]);
    }
  }

  /** The five cells of the row for prob, for impact 1 to 5. */
  function MatrixCells(active: seq<RiskEntry>, prob: int): seq<string>
  {
    seq(5, j requires 0 <= j < 5 => CellText(CellCount(active, prob, j + 1)))
  }

  function ProbLabel(prob: int): string
  {
    "**P" + IntToString(prob) + "**"
  }

  /** "| " + " | ".join(row) + " |" */
  function MatrixRow(active: seq<RiskEntry>, prob: int): string
  {
    "| " + Join([ProbLabel(prob)] + MatrixCells(active, prob), " | ") + " |"
  }

  /** The rows for probability 5 down to 1. */
  function MatrixLines(active: seq<RiskEntry>): (rows: seq<string>)
    ensures |rows| == 5
  {
    seq(5, i requires 0 <= i < 5 => MatrixRow(active, 5 - i))
  }

  /** The 25 cells in the order the matrix shows them: probability 5 down
      to 1, and within a row impact 1 to 5. */
  function AllCells(): seq<(int, int)>
  {
    seq(25, k requires 0 <= k < 25 => (5 - k / 5, k % 5 + 1))
  }

  /** Every cell is shown once, and every valid risk has a cell. */
  lemma AllCellsExact(r: RiskEntry)
    ensures Distinct(AllCells())
    ensures ValidRisk(r) ==> RiskCell(r) in AllCells()
  {
    var cells := AllCells();
    forall i, j | 0 <= i < j < 25 ensures cells[i] != cells[j] {
      assert i == 5 * (i / 5) + i % 5;
      assert j == 5 * (j / 5) + j % 5;
    }
    if ValidRisk(r) {
      var k := 5 * (5 - r.probability) + (r.impact - 1);
      assert k / 5 == 5 - r.probability && k % 5 == r.impact - 1;
      assert cells[k] == RiskCell(r);
    }
  }

  /** Each unresolved risk is counted in exactly one cell and no resolved
      risk in any, so the 25 counts add up to the open and mitigating
      risks. */
  lemma MatrixTotal(risks: seq<RiskEntry>)
    requires forall r :: r in risks ==> ValidRisk(r)
    ensures CountGroups(Filter(risks, Unresolved), RiskCell, AllCells())
         == RiskStatusCount(risks, Open) + RiskStatusCount(risks, Mitigating)
  {
    var active := Filter(risks, Unresolved);
    forall r | r in active ensures RiskCell(r) in AllCells() {
      AllCellsExact(r);
    }
    if risks != [] {
      AllCellsExact(risks[0]);
    } else {
      AllCellsExact(RiskEntry("", "", "", 1, 1, "", Open));
    }
    CountGroupsPartition(active, RiskCell, AllCells());
    OpenRiskCountSplit(risks);
  }

  /** One row of the matrix: the label, then one cell per impact. */
  method BuildMatrixRow(active: seq<RiskEntry>, prob: int) returns (line: string)
    ensures line == MatrixRow(active, prob)
  {
    var row := [ProbLabel(prob)];
    for imp := 1 to 6
      invariant |row| == imp
      invariant row[0] == ProbLabel(prob)
      invariant forall j :: 1 <= j < imp ==> row[j] == CellText(CellCount(active, prob, j))
    {
      var count := CellCount(active, prob, imp);
      row := row + [CellText(count)];
    }
    assert row == [ProbLabel(prob)] + MatrixCells(active, prob);
    line := "| " + Join(row, " | ") + " |";
  }

  /** for prob in range(5, 0, -1): one matrix row each */
  method BuildMatrix(active: seq<RiskEntry>) returns (rows: seq<string>)
    ensures rows == MatrixLines(active)
  {
    rows := [];
    var prob := 5;
    while prob > 0
      invariant 0 <= prob <= 5
      invariant |rows| == 5 - prob
      invariant forall k :: 0 <= k < |rows| ==> rows[k] == MatrixRow(active, 5 - k)
    {
      var line := BuildMatrixRow(active, prob);
      rows := rows + [line];
      prob := prob - 1;
    }
  }

  // ---------------------------------------------------------------------
  // the details
  // ---------------------------------------------------------------------

  function NegScore(r: RiskEntry): real { -(RiskScore(r) as real) }

  /** sorted(risks, key=lambda x: x.risk_score, reverse=True); Python's
      reversed sort is stable, which sorting on the negated score is too. */
  function ByScore(risks: seq<RiskEntry>): seq<RiskEntry>
  {
    SortBy(risks, NegScore)
  }

  /** The details list every risk exactly once, in non-increasing score
      order. */
  lemma ByScoreOrder(risks: seq<RiskEntry>)
    ensures multiset(ByScore(risks)) == multiset(risks)
    ensures forall i, j :: 0 <= i < j < |risks| ==> RiskScore(ByScore(risks)[i]) >= RiskScore(ByScore(risks)[j])
  {
    var sorted := ByScore(risks);
    SortBySorted(risks, NegScore);
    forall i, j | 0 <= i < j < |sorted| ensures RiskScore(sorted[i]) >= RiskScore(sorted[j]) {
      assert NegScore(sorted[i]) <= NegScore(sorted[j]);
    }
  }

  /** Risks of equal score keep their input order. */
  lemma ByScoreStable(risks: seq<RiskEntry>, v: int)
    ensures WithKey(ByScore(risks), RiskScore, v) == WithKey(risks, RiskScore, v)
  {
    SortByStable(risks, NegScore, -(v as real));
    NegScoreBucket(risks, v);
    NegScoreBucket(ByScore(risks), v);
  }

  /** The risks whose negated score is -v are those of score v. */
  lemma NegScoreBucket(s: seq<RiskEntry>, v: int)
    ensures WithKey(s, NegScore, -(v as real)) == WithKey(s, RiskScore, v)
  {
    WithKeyCongruent(s, NegScore, -(v as real), RiskScore, v);
  }

  /** A mitigation longer than 50 characters is cut to its first 50 and
      marked with "..."; a shorter one is shown whole. */
  function ShortMitigation(m: string): (t: string)
    ensures |t| <= 53
    ensures |m| <= 50 ==> t == m
    ensures |m| > 50 ==> |t| == 53 && t[..50] == m[..50] && t[50..] == "..."
  {
    if |m| > 50 then m[..50] + "..." else m
  }

  /** One row of the details table. */
  function DetailRow(name: string, r: RiskEntry): string
  {
    "| " + Join(DetailFields(name, r), " | ") + " |"
  }

  /** The seven columns: project, risk (first 40 characters), P, I, score,
      status, mitigation. */
  function DetailFields(name: string, r: RiskEntry): seq<string>
  {
    [name, Take(r.riskDescription, 40), IntToString(r.probability), IntToString(r.impact),
     IntToString(RiskScore(r)), RiskStatusTitle(r.status), ShortMitigation(r.mitigation)]
  }

  /** One row per risk of rs, in order, named by the projects. */
  function DetailRows(projects: seq<Project>, rs: seq<RiskEntry>): (rows: seq<string>)
    ensures |rows| == |rs|
  {
    if rs == [] then []
    else
      var r := rs[|rs| - 1];
      DetailRows(projects, rs[..|rs| - 1]) + [DetailRow(NameOf(projects, r.projectId), r)]
  }

  /** Row i is the row of risk i. */
  lemma {:induction false} DetailRowsAt(projects: seq<Project>, rs: seq<RiskEntry>, i: nat)
    requires i < |rs|
    ensures DetailRows(projects, rs)[i] == DetailRow(NameOf(projects, rs[i].projectId), rs[i])
  {
    var front := rs[..|rs| - 1];
    if i < |front| {
      DetailRowsAt(projects, front, i);
    }
  }

  /** for r in sorted(...): one row each, the name looked up in the dict. */
  method AppendDetailRows(lines: seq<string>, projects: seq<Project>, names: map<string, string>,
                          sorted: seq<RiskEntry>)
    returns (out: seq<string>)
    requires forall pid :: Lookup(names, pid) == NameOf(projects, pid)
    ensures out == lines + DetailRows(projects, sorted)
  {
    out := lines;
    for j := 0 to |sorted|
      invariant out == lines + DetailRows(projects, sorted[..j])
    {
      var r := sorted[j];
      var name := Lookup(names, r.projectId);
      ghost var done := sorted[..j + 1];
      assert done[..|done| - 1] == sorted[..j] && done[|done| - 1] == r;
      out := out + [DetailRow(name, r)];
    }
    assert sorted[..|sorted|] == sorted;
  }

  // ---------------------------------------------------------------------
  // the report
  // ---------------------------------------------------------------------

  /** The title, the status counts and the matrix header. */
  function RegisterHead(risks: seq<RiskEntry>, generated: string): (lines: seq<string>)
    ensures |lines| == 11
  {
    ["# Risk Register Report",
     "_Generated: " + generated + "_\n",
     "## Summary\n",
     "- **Total Risks**: " + IntToString(|risks|),
     "- **Open**: " + IntToString(RiskStatusCount(risks, Open)),
     "- **Mitigating**: " + IntToString(RiskStatusCount(risks, Mitigating)),
     "- **Resolved**: " + IntToString(RiskStatusCount(risks, Resolved)),
     "",
     "## Risk Matrix (Probability x Impact)\n",
     "| | Impact 1 | Impact 2 | Impact 3 | Impact 4 | Impact 5 |",
     "|---|----------|----------|----------|----------|----------|"]
  }

  const DetailHead: seq<string> :=
    ["", "## Risk Details\n",
     "| Project | Risk | P | I | Score | Status | Mitigation |",
     "|---------|------|---|---|-------|--------|------------|"]

  /** The lines of the report. */
  function RegisterLines(projects: seq<Project>, risks: seq<RiskEntry>, generated: string): seq<string>
  {
    RegisterHead(risks, generated)
    + MatrixLines(Filter(risks, Unresolved))
    + DetailHead
    + DetailRows(projects, ByScore(risks))
  }

  /** The detail rows, one per risk in score order, close the report after
      the 11 head lines, the 5 matrix rows and the 4 detail-header lines. */
  lemma RegisterLayout(projects: seq<Project>, risks: seq<RiskEntry>, generated: string)
    ensures |RegisterLines(projects, risks, generated)| == 20 + |risks|
    ensures RegisterLines(projects, risks, generated)[20..] == DetailRows(projects, ByScore(risks))
  {
  }

  /** The matrix rows follow the 11 head lines, probability 5 first. */
  lemma RegisterMatrix(projects: seq<Project>, risks: seq<RiskEntry>, generated: string)
    ensures RegisterLines(projects, risks, generated)[11..16] == MatrixLines(Filter(risks, Unresolved))
  {
    var head := RegisterHead(risks, generated);
    var matrix := MatrixLines(Filter(risks, Unresolved));
    var rest := DetailHead + DetailRows(projects, ByScore(risks));
    assert RegisterLines(projects, risks, generated) == head + matrix + rest;
    Middle(head, matrix, rest);
  }

  /** risk_register_report(): the counts, the matrix over the unresolved
      risks, then the details in decreasing score order. */
  method RiskRegisterReport(projects: seq<Project>, risks: seq<RiskEntry>, generated: string)
    returns (text: string)
    ensures text == Join(RegisterLines(projects, risks, generated), "\n")
  {
    var lines := RegisterHead(risks, generated);
    var active := Filter(risks, Unresolved);
    var matrix := BuildMatrix(active);
    lines := lines + matrix + DetailHead;
    var names := NameMap(projects);
    lines := AppendDetailRows(lines, projects, names, ByScore(risks));
    text := Join(lines, "\n");
  }

}
