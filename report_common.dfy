/** Pieces shared by the reports: the project-name lookup with the id as
    fallback, the open-risk count, and the status tags of the project
    listing. */
module ReportCommon {

  import opened Seqs
  import opened Models
  import opened Health
  import opened Summary

  /** The name {p.id: p.name for p in projects} gives pid: a later project
      with the same id replaces an earlier one, and an unknown id stands for
      itself. */
  function NameOf(projects: seq<Project>, pid: string): string
  {
    if projects == [] then pid
    else
      var last := projects[|projects| - 1];
      var front := projects[..|projects| - 1];
      assert projects == front + [last];
      if last.id == pid then last.name else NameOf(front, pid)
  }

  /** An id no project has stands for itself; an id some project has is
      named by one of those projects. */
  lemma {:induction false} NameOfFound(projects: seq<Project>, pid: string)
    ensures (forall p :: p in projects ==> p.id != pid) ==> NameOf(projects, pid) == pid
    ensures (exists p :: p in projects && p.id == pid) ==>
      exists p :: p in projects && p.id == pid && p.name == NameOf(projects, pid)
  {
    if projects != [] {
      var last := projects[|projects| - 1];
      var front := projects[..|projects| - 1];
      assert projects == front + [last];
      NameOfFound(front, pid);
    }
  }

  /** The last project carrying an id names it. */
  lemma {:induction false} NameOfLastWins(projects: seq<Project>, k: nat)
    requires k < |projects|
    requires forall j :: k < j < |projects| ==> projects[j].id != projects[k].id
    ensures NameOf(projects, projects[k].id) == projects[k].name
  {
    var pid := projects[k].id;
    var front := projects[..|projects| - 1];
    if k < |projects| - 1 {
      assert projects[|projects| - 1].id != pid;
      NameOfLastWins(front, k);
    }
  }

  /** dict.get(pid, pid) */
  function Lookup(m: map<string, string>, pid: string): string
  {
    if pid in m then m[pid] else pid
  }

  /** Builds the id-to-name dict in one pass over the projects. */
  method NameMap(projects: seq<Project>) returns (m: map<string, string>)
    ensures forall pid :: Lookup(m, pid) == NameOf(projects, pid)
  {
    m := map[];
    for i := 0 to |projects|
      invariant forall pid :: Lookup(m, pid) == NameOf(projects[..i], pid)
    {
      var p := projects[i];
      assert projects[..i + 1][..i] == projects[..i];
      m := m[p.id := p.name];
    }
    assert projects[..|projects|] == projects;
  }

  /** Risks not yet resolved. */
  function OpenRiskCount(risks: seq<RiskEntry>): nat
  {
    Count(risks, Unresolved)
  }

  /** The open-risk figure counts the open and the mitigating risks, so with
      the resolved ones it accounts for every risk. */
  lemma {:induction false} OpenRiskCountSplit(risks: seq<RiskEntry>)
    ensures OpenRiskCount(risks) == RiskStatusCount(risks, Open) + RiskStatusCount(risks, Mitigating)
    ensures OpenRiskCount(risks) + RiskStatusCount(risks, Resolved) == |risks|
  {
    if risks != [] {
      OpenRiskCountSplit(risks[1..]);
    }
    RiskStatusCountsTotal(risks);
  }

  /** _status_icon(status) */
  function StatusIcon(s: ProjectStatus): (icon: string)
    ensures |icon| >= 2 && icon[0] == '[' && icon[|icon| - 1] == ']'
  {
    match s
    case Planning => "[PLAN]"
    case Development => "[DEV]"
    case Testing => "[TEST]"
    case Production => "[PROD]"
    case Retired => "[RET]"
  }

  /** Every status has its own tag. */
  lemma StatusIconInjective(a: ProjectStatus, b: ProjectStatus)
    requires StatusIcon(a) == StatusIcon(b)
    ensures a == b
  {
  }

}
