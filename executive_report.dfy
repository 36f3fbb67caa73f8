/** The executive summary report: the executive summary between a header
    and a footer. The generation timestamp and the report period (the
    clock's "%Y-%m-%d %H:%M" and "%B %Y" renderings) are parameters. */
module ExecutiveReport {

  import opened Common
  import opened Text
  import opened Models
  import opened Health
  import opened Summary

  /** The title line and the two date lines. */
  function Header(generated: string, period: string): string
  {
    "# Executive Summary - AI Portfolio\n_Generated: " + generated + "_\n_Report Period: " + period + "_\n"
  }

  const Footer: string :=
    "\n---\n_This report was auto-generated by the AI Project Dashboard. "
    + "For questions, contact the AI Center of Excellence._"

  /** f"{header}\n{summary}\n{footer}" */
  function Frame(header: string, summary: string, footer: string): string
  {
    header + "\n" + summary + "\n" + footer
  }

  /** Whatever the header and footer, the summary sits verbatim between
      the header's blank line and the footer's newline. */
  lemma FrameRecoverable(header: string, summary: string, footer: string)
    ensures var text := Frame(header, summary, footer);
      && header + "\n" <= text
      && |header| + |footer| + 2 <= |text|
      && text[|header| + 1..|text| - |footer| - 1] == summary
      && text[|text| - |footer|..] == footer
  {
    var text := Frame(header, summary, footer);
    assert text == (header + "\n") + summary + ("\n" + footer);
    Enclosed(header + "\n", summary, "\n" + footer);
    Suffix(header + "\n" + summary + "\n", footer);
  }

  /** The header starts with the report title, and the generation time
      follows it verbatim. */
  lemma HeaderLayout(generated: string, period: string)
    ensures "# Executive Summary - AI Portfolio\n_Generated: " <= Header(generated, period)
    ensures var h := Header(generated, period);
      var pre := "# Executive Summary - AI Portfolio\n_Generated: ";
      h[|pre|..|pre| + |generated|] == generated
  {
    var pre := "# Executive Summary - AI Portfolio\n_Generated: ";
    var rest := "_\n_Report Period: " + period + "_\n";
    assert Header(generated, period) == pre + generated + rest;
    Enclosed(pre, generated, rest);
  }

  /** executive_summary_report(): computes the health score once and hands
      it to the generator, which gives the same summary as letting the
      generator compute it. */
  method ExecutiveSummaryReport(projects: seq<Project>, kpis: seq<Kpi>, budgets: seq<BudgetEntry>,
                                risks: seq<RiskEntry>, generated: string, period: string,
                                fmt: NumberFormat)
    returns (text: string)
    ensures text == Frame(Header(generated, period), SummaryText(projects, kpis, budgets, risks, None, fmt), Footer)
  {
    var health := ComputeHealth(projects, risks, budgets, kpis);
    var summary := Generate(projects, kpis, budgets, risks, Some(health), fmt);
    assert HealthOrCompute(Some(health), projects, kpis, budgets, risks)
        == HealthOrCompute(None, projects, kpis, budgets, risks);
    text := Frame(Header(generated, period), summary, Footer);
  }

}
