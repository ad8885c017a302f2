/**
 * `_summarize` of src/ui/report_routes.py: the list view's one-line summary of a stored
 * report. The status shown is LangChain's when it completed, otherwise Gemini's, otherwise
 * `PENDING`.
 */
module ReportRoutes {
  import opened Wrappers
  import opened Enums
  import opened Reports

  /** The status the summary shows: a completed LangChain run wins over whatever Gemini did. */
  function SummaryStatus(report: ResearchReport): ResearchStatus {
    if report.langchainResult.Some? && report.langchainResult.value.status == Completed then Completed
    else if report.geminiResult.Some? then report.geminiResult.value.status
    else Pending
  }

  /** The tldr of a result, if there is one. */
  function TldrOf(result: Option<EngineResult>): Option<string> {
    if result.Some? then result.value.tldr else None
  }

  /** The summary of a report, as a function of the report. */
  function Summary(report: ResearchReport): ReportSummary {
    ReportSummary(report.reportId, report.runDate, SummaryStatus(report),
                  TldrOf(report.geminiResult), TldrOf(report.langchainResult))
  }

  /**
   * `_summarize`: start from `PENDING` and no tldrs, then let a Gemini result set its tldr
   * and status, then let a LangChain result set its tldr and, when completed, the status.
   */
  method Summarize(report: ResearchReport) returns (summary: ReportSummary)
    ensures summary == Summary(report)
  {
    var geminiTldr: Option<string> := None;
    var langchainTldr: Option<string> := None;
    var status := Pending;
    if report.geminiResult.Some? {
      geminiTldr := report.geminiResult.value.tldr;
      status := report.geminiResult.value.status;
    }
    if report.langchainResult.Some? {
      langchainTldr := report.langchainResult.value.tldr;
      if report.langchainResult.value.status == Completed {
        status := Completed;
      }
    }
    summary := ReportSummary(report.reportId, report.runDate, status, geminiTldr, langchainTldr);
  }

  /** A report with neither result is pending and has no tldr. */
  lemma NoResultsPending(report: ResearchReport)
    requires report.geminiResult.None? && report.langchainResult.None?
    ensures var s := Summary(report);
      s.status == Pending && s.geminiTldr == None && s.langchainTldr == None
  {
  }

  /** A Gemini result gives its tldr, and its status unless LangChain completed. */
  lemma GeminiProvisional(report: ResearchReport)
    requires report.geminiResult.Some?
    ensures var s := Summary(report);
      && s.geminiTldr == report.geminiResult.value.tldr
      && (report.langchainResult.None? || report.langchainResult.value.status != Completed ==>
            s.status == report.geminiResult.value.status)
  {
  }

  /** A completed LangChain result makes the summary completed, whatever Gemini did. */
  lemma LangChainCompletedWins(report: ResearchReport)
    requires report.langchainResult.Some? && report.langchainResult.value.status == Completed
    ensures Summary(report).status == Completed
  {
  }

  /** A LangChain result that did not complete leaves Gemini's status, or `PENDING` without one. */
  lemma LangChainUnfinishedDefers(report: ResearchReport)
    requires report.langchainResult.Some? && report.langchainResult.value.status != Completed
    ensures var s := Summary(report);
      && (report.geminiResult.Some? ==> s.status == report.geminiResult.value.status)
      && (report.geminiResult.None? ==> s.status == Pending)
  {
  }

  /** The id, the run date and LangChain's tldr are copied unchanged. */
  lemma FieldsCopied(report: ResearchReport)
    ensures var s := Summary(report);
      && s.reportId == report.reportId && s.runDate == report.runDate
      && s.langchainTldr == (if report.langchainResult.Some? then report.langchainResult.value.tldr else None)
  {
  }

  /** The summary is completed exactly when one of the engines completed. */
  lemma CompletedIffAnEngineCompleted(report: ResearchReport)
    ensures Summary(report).status == Completed <==>
      || (report.geminiResult.Some? && report.geminiResult.value.status == Completed)
      || (report.langchainResult.Some? && report.langchainResult.value.status == Completed)
  {
  }

  /** The summary only ever shows `PENDING` or the status of a result the report holds. */
  lemma StatusFromTheReport(report: ResearchReport)
    ensures var st := Summary(report).status;
      || st == Pending
      || (report.geminiResult.Some? && st == report.geminiResult.value.status)
      || (report.langchainResult.Some? && st == report.langchainResult.value.status)
  {
  }
}
