/**
 * The Python daily-research orchestrator, `ResearchOrchestrator.run_daily_research` of
 * src/service/research_orchestrator.py, with the Firestore repository's `save_report`
 * (src/repo/firestore_client.py) as the one effect.
 *
 * The engine clients and `build_research_prompt` are parameters. The two engine runs are
 * concurrent in the source; each runner captures its own failure, so they are taken one after
 * the other, each with its own clock readings. The time the report is stamped with is given,
 * and so is whether the database write fails.
 */
module Orchestrator {
  import opened Wrappers
  import opened Enums
  import opened Reports
  import opened Clocks
  import opened EngineRunner

  const ReportPrefix: string := "rpt-"

  /** `f"rpt-{date}"`: the report id names the date and nothing else. */
  function ReportId(date: string): (id: string)
    ensures |id| == |ReportPrefix| + |date|
    ensures id[..|ReportPrefix|] == ReportPrefix && id[|ReportPrefix|..] == date
  {
    ReportPrefix + date
  }

  /** Different dates give different report ids, so one day's report never replaces another's. */
  lemma ReportIdInjective(d1: string, d2: string)
    requires ReportId(d1) == ReportId(d2)
    ensures d1 == d2
  {
    assert d1 == ReportId(d1)[|ReportPrefix|..];
  }

  const SaveFailedPrefix: string := "Failed to save report "

  /**
   * The Firestore repository: the documents it holds by report id, and the ghost log of
   * every report `save_report` was asked to write.
   */
  class ReportStore {
    var documents: map<string, ResearchReport>
    ghost var attempts: seq<ResearchReport>

    constructor()
      ensures documents == map[] && attempts == []
    {
      documents := map[];
      attempts := [];
    }

    /**
     * `save_report`: one attempt is logged; a successful write sets the document named by
     * the report id, and a failed one changes no document and raises `FirestoreError`
     * naming the report.
     */
    method SaveReport(report: ResearchReport, fails: bool) returns (r: Result<(), string>)
      modifies this
      ensures attempts == old(attempts) + [report]
      ensures fails ==> r == Err(SaveFailedPrefix + report.reportId) && documents == old(documents)
      ensures !fails ==> r == Ok(()) && documents == old(documents)[report.reportId := report]
    {
      attempts := attempts + [report];
      if fails {
        return Err(SaveFailedPrefix + report.reportId);
      }
      documents := documents[report.reportId := report];
      return Ok(());
    }
  }

  /** The clock readings of one daily run: one per engine, and the report's timestamp. */
  datatype RunClocks = RunClocks(gemini: Clock, langchain: Clock, now: int)

  /**
   * The report `run_daily_research` builds: both engines ran on the same prompt, each
   * through its own runner, and the report carries both results and one timestamp.
   */
  function DailyReport(date: string, buildPrompt: string -> string, gemini: string -> RunOutcome,
                       langchain: string -> RunOutcome, clocks: RunClocks, p: Parsers): (report: ResearchReport)
    ensures report.reportId == ReportId(date)
    ensures report.runDate == report.createdAt == clocks.now
    ensures report.geminiResult.Some? && report.langchainResult.Some?
    ensures report.geminiResult.value.engine == Gemini
    ensures report.langchainResult.value.engine == LangChain
  {
    var prompt := buildPrompt(date);
    ResearchReport(
      ReportId(date),
      clocks.now,
      Some(RunGeminiEngine(gemini, prompt, clocks.gemini, p)),
      Some(RunLangChainEngine(langchain, prompt, clocks.langchain, p)),
      clocks.now)
  }

  /**
   * Each result is what its own engine's runner made of that engine's outcome on the date's
   * prompt: a failing engine yields a failed result carrying its message, and never
   * prevents the report.
   */
  lemma EachResultFromItsEngine(date: string, buildPrompt: string -> string, gemini: string -> RunOutcome,
                                langchain: string -> RunOutcome, clocks: RunClocks, p: Parsers)
    ensures var report := DailyReport(date, buildPrompt, gemini, langchain, clocks, p);
      var prompt := buildPrompt(date);
      && report.geminiResult == Some(RunEngine(Gemini, gemini(prompt), clocks.gemini, p))
      && report.langchainResult == Some(RunEngine(LangChain, langchain(prompt), clocks.langchain, p))
      && (gemini(prompt).Raised? ==>
            report.geminiResult.value.status == Failed
            && report.geminiResult.value.errorMessage == Some(gemini(prompt).message))
      && (langchain(prompt).Raised? ==>
            report.langchainResult.value.status == Failed
            && report.langchainResult.value.errorMessage == Some(langchain(prompt).message))
  {
  }

  /**
   * Both engines see one prompt, the date's: clients that agree on that prompt give the
   * same report, whatever they would answer to any other.
   */
  lemma OnlyTheDatePromptMatters(date: string, buildPrompt: string -> string,
                                 g1: string -> RunOutcome, g2: string -> RunOutcome,
                                 l1: string -> RunOutcome, l2: string -> RunOutcome,
                                 clocks: RunClocks, p: Parsers)
    requires g1(buildPrompt(date)) == g2(buildPrompt(date))
    requires l1(buildPrompt(date)) == l2(buildPrompt(date))
    ensures DailyReport(date, buildPrompt, g1, l1, clocks, p) == DailyReport(date, buildPrompt, g2, l2, clocks, p)
  {
  }

  /** The orchestrator: the two engine clients and the repository it saves to. */
  class ResearchOrchestrator {
    const gemini: string -> RunOutcome
    const langchain: string -> RunOutcome
    const store: ReportStore

    constructor(gemini: string -> RunOutcome, langchain: string -> RunOutcome, store: ReportStore)
      ensures this.gemini == gemini && this.langchain == langchain && this.store == store
    {
      this.gemini := gemini;
      this.langchain := langchain;
      this.store := store;
    }

    /**
     * `run_daily_research`: exactly one save is attempted, with the very report that is
     * returned; only a failed save makes the call fail, with the repository's error.
     */
    method RunDailyResearch(date: string, buildPrompt: string -> string, clocks: RunClocks, p: Parsers, saveFails: bool)
      returns (r: Result<ResearchReport, string>)
      modifies store
      ensures var report := DailyReport(date, buildPrompt, gemini, langchain, clocks, p);
        && store.attempts == old(store.attempts) + [report]
        && (r.Ok? <==> !saveFails)
        && (r.Ok? ==> r.value == report && store.documents == old(store.documents)[report.reportId := report])
        && (r.Err? ==> r.error == SaveFailedPrefix + ReportId(date) && store.documents == old(store.documents))
    {
      var prompt := buildPrompt(date);
      var reportId := ReportId(date);
      var geminiResult := RunGeminiEngine(gemini, prompt, clocks.gemini, p);
      var langchainResult := RunLangChainEngine(langchain, prompt, clocks.langchain, p);
      var now := clocks.now;
      var report := ResearchReport(reportId, now, Some(geminiResult), Some(langchainResult), now);
      var saved := store.SaveReport(report, saveFails);
      if saved.Err? {
        return Err(saved.error);
      }
      return Ok(report);
    }
  }
}
