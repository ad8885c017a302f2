/**
 * The Rust daily-research orchestrator, `run_daily_research` of rust-backend/src/orchestrator.rs,
 * with the SQLite repository's `save_report` (rust-backend/src/repo/sqlite.rs) as the one effect.
 *
 * The model and the Tavily client are parameters, as in the engine; `build_research_prompt`
 * is one too. The clock readings are given, and so is the error text of a failed save.
 */
module RustOrchestrator {
  import opened Wrappers
  import opened Enums
  import opened Clocks
  import RustTypes
  import RustParser
  import TavilyTool
  import RustEngine
  import RustRunner
  import Orchestrator

  const TopicPrefix: string := "AI industry developments "

  /** `format!("AI industry developments {date}")`: the web search is about the date only. */
  function SearchTopic(date: string): (topic: string)
    ensures |topic| == |TopicPrefix| + |date|
    ensures topic[..|TopicPrefix|] == TopicPrefix && topic[|TopicPrefix|..] == date
  {
    TopicPrefix + date
  }

  /** The repository: the rows it holds by report id, and the ghost log of every write asked of it. */
  class ReportRepo {
    var rows: map<string, RustTypes.ResearchReport>
    ghost var attempts: seq<RustTypes.ResearchReport>

    constructor()
      ensures rows == map[] && attempts == []
    {
      rows := map[];
      attempts := [];
    }

    /**
     * `save_report`: one attempt is logged; `INSERT OR REPLACE` sets the row named by the
     * report id, and a failure changes no row and returns its error.
     */
    method SaveReport(report: RustTypes.ResearchReport, failure: Option<string>) returns (r: Result<(), string>)
      modifies this
      ensures attempts == old(attempts) + [report]
      ensures failure.Some? ==> r == Err(failure.value) && rows == old(rows)
      ensures failure.None? ==> r == Ok(()) && rows == old(rows)[report.reportId := report]
    {
      attempts := attempts + [report];
      if failure.Some? {
        return Err(failure.value);
      }
      rows := rows[report.reportId := report];
      return Ok(());
    }
  }

  /** What the one engine run of a day yields: search, three model calls, then the runner. */
  function DailyResult(date: string, buildPrompt: string -> string, tavily: string -> TavilyTool.SearchResult,
                       llm: RustEngine.Llm, clock: Clock,
                       parseI32: RustParser.I32Parser, parseF64: RustParser.F64Parser): (r: RustTypes.EngineResult)
    ensures var run := RustEngine.RunResearch(buildPrompt(date),
                                              TavilyTool.Merged(TavilyTool.SearchAll(SearchTopic(date), tavily)), llm);
      && (r.status == Completed <==> run.Ok?)
      && (run.Err? ==> r.errorMessage == Some(run.error))
      && (run.Ok? ==> r.rawMarkdown == run.value && r.errorMessage == None)
  {
    var search := TavilyTool.Merged(TavilyTool.SearchAll(SearchTopic(date), tavily));
    RustRunner.RunEngine(RustEngine.RunResearch(buildPrompt(date), search, llm), clock, parseI32, parseF64)
  }

  /**
   * `run_daily_research`: the engine runs on the date's prompt and topic, the report always
   * carries its result, one save is attempted with that report, and a save error is returned
   * instead of the report.
   */
  method RunDailyResearch(date: string, buildPrompt: string -> string, tavily: string -> TavilyTool.SearchResult,
                          llm: RustEngine.Llm, clock: Clock, now: int,
                          parseI32: RustParser.I32Parser, parseF64: RustParser.F64Parser,
                          repo: ReportRepo, saveFailure: Option<string>)
    returns (r: Result<RustTypes.ResearchReport, string>)
    modifies repo
    ensures var report := RustTypes.ResearchReport(
        Orchestrator.ReportId(date), now,
        Some(DailyResult(date, buildPrompt, tavily, llm, clock, parseI32, parseF64)), now);
      && repo.attempts == old(repo.attempts) + [report]
      && (r.Ok? <==> saveFailure.None?)
      && (r.Ok? ==> r.value == report && repo.rows == old(repo.rows)[report.reportId := report])
      && (r.Err? ==> r.error == saveFailure.value && repo.rows == old(repo.rows))
  {
    var reportId := Orchestrator.ReportId(date);
    var prompt := buildPrompt(date);
    var searchTopic := SearchTopic(date);
    var search := TavilyTool.ParallelSearch(searchTopic, tavily);
    var result := RustRunner.RunEngine(RustEngine.RunResearch(prompt, search, llm), clock, parseI32, parseF64);
    var report := RustTypes.ResearchReport(reportId, now, Some(result), now);
    var saved := repo.SaveReport(report, saveFailure);
    if saved.Err? {
      return Err(saved.error);
    }
    return Ok(report);
  }

  /**
   * A day on which every search fails still produces a report: the model calls run on the
   * prompt with an empty context.
   */
  lemma SearchOutageTolerated(date: string, buildPrompt: string -> string, tavily: string -> TavilyTool.SearchResult,
                              llm: RustEngine.Llm, clock: Clock,
                              parseI32: RustParser.I32Parser, parseF64: RustParser.F64Parser)
    requires forall i :: 0 <= i < 3 ==> tavily(TavilyTool.BuildQueries(SearchTopic(date))[i]).Err?
    ensures DailyResult(date, buildPrompt, tavily, llm, clock, parseI32, parseF64)
         == RustRunner.RunEngine(RustEngine.RunResearch(buildPrompt(date), Ok(""), llm), clock, parseI32, parseF64)
  {
    TavilyTool.AllSearchesFailed(SearchTopic(date), tavily);
    RustEngine.SearchFailureTolerated(buildPrompt(date), TavilyTool.AllFailed, llm);
  }

  /**
   * A failing model call fails the engine run, not the day: the report then carries a
   * failed result whose message names the first failed call.
   */
  lemma ModelFailureRecorded(date: string, buildPrompt: string -> string, tavily: string -> TavilyTool.SearchResult,
                             llm: RustEngine.Llm, clock: Clock,
                             parseI32: RustParser.I32Parser, parseF64: RustParser.F64Parser)
    requires var fp := RustEngine.FullPrompt(buildPrompt(date), TavilyTool.Merged(TavilyTool.SearchAll(SearchTopic(date), tavily)));
      llm(RustEngine.TldrPreamble, fp).Err?
    ensures var r := DailyResult(date, buildPrompt, tavily, llm, clock, parseI32, parseF64);
      var fp := RustEngine.FullPrompt(buildPrompt(date), TavilyTool.Merged(TavilyTool.SearchAll(SearchTopic(date), tavily)));
      && r.status == Failed
      && r.errorMessage == Some(RustEngine.TldrFailed + llm(RustEngine.TldrPreamble, fp).error)
  {
  }
}
