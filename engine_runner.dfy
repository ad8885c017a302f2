/**
 * The Python engine runner, src/service/engine_runner.py: one engine call becomes an
 * `EngineResult` whatever the call did, so an engine failure never reaches the caller.
 *
 * The engine client is a parameter taking a prompt to how `run_research` ended; the clock
 * readings are given. Parsing runs inside the `try`, so an audit score that the
 * `CompletenessAudit` record rejects fails the run like an engine error does; the text of
 * that validation error is a parameter.
 */
module EngineRunner {
  import opened Wrappers
  import opened Enums
  import opened Events
  import opened Reports
  import opened Clocks
  import ReportParser

  /** How `run_fn(prompt)` ended: its markdown, or the text of the exception it raised. */
  datatype RunOutcome = Returned(markdown: string) | Raised(message: string)

  /** `int()`, `float()`, and `str()` of the audit record's validation error. */
  datatype Parsers = Parsers(parseInt: ReportParser.IntParser, parseFloat: ReportParser.FloatParser, rejection: string)

  /** The `except` branch: a failed result that keeps only the engine, the clock and the message. */
  function FailedResult(engine: EngineType, clock: Clock, message: string): (r: EngineResult)
    ensures r.engine == engine && r.status == Failed && r.errorMessage == Some(message)
    ensures r.rawMarkdown == [] && r.tldr == None && r.viralEvents == [] && r.deepDives == []
    ensures r.completenessAudit == None
    ensures r.startedAt == clock.startedAt && r.completedAt == clock.completedAt
    ensures r.durationSeconds == Elapsed(clock)
  {
    EngineResult(engine, Failed, "", None, [], [], None, clock.startedAt, clock.completedAt, Elapsed(clock), Some(message))
  }

  /** `_run_engine` as a value. */
  function RunEngine(engine: EngineType, outcome: RunOutcome, clock: Clock, p: Parsers): (r: EngineResult)
    ensures r.engine == engine
    ensures r.startedAt == clock.startedAt && r.completedAt == clock.completedAt
    ensures r.durationSeconds == Elapsed(clock)
    ensures r.status == Completed || r.status == Failed
    ensures r.status == Failed <==> r.errorMessage.Some?
    ensures outcome.Raised? ==> r.status == Failed && r.errorMessage == Some(outcome.message)
    ensures outcome.Returned? ==>
      var audit := ReportParser.CompletenessAuditOf(outcome.markdown, p.parseInt, p.parseFloat);
      (r.status == Completed <==> !audit.ScoreRejected?)
    ensures r.status == Completed ==>
      var md := outcome.markdown;
      var audit := ReportParser.CompletenessAuditOf(md, p.parseInt, p.parseFloat);
      && outcome.Returned?
      && r.rawMarkdown == md
      && r.tldr == Some(ReportParser.ParseTldr(md))
      && r.viralEvents == ReportParser.ViralEvents(md, p.parseInt)
      && r.deepDives == ReportParser.DeepDives(md)
      && r.completenessAudit == (if audit.Audit? then Some(audit.audit) else None)
    ensures r.status == Failed ==>
      && r.rawMarkdown == [] && r.tldr == None && r.viralEvents == [] && r.deepDives == []
      && r.completenessAudit == None
  {
    match outcome
    case Raised(message) => FailedResult(engine, clock, message)
    case Returned(md) =>
      var tldr := ReportParser.ParseTldr(md);
      var events := ReportParser.ViralEvents(md, p.parseInt);
      var dives := ReportParser.DeepDives(md);
      var audit := ReportParser.CompletenessAuditOf(md, p.parseInt, p.parseFloat);
      if audit.ScoreRejected? then FailedResult(engine, clock, p.rejection)
      else
        EngineResult(engine, Completed, md, Some(tldr), events, dives,
                     if audit.Audit? then Some(audit.audit) else None,
                     clock.startedAt, clock.completedAt, Elapsed(clock), None)
  }

  /** `run_gemini_engine`: the client's outcome on the prompt, tagged GEMINI. */
  function RunGeminiEngine(client: string -> RunOutcome, prompt: string, clock: Clock, p: Parsers): (r: EngineResult)
    ensures r.engine == Gemini
  {
    RunEngine(Gemini, client(prompt), clock, p)
  }

  /** `run_langchain_engine`: the client's outcome on the prompt, tagged LANGCHAIN. */
  function RunLangChainEngine(client: string -> RunOutcome, prompt: string, clock: Clock, p: Parsers): (r: EngineResult)
    ensures r.engine == LangChain
  {
    RunEngine(LangChain, client(prompt), clock, p)
  }

  /**
   * What a completed result carries satisfies the records' declared bounds: at most one
   * event and one dive (the Python section terminator), every rating in [1, 10], every
   * headline and title non-empty, and an audit score in [0.0, 1.0].
   */
  lemma CompletedResultWellFormed(engine: EngineType, outcome: RunOutcome, clock: Clock, p: Parsers)
    ensures var r := RunEngine(engine, outcome, clock, p);
      r.status == Completed ==>
        && |r.viralEvents| <= 1 && |r.deepDives| <= 1
        && (forall e :: e in r.viralEvents ==> ValidEvent(e) && e.headline != [])
        && (forall d :: d in r.deepDives ==> d.title != [])
        && (r.completenessAudit.Some? ==> 0.0 <= r.completenessAudit.value.confidenceScore <= 1.0)
  {
    if outcome.Returned? {
      var md := outcome.markdown;
      ReportParser.ViralEventsAtMostOne(md, p.parseInt);
      ReportParser.ViralEventsValid(md, p.parseInt);
      ReportParser.DeepDivesAtMostOne(md);
      ReportParser.DeepDivesTitled(md);
      ReportParser.AuditWellFormed(md, p.parseInt, p.parseFloat);
    }
  }

  /**
   * Completion does not need a TL;DR section, nor any text at all: an empty answer
   * completes, with `tldr == ""` rather than `None`, and no events, dives or audit.
   */
  lemma EmptyAnswerCompletes(engine: EngineType, clock: Clock, p: Parsers)
    ensures var r := RunEngine(engine, Returned(""), clock, p);
      && r.status == Completed && r.errorMessage == None
      && r.tldr == Some("") && r.viralEvents == [] && r.deepDives == [] && r.completenessAudit == None
  {
    ReportParser.TldrAbsent("");
    ReportParser.ViralEventsAbsent("", p.parseInt);
    ReportParser.DeepDivesAbsent("");
    ReportParser.AuditAbsent("", p.parseInt, p.parseFloat);
  }
}
