/**
 * The Rust engine runner, `run_engine` of rust-backend/src/engines/runner.rs: the engine's
 * `Result` becomes an `EngineResult`, so an engine failure is recorded rather than returned.
 * The clock readings are given; `str::parse` is a parameter, as in the parser.
 */
module RustRunner {
  import opened Wrappers
  import opened Enums
  import opened Events
  import opened Clocks
  import RustTypes
  import RustParser

  /** `run_engine` with the engine's result given. */
  function RunEngine(result: Result<string, string>, clock: Clock,
                     parseI32: RustParser.I32Parser, parseF64: RustParser.F64Parser): (r: RustTypes.EngineResult)
    ensures r.startedAt == clock.startedAt && r.completedAt == clock.completedAt
    ensures r.durationSeconds == Elapsed(clock)
    ensures r.status == Completed || r.status == Failed
    ensures r.status == Failed <==> r.errorMessage.Some?
    ensures r.status == Completed <==> result.Ok?
    ensures result.Ok? ==>
      && r.rawMarkdown == result.value
      && r.tldr == RustParser.ParseTldr(result.value)
      && r.viralEvents == RustParser.ViralEvents(result.value, parseI32)
      && r.deepDives == RustParser.DeepDives(result.value)
      && r.completenessAudit == RustParser.CompletenessAuditOf(result.value, parseI32, parseF64)
    ensures result.Err? ==>
      && r.rawMarkdown == [] && r.tldr == None && r.viralEvents == [] && r.deepDives == []
      && r.completenessAudit == None && r.errorMessage == Some(result.error)
    ensures r.tldr.Some? ==> r.tldr.value != []
  {
    match result
    case Ok(md) =>
      RustTypes.EngineResult(
        Completed, md,
        RustParser.ParseTldr(md),
        RustParser.ViralEvents(md, parseI32),
        RustParser.DeepDives(md),
        RustParser.CompletenessAuditOf(md, parseI32, parseF64),
        clock.startedAt, clock.completedAt, Elapsed(clock), None)
    case Err(e) =>
      RustTypes.EngineResult(Failed, "", None, [], [], None, clock.startedAt, clock.completedAt, Elapsed(clock), Some(e))
  }

  /** Every event a result carries is headlined and rated within [1, 10]; every dive is titled. */
  lemma ResultWellFormed(result: Result<string, string>, clock: Clock,
                         parseI32: RustParser.I32Parser, parseF64: RustParser.F64Parser)
    ensures var r := RunEngine(result, clock, parseI32, parseF64);
      && (forall e :: e in r.viralEvents ==> e.headline != [] && 1 <= e.impactRating <= 10)
      && (forall d :: d in r.deepDives ==> d.title != [])
  {
    if result.Ok? {
      RustParser.ViralEventsValid(result.value, parseI32);
      RustParser.DeepDivesTitled(result.value);
    }
  }
}
