/**
 * The records the pipeline produces, from src/types/enums.py, backend/types/events.py,
 * src/types/report.py, src/types/requests.py and the Rust files under rust-backend/src/types.
 * Clock readings (`datetime`, `DateTime<Utc>`, `time.monotonic()`) are abstract integers.
 */
module Enums {
  datatype EngineType = Gemini | LangChain
  datatype ResearchStatus = Pending | Running | Completed | Failed
  datatype ConfidenceLevel = High | Medium | Low
  datatype EventCategory = ProductLaunch | Funding | Partnership | Regulation | Research | OpenSource
}

/** Python event records (backend/types/events.py); the Rust `DeepDive` and `CompletenessAudit` have the same shape. */
module Events {
  import opened Enums

  /** `impact_rating` is declared `Field(ge=1, le=10)`; see `ValidEvent`. */
  datatype ViralEvent = ViralEvent(
    headline: string,
    category: EventCategory,
    impactRating: int,
    confidence: ConfidenceLevel,
    source: string)

  predicate ValidEvent(e: ViralEvent) {
    1 <= e.impactRating <= 10
  }

  datatype DeepDive = DeepDive(title: string, priority: string, summary: string, keyFindings: seq<string>)

  /** `confidence_score` is declared `Field(ge=0.0, le=1.0)` on the Python side only. */
  datatype CompletenessAudit = CompletenessAudit(
    verifiedSignals: int,
    sourcesChecked: int,
    confidenceScore: real,
    gaps: seq<string>)
}

/** Python report records (src/types/report.py, src/types/requests.py). */
module Reports {
  import opened Wrappers
  import opened Enums
  import opened Events

  datatype EngineResult = EngineResult(
    engine: EngineType,
    status: ResearchStatus,
    rawMarkdown: string,
    tldr: Option<string>,
    viralEvents: seq<ViralEvent>,
    deepDives: seq<DeepDive>,
    completenessAudit: Option<CompletenessAudit>,
    startedAt: int,
    completedAt: int,
    durationSeconds: int,
    errorMessage: Option<string>)

  datatype ResearchReport = ResearchReport(
    reportId: string,
    runDate: int,
    geminiResult: Option<EngineResult>,
    langchainResult: Option<EngineResult>,
    createdAt: int)

  datatype ReportSummary = ReportSummary(
    reportId: string,
    runDate: int,
    status: ResearchStatus,
    geminiTldr: Option<string>,
    langchainTldr: Option<string>)
}

/** Rust records (rust-backend/src/types/events.rs, report.rs). */
module RustTypes {
  import opened Wrappers
  import opened Enums
  import opened Events

  /** The Rust event carries a `summary` the Python one lacks; `impact_rating` is a plain `i32`. */
  datatype ViralEvent = ViralEvent(
    headline: string,
    category: EventCategory,
    impactRating: int,
    confidence: ConfidenceLevel,
    source: string,
    summary: string)

  datatype EngineResult = EngineResult(
    status: ResearchStatus,
    rawMarkdown: string,
    tldr: Option<string>,
    viralEvents: seq<ViralEvent>,
    deepDives: seq<DeepDive>,
    completenessAudit: Option<CompletenessAudit>,
    startedAt: int,
    completedAt: int,
    durationSeconds: int,
    errorMessage: Option<string>)

  datatype ResearchReport = ResearchReport(
    reportId: string,
    runDate: int,
    result: Option<EngineResult>,
    createdAt: int)
}

/**
 * The clock readings one engine run takes: the wall clock before and after the call
 * (`datetime.now`, `Utc::now`) and the monotonic clock before and after it
 * (`time.monotonic`, `Instant::now`), all as integers.
 */
module Clocks {
  datatype Clock = Clock(startedAt: int, completedAt: int, startMono: int, endMono: int)

  /** The elapsed monotonic time, the engine result's `duration_seconds`. */
  function Elapsed(c: Clock): (d: int)
    ensures c.startMono <= c.endMono ==> d >= 0
    ensures c.startMono + d == c.endMono
  {
    c.endMono - c.startMono
  }
}
