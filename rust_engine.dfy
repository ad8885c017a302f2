/**
 * The Rust research engine, `run_research` of rust-backend/src/engines/engine.rs: the search
 * context with its fallback, the composed prompt, three model calls that share it, the
 * ordered error selection and the joined output.
 *
 * The search outcome is given; the model is a parameter taking a preamble and a prompt to
 * what `call_llm` returned. The three calls run concurrently in the source; their results
 * are independent, so they are taken as three values.
 */
module RustEngine {
  import opened Wrappers

  /** The sentence every preamble opens with (the `\` line continuations drop the line break). */
  const AnalystLead: string :=
    "You are a Deep Research Analyst \U{2014} providing comprehensive intelligence analysis. "

  const TldrPreamble: string := AnalystLead
    + "Produce ONLY the ## TL;DR section with 3-5 bullet executive summary. "
    + "Do not produce any other sections."

  const EventsPreamble: string := AnalystLead
    + "Produce ONLY the ## Global Viral Events section. "
    + "For each event use this format:\n"
    + "### <Headline>\n"
    + "- **Category**: <category>\n"
    + "- **Impact Rating**: <1-10>\n"
    + "- **Confidence**: <high|medium|low>\n"
    + "- **Source**: <source URL or name>\n"
    + "- **Summary**: <2-3 sentence description of the event, its significance, and key details>\n"
    + "Do not produce any other sections."

  const DivesAuditPreamble: string := AnalystLead
    + "Produce ONLY the ## Strategic Deep Dives and ## Completeness Audit sections. "
    + "For deep dives use:\n"
    + "### <Title>\n"
    + "- **Priority**: HIGH|MEDIUM|LOW\n"
    + "- **Summary**: <paragraph>\n"
    + "- **Key Findings**\n"
    + "- <finding>\n"
    + "For completeness audit use:\n"
    + "- **Verified Signals**: <int>\n"
    + "- **Sources Checked**: <int>\n"
    + "- **Confidence Score**: <0.0-1.0>\n"
    + "- **Gaps**: <comma-separated list>\n"
    + "Do not produce any other sections."

  const ContextHeader: string := "\n\nSearch context:\n"

  const TldrFailed: string := "TL;DR failed: "
  const EventsFailed: string := "Events failed: "
  const DivesFailed: string := "Dives failed: "

  /** A model call: preamble and prompt to the answer text or the error's text. */
  type Llm = (string, string) -> Result<string, string>

  /** `unwrap_or_default` on the search outcome. */
  function SearchContext(search: Result<string, string>): (c: string)
    ensures search.Ok? ==> c == search.value
    ensures search.Err? ==> c == []
  {
    if search.Ok? then search.value else ""
  }

  /** `format!("{prompt}\n\nSearch context:\n{search_context}")`. */
  function FullPrompt(prompt: string, search: Result<string, string>): (r: string)
    ensures |r| == |prompt| + |ContextHeader| + |SearchContext(search)|
    ensures r[..|prompt|] == prompt
    ensures r[|prompt|..|prompt| + |ContextHeader|] == ContextHeader
    ensures r[|prompt| + |ContextHeader|..] == SearchContext(search)
  {
    prompt + ContextHeader + SearchContext(search)
  }

  /**
   * `run_research`: it succeeds exactly when all three calls do, and then yields their
   * answers in TL;DR, events, dives order joined by blank lines; otherwise the error names
   * the first failed call, checked in that order, followed by its error text.
   */
  function RunResearch(prompt: string, search: Result<string, string>, llm: Llm): (r: Result<string, string>)
    ensures var fp := FullPrompt(prompt, search);
      var t := llm(TldrPreamble, fp);
      var e := llm(EventsPreamble, fp);
      var d := llm(DivesAuditPreamble, fp);
      && (r.Ok? <==> t.Ok? && e.Ok? && d.Ok?)
      && (r.Ok? ==> r.value == t.value + "\n\n" + e.value + "\n\n" + d.value)
      && (t.Err? ==> r.error == TldrFailed + t.error)
      && (t.Ok? && e.Err? ==> r.error == EventsFailed + e.error)
      && (t.Ok? && e.Ok? && d.Err? ==> r.error == DivesFailed + d.error)
  {
    var fullPrompt := FullPrompt(prompt, search);
    var tldr := llm(TldrPreamble, fullPrompt);
    var events := llm(EventsPreamble, fullPrompt);
    var dives := llm(DivesAuditPreamble, fullPrompt);
    if tldr.Err? then Err(TldrFailed + tldr.error)
    else if events.Err? then Err(EventsFailed + events.error)
    else if dives.Err? then Err(DivesFailed + dives.error)
    else Ok(tldr.value + "\n\n" + events.value + "\n\n" + dives.value)
  }

  /** A failed search never fails the run: it counts as an empty context. */
  lemma SearchFailureTolerated(prompt: string, e: string, llm: Llm)
    ensures RunResearch(prompt, Err(e), llm) == RunResearch(prompt, Ok(""), llm)
  {
    assert FullPrompt(prompt, Err(e)) == FullPrompt(prompt, Ok(""));
  }

  /**
   * Only three calls matter, all with the same composed prompt: two models that answer those
   * three (preamble, prompt) pairs alike give the same run.
   */
  lemma OnlyThreeCallsMatter(prompt: string, search: Result<string, string>, llm1: Llm, llm2: Llm)
    requires var fp := FullPrompt(prompt, search);
      && llm1(TldrPreamble, fp) == llm2(TldrPreamble, fp)
      && llm1(EventsPreamble, fp) == llm2(EventsPreamble, fp)
      && llm1(DivesAuditPreamble, fp) == llm2(DivesAuditPreamble, fp)
    ensures RunResearch(prompt, search, llm1) == RunResearch(prompt, search, llm2)
  {
  }

  /** The three preambles are pairwise different, so the calls differ only in their preamble. */
  lemma PreamblesDistinct()
    ensures TldrPreamble != EventsPreamble && EventsPreamble != DivesAuditPreamble
    ensures TldrPreamble != DivesAuditPreamble
  {
    assert |TldrPreamble| < |EventsPreamble| < |DivesAuditPreamble|;
  }
}
