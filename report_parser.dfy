/**
 * The Python section extractor, src/service/report_parser.py (`ReportParser`).
 *
 * `int()` and `float()` are parameters: `None` stands for the `ValueError` they raise.
 * The records it builds are pydantic models; `ViralEvent.impact_rating` is declared in
 * [1, 10] and `CompletenessAudit.confidence_score` in [0.0, 1.0], and building a record
 * outside those bounds raises instead of returning.
 */
module ReportParser {
  import opened Wrappers
  import opened Text
  import opened Enums
  import opened Events
  import opened Markdown

  /** `int(s)`: the value, or `None` where it raises `ValueError`. */
  type IntParser = string -> Option<int>

  /** `float(s)`: the value, or `None` where it raises `ValueError`. */
  type FloatParser = string -> Option<real>

  /** The body lookahead `(?=\n##|\Z)`: a newline followed by `##` (so also `\n###`). */
  const Terminator: string := "\n##"

  const TldrTitle: string := "TL;DR"
  const EventsTitle: string := "Global Viral Events"
  const DivesTitle: string := "Strategic Deep Dives"
  const AuditTitle: string := "Completeness Audit"

  const CategoryMap: map<string, EventCategory> := map[
    "product_launch" := ProductLaunch,
    "funding" := Funding,
    "partnership" := Partnership,
    "regulation" := Regulation,
    "research" := Research,
    "open_source" := OpenSource]

  const ConfidenceMap: map<string, ConfidenceLevel> := map[
    "high" := High,
    "medium" := Medium,
    "low" := Low]

  // ---------------------------------------------------------------------------------------
  // TL;DR
  // ---------------------------------------------------------------------------------------

  /** `parse_tldr`: the stripped body of the first `## TL;DR` section, or "" without one. */
  function ParseTldr(md: string): string {
    var section := Section(md, TldrTitle, Terminator);
    if section.None? then "" else Trim(section.value)
  }

  /** The summary has no whitespace at either end. */
  lemma TldrStripped(md: string)
    ensures Unpadded(ParseTldr(md))
  {
    var section := Section(md, TldrTitle, Terminator);
    if section.Some? {
      TrimmedEnds(section.value);
    }
  }

  /** Without a `## TL;DR` header the summary is empty. */
  lemma TldrAbsent(md: string)
    requires !HasHeader(md, TldrTitle)
    ensures ParseTldr(md) == ""
  {
    SectionFound(md, TldrTitle, Terminator);
  }

  /** The summary never runs into a following `##` heading. */
  lemma TldrStopsAtHeading(md: string)
    ensures FreeOf(ParseTldr(md), Terminator)
  {
    match Section(md, TldrTitle, Terminator) {
      case None =>
      case Some(body) =>
        SectionFreeOfTerminator(md, TldrTitle, Terminator);
        TrimFreeOf(body, Terminator);
    }
  }

  // ---------------------------------------------------------------------------------------
  // Viral events
  // ---------------------------------------------------------------------------------------

  /** `CATEGORY_MAP.get(fields.get("category", "research"), RESEARCH)`. */
  function CategoryOf(fields: map<string, string>): (c: EventCategory)
    ensures "category" in fields && fields["category"] in CategoryMap ==> c == CategoryMap[fields["category"]]
    ensures !("category" in fields && fields["category"] in CategoryMap) ==> c == Research
  {
    var s := Lookup(fields, "category", "research");
    if s in CategoryMap then CategoryMap[s] else Research
  }

  /** `CONFIDENCE_MAP.get(fields.get("confidence", "medium"), MEDIUM)`. */
  function ConfidenceOf(fields: map<string, string>): (c: ConfidenceLevel)
    ensures "confidence" in fields && fields["confidence"] in ConfidenceMap ==> c == ConfidenceMap[fields["confidence"]]
    ensures !("confidence" in fields && fields["confidence"] in ConfidenceMap) ==> c == Medium
  {
    var s := Lookup(fields, "confidence", "medium");
    if s in ConfidenceMap then ConfidenceMap[s] else Medium
  }

  /** `int(fields.get("impact rating", "5"))`, 5 on `ValueError`, clamped to [1, 10]. */
  function ImpactOf(fields: map<string, string>, parseInt: IntParser): (r: int)
    ensures 1 <= r <= 10
    ensures "impact rating" !in fields || parseInt(fields["impact rating"]).None? ==> r == 5
    ensures "impact rating" in fields && parseInt(fields["impact rating"]).Some? ==>
      r == ClampRating(parseInt(fields["impact rating"]).value)
  {
    var raw := if "impact rating" in fields then parseInt(fields["impact rating"]).GetOr(5) else 5;
    ClampRating(raw)
  }

  /** `_parse_single_event` as a value: `None` when the heading line is empty. */
  function SingleEvent(block: string, parseInt: IntParser): (r: Option<ViralEvent>)
    ensures r.Some? ==> r.value.headline != [] && ValidEvent(r.value)
  {
    var lines := Split(block, '\n');
    var headline := StripHeading(Trim(lines[0]));
    if headline == [] then None
    else
      var fields := FieldsOf(Stripped(lines[1..]), Anchored);
      Some(ViralEvent(
        headline,
        CategoryOf(fields),
        ImpactOf(fields, parseInt),
        ConfidenceOf(fields),
        Lookup(fields, "source", "Unknown")))
  }

  /** `_parse_single_event`. */
  method ParseSingleEvent(block: string, parseInt: IntParser) returns (event: Option<ViralEvent>)
    ensures event == SingleEvent(block, parseInt)
  {
    var lines := Split(block, '\n');
    var headline := StripHeading(Trim(lines[0]));
    if headline == [] {
      return None;
    }
    var fields := CollectFields(lines[1..], Anchored);
    var category := CategoryOf(fields);
    var confidence := ConfidenceOf(fields);
    var impact := 5;
    if "impact rating" in fields {
      match parseInt(fields["impact rating"]) {
        case Some(v) => impact := v;
        case None =>
      }
    }
    event := Some(ViralEvent(headline, category, ClampRating(impact), confidence, Lookup(fields, "source", "Unknown")));
  }

  /**
   * An event exists exactly when its heading line is not empty once its `#`s are gone; it
   * carries that heading, the category, confidence and rating read from its fields, and the
   * `source` field, or `"Unknown"` without one.
   */
  lemma EventFields(block: string, parseInt: IntParser)
    ensures var lines := Split(block, '\n');
      var fields := FieldsOf(Stripped(lines[1..]), Anchored);
      var r := SingleEvent(block, parseInt);
      && (r.None? <==> StripHeading(Trim(lines[0])) == [])
      && (r.Some? ==>
            && r.value.headline == StripHeading(Trim(lines[0]))
            && r.value.category == CategoryOf(fields)
            && r.value.confidence == ConfidenceOf(fields)
            && r.value.impactRating == ImpactOf(fields, parseInt)
            && r.value.source == (if "source" in fields then fields["source"] else "Unknown"))
  {
  }

  function EventParser(parseInt: IntParser): string -> Option<ViralEvent> {
    b => SingleEvent(b, parseInt)
  }

  /** `parse_viral_events` as a value. */
  function ViralEvents(md: string, parseInt: IntParser): seq<ViralEvent>
  {
    match Section(md, EventsTitle, Terminator)
    case None => []
    case Some(body) => FilterMapBlocks(Blocks(body), EventParser(parseInt))
  }

  /** `parse_viral_events`: split the section into `###` blocks and parse each non-blank one. */
  method ParseViralEvents(md: string, parseInt: IntParser) returns (events: seq<ViralEvent>)
    ensures events == ViralEvents(md, parseInt)
  {
    var section := Section(md, EventsTitle, Terminator);
    if section.None? {
      return [];
    }
    events := ParseEventBlocks(Blocks(section.value), parseInt);
  }

  /** The loop of `parse_viral_events` over the blocks of the section. */
  method ParseEventBlocks(blocks: seq<string>, parseInt: IntParser) returns (events: seq<ViralEvent>)
    ensures events == FilterMapBlocks(blocks, EventParser(parseInt))
  {
    events := [];
    var i := 0;
    while i < |blocks|
      invariant 0 <= i <= |blocks|
      invariant events == FilterMapBlocks(blocks[..i], EventParser(parseInt))
    {
      var block := Trim(blocks[i]);
      var item: seq<ViralEvent> := [];
      if block != [] {
        var event := ParseSingleEvent(block, parseInt);
        if event.Some? {
          item := [event.value];
        }
        BlockItemOf(blocks[i], EventParser(parseInt), event);
      } else {
        BlockItemOf(blocks[i], EventParser(parseInt), None);
      }
      FilterMapBlocksStep(blocks, EventParser(parseInt), i, item);
      events := events + item;
      i := i + 1;
    }
    Seqs.TakeAll(blocks);
  }

  /**
   * Because the body stops at the first `\n##`, it never contains the `\n###` block
   * separator: the Python extractor finds at most one event per report.
   */
  lemma ViralEventsAtMostOne(md: string, parseInt: IntParser)
    ensures |ViralEvents(md, parseInt)| <= 1
  {
    match Section(md, EventsTitle, Terminator) {
      case None =>
      case Some(body) =>
        SectionFreeOfTerminator(md, EventsTitle, Terminator);
        FreeOfLonger(body);
        BlocksOfUnsplittable(body);
        assert [body][..0] == [];
    }
  }

  /** Every event returned has a non-empty headline and a rating within the declared [1, 10]. */
  lemma ViralEventsValid(md: string, parseInt: IntParser)
    ensures forall e :: e in ViralEvents(md, parseInt) ==> ValidEvent(e) && e.headline != []
  {
    match Section(md, EventsTitle, Terminator) {
      case None =>
      case Some(body) =>
        var blocks := Blocks(body);
        forall e | e in FilterMapBlocks(blocks, EventParser(parseInt))
          ensures ValidEvent(e) && e.headline != []
        {
          FilterMapBlocksFrom(blocks, EventParser(parseInt), e);
          var k :| 0 <= k < |blocks| && Trim(blocks[k]) != [] && EventParser(parseInt)(Trim(blocks[k])) == Some(e);
          assert SingleEvent(Trim(blocks[k]), parseInt) == Some(e);
        }
    }
  }

  /** Without a `## Global Viral Events` header there are no events. */
  lemma ViralEventsAbsent(md: string, parseInt: IntParser)
    requires !HasHeader(md, EventsTitle)
    ensures ViralEvents(md, parseInt) == []
  {
    SectionFound(md, EventsTitle, Terminator);
  }

  // ---------------------------------------------------------------------------------------
  // Deep dives
  // ---------------------------------------------------------------------------------------

  /** `_parse_single_dive`: the anchored field matcher and the `in_findings` loop. */
  method ParseSingleDive(block: string) returns (dive: Option<DeepDive>)
    ensures dive == DiveOf(block, Anchored)
  {
    var lines := Split(block, '\n');
    var title := StripHeading(Trim(lines[0]));
    if title == [] {
      return None;
    }
    var st := RunDive(lines[1..], Anchored);
    dive := Some(DeepDive(title, Lookup(st.fields, "priority", "MEDIUM"), Lookup(st.fields, "summary", ""), st.findings));
  }

  function DiveParser(): string -> Option<DeepDive> {
    b => DiveOf(b, Anchored)
  }

  /** `parse_deep_dives` as a value. */
  function DeepDives(md: string): seq<DeepDive>
  {
    match Section(md, DivesTitle, Terminator)
    case None => []
    case Some(body) => FilterMapBlocks(Blocks(body), DiveParser())
  }

  /** `parse_deep_dives`. */
  method ParseDeepDives(md: string) returns (dives: seq<DeepDive>)
    ensures dives == DeepDives(md)
  {
    var section := Section(md, DivesTitle, Terminator);
    if section.None? {
      return [];
    }
    dives := ParseDiveBlocks(Blocks(section.value));
  }

  /** The loop of `parse_deep_dives` over the blocks of the section. */
  method ParseDiveBlocks(blocks: seq<string>) returns (dives: seq<DeepDive>)
    ensures dives == FilterMapBlocks(blocks, DiveParser())
  {
    dives := [];
    var i := 0;
    while i < |blocks|
      invariant 0 <= i <= |blocks|
      invariant dives == FilterMapBlocks(blocks[..i], DiveParser())
    {
      var block := Trim(blocks[i]);
      var item: seq<DeepDive> := [];
      if block != [] {
        var dive := ParseSingleDive(block);
        if dive.Some? {
          item := [dive.value];
        }
        BlockItemOf(blocks[i], DiveParser(), dive);
      } else {
        BlockItemOf(blocks[i], DiveParser(), None);
      }
      FilterMapBlocksStep(blocks, DiveParser(), i, item);
      dives := dives + item;
      i := i + 1;
    }
    Seqs.TakeAll(blocks);
  }

  /** As with events, the section body holds a single block: at most one dive. */
  lemma DeepDivesAtMostOne(md: string)
    ensures |DeepDives(md)| <= 1
  {
    match Section(md, DivesTitle, Terminator) {
      case None =>
      case Some(body) =>
        SectionFreeOfTerminator(md, DivesTitle, Terminator);
        FreeOfLonger(body);
        BlocksOfUnsplittable(body);
        assert [body][..0] == [];
    }
  }

  /** Every dive returned has a non-empty title. */
  lemma DeepDivesTitled(md: string)
    ensures forall d :: d in DeepDives(md) ==> d.title != []
  {
    match Section(md, DivesTitle, Terminator) {
      case None =>
      case Some(body) =>
        var blocks := Blocks(body);
        forall d | d in FilterMapBlocks(blocks, DiveParser())
          ensures d.title != []
        {
          FilterMapBlocksFrom(blocks, DiveParser(), d);
          var k :| 0 <= k < |blocks| && Trim(blocks[k]) != [] && DiveParser()(Trim(blocks[k])) == Some(d);
          assert DiveOf(Trim(blocks[k]), Anchored) == Some(d);
        }
    }
  }

  /** Without a `## Strategic Deep Dives` header there are no dives. */
  lemma DeepDivesAbsent(md: string)
    requires !HasHeader(md, DivesTitle)
    ensures DeepDives(md) == []
  {
    SectionFound(md, DivesTitle, Terminator);
  }

  // ---------------------------------------------------------------------------------------
  // Completeness audit
  // ---------------------------------------------------------------------------------------

  /**
   * What `parse_completeness_audit` does with a report: no section, or a number that
   * `int()`/`float()` rejects, gives `None` (`NoAudit`); a score outside [0.0, 1.0] makes the
   * `CompletenessAudit` constructor raise (`ScoreRejected`); otherwise the audit.
   */
  datatype AuditOutcome = NoAudit | Audit(audit: CompletenessAudit) | ScoreRejected

  /** A number field: the parsed value of the field, or `default` when it is missing. */
  function NumberField<T>(fields: map<string, string>, key: string, parse: string -> Option<T>, default: T): (r: Option<T>)
    ensures key !in fields ==> r == Some(default)
    ensures key in fields ==> r == parse(fields[key])
  {
    if key in fields then parse(fields[key]) else Some(default)
  }

  /** The audit built from the section's fields. */
  function AuditOfFields(fields: map<string, string>, parseInt: IntParser, parseFloat: FloatParser): AuditOutcome {
    var signals := NumberField(fields, "verified signals", parseInt, 0);
    var sources := NumberField(fields, "sources checked", parseInt, 0);
    var score := NumberField(fields, "confidence score", parseFloat, 0.0);
    if signals.None? || sources.None? || score.None? then NoAudit
    else if !(0.0 <= score.value <= 1.0) then ScoreRejected
    else Audit(CompletenessAudit(signals.value, sources.value, score.value, Gaps(Lookup(fields, "gaps", ""))))
  }

  /** `parse_completeness_audit` as a value. */
  function CompletenessAuditOf(md: string, parseInt: IntParser, parseFloat: FloatParser): AuditOutcome {
    match Section(md, AuditTitle, Terminator)
    case None => NoAudit
    case Some(text) => AuditOfFields(FieldsOf(Stripped(Split(text, '\n')), Anchored), parseInt, parseFloat)
  }

  /** Without a `## Completeness Audit` header there is no audit. */
  lemma AuditAbsent(md: string, parseInt: IntParser, parseFloat: FloatParser)
    requires !HasHeader(md, AuditTitle)
    ensures CompletenessAuditOf(md, parseInt, parseFloat) == NoAudit
  {
    SectionFound(md, AuditTitle, Terminator);
  }

  /** A returned audit satisfies the record's declared bound, and its gaps are non-blank. */
  lemma AuditWellFormed(md: string, parseInt: IntParser, parseFloat: FloatParser)
    ensures var r := CompletenessAuditOf(md, parseInt, parseFloat);
      r.Audit? ==> 0.0 <= r.audit.confidenceScore <= 1.0 && forall g :: g in r.audit.gaps ==> g != []
  {
    match Section(md, AuditTitle, Terminator) {
      case None =>
      case Some(text) => AuditOfFieldsWellFormed(FieldsOf(Stripped(Split(text, '\n')), Anchored), parseInt, parseFloat);
    }
  }

  lemma AuditOfFieldsWellFormed(fields: map<string, string>, parseInt: IntParser, parseFloat: FloatParser)
    ensures var r := AuditOfFields(fields, parseInt, parseFloat);
      r.Audit? ==> 0.0 <= r.audit.confidenceScore <= 1.0 && forall g :: g in r.audit.gaps ==> g != []
  {
  }

  /** `parse_completeness_audit`. */
  method ParseCompletenessAudit(md: string, parseInt: IntParser, parseFloat: FloatParser) returns (r: AuditOutcome)
    ensures r == CompletenessAuditOf(md, parseInt, parseFloat)
  {
    var section := Section(md, AuditTitle, Terminator);
    if section.None? {
      return NoAudit;
    }
    var fields := CollectFields(Split(section.value, '\n'), Anchored);
    var signals := NumberField(fields, "verified signals", parseInt, 0);
    var sources := NumberField(fields, "sources checked", parseInt, 0);
    var score := NumberField(fields, "confidence score", parseFloat, 0.0);
    if signals.None? || sources.None? || score.None? {
      return NoAudit;
    }
    if !(0.0 <= score.value <= 1.0) {
      return ScoreRejected;
    }
    var gaps := Gaps(Lookup(fields, "gaps", ""));
    r := Audit(CompletenessAudit(signals.value, sources.value, score.value, gaps));
  }

  /**
   * The defaults: an audit section with none of the four fields gives zero signals, zero
   * sources, a zero score and no gaps.
   */
  lemma AuditDefaults(fields: map<string, string>, parseInt: IntParser, parseFloat: FloatParser)
    requires "verified signals" !in fields && "sources checked" !in fields
    requires "confidence score" !in fields && "gaps" !in fields
    ensures AuditOfFields(fields, parseInt, parseFloat) == Audit(CompletenessAudit(0, 0, 0.0, []))
  {
    GapsOfNothing();
  }

  /** A field present but rejected by `int()`/`float()` discards the whole audit. */
  lemma AuditUnparsable(fields: map<string, string>, parseInt: IntParser, parseFloat: FloatParser, key: string)
    requires key == "verified signals" || key == "sources checked"
    requires key in fields && parseInt(fields[key]).None?
    ensures AuditOfFields(fields, parseInt, parseFloat) == NoAudit
  {
  }

  /** So does a score present but rejected by `float()`. */
  lemma ScoreUnparsable(fields: map<string, string>, parseInt: IntParser, parseFloat: FloatParser)
    requires "confidence score" in fields && parseFloat(fields["confidence score"]).None?
    ensures AuditOfFields(fields, parseInt, parseFloat) == NoAudit
  {
  }
}
