/**
 * The Rust section extractor, rust-backend/src/parser.rs.
 *
 * `str::parse::<i32>` and `str::parse::<f64>` are parameters (`None` for `Err`). The field
 * pattern is applied with `captures`, which finds it anywhere in the stripped line
 * (`Markdown.Search`), and a section ends only at a newline followed by `## `.
 * `str::lines` is modelled as a split on '\n'; the two agree here because every line is
 * stripped before use and an empty line contributes nothing.
 */
module RustParser {
  import opened Wrappers
  import opened Text
  import opened Enums
  import opened Events
  import opened Markdown
  import RustTypes

  /** `str::parse::<i32>`: the value, or `None` for `Err`. */
  type I32Parser = string -> Option<int>

  /** `str::parse::<f64>`: the value, or `None` for `Err`. */
  type F64Parser = string -> Option<real>

  /** The body terminator `(?:\n## |\z)`: a newline, two hashes and a space. */
  const Terminator: string := "\n## "

  const TldrTitle: string := "TL;DR"
  const EventsTitle: string := "Global Viral Events"
  const DivesTitle: string := "Strategic Deep Dives"
  const AuditTitle: string := "Completeness Audit"

  // ---------------------------------------------------------------------------------------
  // TL;DR
  // ---------------------------------------------------------------------------------------

  /** `parse_tldr`: the trimmed body of the first `## TL;DR` section, `None` if absent or blank. */
  function ParseTldr(md: string): (r: Option<string>)
    ensures r.Some? ==> r.value != [] && !IsSpace(r.value[0]) && !IsSpace(r.value[|r.value| - 1])
  {
    match Section(md, TldrTitle, Terminator)
    case None => None
    case Some(body) => if Trim(body) == [] then None else Some(Trim(body))
  }

  /** Without a `## TL;DR` header there is no summary. */
  lemma TldrAbsent(md: string)
    requires !HasHeader(md, TldrTitle)
    ensures ParseTldr(md) == None
  {
    SectionFound(md, TldrTitle, Terminator);
  }

  /** A header followed by a blank body also gives no summary (where Python gives ""). */
  lemma TldrBlank(md: string)
    requires Section(md, TldrTitle, Terminator).Some?
    requires forall k :: 0 <= k < |Section(md, TldrTitle, Terminator).value| ==> IsSpace(Section(md, TldrTitle, Terminator).value[k])
    ensures ParseTldr(md) == None
  {
  }

  /** The summary never runs into a following `## ` heading. */
  lemma TldrStopsAtHeading(md: string)
    requires ParseTldr(md).Some?
    ensures FreeOf(ParseTldr(md).value, Terminator)
  {
    var body := Section(md, TldrTitle, Terminator).value;
    SectionFreeOfTerminator(md, TldrTitle, Terminator);
    TrimFreeOf(body, Terminator);
  }

  // ---------------------------------------------------------------------------------------
  // Viral events
  // ---------------------------------------------------------------------------------------

  /** The `match` on `fields.get("category")`: the six exact names, anything else `Research`. */
  function CategoryOf(fields: map<string, string>): EventCategory {
    if "category" !in fields then Research
    else match fields["category"]
      case "product_launch" => ProductLaunch
      case "funding" => Funding
      case "partnership" => Partnership
      case "regulation" => Regulation
      case "research" => Research
      case "open_source" => OpenSource
      case _ => Research
  }

  /** The `match` on `fields.get("confidence")`: the three exact names, anything else `Medium`. */
  function ConfidenceOf(fields: map<string, string>): ConfidenceLevel {
    if "confidence" !in fields then Medium
    else match fields["confidence"]
      case "high" => High
      case "medium" => Medium
      case "low" => Low
      case _ => Medium
  }

  /** `fields.get("impact rating").and_then(parse).unwrap_or(5).max(1).min(10)`. */
  function ImpactOf(fields: map<string, string>, parseI32: I32Parser): (r: int)
    ensures 1 <= r <= 10
    ensures "impact rating" !in fields || parseI32(fields["impact rating"]).None? ==> r == 5
    ensures "impact rating" in fields && parseI32(fields["impact rating"]).Some? ==>
      r == ClampRating(parseI32(fields["impact rating"]).value)
  {
    var raw := if "impact rating" in fields then parseI32(fields["impact rating"]).GetOr(5) else 5;
    var low := if raw < 1 then 1 else raw;
    if low > 10 then 10 else low
  }

  /** `parse_single_event` as a value: `None` when the heading line is empty. */
  function SingleEvent(block: string, parseI32: I32Parser): (r: Option<RustTypes.ViralEvent>)
    ensures r.Some? ==> r.value.headline != [] && 1 <= r.value.impactRating <= 10
  {
    var lines := Split(block, '\n');
    var headline := StripHeading(Trim(lines[0]));
    if headline == [] then None
    else
      var fields := FieldsOf(Stripped(lines[1..]), Search);
      Some(RustTypes.ViralEvent(
        headline,
        CategoryOf(fields),
        ImpactOf(fields, parseI32),
        ConfidenceOf(fields),
        Lookup(fields, "source", "Unknown"),
        Lookup(fields, "summary", "")))
  }

  /** `parse_single_event`: the `for` loop over `lines[1..]` filling the `HashMap`. */
  method ParseSingleEvent(block: string, parseI32: I32Parser) returns (event: Option<RustTypes.ViralEvent>)
    ensures event == SingleEvent(block, parseI32)
  {
    var lines := Split(block, '\n');
    var headline := StripHeading(Trim(lines[0]));
    if headline == [] {
      return None;
    }
    var fields := CollectFields(lines[1..], Search);
    assert SingleEvent(block, parseI32) == Some(RustTypes.ViralEvent(
      headline, CategoryOf(fields), ImpactOf(fields, parseI32), ConfidenceOf(fields),
      Lookup(fields, "source", "Unknown"), Lookup(fields, "summary", "")));
    var impact := 5;
    if "impact rating" in fields {
      match parseI32(fields["impact rating"]) {
        case Some(v) => impact := v;
        case None =>
      }
    }
    assert impact == if "impact rating" in fields then parseI32(fields["impact rating"]).GetOr(5) else 5;
    impact := if impact < 1 then 1 else impact;
    impact := if impact > 10 then 10 else impact;
    assert impact == ImpactOf(fields, parseI32);
    event := Some(RustTypes.ViralEvent(
      headline, CategoryOf(fields), impact, ConfidenceOf(fields),
      Lookup(fields, "source", "Unknown"), Lookup(fields, "summary", "")));
  }

  /**
   * An event exists exactly when its heading line is not empty once its `#`s are gone; it
   * carries that heading, the category, confidence and rating read from its fields, and the
   * `source` field, or `"Unknown"` without one.
   */
  lemma EventFields(block: string, parseI32: I32Parser)
    ensures var lines := Split(block, '\n');
      var fields := FieldsOf(Stripped(lines[1..]), Search);
      var r := SingleEvent(block, parseI32);
      && (r.None? <==> StripHeading(Trim(lines[0])) == [])
      && (r.Some? ==>
            && r.value.headline == StripHeading(Trim(lines[0]))
            && r.value.category == CategoryOf(fields)
            && r.value.confidence == ConfidenceOf(fields)
            && r.value.impactRating == ImpactOf(fields, parseI32)
            && r.value.source == (if "source" in fields then fields["source"] else "Unknown")
            && r.value.summary == (if "summary" in fields then fields["summary"] else ""))
  {
  }

  function EventParser(parseI32: I32Parser): string -> Option<RustTypes.ViralEvent> {
    b => SingleEvent(b, parseI32)
  }

  /** `parse_viral_events`: the `filter_map` over the `###` blocks of the section. */
  function ViralEvents(md: string, parseI32: I32Parser): seq<RustTypes.ViralEvent> {
    match Section(md, EventsTitle, Terminator)
    case None => []
    case Some(body) => FilterMapBlocks(Blocks(body), EventParser(parseI32))
  }

  /** Every event returned has a non-empty headline and a rating in [1, 10]. */
  lemma ViralEventsValid(md: string, parseI32: I32Parser)
    ensures forall e :: e in ViralEvents(md, parseI32) ==> e.headline != [] && 1 <= e.impactRating <= 10
  {
    match Section(md, EventsTitle, Terminator) {
      case None =>
      case Some(body) =>
        var blocks := Blocks(body);
        forall e | e in FilterMapBlocks(blocks, EventParser(parseI32))
          ensures e.headline != [] && 1 <= e.impactRating <= 10
        {
          FilterMapBlocksFrom(blocks, EventParser(parseI32), e);
          var k :| 0 <= k < |blocks| && Trim(blocks[k]) != [] && EventParser(parseI32)(Trim(blocks[k])) == Some(e);
          assert SingleEvent(Trim(blocks[k]), parseI32) == Some(e);
        }
    }
  }

  /** Without a `## Global Viral Events` header there are no events. */
  lemma ViralEventsAbsent(md: string, parseI32: I32Parser)
    requires !HasHeader(md, EventsTitle)
    ensures ViralEvents(md, parseI32) == []
  {
    SectionFound(md, EventsTitle, Terminator);
  }

  /**
   * Unlike the Python body, a Rust body may contain `\n###`: each separator inside it
   * yields one more block, each turned into at most one event.
   */
  lemma ViralEventsBlocks(md: string, parseI32: I32Parser, i: nat)
    requires Section(md, EventsTitle, Terminator).Some?
    requires SepAt(Section(md, EventsTitle, Terminator).value, i)
    ensures var blocks := Blocks(Section(md, EventsTitle, Terminator).value);
      |blocks| >= 2 && ViralEvents(md, parseI32) == FilterMapBlocks(blocks, EventParser(parseI32))
  {
    BlocksOfSplittable(Section(md, EventsTitle, Terminator).value, i);
  }

  // ---------------------------------------------------------------------------------------
  // Deep dives
  // ---------------------------------------------------------------------------------------

  /** `parse_single_dive`: the unanchored field matcher and the `in_findings` loop. */
  method ParseSingleDive(block: string) returns (dive: Option<DeepDive>)
    ensures dive == DiveOf(block, Search)
  {
    var lines := Split(block, '\n');
    var title := StripHeading(Trim(lines[0]));
    if title == [] {
      return None;
    }
    var st := RunDive(lines[1..], Search);
    dive := Some(DeepDive(title, Lookup(st.fields, "priority", "MEDIUM"), Lookup(st.fields, "summary", ""), st.findings));
  }

  function DiveParser(): string -> Option<DeepDive> {
    b => DiveOf(b, Search)
  }

  /** `parse_deep_dives`: the `filter_map` over the `###` blocks of the section. */
  function DeepDives(md: string): seq<DeepDive> {
    match Section(md, DivesTitle, Terminator)
    case None => []
    case Some(body) => FilterMapBlocks(Blocks(body), DiveParser())
  }

  /** Every dive returned has a non-empty title. */
  lemma DeepDivesTitled(md: string)
    ensures forall d :: d in DeepDives(md) ==> d.title != []
  {
    match Section(md, DivesTitle, Terminator) {
      case None =>
      case Some(body) =>
        var blocks := Blocks(body);
        forall d | d in FilterMapBlocks(blocks, DiveParser())
          ensures d.title != []
        {
          FilterMapBlocksFrom(blocks, DiveParser(), d);
          var k :| 0 <= k < |blocks| && Trim(blocks[k]) != [] && DiveParser()(Trim(blocks[k])) == Some(d);
          assert DiveOf(Trim(blocks[k]), Search) == Some(d);
        }
    }
  }

  /** Without a `## Strategic Deep Dives` header there are no dives. */
  lemma DeepDivesAbsent(md: string)
    requires !HasHeader(md, DivesTitle)
    ensures DeepDives(md) == []
  {
    SectionFound(md, DivesTitle, Terminator);
  }

  // ---------------------------------------------------------------------------------------
  // Completeness audit
  // ---------------------------------------------------------------------------------------

  /** The three `fields.get(key)?.parse().ok()?` steps and the optional gaps. */
  function AuditOfFields(fields: map<string, string>, parseI32: I32Parser, parseF64: F64Parser): Option<CompletenessAudit> {
    if "verified signals" !in fields || "sources checked" !in fields || "confidence score" !in fields then None
    else
      var signals := parseI32(fields["verified signals"]);
      var sources := parseI32(fields["sources checked"]);
      var score := parseF64(fields["confidence score"]);
      if signals.None? || sources.None? || score.None? then None
      else
        var gaps := if "gaps" in fields then Gaps(fields["gaps"]) else [];
        Some(CompletenessAudit(signals.value, sources.value, score.value, gaps))
  }

  /** `parse_completeness_audit` as a value. */
  function CompletenessAuditOf(md: string, parseI32: I32Parser, parseF64: F64Parser): Option<CompletenessAudit> {
    match Section(md, AuditTitle, Terminator)
    case None => None
    case Some(text) => AuditOfFields(FieldsOf(Stripped(Split(text, '\n')), Search), parseI32, parseF64)
  }

  /** `parse_completeness_audit`: the `for` loop over the section's lines, then the `?` chain. */
  method ParseCompletenessAudit(md: string, parseI32: I32Parser, parseF64: F64Parser) returns (r: Option<CompletenessAudit>)
    ensures r == CompletenessAuditOf(md, parseI32, parseF64)
  {
    var section := Section(md, AuditTitle, Terminator);
    if section.None? {
      return None;
    }
    var fields := CollectFields(Split(section.value, '\n'), Search);
    if "verified signals" !in fields {
      return None;
    }
    var signals := parseI32(fields["verified signals"]);
    if signals.None? {
      return None;
    }
    if "sources checked" !in fields {
      return None;
    }
    var sources := parseI32(fields["sources checked"]);
    if sources.None? {
      return None;
    }
    if "confidence score" !in fields {
      return None;
    }
    var score := parseF64(fields["confidence score"]);
    if score.None? {
      return None;
    }
    var gaps: seq<string> := [];
    if "gaps" in fields {
      gaps := Gaps(fields["gaps"]);
    }
    r := Some(CompletenessAudit(signals.value, sources.value, score.value, gaps));
  }

  /**
   * An audit comes back exactly when all three numeric fields are present and parse; it
   * then carries those values, and its gaps are non-blank pieces of the `gaps` field.
   */
  lemma AuditPresentIff(fields: map<string, string>, parseI32: I32Parser, parseF64: F64Parser)
    ensures AuditOfFields(fields, parseI32, parseF64).Some? <==>
      && "verified signals" in fields && parseI32(fields["verified signals"]).Some?
      && "sources checked" in fields && parseI32(fields["sources checked"]).Some?
      && "confidence score" in fields && parseF64(fields["confidence score"]).Some?
    ensures var r := AuditOfFields(fields, parseI32, parseF64);
      r.Some? ==>
        && r.value.verifiedSignals == parseI32(fields["verified signals"]).value
        && r.value.sourcesChecked == parseI32(fields["sources checked"]).value
        && r.value.confidenceScore == parseF64(fields["confidence score"]).value
        && ("gaps" !in fields ==> r.value.gaps == [])
        && forall g :: g in r.value.gaps ==> g != []
  {
  }

  /** Without a `## Completeness Audit` header there is no audit. */
  lemma AuditAbsent(md: string, parseI32: I32Parser, parseF64: F64Parser)
    requires !HasHeader(md, AuditTitle)
    ensures CompletenessAuditOf(md, parseI32, parseF64) == None
  {
    SectionFound(md, AuditTitle, Terminator);
  }
}
