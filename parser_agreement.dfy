/**
 * How the Python and Rust section extractors relate: where they agree, and an input on
 * which they observably differ.
 */
module ParserAgreement {
  import opened Wrappers
  import opened Text
  import opened Markdown
  import ReportParser
  import RustParser

  /** Both implementations map the category field to the same enum value. */
  lemma CategoriesAgree(fields: map<string, string>)
    ensures RustParser.CategoryOf(fields) == ReportParser.CategoryOf(fields)
  {
  }

  /** Both implementations map the confidence field to the same enum value. */
  lemma ConfidencesAgree(fields: map<string, string>)
    ensures RustParser.ConfidenceOf(fields) == ReportParser.ConfidenceOf(fields)
  {
  }

  /**
   * The impact ratings of the two parsers, each with its own integer parser: Python's
   * `int()` and Rust's `parse::<i32>()`. Where Rust's parser accepts, Python's accepts with
   * the same value. The ratings then agree except on a value only Python accepts, such as one
   * outside the `i32` range: Rust falls back to 5 and Python clamps the number.
   */
  lemma ImpactsAgree(fields: map<string, string>, pyInt: string -> Option<int>, rsInt: string -> Option<int>)
    requires "impact rating" in fields && rsInt(fields["impact rating"]).Some? ==>
      pyInt(fields["impact rating"]) == rsInt(fields["impact rating"])
    ensures "impact rating" !in fields || rsInt(fields["impact rating"]).Some? || pyInt(fields["impact rating"]).None? ==>
      RustParser.ImpactOf(fields, rsInt) == ReportParser.ImpactOf(fields, pyInt)
    ensures "impact rating" in fields && rsInt(fields["impact rating"]).None? && pyInt(fields["impact rating"]).Some? ==>
      && RustParser.ImpactOf(fields, rsInt) == 5
      && ReportParser.ImpactOf(fields, pyInt) == ClampRating(pyInt(fields["impact rating"]).value)
  {
  }

  /** A rating beyond the `i32` range, which only Python's `int()` reads. */
  const WideRating: string := "99999999999"

  /**
   * On `WideRating` the two parsers differ: `int()` gives 99999999999, clamped to 10, while
   * `parse::<i32>()` overflows and Rust's rating falls back to 5.
   */
  lemma WideRatingDiffers()
    ensures var fields := map["impact rating" := WideRating];
      var pyInt := (s: string) => if s == WideRating then Some(99999999999) else None;
      var rsInt := (s: string) => None;
      && ReportParser.ImpactOf(fields, pyInt) == 10
      && RustParser.ImpactOf(fields, rsInt) == 5
  {
    var fields := map["impact rating" := WideRating];
    var pyInt := (s: string) => if s == WideRating then Some(99999999999) else None;
    var rsInt := (s: string) => None;
    ImpactsAgree(fields, pyInt, rsInt);
  }

  /** A field the anchored matcher finds is also what the unanchored one finds. */
  lemma AnchoredFieldIsFound(line: string)
    requires MatchField(line, Anchored).Some?
    ensures MatchField(line, Search) == MatchField(line, Anchored)
  {
  }

  /**
   * Where all three numbers are present and Rust's parsers accept them, Python's parsers,
   * which accept with the same value whatever Rust's accept, give the same record when the
   * score is in [0, 1]; with the score out of range Python's record constructor raises instead.
   */
  lemma AuditsAgree(fields: map<string, string>, pyInt: string -> Option<int>, pyFloat: string -> Option<real>,
                    rsInt: string -> Option<int>, rsFloat: string -> Option<real>)
    requires RustParser.AuditOfFields(fields, rsInt, rsFloat).Some?
    requires "verified signals" in fields && rsInt(fields["verified signals"]).Some? ==>
      pyInt(fields["verified signals"]) == rsInt(fields["verified signals"])
    requires "sources checked" in fields && rsInt(fields["sources checked"]).Some? ==>
      pyInt(fields["sources checked"]) == rsInt(fields["sources checked"])
    requires "confidence score" in fields && rsFloat(fields["confidence score"]).Some? ==>
      pyFloat(fields["confidence score"]) == rsFloat(fields["confidence score"])
    ensures var a := RustParser.AuditOfFields(fields, rsInt, rsFloat).value;
      ReportParser.AuditOfFields(fields, pyInt, pyFloat) ==
        if 0.0 <= a.confidenceScore <= 1.0 then ReportParser.Audit(a) else ReportParser.ScoreRejected
  {
  }

  /** A TL;DR section whose body holds a `###` line. */
  const SubHeading: string := "##TL;DR\nA\n###B"

  /** The `## TL;DR` header of `SubHeading` matches at index 0; its body starts at index 8. */
  lemma SubHeadingHeader()
    ensures FindHeader(SubHeading, "TL;DR", 0) == Some(0)
    ensures HeaderAt(SubHeading, 0, "TL;DR") == Some(8)
  {
    SubHeadingHeaderAt();
    assert 0 < |SubHeading|;
  }

  /** The header pattern matches at index 0, with the body just after the first newline. */
  lemma SubHeadingHeaderAt()
    ensures HeaderAt(SubHeading, 0, "TL;DR") == Some(8)
  {
    var md := SubHeading;
    assert md[0] == '#' && md[1] == '#' && md[2] == 'T' && md[7] == '\n' && md[8] == 'A';
    assert OccursAt(md, 0, "##") by { assert md[..2] == "##"; }
    assert SkipSpace(md, 2) == 2;
    assert OccursAt(md, 2, "TL;DR") by { assert md[2..7] == "TL;DR"; }
    assert SkipSpace(md, 8) == 8;
    assert SkipSpace(md, 7) == 8;
    assert LastNewline(md, 7, 8) == Some(7);
  }

  /** Python stops the summary at the `###` line. */
  lemma SubHeadingPython()
    ensures ReportParser.ParseTldr(SubHeading) == "A"
  {
    var md := SubHeading;
    SubHeadingHeader();
    assert md[9] == '\n' && md[10] == '#' && md[11] == '#';
    assert md[9..12] == "\n##";
    assert BodyEnd(md, 8, "\n##") == 9;
    assert md[8..9] == "A";
    assert Section(md, "TL;DR", "\n##") == Some("A");
    TrimOfTrimmed("A");
  }

  /** Rust keeps the `###` line in the summary. */
  lemma SubHeadingRust()
    ensures RustParser.ParseTldr(SubHeading) == Some("A\n###B")
  {
    var md := SubHeading;
    SubHeadingHeader();
    assert md[8] == 'A' && md[9] == '\n' && md[10] == '#' && md[12] == '#' && |md| == 14;
    assert md[8..12][0] == 'A' && md[9..13][3] == '#' && md[10..14][0] == '#';
    assert !OccursAt(md, 8, "\n## ") && !OccursAt(md, 9, "\n## ") && !OccursAt(md, 10, "\n## ");
    assert BodyEnd(md, 11, "\n## ") == |md|;
    assert BodyEnd(md, 10, "\n## ") == |md|;
    assert BodyEnd(md, 9, "\n## ") == |md|;
    assert BodyEnd(md, 8, "\n## ") == |md|;
    assert md[8..14] == "A\n###B";
    assert Section(md, "TL;DR", "\n## ") == Some("A\n###B");
    TrimOfTrimmed("A\n###B");
  }
}
