/**
 * The scanning steps both section extractors (src/service/report_parser.py and
 * rust-backend/src/parser.rs) perform with regular expressions, written as explicit scanners:
 * header search, body capture, block split, heading strip, field-line parse, and the
 * state machine that reads one deep-dive block.
 *
 * The two implementations use the same header pattern `##\s*<title>\s*\n`, the same block
 * separator `\n###\s+`, the same heading pattern `^#+\s*` and the same field pattern
 * `-\s*\*\*(.+?)\*\*:\s*(.+)`. They differ in the section terminator (a parameter here) and in
 * how the field pattern is applied: Python's `re.match` anchors it at the start of the line,
 * Rust's `captures` finds it anywhere (`Matcher`).
 */
module Markdown {
  import opened Wrappers
  import opened Text
  import opened Seqs
  import opened Events

  // ---------------------------------------------------------------------------------------
  // Section header and body
  // ---------------------------------------------------------------------------------------

  /** The last newline in `s[lo..hi]`, if any. */
  function LastNewline(s: string, lo: nat, hi: nat): (r: Option<nat>)
    requires lo <= hi <= |s|
    ensures r.Some? ==> lo <= r.value < hi && s[r.value] == '\n'
    ensures r.Some? ==> forall k :: r.value < k < hi ==> s[k] != '\n'
    ensures r.None? ==> forall k :: lo <= k < hi ==> s[k] != '\n'
    decreases hi - lo
  {
    if hi == lo then None
    else if s[hi - 1] == '\n' then Some(hi - 1)
    else LastNewline(s, lo, hi - 1)
  }

  /**
   * Whether `##\s*<title>\s*\n` matches at index `p`, and if so where the body starts.
   * Both `\s*` are greedy: the first must be followed by the title (which starts with a
   * non-space), the second gives back characters until it can be followed by `\n`, so the
   * body starts just after the LAST newline of the whitespace run that follows the title.
   */
  function HeaderAt(md: string, p: nat, title: string): (r: Option<nat>)
    ensures r.Some? ==> p + 2 < r.value <= |md| && md[r.value - 1] == '\n'
    ensures r.Some? ==> OccursAt(md, p, "##")
  {
    if !OccursAt(md, p, "##") then None
    else
      var q := SkipSpace(md, p + 2);
      if !OccursAt(md, q, title) then None
      else
        var t := q + |title|;
        match LastNewline(md, t, SkipSpace(md, t))
        case None => None
        case Some(n) => Some(n + 1)
  }

  /** `re.search` for the header: the leftmost index at or after `from` where it matches. */
  function FindHeader(md: string, title: string, from: nat): (r: Option<nat>)
    ensures r.Some? ==> from <= r.value < |md| && HeaderAt(md, r.value, title).Some?
    ensures forall q :: from <= q && (r.None? || q < r.value) ==> HeaderAt(md, q, title).None?
    decreases |md| - from
  {
    if from >= |md| then None
    else if HeaderAt(md, from, title).Some? then Some(from)
    else FindHeader(md, title, from + 1)
  }

  /**
   * The lazy body `(.*?)` followed by the terminator or end of text: the least index at or
   * after `start` where `term` occurs, or the end of the text.
   */
  function BodyEnd(md: string, start: nat, term: string): (e: nat)
    requires start <= |md|
    ensures start <= e <= |md|
    ensures e == |md| || OccursAt(md, e, term)
    ensures forall i :: start <= i < e ==> !OccursAt(md, i, term)
    decreases |md| - start
  {
    if start == |md| || OccursAt(md, start, term) then start else BodyEnd(md, start + 1, term)
  }

  /** The captured body of the first `## <title>` section, ended by `term` or end of text. */
  function Section(md: string, title: string, term: string): Option<string> {
    match FindHeader(md, title, 0)
    case None => None
    case Some(p) =>
      var s := HeaderAt(md, p, title).value;
      Some(md[s..BodyEnd(md, s, term)])
  }

  /** Some index of the text matches the header pattern. */
  predicate HasHeader(md: string, title: string) {
    exists p :: 0 <= p < |md| && HeaderAt(md, p, title).Some?
  }

  /** A section is found exactly when the header pattern matches somewhere. */
  lemma SectionFound(md: string, title: string, term: string)
    ensures Section(md, title, term).Some? <==> HasHeader(md, title)
  {
    if HasHeader(md, title) {
      var p :| 0 <= p < |md| && HeaderAt(md, p, title).Some?;
      assert FindHeader(md, title, 0).Some?;
    }
  }

  /** A captured body never contains its terminator. */
  lemma {:induction false} SectionFreeOfTerminator(md: string, title: string, term: string)
    requires term != []
    requires Section(md, title, term).Some?
    ensures FreeOf(Section(md, title, term).value, term)
  {
    var p := FindHeader(md, title, 0).value;
    var s := HeaderAt(md, p, title).value;
    var e := BodyEnd(md, s, term);
    var body := md[s..e];
    forall i | 0 <= i <= |body| - |term|
      ensures !OccursAt(body, i, term)
    {
      SliceOfSlice(md, s, e, i, i + |term|);
      assert !OccursAt(md, s + i, term);
    }
  }

  /** A text free of `\n##` is free of `\n###` too. */
  lemma FreeOfLonger(s: string)
    requires FreeOf(s, "\n##")
    ensures FreeOf(s, "\n###")
  {
    forall i | 0 <= i <= |s| - 4
      ensures !OccursAt(s, i, "\n###")
    {
      assert !OccursAt(s, i, "\n##");
      assert s[i..i + 3] == s[i..i + 4][..3];
      assert "\n###"[..3] == "\n##";
    }
  }

  // ---------------------------------------------------------------------------------------
  // Sub-blocks: re.split(r"\n###\s+", body)
  // ---------------------------------------------------------------------------------------

  /** The separator `\n###\s+` starts at `i`. */
  predicate SepAt(s: string, i: nat) {
    OccursAt(s, i, "\n###") && i + 4 < |s| && IsSpace(s[i + 4])
  }

  /** The first separator at or after `from`. */
  function NextSep(s: string, from: nat): (r: Option<nat>)
    ensures r.Some? ==> from <= r.value && SepAt(s, r.value)
    ensures forall i :: from <= i && (r.None? || i < r.value) ==> !SepAt(s, i)
    decreases |s| - from
  {
    if from >= |s| then None
    else if SepAt(s, from) then Some(from)
    else NextSep(s, from + 1)
  }

  /** The pieces of `s[from..]` between separators; the greedy `\s+` eats the whole whitespace run. */
  function BlocksFrom(s: string, from: nat): (r: seq<string>)
    requires from <= |s|
    ensures |r| >= 1
    decreases |s| - from
  {
    match NextSep(s, from)
    case None => [s[from..]]
    case Some(i) => [s[from..i]] + BlocksFrom(s, SkipSpace(s, i + 4))
  }

  function Blocks(s: string): (r: seq<string>)
    ensures |r| >= 1
  {
    BlocksFrom(s, 0)
  }

  /** Without any `\n###` the split leaves the text whole. */
  lemma BlocksOfUnsplittable(s: string)
    requires FreeOf(s, "\n###")
    ensures Blocks(s) == [s]
  {
    assert NextSep(s, 0).None?;
  }

  /** One separator is enough to produce at least two pieces. */
  lemma BlocksOfSplittable(s: string, i: nat)
    requires SepAt(s, i)
    ensures |Blocks(s)| >= 2
  {
    assert NextSep(s, 0).Some?;
  }

  // ---------------------------------------------------------------------------------------
  // Headings: re.sub(r"^#+\s*", "", line)
  // ---------------------------------------------------------------------------------------

  /** The end of the run of `#` starting at `i`. */
  function HashRun(s: string, i: nat): (j: nat)
    requires i <= |s|
    ensures i <= j <= |s| && (j == |s| || s[j] != '#')
    ensures forall k :: i <= k < j ==> s[k] == '#'
    decreases |s| - i
  {
    if i < |s| && s[i] == '#' then HashRun(s, i + 1) else i
  }

  /** Removes a leading run of `#` and the whitespace after it; other lines are left alone. */
  function StripHeading(line: string): (r: string)
    ensures |r| <= |line| && r == line[|line| - |r|..]
    ensures (line == [] || line[0] != '#') ==> r == line
    ensures line != [] && line[0] == '#' ==> r == [] || !IsSpace(r[0])
    ensures forall k :: 0 <= k < |line| - |r| ==> line[k] == '#' || IsSpace(line[k])
  {
    if line != [] && line[0] == '#' then line[SkipSpace(line, HashRun(line, 0))..] else line
  }

  // ---------------------------------------------------------------------------------------
  // Field lines: -\s*\*\*(.+?)\*\*:\s*(.+)
  // ---------------------------------------------------------------------------------------

  datatype Field = Field(key: string, value: string)

  /** Python's `re.match` (anchored at the line start) or Rust's `captures` (leftmost anywhere). */
  datatype Matcher = Anchored | Search

  /**
   * The end of the lazy key `(.+?)`: the first `**:` at or after `from` that still leaves a
   * character for `(.+)`. Lines never contain `\n` (they come from splitting on it), so `.`
   * matches every character here.
   */
  function KeyEnd(line: string, from: nat): (r: Option<nat>)
    ensures r.Some? ==> from <= r.value && r.value + 3 < |line| && OccursAt(line, r.value, "**:")
    ensures forall j :: from <= j && (r.None? || j < r.value) && j + 3 < |line| ==> !OccursAt(line, j, "**:")
    decreases |line| - from
  {
    if from + 3 >= |line| then None
    else if OccursAt(line, from, "**:") then Some(from)
    else KeyEnd(line, from + 1)
  }

  /** The field pattern matched at index `p`: key is group 1, value is group 2 stripped. */
  function FieldAt(line: string, p: nat): (r: Option<Field>)
    ensures r.Some? ==> p < |line| && line[p] == '-' && r.value.key != []
  {
    if !(p < |line| && line[p] == '-') then None
    else
      var q := SkipSpace(line, p + 1);
      if !OccursAt(line, q, "**") then None
      else
        match KeyEnd(line, q + 3)
        case None => None
        case Some(j) => Some(Field(line[q + 2..j], Trim(line[j + 3..])))
  }

  /** The leftmost index at or after `p` where the field pattern matches. */
  function FindField(line: string, p: nat): (r: Option<Field>)
    ensures r.Some? ==> exists i :: p <= i < |line| && FieldAt(line, i) == r
    ensures r.None? ==> forall i :: p <= i < |line| ==> FieldAt(line, i).None?
    decreases |line| - p
  {
    if p >= |line| then None
    else if FieldAt(line, p).Some? then FieldAt(line, p)
    else FindField(line, p + 1)
  }

  function MatchField(line: string, m: Matcher): Option<Field> {
    match m
    case Anchored => FieldAt(line, 0)
    case Search => FindField(line, 0)
  }

  /** Every line stripped, as each loop over the lines of a block strips its line first. */
  function Stripped(lines: seq<string>): (r: seq<string>)
    ensures |r| == |lines|
  {
    if lines == [] then [] else [Trim(lines[0])] + Stripped(lines[1..])
  }

  /** The stripped lines from `i` on: the stripped line `i`, then the rest. */
  lemma StrippedFrom(lines: seq<string>, i: nat)
    requires i < |lines|
    ensures Stripped(lines[i..]) == [Trim(lines[i])] + Stripped(lines[i + 1..])
  {
    assert lines[i..][1..] == lines[i + 1..];
  }

  /** Each stripped line is the strip of its line. */
  lemma {:induction false} StrippedAt(lines: seq<string>, k: nat)
    requires k < |lines|
    ensures Stripped(lines)[k] == Trim(lines[k])
    decreases k
  {
    if k > 0 {
      StrippedAt(lines[1..], k - 1);
    }
  }

  /** One loop step of the field collectors over a stripped line: keys are lower-cased, a later key overwrites. */
  function AddField(fields: map<string, string>, line: string, m: Matcher): map<string, string> {
    match MatchField(line, m)
    case None => fields
    case Some(f) => fields[ToLower(f.key) := f.value]
  }

  /** The dictionary the field loop builds, starting from `fields`, over stripped `lines` in order. */
  function FieldsFrom(fields: map<string, string>, lines: seq<string>, m: Matcher): map<string, string>
    decreases |lines|
  {
    if lines == [] then fields else FieldsFrom(AddField(fields, lines[0], m), lines[1..], m)
  }

  function FieldsOf(lines: seq<string>, m: Matcher): map<string, string> {
    FieldsFrom(map[], lines, m)
  }

  /** The field loop as the source writes it: a `for` loop stripping each line and inserting into a dictionary. */
  method CollectFields(lines: seq<string>, m: Matcher) returns (fields: map<string, string>)
    ensures fields == FieldsOf(Stripped(lines), m)
  {
    fields := map[];
    var i := 0;
    while i < |lines|
      invariant 0 <= i <= |lines|
      invariant FieldsFrom(fields, Stripped(lines[i..]), m) == FieldsOf(Stripped(lines), m)
    {
      StrippedFrom(lines, i);
      var stripped := Trim(lines[i]);
      match MatchField(stripped, m) {
        case Some(f) => fields := fields[ToLower(f.key) := f.value];
        case None =>
      }
      i := i + 1;
    }
  }

  /** Every key the collector stores is lower-case. */
  lemma {:induction false} FieldKeysLowerCase(fields: map<string, string>, lines: seq<string>, m: Matcher)
    requires forall k :: k in fields ==> IsLowerCase(k)
    ensures forall k :: k in FieldsFrom(fields, lines, m) ==> IsLowerCase(k)
    decreases |lines|
  {
    if lines != [] {
      match MatchField(lines[0], m) {
        case Some(f) =>
          LowerIsLowerCase(f.key);
        case None =>
      }
      FieldKeysLowerCase(AddField(fields, lines[0], m), lines[1..], m);
    }
  }

  lemma LowerIsLowerCase(s: string)
    ensures IsLowerCase(ToLower(s))
  {
  }

  /** Collecting over `a + b` is collecting over `a`, then over `b`. */
  lemma {:induction false} FieldsFromAppend(fields: map<string, string>, a: seq<string>, b: seq<string>, m: Matcher)
    ensures FieldsFrom(fields, a + b, m) == FieldsFrom(FieldsFrom(fields, a, m), b, m)
    decreases |a|
  {
    if a == [] {
      EmptyAppend(b);
    } else {
      ConsTail(a, b);
      FieldsFromAppend(AddField(fields, a[0], m), a[1..], b, m);
    }
  }

  /** `line` is a field line whose lower-cased key is `k`. */
  predicate KeyLine(line: string, m: Matcher, k: string) {
    MatchField(line, m).Some? && ToLower(MatchField(line, m).value.key) == k
  }

  /**
   * Later duplicates overwrite earlier ones: the value of a key is the one on the LAST line
   * that has it, and lines without it leave an earlier value in place.
   */
  lemma {:induction false} FieldsLastWins(lines: seq<string>, m: Matcher, i: nat, f: Field)
    requires i < |lines| && MatchField(lines[i], m) == Some(f)
    requires forall j :: i < j < |lines| ==> !KeyLine(lines[j], m, ToLower(f.key))
    ensures ToLower(f.key) in FieldsOf(lines, m) && FieldsOf(lines, m)[ToLower(f.key)] == f.value
  {
    var k := ToLower(f.key);
    var pre, post := lines[..i], lines[i + 1..];
    forall j | 0 <= j < |post|
      ensures !KeyLine(post[j], m, k)
    {
      assert post[j] == lines[i + 1 + j];
    }
    SplitAt(lines, i);
    LastWinsAround(pre, lines[i], post, m, f);
  }

  /** The field of `line` survives the lines after it when none of them carries its key. */
  lemma LastWinsAround(pre: seq<string>, line: string, post: seq<string>, m: Matcher, f: Field)
    requires MatchField(line, m) == Some(f)
    requires forall j :: 0 <= j < |post| ==> !KeyLine(post[j], m, ToLower(f.key))
    ensures var fields := FieldsFrom(map[], pre + ([line] + post), m);
      ToLower(f.key) in fields && fields[ToLower(f.key)] == f.value
  {
    var k := ToLower(f.key);
    FieldsFromAppend(map[], pre, [line] + post, m);
    var before := FieldsFrom(map[], pre, m);
    var at := AddField(before, line, m);
    assert at == before[k := f.value];
    FieldsFromCons(before, line, post, m);
    FieldsUntouched(at, post, m, k);
  }

  /** The first line is added first. */
  lemma FieldsFromCons(fields: map<string, string>, line: string, rest: seq<string>, m: Matcher)
    ensures FieldsFrom(fields, [line] + rest, m) == FieldsFrom(AddField(fields, line, m), rest, m)
  {
    assert ([line] + rest)[1..] == rest;
  }

  /** Lines that do not carry key `k` leave its entry as it was. */
  lemma {:induction false} FieldsUntouched(fields: map<string, string>, lines: seq<string>, m: Matcher, k: string)
    requires forall j :: 0 <= j < |lines| ==> !KeyLine(lines[j], m, k)
    ensures (k in FieldsFrom(fields, lines, m)) == (k in fields)
    ensures k in fields ==> FieldsFrom(fields, lines, m)[k] == fields[k]
    decreases |lines|
  {
    if lines != [] {
      assert forall j :: 0 <= j < |lines[1..]| ==> lines[1..][j] == lines[j + 1];
      FieldsUntouched(AddField(fields, lines[0], m), lines[1..], m, k);
    }
  }

  /** One line adds its own key and keeps every key already there. */
  lemma AddFieldKeys(fields: map<string, string>, line: string, m: Matcher, k: string)
    ensures k in AddField(fields, line, m) <==> k in fields || KeyLine(line, m, k)
  {
  }

  /** A key is present exactly when some line carries it (after lower-casing). */
  lemma {:induction false} FieldsKeys(fields: map<string, string>, lines: seq<string>, m: Matcher, k: string)
    ensures k in FieldsFrom(fields, lines, m) <==>
      k in fields || exists j :: 0 <= j < |lines| && KeyLine(lines[j], m, k)
    decreases |lines|
  {
    if lines != [] {
      var rest := lines[1..];
      FieldsKeys(AddField(fields, lines[0], m), rest, m, k);
      AddFieldKeys(fields, lines[0], m, k);
      if exists j :: 0 <= j < |rest| && KeyLine(rest[j], m, k) {
        var j :| 0 <= j < |rest| && KeyLine(rest[j], m, k);
        assert rest[j] == lines[j + 1];
      }
      if exists j :: 0 <= j < |lines| && KeyLine(lines[j], m, k) {
        var j :| 0 <= j < |lines| && KeyLine(lines[j], m, k);
        if j > 0 {
          assert rest[j - 1] == lines[j];
        }
      }
    }
  }

  // ---------------------------------------------------------------------------------------
  // Deep-dive blocks: the `in_findings` state machine
  // ---------------------------------------------------------------------------------------

  const KeyFindingsMarker: string := "- **Key Findings**"

  /** The loop state of `_parse_single_dive` / `parse_single_dive`. */
  datatype DiveScan = DiveScan(fields: map<string, string>, findings: seq<string>, inFindings: bool)

  const DiveStart: DiveScan := DiveScan(map[], [], false)

  /** The stripped line opens the findings. */
  predicate IsMarker(line: string) {
    StartsWith(line, KeyFindingsMarker)
  }

  predicate IsBullet(line: string) {
    StartsWith(line, "- ")
  }

  /** The text of a finding bullet: the stripped line without "- ", stripped again. */
  function BulletText(line: string): string
    requires IsBullet(line)
  {
    Trim(line[2..])
  }

  /** One iteration of the dive loop, over a stripped line. */
  function DiveStep(st: DiveScan, line: string, m: Matcher): DiveScan {
    if IsMarker(line) then st.(inFindings := true)
    else if st.inFindings && IsBullet(line) then st.(findings := st.findings + [BulletText(line)])
    else if !st.inFindings then st.(fields := AddField(st.fields, line, m))
    else st
  }

  function DiveRun(st: DiveScan, lines: seq<string>, m: Matcher): DiveScan
    decreases |lines|
  {
    if lines == [] then st else DiveRun(DiveStep(st, lines[0], m), lines[1..], m)
  }

  /** The index of the first marker line. */
  function MarkerIndex(lines: seq<string>): (r: Option<nat>)
    ensures r.Some? ==> r.value < |lines| && IsMarker(lines[r.value])
    ensures forall j :: 0 <= j < |lines| && (r.None? || j < r.value) ==> !IsMarker(lines[j])
  {
    FirstWhere(lines, IsMarker)
  }

  /** The finding one line after the marker contributes: its bullet text, unless it is a marker. */
  function FindingOf(line: string): seq<string> {
    if !IsMarker(line) && IsBullet(line) then [BulletText(line)] else []
  }

  /** The findings the lines after the marker contribute: each non-marker bullet, in order. */
  function FindingsOf(lines: seq<string>): seq<string> {
    if lines == [] then [] else FindingOf(lines[0]) + FindingsOf(lines[1..])
  }

  /** Once in findings mode, the fields stay as they are and every bullet is appended. */
  lemma {:induction false} DiveRunInFindings(st: DiveScan, lines: seq<string>, m: Matcher)
    requires st.inFindings
    ensures DiveRun(st, lines, m) == st.(findings := st.findings + FindingsOf(lines))
    decreases |lines|
  {
    if lines == [] {
      EmptyAppend(st.findings);
    } else {
      var found := FindingOf(lines[0]);
      var rest := FindingsOf(lines[1..]);
      var next := st.(findings := st.findings + found);
      DiveStepInFindings(st, lines[0], m);
      assert DiveRun(st, lines, m) == DiveRun(next, lines[1..], m);
      DiveRunInFindings(next, lines[1..], m);
      AppendAssoc(st.findings, found, rest);
    }
  }

  /** In findings mode a line adds at most its own bullet. */
  lemma DiveStepInFindings(st: DiveScan, line: string, m: Matcher)
    requires st.inFindings
    ensures DiveStep(st, line, m) == st.(findings := st.findings + FindingOf(line))
  {
  }

  /** The dive loop over lines without a marker: every line supplies a field, and there are no findings. */
  lemma {:induction false} DiveRunNoMarker(st: DiveScan, lines: seq<string>, m: Matcher)
    requires !st.inFindings && MarkerIndex(lines).None?
    ensures DiveRun(st, lines, m) == st.(fields := FieldsFrom(st.fields, lines, m))
    decreases |lines|
  {
    if lines != [] {
      MarkerIndexCons(lines);
      DiveRunBeforeMarker(st, lines, m);
      DiveRunNoMarker(st.(fields := AddField(st.fields, lines[0], m)), lines[1..], m);
    }
  }

  /**
   * The dive loop up to and past the first marker, at index `k`: the lines before it supply the
   * fields, the lines after it supply the findings, and nothing else contributes.
   */
  lemma {:induction false} DiveRunMarker(st: DiveScan, lines: seq<string>, m: Matcher, k: nat)
    requires !st.inFindings && MarkerIndex(lines) == Some(k)
    ensures DiveRun(st, lines, m) == DiveScan(FieldsFrom(st.fields, lines[..k], m), st.findings + FindingsOf(lines[k + 1..]), true)
    decreases k
  {
    if k == 0 {
      DiveRunAtMarker(st, lines, m);
    } else {
      MarkerIndexCons(lines);
      DiveRunBeforeMarker(st, lines, m);
      DiveRunMarker(st.(fields := AddField(st.fields, lines[0], m)), lines[1..], m, k - 1);
      DiveRunDropFirst(st, lines, m, k);
    }
  }

  /** The index shifts that carry the marker split past a first line. */
  lemma DiveRunDropFirst(st: DiveScan, lines: seq<string>, m: Matcher, k: nat)
    requires 0 < k < |lines|
    ensures FieldsFrom(st.fields, lines[..k], m) == FieldsFrom(AddField(st.fields, lines[0], m), lines[1..][..k - 1], m)
    ensures lines[k + 1..] == lines[1..][k..]
  {
    assert lines[..k][1..] == lines[1..][..k - 1];
    assert lines[..k][0] == lines[0];
  }

  /** A marker line ends the fields and starts the findings. */
  lemma DiveRunAtMarker(st: DiveScan, lines: seq<string>, m: Matcher)
    requires !st.inFindings && lines != [] && IsMarker(lines[0])
    ensures MarkerIndex(lines) == Some(0)
    ensures DiveRun(st, lines, m) == DiveScan(FieldsFrom(st.fields, lines[..0], m), st.findings + FindingsOf(lines[1..]), true)
  {
    var next := DiveStep(st, lines[0], m);
    assert DiveRun(st, lines, m) == DiveRun(next, lines[1..], m);
    assert next == st.(inFindings := true);
    DiveRunInFindings(next, lines[1..], m);
  }

  /** Before the marker, a line only adds its field, to the fields and to their collection. */
  lemma DiveRunBeforeMarker(st: DiveScan, lines: seq<string>, m: Matcher)
    requires !st.inFindings && lines != [] && !IsMarker(lines[0])
    ensures DiveRun(st, lines, m) == DiveRun(st.(fields := AddField(st.fields, lines[0], m)), lines[1..], m)
    ensures FieldsFrom(st.fields, lines, m) == FieldsFrom(AddField(st.fields, lines[0], m), lines[1..], m)
  {
    assert DiveStep(st, lines[0], m) == st.(fields := AddField(st.fields, lines[0], m));
  }

  /** Past a line that is not a marker, the first marker is one further on. */
  lemma MarkerIndexCons(lines: seq<string>)
    requires lines != [] && !IsMarker(lines[0])
    ensures MarkerIndex(lines) == match MarkerIndex(lines[1..]) case None => None case Some(k) => Some(k + 1)
  {
  }

  // ---------------------------------------------------------------------------------------
  // Blocks to items, field defaults, deep dives
  // ---------------------------------------------------------------------------------------

  /** `fields.get(key, default)`. */
  function Lookup(fields: map<string, string>, key: string, default: string): string {
    if key in fields then fields[key] else default
  }

  /** What one sub-block contributes: nothing if it is blank once stripped, else what `parse` makes of the stripped block. */
  function BlockItem<T>(block: string, parse: string -> Option<T>): (r: seq<T>)
    ensures |r| <= 1
  {
    var b := Trim(block);
    if b == [] then []
    else match parse(b)
      case None => []
      case Some(x) => [x]
  }

  /** The loop over sub-blocks: strip each, skip blank ones, keep what the block parser returns, in order. */
  function FilterMapBlocks<T>(blocks: seq<string>, parse: string -> Option<T>): (r: seq<T>)
    ensures |r| <= |blocks|
    decreases |blocks|
  {
    if blocks == [] then []
    else FilterMapBlocks(blocks[..|blocks| - 1], parse) + BlockItem(blocks[|blocks| - 1], parse)
  }

  /** What a block contributes, from what the parser makes of it once stripped. */
  lemma BlockItemOf<T>(block: string, parse: string -> Option<T>, x: Option<T>)
    requires Trim(block) != [] ==> parse(Trim(block)) == x
    ensures BlockItem(block, parse) == if Trim(block) == [] || x.None? then [] else [x.value]
  {
  }

  /** One more block adds what that block contributes. */
  lemma FilterMapBlocksStep<T>(blocks: seq<string>, parse: string -> Option<T>, i: nat, item: seq<T>)
    requires i < |blocks| && item == BlockItem(blocks[i], parse)
    ensures FilterMapBlocks(blocks[..i + 1], parse) == FilterMapBlocks(blocks[..i], parse) + item
  {
    TakeLast(blocks, i);
  }

  /** Every item comes from some non-blank block, and the parser returned it for that block. */
  lemma {:induction false} FilterMapBlocksFrom<T>(blocks: seq<string>, parse: string -> Option<T>, x: T)
    requires x in FilterMapBlocks(blocks, parse)
    ensures exists k :: 0 <= k < |blocks| && Trim(blocks[k]) != [] && parse(Trim(blocks[k])) == Some(x)
    decreases |blocks|
  {
    var n := |blocks| - 1;
    var front := blocks[..n];
    assert FilterMapBlocks(blocks, parse) == FilterMapBlocks(front, parse) + BlockItem(blocks[n], parse);
    if x in FilterMapBlocks(front, parse) {
      FilterMapBlocksFrom(front, parse, x);
      var k :| 0 <= k < |front| && Trim(front[k]) != [] && parse(Trim(front[k])) == Some(x);
      assert front[k] == blocks[k];
    } else {
      var b := Trim(blocks[n]);
      assert b != [] && parse(b) == Some(x);
    }
  }

  /** The `in_findings` loop shared by `_parse_single_dive` and `parse_single_dive`. */
  method RunDive(lines: seq<string>, m: Matcher) returns (st: DiveScan)
    ensures st == DiveRun(DiveStart, Stripped(lines), m)
  {
    var fields: map<string, string> := map[];
    var findings: seq<string> := [];
    var inFindings := false;
    var i := 0;
    while i < |lines|
      invariant 0 <= i <= |lines|
      invariant DiveRun(DiveScan(fields, findings, inFindings), Stripped(lines[i..]), m) == DiveRun(DiveStart, Stripped(lines), m)
    {
      StrippedFrom(lines, i);
      var stripped := Trim(lines[i]);
      if StartsWith(stripped, KeyFindingsMarker) {
        inFindings := true;
      } else if inFindings && StartsWith(stripped, "- ") {
        findings := findings + [Trim(stripped[2..])];
      } else if !inFindings {
        match MatchField(stripped, m) {
          case Some(f) => fields := fields[ToLower(f.key) := f.value];
          case None =>
        }
      }
      i := i + 1;
    }
    st := DiveScan(fields, findings, inFindings);
  }

  /** One deep-dive block, as both implementations read it (they differ only in `m`). */
  function DiveOf(block: string, m: Matcher): (r: Option<DeepDive>)
    ensures r.Some? ==> r.value.title != []
  {
    var lines := Split(block, '\n');
    var title := StripHeading(Trim(lines[0]));
    if title == [] then None
    else
      var st := DiveRun(DiveStart, Stripped(lines[1..]), m);
      Some(DeepDive(
        title,
        Lookup(st.fields, "priority", "MEDIUM"),
        Lookup(st.fields, "summary", ""),
        st.findings))
  }

  /**
   * A dive, stated without the loop: priority and summary come from the field lines before
   * the first `- **Key Findings**` line (defaults "MEDIUM" and ""), the findings are the
   * bullets after it, in order; without the marker there are no findings.
   */
  lemma DiveOfSections(block: string, m: Matcher)
    requires DiveOf(block, m).Some?
    ensures var lines := Stripped(Split(block, '\n')[1..]);
      var d := DiveOf(block, m).value;
      && d.priority == Lookup(FieldsOf(FieldLines(lines), m), "priority", "MEDIUM")
      && d.summary == Lookup(FieldsOf(FieldLines(lines), m), "summary", "")
      && d.keyFindings == MarkedFindings(lines)
  {
    DiveRunFromStart(Stripped(Split(block, '\n')[1..]), m);
  }

  /** The lines before the first marker: all of them without one. */
  function FieldLines(lines: seq<string>): seq<string> {
    match MarkerIndex(lines)
    case None => lines
    case Some(k) => lines[..k]
  }

  /** The bullets after the first marker: none without one. */
  function MarkedFindings(lines: seq<string>): seq<string> {
    match MarkerIndex(lines)
    case None => []
    case Some(k) => FindingsOf(lines[k + 1..])
  }

  /** The loop from its start: the fields before the marker, and the findings after it. */
  lemma DiveRunFromStart(lines: seq<string>, m: Matcher)
    ensures var st := DiveRun(DiveStart, lines, m);
      st.fields == FieldsOf(FieldLines(lines), m) && st.findings == MarkedFindings(lines)
  {
    match MarkerIndex(lines) {
      case None =>
        DiveRunNoMarker(DiveStart, lines, m);
      case Some(k) =>
        DiveRunMarker(DiveStart, lines, m, k);
        EmptyAppend(FindingsOf(lines[k + 1..]));
    }
  }

  // ---------------------------------------------------------------------------------------
  // Small shared rules
  // ---------------------------------------------------------------------------------------

  /**
   * `[g.strip() for g in s.split(",") if g.strip()]` in Python and
   * `s.split(',').map(trim).filter(non-empty)` in Rust.
   */
  function Gaps(s: string): (r: seq<string>)
    ensures forall o :: o in r ==> o != [] && ',' !in o && !IsSpace(o[0]) && !IsSpace(o[|o| - 1])
    ensures |r| <= multiset(s)[','] + 1
  {
    SplitCount(s, ',');
    GapsNoComma(s);
    GapsTrimmed(s);
    CleanPieces(Split(s, ','), Trim)
  }

  /** An absent `gaps` field, read as "", gives no gaps. */
  lemma GapsOfNothing()
    ensures Gaps("") == []
  {
    var pieces := Split("", ',');
    assert pieces == [""];
    assert Trim(pieces[0]) == [];
    assert pieces[1..] == [];
  }

  /** Gaps hold no comma: the pieces of a split hold none, and stripping adds none. */
  lemma GapsNoComma(s: string)
    ensures forall o :: o in CleanPieces(Split(s, ','), Trim) ==> ',' !in o
  {
    TrimAddsNone(',');
    CleanPiecesAvoid(Split(s, ','), Trim, ',');
  }

  /** Gaps have no surrounding whitespace. */
  lemma GapsTrimmed(s: string)
    ensures forall o :: o in CleanPieces(Split(s, ','), Trim) ==> !IsSpace(o[0]) && !IsSpace(o[|o| - 1])
  {
    TrimTrims();
    CleanPiecesTrimmed(Split(s, ','), Trim);
  }

  /** Blank text has no gaps; text without a comma is a single gap, stripped. */
  lemma GapsOfOnePiece(s: string)
    requires ',' !in s
    ensures Gaps(s) == (if Trim(s) == [] then [] else [Trim(s)])
  {
    SplitWithout(s, ',');
  }

  /**
   * Splitting at the first comma: the gaps of `a,b` are the gaps of `a` followed by the gaps
   * of `b`, so each comma-separated piece contributes its own stripped self, in order.
   */
  lemma GapsAtComma(a: string, b: string)
    requires ',' !in a
    ensures Gaps(a + "," + b) == Gaps(a) + Gaps(b)
  {
    SplitAfterFirst(a, b, ',');
    var pieces := Split(a + "," + b, ',');
    assert pieces == [a] + Split(b, ',');
    assert pieces[1..] == Split(b, ',');
    GapsOfOnePiece(a);
  }

  /** One more gap in front of a list that already reads back as itself. */
  lemma GapsRoundTripStep(g: string, rest: seq<string>)
    requires g != [] && ',' !in g && Trim(g) == g
    requires rest != [] && Gaps(Join(rest, ",")) == rest
    ensures Gaps(Join([g] + rest, ",")) == [g] + rest
  {
    assert ([g] + rest)[1..] == rest;
    assert Join([g] + rest, ",") == g + "," + Join(rest, ",");
    GapsAtComma(g, Join(rest, ","));
    GapsOfOnePiece(g);
  }

  /** Stripped, non-empty, comma-free gaps written out with `,` between them read back as themselves. */
  lemma {:induction false} GapsRoundTrip(gs: seq<string>)
    requires forall k :: 0 <= k < |gs| ==> gs[k] != [] && ',' !in gs[k] && Trim(gs[k]) == gs[k]
    ensures Gaps(Join(gs, ",")) == gs
    decreases |gs|
  {
    if |gs| == 0 {
      GapsOfNothing();
    } else if |gs| == 1 {
      GapsOfOnePiece(gs[0]);
    } else {
      var rest := gs[1..];
      assert forall k :: 0 <= k < |rest| ==> rest[k] == gs[k + 1];
      GapsRoundTrip(rest);
      GapsRoundTripStep(gs[0], rest);
      HeadTail(gs);
    }
  }

  /** `max(1, min(10, x))` (Python); Rust's `.max(1).min(10)` gives the same value. */
  function ClampRating(x: int): (r: int)
    ensures 1 <= r <= 10
    ensures 1 <= x <= 10 ==> r == x
    ensures x < 1 ==> r == 1
    ensures x > 10 ==> r == 10
  {
    if x < 1 then 1 else if x > 10 then 10 else x
  }
}
