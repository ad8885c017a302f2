/**
 * The report helpers of frontend/src/lib/report-utils.ts: `isUrl`, `extractUrls` and
 * `parseTldrBullets`. The regular expressions are written out as scanners; `\s` and `trim()`
 * use the whitespace of the `Text` module, and `\d` is an ASCII digit.
 */
module ReportUtils {
  import opened Text
  import opened Unique

  // ---------------------------------------------------------------- isUrl

  /** Character `k` of `t` is `c`, ignoring ASCII case (the `i` flag). */
  predicate CharIs(t: string, k: nat, c: char) {
    k < |t| && LowerChar(t[k]) == c
  }

  predicate SchemeEndsAt(t: string, k: nat) {
    CharIs(t, k, ':') && CharIs(t, k + 1, '/') && CharIs(t, k + 2, '/')
  }

  /** `/^https?:\/\//i`, matched one character at a time. */
  predicate MatchesScheme(t: string) {
    && CharIs(t, 0, 'h') && CharIs(t, 1, 't') && CharIs(t, 2, 't') && CharIs(t, 3, 'p')
    && (if CharIs(t, 4, 's') then SchemeEndsAt(t, 5) else SchemeEndsAt(t, 4))
  }

  /** `isUrl`: the scheme test on the trimmed text. */
  predicate IsUrl(s: string) {
    MatchesScheme(Trim(s))
  }

  /** `isUrl(s)` holds exactly when the trimmed text starts with `http://` or `https://`, in any case. */
  lemma IsUrlIff(s: string)
    ensures IsUrl(s) <==> StartsWith(ToLower(Trim(s)), "http://") || StartsWith(ToLower(Trim(s)), "https://")
  {
    SchemeIff(Trim(s));
  }

  /** The character-by-character scheme test is the case-blind prefix test. */
  lemma SchemeIff(t: string)
    ensures MatchesScheme(t) <==> StartsWith(ToLower(t), "http://") || StartsWith(ToLower(t), "https://")
  {
    if StartsWith(ToLower(t), "http://") {
      HttpMatches(t);
    }
    if StartsWith(ToLower(t), "https://") {
      HttpsMatches(t);
    }
    if MatchesScheme(t) {
      MatchedPrefix(t);
    }
  }

  lemma HttpMatches(t: string)
    requires StartsWith(ToLower(t), "http://")
    ensures MatchesScheme(t)
  {
    var l := ToLower(t);
    assert l[..7] == "http://";
    assert l[0] == 'h' && l[1] == 't' && l[2] == 't' && l[3] == 'p' && l[4] == ':' && l[5] == '/' && l[6] == '/';
  }

  lemma HttpsMatches(t: string)
    requires StartsWith(ToLower(t), "https://")
    ensures MatchesScheme(t)
  {
    var l := ToLower(t);
    assert l[..8] == "https://";
    assert l[0] == 'h' && l[1] == 't' && l[2] == 't' && l[3] == 'p' && l[4] == 's' && l[5] == ':' && l[6] == '/' && l[7] == '/';
  }

  lemma MatchedPrefix(t: string)
    requires MatchesScheme(t)
    ensures StartsWith(ToLower(t), "http://") || StartsWith(ToLower(t), "https://")
  {
    var l := ToLower(t);
    if CharIs(t, 4, 's') {
      assert forall k :: 0 <= k < 8 ==> l[..8][k] == "https://"[k];
    } else {
      assert forall k :: 0 <= k < 7 ==> l[..7][k] == "http://"[k];
    }
  }

  // ---------------------------------------------------------------- extractUrls

  /** A character `[^\s)>\]"']` accepts. */
  predicate UrlChar(c: char) {
    !IsSpace(c) && c != ')' && c != '>' && c != ']' && c != '"' && c != '\''
  }

  /** The end of the maximal run of url characters starting at `i`. */
  function SkipUrlChars(s: string, i: nat): (j: nat)
    requires i <= |s|
    ensures i <= j <= |s|
    ensures forall k :: i <= k < j ==> UrlChar(s[k])
    ensures j == |s| || !UrlChar(s[j])
    decreases |s| - i
  {
    if i < |s| && UrlChar(s[i]) then SkipUrlChars(s, i + 1) else i
  }

  /** The length of the `https?:\/\/` match at `i` (the optional `s` is greedy), 0 when none. */
  function SchemeAt(text: string, i: nat): (n: nat)
    ensures n == 0 || n == 7 || n == 8
    ensures n == 8 <==> OccursAt(text, i, "https://")
    ensures n == 7 <==> OccursAt(text, i, "http://")
  {
    if OccursAt(text, i, "https://") then
      HttpsIsNotHttp(text, i);
      8
    else if OccursAt(text, i, "http://") then 7
    else 0
  }

  lemma HttpsIsNotHttp(text: string, i: nat)
    requires OccursAt(text, i, "https://")
    ensures !OccursAt(text, i, "http://")
  {
    assert text[i..i + 8][4] == 's';
    assert "http://"[4] == ':';
  }

  /**
   * A url as the pattern `https?:\/\/[^\s)>\]"']+` matches it: a scheme of the pattern, then at
   * least one url character, and nothing else.
   */
  predicate UrlShaped(m: string) {
    var n := SchemeAt(m, 0);
    && 0 < n < |m|
    && forall k :: n <= k < |m| ==> UrlChar(m[k])
  }

  /**
   * The length of the match starting at `i`, 0 when there is none there. After `https://`
   * with no url character the pattern cannot fall back to `http`, since `:` is not `s`.
   */
  function MatchAt(text: string, i: nat): (n: nat)
    requires i <= |text|
    ensures i + n <= |text|
    ensures n > 0 ==> UrlShaped(text[i..i + n])
  {
    var s := SchemeAt(text, i);
    if s == 0 then 0
    else
      var j := SkipUrlChars(text, i + s);
      if j == i + s then 0
      else
        MatchShaped(text, i, j);
        j - i
  }

  /** A scheme followed by a non-empty run of url characters is a shaped url. */
  lemma MatchShaped(text: string, i: nat, j: nat)
    requires SchemeAt(text, i) > 0 && i + SchemeAt(text, i) < j <= |text|
    requires forall k :: i + SchemeAt(text, i) <= k < j ==> UrlChar(text[k])
    ensures UrlShaped(text[i..j])
  {
    var s := SchemeAt(text, i);
    var m := text[i..j];
    assert m[..s] == text[i..i + s];
    if s == 7 {
      assert m[4] == ':';
      assert !OccursAt(m, 0, "https://");
    }
    assert SchemeAt(m, 0) == s;
  }

  /** `text.match(urlRe)` with the `g` flag from position `i`: each match, left to right. */
  function Matches(text: string, i: nat): (r: seq<string>)
    requires i <= |text|
    ensures forall m :: m in r ==> UrlShaped(m)
    decreases |text| - i
  {
    if i == |text| then []
    else
      var n := MatchAt(text, i);
      if n > 0 then [text[i..i + n]] + Matches(text, i + n) else Matches(text, i + 1)
  }

  function Itself(s: string): string {
    s
  }

  predicate AnyMatch(s: string) {
    true
  }

  /**
   * `extractUrls`: the matches with repeats removed (a `Set` keeps insertion order), so
   * every match occurs exactly once, in order of first appearance.
   */
  function ExtractUrls(text: string): (r: seq<string>)
    ensures forall i, j :: 0 <= i < j < |r| ==> r[i] != r[j]
    ensures forall u :: u in r ==> u in Matches(text, 0)
  {
    Firsts(Matches(text, 0), Itself, AnyMatch)
  }

  /** No match is lost: every match of the pattern is among the extracted urls. */
  lemma ExtractUrlsComplete(text: string)
    ensures forall u :: u in Matches(text, 0) ==> u in ExtractUrls(text)
  {
    forall u | u in Matches(text, 0)
      ensures u in ExtractUrls(text)
    {
      assert AnyMatch(u);
      assert Itself(u) in Keys(ExtractUrls(text), Itself);
    }
  }

  /** Urls come out in the order of their first matches. */
  lemma ExtractUrlsInOrder(text: string, a: nat, b: nat)
    requires a < b
    requires FirstOf(Matches(text, 0), Itself, AnyMatch, a) && FirstOf(Matches(text, 0), Itself, AnyMatch, b)
    ensures var r := ExtractUrls(text);
      exists ia, ib :: 0 <= ia < ib < |r| && r[ia] == Matches(text, 0)[a] && r[ib] == Matches(text, 0)[b]
  {
    var xs := Matches(text, 0);
    FirstsKeepOrder(xs, Itself, AnyMatch, a, b);
    var r := Firsts(xs, Itself, AnyMatch);
    var ia, ib :| 0 <= ia < ib < |r| && r[ia] == xs[a] && r[ib] == xs[b];
    assert ExtractUrls(text) == r;
  }

  /** A shaped url is its own trim and passes its scheme test. */
  lemma UrlShapedIsUrl(m: string)
    requires UrlShaped(m)
    ensures IsUrl(m)
  {
    var n := SchemeAt(m, 0);
    assert m[..n][0] == 'h';
    assert UrlChar(m[|m| - 1]);
    TrimOfTrimmed(m);
    ShapedScheme(m);
  }

  lemma ShapedScheme(m: string)
    requires UrlShaped(m)
    ensures MatchesScheme(m)
  {
    var n := SchemeAt(m, 0);
    assert m[..n][0] == 'h';
    assert m[..n][1] == 't' && m[..n][2] == 't' && m[..n][3] == 'p';
    if n == 8 {
      assert m[..n][4] == 's' && m[..n][5] == ':' && m[..n][6] == '/' && m[..n][7] == '/';
    } else {
      assert m[..n][4] == ':' && m[..n][5] == '/' && m[..n][6] == '/';
    }
  }

  /** Every url `extractUrls` finds is one `isUrl` accepts. */
  lemma ExtractedAreUrls(text: string)
    ensures forall u :: u in ExtractUrls(text) ==> IsUrl(u)
  {
    forall u | u in ExtractUrls(text)
      ensures IsUrl(u)
    {
      UrlShapedIsUrl(u);
    }
  }

  // ---------------------------------------------------------------- parseTldrBullets

  predicate IsDigit(c: char) {
    '0' <= c <= '9'
  }

  function SkipDigits(s: string, i: nat): (j: nat)
    requires i <= |s|
    ensures i <= j <= |s|
    ensures j == |s| || !IsDigit(s[j])
    decreases |s| - i
  {
    if i < |s| && IsDigit(s[i]) then SkipDigits(s, i + 1) else i
  }

  /** The length of the `^[-*]\s+` match, 0 when none. */
  function DashMarker(line: string): (n: nat)
    ensures n <= |line|
    ensures n > 0 ==> n >= 2 && (line[0] == '-' || line[0] == '*') && forall k :: 1 <= k < n ==> IsSpace(line[k])
  {
    if |line| >= 2 && (line[0] == '-' || line[0] == '*') && IsSpace(line[1]) then SkipSpace(line, 1) else 0
  }

  /** The length of the `^\d+\.\s+` match, 0 when none. */
  function NumberMarker(line: string): (n: nat)
    ensures n <= |line|
    ensures n > 0 ==> n >= 3 && IsSpace(line[n - 1])
  {
    var d := SkipDigits(line, 0);
    if 0 < d && d + 1 < |line| && line[d] == '.' && IsSpace(line[d + 1]) then SkipSpace(line, d + 1) else 0
  }

  /** The bullet marker a line opens with, dash first, 0 when the line has none. */
  function MarkerLength(line: string): nat {
    if DashMarker(line) > 0 then DashMarker(line) else NumberMarker(line)
  }

  predicate IsMarker(line: string) {
    MarkerLength(line) > 0
  }

  /** A line with no surrounding whitespace: what survives the trim-and-filter of the lines. */
  predicate CleanLine(line: string) {
    line != [] && !IsSpace(line[0]) && !IsSpace(line[|line| - 1])
  }

  /** The text after a marker of a clean line is not empty. */
  lemma MarkerLeavesText(line: string)
    requires CleanLine(line)
    ensures MarkerLength(line) < |line|
  {
  }

  /** `.map((l) => l.trim()).filter(Boolean)`. */
  function CleanLines(lines: seq<string>): (r: seq<string>)
    ensures |r| <= |lines|
    ensures forall k :: 0 <= k < |r| ==> CleanLine(r[k])
  {
    if lines == [] then []
    else
      var t := Trim(lines[0]);
      (if t == [] then [] else [t]) + CleanLines(lines[1..])
  }

  /** The loop's state: the bullets pushed so far and the one being built. */
  datatype Bullets = Bullets(bullets: seq<string>, current: string)

  /** `if (current) bullets.push(current)`. */
  function Flush(acc: Bullets): seq<string> {
    if acc.current != [] then acc.bullets + [acc.current] else acc.bullets
  }

  /** One turn of the loop: a marker line starts a new bullet, any other line extends the current one. */
  function Step(acc: Bullets, line: string): Bullets {
    if IsMarker(line) then Bullets(Flush(acc), line[MarkerLength(line)..])
    else Bullets(acc.bullets, acc.current + (if acc.current != [] then " " else "") + line)
  }

  /** The loop over the lines, as a value. */
  function Scan(lines: seq<string>): Bullets {
    if lines == [] then Bullets([], "")
    else Step(Scan(lines[..|lines| - 1]), lines[|lines| - 1])
  }

  /** `parseTldrBullets` as a value. */
  function TldrBullets(tldr: string): seq<string> {
    Flush(Scan(CleanLines(Split(tldr, '\n'))))
  }

  /** `parseTldrBullets`: the loop over the cleaned lines, then the last push. */
  method ParseTldrBullets(tldr: string) returns (bullets: seq<string>)
    ensures bullets == TldrBullets(tldr)
  {
    var lines := CleanLines(Split(tldr, '\n'));
    bullets := [];
    var current := "";
    for i := 0 to |lines|
      invariant Scan(lines[..i]) == Bullets(bullets, current)
    {
      var line := lines[i];
      ScanSnoc(lines, i);
      ghost var acc := Bullets(bullets, current);
      if DashMarker(line) > 0 {
        if current != "" {
          bullets := bullets + [current];
        }
        current := line[DashMarker(line)..];
      } else if NumberMarker(line) > 0 {
        if current != "" {
          bullets := bullets + [current];
        }
        current := line[NumberMarker(line)..];
      } else {
        ExtendUnmarked(acc, line);
        current := current + (if current != "" then " " else "") + line;
      }
    }
    assert lines[..|lines|] == lines;
    if current != "" {
      bullets := bullets + [current];
    }
  }

  /** One more line is one more turn of the loop. */
  lemma ScanSnoc(lines: seq<string>, i: nat)
    requires i < |lines|
    ensures Scan(lines[..i + 1]) == Step(Scan(lines[..i]), lines[i])
  {
    assert lines[..i + 1][..i] == lines[..i];
  }

  /** The number of marker lines. */
  function MarkerCount(lines: seq<string>): nat {
    if lines == [] then 0
    else MarkerCount(lines[..|lines| - 1]) + (if IsMarker(lines[|lines| - 1]) then 1 else 0)
  }

  /** 1 when text precedes the first marker, that is, when the first line is not a marker. */
  function LeadingText(lines: seq<string>): nat {
    if lines != [] && !IsMarker(lines[0]) then 1 else 0
  }

  /**
   * Over clean lines the loop never pushes an empty bullet, the bullet under construction is
   * empty only before the first line, and bullets pushed plus the current one number the
   * marker lines plus the leading text.
   */
  lemma {:induction false} ScanInvariant(lines: seq<string>)
    requires forall k :: 0 <= k < |lines| ==> CleanLine(lines[k])
    ensures forall b :: b in Scan(lines).bullets ==> b != []
    ensures Scan(lines).current == [] <==> lines == []
    ensures |Scan(lines).bullets| + (if lines == [] then 0 else 1) == MarkerCount(lines) + LeadingText(lines)
  {
    if lines != [] {
      var front := lines[..|lines| - 1];
      var line := lines[|lines| - 1];
      assert forall k :: 0 <= k < |front| ==> front[k] == lines[k];
      ScanInvariant(front);
      MarkerLeavesText(line);
      if front != [] {
        assert front[0] == lines[0];
      }
    }
  }

  /** `parseTldrBullets` never yields an empty bullet. */
  lemma BulletsNonEmpty(tldr: string)
    ensures forall b :: b in TldrBullets(tldr) ==> b != []
  {
    var lines := CleanLines(Split(tldr, '\n'));
    assert TldrBullets(tldr) == Flush(Scan(lines));
    FlushedNonEmpty(lines);
  }

  /** Over clean lines, the final push adds no empty bullet either. */
  lemma FlushedNonEmpty(lines: seq<string>)
    requires forall k :: 0 <= k < |lines| ==> CleanLine(lines[k])
    ensures forall b :: b in Flush(Scan(lines)) ==> b != []
  {
    ScanInvariant(lines);
  }

  /**
   * There are as many bullets as marker lines among the non-blank lines, plus one when text
   * comes before the first marker.
   */
  lemma BulletCount(tldr: string)
    ensures var lines := CleanLines(Split(tldr, '\n'));
      |TldrBullets(tldr)| == MarkerCount(lines) + LeadingText(lines)
  {
    ScanInvariant(CleanLines(Split(tldr, '\n')));
  }

  /** Without markers the whole text becomes one bullet, its non-blank lines joined by spaces. */
  lemma {:induction false} UnmarkedLinesJoin(lines: seq<string>)
    requires lines != []
    requires forall k :: 0 <= k < |lines| ==> CleanLine(lines[k]) && !IsMarker(lines[k])
    ensures Scan(lines) == Bullets([], Join(lines, " "))
    decreases |lines|
  {
    var front, last := lines[..|lines| - 1], lines[|lines| - 1];
    assert lines == front + [last];
    if |lines| == 1 {
      assert front == [];
      ExtendUnmarked(Bullets([], ""), last);
    } else {
      assert forall k :: 0 <= k < |front| ==> front[k] == lines[k];
      UnmarkedLinesJoin(front);
      assert front[0] == lines[0];
      JoinNonEmpty(front, " ");
      ExtendUnmarked(Scan(front), last);
      JoinSnoc(front, last, " ");
    }
  }

  /** A line without a marker extends the bullet being built, after a space when it is not empty. */
  lemma ExtendUnmarked(acc: Bullets, line: string)
    requires !IsMarker(line)
    ensures Step(acc, line) == Bullets(acc.bullets, acc.current + (if acc.current != [] then " " else "") + line)
  {
  }

  /** A join whose first part is not empty is not empty. */
  lemma JoinNonEmpty(parts: seq<string>, sep: string)
    requires parts != [] && parts[0] != []
    ensures Join(parts, sep) != []
  {
  }

  /** Joining one more part appends the separator and that part. */
  lemma {:induction false} JoinSnoc(parts: seq<string>, last: string, sep: string)
    requires parts != []
    ensures Join(parts + [last], sep) == Join(parts, sep) + sep + last
    decreases |parts|
  {
    if |parts| == 1 {
      assert (parts + [last])[1..] == [last];
    } else {
      assert (parts + [last])[1..] == parts[1..] + [last];
      JoinSnoc(parts[1..], last, sep);
    }
  }
}
