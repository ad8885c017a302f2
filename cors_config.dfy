/**
 * `parse_cors_origins` of rust-backend/src/config.rs: the `CORS_ORIGINS` setting, given either
 * as a JSON array `["http://a","http://b"]` or as a comma-separated list, becomes the list of
 * allowed origins. `trim()` uses the whitespace of the `Text` module.
 */
module CorsConfig {
  import opened Text
  import opened Seqs

  /** The value used when `CORS_ORIGINS` is unset. */
  const DefaultOrigins: string := "http://localhost:3000"

  /** `strip_prefix('[').and_then(|s| s.strip_suffix(']')).unwrap_or(trimmed)`. */
  predicate Bracketed(t: string) {
    |t| >= 2 && t[0] == '[' && t[|t| - 1] == ']'
  }

  function Unbracket(t: string): string {
    if Bracketed(t) then t[1..|t| - 1] else t
  }

  /** Drops every leading `c`. */
  function TrimStartChar(s: string, c: char): (r: string)
    ensures |r| <= |s| && r == s[|s| - |r|..]
    ensures r == [] || r[0] != c
  {
    if s != [] && s[0] == c then TrimStartChar(s[1..], c) else s
  }

  /** Drops every trailing `c`. */
  function TrimEndChar(s: string, c: char): (r: string)
    ensures |r| <= |s| && r == s[..|r|]
    ensures r == [] || r[|r| - 1] != c
  {
    if s != [] && s[|s| - 1] == c then TrimEndChar(s[..|s| - 1], c) else s
  }

  /** `trim_matches('"')`. */
  function TrimQuotes(s: string): string {
    TrimEndChar(TrimStartChar(s, '"'), '"')
  }

  /** `s.trim().trim_matches('"').trim()`: a piece without its quotes and surrounding whitespace. */
  function CleanPiece(piece: string): (r: string)
    ensures Unpadded(r)
  {
    var t := TrimQuotes(Trim(piece));
    TrimmedEnds(t);
    Trim(t)
  }

  /** Cleaning only removes characters, so it adds no comma. */
  lemma CleanPieceNoComma(piece: string)
    ensures ',' !in piece ==> ',' !in CleanPiece(piece)
  {
    if ',' !in piece {
      var a := Trim(piece);
      NotInSlice(piece, Lead(piece), Lead(piece) + |a|, ',');
      assert ',' !in a;
      var b1 := TrimStartChar(a, '"');
      NotInSlice(a, |a| - |b1|, |a|, ',');
      assert ',' !in b1;
      var b := TrimEndChar(b1, '"');
      NotInSlice(b1, 0, |b|, ',');
      assert ',' !in b;
      assert CleanPiece(piece) == Trim(b);
      NotInSlice(b, Lead(b), Lead(b) + |Trim(b)|, ',');
    }
  }

  /** A cleaner that adds no comma. */
  lemma CleanerAddsNoComma()
    ensures forall p :: ',' !in p ==> ',' !in CleanPiece(p)
  {
    forall p | ',' !in p
      ensures ',' !in CleanPiece(p)
    {
      CleanPieceNoComma(p);
    }
  }

  /** How many commas `s` holds. */
  function Commas(s: string): nat {
    multiset(s)[',']
  }

  /**
   * `parse_cors_origins`: no origin is empty or holds a comma,
   * and there are at most as many origins as the setting has commas, plus one.
   */
  function ParseCorsOrigins(raw: string): (r: seq<string>)
    ensures forall o :: o in r ==> o != [] && ',' !in o
    ensures |r| <= Commas(raw) + 1
  {
    var trimmed := Trim(raw);
    var inner := Unbracket(trimmed);
    var pieces := Split(inner, ',');
    SplitCount(inner, ',');
    InnerCommas(raw);
    CleanerAddsNoComma();
    CleanPiecesAvoid(pieces, CleanPiece, ',');
    CleanPieces(pieces, CleanPiece)
  }

  /** Each origin is trimmed: the final `trim()` leaves no whitespace at either end. */
  lemma OriginsTrimmed(raw: string)
    ensures forall o :: o in ParseCorsOrigins(raw) ==> !IsSpace(o[0]) && !IsSpace(o[|o| - 1])
  {
    var pieces := Split(Unbracket(Trim(raw)), ',');
    ParseStages(raw, Unbracket(Trim(raw)), pieces, CleanPieces(pieces, CleanPiece));
    CleanPiecesTrimmed(pieces, CleanPiece);
  }

  /** A slice holds no more commas than the text it is cut from. */
  lemma SliceCommas(s: string, i: nat, j: nat)
    requires i <= j <= |s|
    ensures Commas(s[i..j]) <= Commas(s)
  {
    assert s == s[..i] + s[i..j] + s[j..];
  }

  lemma InnerCommas(raw: string)
    ensures Commas(Unbracket(Trim(raw))) <= Commas(raw)
  {
    TrimCommas(raw);
    UnbracketCommas(Trim(raw));
  }

  lemma TrimCommas(raw: string)
    ensures Commas(Trim(raw)) <= Commas(raw)
  {
    var t := Trim(raw);
    assert t == raw[Lead(raw)..Lead(raw) + |t|];
    SliceCommas(raw, Lead(raw), Lead(raw) + |t|);
  }

  lemma UnbracketCommas(t: string)
    ensures Commas(Unbracket(t)) <= Commas(t)
  {
    if Bracketed(t) {
      SliceCommas(t, 1, |t| - 1);
    }
  }

  /**
   * A plain origin: non-empty, without surrounding whitespace, and free of the characters the
   * parser treats specially.
   */
  predicate PlainOrigin(o: string) {
    && o != [] && !IsSpace(o[0]) && !IsSpace(o[|o| - 1])
    && ',' !in o && '"' !in o && '[' !in o && ']' !in o
  }

  /** A plain origin comes through cleaning unchanged, with or without its quotes. */
  lemma CleanPlain(o: string)
    requires PlainOrigin(o)
    ensures CleanPiece(o) == o
    ensures CleanPiece("\"" + o + "\"") == o
  {
    TrimOfTrimmed(o);
    var q := "\"" + o + "\"";
    TrimOfTrimmed(q);
    assert q[1..] == o + "\"";
    assert TrimStartChar(q, '"') == o + "\"";
    assert (o + "\"")[..|o|] == o;
    assert TrimEndChar(o + "\"", '"') == o;
  }

  /** The cleaner leaves plain origins unchanged, quoted or not. */
  lemma CleanerKeepsPlain()
    ensures forall o :: PlainOrigin(o) ==> CleanPiece(o) == o && CleanPiece("\"" + o + "\"") == o
  {
    forall o | PlainOrigin(o)
      ensures CleanPiece(o) == o && CleanPiece("\"" + o + "\"") == o
    {
      CleanPlain(o);
    }
  }

  /** Plain origins, quoted or not, come through any cleaner that leaves them unchanged. */
  lemma {:induction false} CleanPlainPieces(origins: seq<string>, clean: string -> string, quoted: bool)
    requires forall o :: PlainOrigin(o) ==> clean(o) == o && clean("\"" + o + "\"") == o
    requires forall k :: 0 <= k < |origins| ==> PlainOrigin(origins[k])
    ensures CleanPieces(if quoted then Quoted(origins) else origins, clean) == origins
    decreases |origins|
  {
    if origins != [] {
      assert forall k :: 0 <= k < |origins| - 1 ==> origins[1..][k] == origins[k + 1];
      CleanPlainPieces(origins[1..], clean, quoted);
      if quoted {
        assert Quoted(origins)[1..] == Quoted(origins[1..]);
      }
      assert origins == [origins[0]] + origins[1..];
    }
  }

  /** Each origin in double quotes, as a JSON array writes it. */
  function Quoted(origins: seq<string>): (r: seq<string>)
    ensures |r| == |origins|
    ensures forall k :: 0 <= k < |origins| ==> r[k] == "\"" + origins[k] + "\""
  {
    if origins == [] then [] else ["\"" + origins[0] + "\""] + Quoted(origins[1..])
  }

  /** A join starts with the first character of its first part. */
  lemma JoinStart(parts: seq<string>, sep: string)
    requires parts != [] && parts[0] != []
    ensures Join(parts, sep) != [] && Join(parts, sep)[0] == parts[0][0]
  {
  }

  /** A join ends with the last character of its last part. */
  lemma {:induction false} JoinEnd(parts: seq<string>, sep: string)
    requires parts != [] && parts[|parts| - 1] != []
    ensures var j := Join(parts, sep);
      j != [] && j[|j| - 1] == parts[|parts| - 1][|parts[|parts| - 1]| - 1]
    decreases |parts|
  {
    if |parts| > 1 {
      assert parts[1..][|parts| - 2] == parts[|parts| - 1];
      JoinEnd(parts[1..], sep);
    }
  }

  /** The parse is the cleaning of the pieces of the unbracketed, trimmed setting. */
  lemma ParseOfInner(raw: string, inner: string)
    requires Unbracket(Trim(raw)) == inner
    ensures ParseCorsOrigins(raw) == CleanPieces(Split(inner, ','), CleanPiece)
  {
  }

  /** The empty list and the empty array both allow no origin. */
  lemma NoPieces()
    ensures CleanPieces(Split("", ','), CleanPiece) == []
  {
    assert Trim("") == [];
    assert CleanPiece("") == [];
  }

  lemma ListInner(origins: seq<string>)
    requires origins != [] && PlainOrigin(origins[0]) && PlainOrigin(origins[|origins| - 1])
    ensures Unbracket(Trim(Join(origins, ","))) == Join(origins, ",")
  {
    var j := Join(origins, ",");
    var first := origins[0];
    var last := origins[|origins| - 1];
    JoinStart(origins, ",");
    JoinEnd(origins, ",");
    assert first[0] in first;
    EdgesTrimmed(j, first[0], last[|last| - 1]);
  }

  /** A text whose first character is neither whitespace nor `[` is its own trim and unbracketed. */
  lemma EdgesTrimmed(j: string, a: char, b: char)
    requires j != [] && j[0] == a && j[|j| - 1] == b
    requires !IsSpace(a) && !IsSpace(b) && a != '['
    ensures Unbracket(Trim(j)) == j
  {
    TrimOfTrimmed(j);
  }

  lemma JsonInner(j: string)
    ensures Unbracket(Trim("[" + j + "]")) == j
  {
    var raw := "[" + j + "]";
    BracketParts(j);
    BracketedUnwrap(raw, j);
  }

  /** The characters of `[j]`: the brackets at either end, `j` between. */
  lemma BracketParts(j: string)
    ensures var raw := "[" + j + "]";
      |raw| == |j| + 2 && raw[0] == '[' && raw[|raw| - 1] == ']' && raw[1..|raw| - 1] == j
  {
  }

  /** Text that starts with `[` and ends with `]` is its own trim, and unbracketing drops the two. */
  lemma BracketedUnwrap(raw: string, j: string)
    requires |raw| >= 2 && raw[0] == '[' && raw[|raw| - 1] == ']' && raw[1..|raw| - 1] == j
    ensures Unbracket(Trim(raw)) == j
  {
    TrimOfTrimmed(raw);
  }

  /** The parse, from what each of its stages yields. */
  lemma ParseStages(raw: string, inner: string, pieces: seq<string>, origins: seq<string>)
    requires Unbracket(Trim(raw)) == inner && Split(inner, ',') == pieces
    requires CleanPieces(pieces, CleanPiece) == origins
    ensures ParseCorsOrigins(raw) == origins
  {
  }

  /** Parts without commas are the pieces of their comma join. */
  lemma PlainSplitJoin(parts: seq<string>)
    requires parts != []
    requires forall k :: 0 <= k < |parts| ==> ',' !in parts[k]
    ensures Split(Join(parts, ","), ',') == parts
  {
    SplitJoin(parts, ',');
  }

  /** An empty setting allows no origin. */
  lemma EmptyParse(raw: string)
    requires raw == []
    ensures ParseCorsOrigins(raw) == []
  {
    assert Trim(raw) == [];
    EmptyInner(raw);
  }

  /** Plain origins come through the cleaning of the pieces unchanged, quoted or not. */
  lemma PlainPiecesClean(origins: seq<string>, quoted: bool)
    requires forall k :: 0 <= k < |origins| ==> PlainOrigin(origins[k])
    ensures CleanPieces(if quoted then Quoted(origins) else origins, CleanPiece) == origins
  {
    CleanerKeepsPlain();
    CleanPlainPieces(origins, CleanPiece, quoted);
  }

  /** Plain origins are the pieces of their comma join. */
  lemma PlainPieces(origins: seq<string>)
    requires origins != []
    requires forall k :: 0 <= k < |origins| ==> PlainOrigin(origins[k])
    ensures Split(Join(origins, ","), ',') == origins
  {
    PlainSplitJoin(origins);
  }

  /** Quoted plain origins are the pieces of their comma join. */
  lemma QuotedPieces(origins: seq<string>)
    requires origins != []
    requires forall k :: 0 <= k < |origins| ==> PlainOrigin(origins[k])
    ensures Split(Join(Quoted(origins), ","), ',') == Quoted(origins)
  {
    forall k | 0 <= k < |origins|
      ensures ',' !in Quoted(origins)[k]
    {
      assert Quoted(origins)[k] == "\"" + origins[k] + "\"";
    }
    PlainSplitJoin(Quoted(origins));
  }

  /** The comma-separated form of plain origins parses back to those origins. */
  lemma ListRoundTrip(origins: seq<string>)
    requires forall k :: 0 <= k < |origins| ==> PlainOrigin(origins[k])
    ensures ParseCorsOrigins(Join(origins, ",")) == origins
  {
    if origins == [] {
      EmptyParse(Join(origins, ","));
    } else {
      var j := Join(origins, ",");
      ListInner(origins);
      PlainPieces(origins);
      PlainPiecesClean(origins, false);
      ParseStages(j, j, origins, origins);
    }
  }

  /** The JSON-array form of plain origins parses back to those origins. */
  lemma JsonRoundTrip(origins: seq<string>)
    requires forall k :: 0 <= k < |origins| ==> PlainOrigin(origins[k])
    ensures ParseCorsOrigins("[" + Join(Quoted(origins), ",") + "]") == origins
  {
    var j := Join(Quoted(origins), ",");
    JsonInner(j);
    if origins == [] {
      EmptyInner("[" + j + "]");
    } else {
      JsonPieces(origins, j);
    }
  }

  lemma JsonPieces(origins: seq<string>, j: string)
    requires origins != [] && j == Join(Quoted(origins), ",")
    requires forall k :: 0 <= k < |origins| ==> PlainOrigin(origins[k])
    requires Unbracket(Trim("[" + j + "]")) == j
    ensures ParseCorsOrigins("[" + j + "]") == origins
  {
    QuotedPieces(origins);
    PlainPiecesClean(origins, true);
    ParseStages("[" + j + "]", j, Quoted(origins), origins);
  }

  /** A setting that is empty once trimmed and unbracketed allows no origin. */
  lemma EmptyInner(raw: string)
    requires Unbracket(Trim(raw)) == []
    ensures ParseCorsOrigins(raw) == []
  {
    NoPieces();
  }

  /** The default setting allows exactly that one origin. */
  lemma DefaultIsSingleOrigin()
    ensures ParseCorsOrigins(DefaultOrigins) == [DefaultOrigins]
  {
    assert PlainOrigin(DefaultOrigins);
    ListRoundTrip([DefaultOrigins]);
  }
}
