/**
 * String primitives the Python, Rust and TypeScript code relies on: `str.strip()` / `trim()`,
 * `split` on one character, `join`, `startswith`, `lower()`.
 * Whitespace is the ASCII set `\s` matches (space, tab, newline, carriage return, vertical tab,
 * form feed); lower-casing maps ASCII letters only.
 */
module Text {

  predicate IsSpace(c: char) {
    c == ' ' || c == '\t' || c == '\n' || c == '\r' || c == '\U{B}' || c == '\U{C}'
  }

  predicate NoSpace(s: string) {
    forall k :: 0 <= k < |s| ==> !IsSpace(s[k])
  }

  /** The end of the maximal run of whitespace starting at `i` (what a greedy `\s*` consumes). */
  function SkipSpace(s: string, i: nat): (j: nat)
    requires i <= |s|
    ensures i <= j <= |s|
    ensures forall k :: i <= k < j ==> IsSpace(s[k])
    ensures j == |s| || !IsSpace(s[j])
    decreases |s| - i
  {
    if i < |s| && IsSpace(s[i]) then SkipSpace(s, i + 1) else i
  }

  /** `s.lstrip()`: drops leading whitespace only. */
  function TrimStart(s: string): (r: string)
    ensures |r| <= |s| && r == s[|s| - |r|..]
    ensures forall k :: 0 <= k < |s| - |r| ==> IsSpace(s[k])
    ensures r == [] || !IsSpace(r[0])
  {
    s[SkipSpace(s, 0)..]
  }

  /** `s.rstrip()`: drops trailing whitespace only. */
  function TrimEnd(s: string): (r: string)
    ensures |r| <= |s| && r == s[..|r|]
    ensures forall k :: |r| <= k < |s| ==> IsSpace(s[k])
    ensures r == [] || !IsSpace(r[|r| - 1])
  {
    if s != [] && IsSpace(s[|s| - 1]) then TrimEnd(s[..|s| - 1]) else s
  }

  /** `s.strip()` in Python, `s.trim()` in Rust and TypeScript. */
  function Trim(s: string): (r: string)
    ensures |r| <= |s|
    ensures r == [] || (!IsSpace(r[0]) && !IsSpace(r[|r| - 1]))
    ensures r == [] <==> forall k :: 0 <= k < |s| ==> IsSpace(s[k])
    ensures Lead(s) + |r| <= |s| && r == s[Lead(s)..Lead(s) + |r|]
    ensures forall k :: 0 <= k < Lead(s) || Lead(s) + |r| <= k < |s| ==> IsSpace(s[k])
  {
    var t := TrimStart(s);
    var r := TrimEnd(t);
    assert r == s[|s| - |t|..|s| - |t| + |r|];
    r
  }

  /** How many leading whitespace characters `strip()` removes. */
  function Lead(s: string): nat {
    |s| - |TrimStart(s)|
  }

  /** A string with no surrounding whitespace is its own trim. */
  lemma TrimOfTrimmed(s: string)
    requires s == [] || (!IsSpace(s[0]) && !IsSpace(s[|s| - 1]))
    ensures Trim(s) == s
  {
  }

  predicate StartsWith(s: string, prefix: string) {
    |prefix| <= |s| && s[..|prefix|] == prefix
  }

  /** `pat` occurs in `s` starting at index `i`. */
  predicate OccursAt(s: string, i: nat, pat: string) {
    i + |pat| <= |s| && s[i..i + |pat|] == pat
  }

  /** `pat` occurs nowhere in `s`. */
  predicate FreeOf(s: string, pat: string) {
    forall i :: 0 <= i <= |s| - |pat| ==> !OccursAt(s, i, pat)
  }

  /** A text free of `pat` has every slice free of `pat`. */
  lemma FreeOfSlice(s: string, i: nat, j: nat, pat: string)
    requires i <= j <= |s| && FreeOf(s, pat)
    ensures FreeOf(s[i..j], pat)
  {
    forall k | 0 <= k <= |s[i..j]| - |pat|
      ensures !OccursAt(s[i..j], k, pat)
    {
      assert !OccursAt(s, i + k, pat);
      var u := s[i..j][k..k + |pat|];
      var v := s[i + k..i + k + |pat|];
      forall t | 0 <= t < |u|
        ensures u[t] == v[t]
      {
      }
      assert u == v;
    }
  }

  /** Stripping a text free of `pat` leaves it free of `pat`. */
  lemma TrimFreeOf(s: string, pat: string)
    requires FreeOf(s, pat)
    ensures FreeOf(Trim(s), pat)
  {
    var r, a := Trim(s), Lead(s);
    assert r == s[a..a + |r|];
    FreeOfSlice(s, a, a + |r|, pat);
  }

  /** A character that is not in `s` is in no slice of it. */
  lemma NotInSlice(s: string, i: nat, j: nat, c: char)
    requires i <= j <= |s| && c !in s
    ensures c !in s[i..j]
  {
    assert forall k :: 0 <= k < j - i ==> s[i..j][k] == s[i + k];
  }

  /** Stripping adds no character. */
  lemma TrimAddsNone(c: char)
    ensures forall s :: c !in s ==> c !in Trim(s)
  {
    forall s | c !in s
      ensures c !in Trim(s)
    {
      NotInSlice(s, Lead(s), Lead(s) + |Trim(s)|, c);
    }
  }

  /** No whitespace at either end. */
  predicate Unpadded(s: string) {
    s == [] || (!IsSpace(s[0]) && !IsSpace(s[|s| - 1]))
  }

  /** Stripping leaves no whitespace at either end of one text. */
  lemma TrimmedEnds(s: string)
    ensures Unpadded(Trim(s))
  {
  }

  /** Stripping leaves no whitespace at either end. */
  lemma TrimTrims()
    ensures forall s :: Unpadded(Trim(s))
  {
  }

  /** Each piece cleaned, the empty results dropped: `.map(clean).filter(|s| !s.is_empty())`. */
  function CleanPieces(pieces: seq<string>, clean: string -> string): (r: seq<string>)
    ensures |r| <= |pieces|
    ensures forall o :: o in r ==> o != []
  {
    if pieces == [] then []
    else if clean(pieces[0]) != [] then [clean(pieces[0])] + CleanPieces(pieces[1..], clean)
    else CleanPieces(pieces[1..], clean)
  }

  /** Pieces without `c` clean to pieces without `c`, whatever the cleaner, if it adds none. */
  lemma {:induction false} CleanPiecesAvoid(pieces: seq<string>, clean: string -> string, c: char)
    requires forall p :: c !in p ==> c !in clean(p)
    requires forall k :: 0 <= k < |pieces| ==> c !in pieces[k]
    ensures forall o :: o in CleanPieces(pieces, clean) ==> c !in o
    decreases |pieces|
  {
    if pieces != [] {
      assert forall k :: 0 <= k < |pieces| - 1 ==> pieces[1..][k] == pieces[k + 1];
      CleanPiecesAvoid(pieces[1..], clean, c);
    }
  }

  /** A cleaner whose results have no surrounding whitespace yields only such pieces. */
  lemma {:induction false} CleanPiecesTrimmed(pieces: seq<string>, clean: string -> string)
    requires forall p :: Unpadded(clean(p))
    ensures forall o :: o in CleanPieces(pieces, clean) ==> Unpadded(o)
    decreases |pieces|
  {
    if pieces != [] {
      CleanPiecesTrimmed(pieces[1..], clean);
    }
  }

  /** `s.split(c)`: the pieces between occurrences of `c`; always at least one piece. */
  function Split(s: string, c: char): (r: seq<string>)
    ensures |r| >= 1
    ensures forall k :: 0 <= k < |r| ==> c !in r[k]
  {
    if s == [] then [""]
    else
      var rest := Split(s[1..], c);
      if s[0] == c then [""] + rest else [[s[0]] + rest[0]] + rest[1..]
  }

  /** `sep.join(parts)`. */
  function Join(parts: seq<string>, sep: string): string {
    if |parts| == 0 then ""
    else if |parts| == 1 then parts[0]
    else parts[0] + sep + Join(parts[1..], sep)
  }

  /** Joining the pieces of a split with the separator gives back the original text. */
  lemma {:induction false} JoinSplit(s: string, c: char)
    ensures Join(Split(s, c), [c]) == s
  {
    if s != [] {
      JoinSplit(s[1..], c);
      var rest := Split(s[1..], c);
      if s[0] == c {
        assert Split(s, c) == [""] + rest;
        if |rest| == 1 {
          assert Join(Split(s, c), [c]) == "" + [c] + rest[0];
        } else {
          assert Join(Split(s, c), [c]) == "" + [c] + Join(rest, [c]);
        }
      } else {
        if |rest| == 1 {
          assert Split(s, c) == [[s[0]] + rest[0]];
        } else {
          assert Split(s, c)[1..] == rest[1..];
          assert Join(rest, [c]) == rest[0] + [c] + Join(rest[1..], [c]);
        }
      }
    }
  }

  /** Splitting `a + [c] + b` where `a` has no `c` gives `a` followed by the pieces of `b`. */
  lemma {:induction false} SplitAfterFirst(a: string, b: string, c: char)
    requires c !in a
    ensures Split(a + [c] + b, c) == [a] + Split(b, c)
  {
    var s := a + [c] + b;
    if a == [] {
      assert s[0] == c && s[1..] == b;
    } else {
      assert s[0] == a[0] && s[1..] == a[1..] + [c] + b;
      SplitAfterFirst(a[1..], b, c);
      assert [a[0]] + a[1..] == a;
    }
  }

  /** Pieces free of `c`, joined with `c`, split back into the same pieces: no piece is cut. */
  lemma {:induction false} SplitJoin(parts: seq<string>, c: char)
    requires |parts| >= 1
    requires forall k :: 0 <= k < |parts| ==> c !in parts[k]
    ensures Split(Join(parts, [c]), c) == parts
  {
    if |parts| == 1 {
      SplitWithout(parts[0], c);
    } else {
      SplitJoin(parts[1..], c);
      SplitAfterFirst(parts[0], Join(parts[1..], [c]), c);
      assert [parts[0]] + parts[1..] == parts;
    }
  }

  /** A text without `c` splits into itself alone. */
  lemma {:induction false} SplitWithout(s: string, c: char)
    requires c !in s
    ensures Split(s, c) == [s]
  {
    if s != [] {
      SplitWithout(s[1..], c);
      assert [s[0]] + s[1..] == s;
    }
  }

  /** The number of pieces is one more than the number of separators. */
  lemma {:induction false} SplitCount(s: string, c: char)
    ensures |Split(s, c)| == multiset(s)[c] + 1
  {
    if s != [] {
      SplitCount(s[1..], c);
      assert s == [s[0]] + s[1..];
    }
  }

  function LowerChar(c: char): char {
    if 'A' <= c <= 'Z' then (c as int + 32) as char else c
  }

  /** `s.lower()` on ASCII letters. */
  function ToLower(s: string): (r: string)
    ensures |r| == |s|
    ensures forall k :: 0 <= k < |s| ==> r[k] == LowerChar(s[k])
  {
    if s == [] then [] else [LowerChar(s[0])] + ToLower(s[1..])
  }

  /** No ASCII upper-case letter occurs in `s`. */
  predicate IsLowerCase(s: string) {
    forall k :: 0 <= k < |s| ==> !('A' <= s[k] <= 'Z')
  }
}
