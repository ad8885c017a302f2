/**
 * Token counting and context trimming, backend/repo/context_trimmer.py.
 *
 * The tokenizer (`len(encoding.encode(text))` of tiktoken) is a parameter; only the rule
 * that the empty text has no tokens is modelled. The budget `int(max_tokens * max_fraction)`
 * is taken as an integer.
 */
module ContextTrimmer {
  import opened Text
  import opened Seqs

  /** `DEFAULT_MODEL_WINDOW`. */
  const DefaultModelWindow: int := 128000

  /** `int(DEFAULT_MODEL_WINDOW * 0.75)`, the budget with the default arguments. */
  const DefaultBudget: int := 96000

  /** The token count of a non-empty text, as the tokenizer reports it. */
  type Encoder = string -> nat

  /** `count_tokens`: the empty text has no tokens; any other text is what the tokenizer says. */
  function CountTokens(encode: Encoder, text: string): (n: nat)
    ensures text == [] ==> n == 0
  {
    if text == [] then 0 else encode(text)
  }

  /** The tokens of a list of lines, counted line by line. */
  function SumTokens(encode: Encoder, lines: seq<string>): nat {
    if lines == [] then 0 else CountTokens(encode, lines[0]) + SumTokens(encode, lines[1..])
  }

  lemma {:induction false} SumTokensSnoc(encode: Encoder, lines: seq<string>, line: string)
    ensures SumTokens(encode, lines + [line]) == SumTokens(encode, lines) + CountTokens(encode, line)
  {
    if lines != [] {
      ConsTail(lines, [line]);
      SumTokensSnoc(encode, lines[1..], line);
    }
  }

  /** How many leading lines the greedy loop keeps when `room` tokens remain. */
  function KeptCount(encode: Encoder, lines: seq<string>, room: int): (k: nat)
    ensures k <= |lines|
  {
    if lines == [] then 0
    else if CountTokens(encode, lines[0]) > room then 0
    else 1 + KeptCount(encode, lines[1..], room - CountTokens(encode, lines[0]))
  }

  /** `trim_context` as a value. */
  function TrimmedContext(encode: Encoder, prompt: string, context: string, budget: int): string {
    var available := budget - CountTokens(encode, prompt);
    if available <= 0 then ""
    else if CountTokens(encode, context) <= available then context
    else
      var lines := Split(context, '\n');
      Join(lines[..KeptCount(encode, lines, available)], "\n")
  }

  /** `trim_context`: the budget checks, then the `for` loop that keeps lines until one does not fit. */
  method TrimContext(encode: Encoder, prompt: string, context: string, budget: int) returns (r: string)
    ensures r == TrimmedContext(encode, prompt, context, budget)
  {
    var available := budget - CountTokens(encode, prompt);
    if available <= 0 {
      return "";
    }
    if CountTokens(encode, context) <= available {
      return context;
    }
    var lines := Split(context, '\n');
    var kept := KeepFittingLines(encode, lines, available);
    r := Join(kept, "\n");
  }

  /**
   * The `for` loop of `trim_context`: keep lines while the running total plus the next
   * line's tokens stays within `available`, and stop at the first line that does not fit.
   */
  method KeepFittingLines(encode: Encoder, lines: seq<string>, available: int) returns (kept: seq<string>)
    requires available >= 0
    ensures kept == lines[..KeptCount(encode, lines, available)]
  {
    kept := [];
    var running := 0;
    var i := 0;
    while i < |lines|
      invariant 0 <= i <= |lines|
      invariant kept == lines[..i]
      invariant running == SumTokens(encode, kept) <= available
      invariant KeptCount(encode, lines, available) == i + KeptCount(encode, lines[i..], available - running)
    {
      KeptFrom(encode, lines, i, available - running);
      var lineTokens := CountTokens(encode, lines[i]);
      if running + lineTokens > available {
        break;
      }
      TakeLast(lines, i);
      SumTokensSnoc(encode, kept, lines[i]);
      kept := kept + [lines[i]];
      running := running + lineTokens;
      i := i + 1;
    }
    assert KeptCount(encode, lines, available) == i;
  }

  /** The greedy count from line `i` on: none when line `i` does not fit, else one more than from `i + 1`. */
  lemma KeptFrom(encode: Encoder, lines: seq<string>, i: nat, room: int)
    requires i < |lines|
    ensures KeptCount(encode, lines[i..], room) ==
      if CountTokens(encode, lines[i]) > room then 0
      else 1 + KeptCount(encode, lines[i + 1..], room - CountTokens(encode, lines[i]))
  {
    DropDrop(lines, i);
  }

  /** With no room left after the prompt, the context is dropped entirely. */
  lemma PromptFillsBudget(encode: Encoder, prompt: string, context: string, budget: int)
    requires budget - CountTokens(encode, prompt) <= 0
    ensures TrimmedContext(encode, prompt, context, budget) == ""
  {
  }

  /** A context that fits in the room left by the prompt comes back unchanged. */
  lemma ContextFits(encode: Encoder, prompt: string, context: string, budget: int)
    requires 0 < budget - CountTokens(encode, prompt)
    requires CountTokens(encode, context) <= budget - CountTokens(encode, prompt)
    ensures TrimmedContext(encode, prompt, context, budget) == context
  {
  }

  /** The kept lines' tokens add up to at most the room they were given. */
  lemma {:induction false} KeptWithinRoom(encode: Encoder, lines: seq<string>, room: int)
    requires room >= 0
    ensures SumTokens(encode, lines[..KeptCount(encode, lines, room)]) <= room
  {
    var k := KeptCount(encode, lines, room);
    if k > 0 {
      var c := CountTokens(encode, lines[0]);
      KeptWithinRoom(encode, lines[1..], room - c);
      assert lines[..k][0] == lines[0];
      assert lines[..k][1..] == lines[1..][..k - 1];
    }
  }

  /** Greedy: when a line is dropped, it is the first line that would have overflowed the room. */
  lemma {:induction false} KeptIsGreedy(encode: Encoder, lines: seq<string>, room: int)
    requires KeptCount(encode, lines, room) < |lines|
    ensures var k := KeptCount(encode, lines, room);
      SumTokens(encode, lines[..k]) + CountTokens(encode, lines[k]) > room
  {
    var k := KeptCount(encode, lines, room);
    if k > 0 {
      var c := CountTokens(encode, lines[0]);
      KeptIsGreedy(encode, lines[1..], room - c);
      assert lines[..k][0] == lines[0];
      assert lines[..k][1..] == lines[1..][..k - 1];
    }
  }

  /**
   * When trimming happens, the result is the first `k` lines of the context joined with
   * newlines, their tokens fit the room, and the next line would not have fitted.
   */
  lemma TrimmedIsGreedyPrefix(encode: Encoder, prompt: string, context: string, budget: int)
    requires 0 < budget - CountTokens(encode, prompt) < CountTokens(encode, context)
    ensures var available := budget - CountTokens(encode, prompt);
      var lines := Split(context, '\n');
      var k := KeptCount(encode, lines, available);
      && TrimmedContext(encode, prompt, context, budget) == Join(lines[..k], "\n")
      && SumTokens(encode, lines[..k]) <= available
      && (k < |lines| ==> SumTokens(encode, lines[..k]) + CountTokens(encode, lines[k]) > available)
  {
    var available := budget - CountTokens(encode, prompt);
    var lines := Split(context, '\n');
    KeptWithinRoom(encode, lines, available);
    if KeptCount(encode, lines, available) < |lines| {
      KeptIsGreedy(encode, lines, available);
    }
  }

  /**
   * The room bounds the kept lines' counts taken one by one, not the count of their join:
   * with one token per character, three one-letter lines and a room of 2, two lines are kept,
   * and joined by their newline they hold 3 tokens.
   */
  lemma TrimmedCanExceedRoom()
    ensures var encode: Encoder := s => |s|;
      && TrimmedContext(encode, "", "a\na\na", 2) == "a\na"
      && CountTokens(encode, TrimmedContext(encode, "", "a\na\na", 2)) == 3
  {
    var encode: Encoder := s => |s|;
    var lines := Split("a\na\na", '\n');
    assert Split("a", '\n') == ["a"] by {
      assert "a"[1..] == [];
      assert Split("a"[1..], '\n') == [""];
      assert "a"[0] != '\n';
      assert ["a"[0]] + [""][0] == "a";
      assert [""][1..] == [];
    }
    assert Split("\na", '\n') == ["", "a"] by {
      assert "\na"[1..] == "a";
    }
    assert Split("a\na", '\n') == ["a", "a"] by {
      assert "a\na"[1..] == "\na";
    }
    assert Split("\na\na", '\n') == ["", "a", "a"] by {
      assert "\na\na"[1..] == "a\na";
    }
    assert "a\na\na"[1..] == "\na\na";
    assert lines == ["a", "a", "a"];
    assert KeptCount(encode, lines, 2) == 2 by {
      assert lines[1..] == ["a", "a"];
      assert lines[1..][1..] == ["a"];
      assert KeptCount(encode, ["a"], 0) == 0;
    }
    assert lines[..2] == ["a", "a"];
    assert Join(["a", "a"], "\n") == "a\na" by {
      assert Join(["a"], "\n") == "a";
    }
  }

  /**
   * No line is ever cut: the result is always some leading run of the context's lines,
   * joined with newlines, and when that run is non-empty, splitting the result gives it back.
   */
  lemma TrimKeepsWholeLines(encode: Encoder, prompt: string, context: string, budget: int)
    ensures var lines := Split(context, '\n');
      exists k :: 0 <= k <= |lines| && TrimmedContext(encode, prompt, context, budget) == Join(lines[..k], "\n")
    ensures var lines := Split(context, '\n');
      forall k :: 1 <= k <= |lines| ==> Split(Join(lines[..k], "\n"), '\n') == lines[..k]
  {
    var lines := Split(context, '\n');
    var available := budget - CountTokens(encode, prompt);
    if available <= 0 {
      assert TrimmedContext(encode, prompt, context, budget) == Join(lines[..0], "\n");
    } else if CountTokens(encode, context) <= available {
      JoinSplit(context, '\n');
      TakeAll(lines);
      assert TrimmedContext(encode, prompt, context, budget) == Join(lines[..|lines|], "\n");
    } else {
      var k := KeptCount(encode, lines, available);
      assert TrimmedContext(encode, prompt, context, budget) == Join(lines[..k], "\n");
    }
    forall k | 1 <= k <= |lines|
      ensures Split(Join(lines[..k], "\n"), '\n') == lines[..k]
    {
      SplitJoin(lines[..k], '\n');
    }
  }
}
