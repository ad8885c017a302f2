/**
 * First-occurrence deduplication by a string key, the rule shared by the Python search-result
 * dedup (a `seen_urls` set), the Rust Tavily merge (`HashSet::insert`) and the TypeScript
 * `Array.from(new Set(...))`: an element is kept when it passes the filter and its key has
 * not been kept before, and kept elements stay in input order.
 */
module Unique {
  import opened Seqs

  /** The keys of the elements of `xs`. */
  function Keys<T(==)>(xs: seq<T>, key: T -> string): set<string> {
    set y | y in xs :: key(y)
  }

  /** The elements that pass `keep` and whose key was not seen earlier, in input order. */
  function Firsts<T(==)>(xs: seq<T>, key: T -> string, keep: T -> bool): (r: seq<T>)
    ensures |r| <= |xs|
    ensures forall y :: y in r ==> y in xs && keep(y)
    ensures forall i, j :: 0 <= i < j < |r| ==> key(r[i]) != key(r[j])
    ensures forall x :: x in xs && keep(x) ==> key(x) in Keys(r, key)
    decreases |xs|
  {
    if xs == [] then []
    else
      var front := xs[..|xs| - 1];
      var p := Firsts(front, key, keep);
      var x := xs[|xs| - 1];
      assert xs == front + [x];
      if keep(x) && key(x) !in Keys(p, key) then p + [x] else p
  }

  /** One more input element: it is appended exactly when it passes and its key is new. */
  lemma FirstsSnoc<T>(xs: seq<T>, x: T, key: T -> string, keep: T -> bool)
    ensures Firsts(xs + [x], key, keep) ==
      if keep(x) && key(x) !in Keys(Firsts(xs, key, keep), key) then Firsts(xs, key, keep) + [x]
      else Firsts(xs, key, keep)
  {
    assert (xs + [x])[..|xs|] == xs;
  }

  /** The first element with a given key that passes the filter is kept. */
  lemma {:induction false} FirstOccurrenceKept<T>(xs: seq<T>, key: T -> string, keep: T -> bool, i: nat)
    requires i < |xs| && keep(xs[i])
    requires forall j :: 0 <= j < i ==> !(keep(xs[j]) && key(xs[j]) == key(xs[i]))
    ensures xs[i] in Firsts(xs, key, keep)
    decreases |xs|
  {
    var front := xs[..|xs| - 1];
    var p := Firsts(front, key, keep);
    if i == |xs| - 1 {
      forall y | y in p
        ensures key(y) != key(xs[i])
      {
        var j :| 0 <= j < |front| && front[j] == y;
        assert xs[j] == y;
      }
    } else {
      assert front[i] == xs[i];
      forall j | 0 <= j < i
        ensures !(keep(front[j]) && key(front[j]) == key(front[i]))
      {
        assert front[j] == xs[j];
      }
      FirstOccurrenceKept(front, key, keep, i);
    }
  }

  /** Output only grows as input is read: the result for a prefix is a prefix of the result. */
  lemma {:induction false} FirstsPrefix<T>(xs: seq<T>, n: nat, key: T -> string, keep: T -> bool)
    requires n <= |xs|
    ensures var a := Firsts(xs[..n], key, keep);
      var b := Firsts(xs, key, keep);
      |a| <= |b| && b[..|a|] == a
    decreases |xs| - n
  {
    if n == |xs| {
      assert xs[..n] == xs;
    } else {
      var front := xs[..|xs| - 1];
      FirstsPrefix(front, n, key, keep);
      TakeTake(xs, |xs| - 1, n);
      var a := Firsts(xs[..n], key, keep);
      var p := Firsts(front, key, keep);
      var b := Firsts(xs, key, keep);
      assert |p| <= |b| && b[..|p|] == p;
      assert b[..|a|] == p[..|a|];
    }
  }

  /** Element `i` is the first one that passes `keep` with its key. */
  predicate FirstOf<T>(xs: seq<T>, key: T -> string, keep: T -> bool, i: nat) {
    && i < |xs| && keep(xs[i])
    && forall j :: 0 <= j < i ==> !(keep(xs[j]) && key(xs[j]) == key(xs[i]))
  }

  /** Kept elements appear in the order of their first occurrences in the input. */
  lemma FirstsKeepOrder<T>(xs: seq<T>, key: T -> string, keep: T -> bool, a: nat, b: nat)
    requires a < b && FirstOf(xs, key, keep, a) && FirstOf(xs, key, keep, b)
    ensures var r := Firsts(xs, key, keep);
      exists ia, ib :: 0 <= ia < ib < |r| && r[ia] == xs[a] && r[ib] == xs[b]
  {
    var r := Firsts(xs, key, keep);
    var p := Firsts(xs[..b], key, keep);
    FirstKeptBefore(xs, key, keep, a, b);
    var ia :| 0 <= ia < |p| && p[ia] == xs[a];
    FirstAppended(xs, key, keep, b);
    FirstsPrefix(xs, b + 1, key, keep);
    var q := Firsts(xs[..b + 1], key, keep);
    assert r[..|q|] == q;
    assert r[ia] == q[ia] && r[|p|] == q[|p|];
  }

  /** A first occurrence before `b` is kept from the first `b` elements already. */
  lemma FirstKeptBefore<T>(xs: seq<T>, key: T -> string, keep: T -> bool, a: nat, b: nat)
    requires a < b <= |xs| && FirstOf(xs, key, keep, a)
    ensures xs[a] in Firsts(xs[..b], key, keep)
  {
    var front := xs[..b];
    forall j | 0 <= j < a
      ensures !(keep(front[j]) && key(front[j]) == key(front[a]))
    {
      assert front[j] == xs[j];
    }
    FirstOccurrenceKept(front, key, keep, a);
  }

  /** A first occurrence is appended to what the elements before it kept. */
  lemma FirstAppended<T>(xs: seq<T>, key: T -> string, keep: T -> bool, b: nat)
    requires FirstOf(xs, key, keep, b)
    ensures Firsts(xs[..b + 1], key, keep) == Firsts(xs[..b], key, keep) + [xs[b]]
  {
    var front := xs[..b];
    var p := Firsts(front, key, keep);
    forall y | y in p
      ensures key(y) != key(xs[b])
    {
      var j :| 0 <= j < |front| && front[j] == y;
      assert xs[j] == y;
    }
    assert xs[..b + 1] == front + [xs[b]];
    FirstsSnoc(front, xs[b], key, keep);
  }

  lemma KeysSnoc<T>(xs: seq<T>, x: T, key: T -> string)
    ensures Keys(xs + [x], key) == Keys(xs, key) + {key(x)}
  {
  }
}
