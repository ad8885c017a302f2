/**
 * Generic facts about sequences. Stated over an element type parameter so that the solver
 * reasons about positions only, never about the elements (strings) themselves.
 */
module Seqs {
  import opened Wrappers

  /** The index of the first element satisfying `p`, if any. */
  function FirstWhere<T>(xs: seq<T>, p: T -> bool): (r: Option<nat>)
    ensures r.Some? ==> r.value < |xs| && p(xs[r.value])
    ensures forall j :: 0 <= j < |xs| && (r.None? || j < r.value) ==> !p(xs[j])
  {
    if xs == [] then None
    else if p(xs[0]) then Some(0)
    else match FirstWhere(xs[1..], p)
      case None => None
      case Some(k) => Some(k + 1)
  }

  lemma AppendAssoc<T>(a: seq<T>, b: seq<T>, c: seq<T>)
    ensures a + b + c == a + (b + c)
  {
  }

  lemma SplitAt<T>(s: seq<T>, i: nat)
    requires i < |s|
    ensures s == s[..i] + ([s[i]] + s[i + 1..])
    ensures s[..i + 1] == s[..i] + [s[i]]
  {
  }

  lemma HeadTail<T>(s: seq<T>)
    requires s != []
    ensures [s[0]] + s[1..] == s
  {
  }

  lemma ConsTail<T>(a: seq<T>, b: seq<T>)
    requires a != []
    ensures (a + b)[0] == a[0] && (a + b)[1..] == a[1..] + b
  {
  }

  lemma EmptyAppend<T>(a: seq<T>)
    ensures a + [] == a && [] + a == a
  {
  }

  lemma TakeTake<T>(s: seq<T>, i: nat, j: nat)
    requires j <= i <= |s|
    ensures s[..i][..j] == s[..j]
  {
  }

  lemma TakeLast<T>(s: seq<T>, i: nat)
    requires i < |s|
    ensures s[..i + 1][..i] == s[..i] && s[..i + 1][i] == s[i]
    ensures s[..i + 1] == s[..i] + [s[i]]
  {
  }

  lemma DropDrop<T>(s: seq<T>, i: nat)
    requires i < |s|
    ensures s[i..][1..] == s[i + 1..] && s[i..][0] == s[i]
  {
  }

  lemma SliceOfSlice<T>(s: seq<T>, i: nat, j: nat, a: nat, b: nat)
    requires i <= j <= |s| && a <= b <= j - i
    ensures s[i..j][a..b] == s[i + a..i + b]
  {
    forall k | 0 <= k < b - a
      ensures s[i..j][a..b][k] == s[i + a..i + b][k]
    {
      assert s[i..j][a..b][k] == s[i..j][a + k];
    }
  }

  lemma TakeAll<T>(s: seq<T>)
    ensures s[..|s|] == s
  {
  }

  lemma AppendTake<T>(a: seq<T>, b: seq<T>, j: nat)
    requires j < |b|
    ensures a + b[..j + 1] == (a + b[..j]) + [b[j]]
  {
  }

  lemma AppendFront<T>(a: seq<T>, b: seq<T>)
    requires b != []
    ensures (a + b)[..|a + b| - 1] == a + b[..|b| - 1] && (a + b)[|a + b| - 1] == b[|b| - 1]
  {
  }

  lemma AppendPrefix<T>(a: seq<T>, b: seq<T>)
    ensures (a + b)[..|a|] == a
  {
  }

  /** An element found at two positions is counted at least twice. */
  lemma RepeatCounts<T>(s: seq<T>, i: nat, j: nat)
    requires i < j < |s|
    ensures s[i] == s[j] ==> multiset(s)[s[i]] >= 2
  {
    assert s == s[..j] + [s[j]] + s[j + 1..];
    assert s[..j][i] == s[i];
  }

  /** In a sequence without repeated elements, every element is counted at most once. */
  lemma {:induction false} DistinctCount<T>(s: seq<T>, x: T)
    requires forall i, j :: 0 <= i < j < |s| ==> s[i] != s[j]
    ensures multiset(s)[x] <= 1
  {
    if s != [] {
      var n := |s| - 1;
      var front := s[..n];
      assert s == front + [s[n]];
      assert forall i :: 0 <= i < n ==> front[i] == s[i];
      DistinctCount(front, x);
      assert s[n] !in front;
    }
  }
}
