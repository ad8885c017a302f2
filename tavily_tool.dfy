/**
 * The Rust web-search fan-out, rust-backend/src/search/tavily_tool.rs: three queries built
 * from the topic, then a merge of the three results that keeps the first hit for each url.
 *
 * The Tavily client is a parameter taking a query to what `client.search` returned. The
 * three searches are concurrent in the source, under `tokio::join!`; each result depends only
 * on its own query, so they are taken one after the other, in query order, which is the order
 * the merge loop reads their results in.
 */
module TavilyTool {
  import opened Wrappers
  import opened Text
  import opened Seqs
  import opened Unique

  const QuerySuffixes: seq<string> :=
    [" latest news today", " breakthroughs announcements", " funding partnerships"]

  /** The query list of `parallel_search`: the whole topic followed by each suffix, uncut. */
  function BuildQueries(baseTopic: string): (r: seq<string>)
    ensures |r| == |QuerySuffixes| == 3
    ensures forall i :: 0 <= i < |r| ==>
      && |r[i]| == |baseTopic| + |QuerySuffixes[i]|
      && r[i][..|baseTopic|] == baseTopic
      && r[i][|baseTopic|..] == QuerySuffixes[i]
    ensures forall i, j :: 0 <= i < j < |r| ==> r[i] != r[j]
  {
    [baseTopic + QuerySuffixes[0], baseTopic + QuerySuffixes[1], baseTopic + QuerySuffixes[2]]
  }

  /** One hit of a Tavily response. */
  datatype TavilyItem = TavilyItem(title: string, url: string, content: string)

  /** What one `client.search` call returned: the response's hits, or the error's text. */
  type SearchResult = Result<seq<TavilyItem>, string>

  /** The three searches, in query order. */
  function SearchAll(baseTopic: string, search: string -> SearchResult): (r: seq<SearchResult>)
    ensures |r| == 3
    ensures forall i :: 0 <= i < 3 ==> r[i] == search(BuildQueries(baseTopic)[i])
  {
    var queries := BuildQueries(baseTopic);
    [search(queries[0]), search(queries[1]), search(queries[2])]
  }

  /** The hits of the successful searches, in order; a failed search contributes nothing. */
  function OkItems(results: seq<SearchResult>): seq<TavilyItem> {
    if results == [] then []
    else
      var last := results[|results| - 1];
      OkItems(results[..|results| - 1]) + (if last.Ok? then last.value else [])
  }

  function UrlOf(item: TavilyItem): string {
    item.url
  }

  /** `HashSet::insert` filters on novelty only; an empty url is a url like any other. */
  predicate AnyItem(item: TavilyItem) {
    true
  }

  /** The text block one kept hit contributes, ending in a newline. */
  function ItemBlock(item: TavilyItem): string {
    "Title: " + item.title + "\nURL: " + item.url + "\nContent: " + item.content + "\n"
  }

  function Blocks(items: seq<TavilyItem>): (r: seq<string>)
    ensures |r| == |items|
    ensures forall i :: 0 <= i < |items| ==> r[i] == ItemBlock(items[i])
  {
    if items == [] then []
    else Blocks(items[..|items| - 1]) + [ItemBlock(items[|items| - 1])]
  }

  const BlockSeparator: string := "\n---\n"

  const AllFailed: string := "All Tavily searches failed"

  /**
   * The hits the merge keeps: urls are pairwise different, every kept hit comes from a
   * successful search, and every url of a successful search's hit is kept.
   */
  function MergeKept(results: seq<SearchResult>): (r: seq<TavilyItem>)
    ensures forall x :: x in r ==> x in OkItems(results)
    ensures forall i, j :: 0 <= i < j < |r| ==> r[i].url != r[j].url
    ensures forall x :: x in OkItems(results) ==> x.url in Keys(r, UrlOf)
  {
    Firsts(OkItems(results), UrlOf, AnyItem)
  }

  /** The merge and the emptiness check of `parallel_search` as a value. */
  function Merged(results: seq<SearchResult>): Result<string, string> {
    var kept := MergeKept(results);
    if kept == [] then Err(AllFailed) else Ok(Join(Blocks(kept), BlockSeparator))
  }

  /** `parallel_search`: the three searches, then the merge of their results. */
  method ParallelSearch(baseTopic: string, search: string -> SearchResult) returns (r: Result<string, string>)
    ensures r == Merged(SearchAll(baseTopic, search))
  {
    var results := SearchAll(baseTopic, search);
    r := MergeResults(results);
  }

  /** The merge loop of `parallel_search` and its emptiness check. */
  method MergeResults(results: seq<SearchResult>) returns (r: Result<string, string>)
    ensures r == Merged(results)
  {
    var combined: seq<string> := [];
    var seenUrls: set<string> := {};
    ghost var kept: seq<TavilyItem> := [];
    for k := 0 to |results|
      invariant kept == Firsts(OkItems(results[..k]), UrlOf, AnyItem)
      invariant seenUrls == Keys(kept, UrlOf)
      invariant combined == Blocks(kept)
    {
      var result := results[k];
      TakeLast(results, k);
      assert OkItems(results[..k + 1])
          == OkItems(results[..k]) + (if result.Ok? then result.value else []);
      if result.Err? {
        EmptyAppend(OkItems(results[..k]));
        continue;
      }
      kept, seenUrls, combined := MergeItems(OkItems(results[..k]), result.value, kept, seenUrls, combined);
    }
    TakeAll(results);
    if |combined| == 0 {
      return Err(AllFailed);
    }
    return Ok(Join(combined, BlockSeparator));
  }

  /** The inner loop of the merge: one successful search's hits, against the urls seen so far. */
  method MergeItems(ghost before: seq<TavilyItem>, items: seq<TavilyItem>, ghost kept0: seq<TavilyItem>,
                    seen0: set<string>, combined0: seq<string>)
    returns (ghost kept: seq<TavilyItem>, seenUrls: set<string>, combined: seq<string>)
    requires kept0 == Firsts(before, UrlOf, AnyItem)
    requires seen0 == Keys(kept0, UrlOf) && combined0 == Blocks(kept0)
    ensures kept == Firsts(before + items, UrlOf, AnyItem)
    ensures seenUrls == Keys(kept, UrlOf) && combined == Blocks(kept)
  {
    kept, seenUrls, combined := kept0, seen0, combined0;
    assert items[..0] == [];
    EmptyAppend(before);
    for j := 0 to |items|
      invariant kept == Firsts(before + items[..j], UrlOf, AnyItem)
      invariant seenUrls == Keys(kept, UrlOf)
      invariant combined == Blocks(kept)
    {
      var item := items[j];
      AppendTake(before, items, j);
      MergeStep(before + items[..j], item, kept, seenUrls);
      if item.url !in seenUrls {
        seenUrls := seenUrls + {item.url};
        combined := combined + [ItemBlock(item)];
        kept := kept + [item];
      }
    }
    TakeAll(items);
  }

  /** One hit of the inner loop: appended, with its url recorded, exactly when the url is new. */
  lemma MergeStep(xs: seq<TavilyItem>, x: TavilyItem, kept: seq<TavilyItem>, seen: set<string>)
    requires kept == Firsts(xs, UrlOf, AnyItem) && seen == Keys(kept, UrlOf)
    ensures x.url !in seen ==>
      && Firsts(xs + [x], UrlOf, AnyItem) == kept + [x]
      && Keys(kept + [x], UrlOf) == seen + {x.url}
      && Blocks(kept + [x]) == Blocks(kept) + [ItemBlock(x)]
    ensures x.url in seen ==> Firsts(xs + [x], UrlOf, AnyItem) == kept
  {
    assert AnyItem(x);
    FirstsSnoc(xs, x, UrlOf, AnyItem);
    KeysSnoc(kept, x, UrlOf);
    assert (kept + [x])[..|kept|] == kept;
  }

  lemma {:induction false} OkItemsAppend(a: seq<SearchResult>, b: seq<SearchResult>)
    ensures OkItems(a + b) == OkItems(a) + OkItems(b)
  {
    if b == [] {
      EmptyAppend(a);
      EmptyAppend(OkItems(a));
    } else {
      AppendFront(a, b);
      OkItemsAppend(a, b[..|b| - 1]);
      var last := b[|b| - 1];
      AppendAssoc(OkItems(a), OkItems(b[..|b| - 1]), if last.Ok? then last.value else []);
    }
  }

  /** A failed search is skipped, whatever comes before or after it. */
  lemma FailedSearchSkipped(a: seq<SearchResult>, e: string, b: seq<SearchResult>)
    ensures Merged(a + [Err(e)] + b) == Merged(a + b)
  {
    var failed: seq<SearchResult> := [Err(e)];
    OkItemsAppend(a + failed, b);
    OkItemsAppend(a, failed);
    OkItemsAppend(a, b);
    assert failed[..0] == [];
    EmptyAppend(OkItems(a));
  }

  /**
   * The merge fails exactly when no search produced a hit: when every search failed, and
   * also when the successful ones all came back empty.
   */
  lemma MergeFailsIff(results: seq<SearchResult>)
    ensures Merged(results).Err? <==> OkItems(results) == []
    ensures Merged(results).Err? ==> Merged(results).error == AllFailed
  {
    var items := OkItems(results);
    if items != [] {
      assert items[0] in items;
      assert Keys(MergeKept(results), UrlOf) != {};
    }
  }

  lemma {:induction false} AllFailedNoItems(results: seq<SearchResult>)
    requires forall k :: 0 <= k < |results| ==> results[k].Err?
    ensures OkItems(results) == []
  {
    if results != [] {
      var n := |results| - 1;
      assert forall k :: 0 <= k < n ==> results[..n][k] == results[k];
      AllFailedNoItems(results[..n]);
    }
  }

  /** When all three searches fail the call fails with the fixed message. */
  lemma AllSearchesFailed(baseTopic: string, search: string -> SearchResult)
    requires forall i :: 0 <= i < 3 ==> search(BuildQueries(baseTopic)[i]).Err?
    ensures Merged(SearchAll(baseTopic, search)) == Err(AllFailed)
  {
    AllFailedNoItems(SearchAll(baseTopic, search));
    MergeFailsIff(SearchAll(baseTopic, search));
  }

  /** The first hit with a given url is the one kept, even when that url is empty. */
  lemma FirstHitWins(results: seq<SearchResult>, i: nat)
    requires i < |OkItems(results)|
    requires forall j :: 0 <= j < i ==> OkItems(results)[j].url != OkItems(results)[i].url
    ensures OkItems(results)[i] in MergeKept(results)
  {
    FirstOccurrenceKept(OkItems(results), UrlOf, AnyItem, i);
  }

  /** Kept hits come in the order in which their urls were first seen. */
  lemma KeptInFirstSeenOrder(results: seq<SearchResult>, a: nat, b: nat)
    requires a < b
    requires FirstOf(OkItems(results), UrlOf, AnyItem, a) && FirstOf(OkItems(results), UrlOf, AnyItem, b)
    ensures var r := MergeKept(results);
      exists ia, ib :: 0 <= ia < ib < |r| && r[ia] == OkItems(results)[a] && r[ib] == OkItems(results)[b]
  {
    var xs := OkItems(results);
    FirstsKeepOrder(xs, UrlOf, AnyItem, a, b);
    var r := Firsts(xs, UrlOf, AnyItem);
    var ia, ib :| 0 <= ia < ib < |r| && r[ia] == xs[a] && r[ib] == xs[b];
    assert MergeKept(results) == r;
  }

  /** Hits kept from the earlier results come first and are unchanged by later results. */
  lemma LaterResultsOnlyAppend(a: seq<SearchResult>, b: seq<SearchResult>)
    ensures |MergeKept(a)| <= |MergeKept(a + b)|
    ensures MergeKept(a + b)[..|MergeKept(a)|] == MergeKept(a)
  {
    OkItemsAppend(a, b);
    AppendPrefix(OkItems(a), OkItems(b));
    FirstsPrefix(OkItems(a + b), |OkItems(a)|, UrlOf, AnyItem);
  }
}
