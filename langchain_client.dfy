/**
 * The pure steps of the LangGraph research pipeline in backend/repo/langchain_client.py:
 * search-query construction, URL deduplication of the search batches, prompt composition,
 * the fan-out to three section generators, the merge of their results, and the error
 * wrapping of `run_research`.
 *
 * The searches and the LLM are parameters. The graph runtime is not modelled: the three
 * branches' single-element result lists reach the `operator.add` reducer in any order, which
 * is stated as a permutation of the branch results.
 */
module LangChainClient {
  import opened Wrappers
  import opened Text
  import opened Seqs
  import opened Unique
  import opened ContextTrimmer

  const TldrName: string := "tldr"
  const EventsName: string := "events"
  const DivesAuditName: string := "dives_audit"

  /** `SECTION_ORDER`: the order in which the section outputs are merged. */
  const SectionOrder: seq<string> := [TldrName, EventsName, DivesAuditName]

  /** The sentence every preamble of backend/config/prompts.py opens with. */
  const AnalystLead: string :=
    "You are a Deep Research Analyst \U{2014} providing comprehensive intelligence analysis. "

  const TldrPreamble: string := AnalystLead
    + "Produce ONLY the ## TL;DR section with 3-5 bullet executive summary. "
    + "Do not produce any other sections."

  const EventsPreamble: string := AnalystLead
    + "Produce ONLY the ## Global Viral Events section. "
    + "For each event use this format:\n"
    + "### <Headline>\n"
    + "- **Category**: <category>\n"
    + "- **Impact Rating**: <1-10>\n"
    + "- **Confidence**: <high|medium|low>\n"
    + "- **Source**: <source URL or name>\n"
    + "- **Summary**: <2-3 sentence description>\n"
    + "Do not produce any other sections."

  const DivesAuditPreamble: string := AnalystLead
    + "Produce ONLY the ## Strategic Deep Dives and ## Completeness Audit sections. "
    + "For deep dives use:\n"
    + "### <Title>\n"
    + "- **Priority**: HIGH|MEDIUM|LOW\n"
    + "- **Summary**: <paragraph>\n"
    + "- **Key Findings**\n"
    + "- <finding>\n"
    + "For completeness audit use:\n"
    + "- **Verified Signals**: <int>\n"
    + "- **Sources Checked**: <int>\n"
    + "- **Confidence Score**: <0.0-1.0>\n"
    + "- **Gaps**: <comma-separated list>\n"
    + "Do not produce any other sections."

  /** `SECTION_PREAMBLES`, as its items in insertion order. */
  const SectionPreambles: seq<(string, string)> :=
    [(TldrName, TldrPreamble), (EventsName, EventsPreamble), (DivesAuditName, DivesAuditPreamble)]

  // ---------------------------------------------------------------------------------------
  // Search queries
  // ---------------------------------------------------------------------------------------

  const TopicLimit: nat := 200

  const QuerySuffixes: seq<string> :=
    [" latest news today", " breakthroughs announcements", " funding partnerships"]

  /** `prompt[:200]`: the prompt cut to its first 200 characters. */
  function Topic(prompt: string): (t: string)
    ensures |t| == if |prompt| <= TopicLimit then |prompt| else TopicLimit
    ensures t == prompt[..|t|]
  {
    if |prompt| <= TopicLimit then prompt else prompt[..TopicLimit]
  }

  /** `_build_search_queries`: three different queries, each the topic followed by a fixed suffix. */
  function BuildSearchQueries(prompt: string): (r: seq<string>)
    ensures |r| == |QuerySuffixes| == 3
    ensures forall i :: 0 <= i < |r| ==>
      && |r[i]| == |Topic(prompt)| + |QuerySuffixes[i]|
      && r[i][..|Topic(prompt)|] == Topic(prompt)
      && r[i][|Topic(prompt)|..] == QuerySuffixes[i]
    ensures forall i, j :: 0 <= i < j < |r| ==> r[i] != r[j]
  {
    var topic := Topic(prompt);
    [topic + QuerySuffixes[0], topic + QuerySuffixes[1], topic + QuerySuffixes[2]]
  }

  // ---------------------------------------------------------------------------------------
  // Deduplication of the search batches
  // ---------------------------------------------------------------------------------------

  /** One search hit; a key missing from the hit reads as "" (`item.get(key, "")`). */
  datatype SearchItem = SearchItem(title: string, url: string, content: string)

  /** What one search produced under `gather(..., return_exceptions=True)`. */
  datatype Batch = Raised(error: string) | Items(items: seq<SearchItem>) | NotAList

  /** The hits of the list batches, in order; raised and non-list batches contribute nothing. */
  function BatchItems(batches: seq<Batch>): seq<SearchItem> {
    if batches == [] then []
    else
      var last := batches[|batches| - 1];
      BatchItems(batches[..|batches| - 1]) + (if last.Items? then last.items else [])
  }

  function UrlOf(item: SearchItem): string {
    item.url
  }

  predicate HasUrl(item: SearchItem) {
    item.url != []
  }

  /** The text block one kept hit contributes. */
  function ItemBlock(item: SearchItem): string {
    "Title: " + item.title + "\nURL: " + item.url + "\nContent: " + item.content
  }

  function Blocks(items: seq<SearchItem>): (r: seq<string>)
    ensures |r| == |items|
    ensures forall i :: 0 <= i < |items| ==> r[i] == ItemBlock(items[i])
  {
    if items == [] then []
    else Blocks(items[..|items| - 1]) + [ItemBlock(items[|items| - 1])]
  }

  /** One more hit adds its block at the end. */
  lemma BlocksSnoc(items: seq<SearchItem>, item: SearchItem)
    ensures Blocks(items + [item]) == Blocks(items) + [ItemBlock(item)]
  {
    assert (items + [item])[..|items|] == items;
  }

  const BlockSeparator: string := "\n---\n"

  /**
   * The hits `_dedup_results` keeps: each has a non-empty url, no url is kept twice, every
   * kept hit is a hit of some list batch, and every url of a list batch's hit is kept.
   */
  function DedupKept(batches: seq<Batch>): (r: seq<SearchItem>)
    ensures forall x :: x in r ==> x in BatchItems(batches) && x.url != []
    ensures forall i, j :: 0 <= i < j < |r| ==> r[i].url != r[j].url
    ensures forall x :: x in BatchItems(batches) && x.url != [] ==> x.url in Keys(r, UrlOf)
  {
    Firsts(BatchItems(batches), UrlOf, HasUrl)
  }

  /** `_dedup_results` as a value. */
  function DedupOf(batches: seq<Batch>): string {
    Join(Blocks(DedupKept(batches)), BlockSeparator)
  }

  /** `_dedup_results`: the nested loops over the batches and their hits, with `seen_urls`. */
  method DedupResults(rawResults: seq<Batch>) returns (r: string)
    ensures r == DedupOf(rawResults)
  {
    var seenUrls: set<string> := {};
    var combined: seq<string> := [];
    ghost var kept: seq<SearchItem> := [];
    for b := 0 to |rawResults|
      invariant kept == Firsts(BatchItems(rawResults[..b]), UrlOf, HasUrl)
      invariant seenUrls == Keys(kept, UrlOf)
      invariant combined == Blocks(kept)
    {
      var batch := rawResults[b];
      TakeLast(rawResults, b);
      assert BatchItems(rawResults[..b + 1])
          == BatchItems(rawResults[..b]) + (if batch.Items? then batch.items else []);
      if batch.Raised? {
        EmptyAppend(BatchItems(rawResults[..b]));
        continue;
      }
      if !batch.Items? {
        EmptyAppend(BatchItems(rawResults[..b]));
        continue;
      }
      var items := batch.items;
      ghost var before := BatchItems(rawResults[..b]);
      assert items[..0] == [];
      EmptyAppend(before);
      for j := 0 to |items|
        invariant kept == Firsts(before + items[..j], UrlOf, HasUrl)
        invariant seenUrls == Keys(kept, UrlOf)
        invariant combined == Blocks(kept)
      {
        var item := items[j];
        var url := item.url;
        AppendTake(before, items, j);
        FirstsSnoc(before + items[..j], item, UrlOf, HasUrl);
        if url != [] && url !in seenUrls {
          KeysSnoc(kept, item, UrlOf);
          BlocksSnoc(kept, item);
          seenUrls := seenUrls + {url};
          combined := combined + [ItemBlock(item)];
          kept := kept + [item];
        }
      }
      TakeAll(items);
    }
    TakeAll(rawResults);
    r := Join(combined, BlockSeparator);
  }

  lemma {:induction false} BatchItemsAppend(a: seq<Batch>, b: seq<Batch>)
    ensures BatchItems(a + b) == BatchItems(a) + BatchItems(b)
  {
    if b == [] {
      EmptyAppend(a);
      EmptyAppend(BatchItems(a));
    } else {
      AppendFront(a, b);
      BatchItemsAppend(a, b[..|b| - 1]);
      var last := b[|b| - 1];
      AppendAssoc(BatchItems(a), BatchItems(b[..|b| - 1]), if last.Items? then last.items else []);
    }
  }

  /** A failed search, or one that returned something other than a list, changes nothing. */
  lemma BadBatchIgnored(a: seq<Batch>, bad: Batch, b: seq<Batch>)
    requires !bad.Items?
    ensures DedupOf(a + [bad] + b) == DedupOf(a + b)
  {
    BatchItemsAppend(a + [bad], b);
    BatchItemsAppend(a, [bad]);
    BatchItemsAppend(a, b);
    assert [bad][..0] == [];
    EmptyAppend(BatchItems(a));
  }

  /** The first hit carrying a given non-empty url is the one kept, with its title and content. */
  lemma FirstHitWins(batches: seq<Batch>, i: nat)
    requires i < |BatchItems(batches)| && BatchItems(batches)[i].url != []
    requires forall j :: 0 <= j < i ==> BatchItems(batches)[j].url != BatchItems(batches)[i].url
    ensures BatchItems(batches)[i] in DedupKept(batches)
  {
    FirstOccurrenceKept(BatchItems(batches), UrlOf, HasUrl, i);
  }

  /** Kept hits come in the order in which their urls were first seen. */
  lemma KeptInFirstSeenOrder(batches: seq<Batch>, a: nat, b: nat)
    requires a < b
    requires FirstOf(BatchItems(batches), UrlOf, HasUrl, a) && FirstOf(BatchItems(batches), UrlOf, HasUrl, b)
    ensures var r := DedupKept(batches);
      exists ia, ib :: 0 <= ia < ib < |r| && r[ia] == BatchItems(batches)[a] && r[ib] == BatchItems(batches)[b]
  {
    var xs := BatchItems(batches);
    FirstsKeepOrder(xs, UrlOf, HasUrl, a, b);
    var r := Firsts(xs, UrlOf, HasUrl);
    var ia, ib :| 0 <= ia < ib < |r| && r[ia] == xs[a] && r[ib] == xs[b];
    assert DedupKept(batches) == r;
  }

  /**
   * Order of first appearance: the hits kept from the leading batches come first, unchanged,
   * whatever later batches add.
   */
  lemma LaterBatchesOnlyAppend(a: seq<Batch>, b: seq<Batch>)
    ensures |DedupKept(a)| <= |DedupKept(a + b)|
    ensures DedupKept(a + b)[..|DedupKept(a)|] == DedupKept(a)
  {
    BatchItemsAppend(a, b);
    AppendPrefix(BatchItems(a), BatchItems(b));
    FirstsPrefix(BatchItems(a + b), |BatchItems(a)|, UrlOf, HasUrl);
  }

  /** The search context is empty exactly when no hit of any list batch has a url. */
  lemma DedupEmptyIff(batches: seq<Batch>)
    ensures DedupOf(batches) == [] <==> forall x :: x in BatchItems(batches) ==> x.url == []
  {
    var kept := DedupKept(batches);
    if kept != [] {
      var blocks := Blocks(kept);
      assert blocks[0] == ItemBlock(kept[0]);
      assert |Join(blocks, BlockSeparator)| >= |blocks[0]|;
      assert kept[0] in kept;
    } else {
      assert Keys(kept, UrlOf) == {};
    }
  }

  // ---------------------------------------------------------------------------------------
  // Graph state, prompt composition and the fan-out
  // ---------------------------------------------------------------------------------------

  /** One generator's output, `SectionResult` of backend/types/graph_state.py. */
  datatype SectionResult = SectionResult(sectionName: string, content: string)

  /** `ResearchGraphState`; `section_results` is the list the `operator.add` reducer grows. */
  datatype ResearchGraphState = ResearchGraphState(
    prompt: string,
    searchContext: string,
    fullPrompt: string,
    sectionResults: seq<SectionResult>,
    combinedMarkdown: string,
    runId: string,
    date: string)

  /** `_build_initial_state`: the prompt and run id, everything else empty. */
  function BuildInitialState(prompt: string, runId: string): (s: ResearchGraphState)
    ensures s.prompt == prompt && s.runId == runId
    ensures s.searchContext == [] && s.fullPrompt == [] && s.sectionResults == []
    ensures s.combinedMarkdown == [] && s.date == []
  {
    ResearchGraphState(prompt, "", "", [], "", runId, "")
  }

  const ContextHeader: string := "\n\nSearch context:\n"

  /**
   * `_compose_context_node`: the prompt, the fixed header, then the search context trimmed to
   * the default budget (128000 * 0.75 tokens) with the prompt's tokens counted against it.
   */
  function ComposeFullPrompt(encode: Encoder, prompt: string, searchContext: string): (r: string)
    ensures |r| >= |prompt| + |ContextHeader|
    ensures r[..|prompt|] == prompt
    ensures r[|prompt|..|prompt| + |ContextHeader|] == ContextHeader
  {
    prompt + ContextHeader + TrimmedContext(encode, prompt, searchContext, DefaultBudget)
  }

  /**
   * After the header comes a leading run of whole lines of the search context; it is the
   * whole context when it fits in the room the prompt leaves, and nothing when the prompt
   * alone fills the budget.
   */
  lemma ComposedContextIsWholeLines(encode: Encoder, prompt: string, searchContext: string)
    ensures var r := ComposeFullPrompt(encode, prompt, searchContext);
      var lines := Split(searchContext, '\n');
      exists k :: 0 <= k <= |lines| && r[|prompt| + |ContextHeader|..] == Join(lines[..k], "\n")
    ensures var room := DefaultBudget - CountTokens(encode, prompt);
      var tail := ComposeFullPrompt(encode, prompt, searchContext)[|prompt| + |ContextHeader|..];
      && (room <= 0 ==> tail == [])
      && (0 < room && CountTokens(encode, searchContext) <= room ==> tail == searchContext)
  {
    var t := TrimmedContext(encode, prompt, searchContext, DefaultBudget);
    var r := ComposeFullPrompt(encode, prompt, searchContext);
    assert r == (prompt + ContextHeader) + t;
    assert r[|prompt| + |ContextHeader|..] == t;
    TrimKeepsWholeLines(encode, prompt, searchContext, DefaultBudget);
  }

  /** The input one section generator receives through `Send`. */
  datatype SectionGenerateState = SectionGenerateState(sectionName: string, preamble: string, fullPrompt: string)

  datatype Send = Send(node: string, arg: SectionGenerateState)

  const GenerateNode: string := "generate_section"

  /**
   * `_route_to_sections`: three sends to the generator node, named in section order, all with
   * the state's full prompt, each with a preamble of its own.
   */
  function RouteToSections(state: ResearchGraphState): (r: seq<Send>)
    ensures |r| == 3
    ensures forall i :: 0 <= i < |r| ==> r[i].node == GenerateNode && r[i].arg.sectionName == SectionOrder[i]
    ensures forall i :: 0 <= i < |r| ==> r[i].arg.fullPrompt == state.fullPrompt
    ensures forall i, j :: 0 <= i < j < |r| ==> r[i].arg.preamble != r[j].arg.preamble
  {
    seq(|SectionPreambles|, i requires 0 <= i < |SectionPreambles| =>
      Send(GenerateNode, SectionGenerateState(SectionPreambles[i].0, SectionPreambles[i].1, state.fullPrompt)))
  }

  /** A chat message. */
  datatype Message = Message(role: string, content: string)

  /** `_build_section_messages`: the preamble as the system turn, the full prompt as the user turn. */
  function SectionMessages(state: SectionGenerateState): (r: seq<Message>)
    ensures |r| == 2
    ensures r[0] == Message("system", state.preamble)
    ensures r[1] == Message("user", state.fullPrompt)
  {
    [Message("system", state.preamble), Message("user", state.fullPrompt)]
  }

  /** The three section calls share their user turn and differ in their system turn. */
  lemma RoutedCallsDifferOnlyInPreamble(state: ResearchGraphState)
    ensures var sends := RouteToSections(state);
      forall i, j :: 0 <= i < j < |sends| ==>
        && SectionMessages(sends[i].arg)[1] == SectionMessages(sends[j].arg)[1] == Message("user", state.fullPrompt)
        && SectionMessages(sends[i].arg)[0] != SectionMessages(sends[j].arg)[0]
  {
    var sends := RouteToSections(state);
    forall i, j | 0 <= i < j < |sends|
      ensures SectionMessages(sends[i].arg)[1] == SectionMessages(sends[j].arg)[1] == Message("user", state.fullPrompt)
      ensures SectionMessages(sends[i].arg)[0] != SectionMessages(sends[j].arg)[0]
    {
      var a, b := sends[i].arg, sends[j].arg;
      assert a.fullPrompt == b.fullPrompt == state.fullPrompt;
      assert a.preamble != b.preamble;
      assert SectionMessages(a)[0] == Message("system", a.preamble);
      assert SectionMessages(b)[0] == Message("system", b.preamble);
    }
  }

  /** `_generate_section_node` with the model call as a parameter: a one-element result list. */
  function GenerateSection(llm: seq<Message> -> string, state: SectionGenerateState): (r: seq<SectionResult>)
    ensures |r| == 1 && r[0].sectionName == state.sectionName
  {
    [SectionResult(state.sectionName, llm(SectionMessages(state)))]
  }

  /** The branch results concatenated in send order. */
  function Branches(llm: seq<Message> -> string, sends: seq<Send>): (r: seq<SectionResult>)
    ensures |r| == |sends|
    ensures forall i :: 0 <= i < |sends| ==> r[i] == GenerateSection(llm, sends[i].arg)[0]
  {
    if sends == [] then []
    else Branches(llm, sends[..|sends| - 1]) + GenerateSection(llm, sends[|sends| - 1].arg)
  }

  // ---------------------------------------------------------------------------------------
  // Merging the section results
  // ---------------------------------------------------------------------------------------

  /** The `by_name` dict comprehension: later results overwrite earlier ones of the same name. */
  function ByName(results: seq<SectionResult>, name: string): Option<string> {
    if results == [] then None
    else
      var last := results[|results| - 1];
      if last.sectionName == name then Some(last.content)
      else ByName(results[..|results| - 1], name)
  }

  /** `by_name.get(name, "")`. */
  function ContentOf(results: seq<SectionResult>, name: string): string {
    ByName(results, name).GetOr("")
  }

  const SectionSeparator: string := "\n\n"

  /**
   * `_combine_results_node`: the three contents in section order, joined by blank lines; a
   * missing section contributes "" and keeps its separators.
   */
  function CombineResults(results: seq<SectionResult>): (r: string)
    ensures r == ContentOf(results, TldrName) + SectionSeparator + ContentOf(results, EventsName)
      + SectionSeparator + ContentOf(results, DivesAuditName)
  {
    var parts := [ContentOf(results, SectionOrder[0]), ContentOf(results, SectionOrder[1]),
                  ContentOf(results, SectionOrder[2])];
    JoinThree(parts[0], parts[1], parts[2], SectionSeparator);
    Join(parts, SectionSeparator)
  }

  lemma JoinThree(a: string, b: string, c: string, sep: string)
    ensures Join([a, b, c], sep) == a + sep + b + sep + c
  {
    assert [a, b, c][1..] == [b, c];
    assert [b, c][1..] == [c];
    assert Join([c], sep) == c;
    assert Join([b, c], sep) == b + sep + c;
    assert Join([a, b, c], sep) == a + sep + (b + sep + c);
    AppendAssoc(a + sep, b + sep, c);
    AppendAssoc(a + sep, b, sep);
  }

  /** The state before any section has reported merges to nothing but the two separators. */
  lemma InitialStateCombinesToSeparators(prompt: string, runId: string)
    ensures CombineResults(BuildInitialState(prompt, runId).sectionResults) == "\n\n\n\n"
  {
  }

  /** On duplicate names the last result wins. */
  lemma {:induction false} LastResultWins(results: seq<SectionResult>, i: nat)
    requires i < |results|
    requires forall j :: i < j < |results| ==> results[j].sectionName != results[i].sectionName
    ensures ByName(results, results[i].sectionName) == Some(results[i].content)
  {
    var n := |results| - 1;
    if i < n {
      var front := results[..n];
      assert front[i] == results[i];
      assert forall j :: i < j < n ==> front[j] == results[j];
      LastResultWins(front, i);
    }
  }

  predicate DistinctNames(results: seq<SectionResult>) {
    forall i, j :: 0 <= i < j < |results| ==> results[i].sectionName != results[j].sectionName
  }

  /** Without duplicate names, the lookup finds exactly the results present. */
  lemma {:induction false} ByNameOfDistinct(results: seq<SectionResult>, name: string)
    requires DistinctNames(results)
    ensures forall c :: ByName(results, name) == Some(c) <==> SectionResult(name, c) in results
  {
    if results != [] {
      var n := |results| - 1;
      var front := results[..n];
      assert forall i :: 0 <= i < n ==> front[i] == results[i];
      ByNameOfDistinct(front, name);
      TakeLast(results, n);
      TakeAll(results);
      assert results == front + [results[n]];
      forall c
        ensures ByName(results, name) == Some(c) <==> SectionResult(name, c) in results
      {
        if results[n].sectionName == name {
          assert forall i :: 0 <= i < n ==> front[i].sectionName != name;
        }
      }
    }
  }

  /** Without duplicate names, the merge depends only on which results are present. */
  lemma SameResultsSameCombine(a: seq<SectionResult>, b: seq<SectionResult>)
    requires DistinctNames(a) && DistinctNames(b)
    requires forall x :: x in a <==> x in b
    ensures CombineResults(a) == CombineResults(b)
  {
    forall name | name in SectionOrder
      ensures ByName(a, name) == ByName(b, name)
    {
      ByNameOfDistinct(a, name);
      ByNameOfDistinct(b, name);
      if ByName(a, name).Some? {
        assert SectionResult(name, ByName(a, name).value) in b;
      }
      if ByName(b, name).Some? {
        assert SectionResult(name, ByName(b, name).value) in a;
      }
    }
  }

  /** Reordering results with distinct names keeps their names distinct. */
  lemma PermutationKeepsDistinct(a: seq<SectionResult>, b: seq<SectionResult>)
    requires DistinctNames(a) && multiset(a) == multiset(b)
    ensures DistinctNames(b)
  {
    forall i, j | 0 <= i < j < |b|
      ensures b[i].sectionName != b[j].sectionName
    {
      RepeatCounts(b, i, j);
      assert b[i] in multiset(b) && b[j] in multiset(b);
      var p :| 0 <= p < |a| && a[p] == b[i];
      var q :| 0 <= q < |a| && a[q] == b[j];
      DistinctCount(a, a[p]);
    }
  }

  /**
   * `_combine_results_node` is invariant under any permutation of results with distinct
   * names, so the order in which the reducer received the branches does not matter.
   */
  lemma CombineIgnoresOrder(a: seq<SectionResult>, b: seq<SectionResult>)
    requires DistinctNames(a) && multiset(a) == multiset(b)
    ensures CombineResults(a) == CombineResults(b)
  {
    PermutationKeepsDistinct(a, b);
    forall x
      ensures x in a <==> x in b
    {
      assert x in a <==> x in multiset(a);
    }
    SameResultsSameCombine(a, b);
  }

  /** The three branches, arriving in any order, merge to the canonical TL;DR, events, dives text. */
  lemma FanOutInAnyOrder(tldr: string, events: string, dives: string, arrived: seq<SectionResult>)
    requires multiset(arrived) == multiset([SectionResult(TldrName, tldr), SectionResult(EventsName, events),
                                            SectionResult(DivesAuditName, dives)])
    ensures CombineResults(arrived) == tldr + "\n\n" + events + "\n\n" + dives
  {
    var canonical := [SectionResult(TldrName, tldr), SectionResult(EventsName, events),
                      SectionResult(DivesAuditName, dives)];
    CombineIgnoresOrder(canonical, arrived);
    var front := canonical[..2];
    assert front == [canonical[0], canonical[1]];
    assert front[..1] == [canonical[0]];
    assert ByName(front[..1], TldrName) == Some(tldr);
    assert ByName(front, TldrName) == Some(tldr);
    assert ByName(canonical, TldrName) == Some(tldr);
    assert ByName(canonical, EventsName) == Some(events);
  }

  // ---------------------------------------------------------------------------------------
  // The whole run and its error wrapping
  // ---------------------------------------------------------------------------------------

  /**
   * `_search_node`: one search per query of `_build_search_queries`, in query order. `search`
   * stands for `TavilySearch.ainvoke` under `gather(..., return_exceptions=True)`, which keeps
   * the results in the order the queries were given.
   */
  function SearchNode(prompt: string, search: string -> Batch): (batches: seq<Batch>)
    ensures |batches| == |BuildSearchQueries(prompt)|
    ensures forall i :: 0 <= i < |batches| ==> batches[i] == search(BuildSearchQueries(prompt)[i])
  {
    var queries := BuildSearchQueries(prompt);
    [search(queries[0]), search(queries[1]), search(queries[2])]
  }

  /** The state after the search and compose nodes have run. */
  function ComposedState(encode: Encoder, prompt: string, runId: string, batches: seq<Batch>): (s: ResearchGraphState)
    ensures s.prompt == prompt && s.searchContext == DedupOf(batches)
    ensures s.fullPrompt == ComposeFullPrompt(encode, prompt, DedupOf(batches))
    ensures s.sectionResults == []
  {
    var s0 := BuildInitialState(prompt, runId);
    var s1 := s0.(searchContext := DedupOf(batches));
    s1.(fullPrompt := ComposeFullPrompt(encode, s1.prompt, s1.searchContext))
  }

  /** Whether `arrived` is the three branches' results in some order. */
  predicate ArrivedFromBranches(encode: Encoder, prompt: string, runId: string, batches: seq<Batch>,
                                llm: seq<Message> -> string, arrived: seq<SectionResult>)
  {
    multiset(arrived) == multiset(Branches(llm, RouteToSections(ComposedState(encode, prompt, runId, batches))))
  }

  /** `_execute_research`: search, compose, fan out, reduce the branch results, combine. */
  function ExecuteResearch(encode: Encoder, prompt: string, runId: string, batches: seq<Batch>,
                           llm: seq<Message> -> string, arrived: seq<SectionResult>): string
  {
    var s2 := ComposedState(encode, prompt, runId, batches);
    var s3 := s2.(sectionResults := s2.sectionResults + arrived);
    var s4 := s3.(combinedMarkdown := CombineResults(s3.sectionResults));
    s4.combinedMarkdown
  }

  /**
   * Whatever the order the branches arrived in, the report is the model's TL;DR, events and
   * dives-and-audit answers, in that order, each asked with its own preamble and the same
   * composed prompt.
   */
  lemma ExecuteResearchOutput(encode: Encoder, prompt: string, runId: string, batches: seq<Batch>,
                              llm: seq<Message> -> string, arrived: seq<SectionResult>)
    requires ArrivedFromBranches(encode, prompt, runId, batches, llm, arrived)
    ensures var fp := ComposeFullPrompt(encode, prompt, DedupOf(batches));
      ExecuteResearch(encode, prompt, runId, batches, llm, arrived)
      == llm([Message("system", TldrPreamble), Message("user", fp)]) + "\n\n"
       + llm([Message("system", EventsPreamble), Message("user", fp)]) + "\n\n"
       + llm([Message("system", DivesAuditPreamble), Message("user", fp)])
  {
    var s2 := ComposedState(encode, prompt, runId, batches);
    var sends := RouteToSections(s2);
    var branches := Branches(llm, sends);
    assert branches == [branches[0], branches[1], branches[2]];
    EmptyAppend(arrived);
    FanOutInAnyOrder(branches[0].content, branches[1].content, branches[2].content, arrived);
  }

  /**
   * The run fed by its own search node: the composed prompt carries the deduplicated results of
   * searching the topic followed by each of the three suffixes, in that order.
   */
  lemma SearchedResearchOutput(encode: Encoder, prompt: string, runId: string, search: string -> Batch,
                               llm: seq<Message> -> string, arrived: seq<SectionResult>)
    requires ArrivedFromBranches(encode, prompt, runId, SearchNode(prompt, search), llm, arrived)
    ensures var t := Topic(prompt);
      var batches := [search(t + QuerySuffixes[0]), search(t + QuerySuffixes[1]), search(t + QuerySuffixes[2])];
      var fp := ComposeFullPrompt(encode, prompt, DedupOf(batches));
      ExecuteResearch(encode, prompt, runId, SearchNode(prompt, search), llm, arrived)
      == llm([Message("system", TldrPreamble), Message("user", fp)]) + "\n\n"
       + llm([Message("system", EventsPreamble), Message("user", fp)]) + "\n\n"
       + llm([Message("system", DivesAuditPreamble), Message("user", fp)])
  {
    var t := Topic(prompt);
    assert SearchNode(prompt, search)
      == [search(t + QuerySuffixes[0]), search(t + QuerySuffixes[1]), search(t + QuerySuffixes[2])];
    ExecuteResearchOutput(encode, prompt, runId, SearchNode(prompt, search), llm, arrived);
  }

  /** How `_execute_research` ended. */
  datatype ResearchOutcome = Returned(markdown: string) | RaisedLangChain(message: string) | RaisedOther(message: string)

  const FailurePrefix: string := "LangChain research failed: "

  /**
   * `run_research`: the markdown on success; a `LangChainError` passes through unchanged;
   * any other exception becomes a `LangChainError` whose message is the prefix and the
   * exception's text. The error side carries the `LangChainError` message.
   */
  function RunResearch(outcome: ResearchOutcome): (r: Result<string, string>)
    ensures r.Ok? <==> outcome.Returned?
    ensures outcome.Returned? ==> r.value == outcome.markdown
    ensures outcome.RaisedLangChain? ==> r.error == outcome.message
    ensures outcome.RaisedOther? ==>
      && |r.error| == |FailurePrefix| + |outcome.message|
      && r.error[..|FailurePrefix|] == FailurePrefix
      && r.error[|FailurePrefix|..] == outcome.message
  {
    match outcome
    case Returned(md) => Ok(md)
    case RaisedLangChain(msg) => Err(msg)
    case RaisedOther(msg) => Err(FailurePrefix + msg)
  }

  /** Raising the result again, as a caller of `run_research` sees it. */
  function AsOutcome(r: Result<string, string>): ResearchOutcome {
    match r
    case Ok(md) => Returned(md)
    case Err(msg) => RaisedLangChain(msg)
  }

  /** Wrapping happens once: a second `run_research` boundary leaves the result as it was. */
  lemma WrapsOnce(outcome: ResearchOutcome)
    ensures RunResearch(AsOutcome(RunResearch(outcome))) == RunResearch(outcome)
  {
  }
}
