/**
 * Where the Python LangGraph client (backend/repo/langchain_client.py) and the Rust engine
 * (rust-backend/src/engines/engine.rs with rust-backend/src/search/tavily_tool.rs) agree, and
 * where they observably differ.
 */
module EngineAgreement {
  import opened Wrappers
  import LangChainClient
  import TavilyTool
  import RustEngine

  /** For a topic of at most 200 characters both sides search for the same three queries. */
  lemma SameQueriesForShortTopics(topic: string)
    requires |topic| <= LangChainClient.TopicLimit
    ensures LangChainClient.BuildSearchQueries(topic) == TavilyTool.BuildQueries(topic)
  {
    assert LangChainClient.QuerySuffixes == TavilyTool.QuerySuffixes;
  }

  /** A longer topic is cut to 200 characters by Python only. */
  lemma LongTopicsDiffer(topic: string)
    requires |topic| > LangChainClient.TopicLimit
    ensures forall i :: 0 <= i < 3 ==> LangChainClient.BuildSearchQueries(topic)[i] != TavilyTool.BuildQueries(topic)[i]
  {
    assert LangChainClient.QuerySuffixes == TavilyTool.QuerySuffixes;
  }

  /** The TL;DR and dives-and-audit preambles are the same text on both sides. */
  lemma SharedPreambles()
    ensures LangChainClient.TldrPreamble == RustEngine.TldrPreamble
    ensures LangChainClient.DivesAuditPreamble == RustEngine.DivesAuditPreamble
  {
  }

  /** The events preamble differs: the Rust one asks for a longer summary. */
  lemma EventsPreamblesDiffer()
    ensures LangChainClient.EventsPreamble != RustEngine.EventsPreamble
  {
    assert |LangChainClient.EventsPreamble| < |RustEngine.EventsPreamble|;
  }

  /**
   * A hit without a url is dropped by the Python dedup but kept by the Rust merge, whose
   * block also ends in a newline.
   */
  lemma UrlLessHitDiffers(title: string, content: string)
    ensures LangChainClient.DedupOf([LangChainClient.Items([LangChainClient.SearchItem(title, "", content)])]) == ""
    ensures TavilyTool.Merged([Ok([TavilyTool.TavilyItem(title, "", content)])])
         == Ok("Title: " + title + "\nURL: " + "" + "\nContent: " + content + "\n")
  {
    var py := [LangChainClient.Items([LangChainClient.SearchItem(title, "", content)])];
    LangChainClient.DedupEmptyIff(py);
    assert py[..0] == [];
    var item := TavilyTool.TavilyItem(title, "", content);
    var rs: seq<TavilyTool.SearchResult> := [Ok([item])];
    assert rs[..0] == [];
    assert TavilyTool.OkItems(rs) == [item];
    assert [item][..0] == [];
    assert TavilyTool.MergeKept(rs) == [item];
    assert TavilyTool.Blocks([item]) == [TavilyTool.ItemBlock(item)];
  }
}
