/** The free-text pipeline of analyzer.py: the key elements, the two-node
    knowledge graph, the shortened source text, and `analyze_startup`, which
    takes the outcome of the language-model call as an input. */
module Analyzer {
  import opened Common
  import opened Records
  import opened Extract
  import opened Keywords

  /** Longer source texts are cut to this many characters and marked "...". */
  const SOURCE_LIMIT: nat := 500

  /** `text[:500] + "..." if len(text) > 500 else text` (analyzer.py:125,
      startup_analyzer.py:354). */
  function SourceText(text: string): (r: string)
    ensures |text| <= SOURCE_LIMIT ==> r == text
    ensures |r| == if |text| <= SOURCE_LIMIT then |text| else SOURCE_LIMIT + 3
    ensures |text| > SOURCE_LIMIT ==> r[..SOURCE_LIMIT] == text[..SOURCE_LIMIT] && r[SOURCE_LIMIT..] == "..."
  {
    if |text| > SOURCE_LIMIT then text[..SOURCE_LIMIT] + "..." else text
  }

  // ===========================================================================
  // Key elements
  // ===========================================================================

  /** The keys `_extract_key_elements` may fill. */
  const ELEMENT_KEYS: set<string> := {"company_name", "founded", "sector", "one_liner"}

  /** `elements` holds `key` with the value of `found` when it matched, and
      does not hold `key` otherwise. */
  ghost predicate Recorded(elements: map<string, string>, key: string, found: Option<string>) {
    match found
    case Some(v) => key in elements && elements[key] == v
    case None => key !in elements
  }

  /** analyzer.py:21-45: four independent searches, each filling its key only
      when its pattern matched. */
  method ExtractKeyElements(text: string, response: string) returns (elements: map<string, string>)
    ensures elements.Keys <= ELEMENT_KEYS
    ensures Recorded(elements, "company_name", CompanyName(text))
    ensures Recorded(elements, "founded", FoundedDate(response))
    ensures Recorded(elements, "sector", LabelValue(response, SECTOR_LABEL))
    ensures Recorded(elements, "one_liner", LabelValue(response, VALUE_LABEL))
  {
    var name := CompanyName(text);
    var founded := FoundedDate(response);
    var sector := LabelValue(response, SECTOR_LABEL);
    var oneLiner := LabelValue(response, VALUE_LABEL);
    assert "company_name"[0] == 'c' && "founded"[0] == 'f' && "sector"[0] == 's' && "one_liner"[0] == 'o';
    var e1 := Put(map[], "company_name", name);
    assert e1.Keys <= {"company_name"};
    var e2 := Put(e1, "founded", founded);
    assert e2.Keys <= {"company_name", "founded"};
    var e3 := Put(e2, "sector", sector);
    assert e3.Keys <= {"company_name", "founded", "sector"};
    elements := Put(e3, "one_liner", oneLiner);
  }

  /** `if m: d[key] = m.group(...)`: one conditional assignment of a key not
      yet set. */
  function Put(elements: map<string, string>, key: string, found: Option<string>): (r: map<string, string>)
    requires key !in elements
    ensures Recorded(r, key, found)
    ensures r.Keys <= elements.Keys + {key}
    ensures forall k :: k != key && k in elements ==> k in r && r[k] == elements[k]
    ensures forall k :: k != key && k !in elements ==> k !in r
  {
    if found.Some? then elements[key := found.value] else elements
  }

  // ===========================================================================
  // Knowledge graph
  // ===========================================================================

  function CompanyId(name: string): string { "company:" + Lower(name) }

  function PersonId(name: string): string { "person:" + Lower(name) }

  /** A matched company name is never empty, so `if company_name:` only tests
      whether the pattern matched. */
  lemma CompanyNameNonEmpty(text: string)
    ensures CompanyName(text).Some? ==> CompanyName(text).value != ""
  {
    if CompanyName(text).Some? {
      var (i, e) := CompanyNameSpan(text).value;
      assert NameSpan(Window(text), i, e);
    }
  }

  /** analyzer.py:74-107: the company node when a name is found, and then,
      when a 创始人 line is found, the founder node and the FOUNDED_BY edge. */
  method BuildGraph(text: string, response: string) returns (graph: Graph)
    ensures CompanyName(text).None? ==> graph == Graph([], [])
    ensures CompanyName(text).Some? ==>
      var name := CompanyName(text).value;
      && 1 <= |graph.nodes| <= 2
      && graph.nodes[0] == Node(Some(CompanyId(name)), Some(name), Some("Company"))
      && (|graph.nodes| == 2 <==> LabelValue(response, FOUNDER_LABEL).Some?)
      && (|graph.nodes| == 2 ==>
           var founder := LabelValue(response, FOUNDER_LABEL).value;
           && graph.nodes[1] == Node(Some(PersonId(founder)), Some(founder), Some("Person"))
           && graph.edges == [Edge(Some(CompanyId(name)), Some(PersonId(founder)), Some("FOUNDED_BY"))])
      && (|graph.nodes| == 1 ==> graph.edges == [])
    ensures |graph.nodes| <= 2 && |graph.edges| <= 1
    ensures EdgesClosed(graph) && UniqueIds(graph)
  {
    var nodes: seq<Node> := [];
    var edges: seq<Edge> := [];
    var companyName := CompanyName(text);
    CompanyNameNonEmpty(text);
    if companyName.Some? && companyName.value != "" {
      var name := companyName.value;
      nodes := nodes + [Node(Some(CompanyId(name)), Some(name), Some("Company"))];
      var founder := LabelValue(response, FOUNDER_LABEL);
      if founder.Some? {
        var founderName := founder.value;
        nodes := nodes + [Node(Some(PersonId(founderName)), Some(founderName), Some("Person"))];
        edges := edges + [Edge(Some(CompanyId(name)), Some(PersonId(founderName)), Some("FOUNDED_BY"))];
        assert CompanyId(name)[0] == 'c' && PersonId(founderName)[0] == 'p';
      }
    }
    graph := Graph(nodes, edges);
  }

  // ===========================================================================
  // analyze_startup
  // ===========================================================================

  /** The one citation every analysis carries (analyzer.py:130-135). */
  function OwnCitation(capturedAt: string): Citation {
    map["title" := "原始文本分析", "url" := "N/A", "level" := "L1", "captured_at" := capturedAt]
  }

  /** analyzer.py:109-141. `llm` is the outcome of the model call, a response
      or the message of the exception it raised; `extractedAt` and
      `capturedAt` are the two readings of the clock. Nothing after the call
      can raise, so the only failure is the wrapped failure of the call. */
  method AnalyzeStartup(text: string, llm: Result<string, string>, extractedAt: string, capturedAt: string)
    returns (r: Result<StartupAnalysis, string>)
    ensures llm.Failure? ==> r == Failure("分析失败: " + llm.error)
    ensures llm.Success? ==> r.Success?
    ensures llm.Success? ==>
      var a, response := r.value, llm.value;
      && a.extractedAt == extractedAt
      && a.sourceText == SourceText(text)
      && a.rawResponse == response
      && a.keywords == KeywordsOf(Tokens(text, response))
      && a.scoring == map[]
      && a.sources == [OwnCitation(capturedAt)]
      && Recorded(a.keyElements, "company_name", CompanyName(text))
      && Recorded(a.keyElements, "founded", FoundedDate(response))
      && Recorded(a.keyElements, "sector", LabelValue(response, SECTOR_LABEL))
      && Recorded(a.keyElements, "one_liner", LabelValue(response, VALUE_LABEL))
      && a.keyElements.Keys <= ELEMENT_KEYS
      && |a.graph.nodes| <= 2 && |a.graph.edges| <= 1
      && EdgesClosed(a.graph) && UniqueIds(a.graph)
      && (CompanyName(text).None? ==> a.graph == Graph([], []))
  {
    match llm
    case Failure(e) =>
      r := Failure("分析失败: " + e);
    case Success(response) =>
      var keyElements := ExtractKeyElements(text, response);
      var keywords := ExtractKeywords(text, response);
      var graph := BuildGraph(text, response);
      r := Success(StartupAnalysis(
        extractedAt, SourceText(text), response, keyElements, graph, map[],
        [OwnCitation(capturedAt)], keywords));
  }
}
