/** The record the free-text pipeline produces and the report renderers
    consume (models.py StartupAnalysis, report_generator.py StartupAnalysis).
    A node's "label" is the field `caption` here (`label` is a Dafny keyword).
    A graph node or edge is a Python dict read with `.get`: each field is
    optional, and an absent field takes the reader's default. */
module Records {
  import opened Common

  datatype Node = Node(id: Option<string>, caption: Option<string>, ntype: Option<string>)

  datatype Edge = Edge(source: Option<string>, target: Option<string>, rel: Option<string>)

  /** `{"nodes": [...], "edges": [...]}`; a missing list is the empty list. */
  datatype Graph = Graph(nodes: seq<Node>, edges: seq<Edge>)

  /** A (term, weight) pair of the keyword list. */
  type Keyword = (string, real)

  /** A source citation: a dict with the keys title, url, level, captured_at. */
  type Citation = map<string, string>

  datatype StartupAnalysis = StartupAnalysis(
    extractedAt: string,
    sourceText: string,
    rawResponse: string,
    keyElements: map<string, string>,
    graph: Graph,
    scoring: map<string, real>,
    sources: seq<Citation>,
    keywords: seq<Keyword>)

  /** The identifiers a graph's nodes carry (nodes without an id contribute none). */
  function NodeIds(nodes: seq<Node>): (ids: set<string>)
    ensures forall i :: 0 <= i < |nodes| && nodes[i].id.Some? ==> nodes[i].id.value in ids
    ensures forall x :: x in ids ==> exists i :: 0 <= i < |nodes| && nodes[i].id == Some(x)
  {
    set i | 0 <= i < |nodes| && nodes[i].id.Some? :: nodes[i].id.value
  }

  /** Every edge names both endpoints, and both are ids of nodes of the graph. */
  ghost predicate EdgesClosed(g: Graph) {
    forall e :: e in g.edges ==>
      e.source.Some? && e.target.Some? && e.source.value in NodeIds(g.nodes) && e.target.value in NodeIds(g.nodes)
  }

  /** No two nodes carry the same id. */
  ghost predicate UniqueIds(g: Graph) {
    forall i, j :: 0 <= i < j < |g.nodes| && g.nodes[i].id.Some? ==> g.nodes[i].id != g.nodes[j].id
  }
}
