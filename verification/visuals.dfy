/** The visualisation adapters of report_generator.py: the radar selection,
    the graph adapter with its Mermaid fallback, and the keyword cloud's
    selection, normalisation and layout. What a figure shows is kept as a
    value; drawing and PNG encoding are not modelled, and each optional
    plotting library is a boolean capability. */
module Visuals {
  import opened Common
  import opened Records
  import opened Ranking

  /** One word of the keyword cloud: where it is drawn and in which font size. */
  datatype Placement = Placement(x: int, y: int, word: string, size: int)

  /** What a rendered figure shows. */
  datatype Figure =
    | RadarFigure(axes: seq<string>, series: seq<real>)
    | GraphFigure(graph: Graph)
    | CloudFigure(bars: seq<Keyword>, words: seq<Placement>)

  // ===========================================================================
  // Radar (report_generator.py:67-101)
  // ===========================================================================

  /** The five scoring keys the radar shows, with their axis labels, in order. */
  const RADAR_DIMS: seq<(string, string)> :=
    [("people", "团队"), ("market", "市场"), ("traction", "牵引力"), ("moat", "护城河"), ("financing", "融资")]

  /** The axis labels of the dimensions of `dims` that `scoring` holds, in `dims` order. */
  function AxisLabels(scoring: map<string, real>, dims: seq<(string, string)>): (r: seq<string>)
    ensures |r| <= |dims|
  {
    if dims == [] then []
    else
      var d := dims[|dims| - 1];
      AxisLabels(scoring, dims[..|dims| - 1]) + (if d.0 in scoring then [d.1] else [])
  }

  /** The scores of those dimensions, in the same order. */
  function AxisScores(scoring: map<string, real>, dims: seq<(string, string)>): (r: seq<real>)
    ensures |r| == |AxisLabels(scoring, dims)|
  {
    if dims == [] then []
    else
      var d := dims[|dims| - 1];
      AxisScores(scoring, dims[..|dims| - 1]) + (if d.0 in scoring then [scoring[d.0]] else [])
  }

  /** The radar figure: `None` without scores, without the plotting library,
      or when none of the five dimensions is scored; otherwise the present
      dimensions in fixed order with the series closed by repeating its
      first value. */
  method RenderRadar(scoring: map<string, real>, hasPlot: bool) returns (figure: Option<Figure>)
    ensures figure.None? <==> |scoring| == 0 || !hasPlot || AxisLabels(scoring, RADAR_DIMS) == []
    ensures figure.Some? ==>
      var labels, scores := AxisLabels(scoring, RADAR_DIMS), AxisScores(scoring, RADAR_DIMS);
      && figure.value == RadarFigure(labels, scores + [scores[0]])
      && |figure.value.series| == |labels| + 1
      && figure.value.series[|labels|] == figure.value.series[0]
  {
    if |scoring| == 0 || !hasPlot {
      return None;
    }
    var values: seq<real> := [];
    var labels: seq<string> := [];
    for i := 0 to |RADAR_DIMS|
      invariant labels == AxisLabels(scoring, RADAR_DIMS[..i])
      invariant values == AxisScores(scoring, RADAR_DIMS[..i])
    {
      var (k, axis) := RADAR_DIMS[i];
      assert RADAR_DIMS[..i + 1][..i] == RADAR_DIMS[..i];
      if k in scoring {
        labels := labels + [axis];
        values := values + [scoring[k]];
      }
    }
    assert RADAR_DIMS[..|RADAR_DIMS|] == RADAR_DIMS;
    if |values| == 0 {
      return None;
    }
    figure := Some(RadarFigure(labels, values + [values[0]]));
  }

  /** No dimension is shown exactly when none of them is scored. */
  lemma {:induction false} AxisLabelsEmpty(scoring: map<string, real>, dims: seq<(string, string)>)
    ensures AxisLabels(scoring, dims) == [] <==> forall i :: 0 <= i < |dims| ==> dims[i].0 !in scoring
    decreases |dims|
  {
    if dims != [] {
      var init := dims[..|dims| - 1];
      AxisLabelsEmpty(scoring, init);
      forall i | 0 <= i < |init| ensures init[i] == dims[i] { }
    }
  }

  /** Only the five dimensions matter: scores that agree on them give the
      same axes, whatever other keys (total, confidence, ...) they carry. */
  lemma {:induction false} AxesIgnoreOtherKeys(s1: map<string, real>, s2: map<string, real>, dims: seq<(string, string)>)
    requires forall i :: 0 <= i < |dims| ==> (dims[i].0 in s1 <==> dims[i].0 in s2)
    requires forall i :: 0 <= i < |dims| && dims[i].0 in s1 ==> s1[dims[i].0] == s2[dims[i].0]
    ensures AxisLabels(s1, dims) == AxisLabels(s2, dims)
    ensures AxisScores(s1, dims) == AxisScores(s2, dims)
    decreases |dims|
  {
    if dims != [] {
      var init := dims[..|dims| - 1];
      forall i | 0 <= i < |init| ensures init[i] == dims[i] { }
      AxesIgnoreOtherKeys(s1, s2, init);
      assert dims[|dims| - 1] == dims[|dims| - 1];
    }
  }

  /** With all five scored, the axes are the five labels in fixed order. */
  lemma AllFiveAxes(scoring: map<string, real>)
    requires forall i :: 0 <= i < |RADAR_DIMS| ==> RADAR_DIMS[i].0 in scoring
    ensures AxisLabels(scoring, RADAR_DIMS) == ["团队", "市场", "牵引力", "护城河", "融资"]
  {
    var d := RADAR_DIMS;
    assert d[0].0 in scoring && d[1].0 in scoring && d[2].0 in scoring && d[3].0 in scoring && d[4].0 in scoring;
    assert d[..1][..0] == [] && d[..1][0] == d[0];
    assert AxisLabels(scoring, d[..1]) == ["团队"];
    assert d[..2][..1] == d[..1] && d[..2][1] == d[1];
    assert AxisLabels(scoring, d[..2]) == ["团队", "市场"];
    assert d[..3][..2] == d[..2] && d[..3][2] == d[2];
    assert AxisLabels(scoring, d[..3]) == ["团队", "市场", "牵引力"];
    assert d[..4][..3] == d[..3] && d[..4][3] == d[3];
    assert AxisLabels(scoring, d[..4]) == ["团队", "市场", "牵引力", "护城河"];
    assert d[..4] == d[..|d| - 1];
  }

  // ===========================================================================
  // Mermaid text (report_generator.py:151-170)
  // ===========================================================================

  /** `nid.replace(":", "_").replace("-", "_")`. */
  function Sanitize(nid: string): (r: string)
    ensures |r| == |nid|
    ensures forall k :: 0 <= k < |r| ==> r[k] != ':' && r[k] != '-'
    ensures forall k :: 0 <= k < |r| && nid[k] != ':' && nid[k] != '-' ==> r[k] == nid[k]
    ensures forall k :: 0 <= k < |r| && (nid[k] == ':' || nid[k] == '-') ==> r[k] == '_'
  {
    seq(|nid|, k requires 0 <= k < |nid| => if nid[k] == ':' || nid[k] == '-' then '_' else nid[k])
  }

  /** The id the Mermaid text uses for the node at position `i`: its own id,
      or `n{i}` when it has none. */
  function NodeKey(n: Node, i: nat): string {
    n.id.GetOr("n" + NatToString(i))
  }

  function NodeLine(n: Node, i: nat): string {
    var nid := NodeKey(n, i);
    "    " + Sanitize(nid) + "[\"" + n.caption.GetOr(nid) + " (" + n.ntype.GetOr("Node") + ")\"]"
  }

  /** One declaration per node, in input order. */
  function NodeLines(nodes: seq<Node>): (r: seq<string>)
    ensures |r| == |nodes|
  {
    if nodes == [] then [] else NodeLines(nodes[..|nodes| - 1]) + [NodeLine(nodes[|nodes| - 1], |nodes| - 1)]
  }

  /** The `node_ids` table: every declared key to its sanitised form. */
  function IdTable(nodes: seq<Node>): map<string, string> {
    if nodes == [] then map[]
    else
      var nid := NodeKey(nodes[|nodes| - 1], |nodes| - 1);
      IdTable(nodes[..|nodes| - 1])[nid := Sanitize(nid)]
  }

  /** Some node of `nodes` is declared under `key`. */
  ghost predicate Declared(nodes: seq<Node>, key: string) {
    exists i :: 0 <= i < |nodes| && NodeKey(nodes[i], i) == key
  }

  /** The line of an edge, or `None` when it is dropped: both endpoints must
      be declared with a non-empty sanitised id; an empty relation gives a
      plain arrow. */
  function EdgeLine(e: Edge, table: map<string, string>): Option<string> {
    var s := Lookup(table, e.source.GetOr(""));
    var t := Lookup(table, e.target.GetOr(""));
    if Truthy(s) && Truthy(t) then
      if Truthy(e.rel) then Some("    " + s.value + " -->|" + e.rel.value + "| " + t.value)
      else Some("    " + s.value + " --> " + t.value)
    else None
  }

  /** The lines of the edges that are kept, in input order. */
  function EdgeLines(edges: seq<Edge>, table: map<string, string>): (r: seq<string>)
    ensures |r| <= |edges|
  {
    if edges == [] then []
    else
      var line := EdgeLine(edges[|edges| - 1], table);
      EdgeLines(edges[..|edges| - 1], table) + (if line.Some? then [line.value] else [])
  }

  function MermaidLines(g: Graph): seq<string> {
    ["graph TD"] + NodeLines(g.nodes) + EdgeLines(g.edges, IdTable(g.nodes))
  }

  /** `_graph_to_mermaid`: fills the id table and the node lines in one
      loop, then the edge lines in a second. */
  method GraphToMermaid(g: Graph) returns (text: string)
    ensures text == JoinLines(MermaidLines(g))
  {
    var nodeIds: map<string, string> := map[];
    var lines := ["graph TD"];
    for i := 0 to |g.nodes|
      invariant nodeIds == IdTable(g.nodes[..i])
      invariant lines == ["graph TD"] + NodeLines(g.nodes[..i])
    {
      var n := g.nodes[i];
      var nid := NodeKey(n, i);
      nodeIds := nodeIds[nid := Sanitize(nid)];
      var caption := n.caption.GetOr(nid);
      var ntype := n.ntype.GetOr("Node");
      lines := lines + ["    " + nodeIds[nid] + "[\"" + caption + " (" + ntype + ")\"]"];
      assert g.nodes[..i + 1][..i] == g.nodes[..i];
    }
    assert g.nodes[..|g.nodes|] == g.nodes;
    for j := 0 to |g.edges|
      invariant lines == ["graph TD"] + NodeLines(g.nodes) + EdgeLines(g.edges[..j], nodeIds)
    {
      var e := g.edges[j];
      var s := Lookup(nodeIds, e.source.GetOr(""));
      var t := Lookup(nodeIds, e.target.GetOr(""));
      var rel := e.rel.GetOr("");
      assert g.edges[..j + 1][..j] == g.edges[..j];
      if Truthy(s) && Truthy(t) {
        if rel != "" {
          lines := lines + ["    " + s.value + " -->|" + rel + "| " + t.value];
        } else {
          lines := lines + ["    " + s.value + " --> " + t.value];
        }
      }
    }
    assert g.edges[..|g.edges|] == g.edges;
    text := JoinLines(lines);
  }

  /** The id table holds exactly the declared keys, each mapped to its
      sanitised form. */
  lemma {:induction false} IdTableFacts(nodes: seq<Node>, key: string)
    ensures key in IdTable(nodes) <==> Declared(nodes, key)
    ensures key in IdTable(nodes) ==> IdTable(nodes)[key] == Sanitize(key)
    decreases |nodes|
  {
    if nodes != [] {
      var init := nodes[..|nodes| - 1];
      IdTableFacts(init, key);
      if Declared(init, key) {
        var i :| 0 <= i < |init| && NodeKey(init[i], i) == key;
        assert NodeKey(nodes[i], i) == key;
      }
      if Declared(nodes, key) && key != NodeKey(nodes[|nodes| - 1], |nodes| - 1) {
        var i :| 0 <= i < |nodes| && NodeKey(nodes[i], i) == key;
        assert NodeKey(init[i], i) == key;
      }
    }
  }

  /** The first line is the header and the node at position `i` is declared
      on line `i + 1`. */
  lemma MermaidNodeLine(g: Graph, i: nat)
    requires i < |g.nodes|
    ensures MermaidLines(g)[0] == "graph TD"
    ensures MermaidLines(g)[i + 1] == NodeLine(g.nodes[i], i)
  {
    NodeLinesAt(g.nodes, i);
  }

  lemma {:induction false} NodeLinesAt(nodes: seq<Node>, i: nat)
    requires i < |nodes|
    ensures NodeLines(nodes)[i] == NodeLine(nodes[i], i)
    decreases |nodes|
  {
    if i < |nodes| - 1 {
      NodeLinesAt(nodes[..|nodes| - 1], i);
    }
  }

  /** An edge is kept exactly when both its endpoints are declared node keys
      and neither is empty (an absent endpoint reads as ""). */
  lemma EdgeKept(nodes: seq<Node>, e: Edge)
    ensures EdgeLine(e, IdTable(nodes)).Some? <==>
      var s, t := e.source.GetOr(""), e.target.GetOr("");
      Declared(nodes, s) && s != "" && Declared(nodes, t) && t != ""
  {
    IdTableFacts(nodes, e.source.GetOr(""));
    IdTableFacts(nodes, e.target.GetOr(""));
  }

  /** When every edge is kept, there is one edge line per edge, in order. */
  lemma {:induction false} EdgeLinesAllKept(edges: seq<Edge>, table: map<string, string>)
    requires forall j :: 0 <= j < |edges| ==> EdgeLine(edges[j], table).Some?
    ensures |EdgeLines(edges, table)| == |edges|
    ensures forall j :: 0 <= j < |edges| ==> EdgeLines(edges, table)[j] == EdgeLine(edges[j], table).value
    decreases |edges|
  {
    if edges != [] {
      var init := edges[..|edges| - 1];
      forall j | 0 <= j < |init| ensures EdgeLine(init[j], table).Some? {
        assert init[j] == edges[j];
      }
      EdgeLinesAllKept(init, table);
    }
  }

  /** In a graph whose edges all join ids of its nodes and whose ids are
      non-empty, no edge is dropped. */
  lemma ClosedGraphKeepsEdges(g: Graph)
    requires EdgesClosed(g)
    requires forall j :: 0 <= j < |g.edges| ==> g.edges[j].source != Some("") && g.edges[j].target != Some("")
    ensures forall j :: 0 <= j < |g.edges| ==> EdgeLine(g.edges[j], IdTable(g.nodes)).Some?
  {
    forall j | 0 <= j < |g.edges| ensures EdgeLine(g.edges[j], IdTable(g.nodes)).Some? {
      var e := g.edges[j];
      assert e in g.edges;
      var a :| 0 <= a < |g.nodes| && g.nodes[a].id == Some(e.source.value);
      var b :| 0 <= b < |g.nodes| && g.nodes[b].id == Some(e.target.value);
      assert NodeKey(g.nodes[a], a) == e.source.value;
      assert NodeKey(g.nodes[b], b) == e.target.value;
      EdgeKept(g.nodes, e);
    }
  }

  // ===========================================================================
  // Graph adapter (report_generator.py:106-149)
  // ===========================================================================

  /** `render_graph_base64`: nothing for a graph with neither nodes nor
      edges; otherwise the Mermaid text always, and a drawing only when
      networkx and matplotlib are present and drawing does not raise. */
  method RenderGraph(g: Graph, hasNetworkx: bool, hasPlot: bool, drawingFails: bool)
    returns (image: Option<Figure>, mermaid: Option<string>)
    ensures image.None? && mermaid.None? <==> g.nodes == [] && g.edges == []
    ensures (g.nodes != [] || g.edges != []) ==> mermaid == Some(JoinLines(MermaidLines(g)))
    ensures image.Some? <==> (g.nodes != [] || g.edges != []) && hasNetworkx && hasPlot && !drawingFails
    ensures image.Some? ==> image.value == GraphFigure(g)
  {
    if g.nodes == [] && g.edges == [] {
      return None, None;
    }
    var text := GraphToMermaid(g);
    mermaid := Some(text);
    if !hasNetworkx || !hasPlot {
      return None, mermaid;
    }
    if drawingFails {
      image := None;
    } else {
      image := Some(GraphFigure(g));
    }
  }

  // ===========================================================================
  // Keyword cloud (report_generator.py:176-214)
  // ===========================================================================

  /** The default `topk`, the one the report passes (report_generator.py:444). */
  const TOPK_DEFAULT: int := 30

  /** The `1e-9` that keeps the normalisation defined when all weights agree. */
  const EPS: real := 0.000000001

  /** Where the layout starts and how far a row may run. */
  const START_X: int := 5
  const START_Y: int := 90
  const ROW_END: int := 90
  const ROW_STEP: int := 10
  const MIN_Y: int := 5

  /** `sorted(keywords, key=weight, reverse=True)[:topk]`. */
  function TopK(keywords: seq<Keyword>, topk: int): seq<Keyword> {
    SliceTo(SortDesc(keywords), topk)
  }

  function MinWeight(kws: seq<Keyword>): (m: real)
    requires kws != []
    ensures forall i :: 0 <= i < |kws| ==> m <= kws[i].1
    ensures exists i :: 0 <= i < |kws| && kws[i].1 == m
  {
    if |kws| == 1 then kws[0].1
    else
      var rest := MinWeight(kws[1..]);
      if kws[0].1 <= rest then kws[0].1 else rest
  }

  function MaxWeight(kws: seq<Keyword>): (m: real)
    requires kws != []
    ensures forall i :: 0 <= i < |kws| ==> kws[i].1 <= m
    ensures exists i :: 0 <= i < |kws| && kws[i].1 == m
  {
    if |kws| == 1 then kws[0].1
    else
      var rest := MaxWeight(kws[1..]);
      if kws[0].1 >= rest then kws[0].1 else rest
  }

  /** `(w - wmin) / (wmax - wmin + 1e-9)`. */
  function Norm(w: real, lo: real, hi: real): real
    requires lo <= hi
  {
    (w - lo) / (hi - lo + EPS)
  }

  /** The normalised weights of `kws`, one per item. */
  function Normalised(kws: seq<Keyword>): (r: seq<real>)
    requires kws != []
    ensures |r| == |kws|
  {
    var lo, hi := MinWeight(kws), MaxWeight(kws);
    seq(|kws|, i requires 0 <= i < |kws| => Norm(kws[i].1, lo, hi))
  }

  /** `8 + int(18 * v)`; for v >= 0 truncation is the floor. */
  function FontSize(v: real): int {
    8 + (18.0 * v).Floor
  }

  /** The words laid out from (x, y): each word advances x by
      max(10, 5 * len(word)); past the row end the layout wraps to a new
      row 10 lower, and stops when that row would lie below 5. */
  function Layout(items: seq<(string, real)>, x: int, y: int): (r: seq<Placement>)
    ensures |r| <= |items|
  {
    if items == [] then []
    else
      var p := Placement(x, y, items[0].0, FontSize(items[0].1));
      var step := if 5 * |items[0].0| > 10 then 5 * |items[0].0| else 10;
      if x + step > ROW_END then
        if y - ROW_STEP < MIN_Y then [p] else [p] + Layout(items[1..], START_X, y - ROW_STEP)
      else [p] + Layout(items[1..], x + step, y)
  }

  /** The layout loop of `render_keyword_cloud_base64`. */
  method LayOutWords(items: seq<(string, real)>) returns (placements: seq<Placement>)
    ensures placements == Layout(items, START_X, START_Y)
  {
    var x, y := START_X, START_Y;
    placements := [];
    var i := 0;
    while i < |items|
      invariant 0 <= i <= |items|
      invariant placements + Layout(items[i..], x, y) == Layout(items, START_X, START_Y)
    {
      var (word, v) := items[i];
      var fs := 8 + (18.0 * v).Floor;
      ghost var here, x0, y0 := Placement(x, y, word, fs), x, y;
      assert items[i..][0] == items[i] && items[i..][1..] == items[i + 1..];
      assert fs == FontSize(items[i..][0].1);
      placements := placements + [Placement(x, y, word, fs)];
      x := x + if 10 > |word| * 5 then 10 else |word| * 5;
      if x > ROW_END {
        x := START_X;
        y := y - ROW_STEP;
        if y < MIN_Y {
          assert Layout(items[i..], x0, y0) == [here];
          break;
        }
        assert Layout(items[i..], x0, y0) == [here] + Layout(items[i + 1..], START_X, y);
      } else {
        assert Layout(items[i..], x0, y0) == [here] + Layout(items[i + 1..], x, y);
      }
      i := i + 1;
    }
  }

  /** `render_keyword_cloud_base64`: nothing without the plotting library or
      keywords; otherwise the top `topk` keywords as bars and their layout as
      the text cloud, which is the image returned. */
  method RenderKeywordCloud(keywords: seq<Keyword>, topk: int, hasPlot: bool) returns (figure: Option<Figure>)
    ensures figure.None? <==> !hasPlot || TopK(keywords, topk) == []
    ensures figure.Some? ==>
      var kws := TopK(keywords, topk);
      kws != [] && figure.value == CloudFigure(kws, Layout(Zip(kws, Normalised(kws)), START_X, START_Y))
  {
    if !hasPlot || |keywords| == 0 {
      return None;
    }
    var kws := SliceTo(SortDesc(keywords), topk);
    if |kws| == 0 {
      return None;
    }
    var norm := Normalised(kws);
    var placements := LayOutWords(Zip(kws, norm));
    figure := Some(CloudFigure(kws, placements));
  }

  /** `zip(kws, norm)`, keeping each word with its normalised weight. */
  function Zip(kws: seq<Keyword>, norm: seq<real>): (r: seq<(string, real)>)
    requires |kws| == |norm|
    ensures |r| == |kws|
    ensures forall i :: 0 <= i < |r| ==> r[i] == (kws[i].0, norm[i])
  {
    seq(|kws|, i requires 0 <= i < |kws| => (kws[i].0, norm[i]))
  }

  // ---------------------------------------------------------------------------
  // Properties of the cloud
  // ---------------------------------------------------------------------------

  /** The selection is the heaviest keywords, in descending order, each one
      of the input, and at most `topk` of them. */
  lemma TopKSelection(keywords: seq<Keyword>, topk: int)
    ensures SortedDesc(TopK(keywords, topk))
    ensures forall k :: k in TopK(keywords, topk) ==> k in keywords
    ensures topk >= 0 ==> |TopK(keywords, topk)| == if topk < |keywords| then topk else |keywords|
  {
    var s := SortDesc(keywords);
    SortDescSorted(keywords);
    forall k | k in TopK(keywords, topk) ensures k in keywords {
      SortDescMember(keywords, k);
    }
  }

  /** With the default `topk`, at most 30 keywords are drawn, and all of
      them when there are fewer. */
  lemma DefaultCloudSelection(keywords: seq<Keyword>)
    ensures |TopK(keywords, TOPK_DEFAULT)| == if |keywords| > 30 then 30 else |keywords|
  {
    TopKSelection(keywords, TOPK_DEFAULT);
  }

  /** Every normalised weight lies in [0, 1); the division is always defined. */
  lemma NormRange(w: real, lo: real, hi: real)
    requires lo <= w <= hi
    ensures 0.0 <= Norm(w, lo, hi) < 1.0
  {
    var d := hi - lo + EPS;
    assert d > 0.0;
    assert (w - lo) / d * d == w - lo;
  }

  /** Equal weights all normalise to 0. */
  lemma NormOfMinimum(lo: real, hi: real)
    requires lo <= hi
    ensures Norm(lo, lo, hi) == 0.0
  {
  }

  /** A heavier keyword never normalises lower. */
  lemma NormMonotone(w1: real, w2: real, lo: real, hi: real)
    requires lo <= hi && w1 <= w2
    ensures Norm(w1, lo, hi) <= Norm(w2, lo, hi)
  {
    var d := hi - lo + EPS;
    assert (w2 - lo) / d - (w1 - lo) / d == (w2 - w1) / d;
  }

  lemma NormalisedRange(kws: seq<Keyword>, i: nat)
    requires kws != [] && i < |kws|
    ensures 0.0 <= Normalised(kws)[i] < 1.0
  {
    NormRange(kws[i].1, MinWeight(kws), MaxWeight(kws));
  }

  /** When all weights are equal, every normalised weight is 0. */
  lemma NormalisedAllEqual(kws: seq<Keyword>, i: nat)
    requires kws != [] && i < |kws|
    requires forall j :: 0 <= j < |kws| ==> kws[j].1 == kws[0].1
    ensures Normalised(kws)[i] == 0.0
  {
    assert MinWeight(kws) == kws[0].1 == MaxWeight(kws);
  }

  /** Font sizes run from 8 to 25 and grow with the normalised weight. */
  lemma FontSizeRange(v: real)
    requires 0.0 <= v < 1.0
    ensures 8 <= FontSize(v) <= 25
  {
  }

  lemma FontSizeMonotone(v1: real, v2: real)
    requires v1 <= v2
    ensures FontSize(v1) <= FontSize(v2)
  {
  }

  /** The placed words are the first items, in order, with their sizes. */
  lemma {:induction false} LayoutPlacesPrefix(items: seq<(string, real)>, x: int, y: int, k: nat)
    requires k < |Layout(items, x, y)|
    ensures Layout(items, x, y)[k].word == items[k].0
    ensures Layout(items, x, y)[k].size == FontSize(items[k].1)
    decreases k
  {
    if k > 0 {
      var step := if 5 * |items[0].0| > 10 then 5 * |items[0].0| else 10;
      if x + step > ROW_END {
        LayoutPlacesPrefix(items[1..], START_X, y - ROW_STEP, k - 1);
      } else {
        LayoutPlacesPrefix(items[1..], x + step, y, k - 1);
      }
    }
  }

  /** Started inside the canvas, every word lies at 5 <= x <= 90 on one of
      the rows y = 90, 80, ..., 10: at most nine rows. */
  lemma {:induction false} LayoutInBounds(items: seq<(string, real)>, x: int, y: int, k: nat)
    requires START_X <= x <= ROW_END && 10 <= y <= START_Y && y % ROW_STEP == 0
    requires k < |Layout(items, x, y)|
    ensures START_X <= Layout(items, x, y)[k].x <= ROW_END
    ensures 10 <= Layout(items, x, y)[k].y <= y && Layout(items, x, y)[k].y % ROW_STEP == 0
    decreases k
  {
    if k > 0 {
      var step := if 5 * |items[0].0| > 10 then 5 * |items[0].0| else 10;
      if x + step > ROW_END {
        LayoutInBounds(items[1..], START_X, y - ROW_STEP, k - 1);
      } else {
        LayoutInBounds(items[1..], x + step, y, k - 1);
      }
    }
  }

  /** Along the cloud the font size never grows: the keywords arrive
      heaviest first. */
  lemma CloudSizesNonIncreasing(keywords: seq<Keyword>, topk: int, a: nat, b: nat)
    requires TopK(keywords, topk) != []
    requires a <= b < |Layout(Zip(TopK(keywords, topk), Normalised(TopK(keywords, topk))), START_X, START_Y)|
    ensures
      var kws := TopK(keywords, topk);
      var words := Layout(Zip(kws, Normalised(kws)), START_X, START_Y);
      words[b].size <= words[a].size
  {
    var kws := TopK(keywords, topk);
    var items := Zip(kws, Normalised(kws));
    TopKSelection(keywords, topk);
    LayoutPlacesPrefix(items, START_X, START_Y, a);
    LayoutPlacesPrefix(items, START_X, START_Y, b);
    NormMonotone(kws[b].1, kws[a].1, MinWeight(kws), MaxWeight(kws));
    FontSizeMonotone(Normalised(kws)[b], Normalised(kws)[a]);
  }

  /** Every word of the cloud lies on the canvas in a size from 8 to 25. */
  lemma CloudWordsInRange(keywords: seq<Keyword>, topk: int, k: nat)
    requires TopK(keywords, topk) != []
    requires k < |Layout(Zip(TopK(keywords, topk), Normalised(TopK(keywords, topk))), START_X, START_Y)|
    ensures
      var kws := TopK(keywords, topk);
      var p := Layout(Zip(kws, Normalised(kws)), START_X, START_Y)[k];
      && 8 <= p.size <= 25
      && START_X <= p.x <= ROW_END && 10 <= p.y <= START_Y
  {
    var kws := TopK(keywords, topk);
    var items := Zip(kws, Normalised(kws));
    LayoutPlacesPrefix(items, START_X, START_Y, k);
    LayoutInBounds(items, START_X, START_Y, k);
    NormalisedRange(kws, k);
    FontSizeRange(Normalised(kws)[k]);
  }
}
