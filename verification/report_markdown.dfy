/** `render_markdown` of report_generator.py:219-287: the Markdown report
    of an analysis, built entry by entry and joined with line breaks. The
    images arrive already encoded, as optional base64 strings; an absent or
    empty one counts as missing. */
module ReportMarkdown {
  import opened Common
  import opened Records

  // ===========================================================================
  // The defaults of the key-element table (report_generator.py:225-230)
  // ===========================================================================

  function CompanyTitle(ke: map<string, string>): string {
    FirstTruthy(ke, "company_name", "name", "N/A")
  }

  function Founded(ke: map<string, string>): string {
    FirstTruthy(ke, "founded", "founded_date", "N/A")
  }

  function Sector(ke: map<string, string>): string {
    FirstTruthy(ke, "sector", "industry", "N/A")
  }

  function OneLiner(ke: map<string, string>): string {
    FirstTruthy(ke, "one_liner", "value_proposition", "")
  }

  function Description(ke: map<string, string>): string {
    FirstTruthy(ke, "description", "product_description", "")
  }

  /** `value or '—'`. */
  function OrDash(value: string): (r: string)
    ensures value == "" ==> r == "—"
    ensures value != "" ==> r == value
  {
    if value != "" then value else "—"
  }

  // ===========================================================================
  // The entries, section by section
  // ===========================================================================

  const HEAD_LEN: nat := 14

  function HeadEntries(ana: StartupAnalysis): (r: seq<string>)
    ensures |r| == HEAD_LEN
  {
    var ke := ana.keyElements;
    var name := CompanyTitle(ke);
    [ "# 🚀 创业公司分析报告 · " + name,
      "",
      "**生成时间**: " + ana.extractedAt,
      "",
      "## 🧩 核心要素",
      "",
      "| 要素 | 内容 |",
      "|---|---|",
      "| 公司名称 | " + name + " |",
      "| 成立时间 | " + Founded(ke) + " |",
      "| 所属领域 | " + Sector(ke) + " |",
      "| 价值主张 | " + OrDash(OneLiner(ke)) + " |",
      "| 简介/产品 | " + OrDash(Description(ke)) + " |",
      "" ]
  }

  /** An embedded PNG image. */
  function ImageEntry(alt: string, b64: string): string {
    "![" + alt + "](data:image/png;base64," + b64 + ")"
  }

  function RadarEntries(radar: Option<string>): (r: seq<string>)
    ensures |r| == if Truthy(radar) then 3 else 0
  {
    if Truthy(radar) then ["## 📊 投资评分雷达图", ImageEntry("radar", radar.value), ""] else []
  }

  const SUMMARY_HEADING := "## 🧠 LLM 分析摘要（原文）"
  const GRAPH_HEADING := "## 🔗 关系图谱"
  const NO_GRAPH := "> 暂无图谱数据"

  function SummaryEntries(raw: string): seq<string> {
    [SUMMARY_HEADING, "", Strip(raw), ""]
  }

  /** The graph section is always present: the image, else the Mermaid
      block, else a notice. */
  function GraphEntries(graph: Option<string>, mermaid: Option<string>): seq<string> {
    [GRAPH_HEADING]
    + (if Truthy(graph) then [ImageEntry("graph", graph.value)]
       else if Truthy(mermaid) then ["```mermaid", mermaid.value, "```"]
       else [NO_GRAPH])
    + [""]
  }

  function CloudEntries(cloud: Option<string>): (r: seq<string>)
    ensures |r| == if Truthy(cloud) then 3 else 0
  {
    if Truthy(cloud) then ["## ☁️ 关键词可视化", ImageEntry("keywords", cloud.value), ""] else []
  }

  /** One table row per citation; a missing key shows as "—". */
  function SourceRow(c: Citation): string {
    "| " + Get(c, "title", "—") + " | " + Get(c, "url", "—") + " | " + Get(c, "level", "—") + " | "
    + Get(c, "captured_at", "—") + " |"
  }

  function SourceRows(sources: seq<Citation>): (r: seq<string>)
    ensures |r| == |sources|
  {
    if sources == [] then [] else SourceRows(sources[..|sources| - 1]) + [SourceRow(sources[|sources| - 1])]
  }

  const SOURCES_HEAD: seq<string> := ["## 🗂️ 证据与来源", "", "| 标题 | URL | 等级 | 抓取时间 |", "|---|---|---|---|"]

  function SourcesEntries(sources: seq<Citation>): (r: seq<string>)
    ensures |r| == if sources == [] then 0 else |SOURCES_HEAD| + |sources| + 1
  {
    if sources == [] then [] else SOURCES_HEAD + SourceRows(sources) + [""]
  }

  const FOOTER: seq<string> :=
    ["---", "**数据与方法**：公开信息 + 知识图谱推理 + 大模型分析", "", "_本报告仅供参考，不构成投资建议。_"]

  /** The report's entries in their fixed order. */
  function MarkdownEntries(ana: StartupAnalysis, radar: Option<string>, graph: Option<string>,
                           mermaid: Option<string>, cloud: Option<string>): seq<string>
  {
    HeadEntries(ana) + RadarEntries(radar) + SummaryEntries(ana.rawResponse) + GraphEntries(graph, mermaid)
    + CloudEntries(cloud) + SourcesEntries(ana.sources) + FOOTER
  }

  /** `render_markdown`: appends the entries one by one, the citation rows in
      a loop, and joins them with line breaks. */
  method RenderMarkdown(ana: StartupAnalysis, radar: Option<string>, graph: Option<string>,
                        mermaid: Option<string>, cloud: Option<string>) returns (text: string)
    ensures text == JoinLines(MarkdownEntries(ana, radar, graph, mermaid, cloud))
  {
    var md := AppendHead([], ana);
    assert md == HeadEntries(ana);
    md := AppendRadar(md, radar);
    md := AppendSummary(md, ana.rawResponse);
    md := AppendGraph(md, graph, mermaid);
    ghost var upToGraph := md;
    assert upToGraph == HeadEntries(ana) + RadarEntries(radar) + SummaryEntries(ana.rawResponse)
      + GraphEntries(graph, mermaid);
    md := AppendCloud(md, cloud);
    md := AppendSources(md, ana.sources);
    md := AppendFooter(md);
    assert md == upToGraph + CloudEntries(cloud) + SourcesEntries(ana.sources) + FOOTER;
    text := JoinLines(md);
  }

  /** The radar section, only with a radar image (report_generator.py:248-251). */
  method AppendRadar(md0: seq<string>, radar: Option<string>) returns (md: seq<string>)
    ensures md == md0 + RadarEntries(radar)
  {
    md := md0;
    if Truthy(radar) {
      md := md + ["## 📊 投资评分雷达图"];
      md := md + [ImageEntry("radar", radar.value)];
      md := md + [""];
    }
  }

  /** The keyword section, only with a cloud image (report_generator.py:269-272). */
  method AppendCloud(md0: seq<string>, cloud: Option<string>) returns (md: seq<string>)
    ensures md == md0 + CloudEntries(cloud)
  {
    md := md0;
    if Truthy(cloud) {
      md := md + ["## ☁️ 关键词可视化"];
      md := md + [ImageEntry("keywords", cloud.value)];
      md := md + [""];
    }
  }

  /** The fixed closing lines (report_generator.py:283-286). */
  method AppendFooter(md0: seq<string>) returns (md: seq<string>)
    ensures md == md0 + FOOTER
  {
    md := md0;
    md := md + ["---"];
    md := md + ["**数据与方法**：公开信息 + 知识图谱推理 + 大模型分析"];
    md := md + [""];
    md := md + ["_本报告仅供参考，不构成投资建议。_"];
  }

  /** The title, the timestamp and the key-element table (report_generator.py:225-246). */
  method AppendHead(md0: seq<string>, ana: StartupAnalysis) returns (md: seq<string>)
    ensures md == md0 + HeadEntries(ana)
  {
    var ke := ana.keyElements;
    var name := FirstTruthy(ke, "company_name", "name", "N/A");
    var founded := FirstTruthy(ke, "founded", "founded_date", "N/A");
    var sector := FirstTruthy(ke, "sector", "industry", "N/A");
    var oneLiner := FirstTruthy(ke, "one_liner", "value_proposition", "");
    var desc := FirstTruthy(ke, "description", "product_description", "");
    md := md0;
    md := md + ["# 🚀 创业公司分析报告 · " + name];
    md := md + [""];
    md := md + ["**生成时间**: " + ana.extractedAt];
    md := md + [""];
    assert md == md0 + ["# 🚀 创业公司分析报告 · " + name, "", "**生成时间**: " + ana.extractedAt, ""];
    md := md + ["## 🧩 核心要素"];
    md := md + [""];
    md := md + ["| 要素 | 内容 |"];
    md := md + ["|---|---|"];
    assert md == md0 + ["# 🚀 创业公司分析报告 · " + name, "", "**生成时间**: " + ana.extractedAt, "", "## 🧩 核心要素", "", "| 要素 | 内容 |", "|---|---|"];
    md := md + ["| 公司名称 | " + name + " |"];
    md := md + ["| 成立时间 | " + founded + " |"];
    md := md + ["| 所属领域 | " + sector + " |"];
    md := md + ["| 价值主张 | " + (if oneLiner != "" then oneLiner else "—") + " |"];
    md := md + ["| 简介/产品 | " + (if desc != "" then desc else "—") + " |"];
    md := md + [""];
  }

  /** The model's answer, trimmed (report_generator.py:253-256). */
  method AppendSummary(md0: seq<string>, raw: string) returns (md: seq<string>)
    ensures md == md0 + SummaryEntries(raw)
  {
    md := md0;
    md := md + [SUMMARY_HEADING];
    md := md + [""];
    md := md + [Strip(raw)];
    md := md + [""];
  }

  /** The graph section with its two fallbacks (report_generator.py:258-267). */
  method AppendGraph(md0: seq<string>, graph: Option<string>, mermaid: Option<string>) returns (md: seq<string>)
    ensures md == md0 + GraphEntries(graph, mermaid)
  {
    md := md0;
    md := md + [GRAPH_HEADING];
    if Truthy(graph) {
      md := md + [ImageEntry("graph", graph.value)];
    } else if Truthy(mermaid) {
      md := md + ["```mermaid"];
      md := md + [mermaid.value];
      md := md + ["```"];
    } else {
      md := md + [NO_GRAPH];
    }
    md := md + [""];
  }

  /** The citations table, one row per citation (report_generator.py:274-281). */
  method AppendSources(md0: seq<string>, sources: seq<Citation>) returns (md: seq<string>)
    ensures md == md0 + SourcesEntries(sources)
  {
    md := md0;
    if |sources| > 0 {
      md := md + ["## 🗂️ 证据与来源"];
      md := md + [""];
      md := md + ["| 标题 | URL | 等级 | 抓取时间 |"];
      md := md + ["|---|---|---|---|"];
      for j := 0 to |sources|
        invariant md == md0 + SOURCES_HEAD + SourceRows(sources[..j])
      {
        var s := sources[j];
        md := md + ["| " + Get(s, "title", "—") + " | " + Get(s, "url", "—") + " | " + Get(s, "level", "—")
                    + " | " + Get(s, "captured_at", "—") + " |"];
        assert sources[..j + 1][..j] == sources[..j];
      }
      assert sources[..|sources|] == sources;
      md := md + [""];
    }
  }

  // ===========================================================================
  // Properties of the report
  // ===========================================================================

  /** The report always opens with the title line naming the company, whose
      name falls back from company_name to name to "N/A", an empty value
      counting as missing. */
  lemma MarkdownTitle(ana: StartupAnalysis, radar: Option<string>, graph: Option<string>,
                      mermaid: Option<string>, cloud: Option<string>)
    ensures
      var text := JoinLines(MarkdownEntries(ana, radar, graph, mermaid, cloud));
      var title := "# 🚀 创业公司分析报告 · " + CompanyTitle(ana.keyElements);
      |title| < |text| && text[..|title| + 1] == title + "\n"
    ensures "company_name" in ana.keyElements && ana.keyElements["company_name"] != "" ==>
      CompanyTitle(ana.keyElements) == ana.keyElements["company_name"]
    ensures CompanyTitle(ana.keyElements) == "N/A" <==>
      (!Truthy(Lookup(ana.keyElements, "company_name")) && !Truthy(Lookup(ana.keyElements, "name")))
      || Lookup(ana.keyElements, "company_name") == Some("N/A")
      || (!Truthy(Lookup(ana.keyElements, "company_name")) && Lookup(ana.keyElements, "name") == Some("N/A"))
  {
    var entries := MarkdownEntries(ana, radar, graph, mermaid, cloud);
    assert entries[0] == "# 🚀 创业公司分析报告 · " + CompanyTitle(ana.keyElements);
    JoinLinesFirst(entries);
  }

  /** Where the summary starts: after the head and the radar section, if any. */
  function SummaryAt(radar: Option<string>): nat {
    HEAD_LEN + if Truthy(radar) then 3 else 0
  }

  /** The radar section appears right after the head exactly when there is a
      radar image; the trimmed model response follows in every case. */
  lemma MarkdownRadarAndSummary(ana: StartupAnalysis, radar: Option<string>, graph: Option<string>,
                                mermaid: Option<string>, cloud: Option<string>)
    ensures
      var entries := MarkdownEntries(ana, radar, graph, mermaid, cloud);
      var s := SummaryAt(radar);
      && s + 4 <= |entries|
      && (Truthy(radar) ==> entries[HEAD_LEN] == "## 📊 投资评分雷达图"
                            && entries[HEAD_LEN + 1] == ImageEntry("radar", radar.value))
      && entries[s] == SUMMARY_HEADING
      && entries[s + 2] == Strip(ana.rawResponse)
  {
    RadarSummaryBlock(HeadEntries(ana), radar, ana.rawResponse,
      GraphEntries(graph, mermaid), CloudEntries(cloud), SourcesEntries(ana.sources), FOOTER);
  }

  lemma RadarSummaryBlock(head: seq<string>, radar: Option<string>, raw: string,
                          graphPart: seq<string>, cloudPart: seq<string>, sourcesPart: seq<string>,
                          footer: seq<string>)
    requires |head| == HEAD_LEN
    ensures
      var entries := head + RadarEntries(radar) + SummaryEntries(raw) + graphPart + cloudPart + sourcesPart + footer;
      var s := SummaryAt(radar);
      && s + 4 <= |entries|
      && (Truthy(radar) ==> entries[HEAD_LEN] == "## 📊 投资评分雷达图"
                            && entries[HEAD_LEN + 1] == ImageEntry("radar", radar.value))
      && entries[s] == SUMMARY_HEADING
      && entries[s + 2] == Strip(raw)
  {
    var entries := head + RadarEntries(radar) + SummaryEntries(raw) + graphPart + cloudPart + sourcesPart + footer;
    assert entries == head + (RadarEntries(radar) + (SummaryEntries(raw) + (graphPart + cloudPart + sourcesPart + footer)));
  }

  /** The graph section follows the summary and shows the image when there
      is one, else the Mermaid text in a fenced block, else the notice. */
  lemma MarkdownGraphSection(ana: StartupAnalysis, radar: Option<string>, graph: Option<string>,
                             mermaid: Option<string>, cloud: Option<string>)
    ensures
      var entries := MarkdownEntries(ana, radar, graph, mermaid, cloud);
      var g := SummaryAt(radar) + 4;
      && g + 2 <= |entries|
      && entries[g] == GRAPH_HEADING
      && (Truthy(graph) ==> entries[g + 1] == ImageEntry("graph", graph.value))
      && (!Truthy(graph) && Truthy(mermaid) ==>
            g + 4 <= |entries| && entries[g + 1..g + 4] == ["```mermaid", mermaid.value, "```"])
      && (!Truthy(graph) && !Truthy(mermaid) ==> entries[g + 1] == NO_GRAPH)
  {
    var before := HeadEntries(ana) + RadarEntries(radar) + SummaryEntries(ana.rawResponse);
    assert |before| == SummaryAt(radar) + 4;
    GraphBlock(before, graph, mermaid, CloudEntries(cloud), SourcesEntries(ana.sources), FOOTER);
  }

  lemma GraphBlock(before: seq<string>, graph: Option<string>, mermaid: Option<string>,
                   cloudPart: seq<string>, sourcesPart: seq<string>, footer: seq<string>)
    ensures
      var entries := before + GraphEntries(graph, mermaid) + cloudPart + sourcesPart + footer;
      var g := |before|;
      && g + 2 <= |entries|
      && entries[g] == GRAPH_HEADING
      && (Truthy(graph) ==> entries[g + 1] == ImageEntry("graph", graph.value))
      && (!Truthy(graph) && Truthy(mermaid) ==>
            g + 4 <= |entries| && entries[g + 1..g + 4] == ["```mermaid", mermaid.value, "```"])
      && (!Truthy(graph) && !Truthy(mermaid) ==> entries[g + 1] == NO_GRAPH)
  {
    var entries := before + GraphEntries(graph, mermaid) + cloudPart + sourcesPart + footer;
    assert entries == before + (GraphEntries(graph, mermaid) + (cloudPart + sourcesPart + footer));
  }

  /** The citations table lists every citation, in order, right after its
      four header entries; without citations no table appears and the
      footer follows the cloud section. */
  lemma MarkdownSources(ana: StartupAnalysis, radar: Option<string>, graph: Option<string>,
                        mermaid: Option<string>, cloud: Option<string>, j: nat)
    requires j < |ana.sources|
    ensures
      var entries := MarkdownEntries(ana, radar, graph, mermaid, cloud);
      var t := |entries| - |FOOTER| - |ana.sources| - 1;
      && |SOURCES_HEAD| <= t
      && entries[t - |SOURCES_HEAD|..t] == SOURCES_HEAD
      && entries[t + j] == SourceRow(ana.sources[j])
  {
    var before := HeadEntries(ana) + RadarEntries(radar) + SummaryEntries(ana.rawResponse)
      + GraphEntries(graph, mermaid) + CloudEntries(cloud);
    SourcesBlock(before, ana.sources, j);
  }

  lemma SourcesBlock(before: seq<string>, sources: seq<Citation>, j: nat)
    requires j < |sources|
    ensures
      var entries := before + SourcesEntries(sources) + FOOTER;
      var t := |before| + |SOURCES_HEAD|;
      && entries[t - |SOURCES_HEAD|..t] == SOURCES_HEAD
      && entries[t + j] == SourceRow(sources[j])
  {
    var rows := SourceRows(sources);
    var entries := before + SourcesEntries(sources) + FOOTER;
    assert entries == (before + SOURCES_HEAD) + (rows + ([""] + FOOTER));
    SourceRowsAt(sources, j);
  }

  lemma {:induction false} SourceRowsAt(sources: seq<Citation>, j: nat)
    requires j < |sources|
    ensures SourceRows(sources)[j] == SourceRow(sources[j])
    decreases |sources|
  {
    if j < |sources| - 1 {
      SourceRowsAt(sources[..|sources| - 1], j);
    }
  }

  /** The fixed footer closes every report. */
  lemma MarkdownFooter(ana: StartupAnalysis, radar: Option<string>, graph: Option<string>,
                       mermaid: Option<string>, cloud: Option<string>)
    ensures
      var entries := MarkdownEntries(ana, radar, graph, mermaid, cloud);
      |FOOTER| <= |entries| && entries[|entries| - |FOOTER|..] == FOOTER
    ensures
      var entries := MarkdownEntries(ana, radar, graph, mermaid, cloud);
      ana.sources == [] && !Truthy(cloud) ==>
        entries[..|entries| - |FOOTER|] == HeadEntries(ana) + RadarEntries(radar)
          + SummaryEntries(ana.rawResponse) + GraphEntries(graph, mermaid)
  {
  }
}
