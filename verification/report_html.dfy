/** The degraded path of `render_html` (report_generator.py:394-432), taken
    when jinja2 is missing: every `{{ key }}` placeholder of the template is
    replaced literally, in context order, and what is left of the template
    syntax is then cut out with two regular-expression substitutions. */
module ReportHtml {
  import opened Common
  import opened Records
  import opened ReportMarkdown

  /** The radar card's conditional (report_generator.py:329-333), tag by
      tag: the image in the `if` branch, the notice in the `else` branch. */
  const RADAR_IF := " if radar_b64 "
  const RADAR_IMAGE_OPEN := "\n        <img class=\"img\" " + "src=\"data:image/png;base64,"
  const RADAR_IMAGE_CLOSE := "\" alt=\"radar\"/>\n      "
  const RADAR_ELSE := " else "
  const RADAR_MISSING := "\n        <div class=\"muted\">" + "暂无评分或依赖缺失</div>\n      "
  const RADAR_ENDIF := " endif "
  const RADAR_BLOCK: string :=
    Tag(RADAR_IF) + (RADAR_IMAGE_OPEN + (Placeholder("radar_b64") + (RADAR_IMAGE_CLOSE
      + (Tag(RADAR_ELSE) + (RADAR_MISSING + Tag(RADAR_ENDIF))))))

  /** The page template (report_generator.py:292-392). */
  const HTML_TEMPLATE: string :=
    "\n"
    + "<!DOCTYPE html>\n"
    + "<html lang=\"zh-CN\">\n"
    + "<head>\n"
    + "<meta charset=\"UTF-8\" />\n"
    + "<meta name=\"viewport\" content=\"width=device-width, initial-scale=1.0\"/>\n"
    + "<title>{{ title }}</title>\n"
    + "<style>\n"
    + "  body { font-family: -apple-system, BlinkMacSystemFont, \"Segoe UI\", Roboto, \"PingFang SC\", \"Hiragino Sans GB\",\"Microsoft YaHei\", Arial, sans-serif; margin: 24px; line-height: 1.55;}\n"
    + "  h1,h2 { margin: 16px 0 8px; }\n"
    + "  .grid { display: grid; grid-template-columns: 1fr 1fr; gap: 16px; }\n"
    + "  table { width: 100%; border-collapse: collapse; }\n"
    + "  th, td { border: 1px solid #e5e7eb; padding: 8px; text-align: left; }\n"
    + "  .card { border: 1px solid #e5e7eb; border-radius: 12px; padding: 16px; }\n"
    + "  .muted { color: #6b7280; }\n"
    + "  .img { border:1px solid #e5e7eb; border-radius: 12px; padding: 8px; }\n"
    + "  pre { background: #0b1021; color:#e5e7eb; padding:12px; border-radius:8px; overflow:auto;}\n"
    + "</style>\n"
    + "</head>\n"
    + "<body>\n"
    + "  <h1>🚀 创业公司分析报告 · {{ company_name }}</h1>\n"
    + "  <div class=\"muted\">生成时间：{{ extracted_at }}</div>\n"
    + "\n"
    + "  <div class=\"grid\" style=\"margin-top:16px;\">\n"
    + "    <div class=\"card\">\n"
    + "      <h2>🧩 核心要素</h2>\n"
    + "      <table>\n"
    + "        <tr><th>公司名称</th><td>{{ company_name }}</td></tr>\n"
    + "        <tr><th>成立时间</th><td>{{ founded }}</td></tr>\n"
    + "        <tr><th>所属领域</th><td>{{ sector }}</td></tr>\n"
    + "        <tr><th>价值主张</th><td>{{ one_liner }}</td></tr>\n"
    + "        <tr><th>简介/产品</th><td>{{ desc }}</td></tr>\n"
    + "      </table>\n"
    + "    </div>\n"
    + "\n"
    + "    <div class=\"card\">\n"
    + "      <h2>📊 投资评分雷达图</h2>\n"
    + "      " + RADAR_BLOCK + "\n"
    + "    </div>\n"
    + "  </div>\n"
    + "\n"
    + "  <div class=\"card\" style=\"margin-top:16px;\">\n"
    + "    <h2>🧠 LLM 分析摘要（原文）</h2>\n"
    + "    <pre>{{ raw_response }}</pre>\n"
    + "  </div>\n"
    + "\n"
    + "  <div class=\"grid\" style=\"margin-top:16px;\">\n"
    + "    <div class=\"card\">\n"
    + "      <h2>🔗 关系图谱</h2>\n"
    + "      {% if graph_b64 %}\n"
    + "        <img class=\"img\" src=\"data:image/png;base64,{{ graph_b64 }}\" alt=\"graph\"/>\n"
    + "      {% elif mermaid %}\n"
    + "        <pre class=\"mermaid\">{{ mermaid }}</pre>\n"
    + "        <div class=\"muted\">（在支持 Mermaid 的环境中可直接渲染）</div>\n"
    + "      {% else %}\n"
    + "        <div class=\"muted\">暂无图谱数据</div>\n"
    + "      {% endif %}\n"
    + "    </div>\n"
    + "\n"
    + "    <div class=\"card\">\n"
    + "      <h2>☁️ 关键词可视化</h2>\n"
    + "      {% if cloud_b64 %}\n"
    + "        <img class=\"img\" src=\"data:image/png;base64,{{ cloud_b64 }}\" alt=\"keywords\"/>\n"
    + "      {% else %}\n"
    + "        <div class=\"muted\">暂无关键词或依赖缺失</div>\n"
    + "      {% endif %}\n"
    + "    </div>\n"
    + "  </div>\n"
    + "\n"
    + "  <div class=\"card\" style=\"margin-top:16px;\">\n"
    + "    <h2>🗂️ 证据与来源</h2>\n"
    + "    {% if sources %}\n"
    + "      <table>\n"
    + "        <thead><tr><th>标题</th><th>URL</th><th>等级</th><th>抓取时间</th></tr></thead>\n"
    + "        <tbody>\n"
    + "        {% for s in sources %}\n"
    + "          <tr>\n"
    + "            <td>{{ s.title or '—' }}</td>\n"
    + "            <td>{{ s.url or '—' }}</td>\n"
    + "            <td>{{ s.level or '—' }}</td>\n"
    + "            <td>{{ s.captured_at or '—' }}</td>\n"
    + "          </tr>\n"
    + "        {% endfor %}\n"
    + "        </tbody>\n"
    + "      </table>\n"
    + "    {% else %}\n"
    + "      <div class=\"muted\">暂无来源</div>\n"
    + "    {% endif %}\n"
    + "  </div>\n"
    + "\n"
    + "  <div class=\"muted\" style=\"margin-top:16px;\">\n"
    + "    数据与方法：公开信息 + 知识图谱推理 + 大模型分析。<br/>\n"
    + "    本报告仅供参考，不构成投资建议。\n"
    + "  </div>\n"
    + "</body>\n"
    + "</html>\n"
  // ===========================================================================
  // Python's str.replace and the two re.sub calls
  // ===========================================================================

  /** The first occurrence of `pat` in `s` at or after `k`. */
  function FindFrom(s: string, pat: string, k: nat): (r: Option<nat>)
    requires pat != []
    ensures r.Some? ==> k <= r.value && OccursAt(s, pat, r.value)
    ensures r.Some? ==> forall j :: k <= j < r.value ==> !OccursAt(s, pat, j)
    ensures r.None? ==> forall j :: k <= j ==> !OccursAt(s, pat, j)
    decreases |s| - k
  {
    if k + |pat| > |s| then None
    else if s[k..k + |pat|] == pat then Some(k)
    else FindFrom(s, pat, k + 1)
  }

  /** `s.replace(pat, v)`: every occurrence, scanning left to right without
      overlaps. */
  function ReplaceAll(s: string, pat: string, v: string): string
    requires pat != []
    decreases |s|
  {
    if |s| < |pat| then s
    else if s[..|pat|] == pat then v + ReplaceAll(s[|pat|..], pat, v)
    else [s[0]] + ReplaceAll(s[1..], pat, v)
  }

  /** `re.sub(r"\{%.*?%\}", "", s, flags=re.S)`: from each `{%` to the first
      `%}` after it, across lines. */
  function StripBlocks(s: string): (r: string)
    ensures |r| <= |s|
    decreases |s|
  {
    if |s| < 2 then s
    else if s[0] == '{' && s[1] == '%' then
      match FindFrom(s, "%}", 2)
      case Some(j) => StripBlocks(s[j + 2..])
      case None => [s[0]] + StripBlocks(s[1..])
    else [s[0]] + StripBlocks(s[1..])
  }

  /** `re.sub(r"\{\{.*?\}\}", "", s)`: from each `{{` to the first `}}`
      after it, provided no line break lies between. */
  function StripVars(s: string): (r: string)
    ensures |r| <= |s|
    decreases |s|
  {
    if |s| < 2 then s
    else if s[0] == '{' && s[1] == '{' then
      match FindFrom(s, "}}", 2)
      case Some(j) =>
        if forall k :: 2 <= k < j ==> s[k] != '\n' then StripVars(s[j + 2..]) else [s[0]] + StripVars(s[1..])
      case None => [s[0]] + StripVars(s[1..])
    else [s[0]] + StripVars(s[1..])
  }

  // ===========================================================================
  // The context and the rendering
  // ===========================================================================

  /** `str(v if v is not None else "")` for an optional string. */
  function ValueOrEmpty(v: Option<string>): string {
    v.GetOr("")
  }

  /** The rendering context in its insertion order (report_generator.py:399-420).
      `sourcesText` is `str(ana.sources)`, Python's printed form of the
      citation list. The page shows the company cells the Markdown report
      shows, and an absent image or diagram becomes "". */
  function HtmlContext(ana: StartupAnalysis, radar: Option<string>, graph: Option<string>,
                       mermaid: Option<string>, cloud: Option<string>, sourcesText: string): (r: seq<(string, string)>)
    ensures |r| == 13
    ensures r[0].0 == "title" && r[0].1 == "创业公司分析报告 · " + r[1].1
    ensures r[1].0 == "company_name" && r[1].1 == CompanyTitle(ana.keyElements)
    ensures r[2].0 == "founded" && r[2].1 == Founded(ana.keyElements)
    ensures r[3].0 == "sector" && r[3].1 == Sector(ana.keyElements)
    ensures r[4].0 == "one_liner" && r[4].1 == OrDash(OneLiner(ana.keyElements))
    ensures r[5].0 == "desc" && r[5].1 == OrDash(Description(ana.keyElements))
    ensures r[6].0 == "extracted_at" && r[6].1 == ana.extractedAt
    ensures r[7].0 == "radar_b64" && r[7].1 == (if radar.Some? then radar.value else "")
    ensures r[8].0 == "graph_b64" && r[8].1 == (if graph.Some? then graph.value else "")
    ensures r[9].0 == "mermaid" && r[9].1 == (if mermaid.Some? then mermaid.value else "")
    ensures r[10].0 == "cloud_b64" && r[10].1 == (if cloud.Some? then cloud.value else "")
    ensures r[11].0 == "raw_response" && r[11].1 == ana.rawResponse
    ensures r[12].0 == "sources" && r[12].1 == sourcesText
  {
    var ke := ana.keyElements;
    var name := CompanyTitle(ke);
    [ ("title", "创业公司分析报告 · " + name),
      ("company_name", name),
      ("founded", Founded(ke)),
      ("sector", Sector(ke)),
      ("one_liner", FirstTruthy(ke, "one_liner", "value_proposition", "—")),
      ("desc", FirstTruthy(ke, "description", "product_description", "—")),
      ("extracted_at", ana.extractedAt),
      ("radar_b64", ValueOrEmpty(radar)),
      ("graph_b64", ValueOrEmpty(graph)),
      ("mermaid", ValueOrEmpty(mermaid)),
      ("cloud_b64", ValueOrEmpty(cloud)),
      ("raw_response", ana.rawResponse),
      ("sources", sourcesText) ]
  }

  function Placeholder(key: string): (r: string)
    ensures r != []
  {
    "{{ " + key + " }}"
  }

  /** The template after the replacements of `context`, in order. */
  function SubstituteAll(html: string, context: seq<(string, string)>): string {
    if context == [] then html
    else
      var (k, v) := context[|context| - 1];
      ReplaceAll(SubstituteAll(html, context[..|context| - 1]), Placeholder(k), v)
  }

  /** `render_html` without jinja2. */
  method RenderHtmlDegraded(ana: StartupAnalysis, radar: Option<string>, graph: Option<string>,
                            mermaid: Option<string>, cloud: Option<string>, sourcesText: string)
    returns (html: string)
    ensures html == StripVars(StripBlocks(SubstituteAll(HTML_TEMPLATE, HtmlContext(ana, radar, graph, mermaid, cloud, sourcesText))))
  {
    var context := HtmlContext(ana, radar, graph, mermaid, cloud, sourcesText);
    html := SubstituteLoop(HTML_TEMPLATE, context);
    html := StripBlocks(html);
    html := StripVars(html);
  }

  /** The loop `for k, v in ctx.items(): html = html.replace(...)`. */
  method SubstituteLoop(template: string, context: seq<(string, string)>) returns (html: string)
    ensures html == SubstituteAll(template, context)
  {
    html := template;
    for i := 0 to |context|
      invariant html == SubstituteAll(template, context[..i])
    {
      var (k, v) := context[i];
      html := ReplaceAll(html, "{{ " + k + " }}", v);
      assert context[..i + 1][..i] == context[..i];
    }
    assert context[..|context|] == context;
  }

  // ===========================================================================
  // Properties
  // ===========================================================================

  /** Text without an opening brace passes both clean-ups unchanged. */
  lemma {:induction false} BraceFreeUnchanged(s: string)
    requires forall k :: 0 <= k < |s| ==> s[k] != '{'
    ensures StripBlocks(s) == s && StripVars(s) == s
    decreases |s|
  {
    if |s| >= 2 {
      BraceFreeUnchanged(s[1..]);
      assert s == [s[0]] + s[1..];
    }
  }

  /** A replacement whose placeholder does not occur changes nothing. */
  lemma {:induction false} ReplaceAllAbsent(s: string, pat: string, v: string)
    requires pat != []
    requires forall j :: !OccursAt(s, pat, j)
    ensures ReplaceAll(s, pat, v) == s
    decreases |s|
  {
    if |s| >= |pat| {
      assert !OccursAt(s, pat, 0);
      forall j ensures OccursAt(s[1..], pat, j) ==> OccursAt(s, pat, j + 1) {
        if 0 <= j && j + |pat| <= |s| - 1 {
          assert s[1..][j..j + |pat|] == s[j + 1..j + 1 + |pat|];
        }
      }
      ReplaceAllAbsent(s[1..], pat, v);
      assert s == [s[0]] + s[1..];
    }
  }

  /** The leftmost occurrence is replaced and the scan resumes after it:
      text before it is kept, and an occurrence is never reused. */
  lemma {:induction false} ReplaceAllLeftmost(x: string, pat: string, v: string, rest: string)
    requires pat != []
    requires forall j :: 0 <= j < |x| ==> !OccursAt(x + pat + rest, pat, j)
    ensures ReplaceAll(x + pat + rest, pat, v) == x + v + ReplaceAll(rest, pat, v)
    decreases |x|
  {
    var s := x + pat + rest;
    if x == [] {
      assert s == pat + rest;
      assert s[..|pat|] == pat && s[|pat|..] == rest;
    } else {
      var s' := x[1..] + pat + rest;
      assert s[1..] == s';
      assert !OccursAt(s, pat, 0);
      assert ReplaceAll(s, pat, v) == [s[0]] + ReplaceAll(s', pat, v);
      ShiftedAbsent(s, pat, |x|);
      ReplaceAllLeftmost(x[1..], pat, v, rest);
      assert [s[0]] + (x[1..] + v + ReplaceAll(rest, pat, v)) == x + v + ReplaceAll(rest, pat, v);
    }
  }

  /** No occurrence before `n` in `s` means none before `n - 1` in `s[1..]`. */
  lemma ShiftedAbsent(s: string, pat: string, n: nat)
    requires 1 <= n <= |s|
    requires forall j :: 0 <= j < n ==> !OccursAt(s, pat, j)
    ensures forall j :: 0 <= j < n - 1 ==> !OccursAt(s[1..], pat, j)
  {
    forall j | 0 <= j < n - 1 ensures !OccursAt(s[1..], pat, j) {
      assert !OccursAt(s, pat, j + 1);
      if j + |pat| <= |s| - 1 {
        assert s[1..][j..j + |pat|] == s[j + 1..j + 1 + |pat|];
      }
    }
  }

  /** Brace-free text in front is kept as it is. */
  lemma PlainPrefixKept(x: string, rest: string)
    requires forall k :: 0 <= k < |x| ==> x[k] != '{'
    ensures StripBlocks(x + rest) == x + StripBlocks(rest)
    ensures StripVars(x + rest) == x + StripVars(rest)
  {
    PlainPrefixKeptByBlocks(x, rest);
    PlainPrefixKeptByVars(x, rest);
  }

  lemma {:induction false} PlainPrefixKeptByBlocks(x: string, rest: string)
    requires forall k :: 0 <= k < |x| ==> x[k] != '{'
    ensures StripBlocks(x + rest) == x + StripBlocks(rest)
    decreases |x|
  {
    if x == [] {
      assert x + rest == rest;
    } else {
      var s := x + rest;
      assert s[0] == x[0] && s[1..] == x[1..] + rest;
      PlainPrefixKeptByBlocks(x[1..], rest);
      if |s| < 2 {
        assert rest == [] && s == x;
      } else {
        assert StripBlocks(s) == [s[0]] + StripBlocks(s[1..]);
      }
      assert [x[0]] + (x[1..] + StripBlocks(rest)) == x + StripBlocks(rest);
    }
  }

  lemma {:induction false} PlainPrefixKeptByVars(x: string, rest: string)
    requires forall k :: 0 <= k < |x| ==> x[k] != '{'
    ensures StripVars(x + rest) == x + StripVars(rest)
    decreases |x|
  {
    if x == [] {
      assert x + rest == rest;
    } else {
      var s := x + rest;
      assert s[0] == x[0] && s[1..] == x[1..] + rest;
      PlainPrefixKeptByVars(x[1..], rest);
      if |s| < 2 {
        assert rest == [] && s == x;
      } else {
        assert StripVars(s) == [s[0]] + StripVars(s[1..]);
      }
      assert [x[0]] + (x[1..] + StripVars(rest)) == x + StripVars(rest);
    }
  }

  /** A control tag `{% ... %}` as it stands in the template. */
  function Tag(body: string): string {
    "{%" + body + "%}"
  }

  /** A control tag is cut out whole, whatever it says. */
  lemma TagRemoved(body: string, rest: string)
    requires forall j :: !OccursAt(body, "%}", j)
    ensures StripBlocks(Tag(body) + rest) == StripBlocks(rest)
  {
    var s := Tag(body) + rest;
    var j := |body| + 2;
    assert s[0] == '{' && s[1] == '%';
    assert s[j..j + 2] == "%}";
    assert OccursAt(s, "%}", j);
    forall i | 2 <= i < j ensures !OccursAt(s, "%}", i) {
      if i + 2 <= j {
        assert s[i..i + 2] == body[i - 2..i];
        assert !OccursAt(body, "%}", i - 2);
        assert body[i - 2..i] != "%}";
      } else {
        assert s[i + 1] == '%';
        assert s[i..i + 2][1] == s[i + 1];
      }
    }
    assert s[j + 2..] == rest;
  }

  /** Both branches of a former conditional stay in the page: only the tags
      go (`RadarCardRendered` applies this to the radar card). */
  lemma BothBranchesRemain(ifTag: string, thenPart: string, elseTag: string, elsePart: string, endTag: string)
    requires forall j :: !OccursAt(ifTag, "%}", j)
    requires forall j :: !OccursAt(elseTag, "%}", j)
    requires forall j :: !OccursAt(endTag, "%}", j)
    requires forall k :: 0 <= k < |thenPart| ==> thenPart[k] != '{'
    requires forall k :: 0 <= k < |elsePart| ==> elsePart[k] != '{'
    ensures StripBlocks(Tag(ifTag) + (thenPart + (Tag(elseTag) + (elsePart + Tag(endTag))))) == thenPart + elsePart
  {
    var tail := Tag(endTag);
    TagRemoved(endTag, []);
    assert tail + [] == tail;
    var e := elsePart + tail;
    PlainPrefixKept(elsePart, tail);
    assert StripBlocks(e) == elsePart;
    var mid := Tag(elseTag) + e;
    TagRemoved(elseTag, e);
    var t := thenPart + mid;
    PlainPrefixKept(thenPart, mid);
    assert StripBlocks(t) == thenPart + elsePart;
    TagRemoved(ifTag, t);
  }

  /** Stripping runs after substitution, so template syntax inside an
      inserted value, such as `{{x}}` in the model's answer, is cut out too. */
  lemma InsertedPlaceholderRemoved(inner: string, rest: string)
    requires forall k :: 0 <= k < |inner| ==> inner[k] != '\n' && inner[k] != '}'
    ensures StripVars("{{" + inner + "}}" + rest) == StripVars(rest)
  {
    var s := "{{" + inner + "}}" + rest;
    var j := |inner| + 2;
    assert s[0] == '{' && s[1] == '{';
    assert s[j..j + 2] == "}}";
    assert OccursAt(s, "}}", j);
    forall i | 2 <= i < j ensures !OccursAt(s, "}}", i) {
      assert s[i] == inner[i - 2];
    }
    forall k | 2 <= k < j ensures s[k] != '\n' {
      assert s[k] == inner[k - 2];
    }
    assert s[j + 2..] == rest;
  }

  /** Text without an opening brace in front is kept by `str.replace` of a
      placeholder. */
  lemma {:induction false} ReplaceAllBraceFreePrefix(x: string, y: string, pat: string, v: string)
    requires pat != [] && pat[0] == '{'
    requires '{' !in x
    ensures ReplaceAll(x + y, pat, v) == x + ReplaceAll(y, pat, v)
    decreases |x|
  {
    if x != [] {
      var s := x + y;
      assert s[0] == x[0] && s[1..] == x[1..] + y;
      ReplaceAllBraceFreePrefix(x[1..], y, pat, v);
      if |s| < |pat| {
        assert ReplaceAll(y, pat, v) == y;
        assert ReplaceAll(x[1..] + y, pat, v) == x[1..] + y;
      } else {
        assert s[..|pat|][0] != pat[0];
        assert ReplaceAll(s, pat, v) == [s[0]] + ReplaceAll(s[1..], pat, v);
      }
      assert [x[0]] + (x[1..] + ReplaceAll(y, pat, v)) == x + ReplaceAll(y, pat, v);
    } else {
      assert x + y == y;
    }
  }

  /** A control tag in front is kept by `str.replace` of a placeholder, which
      opens with two braces. */
  lemma TagKeptByReplace(body: string, y: string, pat: string, v: string)
    requires |pat| >= 2 && pat[0] == '{' && pat[1] == '{'
    requires '{' !in body
    ensures ReplaceAll(Tag(body) + y, pat, v) == Tag(body) + ReplaceAll(y, pat, v)
  {
    var after := "%" + body + "%}";
    assert Tag(body) == ['{'] + after;
    var s := ['{'] + (after + y);
    assert Tag(body) + y == s;
    assert s[0] == '{' && s[1] == '%' && s[1..] == after + y;
    ReplaceAllBraceFreePrefix(after, y, pat, v);
    if |s| < |pat| {
      assert ReplaceAll(y, pat, v) == y;
      assert ReplaceAll(after + y, pat, v) == after + y;
      assert ReplaceAll(s, pat, v) == s;
    } else {
      assert s[..|pat|] != pat by {
        assert s[..|pat|][1] == s[1];
      }
      assert ReplaceAll(s, pat, v) == [s[0]] + ReplaceAll(s[1..], pat, v);
    }
    assert [s[0]] + (after + ReplaceAll(y, pat, v)) == Tag(body) + ReplaceAll(y, pat, v);
  }

  /** A tag body without '%' holds no closing "%}". */
  lemma NoTagEnd(body: string)
    requires '%' !in body
    ensures forall j :: !OccursAt(body, "%}", j)
  {
    forall j ensures !OccursAt(body, "%}", j) {
      if 0 <= j && j + 2 <= |body| {
        assert body[j] in body;
        assert body[j..j + 2][0] == body[j];
      }
    }
  }

  /** Replacing the placeholder of an if/else conditional whose only
      placeholder sits in the `if` branch. */
  lemma ReplaceInConditional(ifTag: string, open: string, pat: string, v: string, close: string,
                             elseTag: string, elsePart: string, endTag: string)
    requires |pat| >= 2 && pat[0] == '{' && pat[1] == '{'
    requires '{' !in ifTag && '{' !in open && '{' !in close
    requires '{' !in elseTag && '{' !in elsePart && '{' !in endTag
    ensures ReplaceAll(Tag(ifTag) + (open + (pat + (close + (Tag(elseTag) + (elsePart + Tag(endTag)))))), pat, v)
      == Tag(ifTag) + ((open + v + close) + (Tag(elseTag) + (elsePart + Tag(endTag))))
  {
    var end := Tag(endTag);
    var tail := elsePart + end;
    var elseTail := Tag(elseTag) + tail;
    var rest := close + elseTail;
    TagKeptByReplace(endTag, [], pat, v);
    assert end + [] == end;
    ReplaceAllBraceFreePrefix(elsePart, end, pat, v);
    TagKeptByReplace(elseTag, tail, pat, v);
    ReplaceAllBraceFreePrefix(close, elseTail, pat, v);
    var withPat := pat + rest;
    assert withPat[..|pat|] == pat && withPat[|pat|..] == rest;
    assert ReplaceAll(withPat, pat, v) == v + rest;
    ReplaceAllBraceFreePrefix(open, withPat, pat, v);
    TagKeptByReplace(ifTag, open + withPat, pat, v);
    assert open + (v + rest) == (open + v + close) + elseTail;
  }

  /** Both clean-ups on a conditional with brace-free branches and tags
      without '%': the branches stay, one after the other. */
  lemma CleanConditional(ifTag: string, thenPart: string, elseTag: string, elsePart: string, endTag: string)
    requires '%' !in ifTag && '%' !in elseTag && '%' !in endTag
    requires '{' !in thenPart && '{' !in elsePart
    ensures StripVars(StripBlocks(Tag(ifTag) + (thenPart + (Tag(elseTag) + (elsePart + Tag(endTag))))))
      == thenPart + elsePart
  {
    NoTagEnd(ifTag);
    NoTagEnd(elseTag);
    NoTagEnd(endTag);
    assert forall k :: 0 <= k < |thenPart| ==> thenPart[k] != '{';
    assert forall k :: 0 <= k < |elsePart| ==> elsePart[k] != '{';
    BothBranchesRemain(ifTag, thenPart, elseTag, elsePart, endTag);
    var shown := thenPart + elsePart;
    assert '{' !in shown;
    assert forall k :: 0 <= k < |shown| ==> shown[k] != '{';
    BraceFreeUnchanged(shown);
  }

  /** The pieces of the radar card hold no template syntax of their own. */
  lemma RadarPiecesPlain()
    ensures Placeholder("radar_b64") == "{{ radar_b64 }}"
    ensures '{' !in RADAR_IF && '{' !in RADAR_ELSE && '{' !in RADAR_ENDIF
    ensures '%' !in RADAR_IF && '%' !in RADAR_ELSE && '%' !in RADAR_ENDIF
    ensures '{' !in RADAR_IMAGE_OPEN && '{' !in RADAR_IMAGE_CLOSE && '{' !in RADAR_MISSING
  {
    RadarImagePlain();
    RadarNoticePlain();
  }

  lemma RadarImagePlain()
    ensures '{' !in RADAR_IMAGE_OPEN && '{' !in RADAR_IMAGE_CLOSE
  {
  }

  lemma RadarNoticePlain()
    ensures '{' !in RADAR_MISSING
  {
  }

  /** The radar card of the degraded page: the placeholder takes the image
      text, "" without an image, and once the tags are cut out the image tag
      and the notice that no score exists both stay, side by side. */
  lemma RadarCardRendered(radar: Option<string>)
    requires '{' !in ValueOrEmpty(radar)
    ensures StripVars(StripBlocks(ReplaceAll(RADAR_BLOCK, Placeholder("radar_b64"), ValueOrEmpty(radar))))
      == RADAR_IMAGE_OPEN + ValueOrEmpty(radar) + RADAR_IMAGE_CLOSE + RADAR_MISSING
  {
    var v := ValueOrEmpty(radar);
    RadarPiecesPlain();
    ReplaceInConditional(RADAR_IF, RADAR_IMAGE_OPEN, Placeholder("radar_b64"), v, RADAR_IMAGE_CLOSE,
                         RADAR_ELSE, RADAR_MISSING, RADAR_ENDIF);
    var thenPart := RADAR_IMAGE_OPEN + v + RADAR_IMAGE_CLOSE;
    assert '{' !in thenPart;
    CleanConditional(RADAR_IF, thenPart, RADAR_ELSE, RADAR_MISSING, RADAR_ENDIF);
  }
}
