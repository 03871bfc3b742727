# Startup analysis report pipeline — a Dafny model

This project models the deterministic part of a pipeline that turns a free
text about a start-up, plus the answer a language model gave about it, into
a structured analysis and then into Markdown and HTML reports. It covers
three source files:

- **analyzer.py** (`StartupAnalyzer`):
  - the four regular-expression extractors of the key elements (company name, founding date, 行业 sector, 价值主张 one-liner);
  - the keyword tokeniser and frequency table, with its stable descending sort;
  - the two-node knowledge graph (Company, Person, FOUNDED_BY);
  - the 500-character source excerpt;
  - `analyze_startup`, with the model's answer, or the error it raised, as an input.
- **report_generator.py**:
  - the radar-axis selection and loop closing;
  - the graph adapter's fallbacks and the Mermaid text;
  - the keyword-cloud top-k selection, normalisation, font sizes and word-wrap layout;
  - the Markdown report with its defaults and optional sections;
  - the HTML report's path without jinja2: placeholder substitution, then removal of the remaining template syntax.
- **startup_analyzer.py** (the earlier pipeline):
  - signal lights and the first-match icon tables;
  - the text bars of the score chart and the truncated overall signal;
  - the one-page Markdown report with its numbered lists;
  - the `{...}` span cut from each model answer before JSON decoding;
  - the same 500-character excerpt.

Modules, one per file:

- `Common`: options and results, character classes, `strip`, `lower`, substring search, number printing, `"\n".join`.
- `Records`: the analysis record, graphs, keywords and citations.
- `Extract`: the regex matchers.
- `Ranking`: the stable descending sort.
- `Keywords`: tokens, counts and weights.
- `Analyzer`: the key elements, the graph and `analyze_startup`.
- `Visuals`: radar, graph adapter, Mermaid and the keyword cloud.
- `ReportMarkdown`, `ReportHtml`: the two reports.
- `Legacy`: startup_analyzer.py.

How the source is represented:

- Plotting libraries and jinja2 appear as boolean capability parameters.
- Images are opaque values that record what was drawn.
- Clocks and the language model are inputs.
- Where the code keeps state in a loop, the model is a method with a loop and invariants, proved equal to a specification function. The properties are then proved about that function. This applies to:
  - the frequency dictionary;
  - the `elements` dictionary;
  - the graph's node and edge lists;
  - the Mermaid `lines` and `node_ids`;
  - the Markdown `md` list;
  - the radar lists;
  - the layout `x`/`y`;
  - the repeated `html = html.replace(...)`;
  - the `report +=` loops.

Where the code and its design description disagree, the model follows the code:

- For "Acme Robotics builds warehouse robots." the company-name regex yields `Acme Robotics`, not `Acme`. The pattern continues across space-separated capitalised words; see `Extract.CompanyNameTwoWords`.
- Only the label 创始人 introduces a founder. No English label is recognised.

## Model

| member | source | states |
|---|---|---|
| Extract.Window | analyzer.py:26 | the searched window is the first 200 characters of the text (all of it when shorter) |
| Extract.CompanyNameSpan | analyzer.py:26 | no span iff no capitalised word `[A-Z][a-z]+` starts in the window; otherwise the span is a name shape, starts at the first capitalised word, and cannot be extended by another space-separated capitalised word (leftmost, greedy) |
| Extract.CompanyName | analyzer.py:26-28 | a name exists iff the span does; it is the text of the span, which ends within the first 200 characters |
| Extract.CompanyNameTwoWords | analyzer.py:26 | "Acme Robotics builds" yields the name "Acme Robotics" |
| Extract.NameEnd | analyzer.py:26 | the greedy `(?:\s+[A-Z][a-z]+)*` extension ends at a name boundary that cannot be extended |
| Extract.DateEndAtIsLongest | analyzer.py:31 | at a given start, the matcher returns a date-shaped span (4 digits, -//年, 1-2 digits, -//月, 1-2 digits, optional 日), and the longest one |
| Extract.FoundedDateIsLeftmostLongest | analyzer.py:31-33 | no founding date iff no date-shaped substring exists; otherwise it is the leftmost such substring, taken at its longest |
| Extract.FirstDate | analyzer.py:31 | the first start position where a date matches, and no match before it |
| Extract.LabelMatchAt | analyzer.py:36 | a label match at i is the label, a colon `：`/`:`, the regex's backtracked `\s*` and a non-empty run of non-newline characters up to the end of the line |
| Extract.LabelMatchAtNone | analyzer.py:36 | no match at i iff the label is absent there or no capture group can start after it |
| Extract.GroupStart | analyzer.py:36 | the capture starts at the last position that `\s*` backtracking allows |
| Extract.FirstLabelMatch | analyzer.py:36 | the first label position that matches, none before it |
| Extract.LabelValue | analyzer.py:36-43 | the value is present iff the label pattern matches; it is the stripped capture of the leftmost match |
| Extract.LabelValueAbsent | analyzer.py:36-38 | the key is missing iff at no position the label is followed by a possible capture |
| Extract.LabelValueLeftmost | analyzer.py:36-43 | the value comes from the leftmost matching label, captured from the latest start `\s*` allows, up to the line end |
| Extract.LabelValueTrimmed | analyzer.py:38 | the stored value has no newline and no surrounding white space, and is empty exactly when only white space follows the colon to the end of the text |
| Analyzer.ExtractKeyElements | analyzer.py:21-45 | the keys are among the four; each key is present with the matcher's value exactly when its matcher matches, and absent otherwise |
| Analyzer.Put | analyzer.py:27-28 | one conditional assignment records the found value, or leaves the key absent, and changes no other key |
| Analyzer.CompanyNameNonEmpty | analyzer.py:84 | a matched name is never empty, so `if company_name:` tests only whether the regex matched |
| Analyzer.BuildGraph | analyzer.py:74-107 | no name: empty graph, even with a founder line; otherwise the company node first, then the Person node and a single FOUNDED_BY edge exactly when a 创始人 line matches; at most 2 nodes and 1 edge, edges between existing node ids, ids distinct |
| Analyzer.SourceText | analyzer.py:125 | text of at most 500 characters is kept; longer text becomes its first 500 characters followed by "..." (503 in all) |
| Analyzer.AnalyzeStartup | analyzer.py:109-141 | a failed model call gives the wrapped error "分析失败: …"; otherwise every field is fixed: the excerpt, the raw answer, the keyword list of the tokens, an empty scoring, the one L1 citation, the key elements and a graph with the properties above |
| Keywords.Runs | analyzer.py:52-54 | runs lie in the text, are in order and do not touch, and each starts on a character of the class |
| Keywords.RunsAreMaximalRuns | analyzer.py:52-54 | a pair is listed iff it is a maximal run of the class |
| Keywords.CjkSpansExact | analyzer.py:52 | the CJK tokens are exactly the maximal runs of U+4E00..U+9FA5 of length at least 2 |
| Keywords.EnglishSpansExact | analyzer.py:54 | the English tokens are exactly the maximal ASCII-letter runs of length at least 3 with `\b` on both sides |
| Keywords.SpansInOrder | analyzer.py:52-54 | both token lists are in text order |
| Keywords.CjkTokenChars | analyzer.py:52 | every CJK token consists of CJK ideographs only |
| Keywords.EnglishTokenChars | analyzer.py:54 | every English token consists of ASCII letters only |
| Keywords.CountedMembers | analyzer.py:61-62 | a token is counted iff it occurs and is neither a stop-word nor a single character |
| Keywords.Distinct | analyzer.py:60-63 | the dictionary's key order has each counted word once, every one of them |
| Keywords.FreqMap | analyzer.py:60-63 | the count of a word is its number of counted occurrences |
| Keywords.CountFrequencies | analyzer.py:60-63 | the loop's dictionary has first-occurrence key order and the occurrence counts of the counted tokens |
| Keywords.MaxFreq | analyzer.py:67 | the maximum count bounds all counts and is attained |
| Keywords.ExtractKeywords | analyzer.py:47-72 | the method returns the keyword list of the tokens of text + " " + response |
| Keywords.KeywordsBounds | analyzer.py:66-72 | at most 20 pairs, and none exactly when no token is counted |
| Keywords.KeywordsTerms | analyzer.py:67-68 | each pair is a counted token with weight count / maximum count |
| Keywords.KeywordsUnit | analyzer.py:68 | every weight lies in (0, 1] |
| Keywords.KeywordsStartAtOne | analyzer.py:67-70 | a non-empty list starts with weight exactly 1.0 |
| Keywords.KeywordsDistinct | analyzer.py:60-70 | no term appears twice |
| Keywords.KeywordsSorted | analyzer.py:69 | weights are non-increasing |
| Keywords.KeywordsTiesInFirstOccurrenceOrder | analyzer.py:68-70 | terms of equal weight keep the dictionary's insertion order |
| Keywords.CountedDisjoint | analyzer.py:52-54 | no word is both a CJK and an English token |
| Keywords.CjkTermsFirst | analyzer.py:61 | insertion order lists all CJK terms, by first occurrence, before all English terms |
| Ranking.SortDescSortedPermutation | analyzer.py:69 | the sort yields a non-increasing permutation of its input |
| Ranking.SortDescStable | analyzer.py:69 | for each weight, the sorted list keeps the items of that weight in input order (stability) |
| Ranking.InsertSorted | analyzer.py:69 | inserting into a sorted list keeps it sorted |
| Ranking.InsertWithWeight | analyzer.py:69 | inserting an earlier item into the sorted rest puts it before the items of its weight, which came after it |
| Ranking.SortedFirstIsOne | analyzer.py:69-70 | when every weight is at most 1 and one equals 1, the sorted list starts with weight 1 |
| Ranking.SortDescMember | report_generator.py:180 | sorting neither adds nor drops an item |
| Visuals.RenderRadar | report_generator.py:67-92 | no figure iff scoring is empty, plotting is unavailable or none of the five axes is present; otherwise the axes in the fixed order with their scores, and the series closed by repeating its first value (n+1 values, last = first) |
| Visuals.AxisLabelsEmpty | report_generator.py:79-87 | the axis list is empty iff none of people, market, traction, moat, financing is a key |
| Visuals.AxesIgnoreOtherKeys | report_generator.py:72-84 | the axes and scores depend only on the five dimension keys: extra keys such as total or confidence change nothing |
| Visuals.AllFiveAxes | report_generator.py:72-84 | with all five keys the axes are 团队, 市场, 牵引力, 护城河, 融资 in that order |
| Visuals.Sanitize | report_generator.py:156 | ids keep their length, every ':' and '-' becomes '_', and every other character is kept |
| Visuals.GraphToMermaid | report_generator.py:151-170 | the loops produce exactly the joined Mermaid lines of the graph |
| Visuals.MermaidNodeLine | report_generator.py:153-159 | line 0 is "graph TD", and line i+1 declares node i with its sanitised id, label (default: the id) and type (default "Node"), id default `n{i}` |
| Visuals.IdTableFacts | report_generator.py:155-156 | an id is in the table iff a node declares it, and it maps to its sanitised form |
| Visuals.EdgeKept | report_generator.py:160-169 | an edge is drawn iff both raw endpoints are declared node ids and non-empty; a dangling edge is dropped |
| Visuals.EdgeLinesAllKept | report_generator.py:160-169 | when every edge is kept, there is one edge line per edge, in order |
| Visuals.ClosedGraphKeepsEdges | report_generator.py:160-169 | in a graph whose edges join existing non-empty ids (as `_build_graph` makes them) no edge is dropped |
| Visuals.RenderGraph | report_generator.py:106-149 | (none, none) iff no nodes and no edges; otherwise the Mermaid text always, and an image exactly when networkx and plotting are available and drawing does not fail |
| Visuals.MinWeight | report_generator.py:184 | the minimum bounds every weight and is attained |
| Visuals.MaxWeight | report_generator.py:184 | the maximum bounds every weight and is attained |
| Visuals.TopKSelection | report_generator.py:180 | the top-k list is sorted, drawn from the keywords, and of length min(topk, n) for non-negative topk |
| Visuals.NormRange | report_generator.py:185 | (w - min) / (max - min + 1e-9) lies in [0, 1) |
| Visuals.NormOfMinimum | report_generator.py:185 | the minimum normalises to 0 |
| Visuals.NormMonotone | report_generator.py:185 | normalisation preserves order |
| Visuals.NormalisedRange | report_generator.py:185 | every normalised value lies in [0, 1) |
| Visuals.NormalisedAllEqual | report_generator.py:185 | with all weights equal every value is 0, with no division by zero |
| Visuals.FontSizeRange | report_generator.py:204 | 8 + int(18 v) lies in [8, 25] for v in [0, 1) |
| Visuals.FontSizeMonotone | report_generator.py:204 | a larger value never gets a smaller font |
| Visuals.LayOutWords | report_generator.py:202-211 | the loop with its wrap and `break` places exactly the words of the layout function from (5, 90) |
| Visuals.LayoutPlacesPrefix | report_generator.py:203-205 | the k-th placement is the k-th word with the font size of its value: the layout places a prefix of the words |
| Visuals.LayoutInBounds | report_generator.py:206-211 | every placement has 5 <= x <= 90 and 10 <= y <= 90 with y a multiple of 10 (so at most 9 rows) |
| Visuals.RenderKeywordCloud | report_generator.py:176-214 | no figure iff plotting is unavailable or the top-k list is empty; otherwise the bars of the top-k list and the layout of its normalised values |
| Visuals.Zip | report_generator.py:203 | pairs each word with its normalised value |
| Visuals.CloudSizesNonIncreasing | report_generator.py:180-204 | font sizes never grow along the layout, since the list is sorted |
| Visuals.DefaultCloudSelection | report_generator.py:176-180 | with the default topk of 30, the report draws min(30, n) keywords |
| Visuals.CloudWordsInRange | report_generator.py:202-211 | every placed word has a font size in [8, 25] and lies within the plotting box |
| Common.StripBounds | report_generator.py:255 | the kept text begins and ends on a non-space, and only white space lies outside it |
| Common.Strip | report_generator.py:255 | `strip()`: a contiguous slice of the input with only white space cut from either end, starting and ending on a non-space, and empty iff the input is all white space |
| Common.FirstTruthy | report_generator.py:226-230 | `m.get(a) or m.get(b) or d`: the first present non-empty value, else the default |
| Common.JoinLinesAppend | report_generator.py:287 | `"\n".join` of a concatenation joins the two parts with one line break |
| Common.NatToStringValue | startup_analyzer.py:473 | the decimal text of a number reads back as the number |
| ReportMarkdown.OrDash | report_generator.py:241-242 | an empty one-liner or description shows as "—", any other value as itself |
| ReportMarkdown.RenderMarkdown | report_generator.py:219-287 | the appends produce exactly the joined sections: head, radar, summary, graph, cloud, sources, footer |
| ReportMarkdown.AppendHead | report_generator.py:225-246 | the title, timestamp and key-element table (14 entries) are appended |
| ReportMarkdown.AppendRadar | report_generator.py:248-251 | the radar section is appended only with a radar image |
| ReportMarkdown.AppendSummary | report_generator.py:253-256 | the summary heading and the stripped answer are appended |
| ReportMarkdown.AppendGraph | report_generator.py:258-267 | the graph heading, then the image, else the mermaid block, else the notice |
| ReportMarkdown.AppendCloud | report_generator.py:269-272 | the keyword section is appended only with a cloud image |
| ReportMarkdown.AppendSources | report_generator.py:274-281 | with citations, the table head and one row per citation, in order; nothing otherwise |
| ReportMarkdown.AppendFooter | report_generator.py:283-286 | the four fixed closing lines |
| ReportMarkdown.MarkdownTitle | report_generator.py:226-233 | the text starts with "# 🚀 创业公司分析报告 · " + name and a line break; the name is company_name when non-empty, else name, else "N/A" |
| ReportMarkdown.MarkdownRadarAndSummary | report_generator.py:248-256 | the radar section follows the head iff there is a radar image; the summary heading and the stripped answer follow it in every case |
| ReportMarkdown.MarkdownGraphSection | report_generator.py:258-267 | the graph section always follows the summary: image, else fenced mermaid, else "> 暂无图谱数据" |
| ReportMarkdown.MarkdownSources | report_generator.py:274-281 | every citation has its row, in order, after the table head; a missing key shows as "—" |
| ReportMarkdown.SourceRowsAt | report_generator.py:279-280 | row j is the row of citation j |
| ReportMarkdown.MarkdownFooter | report_generator.py:283-287 | the fixed footer ends the document; without citations and cloud it comes right after the graph section |
| ReportHtml.FindFrom | report_generator.py:430-431 | the first occurrence of a pattern at or after a position, with none before it |
| ReportHtml.ReplaceAllLeftmost | report_generator.py:427 | `str.replace` replaces the leftmost occurrence, keeps the text before it, and resumes after it |
| ReportHtml.ReplaceAllAbsent | report_generator.py:427 | replacing an absent placeholder changes nothing |
| ReportHtml.HtmlContext | report_generator.py:399-420 | the 13 keys in insertion order; the title is "创业公司分析报告 · " + the name; name, founding date and sector use the same fallbacks as the Markdown report; an empty one-liner or description becomes "—"; an absent image or diagram becomes "" |
| ReportHtml.SubstituteLoop | report_generator.py:426-427 | the loop performs the replacements in context order |
| ReportHtml.RenderHtmlDegraded | report_generator.py:424-432 | the page is the template with every placeholder replaced in context order, then `{%…%}` blocks removed, then single-line `{{…}}` removed |
| ReportHtml.BraceFreeUnchanged | report_generator.py:430-431 | text without '{' passes both clean-ups unchanged |
| ReportHtml.PlainPrefixKept | report_generator.py:430-431 | brace-free text in front is kept by both clean-ups |
| ReportHtml.ReplaceAllBraceFreePrefix | report_generator.py:427 | text without '{' in front of the rest is kept by a placeholder replacement |
| ReportHtml.TagKeptByReplace | report_generator.py:427 | a `{% … %}` tag in front is kept by a placeholder replacement |
| ReportHtml.TagRemoved | report_generator.py:430 | a `{% … %}` tag is removed whole |
| ReportHtml.BothBranchesRemain | report_generator.py:430 | after removing the tags of an if/else/endif, both branches remain in the page |
| ReportHtml.InsertedPlaceholderRemoved | report_generator.py:431 | template syntax inside an inserted value is also removed, because stripping runs after substitution |
| ReportHtml.ReplaceInConditional | report_generator.py:427 | replacing the placeholder of an if/else conditional puts the value into the `if` branch and leaves the tags and the `else` branch as they are |
| ReportHtml.CleanConditional | report_generator.py:430-431 | both clean-ups on a conditional with plain branches leave the two branches, one after the other |
| ReportHtml.RadarCardRendered | report_generator.py:329-333 | in the template's own radar card, the degraded page shows the image tag with the radar text ("" without one) and the notice 暂无评分或依赖缺失 side by side |
| Legacy.SignalLight | startup_analyzer.py:361-368 | 🟢 iff score >= 8, 🟡 iff 6 <= score < 8, 🔴 iff score < 6 |
| Legacy.SignalLightMonotone | startup_analyzer.py:363-368 | a higher score never shows a worse light |
| Legacy.LookupIcon | startup_analyzer.py:382-385 | the early-return loop returns the icon of the first table keyword contained in the text, else the default |
| Legacy.IconForFirstMatch | startup_analyzer.py:371-401 | the icon is that of the earliest keyword, in dictionary order, that occurs in the text |
| Legacy.IconForNoMatch | startup_analyzer.py:382-401 | with no keyword present the default (⚠️ or ✨) is returned |
| Legacy.MarketBeforeCompetition | startup_analyzer.py:373-381 | a risk mentioning 市场 but neither 监管 nor 技术 gets 📊, whatever else it mentions (e.g. 竞争) |
| Legacy.BarShape | startup_analyzer.py:410-414 | for 0 <= n <= 10 the bar is n '█' then 10-n '░', width 10 |
| Legacy.BarOverfull | startup_analyzer.py:410-414 | for n > 10 the '░' part is empty and the bar has n cells |
| Legacy.TruncDiv | startup_analyzer.py:438 | `int(x / d)` rounds toward zero |
| Legacy.OverallSignalBands | startup_analyzer.py:429-438 | the overall light is 🟢 iff the total is at least 40, 🟡 iff 30..39, 🔴 below 30 |
| Legacy.AverageOfSevenPointEightIsYellow | startup_analyzer.py:438 | scores 8, 8, 8, 8, 7 (average 7.8) give 🟡, not 🟢 |
| Legacy.AverageTextValue | startup_analyzer.py:442 | `{avg:.1f}` for any integer total: a "-" exactly when the total is negative, then integer digits, a point and one decimal digit, denoting exactly total / 5 |
| Legacy.GenerateMarkdown | startup_analyzer.py:425-544 | the `+=` construction with its three loops yields exactly the report function |
| Legacy.AppendFounders | startup_analyzer.py:472-479 | the founders loop appends the blocks numbered from 1 in list order |
| Legacy.AppendNumbered | startup_analyzer.py:520-527 | the risk and catalyst loops append "{i}. {icon} {item}" lines numbered from 1, with the looked-up icon |
| Legacy.NumberedLinesPrefix | startup_analyzer.py:520-527 | appending items never renumbers or changes the earlier lines |
| Legacy.NumberedLineAt | startup_analyzer.py:520-522 | item k is line k+1, after the lines of the items before it, with the icon of its first keyword |
| Legacy.LegacyReportTitle | startup_analyzer.py:440 | the report starts with "# " + company name + " - 创业公司分析报告" |
| Legacy.FirstIndex | startup_analyzer.py:155 | the first position of a character, none before it |
| Legacy.LastIndex | startup_analyzer.py:155 | the last position of a character, none after it |
| Legacy.JsonCandidateNone | startup_analyzer.py:155-160 | no candidate iff no '{' is followed anywhere by a '}' |
| Legacy.JsonCandidateSpan | startup_analyzer.py:155-157 | the candidate runs from the first '{' to the last '}' |
| Legacy.JsonStep | startup_analyzer.py:155-162 | failure iff there is no candidate, with the error "<step message>: 无法解析JSON响应"; on success the text passed on is exactly the candidate, the span from the first '{' to the last '}' |
| Legacy.MessagesDiffer | startup_analyzer.py:162-321 | the five step messages are pairwise different |
| Legacy.FailureNamesStep | startup_analyzer.py:155-162 | without a candidate, two steps fail with the same error only when they are the same step |

## Left out

- The language-model call (analyzer.py:115, startup_analyzer.py:101-113, llm_client.py): network I/O. Its outcome is an input to `Analyzer.AnalyzeStartup`. The call at analyzer.py:115 passes a `stream=` argument that the client's `call_llm` does not accept. So the real pipeline always ends in the wrapped "分析失败" error, which the model covers as the `Failure` input.
- `datetime.now()` readings: they are inputs (`extractedAt`, `capturedAt`).
- Python's `\s`, `\b`/`\w` and `str.lower()`: modelled by explicit character predicates. These cover ASCII, the Unicode spaces and the Latin and CJK letters; `lower` folds ASCII only.
- Drawing and encoding (matplotlib, numpy angles, networkx `spring_layout`, `_fig_to_base64`): foreign and floating point. Images are opaque values recording what would be drawn, and drawing failure is a boolean input to `Visuals.RenderGraph`.
- jinja2's `Template(...).render` (report_generator.py:422): a foreign template engine. Only the path without jinja2 is modelled.
- `str(ana.sources)` in the HTML context: Python's printed form of a list of dictionaries. It is the `sourcesText` parameter of `ReportHtml.RenderHtmlDegraded`.
- `ReportGeneratorPro` (report_generator.py:437-486): orchestration and file writes. `_prepare_visuals` calls an undefined `_auto_keywords` when the keyword list is empty, so it raises there.
- `save_report`, `main`, `print`: file and console I/O.
- Decoding JSON and building dataclasses from it (`json.loads`, `CompanyInfo(**data)`): foreign decoding. `Legacy.JsonStep` stops at the candidate text.
- The earlier `analyze_startup` (startup_analyzer.py:323-355): orchestration of five model calls. Only its excerpt, `Analyzer.SourceText`, is modelled (startup_analyzer.py:354).
- Floating-point weights: weights, normalisation and font sizes use exact reals. Where a float division could round differently the model does not follow it. Font sizes use `Floor` of the exact value.
- Keywords.ExtractKeywords: the in-place `keywords.sort` is modelled on values, as a stable insertion sort proved sorted, a permutation and stable; the list is not mutated in place.
- Analyzer.SourceText: stated as "short text is kept, long text is cut", not as an if-and-only-if. A 503-character text ending in "..." is also mapped to itself.
- Visuals.GraphToMermaid: the sanitised ids of two distinct raw ids can coincide (for example "a:b" and "a-b"). The model reproduces this and proves no uniqueness.
- HTML escaping: not modelled, because the degraded path does none.
- ReportHtml.RadarCardRendered: proved for the radar card after its own placeholder replacement. The whole page is not shown to decompose card by card, because a value inserted earlier, such as the model's answer, may itself contain another key's placeholder.
