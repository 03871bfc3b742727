/** The helpers of the earlier report pipeline in startup_analyzer.py: the
    signal lights, the first-match icon lookups, the text bars of the score
    chart, the truncated overall signal, the one-page Markdown report with
    its numbered lists, and the `{...}` span cut out of each model answer
    before it is decoded as JSON. */
module Legacy {
  import opened Common

  // ===========================================================================
  // The records of the earlier pipeline (startup_analyzer.py:22-86)
  // ===========================================================================

  datatype CompanyInfo = CompanyInfo(
    name: string, foundedDate: string, website: string, industry: string, description: string,
    valueProposition: string, productDescription: string, storyLine: string)

  datatype FounderInfo = FounderInfo(
    name: string, education: string, keyExperience: string, personalStory: string, visionQuote: string)

  datatype FundingInfo = FundingInfo(latestRound: string, fundingDate: string, amount: string, investors: string)

  datatype MarketInfo = MarketInfo(
    targetCustomers: string, competitors: string, marketTrend: string, growthRate: string, marketSize: string)

  datatype InvestmentScore = InvestmentScore(
    teamStrength: int, marketPotential: int, productInnovation: int, competitiveAdvantage: int, executionAbility: int)

  datatype AnalysisInfo = AnalysisInfo(
    investmentView: string, coreRisks: seq<string>, catalysts: seq<string>,
    investmentScore: InvestmentScore, keyInsight: string)

  /** The analysis as `analyze_startup` of startup_analyzer.py fills it: all
      five parts present. */
  datatype LegacyAnalysis = LegacyAnalysis(
    company: CompanyInfo, founders: seq<FounderInfo>, funding: FundingInfo, market: MarketInfo,
    analysis: AnalysisInfo, extractedAt: string, sourceText: string)

  // ===========================================================================
  // Signal lights (startup_analyzer.py:361-368)
  // ===========================================================================

  const GREEN := "🟢"
  const YELLOW := "🟡"
  const RED := "🔴"

  function SignalLight(score: int): (light: string)
    ensures light == GREEN <==> score >= 8
    ensures light == YELLOW <==> 6 <= score < 8
    ensures light == RED <==> score < 6
  {
    assert GREEN[0] != YELLOW[0] && GREEN[0] != RED[0] && YELLOW[0] != RED[0];
    if score >= 8 then GREEN else if score >= 6 then YELLOW else RED
  }

  /** The lights in order of merit. */
  function LightRank(light: string): int {
    if light == GREEN then 2 else if light == YELLOW then 1 else 0
  }

  /** A higher score never shows a worse light. */
  lemma SignalLightMonotone(a: int, b: int)
    requires a <= b
    ensures LightRank(SignalLight(a)) <= LightRank(SignalLight(b))
  {
  }

  // ===========================================================================
  // Icon lookups (startup_analyzer.py:371-401)
  // ===========================================================================

  /** The keyword → icon tables, in dictionary order. */
  const RISK_ICONS: seq<(string, string)> := [("监管", "📋"), ("技术", "⚙️"), ("市场", "📊"), ("竞争", "🏆"), ("团队", "👥"), ("资金", "💰"), ("执行", "🎯")]
  const RISK_DEFAULT := "⚠️"
  const CATALYST_ICONS: seq<(string, string)> := [("技术", "🚀"), ("市场", "📈"), ("合作", "🤝"), ("融资", "💰"), ("政策", "📋"), ("人才", "👨‍💼")]
  const CATALYST_DEFAULT := "✨"

  /** The icon of the first keyword of `table` that occurs in `text`. */
  function IconFor(table: seq<(string, string)>, text: string, default: string): string {
    if table == [] then default
    else if Contains(text, table[0].0) then table[0].1
    else IconFor(table[1..], text, default)
  }

  /** The loop of `get_risk_icon` and `get_catalyst_icon`: return on the
      first keyword found, else the default. */
  method LookupIcon(table: seq<(string, string)>, text: string, default: string) returns (icon: string)
    ensures icon == IconFor(table, text, default)
  {
    for i := 0 to |table|
      invariant IconFor(table[i..], text, default) == IconFor(table, text, default)
    {
      var (key, keyIcon) := table[i];
      assert table[i..][1..] == table[i + 1..];
      if Contains(text, key) {
        return keyIcon;
      }
    }
    return default;
  }

  /** The icon is that of the earliest keyword present. */
  lemma {:induction false} IconForFirstMatch(table: seq<(string, string)>, text: string, default: string, k: nat)
    requires k < |table| && Contains(text, table[k].0)
    requires forall m :: 0 <= m < k ==> !Contains(text, table[m].0)
    ensures IconFor(table, text, default) == table[k].1
    decreases k
  {
    if k > 0 {
      assert !Contains(text, table[0].0);
      IconForFirstMatch(table[1..], text, default, k - 1);
    }
  }

  /** Without any keyword present the icon is the default. */
  lemma {:induction false} IconForNoMatch(table: seq<(string, string)>, text: string, default: string)
    requires forall m :: 0 <= m < |table| ==> !Contains(text, table[m].0)
    ensures IconFor(table, text, default) == default
    decreases |table|
  {
    if table != [] {
      assert !Contains(text, table[0].0);
      IconForNoMatch(table[1..], text, default);
    }
  }

  /** Dictionary order decides between two keywords: a risk naming both the
      market and the competition (市场, 竞争) gets the market icon. */
  lemma MarketBeforeCompetition(text: string)
    requires Contains(text, "市场") && !Contains(text, "监管") && !Contains(text, "技术")
    ensures IconFor(RISK_ICONS, text, RISK_DEFAULT) == "📊"
  {
    IconForFirstMatch(RISK_ICONS, text, RISK_DEFAULT, 2);
  }

  // ===========================================================================
  // The text score chart (startup_analyzer.py:404-419)
  // ===========================================================================

  const BAR_WIDTH: int := 10

  /** `'█' * n + '░' * (10 - n)`. */
  function Bar(n: int): string {
    Repeat('█', n) + Repeat('░', BAR_WIDTH - n)
  }

  /** For a score from 0 to 10 the bar is n full cells then empty ones, ten in all. */
  lemma BarShape(n: int)
    requires 0 <= n <= BAR_WIDTH
    ensures |Bar(n)| == BAR_WIDTH
    ensures forall k :: 0 <= k < n ==> Bar(n)[k] == '█'
    ensures forall k :: n <= k < BAR_WIDTH ==> Bar(n)[k] == '░'
  {
  }

  /** Above 10 the empty part vanishes and the bar grows past ten cells. */
  lemma BarOverfull(n: int)
    requires n > BAR_WIDTH
    ensures Bar(n) == Repeat('█', n) && |Bar(n)| == n
  {
    assert Repeat('░', BAR_WIDTH - n) == [];
  }

  /** One row of the chart: label, bar, score out of 10 and light. */
  function ScoreLine(caption: string, n: int): string {
    caption + Bar(n) + " " + IntToString(n) + "/10 " + SignalLight(n)
  }

  function RadarChartMarkdown(s: InvestmentScore): string {
    "\n"
    + "### 📊 投资评分雷达图\n"
    + "\n"
    + "```\n"
    + ScoreLine("团队实力:     ", s.teamStrength) + "\n"
    + ScoreLine("市场潜力:     ", s.marketPotential) + "\n"
    + ScoreLine("产品创新:     ", s.productInnovation) + "\n"
    + ScoreLine("竞争优势:     ", s.competitiveAdvantage) + "\n"
    + ScoreLine("执行能力:     ", s.executionAbility) + "\n"
    + "```\n"
    + "\n"
    + "**图例**: █ 得分 | ░ 满分 | 🟢 优秀 | 🟡 良好 | 🔴 需关注\n"
  }

  // ===========================================================================
  // The overall signal and the average (startup_analyzer.py:429-442)
  // ===========================================================================

  function ScoreSum(s: InvestmentScore): int {
    s.teamStrength + s.marketPotential + s.productInnovation + s.competitiveAdvantage + s.executionAbility
  }

  /** Python's `int(x / d)`: the quotient rounded toward zero. */
  function TruncDiv(x: int, d: int): (q: int)
    requires d > 0
    ensures x >= 0 ==> q * d <= x < q * d + d
    ensures x < 0 ==> q * d - d < x <= q * d
  {
    if x >= 0 then x / d else -((-x) / d)
  }

  /** `get_signal_light(int(avg_score))`. The five scores are integers, so
      their average is a multiple of 0.2 and the float division cannot push
      it across an integer: truncating the exact quotient is what Python
      computes. */
  function OverallSignal(s: InvestmentScore): string {
    SignalLight(TruncDiv(ScoreSum(s), 5))
  }

  /** The overall light depends on the total only: green from 40, yellow
      from 30, red below. */
  lemma OverallSignalBands(s: InvestmentScore)
    ensures OverallSignal(s) == GREEN <==> ScoreSum(s) >= 40
    ensures OverallSignal(s) == YELLOW <==> 30 <= ScoreSum(s) < 40
    ensures OverallSignal(s) == RED <==> ScoreSum(s) < 30
  {
    var q := TruncDiv(ScoreSum(s), 5);
    if ScoreSum(s) >= 0 {
      assert q * 5 <= ScoreSum(s) < q * 5 + 5;
    }
  }

  /** Truncation, not rounding: an average of 7.8 shows yellow. */
  lemma AverageOfSevenPointEightIsYellow()
    ensures OverallSignal(InvestmentScore(8, 8, 8, 8, 7)) == YELLOW
  {
    OverallSignalBands(InvestmentScore(8, 8, 8, 8, 7));
  }

  /** `f"{sum / 5:.1f}"` for an integer sum: a fifth has one decimal, so the
      text is exact. */
  function AverageText(sum: int): string {
    if sum >= 0 then NatToString(sum / 5) + "." + [DigitChar(sum % 5 * 2)]
    else "-" + NatToString(-sum / 5) + "." + [DigitChar(-sum % 5 * 2)]
  }

  /** The digits of the average text, read back, are twice the size of the
      sum, behind a "-" exactly when the sum is negative: the text denotes
      sum / 5 exactly. */
  lemma AverageTextValue(sum: int)
    ensures
      var t := AverageText(sum);
      var m := if sum < 0 then -sum else sum;
      var w := NatToString(m / 5);
      && t == (if sum < 0 then "-" else "") + w + "." + [t[|t| - 1]]
      && IsAsciiDigit(t[|t| - 1])
      && 10 * DigitsValue(w) + (t[|t| - 1] as int - '0' as int) == 2 * m
  {
    var m := if sum < 0 then -sum else sum;
    NatToStringValue(m / 5);
  }

  // ===========================================================================
  // The one-page report (startup_analyzer.py:425-544)
  // ===========================================================================

  /** The title line of the report. */
  function Title(name: string): string {
    "# " + name + " - 创业公司分析报告\n"
  }

  function Header(a: LegacyAnalysis): string {
    Title(a.company.name) + Overview(a)
  }

  /** The overall signal, the story line, the company table and the team heading. */
  function Overview(a: LegacyAnalysis): string {
    "\n"
    + "**生成时间**: " + a.extractedAt + " | **总体评分**: " + OverallSignal(a.analysis.investmentScore) + " " + AverageText(ScoreSum(a.analysis.investmentScore)) + "/10\n"
    + "\n"
    + "---\n"
    + "\n"
    + "## 🎬 创业故事线\n"
    + "\n"
    + "> **\"" + a.company.storyLine + "\"**\n"
    + "\n"
    + "---\n"
    + "\n"
    + "## 📋 公司概览\n"
    + "\n"
    + "| 项目 | 内容 |\n"
    + "|------|------|\n"
    + "| **公司名称** | " + a.company.name + " |\n"
    + "| **成立日期** | " + a.company.foundedDate + " |\n"
    + "| **官网/域名** | " + a.company.website + " |\n"
    + "| **行业/赛道** | " + a.company.industry + " |\n"
    + "| **价值主张** | " + a.company.valueProposition + " |\n"
    + "\n"
    + "**公司简介**: " + a.company.description + "\n"
    + "\n"
    + "**产品/服务**: " + a.company.productDescription + "\n"
    + "\n"
    + "---\n"
    + "\n"
    + "## 👥 创始团队\n"
    + "\n"
  }

  function FounderBlock(i: nat, f: FounderInfo): string {
    "### 创始人 " + NatToString(i) + ": " + f.name + "\n"
    + "- **教育背景**: " + f.education + "\n"
    + "- **关键经历**: " + f.keyExperience + "\n"
    + "- **个人故事**: " + f.personalStory + "\n"
    + "- **愿景名言**: " + f.visionQuote + "\n"
    + "\n"
  }

  /** The founder blocks, numbered 1, 2, ... in list order. */
  function FounderBlocks(founders: seq<FounderInfo>): string {
    if founders == [] then ""
    else FounderBlocks(founders[..|founders| - 1]) + FounderBlock(|founders|, founders[|founders| - 1])
  }

  function Middle(a: LegacyAnalysis): string {
    "---\n"
    + "\n"
    + "## 💰 融资信息\n"
    + "\n"
    + "| 项目 | 内容 |\n"
    + "|------|------|\n"
    + "| **最近轮次** | " + a.funding.latestRound + " |\n"
    + "| **融资日期** | " + a.funding.fundingDate + " |\n"
    + "| **金额** | " + a.funding.amount + " |\n"
    + "| **投资方** | " + a.funding.investors + " |\n"
    + "\n"
    + "---\n"
    + "\n"
    + "## 📊 市场与竞争\n"
    + "\n"
    + "**主要目标客户**: " + a.market.targetCustomers + "\n"
    + "\n"
    + "**主要竞品**: " + a.market.competitors + "\n"
    + "\n"
    + "### 📈 市场趋势\n"
    + "**" + a.market.marketTrend + "**\n"
    + "\n"
    + "**市场增长率**: " + a.market.growthRate + " | **市场规模**: " + a.market.marketSize + "\n"
    + "\n"
    + "---\n"
    + "\n"
    + "## 🎯 投资分析\n"
    + "\n"
    + "### 核心洞察\n"
    + "> **\"" + a.analysis.keyInsight + "\"**\n"
    + "\n"
    + "### 投资观点\n"
    + "**" + a.analysis.investmentView + "**\n"
    + "\n"
    + RadarChartMarkdown(a.analysis.investmentScore) + "\n"
    + "\n"
    + "### ⚠️ 核心风险\n"
  }

  /** `f"{i}. {icon} {item}\n"`. */
  function NumberedLine(i: nat, icon: string, item: string): string {
    NatToString(i) + ". " + icon + " " + item + "\n"
  }

  /** The numbered list of `items`, each with the icon of its first keyword. */
  function NumberedLines(items: seq<string>, table: seq<(string, string)>, default: string): string {
    if items == [] then ""
    else
      var last := items[|items| - 1];
      NumberedLines(items[..|items| - 1], table, default) + NumberedLine(|items|, IconFor(table, last, default), last)
  }

  const CATALYST_HEADING := "\n### 🚀 潜在催化因素\n"

  function Footer(a: LegacyAnalysis): string {
    "\n"
    + "\n"
    + "---\n"
    + "\n"
    + "## 📝 数据来源\n"
    + "\n"
    + "- **分析时间**: " + a.extractedAt + "\n"
    + "- **数据来源**: 公开文本信息\n"
    + "- **分析方法**: AI 辅助分析\n"
    + "\n"
    + "---\n"
    + "\n"
    + "*本报告基于公开信息生成，仅供参考，不构成投资建议。*\n"
  }

  /** The whole report, the three numbered parts between the fixed ones. */
  function LegacyReport(a: LegacyAnalysis): string {
    Header(a) + FounderBlocks(a.founders) + Middle(a)
    + NumberedLines(a.analysis.coreRisks, RISK_ICONS, RISK_DEFAULT)
    + CATALYST_HEADING
    + NumberedLines(a.analysis.catalysts, CATALYST_ICONS, CATALYST_DEFAULT)
    + Footer(a)
  }

  /** `generate_markdown`: the fixed parts with `+=`, and three numbered
      loops over the founders, the risks and the catalysts. */
  method GenerateMarkdown(a: LegacyAnalysis) returns (report: string)
    ensures report == LegacyReport(a)
  {
    report := Header(a);
    report := AppendFounders(report, a.founders);
    report := report + Middle(a);
    report := AppendNumbered(report, a.analysis.coreRisks, RISK_ICONS, RISK_DEFAULT);
    report := report + CATALYST_HEADING;
    report := AppendNumbered(report, a.analysis.catalysts, CATALYST_ICONS, CATALYST_DEFAULT);
    report := report + Footer(a);
  }

  /** The loop `for i, founder in enumerate(analysis.founders, 1)`. */
  method AppendFounders(report0: string, founders: seq<FounderInfo>) returns (report: string)
    ensures report == report0 + FounderBlocks(founders)
  {
    report := report0;
    for i := 0 to |founders|
      invariant report == report0 + FounderBlocks(founders[..i])
    {
      assert founders[..i + 1][..i] == founders[..i];
      report := report + FounderBlock(i + 1, founders[i]);
    }
    assert founders[..|founders|] == founders;
  }

  /** The loops over the risks and the catalysts: one numbered line per
      item, its icon looked up in `table`. */
  method AppendNumbered(report0: string, items: seq<string>, table: seq<(string, string)>, default: string)
    returns (report: string)
    ensures report == report0 + NumberedLines(items, table, default)
  {
    report := report0;
    for i := 0 to |items|
      invariant report == report0 + NumberedLines(items[..i], table, default)
    {
      var icon := LookupIcon(table, items[i], default);
      assert items[..i + 1][..i] == items[..i];
      report := report + NumberedLine(i + 1, icon, items[i]);
    }
    assert items[..|items|] == items;
  }

  /** Appending items never renumbers the earlier ones. */
  lemma {:induction false} NumberedLinesPrefix(items: seq<string>, table: seq<(string, string)>, default: string, k: nat)
    requires k <= |items|
    ensures NumberedLines(items[..k], table, default) <= NumberedLines(items, table, default)
    decreases |items| - k
  {
    if k < |items| {
      var longer := items[..k + 1];
      assert longer[..k] == items[..k];
      NumberedLinesPrefix(items, table, default, k + 1);
      assert NumberedLines(longer, table, default)
          == NumberedLines(items[..k], table, default) + NumberedLine(k + 1, IconFor(table, items[k], default), items[k]);
    } else {
      assert items[..k] == items;
    }
  }

  /** Item k of the list is line number k + 1, right after the lines of the
      items before it, with the icon of its first keyword. */
  lemma NumberedLineAt(items: seq<string>, table: seq<(string, string)>, default: string, k: nat)
    requires k < |items|
    ensures NumberedLines(items[..k], table, default) + NumberedLine(k + 1, IconFor(table, items[k], default), items[k])
            <= NumberedLines(items, table, default)
  {
    var longer := items[..k + 1];
    assert longer[..k] == items[..k];
    NumberedLinesPrefix(items, table, default, k + 1);
  }

  /** The first part of a concatenation of eight is a prefix of it. */
  lemma FirstOfEight(p: string, s1: string, s2: string, s3: string, s4: string, s5: string, s6: string, s7: string)
    ensures p <= p + s1 + s2 + s3 + s4 + s5 + s6 + s7
  {
    assert (p + s1 + s2 + s3 + s4 + s5 + s6 + s7)[..|p|] == p;
  }

  /** The report opens with the company name as its title. */
  lemma LegacyReportTitle(a: LegacyAnalysis)
    ensures Title(a.company.name) <= LegacyReport(a)
  {
    FirstOfEight(Title(a.company.name), Overview(a), FounderBlocks(a.founders), Middle(a),
      NumberedLines(a.analysis.coreRisks, RISK_ICONS, RISK_DEFAULT), CATALYST_HEADING,
      NumberedLines(a.analysis.catalysts, CATALYST_ICONS, CATALYST_DEFAULT), Footer(a));
  }

  // ===========================================================================
  // The JSON span (startup_analyzer.py:155-162 and the four like it)
  // ===========================================================================

  /** The five `extract_*` steps that ask for JSON. */
  datatype Step = CompanyStep | FoundersStep | FundingStep | MarketStep | AnalysisStep

  /** The messages each step wraps its failure in. */
  const COMPANY_FAILURE := "解析公司信息失败"
  const FOUNDERS_FAILURE := "解析创始人信息失败"
  const FUNDING_FAILURE := "解析融资信息失败"
  const MARKET_FAILURE := "解析市场信息失败"
  const ANALYSIS_FAILURE := "生成分析失败"
  const NO_JSON := "无法解析JSON响应"

  function FailureMessage(step: Step): string {
    match step
    case CompanyStep => COMPANY_FAILURE
    case FoundersStep => FOUNDERS_FAILURE
    case FundingStep => FUNDING_FAILURE
    case MarketStep => MARKET_FAILURE
    case AnalysisStep => ANALYSIS_FAILURE
  }

  function FirstIndex(s: string, c: char): (r: Option<nat>)
    ensures r.Some? ==> r.value < |s| && s[r.value] == c && forall k :: 0 <= k < r.value ==> s[k] != c
    ensures r.None? ==> forall k :: 0 <= k < |s| ==> s[k] != c
  {
    if s == [] then None
    else if s[0] == c then Some(0)
    else match FirstIndex(s[1..], c)
      case Some(i) => Some(i + 1)
      case None => None
  }

  function LastIndex(s: string, c: char): (r: Option<nat>)
    ensures r.Some? ==> r.value < |s| && s[r.value] == c && forall k :: r.value < k < |s| ==> s[k] != c
    ensures r.None? ==> forall k :: 0 <= k < |s| ==> s[k] != c
  {
    if s == [] then None
    else if s[|s| - 1] == c then Some(|s| - 1)
    else LastIndex(s[..|s| - 1], c)
  }

  /** `re.search(r'\{.*\}', response, re.DOTALL)`: the greedy match runs
      from the first `{` to the last `}`. */
  function JsonCandidate(response: string): Option<string> {
    var i, j := FirstIndex(response, '{'), LastIndex(response, '}');
    if i.Some? && j.Some? && i.value < j.value then Some(response[i.value..j.value + 1]) else None
  }

  /** There is no candidate exactly when no `{` is followed by a `}`. */
  lemma JsonCandidateNone(response: string)
    ensures JsonCandidate(response).None? <==>
      forall i, j :: 0 <= i < j < |response| && response[i] == '{' ==> response[j] != '}'
  {
  }

  /** A candidate begins at the first `{` and ends at the last `}`. */
  lemma JsonCandidateSpan(response: string, i: nat, j: nat)
    requires i < j < |response| && response[i] == '{' && response[j] == '}'
    requires forall k :: 0 <= k < i ==> response[k] != '{'
    requires forall k :: j < k < |response| ==> response[k] != '}'
    ensures JsonCandidate(response) == Some(response[i..j + 1])
  {
  }

  /** The step before `json.loads` in each `extract_*` method: the candidate,
      or the wrapped error when there is none. */
  function JsonStep(step: Step, response: string): (r: Result<string, string>)
    ensures r.Failure? <==> JsonCandidate(response).None?
    ensures r.Failure? ==> r.error == FailureMessage(step) + ": " + NO_JSON
    ensures r.Success? ==> JsonCandidate(response) == Some(r.value)
    ensures r.Success? ==> |r.value| >= 2 && r.value[0] == '{' && r.value[|r.value| - 1] == '}'
  {
    match JsonCandidate(response)
    case Some(candidate) => Success(candidate)
    case None => Failure(FailureMessage(step) + ": " + NO_JSON)
  }

  /** No two steps share a message: they differ in length or in their third
      character. */
  lemma MessagesDiffer(s1: Step, s2: Step)
    requires s1 != s2
    ensures |FailureMessage(s1)| >= 3 && |FailureMessage(s2)| >= 3
    ensures |FailureMessage(s1)| != |FailureMessage(s2)| || FailureMessage(s1)[2] != FailureMessage(s2)[2]
  {
  }

  /** The error names the step that failed: two steps fail with the same
      text only when they are the same step. */
  lemma FailureNamesStep(s1: Step, s2: Step, response: string)
    requires JsonCandidate(response).None?
    ensures JsonStep(s1, response) == JsonStep(s2, response) <==> s1 == s2
  {
    if s1 != s2 {
      var e1, e2 := FailureMessage(s1) + ": " + NO_JSON, FailureMessage(s2) + ": " + NO_JSON;
      MessagesDiffer(s1, s2);
      assert e1[..|FailureMessage(s1)|] == FailureMessage(s1);
      assert e2[..|FailureMessage(s2)|] == FailureMessage(s2);
      if |FailureMessage(s1)| == |FailureMessage(s2)| {
        assert e1 != e2;
      }
    }
  }
}
