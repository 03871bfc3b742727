/** The regular-expression matchers of analyzer.py, written as scanners over
    the text together with a position-level description of what each pattern
    accepts, and the proof that each scanner returns the match Python's
    `re.search` returns: the leftmost one, as long as the greedy quantifiers
    make it.

    - company name: `([A-Z][a-z]+(?:\s+[A-Z][a-z]+)*)` in `text[:200]`
    - founded date: `([0-9]{4}[-/年][0-9]{1,2}[-/月][0-9]{1,2}[日]?)`
    - labelled line: `<tag>[：:]\s*([^\n]+)`, then `.strip()` */
module Extract {
  import opened Common

  /** Only `text[:200]` is searched for a company name. */
  const NAME_WINDOW: nat := 200

  const SECTOR_LABEL := "行业"
  const VALUE_LABEL := "价值主张"
  const FOUNDER_LABEL := "创始人"

  // ===========================================================================
  // Company name
  // ===========================================================================

  function Window(text: string): (w: string)
    ensures |w| <= NAME_WINDOW && |w| <= |text| && w == text[..|w|]
    ensures |text| <= NAME_WINDOW ==> w == text
  {
    SliceTo(text, NAME_WINDOW)
  }

  /** `[A-Z][a-z]` matches at `i`: a capitalised word can start here. */
  predicate CapWordAt(s: string, i: int) {
    0 <= i && i + 1 < |s| && IsAsciiUpper(s[i]) && IsAsciiLower(s[i + 1])
  }

  /** One more round of `(?:\s+[A-Z][a-z]+)` can be taken after position `j`. */
  predicate Extendable(s: string, j: nat)
    requires j <= |s|
  {
    var k := RunEnd(s, j, IsSpace);
    k > j && CapWordAt(s, k)
  }

  /** `s[i..e]` belongs to the language of the name pattern: capitalised ASCII
      words separated by runs of white space. Stated character by character:
      it starts upper-case and ends lower-case, holds only letters and spaces,
      every upper-case letter starts a word (is first or follows a space) and
      is followed by a lower-case letter, every lower-case letter follows a
      letter, and every run of spaces is followed by an upper-case letter. */
  ghost predicate NameSpan(s: string, i: int, e: int) {
    && 0 <= i < e <= |s|
    && IsAsciiUpper(s[i]) && IsAsciiLower(s[e - 1])
    && LettersOrSpaces(s, i, e)
    && UppersStartWords(s, i, e)
    && UppersThenLower(s, i, e)
    && LowersAfterLetters(s, i, e)
    && SpacesThenUpper(s, i, e)
  }

  ghost predicate LettersOrSpaces(s: string, i: int, e: int)
    requires 0 <= i <= e <= |s|
  {
    forall k :: i <= k < e ==> IsAsciiLetter(s[k]) || IsSpace(s[k])
  }

  ghost predicate UppersStartWords(s: string, i: int, e: int)
    requires 0 <= i <= e <= |s|
  {
    forall k :: i < k < e && IsAsciiUpper(s[k]) ==> IsSpace(s[k - 1])
  }

  ghost predicate UppersThenLower(s: string, i: int, e: int)
    requires 0 <= i <= e <= |s|
  {
    forall k :: i <= k < e && IsAsciiUpper(s[k]) ==> k + 1 < e && IsAsciiLower(s[k + 1])
  }

  ghost predicate LowersAfterLetters(s: string, i: int, e: int)
    requires 0 <= i <= e <= |s|
  {
    forall k :: i < k < e && IsAsciiLower(s[k]) ==> IsAsciiLetter(s[k - 1])
  }

  ghost predicate SpacesThenUpper(s: string, i: int, e: int)
    requires 0 <= i <= e <= |s|
  {
    forall k :: i < k < e && IsSpace(s[k - 1]) && !IsSpace(s[k]) ==> IsAsciiUpper(s[k])
  }

  /** A single capitalised word is a name span. */
  lemma WordSpan(s: string, i: nat, j: nat)
    requires CapWordAt(s, i) && i + 2 <= j <= |s| && AllIn(s, i + 1, j, IsAsciiLower)
    ensures NameSpan(s, i, j)
  {
  }

  /** A name span can take in one more whitespace run and capitalised word. */
  lemma ExtendNameSpan(s: string, i: nat, j: nat, k: nat, j2: nat)
    requires NameSpan(s, i, j)
    requires j < k && CapWordAt(s, k) && AllIn(s, j, k, IsSpace)
    requires k + 2 <= j2 <= |s| && AllIn(s, k + 1, j2, IsAsciiLower)
    ensures NameSpan(s, i, j2)
  {
    assert IsAsciiLower(s[j - 1]);
    forall m | i <= m < j2 ensures IsAsciiLetter(s[m]) || IsSpace(s[m]) {
      if m < j { assert LettersOrSpaces(s, i, j); }
    }
    forall m | i < m < j2 && IsAsciiUpper(s[m]) ensures IsSpace(s[m - 1]) {
      if m < j { assert UppersStartWords(s, i, j); }
    }
    forall m | i <= m < j2 && IsAsciiUpper(s[m]) ensures m + 1 < j2 && IsAsciiLower(s[m + 1]) {
      if m < j { assert UppersThenLower(s, i, j); }
    }
    forall m | i < m < j2 && IsAsciiLower(s[m]) ensures IsAsciiLetter(s[m - 1]) {
      if m < j { assert LowersAfterLetters(s, i, j); }
    }
    forall m | i < m < j2 && IsSpace(s[m - 1]) && !IsSpace(s[m]) ensures IsAsciiUpper(s[m]) {
      if m < j { assert SpacesThenUpper(s, i, j); }
    }
  }

  /** Greedy repetition of `(?:\s+[A-Z][a-z]+)` after a name span ending at `j`. */
  function NameEnd(s: string, i: nat, j: nat): (e: nat)
    requires NameSpan(s, i, j) && (j == |s| || !IsAsciiLower(s[j]))
    ensures j <= e <= |s| && NameSpan(s, i, e)
    ensures e == |s| || !IsAsciiLower(s[e])
    ensures !Extendable(s, e)
    decreases |s| - j
  {
    var k := RunEnd(s, j, IsSpace);
    if k > j && CapWordAt(s, k) then
      var j2 := RunEnd(s, k + 1, IsAsciiLower);
      ExtendNameSpan(s, i, j, k, j2);
      NameEnd(s, i, j2)
    else
      j
  }

  /** The first position at or after `from` where a capitalised word starts. */
  function FirstCapWord(s: string, from: nat): (r: Option<nat>)
    requires from <= |s|
    ensures r.Some? ==> from <= r.value < |s| && CapWordAt(s, r.value)
    ensures r.Some? ==> forall k :: from <= k < r.value ==> !CapWordAt(s, k)
    ensures r.None? ==> forall k :: from <= k < |s| ==> !CapWordAt(s, k)
    decreases |s| - from
  {
    if from == |s| then None
    else if CapWordAt(s, from) then Some(from)
    else FirstCapWord(s, from + 1)
  }

  /** Where `re.search` finds the name pattern in `text[:200]`: at the leftmost
      position where a capitalised word starts, as far as the greedy
      repetition reaches. */
  function CompanyNameSpan(text: string): (r: Option<(nat, nat)>)
    ensures r.None? <==> forall k :: 0 <= k < |Window(text)| ==> !CapWordAt(Window(text), k)
    ensures r.Some? ==>
      var w, i, e := Window(text), r.value.0, r.value.1;
      && NameSpan(w, i, e)
      && (forall k :: 0 <= k < i ==> !CapWordAt(w, k))
      && (e == |w| || !IsAsciiLower(w[e]))
      && !Extendable(w, e)
  {
    var w := Window(text);
    match FirstCapWord(w, 0)
    case None => None
    case Some(i) =>
      var j := RunEnd(w, i + 1, IsAsciiLower);
      Some((i, NameEnd(w, i, j)))
  }

  /** `elements['company_name']` (analyzer.py:26-28) and the company node's
      label (analyzer.py:80-82): the matched text, lying wholly inside the
      first 200 characters. */
  function CompanyName(text: string): (r: Option<string>)
    ensures r.Some? <==> CompanyNameSpan(text).Some?
    ensures r.Some? ==>
      var (i, e) := CompanyNameSpan(text).value;
      e <= NAME_WINDOW && e <= |text| && r.value == text[i..e]
  {
    match CompanyNameSpan(text)
    case None => None
    case Some((i, e)) => Some(Window(text)[i..e])
  }

  /** The first sentence of the documented example. */
  const ACME_SENTENCE := "Acme Robotics builds"

  lemma AcmeWordRuns()
    ensures RunEnd(ACME_SENTENCE, 1, IsAsciiLower) == 4
    ensures RunEnd(ACME_SENTENCE, 6, IsAsciiLower) == 13
  {
    var s := ACME_SENTENCE;
    RunEndAt(s, 1, 4, IsAsciiLower);
    RunEndAt(s, 6, 13, IsAsciiLower);
  }

  lemma AcmeSpaceRuns()
    ensures RunEnd(ACME_SENTENCE, 4, IsSpace) == 5
    ensures RunEnd(ACME_SENTENCE, 13, IsSpace) == 14
    ensures CapWordAt(ACME_SENTENCE, 5) && !CapWordAt(ACME_SENTENCE, 14)
  {
    var s := ACME_SENTENCE;
    RunEndAt(s, 4, 5, IsSpace);
    RunEndAt(s, 13, 14, IsSpace);
  }

  lemma AcmeSpans()
    ensures NameSpan(ACME_SENTENCE, 0, 4) && NameSpan(ACME_SENTENCE, 0, 13)
  {
    var s := ACME_SENTENCE;
    assert CapWordAt(s, 0) && CapWordAt(s, 5);
    assert AllIn(s, 1, 4, IsAsciiLower) && AllIn(s, 6, 13, IsAsciiLower);
    WordSpan(s, 0, 4);
    assert IsSpace(s[4]);
    assert AllIn(s, 4, 5, IsSpace);
    ExtendNameSpan(s, 0, 4, 5, 13);
  }

  lemma AcmeNameEnd()
    ensures NameSpan(ACME_SENTENCE, 0, 4) && NameEnd(ACME_SENTENCE, 0, 4) == 13
  {
    AcmeWordRuns();
    AcmeSpaceRuns();
    AcmeSpans();
    assert NameEnd(ACME_SENTENCE, 0, 13) == 13;
  }

  lemma AcmeNameSpan()
    ensures CompanyNameSpan(ACME_SENTENCE) == Some((0, 13))
  {
    var s := ACME_SENTENCE;
    assert CapWordAt(s, 0);
    assert FirstCapWord(s, 0) == Some(0);
    assert Window(s) == s;
    AcmeWordRuns();
    AcmeNameEnd();
  }

  /** What the name pattern yields on the first sentence of the documented
      example: both capitalised words, not only the first. */
  lemma CompanyNameTwoWords()
    ensures CompanyName(ACME_SENTENCE) == Some("Acme Robotics")
  {
    AcmeNameSpan();
    assert Window(ACME_SENTENCE) == ACME_SENTENCE;
    assert ACME_SENTENCE[0..13] == "Acme Robotics";
  }

  // ===========================================================================
  // Founded date
  // ===========================================================================

  predicate IsYearSep(c: char) { c == '-' || c == '/' || c == '年' }

  predicate IsMonthSep(c: char) { c == '-' || c == '/' || c == '月' }

  /** How many of `[0-9]{1,2}` the greedy quantifier takes at `m` (0 if none). */
  function DigitCount(s: string, m: nat): (n: nat)
    ensures n <= 2
    ensures n >= 1 <==> m < |s| && IsAsciiDigit(s[m])
    ensures n == 2 <==> m + 1 < |s| && IsAsciiDigit(s[m]) && IsAsciiDigit(s[m + 1])
  {
    if m < |s| && IsAsciiDigit(s[m]) then
      (if m + 1 < |s| && IsAsciiDigit(s[m + 1]) then 2 else 1)
    else 0
  }

  /** `s[i..e]` is a date of the shape: 4 digits, a year separator, `m` digits,
      a month separator, `d` digits, and `日` when z == 1. */
  ghost predicate DateShapeWith(s: string, i: int, e: int, m: int, d: int, z: int) {
    && 0 <= i && 1 <= m <= 2 && 1 <= d <= 2 && 0 <= z <= 1
    && e == i + 6 + m + d + z && e <= |s|
    && (forall k :: i <= k < i + 4 ==> IsAsciiDigit(s[k]))
    && IsYearSep(s[i + 4])
    && (forall k :: i + 5 <= k < i + 5 + m ==> IsAsciiDigit(s[k]))
    && IsMonthSep(s[i + 5 + m])
    && (forall k :: i + 6 + m <= k < i + 6 + m + d ==> IsAsciiDigit(s[k]))
    && (z == 1 ==> s[e - 1] == '日')
  }

  /** `s[i..e]` is one of the strings the date pattern accepts. */
  ghost predicate DateShaped(s: string, i: int, e: int) {
    exists m, d, z :: DateShapeWith(s, i, e, m, d, z)
  }

  /** The end of the date pattern's match when it is tried at `i`. */
  function DateEndAt(s: string, i: nat): (r: Option<nat>)
  {
    if i + 5 <= |s| && IsAsciiDigit(s[i]) && IsAsciiDigit(s[i + 1]) && IsAsciiDigit(s[i + 2])
       && IsAsciiDigit(s[i + 3]) && IsYearSep(s[i + 4]) then
      var m := DigitCount(s, i + 5);
      if m > 0 && i + 5 + m < |s| && IsMonthSep(s[i + 5 + m]) then
        var d := DigitCount(s, i + 6 + m);
        if d > 0 then
          var e := i + 6 + m + d;
          Some(if e < |s| && s[e] == '日' then e + 1 else e)
        else None
      else None
    else None
  }

  /** The date matcher tried at `i` succeeds exactly when some date starts at
      `i`, and then takes the longest such date. */
  lemma {:induction false} DateEndAtIsLongest(s: string, i: nat)
    ensures DateEndAt(s, i).Some? ==> DateShaped(s, i, DateEndAt(s, i).value)
    ensures forall e :: DateShaped(s, i, e) ==> DateEndAt(s, i).Some? && e <= DateEndAt(s, i).value
  {
    if DateEndAt(s, i).Some? {
      var m := DigitCount(s, i + 5);
      var d := DigitCount(s, i + 6 + m);
      var e := i + 6 + m + d;
      if e < |s| && s[e] == '日' {
        assert DateShapeWith(s, i, e + 1, m, d, 1);
      } else {
        assert DateShapeWith(s, i, e, m, d, 0);
      }
    }
    forall e | DateShaped(s, i, e)
      ensures DateEndAt(s, i).Some? && e <= DateEndAt(s, i).value
    {
      var m', d', z' :| DateShapeWith(s, i, e, m', d', z');
      var m := DigitCount(s, i + 5);
      assert m == m' by {
        if m' == 1 { assert !IsAsciiDigit(s[i + 6]); }
      }
      var d := DigitCount(s, i + 6 + m);
      assert d >= d';
    }
  }

  /** The first position at or after `from` where the date pattern matches. */
  function FirstDate(s: string, from: nat): (r: Option<(nat, nat)>)
    requires from <= |s|
    ensures r.Some? ==> from <= r.value.0 && DateEndAt(s, r.value.0) == Some(r.value.1)
    ensures r.Some? ==> forall k :: from <= k < r.value.0 ==> DateEndAt(s, k).None?
    ensures r.None? ==> forall k :: from <= k ==> DateEndAt(s, k).None?
    decreases |s| - from
  {
    if DateEndAt(s, from).Some? then Some((from, DateEndAt(s, from).value))
    else if from == |s| then
      assert forall k :: k >= from ==> DateEndAt(s, k).None?;
      None
    else FirstDate(s, from + 1)
  }

  /** `elements['founded']` (analyzer.py:31-33), searched in the LLM response. */
  function FoundedDate(response: string): (r: Option<string>)
  {
    match FirstDate(response, 0)
    case None => None
    case Some((i, e)) =>
      DateEndAtIsLongest(response, i);
      Some(response[i..e])
  }

  /** The founded date is the longest date-shaped substring at the leftmost
      position where one starts; there is none exactly when no substring of
      the response is date-shaped. */
  lemma FoundedDateIsLeftmostLongest(response: string)
    ensures FoundedDate(response).None? <==> forall i, e :: !DateShaped(response, i, e)
    ensures FoundedDate(response).Some? ==>
      exists i, e :: && DateShaped(response, i, e) && FoundedDate(response).value == response[i..e]
                     && (forall k, e' :: 0 <= k < i ==> !DateShaped(response, k, e'))
                     && (forall e' :: DateShaped(response, i, e') ==> e' <= e)
  {
    match FirstDate(response, 0)
    case None =>
      forall i, e | DateShaped(response, i, e) ensures false {
        var m, d, z :| DateShapeWith(response, i, e, m, d, z);
        DateEndAtIsLongest(response, i);
      }
    case Some((i, e)) =>
      DateEndAtIsLongest(response, i);
      assert DateShaped(response, i, e);
      assert FoundedDate(response).value == response[i..e];
      forall k, e' | 0 <= k < i ensures !DateShaped(response, k, e') {
        DateEndAtIsLongest(response, k);
      }
      assert forall e' :: DateShaped(response, i, e') ==> e' <= e;
  }

  // ===========================================================================
  // Labelled lines: 行业, 价值主张, 创始人
  // ===========================================================================

  predicate IsLabelColon(c: char) { c == '：' || c == ':' }

  /** `<label>[：:]` occurs at `i`. */
  predicate LabelAt(s: string, i: nat, tag: string) {
    i + |tag| < |s| && s[i..i + |tag|] == tag && IsLabelColon(s[i + |tag|])
  }

  /** The position just after the colon of a label at `i`. */
  function AfterColon(i: nat, tag: string): nat {
    i + |tag| + 1
  }

  /** The last position in `[p, q)` that is not a line break. */
  function LastNotNewline(s: string, p: nat, q: nat): (r: Option<nat>)
    requires p <= q <= |s|
    ensures r.Some? ==> p <= r.value < q && s[r.value] != '\n' && AllIn(s, r.value + 1, q, IsNewline)
    ensures r.None? ==> AllIn(s, p, q, IsNewline)
    decreases q - p
  {
    if q == p then None
    else if s[q - 1] != '\n' then Some(q - 1)
    else LastNotNewline(s, p, q - 1)
  }

  /** After `\s*`, the group `[^\n]+` can start at `k`: only white space lies
      between the colon (ending at `p`) and `k`, and `s[k]` is not a line break. */
  ghost predicate GroupCanStart(s: string, p: nat, k: int) {
    p <= k < |s| && AllIn(s, p, k, IsSpace) && s[k] != '\n'
  }

  /** Where `\s*([^\n]+)` starts its group after `p`: `\s*` is greedy, so the
      last position where the group can start. */
  function GroupStart(s: string, p: nat): (r: Option<nat>)
    requires p <= |s|
    ensures r.Some? ==> GroupCanStart(s, p, r.value)
    ensures r.Some? ==> forall k :: GroupCanStart(s, p, k) ==> k <= r.value
    ensures r.None? ==> forall k :: !GroupCanStart(s, p, k)
  {
    var q := RunEnd(s, p, IsSpace);
    if q < |s| then
      Some(q)
    else
      var r := LastNotNewline(s, p, q);
      assert forall k :: GroupCanStart(s, p, k) ==> k < q;
      r
  }

  /** The group's span when the labelled-line pattern is tried at `i`. */
  function LabelMatchAt(s: string, i: nat, tag: string): (r: Option<(nat, nat)>)
    ensures r.Some? ==> LabelAt(s, i, tag) && GroupStart(s, AfterColon(i, tag)) == Some(r.value.0)
    ensures r.Some? ==> r.value.0 < r.value.1 <= |s| && AllIn(s, r.value.0, r.value.1, NotNewline)
    ensures r.Some? ==> r.value.1 == |s| || s[r.value.1] == '\n'
    ensures r.None? ==> !LabelAt(s, i, tag) || GroupStart(s, AfterColon(i, tag)).None?
  {
    if LabelAt(s, i, tag) then
      match GroupStart(s, AfterColon(i, tag))
      case None => None
      case Some(k) => Some((k, RunEnd(s, k, NotNewline)))
    else None
  }

  /** The labelled-line pattern fails at `i` exactly when no label is there or
      no group can start after its colon. */
  lemma LabelMatchAtNone(s: string, i: nat, tag: string)
    ensures LabelMatchAt(s, i, tag).None? <==>
      !LabelAt(s, i, tag) || forall k :: !GroupCanStart(s, AfterColon(i, tag), k)
  {
    if LabelAt(s, i, tag) && GroupStart(s, AfterColon(i, tag)).Some? {
      assert GroupCanStart(s, AfterColon(i, tag), GroupStart(s, AfterColon(i, tag)).value);
    }
  }

  /** The leftmost position at or after `from` where the labelled-line pattern
      matches, with its group's span. */
  function FirstLabelMatch(s: string, tag: string, from: nat): (r: Option<(nat, nat, nat)>)
    requires from <= |s|
    ensures r.Some? ==> from <= r.value.0 && LabelMatchAt(s, r.value.0, tag) == Some((r.value.1, r.value.2))
    ensures r.Some? ==> forall k :: from <= k < r.value.0 ==> LabelMatchAt(s, k, tag).None?
    ensures r.None? ==> forall k :: from <= k ==> LabelMatchAt(s, k, tag).None?
    decreases |s| - from
  {
    if LabelMatchAt(s, from, tag).Some? then
      var (k, e) := LabelMatchAt(s, from, tag).value;
      Some((from, k, e))
    else if from == |s| then
      assert forall k :: k >= from ==> !LabelAt(s, k, tag);
      None
    else FirstLabelMatch(s, tag, from + 1)
  }

  /** `re.search(tag + r'[：:]\s*([^\n]+)', s).group(1).strip()`, or None
      when the pattern does not match (analyzer.py:36-43, 93-95). */
  function LabelValue(s: string, tag: string): (r: Option<string>)
    ensures r.None? <==> FirstLabelMatch(s, tag, 0).None?
    ensures r.Some? ==> var (i, k, e) := FirstLabelMatch(s, tag, 0).value; r.value == Strip(s[k..e])
  {
    match FirstLabelMatch(s, tag, 0)
    case None => None
    case Some((i, k, e)) => Some(Strip(s[k..e]))
  }

  /** The labelled pattern finds nothing exactly when no occurrence of the tag
      and a colon is followed by a place where the group can start. */
  lemma LabelValueAbsent(s: string, tag: string)
    ensures LabelValue(s, tag).None? <==>
      forall i :: !LabelAt(s, i, tag) || forall k :: !GroupCanStart(s, AfterColon(i, tag), k)
  {
    forall j: nat | true
      ensures LabelMatchAt(s, j, tag).None? <==>
        !LabelAt(s, j, tag) || forall k :: !GroupCanStart(s, AfterColon(j, tag), k)
    {
      LabelMatchAtNone(s, j, tag);
    }
  }

  /** The match is the leftmost one, its group starts after all the white space
      (possibly line breaks) that follows the colon, and runs to the end of
      that line. */
  lemma LabelValueLeftmost(s: string, tag: string)
    requires FirstLabelMatch(s, tag, 0).Some?
    ensures
      var (i, k, e) := FirstLabelMatch(s, tag, 0).value;
      && LabelAt(s, i, tag)
      && (forall j :: 0 <= j < i ==> !LabelAt(s, j, tag) || forall k' :: !GroupCanStart(s, AfterColon(j, tag), k'))
      && GroupCanStart(s, AfterColon(i, tag), k)
      && (forall k' :: GroupCanStart(s, AfterColon(i, tag), k') ==> k' <= k)
      && AllIn(s, k, e, NotNewline) && (e == |s| || s[e] == '\n')
  {
    var (i, k, e) := FirstLabelMatch(s, tag, 0).value;
    forall j: nat | j < i
      ensures !LabelAt(s, j, tag) || forall k' :: !GroupCanStart(s, AfterColon(j, tag), k')
    {
      LabelMatchAtNone(s, j, tag);
    }
  }

  /** The labelled value holds no line break and no surrounding white space,
      and it is empty only when nothing but white space follows the colon up
      to the end of the text. */
  lemma LabelValueTrimmed(s: string, tag: string)
    requires LabelValue(s, tag).Some?
    ensures
      var v := LabelValue(s, tag).value;
      var (i, k, e) := FirstLabelMatch(s, tag, 0).value;
      && (forall m :: 0 <= m < |v| ==> v[m] != '\n')
      && (v != [] ==> !IsSpace(v[0]) && !IsSpace(v[|v| - 1]))
      && (v == [] <==> RunEnd(s, AfterColon(i, tag), IsSpace) == |s|)
  {
    var v := LabelValue(s, tag).value;
    var (i, k, e) := FirstLabelMatch(s, tag, 0).value;
    var p := AfterColon(i, tag);
    var q := RunEnd(s, p, IsSpace);
    forall m | 0 <= m < |v| ensures v[m] != '\n' {
      assert v[m] in s[k..e];
    }
    if q < |s| {
      assert k == q;
      assert !IsSpace(s[k..e][0]);
    } else {
      assert forall m :: 0 <= m < |s[k..e]| ==> IsSpace(s[k..e][m]);
    }
  }
}
