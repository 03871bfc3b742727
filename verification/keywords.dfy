/** Keyword extraction of analyzer.py:47-72: the two `re.findall` tokenisers,
    the stop-word filter, the frequency table (a dict, so it remembers the
    order in which terms were first counted), the weights relative to the
    largest count, the stable descending sort and the cut to 20 pairs. */
module Keywords {
  import opened Common
  import opened Ranking
  import opened Records

  const STOP_WORDS: set<string> := {"公司", "我们", "以及", "一个", "的", "和", "是", "在", "对", "与", "及", "等"}

  /** At most this many (term, weight) pairs are returned. */
  const MAX_KEYWORDS: nat := 20

  // ===========================================================================
  // Tokenisers
  // ===========================================================================

  /** `s[a..b]` is a run of `p` characters that cannot be extended either way. */
  ghost predicate MaximalRun(s: string, p: char -> bool, a: int, b: int) {
    && 0 <= a < b <= |s|
    && AllIn(s, a, b, p)
    && (a == 0 || !p(s[a - 1]))
    && (b == |s| || !p(s[b]))
  }

  /** The maximal runs of `p` characters in `s[i..]`, left to right. */
  function Runs(s: string, p: char -> bool, i: nat): (r: seq<(nat, nat)>)
    requires i <= |s|
    ensures forall k :: 0 <= k < |r| ==> i <= r[k].0 < r[k].1 <= |s| && p(s[r[k].0])
    ensures forall k :: 0 <= k < |r| - 1 ==> r[k].1 < r[k + 1].0
    decreases |s| - i
  {
    if i == |s| then []
    else if !p(s[i]) then Runs(s, p, i + 1)
    else
      var e := RunEnd(s, i, p);
      assert e > i;
      [(i, e)] + Runs(s, p, e)
  }

  /** Scanning from a run boundary finds exactly the maximal runs that lie
      to its right. */
  lemma {:induction false} RunsAreMaximalRuns(s: string, p: char -> bool, i: nat)
    requires i <= |s| && (i == 0 || i == |s| || !p(s[i - 1]) || !p(s[i]))
    ensures forall a, b :: (a, b) in Runs(s, p, i) <==> i <= a && MaximalRun(s, p, a, b)
    decreases |s| - i
  {
    if i < |s| {
      if !p(s[i]) {
        RunsAreMaximalRuns(s, p, i + 1);
        forall a, b | i <= a && MaximalRun(s, p, a, b) ensures i + 1 <= a {
          assert p(s[a]);
        }
      } else {
        var e := RunEnd(s, i, p);
        RunsAreMaximalRuns(s, p, e);
        assert i == 0 || !p(s[i - 1]);
        assert MaximalRun(s, p, i, e);
        forall a, b | i <= a && MaximalRun(s, p, a, b) ensures (a, b) == (i, e) || e <= a {
        }
        forall a, b | (a, b) in Runs(s, p, e) ensures e <= a {
        }
      }
    }
  }

  /** The spans of the runs at least `n` long. */
  function LongRuns(runs: seq<(nat, nat)>, n: nat): (r: seq<(nat, nat)>)
    ensures forall x :: x in r <==> x in runs && x.1 - x.0 >= n
    ensures forall k :: 0 <= k < |r| ==> r[k] in runs
  {
    if runs == [] then []
    else (if runs[0].1 - runs[0].0 >= n then [runs[0]] else []) + LongRuns(runs[1..], n)
  }

  /** `\b` before a letter at `a` and after a letter ending at `b`: the
      neighbouring characters, if any, are not word characters. */
  predicate WordBounded(s: string, span: (nat, nat))
    requires span.0 <= span.1 <= |s|
  {
    (span.0 == 0 || !IsWordChar(s[span.0 - 1])) && (span.1 == |s| || !IsWordChar(s[span.1]))
  }

  function Bounded(s: string, runs: seq<(nat, nat)>): (r: seq<(nat, nat)>)
    requires forall k :: 0 <= k < |runs| ==> runs[k].0 <= runs[k].1 <= |s|
    ensures forall x :: x in r <==> x in runs && WordBounded(s, x)
    ensures forall k :: 0 <= k < |r| ==> r[k] in runs
  {
    if runs == [] then []
    else (if WordBounded(s, runs[0]) then [runs[0]] else []) + Bounded(s, runs[1..])
  }

  /** Spans matched by `re.findall(r'[一-龥]{2,}', s)`. */
  function CjkSpans(s: string): seq<(nat, nat)> {
    LongRuns(Runs(s, IsCjk, 0), 2)
  }

  /** Spans matched by `re.findall(r'\b[A-Za-z]{3,}\b', s)`: after the greedy
      letters only a non-word character or the end can give the closing `\b`,
      and backing off inside the run never finds one, so the matches are the
      whole letter runs of length at least 3 bordered by non-word characters. */
  function EnglishSpans(s: string): seq<(nat, nat)> {
    Bounded(s, LongRuns(Runs(s, IsAsciiLetter, 0), 3))
  }

  function Texts(s: string, spans: seq<(nat, nat)>): (r: seq<string>)
    requires forall k :: 0 <= k < |spans| ==> spans[k].0 <= spans[k].1 <= |s|
    ensures |r| == |spans|
    ensures forall k :: 0 <= k < |r| ==> r[k] == s[spans[k].0..spans[k].1]
  {
    seq(|spans|, k requires 0 <= k < |spans| => s[spans[k].0..spans[k].1])
  }

  function CjkTokens(s: string): seq<string> {
    Texts(s, CjkSpans(s))
  }

  function EnglishTokens(s: string): seq<string> {
    Texts(s, EnglishSpans(s))
  }

  /** The CJK tokens are the maximal runs of at least two ideographs. */
  lemma CjkSpansExact(s: string)
    ensures forall a, b :: (a, b) in CjkSpans(s) <==> MaximalRun(s, IsCjk, a, b) && b - a >= 2
  {
    RunsAreMaximalRuns(s, IsCjk, 0);
  }

  /** The English tokens are the maximal runs of at least three ASCII letters
      with no word character on either side. */
  lemma EnglishSpansExact(s: string)
    ensures forall a, b :: (a, b) in EnglishSpans(s) <==>
      MaximalRun(s, IsAsciiLetter, a, b) && b - a >= 3 && WordBounded(s, (a, b))
  {
    RunsAreMaximalRuns(s, IsAsciiLetter, 0);
  }

  /** Both tokenisers report their matches left to right without overlap. */
  lemma SpansInOrder(s: string)
    ensures forall k :: 0 <= k < |CjkSpans(s)| - 1 ==> CjkSpans(s)[k].1 < CjkSpans(s)[k + 1].0
    ensures forall k :: 0 <= k < |EnglishSpans(s)| - 1 ==> EnglishSpans(s)[k].1 < EnglishSpans(s)[k + 1].0
  {
    SubsequenceInOrder(Runs(s, IsCjk, 0), CjkSpans(s), 2);
    SubsequenceInOrder(Runs(s, IsAsciiLetter, 0), LongRuns(Runs(s, IsAsciiLetter, 0), 3), 3);
    BoundedInOrder(s, LongRuns(Runs(s, IsAsciiLetter, 0), 3));
  }

  ghost predicate Increasing(r: seq<(nat, nat)>) {
    forall k :: 0 <= k < |r| - 1 ==> r[k].1 < r[k + 1].0
  }

  ghost predicate Ordered(r: seq<(nat, nat)>) {
    forall j, k :: 0 <= j < k < |r| ==> r[j].1 < r[k].0
  }

  lemma {:induction false} IncreasingOrdered(r: seq<(nat, nat)>)
    requires Increasing(r) && forall k :: 0 <= k < |r| ==> r[k].0 < r[k].1
    ensures Ordered(r)
    decreases |r|
  {
    if |r| > 1 {
      IncreasingOrdered(r[1..]);
      forall k | 1 < k < |r| ensures r[0].1 < r[k].0 {
        assert r[1..][0].1 < r[1..][k - 1].0;
      }
    }
  }

  lemma {:induction false} SubsequenceInOrder(runs: seq<(nat, nat)>, r: seq<(nat, nat)>, n: nat)
    requires r == LongRuns(runs, n)
    requires Increasing(runs) && forall k :: 0 <= k < |runs| ==> runs[k].0 < runs[k].1
    ensures Increasing(r)
    decreases |runs|
  {
    if runs != [] {
      SubsequenceInOrder(runs[1..], LongRuns(runs[1..], n), n);
      IncreasingOrdered(runs);
      var t := LongRuns(runs[1..], n);
      if runs[0].1 - runs[0].0 >= n && t != [] {
        assert t[0] in runs[1..];
      }
    }
  }

  lemma {:induction false} BoundedInOrder(s: string, runs: seq<(nat, nat)>)
    requires forall k :: 0 <= k < |runs| ==> runs[k].0 < runs[k].1 <= |s|
    requires Increasing(runs)
    ensures Increasing(Bounded(s, runs))
    decreases |runs|
  {
    if runs != [] {
      BoundedInOrder(s, runs[1..]);
      IncreasingOrdered(runs);
      var t := Bounded(s, runs[1..]);
      if WordBounded(s, runs[0]) && t != [] {
        assert t[0] in runs[1..];
      }
    }
  }

  /** `re.findall` of the CJK pattern, then of the English pattern, over the
      source text and the response joined by a space (analyzer.py:49-54). */
  function Tokens(text: string, response: string): seq<string> {
    var all := text + " " + response;
    CjkTokens(all) + EnglishTokens(all)
  }

  // ===========================================================================
  // Counting
  // ===========================================================================

  /** The test of analyzer.py:62. */
  predicate Counts(w: string) { w !in STOP_WORDS && |w| > 1 }

  /** The tokens that are counted, in order. */
  function Counted(tokens: seq<string>): seq<string>
  {
    if tokens == [] then []
    else
      var last := tokens[|tokens| - 1];
      Counted(tokens[..|tokens| - 1]) + (if Counts(last) then [last] else [])
  }

  /** The counted tokens are the tokens that pass the test. */
  lemma {:induction false} CountedMembers(tokens: seq<string>)
    ensures forall w :: w in Counted(tokens) <==> w in tokens && Counts(w)
    decreases |tokens|
  {
    if tokens != [] {
      var last := tokens[|tokens| - 1];
      assert tokens == tokens[..|tokens| - 1] + [last];
      CountedMembers(tokens[..|tokens| - 1]);
    }
  }

  /** The distinct elements in order of first occurrence: the key order of a
      dict filled from `s`. */
  function Distinct(s: seq<string>): (r: seq<string>)
    ensures forall w :: w in r <==> w in s
    ensures forall j, k :: 0 <= j < k < |r| ==> r[j] != r[k]
  {
    if s == [] then []
    else
      var d := Distinct(s[..|s| - 1]);
      assert s == s[..|s| - 1] + [s[|s| - 1]];
      if s[|s| - 1] in d then d else d + [s[|s| - 1]]
  }

  /** The frequency table `word_freq` should hold after counting `c`. */
  function FreqMap(c: seq<string>): (f: map<string, nat>)
    ensures forall w :: w in f <==> w in c
    ensures forall w :: w in f ==> f[w] == multiset(c)[w] && f[w] >= 1
  {
    map w | w in c :: multiset(c)[w]
  }

  lemma CountedSnoc(tokens: seq<string>, w: string)
    ensures Counted(tokens + [w]) == Counted(tokens) + (if Counts(w) then [w] else [])
  {
    assert (tokens + [w])[..|tokens + [w]| - 1] == tokens;
  }

  lemma DistinctSnoc(c: seq<string>, w: string)
    ensures Distinct(c + [w]) == if w in c then Distinct(c) else Distinct(c) + [w]
  {
    assert (c + [w])[..|c + [w]| - 1] == c;
  }

  lemma FreqMapSnoc(c: seq<string>, w: string)
    ensures FreqMap(c + [w]) == FreqMap(c)[w := (if w in c then multiset(c)[w] else 0) + 1]
  {
    assert multiset(c + [w]) == multiset(c) + multiset{w};
    var f, g := FreqMap(c + [w]), FreqMap(c)[w := (if w in c then multiset(c)[w] else 0) + 1];
    assert forall x :: x in f <==> x in g;
    forall x | x in f ensures f[x] == g[x] {
      if x != w {
        assert x in c;
      }
    }
  }

  /** One counted occurrence of `word` appends it to the key order when it
      is new. */
  lemma CountStepOrder(c: seq<string>, word: string, order: seq<string>, freq: map<string, nat>)
    requires order == Distinct(c) && freq == FreqMap(c)
    ensures (word in freq) == (word in c)
    ensures (if word in freq then order else order + [word]) == Distinct(c + [word])
  {
    DistinctSnoc(c, word);
  }

  /** One counted occurrence of `word` adds one to its count. */
  lemma CountStepFreq(c: seq<string>, word: string, freq: map<string, nat>)
    requires freq == FreqMap(c)
    ensures freq[word := (if word in freq then freq[word] else 0) + 1] == FreqMap(c + [word])
  {
    FreqMapSnoc(c, word);
  }

  /** The counting loop of analyzer.py:60-63. `order` is the insertion order of
      the dict's keys. */
  method CountFrequencies(tokens: seq<string>) returns (order: seq<string>, freq: map<string, nat>)
    ensures order == Distinct(Counted(tokens))
    ensures freq == FreqMap(Counted(tokens))
  {
    order := [];
    freq := map[];
    ghost var counted: seq<string> := [];
    for i := 0 to |tokens|
      invariant counted == Counted(tokens[..i])
      invariant order == Distinct(counted)
      invariant freq == FreqMap(counted)
    {
      var word := tokens[i];
      assert tokens[..i + 1] == tokens[..i] + [word];
      CountedSnoc(tokens[..i], word);
      if Counts(word) {
        CountStepOrder(counted, word, order, freq);
        CountStepFreq(counted, word, freq);
        if word !in freq {
          order := order + [word];
        }
        freq := freq[word := (if word in freq then freq[word] else 0) + 1];
        counted := counted + [word];
      }
    }
    assert tokens[..|tokens|] == tokens;
  }

  // ===========================================================================
  // Weights
  // ===========================================================================

  /** `max(word_freq.values())` */
  function MaxFreq(order: seq<string>, freq: map<string, nat>): (m: nat)
    requires forall w :: w in order ==> w in freq
    ensures forall w :: w in order ==> freq[w] <= m
    ensures order != [] ==> exists w :: w in order && freq[w] == m
  {
    if order == [] then 0
    else
      var rest := MaxFreq(order[1..], freq);
      assert forall w :: w in order ==> w == order[0] || w in order[1..];
      if freq[order[0]] >= rest then freq[order[0]] else rest
  }

  /** `[(word, freq / max_freq) for word, freq in word_freq.items()]` */
  function Weigh(order: seq<string>, freq: map<string, nat>, maxFreq: nat): (r: seq<Keyword>)
    requires forall w :: w in order ==> w in freq
    requires maxFreq > 0
    ensures |r| == |order|
    ensures forall k :: 0 <= k < |r| ==> r[k] == (order[k], freq[order[k]] as real / maxFreq as real)
  {
    seq(|order|, k requires 0 <= k < |order| => (order[k], freq[order[k]] as real / maxFreq as real))
  }

  /** The weighted terms before sorting, in the dict's order. */
  function Unsorted(c: seq<string>): (r: seq<Keyword>)
    requires c != []
  {
    var order := Distinct(c);
    var freq := FreqMap(c);
    Weigh(order, freq, MaxFreq(order, freq))
  }

  /** What `_extract_keywords` returns for a sequence of tokens. */
  function KeywordsOf(tokens: seq<string>): seq<Keyword> {
    var c := Counted(tokens);
    if c == [] then [] else SliceTo(SortDesc(Unsorted(c)), MAX_KEYWORDS)
  }

  /** analyzer.py:47-72 with the table kept in two variables; the in-place
      `keywords.sort` is the stable sort of the Ranking module. */
  method ExtractKeywords(text: string, response: string) returns (keywords: seq<Keyword>)
    ensures keywords == KeywordsOf(Tokens(text, response))
  {
    var allText := text + " " + response;
    var words := CjkTokens(allText) + EnglishTokens(allText);
    var order, freq := CountFrequencies(words);
    if |freq| > 0 {
      var maxFreq := MaxFreq(order, freq);
      var weighted := Weigh(order, freq, maxFreq);
      keywords := SliceTo(SortDesc(weighted), MAX_KEYWORDS);
    } else {
      keywords := [];
    }
  }

  // ===========================================================================
  // Properties of the keyword list
  // ===========================================================================

  /** No more than 20 pairs, and none exactly when no token is counted. */
  lemma KeywordsBounds(tokens: seq<string>)
    ensures |KeywordsOf(tokens)| <= MAX_KEYWORDS
    ensures KeywordsOf(tokens) == [] <==> Counted(tokens) == []
  {
    var c := Counted(tokens);
    if c != [] {
      assert c[0] in Distinct(c);
    }
  }

  /** A count over the largest count lies in (0, 1], and is 1 for the largest. */
  lemma RatioBounds(a: nat, m: nat)
    requires 1 <= a <= m
    ensures 0.0 < a as real / m as real <= 1.0
    ensures a == m ==> a as real / m as real == 1.0
  {
    var q := a as real / m as real;
    assert q * (m as real) == a as real;
  }

  /** Before sorting, each term is counted and weighs its count over the
      largest count. */
  lemma UnsortedTerms(c: seq<string>)
    requires c != []
    ensures var u, m := Unsorted(c), MaxFreq(Distinct(c), FreqMap(c));
      forall j :: 0 <= j < |u| ==> u[j].0 in c && u[j].1 == multiset(c)[u[j].0] as real / m as real
  {
  }

  /** Before sorting, every weight lies in (0, 1]. */
  lemma UnsortedUnit(c: seq<string>)
    requires c != []
    ensures var u := Unsorted(c); forall j :: 0 <= j < |u| ==> 0.0 < u[j].1 <= 1.0
  {
    var order, freq := Distinct(c), FreqMap(c);
    var u, m := Unsorted(c), MaxFreq(order, freq);
    forall j | 0 <= j < |u| ensures 0.0 < u[j].1 <= 1.0 {
      assert order[j] in order;
      RatioBounds(freq[order[j]], m);
    }
  }

  /** Before sorting, a term with the largest count weighs exactly 1. */
  lemma UnsortedHasOne(c: seq<string>)
    requires c != []
    ensures var u := Unsorted(c); exists j :: 0 <= j < |u| && u[j].1 == 1.0
  {
    var order, freq := Distinct(c), FreqMap(c);
    var u, m := Unsorted(c), MaxFreq(order, freq);
    assert c[0] in order;
    var w :| w in order && freq[w] == m;
    var j :| 0 <= j < |order| && order[j] == w;
    RatioBounds(m, m);
    assert u[j].1 == 1.0;
  }

  /** Before sorting, no term appears twice. */
  lemma UnsortedDistinct(c: seq<string>)
    requires c != []
    ensures var u := Unsorted(c); forall a, b :: 0 <= a < b < |u| ==> u[a].0 != u[b].0
  {
  }

  /** A pair of the result is a pair of the unsorted list. */
  lemma KeywordFromUnsorted(tokens: seq<string>, k: nat)
    requires k < |KeywordsOf(tokens)|
    ensures Counted(tokens) != [] && KeywordsOf(tokens)[k] in Unsorted(Counted(tokens))
  {
    var u := Unsorted(Counted(tokens));
    SortDescMember(u, SortDesc(u)[k]);
    assert KeywordsOf(tokens)[k] == SortDesc(u)[k];
  }

  /** Every pair is a counted term (so a token and never a stop word) with
      weight count / largest count. */
  lemma KeywordsTerms(tokens: seq<string>)
    ensures var kws, c := KeywordsOf(tokens), Counted(tokens);
      forall k :: 0 <= k < |kws| ==>
        && kws[k].0 in tokens && Counts(kws[k].0)
        && kws[k].1 == multiset(c)[kws[k].0] as real / MaxFreq(Distinct(c), FreqMap(c)) as real
  {
    var kws, c := KeywordsOf(tokens), Counted(tokens);
    CountedMembers(tokens);
    forall k | 0 <= k < |kws|
      ensures && kws[k].0 in tokens && Counts(kws[k].0)
              && kws[k].1 == multiset(c)[kws[k].0] as real / MaxFreq(Distinct(c), FreqMap(c)) as real
    {
      KeywordFromUnsorted(tokens, k);
      UnsortedTerms(c);
    }
  }

  /** Every weight lies in (0, 1]. */
  lemma KeywordsUnit(tokens: seq<string>)
    ensures var kws := KeywordsOf(tokens); forall k :: 0 <= k < |kws| ==> 0.0 < kws[k].1 <= 1.0
  {
    var kws := KeywordsOf(tokens);
    forall k | 0 <= k < |kws| ensures 0.0 < kws[k].1 <= 1.0 {
      KeywordFromUnsorted(tokens, k);
      UnsortedUnit(Counted(tokens));
    }
  }

  /** No term appears twice. */
  lemma KeywordsDistinct(tokens: seq<string>)
    ensures var kws := KeywordsOf(tokens);
      forall j, k :: 0 <= j < k < |kws| ==> kws[j].0 != kws[k].0
  {
    var c := Counted(tokens);
    if c != [] {
      var u := Unsorted(c);
      UnsortedDistinct(c);
      var kws := KeywordsOf(tokens);
      forall j, k | 0 <= j < k < |kws| ensures kws[j].0 != kws[k].0 {
        DistinctTermsAfterSort(u, j, k);
      }
    }
  }

  lemma DistinctTermsAfterSort(u: seq<Keyword>, j: nat, k: nat)
    requires forall a, b :: 0 <= a < b < |u| ==> u[a].0 != u[b].0
    requires j < k < |SortDesc(u)|
    ensures SortDesc(u)[j].0 != SortDesc(u)[k].0
  {
    var s := SortDesc(u);
    SortDescSortedPermutation(u);
    SortDescMember(u, s[j]);
    SortDescMember(u, s[k]);
    var a :| 0 <= a < |u| && u[a] == s[j];
    var b :| 0 <= b < |u| && u[b] == s[k];
    assert s[j].0 == s[k].0 ==> a == b;
    MultisetPositions(s, j, k);
    OnePosition(u, a);
  }

  /** An item at two positions is counted at least twice. */
  lemma MultisetPositions<T>(s: seq<T>, j: nat, k: nat)
    requires j < k < |s|
    ensures s[j] == s[k] ==> multiset(s)[s[j]] >= 2
  {
    assert s == s[..j] + [s[j]] + s[j + 1..k] + [s[k]] + s[k + 1..];
  }

  /** An item whose term occurs once among distinct terms occurs once. */
  lemma OnePosition(u: seq<Keyword>, a: nat)
    requires a < |u| && forall i :: 0 <= i < |u| && i != a ==> u[i].0 != u[a].0
    ensures multiset(u)[u[a]] == 1
  {
    assert u == u[..a] + [u[a]] + u[a + 1..];
    assert u[a] !in u[..a];
    assert u[a] !in u[a + 1..];
  }

  /** The list runs by descending weight. */
  lemma KeywordsSorted(tokens: seq<string>)
    ensures SortedDesc(KeywordsOf(tokens))
  {
    var c := Counted(tokens);
    if c != [] {
      var s := SortDesc(Unsorted(c));
      SortDescSortedPermutation(Unsorted(c));
      var kws := KeywordsOf(tokens);
      assert forall k :: 0 <= k < |kws| ==> kws[k] == s[k];
    }
  }

  /** A non-empty list starts with weight exactly 1. */
  lemma KeywordsStartAtOne(tokens: seq<string>)
    ensures KeywordsOf(tokens) != [] ==> KeywordsOf(tokens)[0].1 == 1.0
  {
    var c := Counted(tokens);
    if c != [] {
      var u := Unsorted(c);
      UnsortedHasOne(c);
      UnsortedUnit(c);
      var j :| 0 <= j < |u| && u[j].1 == 1.0;
      SortedFirstIsOne(u, j);
      assert SortDesc(u)[0] == KeywordsOf(tokens)[0];
    }
  }

  /** Terms of equal weight keep the order in which they were first counted,
      and the cut to 20 keeps the first of them. */
  lemma KeywordsTiesInFirstOccurrenceOrder(tokens: seq<string>, w: real)
    requires Counted(tokens) != []
    ensures WithWeight(KeywordsOf(tokens), w) <= WithWeight(Unsorted(Counted(tokens)), w)
  {
    var u := Unsorted(Counted(tokens));
    SortDescStable(u, w);
    var s := SortDesc(u);
    if |s| > MAX_KEYWORDS {
      WithWeightPrefix(s, MAX_KEYWORDS, w);
    }
  }

  // ---------------------------------------------------------------------------
  // CJK terms come before English terms in the dict's order
  // ---------------------------------------------------------------------------

  lemma {:induction false} CountedAppend(a: seq<string>, b: seq<string>)
    ensures Counted(a + b) == Counted(a) + Counted(b)
    decreases |b|
  {
    if b == [] {
      assert a + b == a;
    } else {
      var b' := b[..|b| - 1];
      CountedAppend(a, b');
      assert (a + b)[..|a + b| - 1] == a + b';
      assert b[..|b| - 1] == b';
    }
  }

  lemma {:induction false} DistinctAppendDisjoint(a: seq<string>, b: seq<string>)
    requires forall x :: x in a ==> x !in b
    ensures Distinct(a + b) == Distinct(a) + Distinct(b)
    decreases |b|
  {
    if b == [] {
      assert a + b == a;
    } else {
      var b' := b[..|b| - 1];
      var x := b[|b| - 1];
      assert b == b' + [x];
      DistinctAppendDisjoint(a, b');
      assert (a + b)[..|a + b| - 1] == a + b';
      assert x !in Distinct(a);
    }
  }

  /** The texts of spans lying in runs of `p` hold only `p` characters. */
  lemma TextsChars(s: string, spans: seq<(nat, nat)>, p: char -> bool)
    requires forall k :: 0 <= k < |spans| ==> spans[k].0 <= spans[k].1 <= |s| && AllIn(s, spans[k].0, spans[k].1, p)
    ensures forall t :: t in Texts(s, spans) ==> forall m :: 0 <= m < |t| ==> p(t[m])
  {
    forall t | t in Texts(s, spans) ensures forall m :: 0 <= m < |t| ==> p(t[m]) {
      var k :| 0 <= k < |spans| && Texts(s, spans)[k] == t;
      assert forall m :: 0 <= m < |t| ==> t[m] == s[spans[k].0 + m];
    }
  }

  /** Every character of a CJK token is an ideograph. */
  lemma CjkTokenChars(s: string)
    ensures forall t :: t in CjkTokens(s) ==> forall m :: 0 <= m < |t| ==> IsCjk(t[m])
  {
    CjkSpansExact(s);
    var sp := CjkSpans(s);
    assert forall k :: 0 <= k < |sp| ==> sp[k] in sp;
    TextsChars(s, sp, IsCjk);
  }

  /** Every character of an English token is an ASCII letter. */
  lemma EnglishTokenChars(s: string)
    ensures forall t :: t in EnglishTokens(s) ==> forall m :: 0 <= m < |t| ==> IsAsciiLetter(t[m])
  {
    EnglishSpansExact(s);
    var sp := EnglishSpans(s);
    assert forall k :: 0 <= k < |sp| ==> sp[k] in sp;
    TextsChars(s, sp, IsAsciiLetter);
  }

  /** No counted CJK token is also a counted English token. */
  lemma CountedDisjoint(s: string)
    ensures forall x :: x in Counted(CjkTokens(s)) ==> x !in Counted(EnglishTokens(s))
  {
    var a, b := CjkTokens(s), EnglishTokens(s);
    CjkTokenChars(s);
    EnglishTokenChars(s);
    CountedMembers(a);
    CountedMembers(b);
    forall x | x in Counted(a) ensures x !in Counted(b) {
      assert x in a && |x| > 1;
      assert IsCjk(x[0]);
      assert x in b ==> IsAsciiLetter(x[0]);
    }
  }

  /** The dict's key order lists every counted CJK term (by first occurrence)
      before every counted English term, since no term is both. */
  lemma CjkTermsFirst(text: string, response: string)
    ensures var all := text + " " + response;
      Distinct(Counted(Tokens(text, response)))
        == Distinct(Counted(CjkTokens(all))) + Distinct(Counted(EnglishTokens(all)))
  {
    var all := text + " " + response;
    var a, b := CjkTokens(all), EnglishTokens(all);
    CountedAppend(a, b);
    CountedDisjoint(all);
    DistinctAppendDisjoint(Counted(a), Counted(b));
  }
}
