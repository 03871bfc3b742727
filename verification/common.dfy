/** Shared vocabulary: optional values and results, the character classes the
    source's regular expressions rely on, and the small string functions of
    Python (strip, lower, `in`, str(int), "\n".join, repetition, slicing). */
module Common {

  datatype Option<+T> = None | Some(value: T) {
    /** `d.get(key, default)` after a lookup has produced this value. */
    function GetOr(default: T): T {
      match this
      case Some(v) => v
      case None => default
    }
  }

  datatype Result<+T, +E> = Success(value: T) | Failure(error: E)

  // ---------------------------------------------------------------------------
  // Character classes
  // ---------------------------------------------------------------------------

  /** `[A-Z]` */
  predicate IsAsciiUpper(c: char) { 'A' <= c <= 'Z' }

  /** `[a-z]` */
  predicate IsAsciiLower(c: char) { 'a' <= c <= 'z' }

  /** `[A-Za-z]` */
  predicate IsAsciiLetter(c: char) { IsAsciiUpper(c) || IsAsciiLower(c) }

  /** `[0-9]` */
  predicate IsAsciiDigit(c: char) { '0' <= c <= '9' }

  /** `[一-龥]`, the CJK ideographs the keyword tokeniser accepts. */
  predicate IsCjk(c: char) { '\U{4E00}' <= c <= '\U{9FA5}' }

  /** Python's `\s` and `str.isspace()` on text: the ASCII white space
      characters, the information separators U+001C..U+001F and the Unicode
      space and line/paragraph separators. */
  predicate IsSpace(c: char) {
    c == ' ' || '\t' <= c <= '\r' || '\U{1C}' <= c <= '\U{1F}'
    || c == '\U{85}' || c == '\U{A0}' || c == '\U{1680}'
    || '\U{2000}' <= c <= '\U{200A}' || c == '\U{2028}' || c == '\U{2029}'
    || c == '\U{202F}' || c == '\U{205F}' || c == '\U{3000}'
  }

  /** Python's `\w` on text, restricted to the scripts this system meets:
      ASCII letters, digits and `_`, the Latin-1 and Latin Extended letters,
      and the CJK unified ideographs (with extension A). */
  predicate IsWordChar(c: char) {
    IsAsciiLetter(c) || IsAsciiDigit(c) || c == '_'
    || ('\U{C0}' <= c <= '\U{24F}' && c != '\U{D7}' && c != '\U{F7}')
    || '\U{3400}' <= c <= '\U{4DBF}' || '\U{4E00}' <= c <= '\U{9FFF}'
  }

  predicate IsNewline(c: char) { c == '\n' }

  predicate NotNewline(c: char) { c != '\n' }

  // ---------------------------------------------------------------------------
  // Runs of characters
  // ---------------------------------------------------------------------------

  /** The end of the longest run of characters satisfying `p` that starts at `i`. */
  function RunEnd(s: string, i: nat, p: char -> bool): (j: nat)
    requires i <= |s|
    ensures i <= j <= |s|
    ensures forall k :: i <= k < j ==> p(s[k])
    ensures j == |s| || !p(s[j])
    decreases |s| - i
  {
    if i < |s| && p(s[i]) then RunEnd(s, i + 1, p) else i
  }

  /** A run that satisfies `p` up to `j` and stops there ends at `j`. */
  lemma {:induction false} RunEndAt(s: string, i: nat, j: nat, p: char -> bool)
    requires i <= j <= |s|
    requires forall k :: i <= k < j ==> p(s[k])
    requires j == |s| || !p(s[j])
    ensures RunEnd(s, i, p) == j
    decreases j - i
  {
    if i < j {
      RunEndAt(s, i + 1, j, p);
    }
  }

  /** Every character of `s[a..b]` satisfies `p`. */
  ghost predicate AllIn(s: string, a: int, b: int, p: char -> bool)
    requires 0 <= a <= b <= |s|
  {
    forall k :: a <= k < b ==> p(s[k])
  }

  // ---------------------------------------------------------------------------
  // strip and lower
  // ---------------------------------------------------------------------------

  /** Index of the first non-space character of `s[i..]`, or |s|. */
  function SkipSpaces(s: string, i: nat): (j: nat)
    requires i <= |s|
    ensures i <= j <= |s|
  {
    RunEnd(s, i, IsSpace)
  }

  /** One past the last non-space character of `s[..j]`, or `lo` when `s[lo..j]`
      is all space. */
  function TrailingSpacesStart(s: string, lo: nat, j: nat): (k: nat)
    requires lo <= j <= |s|
    ensures lo <= k <= j
    ensures forall m :: k <= m < j ==> IsSpace(s[m])
    ensures k > lo ==> !IsSpace(s[k - 1])
    decreases j
  {
    if j > lo && IsSpace(s[j - 1]) then TrailingSpacesStart(s, lo, j - 1) else j
  }

  /** Where the text `s.strip()` keeps begins and ends: only space lies
      outside, and the kept text starts and ends on a non-space. */
  function StripBounds(s: string): (ab: (nat, nat))
    ensures ab.0 <= ab.1 <= |s|
    ensures forall k :: 0 <= k < ab.0 || ab.1 <= k < |s| ==> IsSpace(s[k])
    ensures ab.0 < ab.1 ==> !IsSpace(s[ab.0]) && !IsSpace(s[ab.1 - 1])
  {
    var a := SkipSpaces(s, 0);
    (a, TrailingSpacesStart(s, a, |s|))
  }

  /** Python's `str.strip()`. */
  function Strip(s: string): (r: string)
    ensures |r| <= |s|
    ensures r != [] ==> !IsSpace(r[0]) && !IsSpace(r[|r| - 1])
    ensures forall k :: 0 <= k < |r| ==> r[k] in s
    ensures (exists k :: 0 <= k < |s| && !IsSpace(s[k])) <==> r != []
    ensures exists a, b ::
      && 0 <= a <= b <= |s| && r == s[a..b]
      && (forall k :: 0 <= k < a || b <= k < |s| ==> IsSpace(s[k]))
  {
    var (a, b) := StripBounds(s);
    var r := s[a..b];
    assert forall k :: 0 <= k < |r| ==> r[k] == s[a + k];
    assert a < b ==> r[0] == s[a] && r[|r| - 1] == s[b - 1];
    assert forall k :: 0 <= k < |s| && !IsSpace(s[k]) ==> a <= k < b;
    r
  }

  /** The ASCII part of Python's `str.lower()`. */
  function LowerChar(c: char): (d: char)
    ensures IsAsciiUpper(c) ==> d as int == c as int + 32
    ensures !IsAsciiUpper(c) ==> d == c
  {
    if IsAsciiUpper(c) then (c as int + 32) as char else c
  }

  function Lower(s: string): (r: string)
    ensures |r| == |s|
    ensures forall k :: 0 <= k < |s| ==> r[k] == LowerChar(s[k])
  {
    seq(|s|, k requires 0 <= k < |s| => LowerChar(s[k]))
  }

  // ---------------------------------------------------------------------------
  // Substring test (Python's `sub in s`)
  // ---------------------------------------------------------------------------

  ghost predicate OccursAt(s: string, sub: string, k: int) {
    0 <= k && k + |sub| <= |s| && s[k..k + |sub|] == sub
  }

  function Contains(s: string, sub: string): (b: bool)
    decreases |s|
  {
    |sub| <= |s| && (s[..|sub|] == sub || (|s| > 0 && Contains(s[1..], sub)))
  }

  /** `Contains` is the substring relation. */
  lemma {:induction false} ContainsIff(s: string, sub: string)
    ensures Contains(s, sub) <==> exists k :: OccursAt(s, sub, k)
    decreases |s|
  {
    if |sub| <= |s| && s[..|sub|] != sub && |s| > 0 {
      ContainsIff(s[1..], sub);
      if Contains(s[1..], sub) {
        var k :| OccursAt(s[1..], sub, k);
        assert k + 1 + |sub| <= |s|;
        assert s[k + 1..k + 1 + |sub|] == s[1..][k..k + |sub|];
        assert OccursAt(s, sub, k + 1);
      }
      if k :| OccursAt(s, sub, k) {
        assert k != 0;
        assert s[1..][k - 1..k - 1 + |sub|] == s[k..k + |sub|];
        assert OccursAt(s[1..], sub, k - 1);
      }
    } else if |sub| <= |s| && s[..|sub|] == sub {
      assert OccursAt(s, sub, 0);
    }
  }

  // ---------------------------------------------------------------------------
  // Numbers as text (Python's str(int))
  // ---------------------------------------------------------------------------

  function DigitChar(d: nat): (c: char)
    requires d < 10
    ensures IsAsciiDigit(c)
  {
    ('0' as int + d) as char
  }

  function NatToString(n: nat): (r: string)
    ensures |r| >= 1
    ensures forall k :: 0 <= k < |r| ==> IsAsciiDigit(r[k])
    ensures |r| > 1 ==> r[0] != '0'
  {
    if n < 10 then [DigitChar(n)] else NatToString(n / 10) + [DigitChar(n % 10)]
  }

  /** Value of a string of decimal digits. */
  function DigitsValue(s: string): nat
    requires forall k :: 0 <= k < |s| ==> IsAsciiDigit(s[k])
  {
    if s == [] then 0
    else
      assert IsAsciiDigit(s[|s| - 1]);
      10 * DigitsValue(s[..|s| - 1]) + (s[|s| - 1] as int - '0' as int)
  }

  /** The decimal text of `n` reads back as `n`. */
  lemma {:induction false} NatToStringValue(n: nat)
    ensures DigitsValue(NatToString(n)) == n
  {
    var r := NatToString(n);
    if n >= 10 {
      NatToStringValue(n / 10);
      assert r[..|r| - 1] == NatToString(n / 10);
    }
  }

  function IntToString(i: int): (r: string)
    ensures i >= 0 ==> r == NatToString(i)
    ensures i < 0 ==> r == "-" + NatToString(-i)
  {
    if i >= 0 then NatToString(i) else "-" + NatToString(-i)
  }

  // ---------------------------------------------------------------------------
  // Sequences of lines, repetition, slicing
  // ---------------------------------------------------------------------------

  /** Python's `"\n".join(lines)`. */
  function JoinLines(lines: seq<string>): string
  {
    if |lines| == 0 then "" else if |lines| == 1 then lines[0] else lines[0] + "\n" + JoinLines(lines[1..])
  }

  /** Joining two non-empty blocks of lines puts one line break between them. */
  lemma {:induction false} JoinLinesAppend(a: seq<string>, b: seq<string>)
    requires a != [] && b != []
    ensures JoinLines(a + b) == JoinLines(a) + "\n" + JoinLines(b)
    decreases |a|
  {
    if |a| == 1 {
      assert (a + b)[1..] == b;
    } else {
      assert (a + b)[1..] == a[1..] + b;
      JoinLinesAppend(a[1..], b);
    }
  }

  /** The joined text begins with the first line, followed by a line break when
      more lines come. */
  lemma JoinLinesFirst(lines: seq<string>)
    requires lines != []
    ensures |lines| == 1 ==> JoinLines(lines) == lines[0]
    ensures |lines| > 1 ==> JoinLines(lines)[..|lines[0]| + 1] == lines[0] + "\n"
  {
  }

  /** Python's `c * k` for a one-character string: empty when k <= 0. */
  function Repeat(c: char, k: int): (r: string)
    ensures |r| == if k <= 0 then 0 else k
    ensures forall m :: 0 <= m < |r| ==> r[m] == c
    decreases k
  {
    if k <= 0 then "" else [c] + Repeat(c, k - 1)
  }

  /** Python's `s[:n]`, for any integer n. */
  function SliceTo<T>(s: seq<T>, n: int): (r: seq<T>)
    ensures n >= 0 ==> |r| == if n < |s| then n else |s|
    ensures n < 0 ==> |r| == if -n < |s| then |s| + n else 0
    ensures r == s[..|r|]
  {
    if n >= 0 then (if n < |s| then s[..n] else s)
    else (if -n < |s| then s[..|s| + n] else [])
  }

  /** Python's `d.get(k, default)` on a dictionary of strings. */
  function Get(m: map<string, string>, k: string, default: string): (r: string)
    ensures k in m ==> r == m[k]
    ensures k !in m ==> r == default
  {
    if k in m then m[k] else default
  }

  /** Python truthiness of an optional string: present and non-empty. */
  predicate Truthy(o: Option<string>) { o.Some? && o.value != "" }

  /** `d.get(k)` as an optional value. */
  function Lookup(m: map<string, string>, k: string): Option<string> {
    if k in m then Some(m[k]) else None
  }

  /** `d.get(a) or d.get(b) or default`. */
  function FirstTruthy(m: map<string, string>, a: string, b: string, default: string): (r: string)
    ensures Truthy(Lookup(m, a)) ==> r == m[a]
    ensures !Truthy(Lookup(m, a)) && Truthy(Lookup(m, b)) ==> r == m[b]
    ensures !Truthy(Lookup(m, a)) && !Truthy(Lookup(m, b)) ==> r == default
  {
    if a in m && m[a] != "" then m[a] else if b in m && m[b] != "" then m[b] else default
  }
}
