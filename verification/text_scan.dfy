/**
  Leftmost-match search for the fixed regular expressions of the video page
  scraper. Each of them has the shape

      <literal prefix> ( <character class>* or + ) <literal suffix>

  where the first character of the suffix is outside the class, so at a given
  start position there is at most one capture: the maximal run of class
  characters, which must be followed by the suffix. `Regex::captures` reports
  the match that starts leftmost; `Captures` below is that search, proved
  against the declarative `MatchAt`.
*/
module TextScan {
  import opened Wrappers

  /** `p` occurs in `s` starting at index `i`. */
  predicate OccursAt(s: string, i: int, p: string) {
    0 <= i && i + |p| <= |s| && s[i..i + |p|] == p
  }

  predicate IsAsciiDigit(c: char) {
    '0' <= c <= '9'
  }

  predicate IsAsciiAlnum(c: char) {
    'a' <= c <= 'z' || 'A' <= c <= 'Z' || IsAsciiDigit(c)
  }

  /** A pattern `prefix (class*) suffix`, or `prefix (class+) suffix` when `nonEmpty`. */
  datatype Pattern = Pattern(prefix: string, inClass: char -> bool, nonEmpty: bool, suffix: string)

  /** The suffix cannot be swallowed by the capture, so a capture is determined by its start. */
  predicate WellFormed(p: Pattern) {
    p.suffix != [] && !p.inClass(p.suffix[0])
  }

  /** The pattern matches `s` at index `i` with group 1 equal to `cap`. */
  predicate MatchAt(p: Pattern, s: string, i: int, cap: string) {
    && OccursAt(s, i, p.prefix)
    && (p.nonEmpty ==> cap != [])
    && (forall k :: 0 <= k < |cap| ==> p.inClass(cap[k]))
    && OccursAt(s, i + |p.prefix|, cap + p.suffix)
  }

  /** No match of `p` starts before index `i`. */
  ghost predicate NoMatchBefore(p: Pattern, s: string, i: int) {
    forall j, cap :: j < i ==> !MatchAt(p, s, j, cap)
  }

  /** The end of the longest run of class characters of `s` that starts at `i`. */
  function RunEnd(s: string, i: nat, inClass: char -> bool): (e: nat)
    requires i <= |s|
    ensures i <= e <= |s|
    ensures forall k :: i <= k < e ==> inClass(s[k])
    ensures e == |s| || !inClass(s[e])
    decreases |s| - i
  {
    if i == |s| || !inClass(s[i]) then i else RunEnd(s, i + 1, inClass)
  }

  /** A run of class characters followed by the suffix must be the longest run. */
  lemma RunEndOfMatch(p: Pattern, s: string, i: int, cap: string)
    requires WellFormed(p) && MatchAt(p, s, i, cap)
    ensures RunEnd(s, i + |p.prefix|, p.inClass) == i + |p.prefix| + |cap|
  {
    var a := i + |p.prefix|;
    var e := RunEnd(s, a, p.inClass);
    assert forall k :: a <= k < a + |cap| ==> s[k] == cap[k - a] by {
      forall k | a <= k < a + |cap| ensures s[k] == cap[k - a] {
        assert s[a..a + |cap| + |p.suffix|][k - a] == (cap + p.suffix)[k - a];
      }
    }
    assert s[a + |cap|] == p.suffix[0] by {
      assert s[a..a + |cap| + |p.suffix|][|cap|] == (cap + p.suffix)[|cap|];
    }
    assert forall k :: a <= k < a + |cap| ==> p.inClass(s[k]);
  }

  /** The match attempt at index `i`: the capture, if the pattern matches there. */
  function CaptureAt(p: Pattern, s: string, i: nat): (r: Option<string>)
    requires WellFormed(p)
    ensures r.Some? ==> MatchAt(p, s, i, r.value)
    ensures forall cap :: MatchAt(p, s, i, cap) ==> r == Some(cap)
  {
    if OccursAt(s, i, p.prefix) then
      var a := i + |p.prefix|;
      var e := RunEnd(s, a, p.inClass);
      CaptureAtUnique(p, s, i);
      if (!p.nonEmpty || a < e) && OccursAt(s, e, p.suffix) then
        assert s[a..e] + p.suffix == s[a..e + |p.suffix|];
        Some(s[a..e])
      else
        None
    else
      None
  }

  lemma CaptureAtUnique(p: Pattern, s: string, i: nat)
    requires WellFormed(p) && OccursAt(s, i, p.prefix)
    ensures forall cap :: MatchAt(p, s, i, cap) ==>
      var a := i + |p.prefix|;
      var e := RunEnd(s, a, p.inClass);
      (!p.nonEmpty || a < e) && OccursAt(s, e, p.suffix) && cap == s[a..e]
  {
    forall cap | MatchAt(p, s, i, cap)
      ensures var a := i + |p.prefix|;
        var e := RunEnd(s, a, p.inClass);
        (!p.nonEmpty || a < e) && OccursAt(s, e, p.suffix) && cap == s[a..e]
    {
      MatchIsLongestRun(p, s, i, cap);
    }
  }

  /** A match at `i` captures the longest run after the prefix, and the suffix follows that run. */
  lemma MatchIsLongestRun(p: Pattern, s: string, i: int, cap: string)
    requires WellFormed(p) && MatchAt(p, s, i, cap)
    ensures var a := i + |p.prefix|;
      && RunEnd(s, a, p.inClass) == a + |cap|
      && OccursAt(s, a + |cap|, p.suffix)
      && cap == s[a..a + |cap|]
  {
    var a := i + |p.prefix|;
    var m := s[a..a + |cap| + |p.suffix|];
    RunEndOfMatch(p, s, i, cap);
    assert m == cap + p.suffix;
    assert s[a..a + |cap|] == m[..|cap|];
    assert s[a + |cap|..a + |cap| + |p.suffix|] == m[|cap|..];
  }

  /** The first match attempt at an index in `from..|s|` that succeeds. */
  function FirstCapture(p: Pattern, s: string, from: nat): (r: Option<(nat, string)>)
    requires WellFormed(p)
    ensures r.Some? ==> from <= r.value.0 && MatchAt(p, s, r.value.0, r.value.1)
    ensures r.Some? ==> forall j, cap :: from <= j < r.value.0 ==> !MatchAt(p, s, j, cap)
    ensures r.None? ==> forall j, cap :: from <= j ==> !MatchAt(p, s, j, cap)
    decreases |s| + 1 - from
  {
    if from > |s| then
      None
    else match CaptureAt(p, s, from)
      case Some(cap) => Some((from, cap))
      case None => FirstCapture(p, s, from + 1)
  }

  /**
    `Regex::captures(s)` followed by group 1: the capture of the leftmost match,
    or nothing when the pattern matches nowhere.
  */
  function Captures(p: Pattern, s: string): (r: Option<string>)
    requires WellFormed(p)
    ensures r.None? <==> forall j, cap :: !MatchAt(p, s, j, cap)
    ensures r.Some? ==> exists i :: MatchAt(p, s, i, r.value) && NoMatchBefore(p, s, i)
  {
    match FirstCapture(p, s, 0)
    case Some((i, cap)) => Some(cap)
    case None => None
  }

  /** Any match with no match before it is the one reported: the leftmost match decides the capture. */
  lemma CapturesLeftmost(p: Pattern, s: string, i: int, cap: string)
    requires WellFormed(p) && MatchAt(p, s, i, cap) && NoMatchBefore(p, s, i)
    ensures Captures(p, s) == Some(cap)
  {
    var r := Captures(p, s);
    var k :| MatchAt(p, s, k, r.value) && NoMatchBefore(p, s, k);
    assert k == i by {
      assert !(k < i) && !(i < k);
    }
    var _ := CaptureAt(p, s, i);
  }

  /** A text that starts with a match: the capture is exactly the text placed there. */
  lemma {:induction false} CapturesAtStart(p: Pattern, cap: string, rest: string)
    requires WellFormed(p)
    requires p.nonEmpty ==> cap != []
    requires forall k :: 0 <= k < |cap| ==> p.inClass(cap[k])
    ensures Captures(p, p.prefix + cap + p.suffix + rest) == Some(cap)
  {
    var s := p.prefix + cap + p.suffix + rest;
    assert s[0..|p.prefix|] == p.prefix;
    assert s[|p.prefix|..|p.prefix| + |cap + p.suffix|] == cap + p.suffix;
    assert MatchAt(p, s, 0, cap);
  }

  /** The value of a string of decimal digits. */
  predicate IsDigits(d: string) {
    forall k :: 0 <= k < |d| ==> IsAsciiDigit(d[k])
  }

  function Pow10(k: nat): (r: nat)
    ensures r >= 1
  {
    if k == 0 then 1 else 10 * Pow10(k - 1)
  }

  function DigitValue(c: char): nat
    requires IsAsciiDigit(c)
  {
    c as int - '0' as int
  }

  /** `str::parse` of a digit string, before any width check: at most `|d|` digits' worth. */
  function DecimalValue(d: string): (n: nat)
    requires IsDigits(d)
    ensures n < Pow10(|d|)
    decreases |d|
  {
    if d == [] then 0 else DecimalValue(d[..|d| - 1]) * 10 + DigitValue(d[|d| - 1])
  }

  /** The shortest decimal spelling of `n`. */
  function ShowDecimal(n: nat): (d: string)
    ensures d != [] && IsDigits(d)
  {
    (if n < 10 then [] else ShowDecimal(n / 10)) + ['0' + (n % 10) as char]
  }

  /** Reading back the decimal spelling of a number gives that number. */
  lemma {:induction false} DecimalRoundTrip(n: nat)
    ensures DecimalValue(ShowDecimal(n)) == n
  {
    var d := ShowDecimal(n);
    var init := if n < 10 then [] else ShowDecimal(n / 10);
    assert d[..|d| - 1] == init;
    if n >= 10 {
      DecimalRoundTrip(n / 10);
    }
  }
}
