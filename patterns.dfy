/**
 * The client's regular expressions, each a fixed pattern, written out as
 * explicit matchers with the semantics of Python's `re.search`: the leftmost
 * starting position wins, quantifiers are greedy and give characters back only
 * when the rest of the pattern fails.
 */
module Patterns {
  import opened Wrappers
  import opened Text

  /** The capture group that ends every pattern here; each is greedy. */
  datatype Capture =
    | Clause   // [^,\.]+
    | Line     // .+      (any character but a newline)
    | Digits   // \d+
    | Numeral  // \d+\.?\d*

  /**
   * `Lead(words, optional, cap)` is `words[0]\s+words[1]\s+...words[n-1]\s+(cap)`;
   * when `optional` holds the lead-in is wrapped as `(?:...)?`, and with no
   * words the pattern is just `(cap)`.  `Email` is the address pattern
   * `([a-zA-Z0-9._%+-]+@[a-zA-Z0-9.-]+\.[a-zA-Z]{2,})`.
   */
  datatype Pattern =
    | Lead(words: seq<string>, optional: bool, cap: Capture)
    | Email

  /** A successful match; its capture group spans `s[start..end]`. */
  datatype Match = Match(start: nat, end: nat)

  predicate NotStop(c: char) { c != ',' && c != '.' }
  predicate NotNewline(c: char) { c != '\n' }
  predicate IsLocal(c: char) { IsLetter(c) || IsDigit(c) || c == '.' || c == '_' || c == '%' || c == '+' || c == '-' }
  predicate IsDomain(c: char) { IsLetter(c) || IsDigit(c) || c == '.' || c == '-' }

  /** The end of the longest run of `p`-characters starting at `j`. */
  function Span(s: string, j: nat, p: char -> bool): (k: nat)
    requires j <= |s|
    ensures j <= k <= |s|
    ensures forall i :: j <= i < k ==> p(s[i])
    ensures k == |s| || !p(s[k])
    decreases |s| - j
  {
    if j < |s| && p(s[j]) then Span(s, j + 1, p) else j
  }

  predicate AllDigits(t: string) { forall i :: 0 <= i < |t| ==> IsDigit(t[i]) }

  /** What a capture group of kind `cap` may capture. */
  predicate Shaped(cap: Capture, t: string) {
    match cap
    case Clause => t != [] && forall i :: 0 <= i < |t| ==> NotStop(t[i])
    case Line => t != [] && forall i :: 0 <= i < |t| ==> NotNewline(t[i])
    case Digits => t != [] && AllDigits(t)
    case Numeral => exists d :: 1 <= d <= |t| && IsNumeralAt(t, d)
  }

  /** `t` is `\d+` up to `d`, then optionally a dot and `\d*`. */
  predicate IsNumeralAt(t: string, d: nat)
    requires 1 <= d <= |t|
  {
    AllDigits(t[..d]) && (d == |t| || (t[d] == '.' && AllDigits(t[d + 1..])))
  }

  /** The end of the greedy capture of kind `cap` starting at `j`; `j` itself when it captures nothing. */
  function CaptureEnd(cap: Capture, s: string, j: nat): (k: nat)
    requires j <= |s|
    ensures j <= k <= |s|
    ensures k > j ==> Shaped(cap, s[j..k])
    ensures cap == Clause ==> k == |s| || !NotStop(s[k])
    ensures cap == Digits ==> k == |s| || !IsDigit(s[k])
    ensures (cap == Digits || cap == Numeral) && k > j ==> IsDigit(s[j])
  {
    match cap
    case Clause => Span(s, j, NotStop)
    case Line => Span(s, j, NotNewline)
    case Digits => Span(s, j, IsDigit)
    case Numeral =>
      var d := Span(s, j, IsDigit);
      if d > j && d < |s| && s[d] == '.' then
        var e := Span(s, d + 1, IsDigit);
        assert IsNumeralAt(s[j..e], d - j) by {
          assert s[j..e][..d - j] == s[j..d];
          assert s[j..e][d - j + 1..] == s[d + 1..e];
        }
        e
      else
        assert d > j ==> IsNumeralAt(s[j..d], d - j) by {
          if d > j { assert s[j..d][..d - j] == s[j..d]; }
        }
        d
  }

  /** `(cap)` tried at `j`. */
  function CaptureAt(cap: Capture, s: string, j: nat): (r: Option<Match>)
    requires j <= |s|
    ensures r.Some? ==> r.value.start == j < r.value.end <= |s|
  {
    var k := CaptureEnd(cap, s, j);
    if k > j then Some(Match(j, k)) else None
  }

  /**
   * After a greedy `\s+` that ended at `k` (having started at `lo`), give
   * whitespace back one character at a time until the capture succeeds:
   * the capture is tried at `k`, `k - 1`, ..., `lo + 1`.
   */
  function Backtrack(cap: Capture, s: string, lo: nat, k: nat): (r: Option<Match>)
    requires lo <= k <= |s|
    ensures r.Some? ==> lo < r.value.start <= k && r.value.start < r.value.end <= |s|
    ensures r.Some? ==> CaptureAt(cap, s, r.value.start) == r
    decreases k
  {
    if k <= lo then None
    else
      var m := CaptureAt(cap, s, k);
      if m.Some? then m else Backtrack(cap, s, lo, k - 1)
  }

  /** `words[0]\s+...\s+words[n-1]` at `i`: the position just after the last word. */
  function WordsAt(s: string, i: nat, words: seq<string>): (r: Option<nat>)
    requires i <= |s| && words != []
    ensures r.Some? ==> i <= r.value <= |s|
    decreases |words|
  {
    if !HasAt(s, i, words[0]) then None
    else if |words| == 1 then Some(i + |words[0]|)
    else
      var e := i + |words[0]|;
      var k := Span(s, e, IsSpace);
      if k == e then None else WordsAt(s, k, words[1..])
  }

  /** The mandatory form `words...\s+(cap)` (or `(cap)` when there are no words) at `i`. */
  function LeadAt(words: seq<string>, cap: Capture, s: string, i: nat): (r: Option<Match>)
    requires i <= |s|
    ensures r.Some? ==> i <= r.value.start < r.value.end <= |s|
    ensures r.Some? ==> CaptureAt(cap, s, r.value.start) == r
  {
    if words == [] then CaptureAt(cap, s, i)
    else match WordsAt(s, i, words)
      case None => None
      case Some(e) =>
        var k := Span(s, e, IsSpace);
        if k == e then None else Backtrack(cap, s, e, k)
  }

  /** A dot at `q` followed by at least two letters. */
  predicate DotAt(s: string, q: nat) {
    q + 2 < |s| && s[q] == '.' && IsLetter(s[q + 1]) && IsLetter(s[q + 2])
  }

  /** The largest `q` in `lo..hi` with `DotAt(s, q)`: greedy domain, backtracking to the last dot. */
  function LastDot(s: string, lo: nat, hi: nat): (r: Option<nat>)
    ensures r.Some? ==> lo <= r.value <= hi && DotAt(s, r.value)
    ensures r.None? ==> forall q :: lo <= q <= hi ==> !DotAt(s, q)
    ensures r.Some? ==> forall q :: r.value < q <= hi ==> !DotAt(s, q)
    decreases hi
  {
    if hi < lo then None
    else if DotAt(s, hi) then Some(hi)
    else if hi == 0 then None
    else LastDot(s, lo, hi - 1)
  }

  /** The address pattern at `i`; the whole address is the capture group. */
  function EmailAt(s: string, i: nat): (r: Option<Match>)
    requires i <= |s|
    ensures r.Some? ==> r.value.start == i < r.value.end <= |s|
  {
    var l := Span(s, i, IsLocal);
    if l == i || l == |s| || s[l] != '@' then None
    else
      var d := Span(s, l + 1, IsDomain);
      match LastDot(s, l + 2, d)
      case None => None
      case Some(q) => Some(Match(i, Span(s, q + 1, IsLetter)))
  }

  /** The pattern tried at position `i` only. */
  function MatchAt(p: Pattern, s: string, i: nat): (r: Option<Match>)
    requires i <= |s|
    ensures r.Some? ==> i <= r.value.start < r.value.end <= |s|
    ensures r.Some? && p.Lead? ==> CaptureAt(p.cap, s, r.value.start) == r
  {
    match p
    case Lead(words, optional, cap) =>
      var m := LeadAt(words, cap, s, i);
      if m.None? && optional then CaptureAt(cap, s, i) else m
    case Email => EmailAt(s, i)
  }

  /** The first `f(j)` that is a match, for `j` from `i` up to `n`. */
  function FirstFrom(f: nat -> Option<Match>, n: nat, i: nat): (r: Option<Match>)
    requires i <= n
    ensures r.None? <==> forall j :: i <= j <= n ==> f(j).None?
    ensures r.Some? ==> exists j :: i <= j <= n && f(j) == r && forall j' :: i <= j' < j ==> f(j').None?
    decreases n - i
  {
    if f(i).Some? then f(i)
    else if i == n then None
    else
      var r := FirstFrom(f, n, i + 1);
      assert r.Some? ==> exists j :: i <= j <= n && f(j) == r && forall j' :: i <= j' < j ==> f(j').None? by {
        if r.Some? {
          var j :| i + 1 <= j <= n && f(j) == r && forall j' :: i + 1 <= j' < j ==> f(j').None?;
          assert forall j' :: i <= j' < j ==> f(j').None?;
        }
      }
      r
  }

  /** The pattern tried at every position of `s`; beyond its end nothing matches. */
  function Attempts(p: Pattern, s: string): nat -> Option<Match>
  {
    (j: nat) => if j <= |s| then MatchAt(p, s, j) else None
  }

  /** `re.search(p, s)`: the match at the leftmost position that has one. */
  function Search(p: Pattern, s: string): (r: Option<Match>)
    ensures r.Some? ==> r.value.start < r.value.end <= |s|
  {
    FirstFrom(Attempts(p, s), |s|, 0)
  }

  /** `Search` finds nothing exactly when no position matches, and otherwise the match at the leftmost one. */
  lemma SearchMeaning(p: Pattern, s: string)
    ensures var r := Search(p, s);
            && (r.None? <==> forall j :: 0 <= j <= |s| ==> MatchAt(p, s, j).None?)
            && (r.Some? ==> exists j :: 0 <= j <= |s| && MatchAt(p, s, j) == r &&
                                        forall j' :: 0 <= j' < j ==> MatchAt(p, s, j').None?)
  {
    var f := Attempts(p, s);
    assert forall j :: 0 <= j <= |s| ==> f(j) == MatchAt(p, s, j);
  }

  /** `m.group(1) if m else None`. */
  function Group(p: Pattern, s: string): (r: Option<string>)
  {
    match Search(p, s)
    case None => None
    case Some(m) => Some(s[m.start..m.end])
  }

  /** `s[i..k]` consists of `p`-characters only. */
  predicate All(s: string, i: nat, k: nat, p: char -> bool)
    requires i <= k <= |s|
  {
    forall j :: i <= j < k ==> p(s[j])
  }

  /** A run of `p`-characters from `j` to `k` is swallowed by `Span`. */
  lemma {:induction false} SpanCovers(s: string, j: nat, k: nat, p: char -> bool)
    requires j <= k <= |s| && All(s, j, k, p)
    ensures Span(s, j, p) >= k
    decreases k - j
  {
    if j < k {
      SpanCovers(s, j + 1, k, p);
    }
  }

  /** What `Search` finds for a `Lead` pattern is the capture group tried at its start. */
  lemma SearchCapture(p: Pattern, s: string)
    requires p.Lead? && Search(p, s).Some?
    ensures CaptureAt(p.cap, s, Search(p, s).value.start) == Search(p, s)
  {
    var j :| 0 <= j <= |s| && MatchAt(p, s, j) == Search(p, s);
  }

  /** Every capture a pattern produces has the shape of its capture group. */
  lemma GroupShape(p: Pattern, s: string)
    requires p.Lead? && Group(p, s).Some?
    ensures Shaped(p.cap, Group(p, s).value)
  {
    SearchCapture(p, s);
  }

  /**
   * `[^,\.]+` stops at the first comma or full stop: a clause capture holds
   * neither, and it ends at one of them or at the end of the text.
   */
  lemma ClauseStopsAtPunctuation(p: Pattern, s: string)
    requires p.Lead? && p.cap == Clause && Search(p, s).Some?
    ensures var m := Search(p, s).value;
      && (forall k :: m.start <= k < m.end ==> s[k] != ',' && s[k] != '.')
      && (m.end == |s| || s[m.end] == ',' || s[m.end] == '.')
  {
    SearchCapture(p, s);
    ClauseCapture(s, Search(p, s).value.start);
  }

  lemma ClauseCapture(s: string, j: nat)
    requires j <= |s| && CaptureAt(Clause, s, j).Some?
    ensures var m := CaptureAt(Clause, s, j).value;
      && (forall k :: j <= k < m.end ==> NotStop(s[k]))
      && (m.end == |s| || !NotStop(s[m.end]))
  {
  }

  predicate IsNumberCapture(cap: Capture) { cap == Digits || cap == Numeral }

  predicate HasDigit(s: string) { exists j :: 0 <= j < |s| && IsDigit(s[j]) }

  /** A digit at `j` starts a digit capture there. */
  lemma CaptureAtDigit(cap: Capture, s: string, j: nat)
    requires IsNumberCapture(cap) && j < |s| && IsDigit(s[j])
    ensures CaptureAt(cap, s, j).Some?
    ensures MatchAt(Lead([], false, cap), s, j) == CaptureAt(cap, s, j)
  {
    SpanCovers(s, j, j + 1, IsDigit);
  }

  /**
   * A number-capturing pattern only ever matches text holding a digit, and
   * one whose lead-in is optional (or absent) matches every such text: the
   * answers that make the dialogue re-prompt are exactly the digit-free ones.
   */
  lemma {:induction false} NumberAnswer(p: Pattern, s: string)
    requires p.Lead? && IsNumberCapture(p.cap)
    ensures Search(p, s).Some? ==> HasDigit(s)
    ensures (p.optional || p.words == []) && HasDigit(s) ==> Search(p, s).Some?
  {
    if Search(p, s).Some? {
      SearchCapture(p, s);
      assert IsDigit(s[Search(p, s).value.start]);
    }
    if (p.optional || p.words == []) && HasDigit(s) {
      SearchMeaning(p, s);
      var j :| 0 <= j < |s| && IsDigit(s[j]);
      CaptureAtDigit(p.cap, s, j);
      assert MatchAt(p, s, j).Some?;
    }
  }

  /** The address shape `local@domain.tld` that `Email` captures. */
  predicate EmailShaped(t: string) {
    exists a: nat, q: nat :: 0 < a && a + 1 < q && q + 2 < |t| && AddressParts(t, a, q)
  }

  predicate AddressParts(t: string, a: nat, q: nat)
    requires 0 < a && a + 1 < q && q + 2 < |t|
  {
    && All(t, 0, a, IsLocal)
    && t[a] == '@'
    && All(t, a + 1, q, IsDomain)
    && t[q] == '.'
    && All(t, q + 1, |t|, IsLetter)
  }

  /** A group found in lowercase text is lowercase. */
  lemma GroupIsLower(p: Pattern, s: string)
    requires IsLower(s) && Group(p, s).Some?
    ensures IsLower(Group(p, s).value)
  {
    var m := Search(p, s).value;
    SliceIsLower(s, m.start, m.end);
  }

  /** Any address the `Email` pattern finds has the shape `local@domain.tld`. */
  lemma EmailGroupShape(s: string)
    requires Group(Email, s).Some?
    ensures EmailShaped(Group(Email, s).value)
  {
    var i :| 0 <= i <= |s| && MatchAt(Email, s, i) == Search(Email, s);
    EmailAtShape(s, i);
  }

  lemma EmailAtShape(s: string, i: nat)
    requires i <= |s| && EmailAt(s, i).Some?
    ensures var m := EmailAt(s, i).value; EmailShaped(s[m.start..m.end])
  {
    var l := Span(s, i, IsLocal);
    var d := Span(s, l + 1, IsDomain);
    var q := LastDot(s, l + 2, d).value;
    SpanCovers(s, q + 1, q + 3, IsLetter);
    var e := Span(s, q + 1, IsLetter);
    assert EmailAt(s, i).value == Match(i, e);
    var t := s[i..e];
    assert AddressParts(t, l - i, q - i) by {
      assert forall k :: 0 <= k < |t| ==> t[k] == s[i + k];
    }
  }

  predicate NotDigit(c: char) { !IsDigit(c) }

  /** No word of a lead-in holds a digit. */
  predicate DigitFree(words: seq<string>) {
    forall n, k :: 0 <= n < |words| && 0 <= k < |words[n]| ==> !IsDigit(words[n][k])
  }

  lemma {:induction false} WordsAtDigitFree(s: string, i: nat, words: seq<string>)
    requires i <= |s| && words != [] && DigitFree(words) && WordsAt(s, i, words).Some?
    ensures All(s, i, WordsAt(s, i, words).value, NotDigit)
    decreases |words|
  {
    var w := words[0];
    assert forall k :: i <= k < i + |w| ==> s[k] == w[k - i];
    if |words| > 1 {
      var e := i + |w|;
      var k := Span(s, e, IsSpace);
      assert DigitFree(words[1..]) by {
        forall n, k' | 0 <= n < |words[1..]| && 0 <= k' < |words[1..][n]|
          ensures !IsDigit(words[1..][n][k'])
        {
          assert words[1..][n] == words[n + 1];
        }
      }
      WordsAtDigitFree(s, k, words[1..]);
    }
  }

  /** A digit-free lead-in puts no digit before the number it captures. */
  lemma LeadAtDigitFree(words: seq<string>, cap: Capture, s: string, i: nat)
    requires i <= |s| && words != [] && DigitFree(words) && IsNumberCapture(cap)
    requires LeadAt(words, cap, s, i).Some?
    ensures var m := LeadAt(words, cap, s, i).value; i < m.start && All(s, i, m.start, NotDigit)
  {
    var e := WordsAt(s, i, words).value;
    WordsAtDigitFree(s, i, words);
    var k := Span(s, e, IsSpace);
    var m := Backtrack(cap, s, e, k).value;
    assert CaptureAt(cap, s, m.start).Some?;
    assert m.start == k;
  }

  /**
   * In `(?:the\s+price\s+is\s+)?(\d+\.?\d*)` and its stock twin the lead-in
   * decides nothing: the pattern captures exactly what the bare number pattern
   * captures, the first run of digits in the answer.
   */
  lemma OptionalLeadIgnored(words: seq<string>, cap: Capture, s: string)
    requires words != [] && DigitFree(words) && IsNumberCapture(cap)
    ensures Search(Lead(words, true, cap), s) == Search(Lead([], false, cap), s)
  {
    var o := Lead(words, true, cap);
    var b := Lead([], false, cap);
    NumberAnswer(o, s);
    NumberAnswer(b, s);
    if Search(b, s).Some? {
      var j := FirstDigit(cap, s);
      SearchMeaning(o, s);
      var mo := Search(o, s).value;
      var io :| 0 <= io <= |s| && MatchAt(o, s, io) == Some(mo) &&
                forall j' :: 0 <= j' < io ==> MatchAt(o, s, j').None?;
      CaptureAtDigit(cap, s, j);
      assert MatchAt(o, s, j).Some?;
      OptionalAt(words, cap, s, io, j);
    }
  }

  /** The bare number pattern matches at the first digit of the text. */
  lemma FirstDigit(cap: Capture, s: string) returns (j: nat)
    requires IsNumberCapture(cap) && Search(Lead([], false, cap), s).Some?
    ensures j < |s| && IsDigit(s[j]) && All(s, 0, j, NotDigit)
    ensures Search(Lead([], false, cap), s) == CaptureAt(cap, s, j)
  {
    var b := Lead([], false, cap);
    var mb := Search(b, s).value;
    SearchMeaning(b, s);
    j :| 0 <= j <= |s| && MatchAt(b, s, j) == Some(mb) &&
         forall j' :: 0 <= j' < j ==> MatchAt(b, s, j').None?;
    assert CaptureAt(cap, s, j) == Some(mb);
    forall j' | 0 <= j' < j ensures !IsDigit(s[j']) {
      if IsDigit(s[j']) {
        CaptureAtDigit(cap, s, j');
      }
    }
  }

  /** The bare number pattern's group is the number read at the first digit `j`. */
  lemma FirstNumberGroup(cap: Capture, s: string, j: nat)
    requires IsNumberCapture(cap) && j < |s| && IsDigit(s[j]) && All(s, 0, j, NotDigit)
    ensures CaptureEnd(cap, s, j) > j
    ensures Group(Lead([], false, cap), s) == Some(s[j..CaptureEnd(cap, s, j)])
  {
    CaptureAtDigit(cap, s, j);
    NumberAnswer(Lead([], false, cap), s);
    var j' := FirstDigit(cap, s);
    assert j' == j;
  }

  /** Tried at or before the first digit `j`, the optional-lead pattern captures the number at `j`. */
  lemma OptionalAt(words: seq<string>, cap: Capture, s: string, i: nat, j: nat)
    requires words != [] && DigitFree(words) && IsNumberCapture(cap)
    requires i <= j < |s| && IsDigit(s[j]) && All(s, 0, j, NotDigit)
    requires MatchAt(Lead(words, true, cap), s, i).Some?
    ensures MatchAt(Lead(words, true, cap), s, i) == CaptureAt(cap, s, j)
  {
    var m := MatchAt(Lead(words, true, cap), s, i).value;
    assert CaptureAt(cap, s, m.start) == Some(m);
    assert IsDigit(s[m.start]);
    if LeadAt(words, cap, s, i).Some? {
      LeadAtDigitFree(words, cap, s, i);
    }
    assert m.start == j;
  }
}
