/**
 * The string primitives the client applies to every utterance before any
 * matching: `str.lower()`, `str.strip()` and the `in` substring test, plus the
 * character classes the fixed regular expressions use.
 */
module Text {

  /** Python's `str.isspace()`, which is also what `\s` matches in a `str` pattern. */
  predicate IsSpace(c: char) {
    || ('\t' <= c <= '\r')
    || ('\U{1C}' <= c <= '\U{1F}')
    || c == ' ' || c == '\U{85}' || c == '\U{A0}' || c == '\U{1680}'
    || ('\U{2000}' <= c <= '\U{200A}')
    || c == '\U{2028}' || c == '\U{2029}' || c == '\U{202F}' || c == '\U{205F}' || c == '\U{3000}'
  }

  /** `\d`, restricted to the ASCII digits. */
  predicate IsDigit(c: char) { '0' <= c <= '9' }

  predicate IsUpper(c: char) { 'A' <= c <= 'Z' }

  predicate IsLetter(c: char) { IsUpper(c) || 'a' <= c <= 'z' }

  function LowerChar(c: char): (r: char)
    ensures !IsUpper(r)
    ensures !IsUpper(c) ==> r == c
    ensures IsUpper(c) ==> r as int == c as int + 32
  {
    if IsUpper(c) then (c as int + 32) as char else c
  }

  /** No upper-case ASCII letter occurs in `s`. */
  predicate IsLower(s: string) {
    forall i :: 0 <= i < |s| ==> !IsUpper(s[i])
  }

  /** `s.lower()` on the ASCII letters. */
  function Lower(s: string): (r: string)
    ensures |r| == |s|
    ensures forall i :: 0 <= i < |s| ==> r[i] == LowerChar(s[i])
  {
    if s == [] then [] else [LowerChar(s[0])] + Lower(s[1..])
  }

  /** The whitespace-free-at-the-front suffix of `s`. */
  function TrimStart(s: string): (r: string)
    ensures |r| <= |s| && r == s[|s| - |r|..]
    ensures forall i :: 0 <= i < |s| - |r| ==> IsSpace(s[i])
    ensures r == [] || !IsSpace(r[0])
  {
    if s != [] && IsSpace(s[0]) then TrimStart(s[1..]) else s
  }

  /** The whitespace-free-at-the-back prefix of `s`. */
  function TrimEnd(s: string): (r: string)
    ensures |r| <= |s| && r == s[..|r|]
    ensures forall i :: |r| <= i < |s| ==> IsSpace(s[i])
    ensures r == [] || !IsSpace(r[|r| - 1])
  {
    if s != [] && IsSpace(s[|s| - 1]) then TrimEnd(s[..|s| - 1]) else s
  }

  /** `s.strip()`. */
  function Strip(s: string): (r: string)
    ensures |r| <= |s|
    ensures r == [] || (!IsSpace(r[0]) && !IsSpace(r[|r| - 1]))
  {
    var t := TrimStart(s);
    var r := TrimEnd(t);
    assert r != [] ==> r[0] == t[0];
    r
  }

  /** `s.strip()` is empty exactly when `s` is all whitespace. */
  lemma StripEmptyOnlyOnSpace(s: string)
    ensures Strip(s) == [] <==> forall i :: 0 <= i < |s| ==> IsSpace(s[i])
  {
  }

  /** `text.lower().strip()`, the normal form every handler works on. */
  function Normalize(s: string): (r: string)
    ensures |r| <= |s|
    ensures r == [] || (!IsSpace(r[0]) && !IsSpace(r[|r| - 1]))
  {
    Strip(Lower(s))
  }

  /** `w` occurs in `s` starting at index `i`. */
  predicate HasAt(s: string, i: nat, w: string) {
    i + |w| <= |s| && s[i..i + |w|] == w
  }

  /** Python's `w in s` for strings. */
  function Contains(s: string, w: string): (r: bool)
    ensures r <==> exists i: nat :: i <= |s| && HasAt(s, i, w)
    decreases |s|
  {
    if |s| < |w| then false
    else if s[..|w|] == w then (assert HasAt(s, 0, w); true)
    else
      var rest := Contains(s[1..], w);
      assert rest ==> exists i: nat :: i <= |s| && HasAt(s, i, w) by {
        if rest {
          var j: nat :| j <= |s| - 1 && HasAt(s[1..], j, w);
          ShiftHasAt(s, w, j);
        }
      }
      assert (exists i: nat :: i <= |s| && HasAt(s, i, w)) ==> rest by {
        if exists i: nat :: i <= |s| && HasAt(s, i, w) {
          var i: nat :| i <= |s| && HasAt(s, i, w);
          assert i != 0;
          ShiftHasAt(s, w, i - 1);
        }
      }
      rest
  }

  lemma ShiftHasAt(s: string, w: string, j: nat)
    requires s != []
    ensures HasAt(s[1..], j, w) <==> HasAt(s, j + 1, w)
  {
    if j + 1 + |w| <= |s| {
      assert s[1..][j..j + |w|] == s[j + 1..j + 1 + |w|];
    }
  }

  /** Normalising leaves no leading or trailing whitespace and no upper-case letter. */
  lemma NormalizeShape(s: string)
    ensures var r := Normalize(s);
      && IsLower(r)
      && (r == [] || (!IsSpace(r[0]) && !IsSpace(r[|r| - 1])))
  {
    var l := Lower(s);
    assert IsLower(l);
    var t := TrimStart(l);
    SliceIsLower(l, |l| - |t|, |l|);
    var r := TrimEnd(t);
    SliceIsLower(t, 0, |r|);
    if r != [] {
      assert r[0] == t[0];
    }
  }

  /** Every slice of a string without upper-case letters has none either. */
  lemma SliceIsLower(s: string, i: nat, j: nat)
    requires i <= j <= |s| && IsLower(s)
    ensures IsLower(s[i..j])
  {
  }

  /** Lower-casing and stripping a second time changes nothing. */
  lemma NormalizeIdempotent(s: string)
    ensures Normalize(Normalize(s)) == Normalize(s)
  {
    var r := Normalize(s);
    NormalizeShape(s);
    LowerOfLower(r);
    StripOfStripped(r);
  }

  lemma LowerOfLower(s: string)
    requires IsLower(s)
    ensures Lower(s) == s
  {
  }

  lemma StripOfStripped(s: string)
    requires s == [] || (!IsSpace(s[0]) && !IsSpace(s[|s| - 1]))
    ensures Strip(s) == s
  {
  }
}
