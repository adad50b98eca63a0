/**
 * The string operations the workflow and the chat view rely on: Python's `str.strip()`,
 * an ASCII `str.lower()`, the substring test `sub in s` and an anchored prefix match.
 */
module Text {

  /** The characters Python's `str.isspace()` accepts, which `str.strip()` removes. */
  predicate IsSpace(c: char) {
    c == ' ' || c == '\t' || c == '\n' || c == '\r' || c == '\U{B}' || c == '\U{C}'
    || ('\U{1C}' <= c <= '\U{1F}') || c == '\U{85}' || c == '\U{A0}' || c == '\U{1680}'
    || ('\U{2000}' <= c <= '\U{200A}') || c == '\U{2028}' || c == '\U{2029}'
    || c == '\U{202F}' || c == '\U{205F}' || c == '\U{3000}'
  }

  /** `str.lower()` on one character, for the ASCII letters. */
  function LowerChar(c: char): char {
    if 'A' <= c <= 'Z' then (c as int + 32) as char else c
  }

  /** `str.lower()`, character by character. */
  function Lower(s: string): (r: string)
    ensures |r| == |s|
    ensures forall i :: 0 <= i < |s| ==> r[i] == LowerChar(s[i])
  {
    seq(|s|, i requires 0 <= i < |s| => LowerChar(s[i]))
  }

  /** The number of whitespace characters at the start of `s`. */
  function LeadingSpaces(s: string): (k: nat)
    ensures k <= |s|
    ensures forall i :: 0 <= i < k ==> IsSpace(s[i])
    ensures k < |s| ==> !IsSpace(s[k])
  {
    if s != [] && IsSpace(s[0]) then 1 + LeadingSpaces(s[1..]) else 0
  }

  /** The number of whitespace characters at the end of `s`. */
  function TrailingSpaces(s: string): (k: nat)
    ensures k <= |s|
    ensures forall i :: |s| - k <= i < |s| ==> IsSpace(s[i])
    ensures k < |s| ==> !IsSpace(s[|s| - 1 - k])
  {
    if s != [] && IsSpace(s[|s| - 1]) then 1 + TrailingSpaces(s[..|s| - 1]) else 0
  }

  /** `str.strip()`: `s` without its leading and trailing whitespace. */
  function Strip(s: string): (r: string)
    ensures r == [] || (!IsSpace(r[0]) && !IsSpace(r[|r| - 1]))
  {
    var t := s[LeadingSpaces(s)..];
    t[..|t| - TrailingSpaces(t)]
  }

  /** `sub` occurs in `s` starting at index `i`. */
  predicate OccursAt(s: string, sub: string, i: int) {
    0 <= i && i + |sub| <= |s| && s[i..i + |sub|] == sub
  }

  /** Python's `sub in s`. */
  predicate Contains(s: string, sub: string) {
    exists i | 0 <= i <= |s| - |sub| :: OccursAt(s, sub, i)
  }

  /**
   * `re.match("^" + prefix, s)` is not None, for a prefix without regular-expression
   * metacharacters (all the prefixes the chat view matches are of this kind).
   */
  predicate StartsWith(s: string, prefix: string) {
    |prefix| <= |s| && s[..|prefix|] == prefix
  }

  /** `OccursAt` stated character by character. */
  lemma OccursAtPointwise(s: string, sub: string, i: int)
    ensures OccursAt(s, sub, i) <==>
      (0 <= i && i + |sub| <= |s| && forall j :: 0 <= j < |sub| ==> s[i + j] == sub[j])
  {
    if 0 <= i && i + |sub| <= |s| {
      if forall j :: 0 <= j < |sub| ==> s[i + j] == sub[j] {
        assert s[i..i + |sub|] == sub;
      }
    }
  }

  /**
   * Trimming whitespace off both ends of `s` does not change whether `s` contains a word
   * that begins and ends with a non-space character.
   */
  lemma ContainsTrimmed(s: string, a: nat, b: nat, w: string)
    requires a <= b <= |s|
    requires forall i :: 0 <= i < a ==> IsSpace(s[i])
    requires forall i :: b <= i < |s| ==> IsSpace(s[i])
    requires w != [] && !IsSpace(w[0]) && !IsSpace(w[|w| - 1])
    ensures Contains(s[a..b], w) <==> Contains(s, w)
  {
    var t := s[a..b];
    if Contains(t, w) {
      var i :| 0 <= i <= |t| - |w| && OccursAt(t, w, i);
      OccursAtPointwise(t, w, i);
      OccursAtPointwise(s, w, a + i);
      assert OccursAt(s, w, a + i);
    }
    if Contains(s, w) {
      var i :| 0 <= i <= |s| - |w| && OccursAt(s, w, i);
      OccursAtPointwise(s, w, i);
      assert s[i + 0] == w[0];
      assert s[i + (|w| - 1)] == w[|w| - 1];
      assert a <= i && i + |w| <= b;
      OccursAtPointwise(t, w, i - a);
      assert OccursAt(t, w, i - a);
    }
  }

  /** `Lower` commutes with taking a slice. */
  lemma LowerSlice(s: string, a: nat, b: nat)
    requires a <= b <= |s|
    ensures Lower(s[a..b]) == Lower(s)[a..b]
  {
  }

  /** `Strip(s)` is the slice of `s` between its leading and its trailing whitespace. */
  lemma StripBounds(s: string) returns (a: nat, b: nat)
    ensures a <= b <= |s| && Strip(s) == s[a..b]
    ensures forall i :: 0 <= i < a ==> IsSpace(s[i])
    ensures forall i :: b <= i < |s| ==> IsSpace(s[i])
  {
    a := LeadingSpaces(s);
    var t := s[a..];
    b := a + (|t| - TrailingSpaces(t));
    forall i | b <= i < |s| ensures IsSpace(s[i]) {
      assert t[i - a] == s[i];
    }
  }

  /** Lower-casing after stripping finds "valid" exactly when lower-casing alone does. */
  lemma ValidIgnoresStrip(s: string)
    ensures Contains(Lower(Strip(s)), "valid") <==> Contains(Lower(s), "valid")
  {
    var a, b := StripBounds(s);
    var low := Lower(s);
    LowerSlice(s, a, b);
    assert forall i :: 0 <= i < a ==> IsSpace(low[i]);
    assert forall i :: b <= i < |s| ==> IsSpace(low[i]);
    ContainsTrimmed(low, a, b, "valid");
  }

  /** Every string containing "invalid" also contains "valid". */
  lemma InvalidContainsValid(s: string)
    requires Contains(s, "invalid")
    ensures Contains(s, "valid")
  {
    var i :| 0 <= i <= |s| - 7 && OccursAt(s, "invalid", i);
    assert s[i + 2..i + 7] == s[i..i + 7][2..];
    assert OccursAt(s, "valid", i + 2);
  }

  /** Two prefixes that disagree at some position cannot both begin the same string. */
  lemma PrefixesClash(s: string, p: string, q: string, k: nat)
    requires k < |p| && k < |q| && p[k] != q[k]
    ensures !(StartsWith(s, p) && StartsWith(s, q))
  {
  }

  /** A string built as `prefix + rest` starts with `prefix`. */
  lemma StartsWithConcat(prefix: string, rest: string)
    ensures StartsWith(prefix + rest, prefix)
  {
    assert (prefix + rest)[..|prefix|] == prefix;
  }
}
