/**
 * ASCII text primitives shared by the classifiers and the user registry:
 * the parts of Python's str.lower(), str.strip(), str.isupper(), `in` and
 * str.count() that the chat code relies on, restricted to ASCII.
 */
module Text {

  predicate IsUpper(c: char) { 'A' <= c <= 'Z' }

  predicate IsLower(c: char) { 'a' <= c <= 'z' }

  predicate IsDigit(c: char) { '0' <= c <= '9' }

  /** Python's whitespace on ASCII: space, \t \n \v \f \r and the separators 0x1C-0x1F. */
  predicate IsSpace(c: char) {
    c == ' ' || (9 <= c as int <= 13) || (28 <= c as int <= 31)
  }

  /** The regex class \w on ASCII. */
  predicate IsWordChar(c: char) { IsUpper(c) || IsLower(c) || IsDigit(c) || c == '_' }

  function LowerChar(c: char): (r: char)
    ensures !IsUpper(r)
    ensures IsUpper(c) ==> IsLower(r)
    ensures !IsUpper(c) ==> r == c
  {
    if IsUpper(c) then (c as int + 32) as char else c
  }

  /** str.lower() */
  function Lower(s: string): (r: string)
    ensures |r| == |s|
    ensures forall i :: 0 <= i < |s| ==> r[i] == LowerChar(s[i])
  {
    seq(|s|, i requires 0 <= i < |s| => LowerChar(s[i]))
  }

  /** `w` occurs in `s` starting at position `i` */
  predicate OccursAt(s: string, w: string, i: int) {
    0 <= i && i + |w| <= |s| && s[i..i + |w|] == w
  }

  /** `w in s` for strings */
  predicate Contains(s: string, w: string) {
    exists i :: 0 <= i <= |s| && OccursAt(s, w, i)
  }

  /** The `for keyword in keywords: if keyword in text` scan: some keyword occurs. */
  predicate AnyKeyword(text: string, keywords: seq<string>) {
    exists k :: k in keywords && Contains(text, k)
  }

  /** str.count(c) for a single character */
  function CountChar(s: string, c: char): nat
  {
    if |s| == 0 then 0 else (if s[0] == c then 1 else 0) + CountChar(s[1..], c)
  }

  /** str.isupper(): some cased character, and no lower-case one */
  predicate IsUpperString(s: string) {
    (exists i :: 0 <= i < |s| && IsUpper(s[i])) && !(exists i :: 0 <= i < |s| && IsLower(s[i]))
  }

  function StripLeft(s: string): (r: string)
    ensures |r| <= |s| && r == s[|s| - |r|..]
    ensures r == [] || !IsSpace(r[0])
    ensures forall i :: 0 <= i < |s| - |r| ==> IsSpace(s[i])
  {
    if |s| > 0 && IsSpace(s[0]) then StripLeft(s[1..]) else s
  }

  function StripRight(s: string): (r: string)
    ensures |r| <= |s| && r == s[..|r|]
    ensures r == [] || !IsSpace(r[|r| - 1])
    ensures forall i :: |r| <= i < |s| ==> IsSpace(s[i])
  {
    if |s| > 0 && IsSpace(s[|s| - 1]) then StripRight(s[..|s| - 1]) else s
  }

  /** str.strip() */
  function Strip(s: string): (r: string)
    ensures |r| <= |s|
    ensures r == [] || (!IsSpace(r[0]) && !IsSpace(r[|r| - 1]))
  {
    StripRight(StripLeft(s))
  }

  lemma ContainsDropFirst(s: string, w: string)
    requires |s| > 0 && IsSpace(s[0]) && |w| > 0 && !IsSpace(w[0])
    ensures Contains(s, w) <==> Contains(s[1..], w)
  {
    if Contains(s, w) {
      var i :| 0 <= i <= |s| && OccursAt(s, w, i);
      assert s[i] == w[0];
      assert s[1..][i - 1..i - 1 + |w|] == s[i..i + |w|];
      assert OccursAt(s[1..], w, i - 1);
    }
    if Contains(s[1..], w) {
      var t := s[1..];
      var i :| 0 <= i <= |t| && OccursAt(t, w, i);
      assert 0 <= i && i + |w| <= |t| && t[i..i + |w|] == w;
      assert s[i + 1..i + 1 + |w|] == t[i..i + |w|];
      assert OccursAt(s, w, i + 1);
    }
  }

  lemma ContainsDropLast(s: string, w: string)
    requires |s| > 0 && IsSpace(s[|s| - 1]) && |w| > 0 && !IsSpace(w[|w| - 1])
    ensures Contains(s, w) <==> Contains(s[..|s| - 1], w)
  {
    if Contains(s, w) {
      var i :| 0 <= i <= |s| && OccursAt(s, w, i);
      assert s[i + |w| - 1] == w[|w| - 1];
      assert s[..|s| - 1][i..i + |w|] == s[i..i + |w|];
      assert OccursAt(s[..|s| - 1], w, i);
    }
    if Contains(s[..|s| - 1], w) {
      var t := s[..|s| - 1];
      var i :| 0 <= i <= |t| && OccursAt(t, w, i);
      assert 0 <= i && i + |w| <= |t| && t[i..i + |w|] == w;
      assert s[i..i + |w|] == t[i..i + |w|];
      assert OccursAt(s, w, i);
    }
  }

  lemma {:induction false} ContainsStripLeft(s: string, w: string)
    requires |w| > 0 && !IsSpace(w[0])
    ensures Contains(StripLeft(s), w) <==> Contains(s, w)
    decreases |s|
  {
    if |s| > 0 && IsSpace(s[0]) {
      ContainsStripLeft(s[1..], w);
      ContainsDropFirst(s, w);
    }
  }

  lemma {:induction false} ContainsStripRight(s: string, w: string)
    requires |w| > 0 && !IsSpace(w[|w| - 1])
    ensures Contains(StripRight(s), w) <==> Contains(s, w)
    decreases |s|
  {
    if |s| > 0 && IsSpace(s[|s| - 1]) {
      ContainsStripRight(s[..|s| - 1], w);
      ContainsDropLast(s, w);
    }
  }

  /**
   * Stripping only removes whitespace at the ends: a word that neither
   * starts nor ends with whitespace occurs in `Strip(s)` exactly when it
   * occurs in `s`.
   */
  lemma ContainsStrip(s: string, w: string)
    requires |w| > 0 && !IsSpace(w[0]) && !IsSpace(w[|w| - 1])
    ensures Contains(Strip(s), w) <==> Contains(s, w)
  {
    ContainsStripLeft(s, w);
    ContainsStripRight(StripLeft(s), w);
  }
}
