/**
 * The keyword-and-pattern spam predicate: a message is spam when a listed
 * phrase occurs in its normalised text, when a character repeats five
 * times, when a word repeats three times, when it holds a link, or when it
 * is longer than 300 characters.
 *
 * Each regular expression is modelled by the set of strings it finds a
 * match in (a regex search succeeds exactly when some match exists).
 */
module SpamUtils {
  import opened Text

  const SpamKeywords: seq<string> :=
    ["buy now", "free money", "visit this site",
     "click here", "subscribe", "lottery",
     "win cash", "make money fast", "100% free",
     "limited offer", "act now", "double your",
     "work from home"]

  const MaxLength := 300

  // ------------------------------------------------------------ normalize

  /** The characters `[a-z0-9\s]` that normalize keeps. */
  predicate Kept(c: char) { IsLower(c) || IsDigit(c) || IsSpace(c) }

  predicate AllKept(s: string) { forall i :: 0 <= i < |s| ==> Kept(s[i]) }

  /** re.sub(r"[^a-z0-9\s]", "", s): every other character is deleted. */
  function KeepOnly(s: string): (r: string)
    ensures |r| <= |s|
    ensures AllKept(r)
    decreases |s|
  {
    if s == [] then [] else (if Kept(s[0]) then [s[0]] else []) + KeepOnly(s[1..])
  }

  /** normalize: lower-case, then drop everything but letters, digits and whitespace. */
  function Normalize(text: string): (r: string)
    ensures |r| <= |text|
    ensures AllKept(r)
  {
    KeepOnly(Lower(text))
  }

  lemma {:induction false} KeepOnlyAppend(s: string, t: string)
    ensures KeepOnly(s + t) == KeepOnly(s) + KeepOnly(t)
    decreases |s|
  {
    if s != [] {
      assert (s + t)[1..] == s[1..] + t;
      KeepOnlyAppend(s[1..], t);
    } else {
      assert s + t == t;
    }
  }

  lemma {:induction false} KeepOnlyAllKept(s: string)
    requires AllKept(s)
    ensures KeepOnly(s) == s
    decreases |s|
  {
    if s != [] {
      KeepOnlyAllKept(s[1..]);
    }
  }

  lemma LowerNoUpper(s: string)
    requires forall i :: 0 <= i < |s| ==> !IsUpper(s[i])
    ensures Lower(s) == s
  {
  }

  /** Normalising a normalised text changes nothing. */
  lemma NormalizeIdempotent(text: string)
    ensures Normalize(Normalize(text)) == Normalize(text)
  {
    var n := Normalize(text);
    LowerNoUpper(n);
    KeepOnlyAllKept(n);
  }

  /**
   * Deleting characters never separates the kept characters of an
   * occurrence: a phrase made only of kept characters that occurs in `s`
   * still occurs after the deletion.
   */
  lemma KeptPhraseSurvives(s: string, w: string)
    requires Contains(s, w) && AllKept(w)
    ensures Contains(KeepOnly(s), w)
  {
    var i :| 0 <= i <= |s| && OccursAt(s, w, i);
    var pre, mid, post := s[..i], s[i..i + |w|], s[i + |w|..];
    assert s == pre + mid + post;
    KeepOnlyAppend(pre, mid);
    KeepOnlyAppend(pre + mid, post);
    KeepOnlyAllKept(w);
    var r := KeepOnly(s);
    assert r == KeepOnly(pre) + w + KeepOnly(post);
    assert OccursAt(r, w, |KeepOnly(pre)|);
  }

  /** A phrase holding a character normalize deletes never occurs in a normalised text. */
  lemma UnkeptPhraseNeverOccurs(text: string, w: string, j: nat)
    requires j < |w| && !Kept(w[j])
    ensures !Contains(Normalize(text), w)
  {
    var n := Normalize(text);
    forall i | 0 <= i <= |n|
      ensures !OccursAt(n, w, i)
    {
      if i + |w| <= |n| {
        assert n[i..i + |w|][j] == n[i + j];
      }
    }
  }

  /** "100% free" is listed but can never match, because normalize deletes the '%'. */
  lemma HundredPercentFreeNeverMatches(text: string)
    ensures !Contains(Normalize(text), "100% free")
  {
    UnkeptPhraseNeverOccurs(text, "100% free", 3);
  }

  // ------------------------------------------------------------ patterns

  /** `(.)\1{4,}` matches at `i`: five equal characters, the first not a newline. */
  predicate RepeatedCharAt(s: string, i: int) {
    0 <= i && i + 5 <= |s| && s[i] != '\n' &&
    s[i + 1] == s[i] && s[i + 2] == s[i] && s[i + 3] == s[i] && s[i + 4] == s[i]
  }

  predicate HasRepeatedChar(s: string) {
    exists i | 0 <= i < |s| :: RepeatedCharAt(s, i)
  }

  predicate WordChars(s: string, lo: int, hi: int)
    requires 0 <= lo <= hi <= |s|
  {
    forall j :: lo <= j < hi ==> IsWordChar(s[j])
  }

  predicate Spaces(s: string, lo: int, hi: int)
    requires 0 <= lo <= hi <= |s|
  {
    forall j :: lo <= j < hi ==> IsSpace(s[j])
  }

  /**
   * `\b(\w+)\s+\1\s+\1` matches with the group `s[i..i+k]`, the second copy
   * at `a` and the third at `b`: a word boundary before the group, a run of
   * whitespace between the copies. The third copy may be followed by more
   * word characters, as the pattern ends without a boundary.
   */
  predicate RepeatedWordAt(s: string, i: int, k: int, a: int, b: int) {
    0 <= i && 1 <= k && i + k < a && a + k < b && b + k <= |s| &&
    (i == 0 || !IsWordChar(s[i - 1])) &&
    WordChars(s, i, i + k) &&
    Spaces(s, i + k, a) && s[a..a + k] == s[i..i + k] &&
    Spaces(s, a + k, b) && s[b..b + k] == s[i..i + k]
  }

  predicate HasRepeatedWord(s: string) {
    exists i, k, a, b | 0 <= i < |s| && 1 <= k <= |s| && 0 <= a <= |s| && 0 <= b <= |s| ::
      RepeatedWordAt(s, i, k, a, b)
  }

  /** A link prefix at `i`, followed by at least one non-whitespace character. */
  predicate LinkAt(s: string, i: int, prefix: string) {
    OccursAt(s, prefix, i) && i + |prefix| < |s| && !IsSpace(s[i + |prefix|])
  }

  /** `https?://\S+` or `www\.\S+` matches in `s`. */
  predicate LinkIn(s: string) {
    exists i | 0 <= i < |s| :: LinkAt(s, i, "http://") || LinkAt(s, i, "https://") || LinkAt(s, i, "www.")
  }

  /** The link pattern ignores case: it matches in the text exactly when it matches in the lower-cased text. */
  predicate HasLink(text: string) {
    LinkIn(Lower(text))
  }

  // ------------------------------------------------------------ is_spam

  /** is_spam: the rules in the order the detector tries them; empty text is never spam. */
  predicate IsSpam(text: string) {
    if text == [] then false
    else if AnyKeyword(Normalize(text), SpamKeywords) then true
    else if HasRepeatedChar(Lower(text)) then true
    else if HasRepeatedWord(Lower(text)) then true
    else if HasLink(text) then true
    else |text| > MaxLength
  }

  /** The first seven keywords are made of characters normalize keeps. */
  lemma MatchableEarly(j: int)
    requires 0 <= j < 7
    ensures AllKept(SpamKeywords[j])
  {
  }

  /** So are the later ones, but for "100% free" at position 8. */
  lemma MatchableLate(j: int)
    requires 7 <= j < |SpamKeywords| && j != 8
    ensures AllKept(SpamKeywords[j])
  {
  }

  /** Every keyword but "100% free" is made of characters normalize keeps. */
  lemma MatchableKeywords()
    ensures forall k :: k in SpamKeywords && k != "100% free" ==> AllKept(k)
  {
    forall k | k in SpamKeywords && k != "100% free"
      ensures AllKept(k)
    {
      var j :| 0 <= j < |SpamKeywords| && SpamKeywords[j] == k;
      if j < 7 { MatchableEarly(j); } else { MatchableLate(j); }
    }
  }

  /**
   * A listed phrase found in the lower-cased text, in any letter case of
   * the original, makes the message spam, except "100% free", which never can.
   */
  lemma KeywordInTextIsSpam(text: string, k: string)
    requires k in SpamKeywords && k != "100% free" && Contains(Lower(text), k)
    ensures IsSpam(text)
  {
    MatchableKeywords();
    KeptPhraseSurvives(Lower(text), k);
    assert text != [] by {
      var i :| 0 <= i <= |Lower(text)| && OccursAt(Lower(text), k, i);
    }
  }

  /** Messages longer than 300 characters are spam whatever they say. */
  lemma LongTextIsSpam(text: string)
    requires |text| > MaxLength
    ensures IsSpam(text)
  {
  }

  lemma EmptyIsNotSpam()
    ensures !IsSpam("")
  {
  }

  /** "heyyyyy": five y's in a row. */
  lemma RepeatedLetterIsSpam()
    ensures IsSpam("heyyyyy")
  {
    LowerNoUpper("heyyyyy");
    assert RepeatedCharAt(Lower("heyyyyy"), 2);
  }

  /** "free free free": a word and two more copies, one space apart. */
  lemma RepeatedWordIsSpam()
    ensures IsSpam("free free free")
  {
    var s := "free free free";
    LowerNoUpper(s);
    assert RepeatedWordAt(Lower(s), 0, 4, 5, 10);
  }

  /** The link rule ignores case: "WWW.x" counts. */
  lemma UpperCaseLinkIsSpam()
    ensures IsSpam("WWW.x")
  {
    var l := Lower("WWW.x");
    assert l == "www.x";
    assert LinkAt(l, 0, "www.");
  }

  /** A link prefix followed by whitespace is not a link. */
  lemma BareLinkPrefixIsNotLink()
    ensures !HasLink("www. ")
  {
    var l := Lower("www. ");
    assert l == "www. ";
    forall i | 0 <= i < |l|
      ensures !LinkAt(l, i, "http://") && !LinkAt(l, i, "https://") && !LinkAt(l, i, "www.")
    {
      if i == 0 {
        assert IsSpace(l[4]);
      } else if i == 1 {
        assert l[1..5] != "www.";
      } else {
        assert i + 4 > |l|;
      }
    }
  }
}
