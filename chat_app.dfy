/**
 * The classification and display side of the chat server: the server's
 * own spam detector (a longer phrase list and a capitals rule on top of
 * the shared patterns), the content heuristic that picks a priority tier,
 * the tier a sent message finally gets, and the display buffers that keep
 * the newest messages of each tier once a batch has been sent.
 */
module ChatApp {
  import opened Text
  import opened Optional
  import opened Deques
  import SpamUtils

  // ------------------------------------------------------------ spam

  const SpamKeywords: seq<string> :=
    ["buy now", "free money", "visit this site",
     "click here", "subscribe", "lottery",
     "win cash", "make money fast", "100% free",
     "limited offer", "act now", "double your",
     "work from home", "earn $", "make $$$",
     "guaranteed", "no risk", "urgent", "congratulations",
     "winner", "claim now", "exclusive deal"]

  /** Ten capital letters start at `i`. */
  predicate CapitalsAt(s: string, i: int) {
    0 <= i && i + 10 <= |s| && forall j :: i <= j < i + 10 ==> IsUpper(s[j])
  }

  /** `[A-Z]{10,}` matches: ten capital letters in a row (case matters here). */
  predicate HasCapitalsRun(s: string) {
    exists i | 0 <= i < |s| :: CapitalsAt(s, i)
  }

  /**
   * is_spam of the server's detector: the phrase list, repeated
   * characters, repeated words, links and length as in the shared
   * detector, then a run of capitals.
   */
  predicate IsSpam(text: string) {
    if text == [] then false
    else if AnyKeyword(SpamUtils.Normalize(text), SpamKeywords) then true
    else if SpamUtils.HasRepeatedChar(Lower(text)) then true
    else if SpamUtils.HasRepeatedWord(Lower(text)) then true
    else if SpamUtils.HasLink(text) then true
    else if |text| > SpamUtils.MaxLength then true
    else HasCapitalsRun(text)
  }

  /** The three listed phrases with '%' or '$' can never match: normalize deletes those characters. */
  lemma UnreachableSpamKeywords(text: string)
    ensures !Contains(SpamUtils.Normalize(text), "100% free")
    ensures !Contains(SpamUtils.Normalize(text), "earn $")
    ensures !Contains(SpamUtils.Normalize(text), "make $$$")
  {
    SpamUtils.UnkeptPhraseNeverOccurs(text, "100% free", 3);
    SpamUtils.UnkeptPhraseNeverOccurs(text, "earn $", 5);
    SpamUtils.UnkeptPhraseNeverOccurs(text, "make $$$", 5);
  }

  /**
   * A listed phrase made of characters normalize keeps (every phrase but
   * the three above), found in the lower-cased text in any letter case,
   * makes the message spam.
   */
  lemma SpamKeywordInTextIsSpam(text: string, k: string)
    requires k in SpamKeywords && SpamUtils.AllKept(k)
    requires Contains(Lower(text), k)
    ensures IsSpam(text)
  {
    SpamUtils.KeptPhraseSurvives(Lower(text), k);
    assert text != [] by {
      var i :| 0 <= i <= |Lower(text)| && OccursAt(Lower(text), k, i);
    }
  }

  /** Whatever the shared detector flags, this one flags too: it only adds phrases and a rule. */
  lemma SharedSpamIsSpam(text: string)
    requires SpamUtils.IsSpam(text)
    ensures IsSpam(text)
  {
    if AnyKeyword(SpamUtils.Normalize(text), SpamUtils.SpamKeywords) {
      var k :| k in SpamUtils.SpamKeywords && Contains(SpamUtils.Normalize(text), k);
      assert k in SpamKeywords;
    }
  }

  /** The letters a to j, the lower-cased text of the capitals example. */
  predicate AToJ(s: string) { forall i :: 0 <= i < |s| ==> 'a' <= s[i] <= 'j' }

  lemma ForeignCharNotContained(n: string, k: string, j: nat)
    requires AToJ(n) && j < |k| && !('a' <= k[j] <= 'j')
    ensures !Contains(n, k)
  {
    forall i | 0 <= i <= |n|
      ensures !OccursAt(n, k, i)
    {
      if i + |k| <= |n| {
        assert n[i..i + |k|][j] == n[i + j];
      }
    }
  }

  lemma NoSharedKeywordInAToJ(n: string)
    requires AToJ(n)
    ensures !AnyKeyword(n, SpamUtils.SpamKeywords)
  {
    ForeignCharNotContained(n, "buy now", 1);
    ForeignCharNotContained(n, "free money", 1);
    ForeignCharNotContained(n, "visit this site", 0);
    ForeignCharNotContained(n, "click here", 1);
    ForeignCharNotContained(n, "subscribe", 0);
    ForeignCharNotContained(n, "lottery", 0);
    ForeignCharNotContained(n, "win cash", 0);
    ForeignCharNotContained(n, "make money fast", 0);
    ForeignCharNotContained(n, "100% free", 0);
    ForeignCharNotContained(n, "limited offer", 0);
    ForeignCharNotContained(n, "act now", 2);
    ForeignCharNotContained(n, "double your", 1);
    ForeignCharNotContained(n, "work from home", 0);
  }

  lemma NoLinkInAToJ(l: string)
    requires AToJ(l)
    ensures !SpamUtils.LinkIn(l)
  {
    ForeignCharNotContained(l, "http://", 1);
    ForeignCharNotContained(l, "https://", 1);
    ForeignCharNotContained(l, "www.", 0);
    forall i | 0 <= i < |l|
      ensures !SpamUtils.LinkAt(l, i, "http://") && !SpamUtils.LinkAt(l, i, "https://") &&
              !SpamUtils.LinkAt(l, i, "www.")
    {
      assert !OccursAt(l, "http://", i) && !OccursAt(l, "https://", i) && !OccursAt(l, "www.", i);
    }
  }

  lemma NoRepeatedWordInAToJ(l: string)
    requires AToJ(l)
    ensures !SpamUtils.HasRepeatedWord(l)
  {
    forall i, k, a, b | 0 <= i && 1 <= k && i + k < a && a + k < b && b + k <= |l|
      ensures !SpamUtils.RepeatedWordAt(l, i, k, a, b)
    {
      assert !IsSpace(l[i + k]);
    }
  }

  lemma NoRepeatedCharInAToJ()
    ensures AToJ("abcdefghij")
    ensures !SpamUtils.HasRepeatedChar("abcdefghij")
  {
    var l := "abcdefghij";
    forall i | 0 <= i < |l|
      ensures 'a' <= l[i] <= 'j' && !SpamUtils.RepeatedCharAt(l, i)
    {
      if i + 1 < |l| {
        assert l[i] != l[i + 1];
      }
    }
  }

  lemma LowerCapitals()
    ensures Lower("ABCDEFGHIJ") == "abcdefghij"
    ensures SpamUtils.Normalize("ABCDEFGHIJ") == "abcdefghij"
  {
    assert Lower("ABCDEFGHIJ") == "abcdefghij";
    SpamUtils.KeepOnlyAllKept("abcdefghij");
  }

  /** Lower-case text over a..j, short and without a run of five, is not spam to the shared detector. */
  lemma AToJNotSharedSpam(text: string, l: string)
    requires text != [] && |text| <= SpamUtils.MaxLength
    requires Lower(text) == l && SpamUtils.Normalize(text) == l && AToJ(l)
    requires !SpamUtils.HasRepeatedChar(l)
    ensures !SpamUtils.IsSpam(text)
  {
    NoSharedKeywordInAToJ(l);
    NoRepeatedWordInAToJ(l);
    NoLinkInAToJ(l);
  }

  /** The shared detector lets ten capitals through: it has no capitals rule. */
  lemma CapitalsNotSharedSpam()
    ensures !SpamUtils.IsSpam("ABCDEFGHIJ")
  {
    LowerCapitals();
    NoRepeatedCharInAToJ();
    AToJNotSharedSpam("ABCDEFGHIJ", "abcdefghij");
  }

  /** Ten capitals in a row are spam here, by the capitals rule alone. */
  lemma CapitalsRuleOnlyHere()
    ensures IsSpam("ABCDEFGHIJ") && !SpamUtils.IsSpam("ABCDEFGHIJ")
  {
    assert CapitalsAt("ABCDEFGHIJ", 0);
    CapitalsNotSharedSpam();
  }

  // ------------------------------------------------------------ priority

  const UrgentKeywords: seq<string> :=
    ["urgent", "emergency", "asap", "immediately", "critical",
     "help", "issue", "problem", "error", "bug", "down",
     "broken", "failed", "crash", "alert"]

  const HighKeywords: seq<string> :=
    ["important", "priority", "deadline", "meeting", "review",
     "approval", "decision", "update", "status", "progress"]

  /** The four tiers: 1 URGENT, 2 HIGH, 3 NORMAL, 4 LOW. */
  predicate IsTier(t: int) { 1 <= t <= 4 }

  /** The number of characters for which str.isupper() holds. */
  function CountUpper(s: string): (r: nat)
    ensures r <= |s|
  {
    if s == [] then 0 else (if IsUpper(s[0]) then 1 else 0) + CountUpper(s[1..])
  }

  /**
   * The capitals test: more than 70% of the characters are capitals, in a
   * message longer than ten characters (the ratio compared exactly).
   */
  predicate MostlyCapitals(message: string) {
    |message| > 10 && 10 * CountUpper(message) > 7 * |message|
  }

  /**
   * detect_message_priority: a valid manual tier wins; otherwise empty
   * text is normal, shouting is urgent, an '@' mention is high, then the
   * urgent and high keywords, then normal.
   */
  function DetectMessagePriority(message: string, manualPriority: Option<int>): (r: int)
    ensures IsTier(r)
    ensures manualPriority.Some? && IsTier(manualPriority.value) ==> r == manualPriority.value
    ensures !(manualPriority.Some? && IsTier(manualPriority.value)) ==> r in {1, 2, 3}
  {
    if manualPriority.Some? && IsTier(manualPriority.value) then manualPriority.value
    else if message == [] then 3
    else
      var lowered := Lower(message);
      if MostlyCapitals(message) then 1
      else if Contains(message, "@") then 2
      else if AnyKeyword(lowered, UrgentKeywords) then 1
      else if AnyKeyword(lowered, HighKeywords) then 2
      else 3
  }

  /** An '@' mention is checked before the keywords: "@bob help" is high, though "help" is urgent. */
  lemma MentionBeatsUrgentKeyword()
    ensures AnyKeyword(Lower("@bob help"), UrgentKeywords)
    ensures DetectMessagePriority("@bob help", None) == 2
  {
    var m := "@bob help";
    assert Lower(m) == m;
    assert OccursAt(m, "help", 5);
    assert "help" in UrgentKeywords;
    assert OccursAt(m, "@", 0);
  }

  /** Shouting wins over a mention: eleven capitals and an '@' are urgent. */
  lemma CapitalsBeatMention()
    ensures DetectMessagePriority("@ABCDEFGHIJK", None) == 1
  {
    var m := "@ABCDEFGHIJK";
    assert CountUpper(m) == 11 by {
      assert m[1..] == "ABCDEFGHIJK";
      CountUpperAll(m[1..]);
    }
  }

  lemma {:induction false} CountUpperAll(s: string)
    requires forall i :: 0 <= i < |s| ==> IsUpper(s[i])
    ensures CountUpper(s) == |s|
    decreases |s|
  {
    if s != [] {
      CountUpperAll(s[1..]);
    }
  }

  /**
   * The tier handle_message gives a sent message: a manual tier outside
   * 1..4 is dropped, the heuristic applies, and spam overrides it with 4.
   * A message ends at tier 4 exactly when it is spam or asked for 4.
   */
  function MessageTier(message: string, manualPriority: Option<int>): (tier: int)
    ensures IsTier(tier)
    ensures IsSpam(message) ==> tier == 4
    ensures tier == 4 <==> IsSpam(message) || manualPriority == Some(4)
    ensures !IsSpam(message) && manualPriority.Some? && IsTier(manualPriority.value) ==>
              tier == manualPriority.value
    ensures !IsSpam(message) && !(manualPriority.Some? && IsTier(manualPriority.value)) ==>
              tier == DetectMessagePriority(message, None)
  {
    var manual := if manualPriority.Some? && IsTier(manualPriority.value) then manualPriority else None;
    var priority := DetectMessagePriority(message, manual);
    if IsSpam(message) then 4 else priority
  }

  /**
   * "urgent" is also a spam phrase, so a message containing it, in any
   * letter case, always ends at tier 4, even a manual urgent one.
   */
  lemma UrgentWordEndsLow(message: string, manualPriority: Option<int>)
    requires Contains(Lower(message), "urgent")
    ensures MessageTier(message, manualPriority) == 4
  {
    SpamKeywordInTextIsSpam(message, "urgent");
  }

  /** Quiet text without an '@' that holds an urgent keyword is detected as urgent. */
  lemma UrgentKeywordDetected(message: string, k: string)
    requires k in UrgentKeywords && Contains(Lower(message), k)
    requires !MostlyCapitals(message) && !Contains(message, "@")
    ensures DetectMessagePriority(message, None) == 1
  {
    assert message != [] by {
      var i :| 0 <= i <= |Lower(message)| && OccursAt(Lower(message), k, i);
    }
  }

  /** "urgent" holds no '@'. */
  lemma NoMentionInUrgent()
    ensures !Contains("urgent", "@")
  {
    var m := "urgent";
    forall i | 0 <= i <= |m|
      ensures !OccursAt(m, "@", i)
    {
      if i < |m| {
        assert m[i..i + 1][0] == m[i];
      }
    }
  }

  /** The heuristic would call "urgent" urgent, but the message lands at tier 4. */
  lemma UrgentKeywordNeverYieldsUrgent()
    ensures DetectMessagePriority("urgent", None) == 1
    ensures MessageTier("urgent", None) == 4
  {
    var m := "urgent";
    assert Lower(m) == m;
    assert OccursAt(m, "urgent", 0);
    NoMentionInUrgent();
    UrgentKeywordDetected(m, "urgent");
    UrgentWordEndsLow(m, None);
  }

  // ------------------------------------------------------------ display

  /** The part of a message dict the display queue looks at. */
  datatype DisplayMessage = DisplayMessage(id: Option<int>, priority: Option<int>, text: string)

  /** `message_data.get("priority", 3)` */
  function TierOf(m: DisplayMessage): int {
    if m.priority.Some? then m.priority.value else 3
  }

  /** The id add_batch_messages writes into a message without one, the counter having just reached `counter + 1`. */
  function Stamp(m: DisplayMessage, counter: int): (r: DisplayMessage)
    ensures r.priority == m.priority && r.text == m.text && r.id.Some?
    ensures m.id.Some? ==> r == m
  {
    if m.id.None? then m.(id := Some(counter + 1)) else m
  }

  function IdLessCount(ms: seq<DisplayMessage>): (r: nat)
    ensures r <= |ms|
  {
    if ms == [] then 0
    else IdLessCount(ms[..|ms| - 1]) + (if ms[|ms| - 1].id.None? then 1 else 0)
  }

  /** The messages as add_batch_messages leaves them, starting from counter value `counter`. */
  function Stamped(ms: seq<DisplayMessage>, counter: int): (r: seq<DisplayMessage>)
    ensures |r| == |ms|
  {
    if ms == [] then []
    else
      var init := ms[..|ms| - 1];
      Stamped(init, counter) + [Stamp(ms[|ms| - 1], counter + IdLessCount(init))]
  }

  /** The messages of `ms` that belong to tier `t`, in order. */
  function OfTier(ms: seq<DisplayMessage>, t: int): (r: seq<DisplayMessage>)
    ensures |r| <= |ms|
  {
    if ms == [] then []
    else OfTier(ms[..|ms| - 1], t) + (if TierOf(ms[|ms| - 1]) == t then [ms[|ms| - 1]] else [])
  }

  /** A tier's deque `q` after the messages of `ms` for tier `t` were appended to it, with `maxlen = limit`. */
  function Displayed(q: seq<DisplayMessage>, ms: seq<DisplayMessage>, t: int, limit: nat): (r: seq<DisplayMessage>)
    ensures |r| <= limit
  {
    KeepNewest(q + OfTier(ms, t), limit)
  }

  lemma {:induction false} StampedAt(ms: seq<DisplayMessage>, counter: int, j: nat)
    requires j < |ms|
    ensures Stamped(ms, counter)[j] == Stamp(ms[j], counter + IdLessCount(ms[..j]))
    decreases |ms|
  {
    var init := ms[..|ms| - 1];
    if j < |ms| - 1 {
      StampedAt(init, counter, j);
      assert init[..j] == ms[..j];
    } else {
      assert ms[..j] == init;
    }
  }

  lemma {:induction false} IdLessCountPrefix(ms: seq<DisplayMessage>, i: nat, j: nat)
    requires i <= j <= |ms|
    ensures IdLessCount(ms[..i]) <= IdLessCount(ms[..j])
    ensures i < j && ms[i].id.None? ==> IdLessCount(ms[..i]) < IdLessCount(ms[..j])
    decreases j - i
  {
    if i < j {
      IdLessCountPrefix(ms, i, j - 1);
      assert ms[..j][..j - 1] == ms[..j - 1];
    }
    if i < j - 1 && ms[i].id.None? {
      IdLessCountPrefix(ms, i + 1, j);
      assert ms[..i + 1][..i] == ms[..i];
    }
  }

  /**
   * The id add_batch_messages gives message `j`: one that has an id keeps
   * it; one without gets the next counter value, above the counter it
   * started from and at most the counter it ends with.
   */
  lemma StampedId(ms: seq<DisplayMessage>, counter: int, j: nat)
    requires j < |ms|
    ensures ms[j].id.Some? ==> Stamped(ms, counter)[j] == ms[j]
    ensures ms[j].id.None? ==>
              Stamped(ms, counter)[j] == ms[j].(id := Some(counter + IdLessCount(ms[..j]) + 1)) &&
              counter < counter + IdLessCount(ms[..j]) + 1 <= counter + IdLessCount(ms)
  {
    StampedAt(ms, counter, j);
    IdLessCountPrefix(ms, j, |ms|);
    assert ms[..|ms|] == ms;
  }

  /** New ids increase along the batch: counter+1, counter+2, ... in batch order. */
  lemma StampedIdsIncrease(ms: seq<DisplayMessage>, counter: int, i: nat, j: nat)
    requires i < j < |ms| && ms[i].id.None? && ms[j].id.None?
    ensures Stamped(ms, counter)[i].id.Some? && Stamped(ms, counter)[j].id.Some? &&
            Stamped(ms, counter)[i].id.value < Stamped(ms, counter)[j].id.value
  {
    StampedAt(ms, counter, i);
    StampedAt(ms, counter, j);
    IdLessCountPrefix(ms, i, j);
  }

  lemma OfTierSnoc(ms: seq<DisplayMessage>, m: DisplayMessage, t: int)
    ensures OfTier(ms + [m], t) == OfTier(ms, t) + (if TierOf(m) == t then [m] else [])
  {
    var ms' := ms + [m];
    assert ms'[..|ms'| - 1] == ms;
  }

  /** Appending one more message changes only that message's tier. */
  lemma DisplayedSnoc(q: seq<DisplayMessage>, ms: seq<DisplayMessage>, m: DisplayMessage, t: int, limit: nat)
    ensures Displayed(q, ms + [m], t, limit) ==
            if TierOf(m) == t then KeepNewest(Displayed(q, ms, t, limit) + [m], limit)
            else Displayed(q, ms, t, limit)
  {
    var before := q + OfTier(ms, t);
    OfTierSnoc(ms, m, t);
    if TierOf(m) == t {
      assert q + OfTier(ms + [m], t) == before + [m];
      KeepNewestSnoc(before, m, limit);
    } else {
      assert q + OfTier(ms + [m], t) == before;
    }
  }

  /** One more message of the batch: the stamped prefix grows by that message, stamped. */
  lemma StampedPrefixStep(ms: seq<DisplayMessage>, i: nat, counter: int)
    requires i < |ms|
    ensures Stamped(ms[..i + 1], counter) ==
            Stamped(ms[..i], counter) + [Stamp(ms[i], counter + IdLessCount(ms[..i]))]
    ensures IdLessCount(ms[..i + 1]) == IdLessCount(ms[..i]) + (if ms[i].id.None? then 1 else 0)
  {
    assert ms[..i + 1][..i] == ms[..i];
  }

  /** Every tier's deque in `qs` is that tier's deque in `qs0` after the messages `ms`. */
  ghost predicate Tracks(qs: map<int, seq<DisplayMessage>>, qs0: map<int, seq<DisplayMessage>>,
                         ms: seq<DisplayMessage>, limit: nat)
  {
    TierTracks(qs, qs0, ms, 1, limit) && TierTracks(qs, qs0, ms, 2, limit) &&
    TierTracks(qs, qs0, ms, 3, limit) && TierTracks(qs, qs0, ms, 4, limit)
  }

  ghost predicate TierTracks(qs: map<int, seq<DisplayMessage>>, qs0: map<int, seq<DisplayMessage>>,
                             ms: seq<DisplayMessage>, t: int, limit: nat)
  {
    t in qs && t in qs0 && qs[t] == Displayed(qs0[t], ms, t, limit)
  }

  lemma TracksEveryTier(qs: map<int, seq<DisplayMessage>>, qs0: map<int, seq<DisplayMessage>>,
                        ms: seq<DisplayMessage>, limit: nat)
    requires Tracks(qs, qs0, ms, limit)
    ensures forall t :: IsTier(t) ==> t in qs && t in qs0 && qs[t] == Displayed(qs0[t], ms, t, limit)
  {
    forall t | IsTier(t)
      ensures t in qs && t in qs0 && qs[t] == Displayed(qs0[t], ms, t, limit)
    {
      assert TierTracks(qs, qs0, ms, t, limit);
    }
  }

  /** Storing one message in its own tier's deque keeps tier `t` in step with the batch. */
  lemma TierTracksStep(qs: map<int, seq<DisplayMessage>>, qs0: map<int, seq<DisplayMessage>>,
                       ms: seq<DisplayMessage>, m: DisplayMessage, t: int, limit: nat)
    requires TierTracks(qs, qs0, ms, t, limit) && TierOf(m) in qs
    ensures TierTracks(qs[TierOf(m) := KeepNewest(qs[TierOf(m)] + [m], limit)], qs0, ms + [m], t, limit)
  {
    DisplayedSnoc(qs0[t], ms, m, t, limit);
  }

  /** Storing one message in its own tier's deque keeps every tier in step with the batch. */
  lemma TracksStep(qs: map<int, seq<DisplayMessage>>, qs0: map<int, seq<DisplayMessage>>,
                   ms: seq<DisplayMessage>, m: DisplayMessage, limit: nat)
    requires Tracks(qs, qs0, ms, limit) && IsTier(TierOf(m))
    ensures Tracks(qs[TierOf(m) := KeepNewest(qs[TierOf(m)] + [m], limit)], qs0, ms + [m], limit)
  {
    TierTracksStep(qs, qs0, ms, m, 1, limit);
    TierTracksStep(qs, qs0, ms, m, 2, limit);
    TierTracksStep(qs, qs0, ms, m, 3, limit);
    TierTracksStep(qs, qs0, ms, m, 4, limit);
  }

  /** Every message of `ms` names one of the four tiers. */
  predicate KnownTiers(ms: seq<DisplayMessage>) {
    ms == [] || (KnownTiers(ms[..|ms| - 1]) && IsTier(TierOf(ms[|ms| - 1])))
  }

  lemma {:induction false} KnownTiersAll(ms: seq<DisplayMessage>)
    ensures KnownTiers(ms) <==> forall j :: 0 <= j < |ms| ==> IsTier(TierOf(ms[j]))
  {
    if ms != [] {
      var init := ms[..|ms| - 1];
      KnownTiersAll(init);
      assert forall j :: 0 <= j < |init| ==> init[j] == ms[j];
    }
  }

  lemma KnownTiersPrefix(ms: seq<DisplayMessage>, i: nat)
    requires i <= |ms| && KnownTiers(ms[..i])
    ensures forall j :: 0 <= j < i ==> IsTier(TierOf(ms[j]))
  {
    KnownTiersAll(ms[..i]);
    assert forall j :: 0 <= j < i ==> ms[..i][j] == ms[j];
  }

  /**
   * The loop of add_batch_messages up to the first message whose tier has
   * no deque: each message is stamped and appended to its tier's bounded
   * deque, and the counter advances by one per message without an id.
   */
  method StoreKnownPrefix(qs0: map<int, seq<DisplayMessage>>, counter0: int, messages: seq<DisplayMessage>,
                          limit: nat)
    returns (qs: map<int, seq<DisplayMessage>>, counter: int, i: nat)
    requires qs0.Keys == {1, 2, 3, 4}
    requires forall t :: t in qs0 ==> |qs0[t]| <= limit
    ensures qs.Keys == qs0.Keys
    ensures i <= |messages| && forall j :: 0 <= j < i ==> IsTier(TierOf(messages[j]))
    ensures i < |messages| ==> !IsTier(TierOf(messages[i]))
    ensures Tracks(qs, qs0, Stamped(messages[..i], counter0), limit)
    ensures counter == counter0 + IdLessCount(messages[..i])
  {
    qs, counter, i := qs0, counter0, 0;
    assert messages[..0] == [];
    assert Tracks(qs, qs0, Stamped(messages[..0], counter0), limit);
    // `messages[i]`'s tier has a deque exactly when it is one of 1..4.
    while i < |messages| && IsTier(TierOf(messages[i]))
      invariant 0 <= i <= |messages|
      invariant KnownTiers(messages[..i])
      invariant qs.Keys == qs0.Keys
      invariant Tracks(qs, qs0, Stamped(messages[..i], counter0), limit)
      invariant counter == counter0 + IdLessCount(messages[..i])
    {
      qs, counter := StoreNext(qs0, counter0, messages, limit, qs, counter, i);
      i := i + 1;
    }
    KnownTiersPrefix(messages, i);
  }

  /** One pass of that loop: message `i` is stamped and appended to its tier. */
  method StoreNext(qs0: map<int, seq<DisplayMessage>>, counter0: int, messages: seq<DisplayMessage>, limit: nat,
                   qs: map<int, seq<DisplayMessage>>, counter: int, i: nat)
    returns (qs': map<int, seq<DisplayMessage>>, counter': int)
    requires i < |messages| && IsTier(TierOf(messages[i])) && qs.Keys == qs0.Keys
    requires KnownTiers(messages[..i])
    requires Tracks(qs, qs0, Stamped(messages[..i], counter0), limit)
    requires counter == counter0 + IdLessCount(messages[..i])
    ensures qs'.Keys == qs0.Keys
    ensures KnownTiers(messages[..i + 1])
    ensures Tracks(qs', qs0, Stamped(messages[..i + 1], counter0), limit)
    ensures counter' == counter0 + IdLessCount(messages[..i + 1])
  {
    ghost var done := Stamped(messages[..i], counter0);
    StampedPrefixStep(messages, i, counter0);
    assert messages[..i + 1][..i] == messages[..i];
    var m := Stamp(messages[i], counter);
    assert done + [m] == Stamped(messages[..i + 1], counter0);
    TracksStep(qs, qs0, done, m, limit);
    counter' := if messages[i].id.None? then counter + 1 else counter;
    var t := TierOf(m);
    qs' := qs[t := KeepNewest(qs[t] + [m], limit)];
  }

  datatype AddOutcome = Added(count: nat) | UnknownTier(index: nat)

  datatype DisplayStats = DisplayStats(urgentCount: nat, highCount: nat, normalCount: nat,
                                       lowCount: nat, totalMessages: nat)

  class DisplayMessageQueue {
    const maxMessagesPerCategory: nat
    /** One bounded deque per tier, oldest first. */
    var displayQueues: map<int, seq<DisplayMessage>>
    var messageCounter: int

    ghost predicate Valid()
      reads this
    {
      displayQueues.Keys == {1, 2, 3, 4} &&
      forall t :: t in displayQueues ==> |displayQueues[t]| <= maxMessagesPerCategory
    }

    constructor (maxMessagesPerCategory: nat)
      ensures Valid() && this.maxMessagesPerCategory == maxMessagesPerCategory
      ensures displayQueues == map[1 := [], 2 := [], 3 := [], 4 := []] && messageCounter == 0
    {
      this.maxMessagesPerCategory := maxMessagesPerCategory;
      displayQueues := map[1 := [], 2 := [], 3 := [], 4 := []];
      messageCounter := 0;
    }

    /**
     * add_batch_messages: appends each message, in order, to its tier's
     * deque, first giving an id to each message without one. A tier other
     * than 1..4 raises KeyError: the messages before it stay added, the
     * offending one has taken an id but is not stored.
     */
    method AddBatchMessages(messages: seq<DisplayMessage>) returns (outcome: AddOutcome)
      requires Valid()
      modifies this
      ensures Valid()
      ensures outcome.Added? <==> forall j :: 0 <= j < |messages| ==> IsTier(TierOf(messages[j]))
      ensures outcome.Added? ==> outcome.count == |messages|
      ensures outcome.UnknownTier? ==>
                outcome.index < |messages| && !IsTier(TierOf(messages[outcome.index])) &&
                forall j :: 0 <= j < outcome.index ==> IsTier(TierOf(messages[j]))
      ensures var n := if outcome.Added? then |messages| else outcome.index;
              (forall t :: IsTier(t) ==>
                 displayQueues[t] == Displayed(old(displayQueues[t]), Stamped(messages[..n], old(messageCounter)),
                                               t, maxMessagesPerCategory)) &&
              messageCounter == old(messageCounter) + IdLessCount(messages[..n]) +
                                (if outcome.UnknownTier? && messages[n].id.None? then 1 else 0)
    {
      var queues, counter, i := StoreKnownPrefix(displayQueues, messageCounter, messages, maxMessagesPerCategory);
      TracksEveryTier(queues, old(displayQueues), Stamped(messages[..i], old(messageCounter)), maxMessagesPerCategory);
      displayQueues, messageCounter := queues, counter;
      if i < |messages| {
        // The message takes its id before the lookup of its tier raises KeyError.
        if messages[i].id.None? {
          messageCounter := messageCounter + 1;
        }
        return UnknownTier(i);
      }
      assert messages[..i] == messages;
      return Added(i);
    }

    /** get_queue_stats: the four tier sizes and their sum, at most four full deques. */
    function GetQueueStats(): (stats: DisplayStats)
      requires Valid()
      reads this
      ensures stats.urgentCount == |displayQueues[1]| && stats.highCount == |displayQueues[2]|
      ensures stats.normalCount == |displayQueues[3]| && stats.lowCount == |displayQueues[4]|
      ensures stats.totalMessages == stats.urgentCount + stats.highCount + stats.normalCount + stats.lowCount
      ensures stats.totalMessages <= 4 * maxMessagesPerCategory
    {
      var u, h, n, l := |displayQueues[1]|, |displayQueues[2]|, |displayQueues[3]|, |displayQueues[4]|;
      DisplayStats(u, h, n, l, u + h + n + l)
    }

    /** get_all_messages_organized: the tiers under their names, oldest first. */
    function GetAllMessagesOrganized(): (r: map<string, seq<DisplayMessage>>)
      requires Valid()
      reads this
      ensures r.Keys == {"urgent", "high", "normal", "low"}
      ensures forall name :: name in r ==> |r[name]| <= maxMessagesPerCategory
      ensures r["urgent"] == displayQueues[1] && r["high"] == displayQueues[2]
      ensures r["normal"] == displayQueues[3] && r["low"] == displayQueues[4]
    {
      map["urgent" := displayQueues[1], "high" := displayQueues[2],
          "normal" := displayQueues[3], "low" := displayQueues[4]]
    }

    /** clear_all: every tier empty, and ids start again from 1. */
    method ClearAll()
      requires Valid()
      modifies this
      ensures Valid()
      ensures forall t :: IsTier(t) ==> displayQueues[t] == []
      ensures messageCounter == 0
    {
      displayQueues := map[1 := [], 2 := [], 3 := [], 4 := []];
      messageCounter := 0;
    }
  }
}
