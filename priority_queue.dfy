/**
 * The priority message queue: a min-heap of messages keyed by
 * (priority, insertion counter), so that lower tiers leave first and
 * messages of one tier leave in arrival order, plus the keyword heuristic
 * that picks a tier when the sender gives none.
 *
 * The heap is represented by the sequence of its entries in key order.
 * Every observable result of the heap operations (the popped entry, the
 * peeked entry, the size and the per-tier counts) depends only on that
 * order, not on the array layout heapq keeps internally.
 */
module PriorityQueue {
  import opened Text
  import opened Optional

  datatype Detection = Manual | Auto

  /** The dict built by add_message. */
  datatype Message = Message(text: string, priority: int, priorityName: string, user: string,
                             timestamp: real, counter: int, detection: Detection)

  /** The dict built by create_offline_message. */
  datatype OfflineMessage = OfflineMessage(text: string, priority: int, priorityName: string,
                                           user: string, recipient: string, timestamp: real,
                                           counter: int, detection: Detection,
                                           isOfflineMessage: bool)

  const UrgentKeywords: seq<string> :=
    ["urgent", "emergency", "help", "asap", "911", "critical", "bug", "down", "broken", "crash"]

  const HighKeywords: seq<string> :=
    ["important", "priority", "meeting", "deadline", "issue", "attention", "review", "approval"]

  /** auto_detect_priority: the first rule that fires decides. */
  function AutoDetectPriority(message: string): (r: int)
    ensures 1 <= r <= 3
  {
    var lowered := Strip(Lower(message));
    if AnyKeyword(lowered, UrgentKeywords) then 1
    else if AnyKeyword(lowered, HighKeywords) then 2
    else if Contains(message, "@") && |message| > 1 then 2
    else if |message| > 5 && IsUpperString(message) then 2
    else if CountChar(message, '!') >= 3 then 2
    else 3
  }

  /** No keyword begins or ends with whitespace, so stripping cannot change whether it occurs. */
  predicate Unpadded(k: string) {
    |k| > 0 && !IsSpace(k[0]) && !IsSpace(k[|k| - 1])
  }

  lemma KeywordsUnpadded()
    ensures forall k :: k in UrgentKeywords ==> Unpadded(k)
    ensures forall k :: k in HighKeywords ==> Unpadded(k)
  {
  }

  lemma AnyKeywordStrip(s: string, keywords: seq<string>)
    requires forall k :: k in keywords ==> Unpadded(k)
    ensures AnyKeyword(Strip(s), keywords) <==> AnyKeyword(s, keywords)
  {
    forall k | k in keywords
      ensures Contains(Strip(s), k) <==> Contains(s, k)
    {
      ContainsStrip(s, k);
    }
  }

  /**
   * The classifier in terms of the lower-cased message alone: an urgent
   * keyword anywhere gives tier 1 and wins over everything else; tier 2
   * comes from a high keyword, an '@' in a message longer than one
   * character, an all-capitals message longer than five characters, or
   * three exclamation marks; anything else is tier 3. Tier 4 never comes
   * out of the heuristic.
   */
  lemma AutoDetectPriorityRules(message: string)
    ensures AutoDetectPriority(message) == 1 <==> AnyKeyword(Lower(message), UrgentKeywords)
    ensures AutoDetectPriority(message) == 2 <==>
      !AnyKeyword(Lower(message), UrgentKeywords) &&
      (AnyKeyword(Lower(message), HighKeywords) ||
       (Contains(message, "@") && |message| > 1) ||
       (|message| > 5 && IsUpperString(message)) ||
       CountChar(message, '!') >= 3)
    ensures AutoDetectPriority(message) != 4
  {
    KeywordsUnpadded();
    AnyKeywordStrip(Lower(message), UrgentKeywords);
    AnyKeywordStrip(Lower(message), HighKeywords);
  }

  /** Every urgent keyword has at least three characters, every high one at least five. */
  lemma KeywordLengths()
    ensures forall j :: 0 <= j < |UrgentKeywords| ==> |UrgentKeywords[j]| >= 3
    ensures forall j :: 0 <= j < |HighKeywords| ==> |HighKeywords[j]| >= 5
  {
  }

  /** A text shorter than every keyword contains none of them. */
  lemma NoKeywordInShort(s: string, keywords: seq<string>, n: nat)
    requires |s| < n && forall j :: 0 <= j < |keywords| ==> |keywords[j]| >= n
    ensures !AnyKeyword(s, keywords)
  {
    forall k | k in keywords
      ensures !Contains(s, k)
    {
      var j :| 0 <= j < |keywords| && keywords[j] == k;
    }
  }

  /**
   * A message of at most one character is tier 3 whatever it is: a lone
   * '@' is not enough for tier 2, since that rule also wants a longer
   * message, and no keyword fits in it.
   */
  lemma ShortMessageIsNormal(message: string)
    requires |message| <= 1
    ensures AutoDetectPriority(message) == 3
  {
    AutoDetectPriorityRules(message);
    KeywordLengths();
    NoKeywordInShort(Lower(message), UrgentKeywords, 3);
    NoKeywordInShort(Lower(message), HighKeywords, 3);
    if |message| == 1 {
      assert message[1..] == [];
    }
    assert CountChar(message, '!') <= 1;
  }

  /** get_priority_name: the four tier names, "NORMAL" for anything else. */
  function PriorityName(priority: int): (r: string)
    ensures priority == 1 <==> r == "URGENT"
    ensures priority == 2 <==> r == "HIGH"
    ensures priority == 4 <==> r == "LOW"
    ensures (priority == 3 || priority < 1 || priority > 4) <==> r == "NORMAL"
  {
    var names := map[1 := "URGENT", 2 := "HIGH", 3 := "NORMAL", 4 := "LOW"];
    if priority in names then names[priority] else "NORMAL"
  }

  /** The tier add_message and create_offline_message use: the manual value verbatim, else the heuristic. */
  function ChosenPriority(message: string, manualPriority: Option<int>): (r: int)
    ensures manualPriority.Some? ==> r == manualPriority.value
    ensures manualPriority.None? ==> 1 <= r <= 3
  {
    if manualPriority.Some? then manualPriority.value else AutoDetectPriority(message)
  }

  /** The heap order: lower tier first, then lower counter. */
  predicate Before(a: Message, b: Message) {
    a.priority < b.priority || (a.priority == b.priority && a.counter < b.counter)
  }

  ghost predicate KeyOrdered(h: seq<Message>) {
    forall i, j :: 0 <= i < j < |h| ==> Before(h[i], h[j])
  }

  ghost predicate DistinctCounters(h: seq<Message>) {
    forall i, j :: 0 <= i < j < |h| ==> h[i].counter != h[j].counter
  }

  /** `m` is the entry a pop would return: it comes before every other entry. */
  ghost predicate IsLeast(m: Message, h: seq<Message>) {
    m in h && forall x :: x in h ==> x == m || Before(m, x)
  }

  /** The priority_breakdown dict of get_queue_stats, built entry by entry. */
  function Breakdown(h: seq<Message>): map<string, nat>
  {
    if h == [] then map[]
    else
      var b := Breakdown(h[..|h| - 1]);
      var name := PriorityName(h[|h| - 1].priority);
      b[name := (if name in b then b[name] else 0) + 1]
  }

  function Get(b: map<string, nat>, name: string): nat {
    if name in b then b[name] else 0
  }

  /** The breakdown only ever names the four tiers, and its counts add up to the queue size. */
  lemma {:induction false} BreakdownSumsToTotal(h: seq<Message>)
    ensures forall n :: n in Breakdown(h) ==> n in {"URGENT", "HIGH", "NORMAL", "LOW"}
    ensures Get(Breakdown(h), "URGENT") + Get(Breakdown(h), "HIGH") +
            Get(Breakdown(h), "NORMAL") + Get(Breakdown(h), "LOW") == |h|
  {
    if h != [] {
      BreakdownSumsToTotal(h[..|h| - 1]);
    }
  }

  /** heapq.heappush's place for `m`: past every entry that comes before it. */
  method InsertionPoint(h: seq<Message>, m: Message) returns (i: int)
    ensures 0 <= i <= |h|
    ensures forall j :: 0 <= j < i ==> Before(h[j], m)
    ensures i < |h| ==> !Before(h[i], m)
  {
    i := 0;
    while i < |h| && Before(h[i], m)
      invariant 0 <= i <= |h|
      invariant forall j :: 0 <= j < i ==> Before(h[j], m)
    {
      i := i + 1;
    }
  }

  /**
   * Inserting an entry with a fresh, larger counter where the scan of
   * add_message stops keeps the sequence in key order.
   */
  lemma InsertKeepsOrder(h: seq<Message>, i: int, m: Message)
    requires KeyOrdered(h) && DistinctCounters(h)
    requires forall x :: x in h ==> x.counter < m.counter
    requires 0 <= i <= |h| && (forall j :: 0 <= j < i ==> Before(h[j], m))
    requires i < |h| ==> !Before(h[i], m)
    ensures KeyOrdered(h[..i] + [m] + h[i..]) && DistinctCounters(h[..i] + [m] + h[i..])
    ensures multiset(h[..i] + [m] + h[i..]) == multiset(h) + multiset{m}
    ensures |h[..i] + [m] + h[i..]| == |h| + 1
    ensures forall x :: x in h[..i] + [m] + h[i..] ==> x.counter <= m.counter
  {
    forall j | i <= j < |h|
      ensures Before(m, h[j])
    {
      assert h[j].counter < m.counter;
      if j > i {
        assert Before(h[i], h[j]);
      }
    }
    var n := h[..i] + [m] + h[i..];
    forall a, b | 0 <= a < b < |n|
      ensures Before(n[a], n[b]) && n[a].counter != n[b].counter
    {
      if a < i && b < i {
      } else if a < i && b == i {
      } else if a < i {
        assert n[b] == h[b - 1];
        assert Before(h[a], h[b - 1]);
      } else if a == i {
        assert n[b] == h[b - 1];
      } else {
        assert n[a] == h[a - 1] && n[b] == h[b - 1];
      }
    }
    assert h[..i] + h[i..] == h;
  }

  datatype QueueStats = QueueStats(totalMessages: nat, priorityBreakdown: map<string, nat>)

  class PriorityMessageQueue {
    /** The heap's entries, in key order. */
    var heap: seq<Message>
    var messageCounter: int

    /** The heap is in key order and its counters are distinct and already issued. */
    ghost predicate Valid()
      reads this
    {
      KeyOrdered(heap) && DistinctCounters(heap) &&
      (forall i :: 0 <= i < |heap| ==> heap[i].counter <= messageCounter)
    }

    constructor ()
      ensures Valid() && heap == [] && messageCounter == 0
    {
      heap := [];
      messageCounter := 0;
    }

    /**
     * add_message: issues the next counter, takes the manual priority
     * verbatim (no range check) or else the heuristic, and pushes the
     * new entry.
     */
    method AddMessage(message: string, user: string, manualPriority: Option<int>, now: real)
      returns (m: Message)
      requires Valid()
      modifies this
      ensures Valid()
      ensures messageCounter == old(messageCounter) + 1
      ensures var p := ChosenPriority(message, manualPriority);
              m == Message(message, p, PriorityName(p), user, now, messageCounter,
                           if manualPriority.Some? then Manual else Auto)
      ensures |heap| == |old(heap)| + 1
      ensures multiset(heap) == multiset(old(heap)) + multiset{m}
    {
      messageCounter := messageCounter + 1;
      var priority := ChosenPriority(message, manualPriority);
      var detection := if manualPriority.Some? then Manual else Auto;
      m := Message(message, priority, PriorityName(priority), user, now, messageCounter, detection);
      var i := InsertionPoint(heap, m);
      InsertKeepsOrder(heap, i, m);
      var inserted := heap[..i] + [m] + heap[i..];
      heap := inserted;
      assert forall j :: 0 <= j < |heap| ==> heap[j] in inserted;
    }

    /** peek_next_message: the entry a pop would return, without removing it. */
    function PeekNextMessage(): (r: Option<Message>)
      requires Valid()
      reads this
      ensures r.None? <==> heap == []
      ensures r.Some? ==> IsLeast(r.value, heap)
    {
      if heap == [] then None else Some(heap[0])
    }

    /**
     * get_next_message: None on an empty heap; otherwise removes and
     * returns the least entry, which is what a peek just before would show.
     */
    method GetNextMessage() returns (r: Option<Message>)
      requires Valid()
      modifies this
      ensures Valid()
      ensures r == old(PeekNextMessage())
      ensures r.None? <==> old(heap) == []
      ensures r.None? ==> heap == []
      ensures r.Some? ==> IsLeast(r.value, old(heap)) &&
                          multiset(heap) + multiset{r.value} == multiset(old(heap))
      ensures messageCounter == old(messageCounter)
    {
      if heap == [] {
        return None;
      }
      r := Some(heap[0]);
      assert heap == [heap[0]] + heap[1..];
      heap := heap[1..];
    }

    /** get_queue_stats without the history size. */
    method GetQueueStats() returns (stats: QueueStats)
      requires Valid()
      ensures stats.totalMessages == |heap|
      ensures stats.priorityBreakdown == Breakdown(heap)
    {
      var breakdown: map<string, nat> := map[];
      var i := 0;
      while i < |heap|
        invariant 0 <= i <= |heap|
        invariant breakdown == Breakdown(heap[..i])
      {
        var name := PriorityName(heap[i].priority);
        assert heap[..i + 1][..i] == heap[..i];
        breakdown := breakdown[name := (if name in breakdown then breakdown[name] else 0) + 1];
        i := i + 1;
      }
      assert heap[..i] == heap;
      stats := QueueStats(|heap|, breakdown);
    }

    /** clear_queue: empties the heap and keeps the counter. */
    method ClearQueue() returns (cleared: nat)
      requires Valid()
      modifies this
      ensures Valid()
      ensures cleared == |old(heap)| && heap == []
      ensures messageCounter == old(messageCounter)
    {
      cleared := |heap|;
      heap := [];
    }

    /** clear_all: empties the heap and restarts the counter at 0. */
    method ClearAll() returns (queueCleared: nat)
      requires Valid()
      modifies this
      ensures Valid()
      ensures queueCleared == |old(heap)| && heap == [] && messageCounter == 0
    {
      queueCleared := |heap|;
      heap := [];
      messageCounter := 0;
    }

    /** create_offline_message: issues a counter but leaves the heap alone. */
    method CreateOfflineMessage(message: string, user: string, recipient: string,
                                manualPriority: Option<int>, now: real)
      returns (m: OfflineMessage)
      requires Valid()
      modifies this
      ensures Valid()
      ensures heap == old(heap)
      ensures messageCounter == old(messageCounter) + 1
      ensures var p := ChosenPriority(message, manualPriority);
              m == OfflineMessage(message, p, PriorityName(p), user, recipient, now, messageCounter,
                                  if manualPriority.Some? then Manual else Auto, true)
    {
      messageCounter := messageCounter + 1;
      var priority := ChosenPriority(message, manualPriority);
      var detection := if manualPriority.Some? then Manual else Auto;
      m := OfflineMessage(message, priority, PriorityName(priority), user, recipient, now,
                          messageCounter, detection, true);
    }
  }

}
