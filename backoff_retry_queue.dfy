/**
 * The retry queue of the ChatServer1 models: failed messages wait in a
 * waiting deque until their retry time, are promoted in order to a ready
 * deque, and are retried one per processor iteration. A failed retry is
 * rescheduled with capped exponential backoff until the entry's retry
 * budget is spent; success and permanent failure are terminal.
 */
module BackoffRetry {
  import opened Optional

  /** One element of an entry's retry_history. */
  datatype RetryAttempt = RetryAttempt(attemptNumber: int, timestamp: real, delayUsed: real)

  /** The retry_entry dict (its string id built from the clock is left out). */
  datatype RetryEntry = RetryEntry(message: string, retryCount: int, maxRetries: int,
                                   errorReason: string, originalTimestamp: real,
                                   addedToRetry: real, nextRetryTime: real,
                                   retryHistory: seq<RetryAttempt>, lastAttempt: Option<real>)

  datatype RetryStats = RetryStats(totalMessagesAdded: nat, totalRetriesAttempted: nat,
                                   totalMessagesSucceeded: nat, totalMessagesFailed: nat,
                                   averageRetryCount: real, totalRetryTime: real,
                                   averageRetryTime: real, currentQueueSize: nat,
                                   currentWaitingSize: nat)

  /** What one retry attempt hands to a callback, or that it rescheduled the entry. */
  datatype RetryEvent =
    | Succeeded(entry: RetryEntry, retryTime: real)
    | FailedPermanently(entry: RetryEntry, reason: string)
    | Rescheduled(entry: RetryEntry, delay: real)

  function Pow(b: real, n: nat): real {
    if n == 0 then 1.0 else b * Pow(b, n - 1)
  }

  lemma {:induction false} PowAtLeastOne(b: real, n: nat)
    requires b >= 1.0
    ensures Pow(b, n) >= 1.0
  {
    if n > 0 {
      PowAtLeastOne(b, n - 1);
    }
  }

  lemma {:induction false} PowMonotone(b: real, m: nat, n: nat)
    requires b >= 1.0 && m <= n
    ensures Pow(b, m) <= Pow(b, n)
    decreases n
  {
    if m < n {
      PowMonotone(b, m, n - 1);
      PowAtLeastOne(b, n - 1);
      assert Pow(b, n) == b * Pow(b, n - 1);
    }
  }

  function MinReal(a: real, b: real): real { if a <= b then a else b }

  function MaxReal(a: real, b: real): real { if a >= b then a else b }

  /**
   * _calculate_backoff_delay for the retry count after an attempt (always
   * at least 1 where the queue calls it): initial·mult^(count−1), capped.
   */
  function Backoff(retryCount: int, initialDelay: real, multiplier: real, maxDelay: real): (d: real)
    requires retryCount >= 1
    ensures d <= maxDelay
  {
    MinReal(initialDelay * Pow(multiplier, retryCount - 1), maxDelay)
  }

  /** With a multiplier of at least 1 and a non-negative initial delay, later retries never wait less. */
  lemma BackoffMonotone(j: int, k: int, initialDelay: real, multiplier: real, maxDelay: real)
    requires 1 <= j <= k && multiplier >= 1.0 && initialDelay >= 0.0
    ensures Backoff(j, initialDelay, multiplier, maxDelay) <= Backoff(k, initialDelay, multiplier, maxDelay)
  {
    PowMonotone(multiplier, j - 1, k - 1);
  }

  /**
   * The first retry comes after the whole initial delay, and with the
   * deployed configuration (initial 1 s, multiplier 2, cap 30 s) the
   * reschedules after the first and second failed attempts wait 1 s and
   * 2 s, not 2 s and 4 s.
   */
  lemma DeployedSchedule()
    ensures Backoff(1, 1.0, 2.0, 30.0) == 1.0
    ensures Backoff(2, 1.0, 2.0, 30.0) == 2.0
    ensures Backoff(6, 1.0, 2.0, 30.0) == 30.0
  {
    assert Pow(2.0, 1) == 2.0;
    assert Pow(2.0, 5) == 32.0 by {
      assert Pow(2.0, 2) == 4.0;
      assert Pow(2.0, 3) == 8.0;
      assert Pow(2.0, 4) == 16.0;
    }
  }

  /** The entries a promotion pass moves, in their order. */
  function Ready(w: seq<RetryEntry>, now: real): (r: seq<RetryEntry>)
    ensures forall e :: e in r ==> e in w && now >= e.nextRetryTime
  {
    if w == [] then []
    else if now >= w[0].nextRetryTime then [w[0]] + Ready(w[1..], now)
    else Ready(w[1..], now)
  }

  /** The entries a promotion pass leaves waiting, in their order. */
  function NotReady(w: seq<RetryEntry>, now: real): (r: seq<RetryEntry>)
    ensures forall e :: e in r ==> e in w && now < e.nextRetryTime
  {
    if w == [] then []
    else if now >= w[0].nextRetryTime then NotReady(w[1..], now)
    else [w[0]] + NotReady(w[1..], now)
  }

  /** Promotion loses and duplicates nothing. */
  lemma {:induction false} PartitionConserves(w: seq<RetryEntry>, now: real)
    ensures multiset(Ready(w, now)) + multiset(NotReady(w, now)) == multiset(w)
    ensures |Ready(w, now)| + |NotReady(w, now)| == |w|
  {
    if w != [] {
      PartitionConserves(w[1..], now);
      assert w == [w[0]] + w[1..];
    }
  }

  lemma ReadyAppend(w: seq<RetryEntry>, e: RetryEntry, now: real)
    ensures Ready(w + [e], now) == Ready(w, now) + (if now >= e.nextRetryTime then [e] else [])
    ensures NotReady(w + [e], now) == NotReady(w, now) + (if now >= e.nextRetryTime then [] else [e])
  {
    if w != [] {
      assert (w + [e])[1..] == w[1..] + [e];
      ReadyAppend(w[1..], e, now);
    }
  }

  /**
   * The popleft loop of the promotion pass: each entry goes, in order, to
   * the ready list when it is due and to the new waiting deque otherwise.
   */
  method SplitDue(w: seq<RetryEntry>, now: real) returns (ready: seq<RetryEntry>, remaining: seq<RetryEntry>)
    ensures ready == Ready(w, now) && remaining == NotReady(w, now)
  {
    ready, remaining := [], [];
    for i := 0 to |w|
      invariant ready == Ready(w[..i], now) && remaining == NotReady(w[..i], now)
    {
      var entry := w[i];
      ReadyAppend(w[..i], entry, now);
      assert w[..i + 1] == w[..i] + [entry];
      if now >= entry.nextRetryTime {
        ready := ready + [entry];
      } else {
        remaining := remaining + [entry];
      }
    }
    assert w[..|w|] == w;
  }

  /** The entry as force_retry_all leaves it: due at once. */
  function DueNow(w: seq<RetryEntry>, now: real): (r: seq<RetryEntry>)
    ensures |r| == |w|
    ensures forall i :: 0 <= i < |w| ==> r[i] == w[i].(nextRetryTime := now)
  {
    seq(|w|, i requires 0 <= i < |w| => w[i].(nextRetryTime := now))
  }

  /** The bookkeeping every attempt does before it knows the outcome. */
  function Attempted(e: RetryEntry, now: real): (r: RetryEntry)
    ensures r.retryCount == e.retryCount + 1
    ensures r.retryHistory == e.retryHistory +
      [RetryAttempt(e.retryCount + 1, now,
                    now - (if e.lastAttempt.Some? then e.lastAttempt.value else e.addedToRetry))]
    ensures r.lastAttempt == Some(now)
    ensures r.(retryCount := e.retryCount, retryHistory := e.retryHistory,
               lastAttempt := e.lastAttempt) == e
  {
    var previous := if e.lastAttempt.Some? then e.lastAttempt.value else e.addedToRetry;
    e.(retryCount := e.retryCount + 1,
       retryHistory := e.retryHistory + [RetryAttempt(e.retryCount + 1, now, now - previous)],
       lastAttempt := Some(now))
  }

  /** Queued entries have not used up their budget (a budget below 1 still allows one attempt). */
  ghost predicate Budgeted(e: RetryEntry) {
    e.retryCount >= 0 && (e.retryCount == 0 || e.retryCount < e.maxRetries)
  }

  class RetryQueue {
    var maxRetries: int
    var initialDelay: real
    var maxDelay: real
    var backoffMultiplier: real
    var retryDeque: seq<RetryEntry>
    var waitingDeque: seq<RetryEntry>
    var stats: RetryStats

    ghost predicate Valid()
      reads this
    {
      (forall e :: e in retryDeque ==> Budgeted(e)) &&
      (forall e :: e in waitingDeque ==> Budgeted(e))
    }

    constructor (maxRetries: int, initialDelay: real, maxDelay: real, backoffMultiplier: real)
      ensures Valid()
      ensures this.maxRetries == maxRetries && this.initialDelay == initialDelay
      ensures this.maxDelay == maxDelay && this.backoffMultiplier == backoffMultiplier
      ensures retryDeque == [] && waitingDeque == []
      ensures stats == RetryStats(0, 0, 0, 0, 0.0, 0.0, 0.0, 0, 0)
    {
      this.maxRetries := maxRetries;
      this.initialDelay := initialDelay;
      this.maxDelay := maxDelay;
      this.backoffMultiplier := backoffMultiplier;
      retryDeque := [];
      waitingDeque := [];
      stats := RetryStats(0, 0, 0, 0, 0.0, 0.0, 0.0, 0, 0);
    }

    /**
     * add_failed_message: a fresh entry with no retries, the queue's current
     * budget, due after the initial delay, at the tail of the waiting deque.
     * A missing or zero original timestamp is replaced by `now`.
     */
    method AddFailedMessage(message: string, errorReason: string, originalTimestamp: Option<real>,
                            now: real) returns (added: bool)
      requires Valid()
      modifies this
      ensures Valid() && added
      ensures var original := if originalTimestamp.Some? && originalTimestamp.value != 0.0
                              then originalTimestamp.value else now;
        waitingDeque == old(waitingDeque) +
          [RetryEntry(message, 0, maxRetries, errorReason, original, now, now + initialDelay, [], None)]
      ensures stats == old(stats).(totalMessagesAdded := old(stats).totalMessagesAdded + 1,
                                   currentWaitingSize := |waitingDeque|)
      ensures retryDeque == old(retryDeque)
      ensures maxRetries == old(maxRetries) && initialDelay == old(initialDelay)
      ensures maxDelay == old(maxDelay) && backoffMultiplier == old(backoffMultiplier)
    {
      var original := if originalTimestamp.Some? && originalTimestamp.value != 0.0
                      then originalTimestamp.value else now;
      var entry := RetryEntry(message, 0, maxRetries, errorReason, original, now, now + initialDelay, [], None);
      waitingDeque := waitingDeque + [entry];
      stats := stats.(totalMessagesAdded := stats.totalMessagesAdded + 1,
                      currentWaitingSize := |waitingDeque|);
      added := true;
    }

    /**
     * The promotion pass of the processor: every waiting entry that is due
     * goes, in order, to the tail of the ready deque; the others stay
     * waiting in order.
     */
    method Promote(now: real)
      requires Valid()
      modifies this
      ensures Valid()
      ensures retryDeque == old(retryDeque) + Ready(old(waitingDeque), now)
      ensures waitingDeque == NotReady(old(waitingDeque), now)
      ensures stats == old(stats).(currentQueueSize := |retryDeque|, currentWaitingSize := |waitingDeque|)
      ensures maxRetries == old(maxRetries) && initialDelay == old(initialDelay)
      ensures maxDelay == old(maxDelay) && backoffMultiplier == old(backoffMultiplier)
    {
      var ready, remaining := SplitDue(waitingDeque, now);
      PartitionConserves(old(waitingDeque), now);
      assert forall e :: e in ready ==> e in old(waitingDeque);
      waitingDeque := remaining;
      retryDeque := retryDeque + ready;
      stats := stats.(currentQueueSize := |retryDeque|, currentWaitingSize := |waitingDeque|);
    }

    /**
     * _attempt_retry with the delivery outcome given: success and an
     * exhausted budget end the entry; any other failure puts it back at the
     * tail of the waiting deque after the backoff delay. A callback that
     * raises skips the final average_retry_count update.
     */
    method AttemptRetry(entry: RetryEntry, now: real, success: bool, callbackRaises: bool)
      returns (event: RetryEvent)
      requires Valid() && Budgeted(entry)
      modifies this
      ensures Valid()
      ensures var tried := Attempted(entry, now);
        var s := old(stats).(totalRetriesAttempted := old(stats).totalRetriesAttempted + 1);
        if success then
          var retryTime := now - entry.addedToRetry;
          var total := s.totalRetryTime + retryTime;
          var done := s.(totalMessagesSucceeded := s.totalMessagesSucceeded + 1, totalRetryTime := total,
                         averageRetryTime := total / (s.totalMessagesSucceeded + 1) as real);
          event == Succeeded(tried, retryTime) && waitingDeque == old(waitingDeque) &&
          stats == (if callbackRaises then done else AverageRetryCount(done))
        else if tried.retryCount >= tried.maxRetries then
          var done := s.(totalMessagesFailed := s.totalMessagesFailed + 1);
          event == FailedPermanently(tried, "max_retries_exceeded") && waitingDeque == old(waitingDeque) &&
          stats == (if callbackRaises then done else AverageRetryCount(done))
        else
          var delay := Backoff(tried.retryCount, initialDelay, backoffMultiplier, maxDelay);
          var again := tried.(nextRetryTime := now + delay);
          event == Rescheduled(again, delay) && waitingDeque == old(waitingDeque) + [again] &&
          stats == AverageRetryCount(s.(currentWaitingSize := |waitingDeque|))
      ensures retryDeque == old(retryDeque)
      ensures maxRetries == old(maxRetries) && initialDelay == old(initialDelay)
      ensures maxDelay == old(maxDelay) && backoffMultiplier == old(backoffMultiplier)
    {
      var tried := Attempted(entry, now);
      stats := stats.(totalRetriesAttempted := stats.totalRetriesAttempted + 1);
      if success {
        var retryTime := now - entry.addedToRetry;
        var total := stats.totalRetryTime + retryTime;
        stats := stats.(totalMessagesSucceeded := stats.totalMessagesSucceeded + 1, totalRetryTime := total,
                        averageRetryTime := total / (stats.totalMessagesSucceeded + 1) as real);
        event := Succeeded(tried, retryTime);
        if callbackRaises {
          return;
        }
      } else if tried.retryCount >= tried.maxRetries {
        stats := stats.(totalMessagesFailed := stats.totalMessagesFailed + 1);
        event := FailedPermanently(tried, "max_retries_exceeded");
        if callbackRaises {
          return;
        }
      } else {
        var delay := Backoff(tried.retryCount, initialDelay, backoffMultiplier, maxDelay);
        var again := tried.(nextRetryTime := now + delay);
        waitingDeque := waitingDeque + [again];
        stats := stats.(currentWaitingSize := |waitingDeque|);
        event := Rescheduled(again, delay);
      }
      stats := AverageRetryCount(stats);
    }

    /**
     * One iteration of the processor: promotion, then one attempt on the
     * head of the ready deque when there is one.
     */
    method ProcessorStep(now: real, success: bool, callbackRaises: bool) returns (event: Option<RetryEvent>)
      requires Valid()
      modifies this
      ensures Valid()
      ensures var promoted := old(retryDeque) + Ready(old(waitingDeque), now);
        if promoted == [] then
          event == None && retryDeque == [] && waitingDeque == NotReady(old(waitingDeque), now)
        else
          event.Some? && retryDeque == promoted[1..] &&
          event.value.entry.retryCount == promoted[0].retryCount + 1 &&
          (event.value.Rescheduled? <==>
             !success && promoted[0].retryCount + 1 < promoted[0].maxRetries) &&
          (event.value.Rescheduled? ==>
             waitingDeque == NotReady(old(waitingDeque), now) + [event.value.entry]) &&
          (!event.value.Rescheduled? ==> waitingDeque == NotReady(old(waitingDeque), now))
      ensures stats.totalRetriesAttempted ==
              old(stats.totalRetriesAttempted) + (if event.Some? then 1 else 0)
      ensures stats.totalMessagesSucceeded + stats.totalMessagesFailed ==
              old(stats.totalMessagesSucceeded + stats.totalMessagesFailed) +
              (if event.Some? && !event.value.Rescheduled? then 1 else 0)
    {
      Promote(now);
      if retryDeque == [] {
        return None;
      }
      var entry := retryDeque[0];
      retryDeque := retryDeque[1..];
      var e := AttemptRetry(entry, now, success, callbackRaises);
      event := Some(e);
    }

    /** force_retry_all: every waiting entry becomes due now and moves, in order, to the ready deque. */
    method ForceRetryAll(now: real) returns (moved: nat)
      requires Valid()
      modifies this
      ensures Valid()
      ensures moved == |old(waitingDeque)|
      ensures retryDeque == old(retryDeque) + DueNow(old(waitingDeque), now)
      ensures waitingDeque == []
      ensures stats == old(stats).(currentQueueSize := |retryDeque|, currentWaitingSize := 0)
      ensures maxRetries == old(maxRetries) && initialDelay == old(initialDelay)
      ensures maxDelay == old(maxDelay) && backoffMultiplier == old(backoffMultiplier)
    {
      moved := 0;
      while waitingDeque != []
        invariant moved <= |old(waitingDeque)|
        invariant waitingDeque == old(waitingDeque)[moved..]
        invariant retryDeque == old(retryDeque) + DueNow(old(waitingDeque)[..moved], now)
        invariant forall e :: e in retryDeque ==> Budgeted(e)
        invariant forall e :: e in waitingDeque ==> Budgeted(e)
        invariant stats == old(stats)
        invariant maxRetries == old(maxRetries) && initialDelay == old(initialDelay)
        invariant maxDelay == old(maxDelay) && backoffMultiplier == old(backoffMultiplier)
        decreases |waitingDeque|
      {
        var entry := waitingDeque[0];
        assert Budgeted(entry.(nextRetryTime := now)) by { assert entry in waitingDeque; }
        assert old(waitingDeque)[..moved + 1] == old(waitingDeque)[..moved] + [entry];
        assert DueNow(old(waitingDeque)[..moved + 1], now) ==
               DueNow(old(waitingDeque)[..moved], now) + [entry.(nextRetryTime := now)];
        waitingDeque := waitingDeque[1..];
        retryDeque := retryDeque + [entry.(nextRetryTime := now)];
        moved := moved + 1;
      }
      assert old(waitingDeque)[..moved] == old(waitingDeque);
      stats := stats.(currentQueueSize := |retryDeque|, currentWaitingSize := |waitingDeque|);
    }

    /** clear_queue: the ready deque always, the waiting deque only when asked. */
    method ClearQueue(clearWaiting: bool) returns (cleared: nat)
      requires Valid()
      modifies this
      ensures Valid()
      ensures cleared == |old(retryDeque)| + (if clearWaiting then |old(waitingDeque)| else 0)
      ensures retryDeque == []
      ensures waitingDeque == (if clearWaiting then [] else old(waitingDeque))
      ensures stats == old(stats).(currentQueueSize := 0, currentWaitingSize := |waitingDeque|)
      ensures maxRetries == old(maxRetries) && initialDelay == old(initialDelay)
      ensures maxDelay == old(maxDelay) && backoffMultiplier == old(backoffMultiplier)
    {
      cleared := |retryDeque|;
      if clearWaiting {
        cleared := cleared + |waitingDeque|;
        waitingDeque := [];
      }
      retryDeque := [];
      stats := stats.(currentQueueSize := 0, currentWaitingSize := |waitingDeque|);
    }

    /**
     * update_config: the budget at least 1, the initial delay at least 0.1 s,
     * the cap at least the (possibly just updated) initial delay, the
     * multiplier at least 1. Entries already queued keep their own budget.
     */
    method UpdateConfig(newMaxRetries: Option<int>, newInitialDelay: Option<real>,
                        newMaxDelay: Option<real>, newMultiplier: Option<real>)
      requires Valid()
      modifies this
      ensures Valid()
      ensures maxRetries == (if newMaxRetries.Some? then (if newMaxRetries.value > 1 then newMaxRetries.value else 1)
                             else old(maxRetries))
      ensures initialDelay == (if newInitialDelay.Some? then MaxReal(0.1, newInitialDelay.value)
                               else old(initialDelay))
      ensures maxDelay == (if newMaxDelay.Some? then MaxReal(initialDelay, newMaxDelay.value)
                           else old(maxDelay))
      ensures backoffMultiplier == (if newMultiplier.Some? then MaxReal(1.0, newMultiplier.value)
                                    else old(backoffMultiplier))
      ensures retryDeque == old(retryDeque) && waitingDeque == old(waitingDeque) && stats == old(stats)
    {
      if newMaxRetries.Some? {
        maxRetries := if newMaxRetries.value > 1 then newMaxRetries.value else 1;
      }
      if newInitialDelay.Some? {
        initialDelay := MaxReal(0.1, newInitialDelay.value);
      }
      if newMaxDelay.Some? {
        maxDelay := MaxReal(initialDelay, newMaxDelay.value);
      }
      if newMultiplier.Some? {
        backoffMultiplier := MaxReal(1.0, newMultiplier.value);
      }
    }
  }

  /** The closing update of _attempt_retry: attempts per finished message, once any has finished. */
  function AverageRetryCount(s: RetryStats): (r: RetryStats)
    ensures s.totalMessagesSucceeded + s.totalMessagesFailed > 0 ==>
      r.averageRetryCount * ((s.totalMessagesSucceeded + s.totalMessagesFailed) as real) ==
      s.totalRetriesAttempted as real
    ensures r.(averageRetryCount := s.averageRetryCount) == s
  {
    var finished := s.totalMessagesSucceeded + s.totalMessagesFailed;
    if finished > 0 then s.(averageRetryCount := s.totalRetriesAttempted as real / finished as real)
    else s
  }
}
