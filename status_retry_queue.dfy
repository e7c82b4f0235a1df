/**
 * The single-deque retry queue: each failed message is wrapped in a
 * `RetryMessage` record that carries a status, an attempt count and a
 * jittered exponential next-retry time. Records sit in one deque; finished
 * records move to a bounded history of completed messages.
 *
 * Messages are referred to by identity, as the queue compares them with
 * `id(...)`: a message is a `nat` naming the dict object.
 */
module StatusRetry {
  import opened Optional
  import opened Deques
  import opened Ratios

  datatype RetryStatus = Pending | Retrying | Success | Failed | Abandoned

  datatype FailureReason = Initial(reason: string) | Attempt(attempt: nat, reason: string)

  /** The mutable part of a record, for stating what an operation leaves alone. */
  datatype RecordState = RecordState(attemptCount: nat, status: RetryStatus,
                                     lastAttemptTime: Option<real>, nextRetryTime: Option<real>,
                                     failureReasons: seq<FailureReason>)

  const CompletedLimit := 1000

  function Pow2(n: nat): (r: nat)
    ensures r >= 1
  {
    if n == 0 then 1 else 2 * Pow2(n - 1)
  }

  lemma {:induction false} Pow2Monotone(m: nat, n: nat)
    requires m <= n
    ensures Pow2(m) <= Pow2(n)
    decreases n
  {
    if m < n {
      Pow2Monotone(m, n - 1);
    }
  }

  function MinReal(a: real, b: real): real { if a <= b then a else b }

  /** The capped exponential part of calculate_next_retry: base·2^attempts, at most maxDelay. */
  function RetryDelay(baseDelay: real, maxDelay: real, attemptCount: nat): (d: real)
    ensures d <= maxDelay
    ensures baseDelay >= 0.0 && maxDelay >= 0.0 ==> d >= 0.0
  {
    MinReal(baseDelay * Pow2(attemptCount) as real, maxDelay)
  }

  /** More attempts never shorten the delay. */
  lemma RetryDelayMonotone(baseDelay: real, maxDelay: real, m: nat, n: nat)
    requires baseDelay >= 0.0 && m <= n
    ensures RetryDelay(baseDelay, maxDelay, m) <= RetryDelay(baseDelay, maxDelay, n)
  {
    Pow2Monotone(m, n);
    var a, b := Pow2(m) as real, Pow2(n) as real;
    NonNegativeProduct(baseDelay, b - a);
    assert baseDelay * (b - a) == baseDelay * b - baseDelay * a;
  }

  lemma JitterBounds(jitter: real, d: real)
    requires 0.1 <= jitter <= 0.5 && d >= 0.0
    ensures 0.1 * d <= jitter * d <= 0.5 * d
  {
    assert (jitter - 0.1) * d >= 0.0;
    assert (0.5 - jitter) * d >= 0.0;
  }

  /**
   * calculate_next_retry after `attempts` attempts, with the uniform jitter
   * factor passed in: the capped delay plus a share of it as jitter.
   */
  function NextRetryTime(baseDelay: real, maxDelay: real, attempts: nat, jitter: real, now: real): real {
    var d := RetryDelay(baseDelay, maxDelay, attempts);
    now + d + jitter * d
  }

  /** With a 10-50% jitter the next retry lies 110% to 150% of the capped delay after `now`. */
  lemma NextRetryWindow(baseDelay: real, maxDelay: real, attempts: nat, jitter: real, now: real)
    requires 0.1 <= jitter <= 0.5 && baseDelay >= 0.0 && maxDelay >= 0.0
    ensures var d := RetryDelay(baseDelay, maxDelay, attempts);
      now + 1.1 * d <= NextRetryTime(baseDelay, maxDelay, attempts, jitter, now) <= now + 1.5 * d
  {
    var d := RetryDelay(baseDelay, maxDelay, attempts);
    JitterBounds(jitter, d);
    assert NextRetryTime(baseDelay, maxDelay, attempts, jitter, now) == now + d + jitter * d;
  }

  function Bump(counts: map<RetryStatus, nat>, s: RetryStatus): map<RetryStatus, nat> {
    counts[s := (if s in counts then counts[s] else 0) + 1]
  }

  class RetryMessage {
    /** the wrapped message, by identity */
    const message: nat
    const maxRetries: int
    const firstAttemptTime: real
    var attemptCount: nat
    var status: RetryStatus
    var lastAttemptTime: Option<real>
    var nextRetryTime: Option<real>
    var failureReasons: seq<FailureReason>

    /** A new record: no attempts yet, pending, not scheduled. */
    constructor (message: nat, maxRetries: int, now: real)
      ensures this.message == message && this.maxRetries == maxRetries
      ensures firstAttemptTime == now && attemptCount == 0 && status == Pending
      ensures lastAttemptTime == None && nextRetryTime == None && failureReasons == []
    {
      this.message := message;
      this.maxRetries := maxRetries;
      firstAttemptTime := now;
      attemptCount := 0;
      status := Pending;
      lastAttemptTime := None;
      nextRetryTime := None;
      failureReasons := [];
    }

    function State(): RecordState
      reads this
    {
      RecordState(attemptCount, status, lastAttemptTime, nextRetryTime, failureReasons)
    }

    /**
     * calculate_next_retry, with the uniform jitter factor passed in: the
     * next retry lies 110% to 150% of the capped delay after `now`.
     */
    method CalculateNextRetry(baseDelay: real, maxDelay: real, jitter: real, now: real) returns (next: real)
      modifies this
      ensures next == NextRetryTime(baseDelay, maxDelay, attemptCount, jitter, now)
      ensures State() == old(State()).(nextRetryTime := Some(next))
    {
      var delay := RetryDelay(baseDelay, maxDelay, attemptCount);
      var offset := jitter * delay;
      next := now + delay + offset;
      nextRetryTime := Some(next);
    }

    /** The bookkeeping of a failed attempt in add_retry_failure: one more attempt, stamped and explained. */
    method RecordAttempt(failureReason: string, now: real)
      modifies this
      ensures State() == old(State()).(attemptCount := old(attemptCount) + 1, lastAttemptTime := Some(now),
                                       failureReasons := old(failureReasons) + [Attempt(old(attemptCount) + 1, failureReason)])
    {
      attemptCount := attemptCount + 1;
      lastAttemptTime := Some(now);
      failureReasons := failureReasons + [Attempt(attemptCount, failureReason)];
    }

    /**
     * What add_retry_failure does to the record it finds: the attempt is
     * recorded, then the record is abandoned once the queue's `budget` of
     * attempts is used up, or scheduled again otherwise.
     */
    method RecordFailure(failureReason: string, now: real, budget: int,
                         baseDelay: real, maxDelay: real, jitter: real)
      modifies this
      ensures State() == AfterFailure(old(State()), failureReason, now, budget, baseDelay, maxDelay, jitter)
    {
      RecordAttempt(failureReason, now);
      if attemptCount >= budget {
        status := Abandoned;
      } else {
        var _ := CalculateNextRetry(baseDelay, maxDelay, jitter, now);
        status := Pending;
      }
    }

    /** The test of get_ready_messages on one record; a ready record becomes retrying. */
    method TakeIfReady(now: real) returns (isReady: bool)
      modifies this
      ensures isReady == IsReady(old(State()), now)
      ensures State() == if isReady then old(State()).(status := Retrying) else old(State())
    {
      isReady := status == Pending && nextRetryTime.Some? && nextRetryTime.value != 0.0 &&
                 now >= nextRetryTime.value;
      if isReady {
        status := Retrying;
      }
    }
  }

  /** The state of each record of `q`, in order. */
  function States(q: seq<RetryMessage>): (r: seq<RecordState>)
    reads q
    ensures |r| == |q| && forall j :: 0 <= j < |q| ==> r[j] == q[j].State()
  {
    seq(|q|, j requires 0 <= j < |q| reads q => q[j].State())
  }

  /** Whether get_ready_messages takes a record: pending and due (a zero time counts as unset). */
  predicate IsReady(st: RecordState, now: real) {
    st.status == Pending && st.nextRetryTime.Some? && st.nextRetryTime.value != 0.0 &&
    now >= st.nextRetryTime.value
  }

  /**
   * The ready records among positions `k..` of the deque, in the order
   * get_ready_messages returns them: from the back forwards.
   */
  function ReadyFrom(q: seq<RetryMessage>, st: seq<RecordState>, k: nat, now: real): (r: seq<RetryMessage>)
    requires |q| == |st| && k <= |q|
    decreases |q| - k
  {
    if k == |q| then [] else ReadyFrom(q, st, k + 1, now) + (if IsReady(st[k], now) then [q[k]] else [])
  }

  /** The records among positions `k..` that get_ready_messages puts back, in their order. */
  function WaitingFrom(q: seq<RetryMessage>, st: seq<RecordState>, k: nat, now: real): (r: seq<RetryMessage>)
    requires |q| == |st| && k <= |q|
    decreases |q| - k
  {
    if k == |q| then [] else (if IsReady(st[k], now) then [] else [q[k]]) + WaitingFrom(q, st, k + 1, now)
  }

  /** The states get_ready_messages leaves: ready records become retrying. */
  function AfterReady(st: seq<RecordState>, now: real): (r: seq<RecordState>)
    ensures |r| == |st|
    ensures forall j :: 0 <= j < |st| ==>
      r[j] == if IsReady(st[j], now) then st[j].(status := Retrying) else st[j]
  {
    seq(|st|, j requires 0 <= j < |st| => if IsReady(st[j], now) then st[j].(status := Retrying) else st[j])
  }

  /**
   * What add_retry_failure does to a found record: one more attempt, the
   * reason logged, then abandoned once the queue's budget is reached, else
   * pending again with a new retry time.
   */
  function AfterFailure(st: RecordState, reason: string, now: real, maxRetries: int,
                        baseDelay: real, maxDelay: real, jitter: real): (r: RecordState)
    ensures r.attemptCount == st.attemptCount + 1 && r.lastAttemptTime == Some(now)
    ensures r.failureReasons == st.failureReasons + [Attempt(r.attemptCount, reason)]
    ensures r.status == Abandoned <==> r.attemptCount >= maxRetries
    ensures r.status != Abandoned ==>
      r.status == Pending && r.nextRetryTime == Some(NextRetryTime(baseDelay, maxDelay, r.attemptCount, jitter, now))
    ensures r.status == Abandoned ==> r.nextRetryTime == st.nextRetryTime
  {
    var count := st.attemptCount + 1;
    var tried := st.(attemptCount := count, lastAttemptTime := Some(now),
                     failureReasons := st.failureReasons + [Attempt(count, reason)]);
    if count >= maxRetries then tried.(status := Abandoned)
    else tried.(status := Pending,
                nextRetryTime := Some(NextRetryTime(baseDelay, maxDelay, count, jitter, now)))
  }

  /** One record more on the two sides of the split. */
  lemma ReadyStepped(q: seq<RetryMessage>, st: seq<RecordState>, i: nat, now: real,
                     ready: seq<RetryMessage>, temp: seq<RetryMessage>)
    requires |q| == |st| && i < |q|
    requires ready == ReadyFrom(q, st, i + 1, now) && temp == WaitingFrom(q, st, i + 1, now)
    ensures IsReady(st[i], now) ==>
      ready + [q[i]] == ReadyFrom(q, st, i, now) && temp == WaitingFrom(q, st, i, now)
    ensures !IsReady(st[i], now) ==>
      ready == ReadyFrom(q, st, i, now) && [q[i]] + temp == WaitingFrom(q, st, i, now)
  {
  }

  /** Every record goes to exactly one side of get_ready_messages. */
  lemma {:induction false} ReadySplitLength(q: seq<RetryMessage>, st: seq<RecordState>, k: nat, now: real)
    requires |q| == |st| && k <= |q|
    ensures |ReadyFrom(q, st, k, now)| + |WaitingFrom(q, st, k, now)| == |q| - k
    decreases |q| - k
  {
    if k < |q| {
      ReadySplitLength(q, st, k + 1, now);
    }
  }

  /** Splitting one record more adds it to one side. */
  lemma ConservesStep(q: seq<RetryMessage>, st: seq<RecordState>, k: nat, now: real)
    requires |q| == |st| && k < |q|
    requires multiset(ReadyFrom(q, st, k + 1, now)) + multiset(WaitingFrom(q, st, k + 1, now)) ==
             multiset(q[k + 1..])
    ensures multiset(ReadyFrom(q, st, k, now)) + multiset(WaitingFrom(q, st, k, now)) == multiset(q[k..])
  {
    assert q[k..] == [q[k]] + q[k + 1..];
  }

  /** ... and as a multiset the two sides together are exactly the records split. */
  lemma {:induction false} ReadySplitConserves(q: seq<RetryMessage>, st: seq<RecordState>, k: nat, now: real)
    requires |q| == |st| && k <= |q|
    ensures multiset(ReadyFrom(q, st, k, now)) + multiset(WaitingFrom(q, st, k, now)) == multiset(q[k..])
    decreases |q| - k
  {
    if k < |q| {
      ReadySplitConserves(q, st, k + 1, now);
      ConservesStep(q, st, k, now);
    }
  }

  /** The records of either side of the split come from `q`, at a position of the right kind. */
  lemma {:induction false} SplitSides(q: seq<RetryMessage>, st: seq<RecordState>, k: nat, now: real)
    requires |q| == |st| && k <= |q|
    ensures forall x :: x in ReadyFrom(q, st, k, now) ==>
      exists j :: k <= j < |q| && q[j] == x && IsReady(st[j], now)
    ensures forall x :: x in WaitingFrom(q, st, k, now) ==>
      exists j :: k <= j < |q| && q[j] == x && !IsReady(st[j], now)
    ensures Distinct(q) ==> Distinct(WaitingFrom(q, st, k, now))
    decreases |q| - k
  {
    if k < |q| {
      SplitSides(q, st, k + 1, now);
      var w := WaitingFrom(q, st, k + 1, now);
      forall x | x in ReadyFrom(q, st, k, now)
        ensures exists j :: k <= j < |q| && q[j] == x && IsReady(st[j], now)
      {
        if x !in ReadyFrom(q, st, k + 1, now) {
          assert q[k] == x && IsReady(st[k], now);
        }
      }
      forall x | x in WaitingFrom(q, st, k, now)
        ensures exists j :: k <= j < |q| && q[j] == x && !IsReady(st[j], now)
      {
        if x !in w {
          assert q[k] == x && !IsReady(st[k], now);
        }
      }
      if Distinct(q) && !IsReady(st[k], now) {
        forall x | x in w
          ensures x != q[k]
        {
          var j :| k + 1 <= j < |q| && q[j] == x && !IsReady(st[j], now);
        }
        DistinctCons(q[k], w);
      }
    }
  }

  /**
   * What the split leaves: the ready records are retrying and off the deque,
   * the others are unchanged, so still pending, scheduled and distinct.
   */
  lemma SplitMembers(q: seq<RetryMessage>, before: seq<RecordState>, now: real)
    requires |q| == |before| && Distinct(q) && States(q) == AfterReady(before, now)
    requires forall j :: 0 <= j < |q| ==> before[j].status == Pending && before[j].nextRetryTime.Some?
    ensures forall x :: x in ReadyFrom(q, before, 0, now) ==>
      x in q && x.status == Retrying && x !in WaitingFrom(q, before, 0, now)
    ensures forall x :: x in WaitingFrom(q, before, 0, now) ==>
      x in q && x.status == Pending && x.nextRetryTime.Some?
    ensures Distinct(WaitingFrom(q, before, 0, now))
  {
    SplitSides(q, before, 0, now);
    forall x | x in WaitingFrom(q, before, 0, now)
      ensures x in q && x.status == Pending && x.nextRetryTime.Some?
    {
      var j :| 0 <= j < |q| && q[j] == x && !IsReady(before[j], now);
      assert q[j].State() == States(q)[j];
    }
    forall x | x in ReadyFrom(q, before, 0, now)
      ensures x in q && x.status == Retrying
    {
      var j :| 0 <= j < |q| && q[j] == x && IsReady(before[j], now);
      assert q[j].State() == States(q)[j];
    }
  }

  /** Position of the first record wrapping `message`, or -1: the lookup loop of the queue. */
  function FirstIndex(q: seq<RetryMessage>, message: nat): (i: int)
    ensures -1 <= i < |q|
    ensures i >= 0 ==> q[i].message == message
    ensures forall j :: 0 <= j < |q| && (i < 0 || j < i) ==> q[j].message != message
  {
    if q == [] then -1
    else if q[0].message == message then 0
    else var k := FirstIndex(q[1..], message); if k < 0 then -1 else k + 1
  }

  /** No message dict is wrapped by two records. */
  predicate DistinctMessages(q: seq<RetryMessage>) {
    forall i, j :: 0 <= i < j < |q| ==> q[i].message != q[j].message
  }

  /** deque.remove: drops the first occurrence, if any. */
  function RemoveFirst(q: seq<RetryMessage>, m: RetryMessage): (r: seq<RetryMessage>)
    ensures m !in q ==> r == q
  {
    if q == [] then []
    else if q[0] == m then q[1..]
    else [q[0]] + RemoveFirst(q[1..], m)
  }

  lemma {:induction false} RemoveFirstAt(q: seq<RetryMessage>, i: int)
    requires 0 <= i < |q| && Distinct(q)
    ensures RemoveFirst(q, q[i]) == q[..i] + q[i + 1..]
  {
    if i > 0 {
      assert q[0] != q[i];
      RemoveFirstAt(q[1..], i - 1);
      assert q[1..][..i - 1] == q[1..i];
      assert q[..i] == [q[0]] + q[1..i];
      assert q[1..][i - 1 + 1..] == q[i + 1..];
    }
  }

  /** Length of the run of entries at the front older than `threshold`. */
  function OldPrefix(c: seq<RetryMessage>, threshold: real): (n: nat)
    ensures n <= |c|
    ensures forall j :: 0 <= j < n ==> c[j].firstAttemptTime < threshold
    ensures n < |c| ==> c[n].firstAttemptTime >= threshold
  {
    if c == [] || c[0].firstAttemptTime >= threshold then 0 else 1 + OldPrefix(c[1..], threshold)
  }

  datatype QueueStats = QueueStats(totalMessagesAdded: nat, totalRetryAttempts: nat,
                                   successfulRetries: nat, failedMessages: nat,
                                   abandonedMessages: nat, currentQueueSize: nat,
                                   averageRetryCount: real, longestRetryTime: real,
                                   retrySuccessRate: real,
                                   messagesByStatus: map<RetryStatus, nat>)

  function SumAttempts(hist: seq<RecordState>): nat {
    if hist == [] then 0 else hist[0].attemptCount + SumAttempts(hist[1..])
  }

  function CountStatus(hist: seq<RecordState>, s: RetryStatus): (n: nat)
    ensures n <= |hist|
  {
    if hist == [] then 0 else (if hist[0].status == s then 1 else 0) + CountStatus(hist[1..], s)
  }

  function MaxOf(xs: seq<real>): (m: real)
    requires |xs| > 0
    ensures forall i :: 0 <= i < |xs| ==> xs[i] <= m
    ensures exists i :: 0 <= i < |xs| && xs[i] == m
  {
    if |xs| == 1 then xs[0]
    else var t := MaxOf(xs[1..]); if xs[0] >= t then xs[0] else t
  }

  /**
   * The history part of get_stats as intended: the mean attempt count and
   * success percentage over the history, and the longest time a record has
   * spent since creation (`ages`, one per history entry). The source rounds
   * each to two decimals; that rounding is not modelled.
   */
  function HistoryStats(stats: QueueStats, hist: seq<RecordState>, ages: seq<real>): (r: QueueStats)
    requires |ages| == |hist|
    ensures hist == [] ==> r == stats
    ensures hist != [] ==>
      r.averageRetryCount * |hist| as real == SumAttempts(hist) as real &&
      0.0 <= r.retrySuccessRate <= 100.0 &&
      (r.retrySuccessRate == 100.0 <==> CountStatus(hist, Success) == |hist|) &&
      (forall i :: 0 <= i < |ages| ==> ages[i] <= r.longestRetryTime) &&
      (exists i :: 0 <= i < |ages| && ages[i] == r.longestRetryTime) &&
      r == stats.(averageRetryCount := r.averageRetryCount, retrySuccessRate := r.retrySuccessRate,
                  longestRetryTime := r.longestRetryTime)
  {
    if hist == [] then stats
    else stats.(averageRetryCount := SumAttempts(hist) as real / |hist| as real,
                retrySuccessRate := Percent(CountStatus(hist, Success), |hist|),
                longestRetryTime := MaxOf(ages))
  }

  /**
   * get_stats as written: the longest-time step reads an attribute that
   * records do not have, so with a non-empty history the call raises (None)
   * after storing the average and the success rate.
   */
  function HistoryStatsAsWritten(stats: QueueStats, hist: seq<RecordState>):
    (r: (QueueStats, Option<QueueStats>))
    ensures hist == [] ==> r == (stats, Some(stats))
    ensures hist != [] ==> r.1 == None && r.0.longestRetryTime == stats.longestRetryTime
  {
    if hist == [] then (stats, Some(stats))
    else (stats.(averageRetryCount := SumAttempts(hist) as real / |hist| as real,
                 retrySuccessRate := Percent(CountStatus(hist, Success), |hist|)), None)
  }

  /**
   * With one successful entry in the history, five seconds old, get_stats
   * as written raises, while the intended statistics report a 100% success
   * rate, one attempt on average and a longest time of five seconds.
   */
  lemma GetStatsRaisesOnHistory(stats: QueueStats)
    ensures var hist := [RecordState(1, Success, Some(5.0), Some(3.0), [])];
      HistoryStatsAsWritten(stats, hist).1 == None &&
      var r := HistoryStats(stats, hist, [5.0]);
      r.retrySuccessRate == 100.0 && r.averageRetryCount == 1.0 && r.longestRetryTime == 5.0
  {
    var hist := [RecordState(1, Success, Some(5.0), Some(3.0), [])];
    assert hist[1..] == [];
    assert SumAttempts(hist) == 1 && CountStatus(hist, Success) == 1;
  }

  /** The time each history entry has spent since it was created, at `now`: total_time_in_queue of to_dict. */
  function Ages(c: seq<RetryMessage>, now: real): (r: seq<real>)
    ensures |r| == |c| && forall j :: 0 <= j < |c| ==> r[j] == now - c[j].firstAttemptTime
  {
    seq(|c|, j requires 0 <= j < |c| => now - c[j].firstAttemptTime)
  }

  /** What mark_retry_success does to a found record. */
  function AfterSuccess(st: RecordState, now: real): (r: RecordState)
    ensures r.status == Success && r.lastAttemptTime == Some(now)
    ensures r.attemptCount == st.attemptCount && r.nextRetryTime == st.nextRetryTime
    ensures r.failureReasons == st.failureReasons
  {
    st.(status := Success, lastAttemptTime := Some(now))
  }

  /** What force_retry_all does to the records: the pending ones become due at `now`. */
  function Forced(st: seq<RecordState>, now: real): (r: seq<RecordState>)
    ensures |r| == |st|
    ensures forall j :: 0 <= j < |st| ==>
      r[j] == if st[j].status == Pending then st[j].(nextRetryTime := Some(now)) else st[j]
  {
    seq(|st|, j requires 0 <= j < |st| =>
      if st[j].status == Pending then st[j].(nextRetryTime := Some(now)) else st[j])
  }

  /** The number of pending records among the first `k` states of `st`. */
  function CountPending(st: seq<RecordState>, k: nat): (n: nat)
    requires k <= |st|
    ensures n <= k
  {
    if k == 0 then 0 else CountPending(st, k - 1) + (if st[k - 1].status == Pending then 1 else 0)
  }

  /** The records before position `k` have been through force_retry_all. */
  ghost predicate ForcedBelow(q: seq<RetryMessage>, before: seq<RecordState>, k: nat, now: real)
    requires |q| == |before|
    reads q
  {
    forall j :: 0 <= j < |q| ==>
      q[j].State() == if j < k && before[j].status == Pending then before[j].(nextRetryTime := Some(now)) else before[j]
  }

  /** The test and update of force_retry_all on the record at `idx`. */
  method ForceOne(m: RetryMessage, ghost q: seq<RetryMessage>, ghost before: seq<RecordState>,
                  ghost idx: nat, now: real) returns (forced: bool)
    requires |q| == |before| && idx < |q| && q[idx] == m && Distinct(q) && ForcedBelow(q, before, idx, now)
    modifies m
    ensures forced == (before[idx].status == Pending)
    ensures ForcedBelow(q, before, idx + 1, now)
  {
    assert forall j :: 0 <= j < |q| && j != idx ==> q[j] != m;
    forced := m.status == Pending;
    if forced {
      m.nextRetryTime := Some(now);
    }
  }

  /** The loop of force_retry_all over the records `q`: the number forced is the number pending. */
  method ForceAll(q: seq<RetryMessage>, now: real) returns (count: nat)
    requires Distinct(q)
    modifies q
    ensures count == CountPending(old(States(q)), |q|)
    ensures States(q) == Forced(old(States(q)), now)
  {
    ghost var before := States(q);
    count := 0;
    var i := 0;
    while i < |q|
      invariant 0 <= i <= |q|
      invariant count == CountPending(before, i)
      invariant ForcedBelow(q, before, i, now)
    {
      var forced := ForceOne(q[i], q, before, i, now);
      count := count + if forced then 1 else 0;
      i := i + 1;
    }
    StatesAll(q, Forced(before, now));
  }

  /** All of the states are pending exactly when all of them are counted. */
  lemma {:induction false} AllPending(st: seq<RecordState>, k: nat)
    requires k <= |st|
    ensures CountPending(st, k) == k <==> forall j :: 0 <= j < k ==> st[j].status == Pending
  {
    if k > 0 {
      AllPending(st, k - 1);
    }
  }

  lemma StatesAll(q: seq<RetryMessage>, target: seq<RecordState>)
    requires |q| == |target| && forall j :: 0 <= j < |q| ==> q[j].State() == target[j]
    ensures States(q) == target
  {
  }

  /** Only the record at `i` changed state, to `st`. */
  lemma StatesAt(q: seq<RetryMessage>, i: int, before: seq<RecordState>, st: RecordState)
    requires |before| == |q| && 0 <= i < |q| && q[i].State() == st
    requires forall j :: 0 <= j < |q| && j != i ==> q[j].State() == before[j]
    ensures States(q) == before[i := st]
  {
  }

  /** The records from position `k` on have been through the readiness test of get_ready_messages. */
  ghost predicate Marked(q: seq<RetryMessage>, before: seq<RecordState>, k: nat, now: real)
    requires |q| == |before|
    reads q
  {
    forall j :: 0 <= j < |q| ==>
      q[j].State() == if k <= j && IsReady(before[j], now) then before[j].(status := Retrying) else before[j]
  }

  /** The readiness test of get_ready_messages on the record at `idx`. */
  method Classify(m: RetryMessage, ghost q: seq<RetryMessage>, ghost before: seq<RecordState>,
                  ghost idx: nat, now: real) returns (isReady: bool)
    requires |q| == |before| && idx < |q| && q[idx] == m && Distinct(q) && Marked(q, before, idx + 1, now)
    modifies m
    ensures isReady == IsReady(before[idx], now)
    ensures Marked(q, before, idx, now)
  {
    assert forall j :: 0 <= j < |q| && j != idx ==> q[j] != m;
    isReady := m.TakeIfReady(now);
  }

  /**
   * The popping loop of get_ready_messages over the deque `q`: pops from
   * the back, marking the ready records retrying and collecting the others
   * in their order.
   */
  method SplitReady(q: seq<RetryMessage>, now: real) returns (ready: seq<RetryMessage>, temp: seq<RetryMessage>)
    requires Distinct(q)
    modifies q
    ensures ready == ReadyFrom(q, old(States(q)), 0, now)
    ensures temp == WaitingFrom(q, old(States(q)), 0, now)
    ensures States(q) == AfterReady(old(States(q)), now)
  {
    ghost var before := States(q);
    var rest := q;
    ready := [];
    temp := [];
    while rest != []
      invariant |rest| <= |q| && rest == q[..|rest|]
      invariant ready == ReadyFrom(q, before, |rest|, now)
      invariant temp == WaitingFrom(q, before, |rest|, now)
      invariant Marked(q, before, |rest|, now)
      decreases |rest|
    {
      var idx := |rest| - 1;
      var m := rest[idx];
      rest := rest[..idx];
      var isReady := Classify(m, q, before, idx, now);
      ReadyStepped(q, before, idx, now, ready, temp);
      if isReady {
        ready := ready + [m];
      } else {
        temp := [m] + temp;
      }
    }
    StatesAll(q, AfterReady(before, now));
  }

  /** Every record is pending, with a retry time. */
  predicate Scheduled(st: seq<RecordState>) {
    forall j :: 0 <= j < |st| ==> st[j].status == Pending && st[j].nextRetryTime.Some?
  }

  /** Every record but the one at `i` is pending, with a retry time. */
  predicate ScheduledExcept(st: seq<RecordState>, i: int) {
    forall j :: 0 <= j < |st| && j != i ==> st[j].status == Pending && st[j].nextRetryTime.Some?
  }

  /** No record of `q` is also in `h`. */
  predicate Apart(q: seq<RetryMessage>, h: seq<RetryMessage>) {
    forall j :: 0 <= j < |q| ==> q[j] !in h
  }

  class RetryQueue {
    const maxRetries: int
    const baseDelay: real
    const maxDelay: real
    const cleanupInterval: real
    var retryQueue: seq<RetryMessage>
    var completedMessages: seq<RetryMessage>
    var stats: QueueStats

    /**
     * The deque holds distinct records, all pending and scheduled, none of
     * them also in the completed history, which stays within its bound.
     */
    ghost predicate Valid()
      reads this, retryQueue
    {
      Distinct(retryQueue) && Scheduled(States(retryQueue)) &&
      Apart(retryQueue, completedMessages) && |completedMessages| <= CompletedLimit
    }

    constructor (maxRetries: int, baseDelay: real, maxDelay: real, cleanupInterval: real)
      ensures Valid()
      ensures this.maxRetries == maxRetries && this.baseDelay == baseDelay
      ensures this.maxDelay == maxDelay && this.cleanupInterval == cleanupInterval
      ensures retryQueue == [] && completedMessages == []
      ensures stats == QueueStats(0, 0, 0, 0, 0, 0, 0.0, 0.0, 0.0,
        map[Pending := 0, Retrying := 0, Success := 0, Failed := 0, Abandoned := 0])
    {
      this.maxRetries := maxRetries;
      this.baseDelay := baseDelay;
      this.maxDelay := maxDelay;
      this.cleanupInterval := cleanupInterval;
      retryQueue := [];
      completedMessages := [];
      stats := QueueStats(0, 0, 0, 0, 0, 0, 0.0, 0.0, 0.0,
        map[Pending := 0, Retrying := 0, Success := 0, Failed := 0, Abandoned := 0]);
    }

    /**
     * enqueue: a new pending record with the initial failure recorded and its
     * first retry scheduled, placed at the FRONT of the deque.
     */
    method Enqueue(message: nat, failureReason: string, jitter: real, now: real) returns (ok: bool)
      requires Valid()
      modifies this
      ensures Valid() && ok
      ensures |retryQueue| == |old(retryQueue)| + 1 && retryQueue[1..] == old(retryQueue)
      ensures fresh(retryQueue[0])
      ensures retryQueue[0].message == message && retryQueue[0].maxRetries == maxRetries
      ensures retryQueue[0].firstAttemptTime == now
      ensures retryQueue[0].State() ==
        RecordState(0, Pending, None, Some(NextRetryTime(baseDelay, maxDelay, 0, jitter, now)),
                    [Initial(failureReason)])
      ensures completedMessages == old(completedMessages)
      ensures stats == old(stats).(totalMessagesAdded := old(stats).totalMessagesAdded + 1,
                                   currentQueueSize := |retryQueue|,
                                   messagesByStatus := Bump(old(stats).messagesByStatus, Pending))
    {
      var m := NewRecord(message, failureReason, jitter, now);
      ghost var q := retryQueue;
      DistinctCons(m, q);
      retryQueue := [m] + retryQueue;
      StatesCons(m, q);
      stats := stats.(totalMessagesAdded := stats.totalMessagesAdded + 1,
                      currentQueueSize := |retryQueue|,
                      messagesByStatus := Bump(stats.messagesByStatus, Pending));
      ok := true;
    }

    /** The record enqueue builds: the initial failure recorded, the first retry scheduled. */
    method NewRecord(message: nat, failureReason: string, jitter: real, now: real) returns (m: RetryMessage)
      ensures fresh(m)
      ensures m.message == message && m.maxRetries == maxRetries && m.firstAttemptTime == now
      ensures m.State() == RecordState(0, Pending, None, Some(NextRetryTime(baseDelay, maxDelay, 0, jitter, now)),
                                       [Initial(failureReason)])
    {
      m := new RetryMessage(message, maxRetries, now);
      m.failureReasons := m.failureReasons + [Initial(failureReason)];
      var _ := m.CalculateNextRetry(baseDelay, maxDelay, jitter, now);
    }

    /** The lookup loop shared by add_retry_failure and mark_retry_success. */
    method Find(message: nat) returns (i: int)
      ensures i == FirstIndex(retryQueue, message)
    {
      i := 0;
      while i < |retryQueue| && retryQueue[i].message != message
        invariant 0 <= i <= |retryQueue|
        invariant forall j :: 0 <= j < i ==> retryQueue[j].message != message
      {
        i := i + 1;
      }
      if i == |retryQueue| {
        i := -1;
      }
      FirstIndexIs(retryQueue, message, i);
    }

    /**
     * _move_to_completed: removes the record from the deque if it is there,
     * appends it to the bounded history and counts it under its status.
     */
    method MoveToCompleted(m: RetryMessage)
      modifies this
      ensures retryQueue == RemoveFirst(old(retryQueue), m)
      ensures completedMessages == KeepNewest(old(completedMessages) + [m], CompletedLimit)
      ensures stats == old(stats).(currentQueueSize := |retryQueue|,
                                   messagesByStatus := Bump(old(stats).messagesByStatus, m.status))
    {
      retryQueue := RemoveFirst(retryQueue, m);
      completedMessages := KeepNewest(completedMessages + [m], CompletedLimit);
      stats := stats.(currentQueueSize := |retryQueue|,
                      messagesByStatus := Bump(stats.messagesByStatus, m.status));
    }

    /** Moving a record of a valid deque to the history keeps the queue valid. */
    method Retire(i: int)
      requires 0 <= i < |retryQueue| && Distinct(retryQueue) && |completedMessages| <= CompletedLimit
      requires ScheduledExcept(States(retryQueue), i) && Apart(retryQueue, completedMessages)
      modifies this
      ensures Valid()
      ensures retryQueue == old(retryQueue[..i] + retryQueue[i + 1..])
      ensures completedMessages == KeepNewest(old(completedMessages) + [old(retryQueue[i])], CompletedLimit)
      ensures stats == old(stats).(currentQueueSize := |retryQueue|,
                                   messagesByStatus := Bump(old(stats).messagesByStatus, old(retryQueue[i]).status))
    {
      ghost var q := retryQueue;
      ghost var st := States(retryQueue);
      RemoveFirstAt(retryQueue, i);
      DropKeepsValid(q, i);
      MoveToCompleted(retryQueue[i]);
      StatesDrop(q, i);
      ApartDrop(q, old(completedMessages), i);
    }

    /**
     * The state add_retry_failure leaves when it finds the record at `i` of
     * the deque `q` (whose records were in states `before`, with history
     * `history` and statistics `prior`): the record has had one more failed
     * attempt; abandoned, it has moved to the history; otherwise it stays.
     */
    ghost predicate FailedAt(q: seq<RetryMessage>, before: seq<RecordState>, history: seq<RetryMessage>,
                             prior: QueueStats, i: int, failureReason: string, jitter: real, now: real)
      requires |q| == |before| && 0 <= i < |q|
      reads this, q
    {
      var st := AfterFailure(before[i], failureReason, now, maxRetries, baseDelay, maxDelay, jitter);
      States(q) == before[i := st] &&
      if st.status == Abandoned then
        retryQueue == q[..i] + q[i + 1..] &&
        completedMessages == KeepNewest(history + [q[i]], CompletedLimit) &&
        stats == prior.(totalRetryAttempts := prior.totalRetryAttempts + 1,
                        currentQueueSize := |retryQueue|,
                        messagesByStatus := Bump(prior.messagesByStatus, Abandoned))
      else
        retryQueue == q && completedMessages == history &&
        stats == prior.(totalRetryAttempts := prior.totalRetryAttempts + 1)
    }

    /** The state mark_retry_success leaves when it finds the record at `i`: succeeded and in the history. */
    ghost predicate SucceededAt(q: seq<RetryMessage>, before: seq<RecordState>, history: seq<RetryMessage>,
                                prior: QueueStats, i: int, now: real)
      requires |q| == |before| && 0 <= i < |q|
      reads this, q
    {
      States(q) == before[i := AfterSuccess(before[i], now)] &&
      retryQueue == q[..i] + q[i + 1..] &&
      completedMessages == KeepNewest(history + [q[i]], CompletedLimit) &&
      stats == prior.(successfulRetries := prior.successfulRetries + 1,
                      currentQueueSize := |retryQueue|,
                      messagesByStatus := Bump(prior.messagesByStatus, Success))
    }

    /** The found branch of add_retry_failure, for the record at `i`. */
    method FailAt(i: int, failureReason: string, jitter: real, now: real)
      requires Valid() && 0 <= i < |retryQueue|
      modifies this, retryQueue[i]
      ensures Valid()
      ensures FailedAt(old(retryQueue), old(States(retryQueue)), old(completedMessages), old(stats),
                       i, failureReason, jitter, now)
    {
      ghost var q := retryQueue;
      ghost var before := States(retryQueue);
      ghost var st := AfterFailure(before[i], failureReason, now, maxRetries, baseDelay, maxDelay, jitter);
      var m := retryQueue[i];
      m.RecordFailure(failureReason, now, maxRetries, baseDelay, maxDelay, jitter);
      StatesAt(q, i, before, st);
      stats := stats.(totalRetryAttempts := stats.totalRetryAttempts + 1);
      if m.status == Abandoned {
        Retire(i);
      }
    }

    /**
     * add_retry_failure: finds the first record wrapping `message`; counts
     * the attempt and either abandons the record, once the QUEUE's budget
     * is reached, or schedules it again. False when no record is found.
     */
    method AddRetryFailure(message: nat, failureReason: string, jitter: real, now: real)
      returns (found: bool)
      requires Valid()
      modifies this, retryQueue
      ensures Valid()
      ensures forall j :: 0 <= j < |retryQueue| ==> retryQueue[j] in old(retryQueue)
      ensures found == (FirstIndex(old(retryQueue), message) >= 0)
      ensures !found ==> retryQueue == old(retryQueue) && completedMessages == old(completedMessages) &&
                         stats == old(stats) && States(retryQueue) == old(States(retryQueue))
      ensures found ==>
        FailedAt(old(retryQueue), old(States(retryQueue)), old(completedMessages), old(stats),
                 FirstIndex(old(retryQueue), message), failureReason, jitter, now)
    {
      var i := Find(message);
      found := i >= 0;
      if found {
        ghost var q := retryQueue;
        FailAt(i, failureReason, jitter, now);
        assert forall x :: x in retryQueue ==> x in q by {
          DropKeepsValid(q, i);
        }
      }
    }

    /** The found branch of mark_retry_success, for the record at `i`. */
    method SucceedAt(i: int, now: real)
      requires Valid() && 0 <= i < |retryQueue|
      modifies this, retryQueue[i]
      ensures Valid()
      ensures SucceededAt(old(retryQueue), old(States(retryQueue)), old(completedMessages), old(stats), i, now)
    {
      ghost var q := retryQueue;
      ghost var before := States(retryQueue);
      var m := retryQueue[i];
      m.status := Success;
      m.lastAttemptTime := Some(now);
      StatesAt(q, i, before, AfterSuccess(before[i], now));
      Retire(i);
      stats := stats.(successfulRetries := stats.successfulRetries + 1);
    }

    /**
     * mark_retry_success: the first record wrapping `message` succeeds and
     * moves to the history. False when no record is found.
     */
    method MarkRetrySuccess(message: nat, now: real) returns (found: bool)
      requires Valid()
      modifies this, retryQueue
      ensures Valid()
      ensures forall j :: 0 <= j < |retryQueue| ==> retryQueue[j] in old(retryQueue)
      ensures found == (FirstIndex(old(retryQueue), message) >= 0)
      ensures !found ==> retryQueue == old(retryQueue) && completedMessages == old(completedMessages) &&
                         stats == old(stats) && States(retryQueue) == old(States(retryQueue))
      ensures found ==>
        SucceededAt(old(retryQueue), old(States(retryQueue)), old(completedMessages), old(stats),
                    FirstIndex(old(retryQueue), message), now)
    {
      var i := Find(message);
      found := i >= 0;
      if found {
        ghost var q := retryQueue;
        SucceedAt(i, now);
        assert forall x :: x in retryQueue ==> x in q by {
          DropKeepsValid(q, i);
        }
      }
    }

    /**
     * get_ready_messages: takes every pending, due record out of the deque,
     * marks it retrying and returns it; the ready records come back from the
     * back of the deque forwards, the others stay in their order.
     */
    method GetReadyMessages(now: real) returns (ready: seq<RetryMessage>)
      requires Valid()
      modifies this, retryQueue
      ensures Valid()
      ensures ready == ReadyFrom(old(retryQueue), old(States(retryQueue)), 0, now)
      ensures retryQueue == WaitingFrom(old(retryQueue), old(States(retryQueue)), 0, now)
      ensures States(old(retryQueue)) == AfterReady(old(States(retryQueue)), now)
      ensures forall m :: m in ready ==> m in old(retryQueue) && m.status == Retrying && m !in retryQueue
      ensures forall j :: 0 <= j < |retryQueue| ==> retryQueue[j] in old(retryQueue)
      ensures completedMessages == old(completedMessages) && stats == old(stats)
    {
      ghost var q := retryQueue;
      ghost var before := States(retryQueue);
      var temp;
      ready, temp := SplitReady(retryQueue, now);
      retryQueue := temp;
      SplitMembers(q, before, now);
    }

    /**
     * _cleanup_old_messages: drops history entries from the front while
     * they were created more than `cleanupInterval` ago; it stops at the
     * first recent one, even if older ones follow.
     */
    method CleanupOldMessages(now: real)
      requires Valid()
      modifies this
      ensures Valid()
      ensures completedMessages ==
              old(completedMessages)[OldPrefix(old(completedMessages), now - cleanupInterval)..]
      ensures retryQueue == old(retryQueue) && stats == old(stats)
    {
      var threshold := now - cleanupInterval;
      ghost var n := 0;
      while completedMessages != [] && completedMessages[0].firstAttemptTime < threshold
        invariant 0 <= n <= OldPrefix(old(completedMessages), threshold)
        invariant completedMessages == old(completedMessages)[n..]
        invariant retryQueue == old(retryQueue) && stats == old(stats)
        invariant Valid()
        decreases |completedMessages|
      {
        completedMessages := completedMessages[1..];
        n := n + 1;
      }
    }

    /**
     * force_retry_all: every pending record becomes due now; the result is
     * how many there were, which is every record in the deque.
     */
    method ForceRetryAll(now: real) returns (count: nat)
      requires Valid()
      modifies retryQueue
      ensures Valid()
      ensures count == |retryQueue|
      ensures States(retryQueue) == Forced(old(States(retryQueue)), now)
    {
      ghost var before := States(retryQueue);
      count := ForceAll(retryQueue, now);
      AllPending(before, |before|);
      forall m | m in retryQueue
        ensures m.status == Pending && m.nextRetryTime.Some?
      {
        var j :| 0 <= j < |retryQueue| && retryQueue[j] == m;
        assert m.State() == Forced(before, now)[j];
      }
    }

    /**
     * get_stats, with the history part as intended: the current size, and
     * over a non-empty history the mean attempt count, the success
     * percentage and the longest time since creation, measured at `now`.
     * The source raises instead once the history is non-empty; see
     * HistoryStatsAsWritten.
     */
    method GetStats(now: real) returns (r: QueueStats)
      modifies this
      ensures stats == HistoryStats(old(stats).(currentQueueSize := |retryQueue|),
                                    States(completedMessages), Ages(completedMessages, now))
      ensures r == stats && retryQueue == old(retryQueue) && completedMessages == old(completedMessages)
    {
      stats := stats.(currentQueueSize := |retryQueue|);
      stats := HistoryStats(stats, States(completedMessages), Ages(completedMessages, now));
      r := stats;
    }

    /**
     * clear: counts the records by status, empties the deque and returns the
     * counts. Every queued record is pending, so the only key is Pending.
     */
    method Clear() returns (clearedCounts: map<RetryStatus, nat>)
      requires Valid()
      modifies this
      ensures Valid()
      ensures clearedCounts == if old(retryQueue) == [] then map[] else map[Pending := |old(retryQueue)|]
      ensures retryQueue == [] && completedMessages == old(completedMessages)
      ensures stats == old(stats).(currentQueueSize := 0)
    {
      clearedCounts := map[];
      var i := 0;
      while i < |retryQueue|
        invariant 0 <= i <= |retryQueue|
        invariant clearedCounts == if i == 0 then map[] else map[Pending := i]
      {
        clearedCounts := Bump(clearedCounts, retryQueue[i].status);
        i := i + 1;
      }
      retryQueue := [];
      stats := stats.(currentQueueSize := 0);
    }

    /**
     * The worker's reaction to one callback verdict: mark_retry_success
     * when delivered, add_retry_failure otherwise. A lookup that misses
     * changes nothing.
     */
    method Report(message: nat, delivered: bool, jitter: real, now: real) returns (found: bool)
      requires Valid()
      modifies this, retryQueue
      ensures Valid()
      ensures forall j :: 0 <= j < |retryQueue| ==> retryQueue[j] in old(retryQueue)
      ensures found == (FirstIndex(old(retryQueue), message) >= 0)
      ensures !found ==> retryQueue == old(retryQueue) && completedMessages == old(completedMessages) &&
                         stats == old(stats)
    {
      if delivered {
        found := MarkRetrySuccess(message, now);
      } else {
        found := AddRetryFailure(message, "Callback returned False", jitter, now);
      }
    }

    /**
     * The retry loop of the worker over the records `ready`, with the
     * callback's verdict per message given as the set of messages it
     * delivers. When no queued record wraps a message of `ready`, every
     * lookup misses: nothing changes and every result is false.
     */
    method ProcessReady(ready: seq<RetryMessage>, hasCallback: bool, delivered: set<nat>,
                        jitter: real, now: real) returns (results: seq<bool>)
      requires Valid()
      modifies this, retryQueue
      ensures Valid()
      ensures forall j :: 0 <= j < |retryQueue| ==> retryQueue[j] in old(retryQueue)
      ensures (forall m, y :: m in ready && y in old(retryQueue) ==> y.message != m.message) ==>
        retryQueue == old(retryQueue) && completedMessages == old(completedMessages) &&
        stats == old(stats) && |results| == (if hasCallback then |ready| else 0) &&
        (forall r :: r in results ==> !r)
    {
      ghost var q := retryQueue;
      ghost var misses := forall m, y :: m in ready && y in q ==> y.message != m.message;
      results := [];
      var i := 0;
      while i < |ready|
        invariant 0 <= i <= |ready|
        invariant Valid()
        invariant forall j :: 0 <= j < |retryQueue| ==> retryQueue[j] in q
        invariant misses ==>
          retryQueue == q && completedMessages == old(completedMessages) && stats == old(stats) &&
          |results| == (if hasCallback then i else 0) && (forall r :: r in results ==> !r)
      {
        var m := ready[i];
        if hasCallback {
          if misses {
            assert m in ready;
            forall j | 0 <= j < |retryQueue|
              ensures retryQueue[j].message != m.message
            {
              assert retryQueue[j] in q;
            }
            MissedLookup(retryQueue, m.message);
          }
          var found := Report(m.message, m.message in delivered, jitter, now);
          results := results + [found];
        }
        i := i + 1;
      }
    }

    /**
     * One pass of the worker loop. When no message was enqueued twice,
     * every lookup made for the ready records fails: they have already left
     * the deque, so they are never marked successful or failed, never reach
     * the history, and stay in the retrying status.
     */
    method WorkerStep(now: real, hasCallback: bool, delivered: set<nat>, jitter: real)
      returns (ready: seq<RetryMessage>, results: seq<bool>)
      requires Valid()
      modifies this, retryQueue
      ensures Valid()
      ensures ready == ReadyFrom(old(retryQueue), old(States(retryQueue)), 0, now)
      ensures DistinctMessages(old(retryQueue)) ==>
        retryQueue == WaitingFrom(old(retryQueue), old(States(retryQueue)), 0, now) &&
        |results| == (if hasCallback then |ready| else 0) &&
        (forall r :: r in results ==> !r) &&
        (forall m :: m in ready ==> m.status == Retrying && m !in retryQueue) &&
        stats == old(stats) &&
        completedMessages == old(completedMessages)[OldPrefix(old(completedMessages), now - cleanupInterval)..]
    {
      ghost var q := retryQueue;
      ghost var distinct := DistinctMessages(retryQueue);
      ready := GetReadyMessages(now);
      ghost var waiting := retryQueue;
      if distinct {
        forall m | m in ready
          ensures forall y :: y in waiting ==> y.message != m.message
        {
          NoLookupHits(q, waiting, m);
        }
      }
      results := ProcessReady(ready, hasCallback, delivered, jitter, now);
      if distinct {
        forall m | m in ready
          ensures m.status == Retrying && m !in retryQueue
        {
          assert m !in waiting;
        }
      }
      CleanupOldMessages(now);
    }
  }

  /** A message no queued record wraps is not found. */
  lemma MissedLookup(q: seq<RetryMessage>, message: nat)
    requires forall j :: 0 <= j < |q| ==> q[j].message != message
    ensures FirstIndex(q, message) == -1
  {
  }

  lemma FirstIndexIs(q: seq<RetryMessage>, message: nat, i: int)
    requires -1 <= i < |q|
    requires i >= 0 ==> q[i].message == message
    requires forall j :: 0 <= j < |q| && (i < 0 || j < i) ==> q[j].message != message
    ensures i == FirstIndex(q, message)
  {
    var k := FirstIndex(q, message);
    if k >= 0 && i >= 0 {
      assert !(k < i) && !(i < k);
    }
  }

  /** The states of the records left after removing the one at `i`. */
  lemma StatesDrop(q: seq<RetryMessage>, i: int)
    requires 0 <= i < |q|
    ensures States(q[..i] + q[i + 1..]) == States(q)[..i] + States(q)[i + 1..]
  {
  }

  lemma StatesCons(m: RetryMessage, q: seq<RetryMessage>)
    ensures States([m] + q) == [m.State()] + States(q)
  {
    assert ([m] + q)[1..] == q;
  }

  /**
   * Removing the record at `i` of `q` and appending it to the bounded
   * history `h` keeps the rest of the records out of the history.
   */
  lemma ApartDrop(q: seq<RetryMessage>, h: seq<RetryMessage>, i: int)
    requires 0 <= i < |q| && Distinct(q) && Apart(q, h)
    ensures Apart(q[..i] + q[i + 1..], KeepNewest(h + [q[i]], CompletedLimit))
  {
    var r := q[..i] + q[i + 1..];
    forall j | 0 <= j < |r|
      ensures r[j] !in KeepNewest(h + [q[i]], CompletedLimit)
    {
      var k := if j < i then j else j + 1;
      assert r[j] == q[k] && k != i;
    }
  }

  /** Dropping the record at `i` from a deque of distinct records keeps it distinct. */
  lemma DropKeepsValid(q: seq<RetryMessage>, i: int)
    requires 0 <= i < |q| && Distinct(q)
    ensures Distinct(q[..i] + q[i + 1..])
    ensures forall m :: m in q[..i] + q[i + 1..] ==> m in q && m != q[i]
  {
    var r := q[..i] + q[i + 1..];
    forall a, b | 0 <= a < b < |r|
      ensures r[a] != r[b]
    {
      var a' := if a < i then a else a + 1;
      var b' := if b < i then b else b + 1;
      assert r[a] == q[a'] && r[b] == q[b'];
    }
    forall m | m in r
      ensures m in q && m != q[i]
    {
      var k :| 0 <= k < |r| && r[k] == m;
      var k' := if k < i then k else k + 1;
      assert r[k] == q[k'];
    }
  }

  /**
   * A record that has left the deque cannot be found again through its
   * message while no message is wrapped twice.
   */
  lemma NoLookupHits(q: seq<RetryMessage>, waiting: seq<RetryMessage>, m: RetryMessage)
    requires DistinctMessages(q) && m in q
    requires forall y :: y in waiting ==> y in q && y != m
    ensures forall y :: y in waiting ==> y.message != m.message
  {
    forall y | y in waiting
      ensures y.message != m.message
    {
      var a :| 0 <= a < |q| && q[a] == m;
      var b :| 0 <= b < |q| && q[b] == y;
      if a < b {
        assert q[a].message != q[b].message;
      } else {
        assert q[b].message != q[a].message;
      }
    }
  }
}
