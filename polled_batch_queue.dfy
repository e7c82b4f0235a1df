/**
 * The polled batch queue (ChatServer1 models): messages wait in a FIFO
 * queue, a background processor moves them into the batch being assembled,
 * and the batch is released when it is full, when it has reached the
 * minimum size and waited long enough, or when a small batch has waited
 * twice as long. One iteration of the processor is one call of `Step`.
 */
module PolledBatch {
  import opened Optional

  /** A queued message dict: its payload and its `batch_timestamp`, if it has one. */
  datatype BatchMessage = BatchMessage(text: string, batchTimestamp: Option<real>)

  datatype SendReason = MaxSizeReached | MaxWaitTimeReached | ExtendedWaitTimeout | Forced

  /** The batch_data dict handed to the callback. */
  datatype BatchEnvelope = BatchEnvelope(messages: seq<BatchMessage>, batchSize: nat,
                                         sendReason: SendReason, timestamp: real, waitTime: real)

  datatype BatchStats = BatchStats(totalMessagesProcessed: nat, totalBatchesSent: nat,
                                   averageBatchSize: real, totalWaitTime: real,
                                   averageWaitTime: real, efficiencyScore: real)

  datatype ForceOutcome =
    | NothingToSend
    | Sent(envelope: BatchEnvelope)
      /** the callback raised: the exception reaches the caller and the batch stays */
    | CallbackRaised(envelope: BatchEnvelope)

  function Min(a: real, b: real): real { if a <= b then a else b }

  /**
   * The release rule of the processor, for a batch of `size` messages
   * started at `start`. Python's truthiness is kept: a start time of
   * 0.0 counts as unset in the third branch.
   */
  function ReleaseReason(size: int, minSize: int, maxSize: int, maxWait: real,
                         start: real, now: real): Option<SendReason>
  {
    if size >= maxSize then Some(MaxSizeReached)
    else if size >= minSize then
      (if now - start >= maxWait then Some(MaxWaitTimeReached) else None)
    else if size > 0 && start != 0.0 then
      (if now - start >= maxWait * 2.0 then Some(ExtendedWaitTimeout) else None)
    else None
  }

  /**
   * The three release conditions, each independent of the order of the
   * branches: full; else at least the minimum and waited `maxWait`; else
   * non-empty and waited twice `maxWait`.
   */
  lemma ReleaseReasonCases(size: int, minSize: int, maxSize: int, maxWait: real,
                           start: real, now: real)
    ensures var r := ReleaseReason(size, minSize, maxSize, maxWait, start, now);
      (r == Some(MaxSizeReached) <==> size >= maxSize) &&
      (r == Some(MaxWaitTimeReached) <==>
         size < maxSize && size >= minSize && now - start >= maxWait) &&
      (r == Some(ExtendedWaitTimeout) <==>
         size < maxSize && size < minSize && size > 0 && start != 0.0 && now - start >= 2.0 * maxWait) &&
      r != Some(Forced)
  {
  }

  /**
   * With a non-negative wait, a non-empty batch that has waited twice the
   * maximum wait is always released, whatever its size; and a batch below
   * the minimum is never released before that.
   */
  lemma ReleaseBound(size: int, minSize: int, maxSize: int, maxWait: real,
                     start: real, now: real)
    requires maxWait >= 0.0 && start != 0.0
    ensures size > 0 && now - start >= 2.0 * maxWait ==>
              ReleaseReason(size, minSize, maxSize, maxWait, start, now).Some?
    ensures size < minSize && size < maxSize &&
            ReleaseReason(size, minSize, maxSize, maxWait, start, now).Some? ==>
              now - start >= 2.0 * maxWait
  {
  }

  /**
   * The statistics update of _send_batch for a batch of `size` messages
   * that waited `wait`. The efficiency score is computed last; when the
   * maximum size is 0 that division raises, so the score keeps its old
   * value while the other counters have already moved.
   */
  function RecordSend(s: BatchStats, size: nat, wait: real, maxSize: int): (r: BatchStats)
    ensures r.totalBatchesSent == s.totalBatchesSent + 1
    ensures r.totalMessagesProcessed == s.totalMessagesProcessed
    ensures r.totalWaitTime == s.totalWaitTime + wait
    ensures r.averageWaitTime * (r.totalBatchesSent as real) == r.totalWaitTime
    ensures r.averageBatchSize == size as real
    ensures maxSize > 0 ==> 0.0 <= r.efficiencyScore <= 100.0 &&
                            (r.efficiencyScore == 100.0 <==> size >= maxSize)
    ensures maxSize == 0 ==> r.efficiencyScore == s.efficiencyScore
  {
    var batches := s.totalBatchesSent + 1;
    var totalWait := s.totalWaitTime + wait;
    var totalInBatches := batches * size;
    s.(totalBatchesSent := batches,
       totalWaitTime := totalWait,
       averageWaitTime := totalWait / batches as real,
       averageBatchSize := totalInBatches as real / batches as real,
       efficiencyScore := if maxSize != 0 then Min(100.0, (size as real / maxSize as real) * 100.0)
                          else s.efficiencyScore)
  }

  /** How many messages the move loop takes from a queue of `queued` into a batch of `batched`. */
  function MoveCount(batched: nat, queued: nat, maxSize: int): (k: nat)
    ensures k <= queued
    ensures batched >= maxSize ==> k == 0
    ensures batched < maxSize ==> batched + k <= maxSize && (k == queued || batched + k == maxSize)
  {
    if batched >= maxSize then 0
    else if queued <= maxSize - batched then queued
    else maxSize - batched
  }

  class BatchQueue {
    var minBatchSize: int
    var maxBatchSize: int
    var maxWaitTime: real
    var messageQueue: seq<BatchMessage>
    var currentBatch: seq<BatchMessage>
    var batchStartTime: Option<real>
    var stats: BatchStats

    /** A batch being assembled always has a start time. */
    ghost predicate Valid()
      reads this
    {
      currentBatch != [] ==> batchStartTime.Some?
    }

    constructor (minBatchSize: int, maxBatchSize: int, maxWaitTime: real)
      ensures Valid()
      ensures this.minBatchSize == minBatchSize && this.maxBatchSize == maxBatchSize
      ensures this.maxWaitTime == maxWaitTime
      ensures messageQueue == [] && currentBatch == [] && batchStartTime == None
      ensures stats == BatchStats(0, 0, 0.0, 0.0, 0.0, 0.0)
    {
      this.minBatchSize := minBatchSize;
      this.maxBatchSize := maxBatchSize;
      this.maxWaitTime := maxWaitTime;
      messageQueue := [];
      currentBatch := [];
      batchStartTime := None;
      stats := BatchStats(0, 0, 0.0, 0.0, 0.0, 0.0);
    }

    /** add_message: stamps the message only when it has no stamp, then appends it. */
    method AddMessage(message: BatchMessage, now: real) returns (added: bool)
      requires Valid()
      modifies this
      ensures Valid() && added
      ensures var stamped := if message.batchTimestamp.None? then message.(batchTimestamp := Some(now))
                             else message;
              messageQueue == old(messageQueue) + [stamped]
      ensures stats == old(stats).(totalMessagesProcessed := old(stats.totalMessagesProcessed) + 1)
      ensures currentBatch == old(currentBatch) && batchStartTime == old(batchStartTime)
      ensures minBatchSize == old(minBatchSize) && maxBatchSize == old(maxBatchSize)
      ensures maxWaitTime == old(maxWaitTime)
    {
      var stamped := message;
      if message.batchTimestamp.None? {
        stamped := message.(batchTimestamp := Some(now));
      }
      messageQueue := messageQueue + [stamped];
      stats := stats.(totalMessagesProcessed := stats.totalMessagesProcessed + 1);
      added := true;
    }

    /**
     * _send_batch: nothing on an empty batch; otherwise records the send and
     * hands the envelope to the callback (whose exceptions are swallowed)
     * and resets the batch. When the efficiency division raises, the
     * exception leaves the batch in place and the callback is not reached.
     */
    method SendBatch(reason: SendReason, now: real) returns (delivered: Option<BatchEnvelope>)
      requires Valid()
      modifies this
      ensures Valid()
      ensures old(currentBatch) == [] ==> delivered == None && stats == old(stats) &&
                                          currentBatch == [] && batchStartTime == old(batchStartTime)
      ensures old(currentBatch) != [] ==>
        var wait := if old(batchStartTime).Some? && old(batchStartTime).value != 0.0
                    then now - old(batchStartTime).value else 0.0;
        stats == RecordSend(old(stats), |old(currentBatch)|, wait, maxBatchSize) &&
        (if maxBatchSize != 0 then
           delivered == Some(BatchEnvelope(old(currentBatch), |old(currentBatch)|, reason, now, wait)) &&
           currentBatch == [] && batchStartTime == None
         else
           delivered == None && currentBatch == old(currentBatch) &&
           batchStartTime == old(batchStartTime))
      ensures messageQueue == old(messageQueue)
      ensures minBatchSize == old(minBatchSize) && maxBatchSize == old(maxBatchSize)
      ensures maxWaitTime == old(maxWaitTime)
    {
      if currentBatch == [] {
        return None;
      }
      var wait := if batchStartTime.Some? && batchStartTime.value != 0.0
                  then now - batchStartTime.value else 0.0;
      var envelope := BatchEnvelope(currentBatch, |currentBatch|, reason, now, wait);
      stats := RecordSend(stats, |currentBatch|, wait, maxBatchSize);
      if maxBatchSize == 0 {
        return None;
      }
      delivered := Some(envelope);
      currentBatch := [];
      batchStartTime := None;
    }

    /**
     * One iteration of the batch processor. With an empty queue it does
     * nothing at all, not even the timeout checks. Otherwise an empty batch
     * is (re)started at `now`, messages move head-first from the queue until
     * the batch is full, and the release rule decides whether to send.
     * The result is the envelope handed to the callback, if any.
     */
    method Step(now: real) returns (delivered: Option<BatchEnvelope>)
      requires Valid()
      modifies this
      ensures Valid()
      ensures old(messageQueue) == [] ==>
        delivered == None && messageQueue == [] && currentBatch == old(currentBatch) &&
        batchStartTime == old(batchStartTime) && stats == old(stats)
      ensures old(messageQueue) != [] ==>
        var k := MoveCount(|old(currentBatch)|, |old(messageQueue)|, maxBatchSize);
        var batch := old(currentBatch) + old(messageQueue)[..k];
        var start := if old(currentBatch) == [] then now else old(batchStartTime).value;
        var reason := ReleaseReason(|batch|, minBatchSize, maxBatchSize, maxWaitTime, start, now);
        messageQueue == old(messageQueue)[k..] &&
        (if reason.Some? && batch != [] then
           var wait := if start != 0.0 then now - start else 0.0;
           stats == RecordSend(old(stats), |batch|, wait, maxBatchSize) &&
           (if maxBatchSize != 0 then
              delivered == Some(BatchEnvelope(batch, |batch|, reason.value, now, wait)) &&
              currentBatch == [] && batchStartTime == None
            else
              delivered == None && currentBatch == batch && batchStartTime == Some(start))
         else
           delivered == None && currentBatch == batch && batchStartTime == Some(start) &&
           stats == old(stats))
      ensures minBatchSize == old(minBatchSize) && maxBatchSize == old(maxBatchSize)
      ensures maxWaitTime == old(maxWaitTime)
    {
      if messageQueue == [] {
        return None;
      }
      if currentBatch == [] {
        batchStartTime := Some(now);
      }
      ghost var k := 0;
      while messageQueue != [] && |currentBatch| < maxBatchSize
        invariant 0 <= k <= |old(messageQueue)|
        invariant currentBatch == old(currentBatch) + old(messageQueue)[..k]
        invariant messageQueue == old(messageQueue)[k..]
        invariant |old(currentBatch)| >= maxBatchSize ==> k == 0
        invariant |old(currentBatch)| < maxBatchSize ==> |currentBatch| <= maxBatchSize
        invariant batchStartTime == (if old(currentBatch) == [] then Some(now) else old(batchStartTime))
        invariant stats == old(stats)
        invariant minBatchSize == old(minBatchSize) && maxBatchSize == old(maxBatchSize)
        invariant maxWaitTime == old(maxWaitTime)
        decreases |messageQueue|
      {
        assert old(messageQueue)[..k + 1] == old(messageQueue)[..k] + [messageQueue[0]];
        currentBatch := currentBatch + [messageQueue[0]];
        messageQueue := messageQueue[1..];
        k := k + 1;
      }
      assert k == MoveCount(|old(currentBatch)|, |old(messageQueue)|, maxBatchSize);
      var reason := ReleaseReason(|currentBatch|, minBatchSize, maxBatchSize, maxWaitTime,
                                  batchStartTime.value, now);
      delivered := None;
      if reason.Some? && currentBatch != [] {
        delivered := SendBatch(reason.value, now);
      }
    }

    /**
     * force_send_batch: None on an empty batch; otherwise an envelope with
     * reason `Forced`, with the statistics untouched. The callback is not
     * guarded here, so when it raises the batch is not reset.
     */
    method ForceSendBatch(now: real, callbackRaises: bool) returns (outcome: ForceOutcome)
      requires Valid()
      modifies this
      ensures Valid()
      ensures old(currentBatch) == [] <==> outcome == NothingToSend
      ensures old(currentBatch) != [] ==>
        var wait := if old(batchStartTime).value != 0.0 then now - old(batchStartTime).value else 0.0;
        var envelope := BatchEnvelope(old(currentBatch), |old(currentBatch)|, Forced, now, wait);
        if callbackRaises then outcome == CallbackRaised(envelope) else outcome == Sent(envelope)
      ensures outcome.Sent? ==> currentBatch == [] && batchStartTime == None
      ensures !outcome.Sent? ==> currentBatch == old(currentBatch) && batchStartTime == old(batchStartTime)
      ensures stats == old(stats) && messageQueue == old(messageQueue)
      ensures minBatchSize == old(minBatchSize) && maxBatchSize == old(maxBatchSize)
      ensures maxWaitTime == old(maxWaitTime)
    {
      if currentBatch == [] {
        return NothingToSend;
      }
      var wait := if batchStartTime.value != 0.0 then now - batchStartTime.value else 0.0;
      var envelope := BatchEnvelope(currentBatch, |currentBatch|, Forced, now, wait);
      if callbackRaises {
        return CallbackRaised(envelope);
      }
      currentBatch := [];
      batchStartTime := None;
      outcome := Sent(envelope);
    }

    /**
     * update_config: the minimum is at least 1, the maximum at least the
     * (possibly just updated) minimum, the wait at least 0.1 seconds.
     */
    method UpdateConfig(newMin: Option<int>, newMax: Option<int>, newWait: Option<real>)
      requires Valid()
      modifies this
      ensures Valid()
      ensures minBatchSize == (if newMin.Some? then (if newMin.value > 1 then newMin.value else 1)
                               else old(minBatchSize))
      ensures newMax.Some? ==> maxBatchSize >= minBatchSize &&
                               (maxBatchSize == newMax.value || maxBatchSize == minBatchSize) &&
                               maxBatchSize >= newMax.value
      ensures newMax.None? ==> maxBatchSize == old(maxBatchSize)
      ensures newWait.Some? ==> maxWaitTime >= 0.1 && maxWaitTime >= newWait.value &&
                                (maxWaitTime == newWait.value || maxWaitTime == 0.1)
      ensures newWait.None? ==> maxWaitTime == old(maxWaitTime)
      ensures messageQueue == old(messageQueue) && currentBatch == old(currentBatch)
      ensures batchStartTime == old(batchStartTime) && stats == old(stats)
    {
      if newMin.Some? {
        minBatchSize := if newMin.value > 1 then newMin.value else 1;
      }
      if newMax.Some? {
        maxBatchSize := if minBatchSize > newMax.value then minBatchSize else newMax.value;
      }
      if newWait.Some? {
        maxWaitTime := if 0.1 > newWait.value then 0.1 else newWait.value;
      }
    }

    /** clear_queue: drops both the queue and the batch and reports how many messages went. */
    method ClearQueue() returns (cleared: nat)
      requires Valid()
      modifies this
      ensures Valid()
      ensures cleared == |old(messageQueue)| + |old(currentBatch)|
      ensures messageQueue == [] && currentBatch == [] && batchStartTime == None
      ensures stats == old(stats)
      ensures minBatchSize == old(minBatchSize) && maxBatchSize == old(maxBatchSize)
      ensures maxWaitTime == old(maxWaitTime)
    {
      cleared := |messageQueue| + |currentBatch|;
      messageQueue := [];
      currentBatch := [];
      batchStartTime := None;
    }

    /**
     * get_pending_messages: every message not yet sent, the queue first and
     * the batch after it, so the batch's older messages come last.
     */
    function GetPendingMessages(): (r: seq<BatchMessage>)
      reads this
      ensures |r| == |messageQueue| + |currentBatch|
      ensures multiset(r) == multiset(currentBatch + messageQueue)
      ensures forall i :: 0 <= i < |messageQueue| ==> r[i] == messageQueue[i]
      ensures forall i :: 0 <= i < |currentBatch| ==> r[|messageQueue| + i] == currentBatch[i]
    {
      messageQueue + currentBatch
    }
  }
}
