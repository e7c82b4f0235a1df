/**
 * The timer-driven batch queue: messages collect in a pending FIFO; the
 * batch goes out as soon as it reaches the maximum size, or when the
 * timer started by the first message of a batch fires and the batch has
 * reached the minimum size. The timer is modelled by whether one is
 * armed; its firing is the separate step `TimeoutFire`.
 */
module TimerBatch {
  import opened Optional

  /** A pending message with the `batch_enqueue_time` enqueue stamps on it. */
  datatype PendingMessage = PendingMessage(text: string, batchEnqueueTime: real)

  datatype Trigger = SizeLimit | Timeout | Forced

  /** The arguments of the send callback: the batch, its size and the trigger. */
  datatype SentBatch = SentBatch(messages: seq<PendingMessage>, batchSize: nat, trigger: Trigger)

  datatype BatchStats = BatchStats(totalMessagesProcessed: nat, totalBatchesSent: nat,
                                   messagesInCurrentBatch: nat, averageBatchSize: real,
                                   networkEfficiencyPercent: real, lastBatchSentAt: Option<real>,
                                   timeoutTriggeredBatches: nat, sizeTriggeredBatches: nat)

  /**
   * _calculate_efficiency (without rounding): the average counts every
   * message ever enqueued, pending ones included. A maximum size of 0
   * makes the second division raise after the average is stored.
   */
  function CalculateEfficiency(s: BatchStats, maxBatchSize: int): (r: BatchStats)
    ensures s.totalBatchesSent > 0 ==>
      r.averageBatchSize * (s.totalBatchesSent as real) == s.totalMessagesProcessed as real
    ensures s.totalBatchesSent > 0 && maxBatchSize != 0 ==>
      r.networkEfficiencyPercent * (maxBatchSize as real) == r.averageBatchSize * 100.0
    ensures s.totalBatchesSent == 0 || maxBatchSize == 0 ==>
      r.networkEfficiencyPercent == s.networkEfficiencyPercent
    ensures r.(averageBatchSize := s.averageBatchSize,
               networkEfficiencyPercent := s.networkEfficiencyPercent) == s
  {
    if s.totalBatchesSent > 0 then
      var avg := s.totalMessagesProcessed as real / s.totalBatchesSent as real;
      var withAvg := s.(averageBatchSize := avg);
      if maxBatchSize != 0 then withAvg.(networkEfficiencyPercent := avg / maxBatchSize as real * 100.0)
      else withAvg
    else s
  }

  /** The bookkeeping of _send_batch_now before the efficiency is computed. */
  function RecordSend(s: BatchStats, trigger: Trigger, now: real): (r: BatchStats)
    ensures r.totalBatchesSent == s.totalBatchesSent + 1
    ensures r.timeoutTriggeredBatches + r.sizeTriggeredBatches ==
            s.timeoutTriggeredBatches + s.sizeTriggeredBatches + (if trigger == Forced then 0 else 1)
    ensures r.timeoutTriggeredBatches == s.timeoutTriggeredBatches + (if trigger == Timeout then 1 else 0)
    ensures r.messagesInCurrentBatch == 0 && r.lastBatchSentAt == Some(now)
    ensures r.totalMessagesProcessed == s.totalMessagesProcessed
  {
    var r := s.(totalBatchesSent := s.totalBatchesSent + 1, messagesInCurrentBatch := 0,
                lastBatchSentAt := Some(now));
    match trigger
    case Timeout => r.(timeoutTriggeredBatches := r.timeoutTriggeredBatches + 1)
    case SizeLimit => r.(sizeTriggeredBatches := r.sizeTriggeredBatches + 1)
    case Forced => r
  }

  class BatchQueue {
    const minBatchSize: int
    const maxBatchSize: int
    var pendingMessages: seq<PendingMessage>
    /** Whether a live batch timer is waiting to fire. */
    var timerArmed: bool
    var stats: BatchStats

    /**
     * A pending batch stays below the maximum size, a live timer always has
     * a batch to look at, the current-batch counter mirrors the pending
     * length, and triggered sends never outnumber sends.
     */
    ghost predicate Valid()
      reads this
    {
      (|pendingMessages| < maxBatchSize || pendingMessages == []) &&
      (timerArmed ==> pendingMessages != []) &&
      stats.messagesInCurrentBatch == |pendingMessages| &&
      stats.timeoutTriggeredBatches + stats.sizeTriggeredBatches <= stats.totalBatchesSent
    }

    constructor (minBatchSize: int, maxBatchSize: int)
      ensures Valid()
      ensures this.minBatchSize == minBatchSize && this.maxBatchSize == maxBatchSize
      ensures pendingMessages == [] && !timerArmed
      ensures stats == BatchStats(0, 0, 0, 0.0, 0.0, None, 0, 0)
    {
      this.minBatchSize := minBatchSize;
      this.maxBatchSize := maxBatchSize;
      pendingMessages := [];
      timerArmed := false;
      stats := BatchStats(0, 0, 0, 0.0, 0.0, None, 0, 0);
    }

    /**
     * _send_batch_now: nothing when no message is pending. Otherwise the whole
     * pending sequence, in arrival order, becomes the batch; pending is
     * cleared and the timer cancelled before the statistics are updated.
     * `raised` is the division by a zero maximum size inside the efficiency
     * computation, which stops the send before the callback.
     */
    method SendBatchNow(trigger: Trigger, now: real) returns (sent: Option<SentBatch>, raised: bool)
      modifies this
      ensures old(pendingMessages) == [] ==>
        sent == None && !raised && pendingMessages == [] && timerArmed == old(timerArmed) &&
        stats == old(stats)
      ensures old(pendingMessages) != [] ==>
        pendingMessages == [] && !timerArmed &&
        stats == CalculateEfficiency(RecordSend(old(stats), trigger, now), maxBatchSize) &&
        raised == (maxBatchSize == 0) &&
        sent == (if raised then None
                 else Some(SentBatch(old(pendingMessages), |old(pendingMessages)|, trigger)))
    {
      if pendingMessages == [] {
        return None, false;
      }
      var batch := pendingMessages;
      pendingMessages := [];
      timerArmed := false;
      stats := RecordSend(stats, trigger, now);
      stats := CalculateEfficiency(stats, maxBatchSize);
      if maxBatchSize == 0 {
        return None, true;
      }
      sent := Some(SentBatch(batch, |batch|, trigger));
      raised := false;
    }

    /**
     * enqueue: stamps and appends the message. Reaching the maximum size
     * sends at once; otherwise the first message of a batch arms the timer.
     * The result is False only when that send raised.
     */
    method Enqueue(text: string, now: real) returns (ok: bool, sent: Option<SentBatch>)
      requires Valid()
      modifies this
      ensures Valid()
      ensures var appended := old(pendingMessages) + [PendingMessage(text, now)];
        var counted := old(stats).(totalMessagesProcessed := old(stats).totalMessagesProcessed + 1,
                                   messagesInCurrentBatch := |appended|);
        if |appended| >= maxBatchSize then
          pendingMessages == [] && !timerArmed &&
          stats == CalculateEfficiency(RecordSend(counted, SizeLimit, now), maxBatchSize) &&
          ok == (maxBatchSize != 0) &&
          sent == (if ok then Some(SentBatch(appended, |appended|, SizeLimit)) else None)
        else
          pendingMessages == appended && stats == counted && ok && sent == None &&
          timerArmed == (old(timerArmed) || |appended| == 1)
    {
      pendingMessages := pendingMessages + [PendingMessage(text, now)];
      stats := stats.(totalMessagesProcessed := stats.totalMessagesProcessed + 1,
                      messagesInCurrentBatch := |pendingMessages|);
      if |pendingMessages| >= maxBatchSize {
        var raised;
        sent, raised := SendBatchNow(SizeLimit, now);
        ok := !raised;
        return;
      } else if |pendingMessages| == 1 {
        StartBatchTimer();
      }
      ok, sent := true, None;
    }

    /** _start_batch_timer: any live timer is cancelled and a fresh one armed. */
    method StartBatchTimer()
      modifies this
      ensures timerArmed
      ensures pendingMessages == old(pendingMessages) && stats == old(stats)
    {
      timerArmed := true;
    }

    /**
     * _timeout_batch_send, run when the armed timer fires: sends only a
     * batch of at least the minimum size. A smaller batch is left as it is
     * and no timer is re-armed, so it waits until the maximum size or a
     * forced send.
     */
    method TimeoutFire(now: real) returns (sent: Option<SentBatch>)
      requires Valid() && timerArmed
      modifies this
      ensures Valid()
      ensures !timerArmed
      ensures |old(pendingMessages)| >= minBatchSize ==>
        pendingMessages == [] &&
        stats == CalculateEfficiency(RecordSend(old(stats), Timeout, now), maxBatchSize) &&
        sent == Some(SentBatch(old(pendingMessages), |old(pendingMessages)|, Timeout))
      ensures |old(pendingMessages)| < minBatchSize ==>
        pendingMessages == old(pendingMessages) && stats == old(stats) && sent == None
    {
      timerArmed := false;
      if |pendingMessages| >= minBatchSize {
        var raised;
        sent, raised := SendBatchNow(Timeout, now);
      } else {
        sent := None;
      }
    }

    /** force_send_batch: returns the pending count and sends only when it is positive. */
    method ForceSendBatch(now: real) returns (count: nat, sent: Option<SentBatch>)
      requires Valid()
      modifies this
      ensures Valid()
      ensures count == |old(pendingMessages)|
      ensures count == 0 ==> sent == None && stats == old(stats) && timerArmed == old(timerArmed)
      ensures count > 0 ==>
        sent == Some(SentBatch(old(pendingMessages), count, Forced)) &&
        stats == CalculateEfficiency(RecordSend(old(stats), Forced, now), maxBatchSize) &&
        !timerArmed
      ensures pendingMessages == []
    {
      count := |pendingMessages|;
      sent := None;
      if count > 0 {
        var raised;
        sent, raised := SendBatchNow(Forced, now);
      }
    }

    /** clear: returns the pending count, drops the batch and cancels the timer. */
    method Clear() returns (count: nat)
      requires Valid()
      modifies this
      ensures Valid()
      ensures count == |old(pendingMessages)| && pendingMessages == [] && !timerArmed
      ensures stats == old(stats).(messagesInCurrentBatch := 0)
    {
      count := |pendingMessages|;
      pendingMessages := [];
      timerArmed := false;
      stats := stats.(messagesInCurrentBatch := 0);
    }

    function IsEmpty(): (r: bool)
      reads this
      ensures r <==> |pendingMessages| == 0
    {
      |pendingMessages| == 0
    }

    function CurrentBatchSize(): (r: nat)
      requires Valid()
      reads this
      ensures r == |pendingMessages| && r == stats.messagesInCurrentBatch
      ensures maxBatchSize >= 1 ==> r < maxBatchSize
    {
      |pendingMessages|
    }
  }
}
