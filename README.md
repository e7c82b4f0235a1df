# Verified model of the chat server's message queues

This project models the in-memory core of a Python chat server in Dafny and proves properties of
that model. The core covers:

- a priority heap of chat messages with a keyword classifier;
- two batch queues: one polled by a background processor, one driven by a timer;
- two retry queues: a waiting/ready pair of deques with capped exponential backoff, and a single
  deque of `RetryMessage` records with a status machine and jittered backoff;
- the offline mailbox, which holds per-user bounded deques with a time to live;
- the server's classification rules: two spam detectors, the content heuristic that picks a
  priority tier, the tier `handle_message` finally gives a message, and the per-tier display
  buffers;
- two user registries. Each tracks users, sessions, socket ownership, who is online and the
  failed-login counters.

Objects whose fields the Python code updates in place are Dafny classes with `modifies` frames:

- every queue and manager;
- `RetryMessage`;
- `User`.

Python dicts that live in one container at a time are datatypes:

- retry entries;
- offline entries;
- batch messages;
- display messages.

Each background iteration (a batch-processor pass, a retry-processor pass, a worker pass, a
mailbox sweep) is one atomic method. Inputs replace the things these methods would otherwise read
from outside:

- `now` replaces the wall clock;
- a delivery outcome, a jitter factor and "the callback raises" are passed in;
- the password hash is a function fixed when the registry is built;
- each fresh session id is an argument;
- "the user is online" is a boolean in the mailbox.

Text is ASCII. `str.lower()`, `str.strip()`, `str.isupper()`, `\s`, `\w` and `in` are modelled on
`seq<char>`. Each regular expression is modelled by the strings in which it finds a match.

Modules, one per source file, plus shared pieces:

| module | file | models |
|---|---|---|
| `PriorityQueue` | priority_queue.dfy | priority_queue.py |
| `PolledBatch` | polled_batch_queue.dfy | ChatServer1/models/batch_queue.py |
| `TimerBatch` | timer_batch_queue.dfy | batch_queue.py |
| `BackoffRetry` | backoff_retry_queue.dfy | ChatServer1/models/retry_queue.py |
| `StatusRetry` | status_retry_queue.dfy | retry_queue.py |
| `OfflineMailbox` | offline_queue.dfy | ChatServer1/models/offline_queue.py |
| `ChatApp` | chat_app.dfy | ChatServer1/app.py (spam detector, tiers, display buffers) |
| `SpamUtils` | spam_utils.dfy | utils/spam_utils.py |
| `UserRegistry` | user_registry.dfy | ChatServer1/models/user_manager.py |
| `BasicUserRegistry` | basic_user_registry.dfy | models/user_manager.py |
| `Accounts` | accounts.dfy | registration rules and failed-login counters the two registries share |
| `Text`, `Deques`, `Ratios`, `Optional` | text.dfy, deques.dfy, ratios.dfy, option.dfy | ASCII string functions, bounded deques and `xs[:n]`, percentages, `None`-or-value |

Where the code differs from its own comments or from the intended design, the model follows the
code, with the exceptions listed after this list:

- Retry delays. With initial delay 1 s and multiplier 2, "exponential backoff" suggests doubling
  from the initial delay (ChatServer1/models/retry_queue.py:3, :17, :215 and :235). In fact the
  first reschedule after a failed attempt uses `backoff(1)` = the initial delay, so the delays are 1 s, 1 s, 2 s, 4 s, … (`BackoffRetry.DeployedSchedule`).
- Name length. The registration refusal says "less than 20 characters", but the test is
  `> 20`, so a 20-character name is accepted.
- `is_username_available` does not strip the name, while `register_user` does.
- "Ten capitals" in `detect_message_priority`. Shouting is a ratio test, `10·upper > 7·len`. It
  uses Python's `isupper()`, so it counts capitals anywhere in the text, not only in a run.
- In `handle_message`, a message containing "urgent" always ends at tier 4, because "urgent" is
  also a spam phrase.
- In the single-deque retry queue, the worker's success or failure report never finds the record
  it reports on, because `get_ready_messages` has already taken that record out of the deque.

In three places the code as written cannot do its work, and the model follows the intended
behaviour instead:

- The mailbox lock. `store_message_for_user`, `deliver_offline_messages`, `clear_user_messages` and
  the cleanup sweep hold a non-reentrant lock while they call `_update_user_stats`, which takes
  the same lock again, so each would block forever. `OfflineQueue.Store`, `Deliver`, `ClearUser`
  and `CleanupExpired` complete, as if the lock were reentrant.
- The online check of `deliver_offline_messages`. With the ChatServer1 registry it raises and
  nothing is delivered (see "Findings"). `OfflineQueue.Deliver` takes the user's `is_online` flag
  as the input `isOnline`; `OfflineQueue.DeliverAsWritten` models that lookup as written.
- `get_stats` of the single-deque retry queue raises on a non-empty history (see "Findings").
  `StatusRetry.RetryQueue.GetStats` returns the intended statistics; `StatusRetry.HistoryStatsAsWritten`
  models the code as written.

## Model

| member | source | states |
|---|---|---|
| PriorityQueue.AutoDetectPriority | priority_queue.py:192-207 | the heuristic tier is always 1..3 |
| PriorityQueue.AutoDetectPriorityRules | priority_queue.py:192-207 | tier 1 iff an urgent keyword occurs in the lower-cased text (it wins over every other rule); tier 2 iff no urgent keyword but a high keyword, or '@' with length > 1, or all capitals with length > 5, or three or more '!'; never 4 |
| PriorityQueue.AnyKeywordStrip | priority_queue.py:194 | stripping the text before the keyword search changes no keyword match, since no keyword has whitespace at its ends |
| PriorityQueue.ShortMessageIsNormal | priority_queue.py:192-207 | every message of at most one character, a lone "@" included, is tier 3: the mention rule also needs length > 1 and no keyword fits |
| PriorityQueue.PriorityName | priority_queue.py:38-43 | 1..4 map to URGENT/HIGH/NORMAL/LOW; every other number maps to NORMAL (both directions) (also priority_queue.py:209-211) |
| PriorityQueue.BreakdownSumsToTotal | priority_queue.py:125-137 | the breakdown names only the four tiers, and its counts add up to the number of queued messages |
| PriorityQueue.InsertKeepsOrder | priority_queue.py:96 | inserting an entry with a fresh, larger counter keeps (priority, counter) order and distinct counters, and adds exactly that entry |
| PriorityQueue.PriorityMessageQueue.constructor | priority_queue.py:26-35 | empty heap, counter 0 |
| PriorityQueue.PriorityMessageQueue.AddMessage | priority_queue.py:60-104 | counter + 1; the manual priority is used verbatim when given, else the heuristic; the heap gains exactly the new entry and stays ordered with distinct counters |
| PriorityQueue.PriorityMessageQueue.PeekNextMessage | priority_queue.py:115-119 | None iff the heap is empty; otherwise the least entry by (priority, counter) |
| PriorityQueue.PriorityMessageQueue.GetNextMessage | priority_queue.py:106-113 | returns what a peek just before shows; None iff the heap was empty; otherwise removes exactly that least entry; the counter is unchanged |
| PriorityQueue.PriorityMessageQueue.GetQueueStats | priority_queue.py:125-137 | total is the heap size; the breakdown counts the entries per tier name |
| PriorityQueue.PriorityMessageQueue.ClearQueue | priority_queue.py:139-144 | returns the former size, empties the heap, keeps the counter |
| PriorityQueue.PriorityMessageQueue.ClearAll | priority_queue.py:146-156 | returns the former size, empties the heap, resets the counter to 0 |
| PriorityQueue.PriorityMessageQueue.CreateOfflineMessage | priority_queue.py:158-186 | counter + 1, same priority choice as add_message, the heap untouched |
| PolledBatch.ReleaseReasonCases | ChatServer1/models/batch_queue.py:120-135 | max_size_reached iff full; max_wait_time_reached iff not full, at least the minimum and waited max_wait; extended_wait_timeout iff below the minimum, non-empty, start time set and waited twice max_wait |
| PolledBatch.ReleaseBound | ChatServer1/models/batch_queue.py:120-135 | a non-empty batch that waited twice max_wait is always released; a batch below the minimum is released only by the extended timeout |
| PolledBatch.RecordSend | ChatServer1/models/batch_queue.py:165-175 | one more batch; the wait is added to the total and the average wait is total / batches; average_batch_size is the size of the batch just sent; efficiency is in 0..100 and is 100 iff the batch is full; with max size 0 the division raises and the score keeps its old value |
| PolledBatch.MoveCount | ChatServer1/models/batch_queue.py:115-117 | the move loop takes messages until the batch is full or the queue is empty, never beyond the maximum |
| PolledBatch.BatchQueue.constructor | ChatServer1/models/batch_queue.py:19-53 | empty queue and batch, no start time, zero statistics |
| PolledBatch.BatchQueue.AddMessage | ChatServer1/models/batch_queue.py:65-94 | stamps batch_timestamp only when absent, appends at the tail, total_messages_processed + 1 |
| PolledBatch.BatchQueue.SendBatch | ChatServer1/models/batch_queue.py:146-188 | no-op on an empty batch; otherwise hands out the whole batch with its size and reason, records the send and resets batch and start time even when the callback raises |
| PolledBatch.BatchQueue.Step | ChatServer1/models/batch_queue.py:102-140 | with an empty queue nothing changes (no timeout check); otherwise the batch is (re)started, `batch ++ queue` is preserved by the move, the batch is at most the maximum, and the release rule decides the send |
| PolledBatch.BatchQueue.ForceSendBatch | ChatServer1/models/batch_queue.py:190-218 | None iff the batch is empty; otherwise the envelope with reason forced, the batch cleared unless the callback raised, statistics and queue untouched |
| PolledBatch.BatchQueue.UpdateConfig | ChatServer1/models/batch_queue.py:241-261 | min := max(1, new), max := max(current min, new), wait := max(0.1, new); the rest unchanged |
| PolledBatch.BatchQueue.ClearQueue | ChatServer1/models/batch_queue.py:263-273 | returns queue + batch length and empties both |
| PolledBatch.BatchQueue.GetPendingMessages | ChatServer1/models/batch_queue.py:288-296 | the queue followed by the batch, every pending message exactly once |
| TimerBatch.CalculateEfficiency | batch_queue.py:189-198 | average = everything enqueued (including pending) / batches sent; efficiency = average / max · 100; nothing changes before the first batch; a zero maximum raises after the average is stored |
| TimerBatch.RecordSend | batch_queue.py:142-149 | one more batch; the timeout or size counter goes up by the trigger, forced sends neither, so the two counters never exceed the batch count |
| TimerBatch.BatchQueue.constructor | batch_queue.py:24-60 | nothing pending, no timer, zero statistics |
| TimerBatch.BatchQueue.SendBatchNow | batch_queue.py:119-161 | no-op when nothing is pending; otherwise the whole pending sequence in FIFO order is the batch, pending cleared, timer disarmed, statistics recorded |
| TimerBatch.BatchQueue.Enqueue | batch_queue.py:64-98 | appends the stamped message; reaching the maximum sends at once with trigger size_limit; otherwise a pending length of exactly 1 arms the timer; false only when the send raised |
| TimerBatch.BatchQueue.StartBatchTimer | batch_queue.py:100-109 | the timer is armed; nothing else changes |
| TimerBatch.BatchQueue.TimeoutFire | batch_queue.py:111-117 | sends when at least the minimum is pending; below it the pending messages stay and no timer is re-armed |
| TimerBatch.BatchQueue.ForceSendBatch | batch_queue.py:163-175 | returns the pending count; sends (trigger forced) only when it is positive |
| TimerBatch.BatchQueue.Clear | batch_queue.py:200-217 | returns the pending count, empties pending, disarms the timer |
| TimerBatch.BatchQueue.IsEmpty | batch_queue.py:219-227 | true iff nothing is pending |
| TimerBatch.BatchQueue.CurrentBatchSize | batch_queue.py:229-237 | the pending count, equal to messages_in_current_batch and below the maximum when the maximum is at least 1 |
| BackoffRetry.Backoff | ChatServer1/models/retry_queue.py:233-244 | the delay never exceeds max_delay |
| BackoffRetry.BackoffMonotone | ChatServer1/models/retry_queue.py:243-244 | with multiplier ≥ 1 and initial ≥ 0, later retries never wait less |
| BackoffRetry.DeployedSchedule | ChatServer1/models/retry_queue.py:216 | with 1 s, ×2, cap 30 s: the reschedules after attempts 1 and 2 wait 1 s and 2 s; attempt 6 hits the cap (also ChatServer1/models/retry_queue.py:243-244) |
| BackoffRetry.Ready | ChatServer1/models/retry_queue.py:131-136 | the promoted entries are waiting entries that are due |
| BackoffRetry.NotReady | ChatServer1/models/retry_queue.py:131-136 | the entries left waiting are waiting entries not yet due |
| BackoffRetry.PartitionConserves | ChatServer1/models/retry_queue.py:128-142 | promotion loses and duplicates no entry |
| BackoffRetry.ReadyAppend | ChatServer1/models/retry_queue.py:131-136 | the partition is computed entry by entry in order (stable) |
| BackoffRetry.DueNow | ChatServer1/models/retry_queue.py:390-394 | every entry of force_retry_all is due now, order kept |
| BackoffRetry.Attempted | ChatServer1/models/retry_queue.py:169-180 | retry_count + 1, one history record with the delay since the last attempt, last_attempt := now, nothing else |
| BackoffRetry.AverageRetryCount | ChatServer1/models/retry_queue.py:225-228 | attempts per finished message once any has finished; nothing else changes |
| BackoffRetry.RetryQueue.constructor | ChatServer1/models/retry_queue.py:20-62 | both deques empty, zero statistics |
| BackoffRetry.RetryQueue.AddFailedMessage | ChatServer1/models/retry_queue.py:74-114 | appends to the waiting deque an entry with retry_count 0, the current budget, due at now + initial_delay; a missing or zero timestamp becomes now; messages added + 1 |
| BackoffRetry.RetryQueue.Promote | ChatServer1/models/retry_queue.py:126-145 | due entries go in order to the tail of the ready deque; the rest stay waiting in order |
| BackoffRetry.SplitDue | ChatServer1/models/retry_queue.py:131-136 | the popleft loop splits the waiting entries into the due ones and the others, each in their original order |
| BackoffRetry.RetryQueue.AttemptRetry | ChatServer1/models/retry_queue.py:161-231 | retry_count and retries attempted + 1; success counted and terminal; failure terminal once the budget is reached, else re-queued at now + backoff(count); every queued entry stays below its budget |
| BackoffRetry.RetryQueue.ProcessorStep | ChatServer1/models/retry_queue.py:122-155 | promotion, then at most one attempt on the head of the ready deque; attempts and finished counts move accordingly |
| BackoffRetry.RetryQueue.ForceRetryAll | ChatServer1/models/retry_queue.py:380-400 | every waiting entry, due now, moves in order to the ready deque; returns how many; waiting is empty |
| BackoffRetry.RetryQueue.ClearQueue | ChatServer1/models/retry_queue.py:355-378 | returns the ready length plus the waiting length when asked, and empties those deques |
| BackoffRetry.RetryQueue.UpdateConfig | ChatServer1/models/retry_queue.py:402-426 | budget ≥ 1, initial ≥ 0.1, cap ≥ initial, multiplier ≥ 1; queued entries keep their own budget |
| StatusRetry.RetryDelay | retry_queue.py:41-42 | the capped delay is at most max_delay and non-negative for non-negative inputs |
| StatusRetry.RetryDelayMonotone | retry_queue.py:41-42 | more attempts never shorten the delay |
| StatusRetry.NextRetryWindow | retry_queue.py:41-46 | with a 10–50% jitter, the next retry lies between now + 1.1·d and now + 1.5·d |
| StatusRetry.RetryMessage.constructor | retry_queue.py:27-35 | attempt_count 0, status PENDING, created at now, no attempt or retry time, no reasons |
| StatusRetry.RetryMessage.CalculateNextRetry | retry_queue.py:37-46 | sets and returns now + d + jitter·d; nothing else changes |
| StatusRetry.RetryMessage.RecordFailure | retry_queue.py:175-187 | the found record's attempt is recorded; it is ABANDONED once the queue's budget is reached, else PENDING with a new retry time |
| StatusRetry.RetryMessage.TakeIfReady | retry_queue.py:245-250 | a pending record whose truthy retry time has passed is ready and becomes RETRYING |
| StatusRetry.AfterFailure | retry_queue.py:175-187 | attempt + 1 stamped and explained; ABANDONED iff attempts ≥ the queue's max_retries, else the next retry time is recomputed |
| StatusRetry.AfterSuccess | retry_queue.py:214-215 | SUCCESS stamped at now; attempts, retry time and reasons unchanged |
| StatusRetry.ReadySplitLength | retry_queue.py:243-252 | every record goes to exactly one side of the split |
| StatusRetry.ReadySplitConserves | retry_queue.py:243-255 | as a multiset, the ready records and the records put back are exactly the deque |
| StatusRetry.SplitSides | retry_queue.py:243-252 | the ready side holds exactly ready records and the other side exactly non-ready ones; distinct records stay distinct |
| StatusRetry.SplitMembers | retry_queue.py:243-255 | after the split the ready records are RETRYING and the others still pending, scheduled and distinct |
| StatusRetry.FirstIndex | retry_queue.py:173-174 | the first record wrapping the message, or -1 when none does (also retry_queue.py:212-213) |
| StatusRetry.RemoveFirstAt | retry_queue.py:262-265 | deque.remove on a record of a distinct deque removes exactly that position |
| StatusRetry.OldPrefix | retry_queue.py:325-327 | the front run of entries created before the threshold; it stops at the first recent one |
| StatusRetry.MaxOf | retry_queue.py:351 | the maximum bounds every element and is one of them |
| StatusRetry.HistoryStats | retry_queue.py:336-354 | get_stats as intended: unchanged on an empty history; otherwise the mean attempts, the success percentage in 0..100 and the longest age over the history |
| StatusRetry.HistoryStatsAsWritten | retry_queue.py:336-354 | get_stats as written: raises on a non-empty history after storing the mean and the rate |
| StatusRetry.GetStatsRaisesOnHistory | retry_queue.py:351 | one successful five-second-old record: the written code raises, the intended statistics give 100%, 1 attempt, 5 s (also retry_queue.py:48-60) |
| StatusRetry.Forced | retry_queue.py:377-380 | pending records become due now; the others are unchanged |
| StatusRetry.CountPending | retry_queue.py:374-380 | the number of pending records counted, at most the number scanned |
| StatusRetry.AllPending | retry_queue.py:374-380 | the count equals the length iff every record is pending |
| StatusRetry.ForceAll | retry_queue.py:373-383 | the loop sets the pending records due now and returns their number |
| StatusRetry.SplitReady | retry_queue.py:241-255 | pops from the back: ready records in back-to-front order, the others in their order, ready ones marked RETRYING |
| StatusRetry.NoLookupHits | retry_queue.py:243-255 | when no message is wrapped twice, a record taken out of the deque cannot be found again through its message (also retry_queue.py:289-303) |
| StatusRetry.RetryQueue.constructor | retry_queue.py:76-119 | empty deque and history, zero statistics |
| StatusRetry.RetryQueue.Enqueue | retry_queue.py:126-157 | a new pending record with the initial reason and first retry time goes to the FRONT; messages added and PENDING count + 1 |
| StatusRetry.RetryQueue.MoveToCompleted | retry_queue.py:259-272 | removes the record if present, appends it to the 1000-bounded history (oldest dropped) and counts its status |
| StatusRetry.RetryQueue.AddRetryFailure | retry_queue.py:159-198 | false and nothing changed when no record wraps the message; otherwise the first such record fails as in AfterFailure, an abandoned one moves to the history, attempts + 1 |
| StatusRetry.RetryQueue.MarkRetrySuccess | retry_queue.py:200-227 | false and nothing changed when not found; otherwise the record succeeds, moves to the history and successful_retries + 1 |
| StatusRetry.RetryQueue.GetReadyMessages | retry_queue.py:229-257 | returns exactly the pending due records (marked RETRYING), removes them, keeps the others in order |
| StatusRetry.RetryQueue.CleanupOldMessages | retry_queue.py:318-327 | drops the front run of history entries older than the interval |
| StatusRetry.RetryQueue.ForceRetryAll | retry_queue.py:366-383 | every pending record is due now; the count is the deque length, since every queued record is pending; no reordering |
| StatusRetry.RetryQueue.GetStats | retry_queue.py:329-354 | the current size and the intended history statistics |
| StatusRetry.RetryQueue.Clear | retry_queue.py:385-404 | per-status counts of the cleared records (only PENDING occurs), summing to the length; the deque emptied |
| StatusRetry.RetryQueue.Report | retry_queue.py:291-303 | the callback's verdict becomes mark_retry_success or add_retry_failure; a missed lookup changes nothing |
| StatusRetry.RetryQueue.ProcessReady | retry_queue.py:291-306 | the retry loop over the ready records; when no queued record wraps their messages every report returns false and nothing changes |
| StatusRetry.RetryQueue.WorkerStep | retry_queue.py:284-316 | one worker pass: the ready records are taken out, and with no message enqueued twice none of them is ever marked successful or failed |
| OfflineMailbox.LiveExactly | ChatServer1/models/offline_queue.py:259 | the live entries are exactly those not yet expired, and live + expired is the length (also ChatServer1/models/offline_queue.py:589) |
| OfflineMailbox.NewEntry | ChatServer1/models/offline_queue.py:87-95 | expiry = stored time + the expiry span; no delivery attempts; not delivered |
| OfflineMailbox.Deliveries | ChatServer1/models/offline_queue.py:173-213 | the delivered records, one per live entry, in order, each with the time it spent stored |
| OfflineMailbox.Previews | ChatServer1/models/offline_queue.py:303-321 | one preview per live entry, in order |
| OfflineMailbox.StoreDropsOldest | ChatServer1/models/offline_queue.py:46 | storing into a full deque drops exactly the oldest entry (also ChatServer1/models/offline_queue.py:98) |
| OfflineMailbox.StoreKeepsAll | ChatServer1/models/offline_queue.py:46 | below the bound nothing is dropped (also ChatServer1/models/offline_queue.py:98) |
| OfflineMailbox.DeliveryRate | ChatServer1/models/offline_queue.py:455-460 | in 0..100; 100 iff something was delivered and nothing expired; 0 iff nothing was delivered |
| OfflineMailbox.Find | ChatServer1/models/offline_queue.py:46 | a user's position in the insertion-ordered dict, or -1 when absent |
| OfflineMailbox.PutSpec | ChatServer1/models/offline_queue.py:98 | `d[u] = q` sets u's deque, adds u last when new and leaves everyone else's deque |
| OfflineMailbox.DropSpec | ChatServer1/models/offline_queue.py:345 | `del d[u]` removes exactly u (also ChatServer1/models/offline_queue.py:420-421) |
| OfflineMailbox.DropEmptied | ChatServer1/models/offline_queue.py:412-421 | deleting the users whose deque became empty keeps exactly the non-empty deques |
| OfflineMailbox.SweptValid | ChatServer1/models/offline_queue.py:380-410 | the sweep keeps the users distinct and within the bound |
| OfflineMailbox.ResizedValid | ChatServer1/models/offline_queue.py:639-650 | rebuilding under a new maxlen keeps the users and respects the new bound |
| OfflineMailbox.SplitLive | ChatServer1/models/offline_queue.py:393-405 | the popleft loop keeps the live entries in order and counts the expired ones |
| OfflineMailbox.OfflineQueue.constructor | ChatServer1/models/offline_queue.py:26-71 | no deques, expiry = hours · 3600, zero statistics |
| OfflineMailbox.OfflineQueue.UpdateUserStats | ChatServer1/models/offline_queue.py:430-460 | the user count and the delivery rate are refreshed |
| OfflineMailbox.OfflineQueue.Store | ChatServer1/models/offline_queue.py:73-119 | the fresh entry is appended to the user's deque (created on first use), a full deque drops its oldest, others unchanged, total stored + 1 |
| OfflineMailbox.OfflineQueue.StoreMultiple | ChatServer1/models/offline_queue.py:121-143 | the deques are the stores of the same entry for each listed name in turn (`StoredForAll`); with a negative bound nothing changes; total stored + the number of names; one result per listed name, with the size of its deque |
| OfflineMailbox.StoredForAllSpec | ChatServer1/models/offline_queue.py:121-143 | after storing for a list of names, every unlisted user keeps their deque, exactly the listed users and the old ones have deques, and each listed deque ends with the new entry when the bound is positive |
| OfflineMailbox.OfflineQueue.DeliverAsWritten | ChatServer1/models/offline_queue.py:145-238 | the online check as written: with a registry of User objects nothing is delivered and nothing changes; with a dict registry whose flag is set the live entries are delivered as in Deliver (also ChatServer1/models/offline_queue.py:163) |
| OfflineMailbox.OnlineLookup | ChatServer1/models/offline_queue.py:163 | None (AttributeError) exactly for a User object; true exactly for a dict whose "is_online" is true |
| OfflineMailbox.OfflineQueue.Deliver | ChatServer1/models/offline_queue.py:145-238 | nothing when the deque is empty or the user offline; otherwise the live entries delivered in FIFO order, the expired counted, the user kept with an empty deque, delivered + expired = its length, the statistics refreshed, the callback called once only when something was delivered |
| OfflineMailbox.DrainEntries | ChatServer1/models/offline_queue.py:173-213 | the drain loop: live entries are handed out oldest first, expired ones counted; delivered plus expired is the whole deque |
| OfflineMailbox.OfflineQueue.GetOfflineMessageCount | ChatServer1/models/offline_queue.py:573-593 | the number of live entries of the user |
| OfflineMailbox.OfflineQueue.Peek | ChatServer1/models/offline_queue.py:292-321 | the live entries among the first `limit` positions, in order, nothing changed |
| OfflineMailbox.OfflineQueue.ClearUser | ChatServer1/models/offline_queue.py:323-354 | returns the full length, expired entries included, and deletes the key |
| OfflineMailbox.OfflineQueue.CleanupExpired | ChatServer1/models/offline_queue.py:375-428 | every deque keeps its live entries in order, emptied users are deleted, the expired count is added to the counters |
| OfflineMailbox.OfflineQueue.SweepQueues | ChatServer1/models/offline_queue.py:380-410 | the first pass of the sweep: live entries kept, expired counted, emptied users listed |
| OfflineMailbox.SweepAll | ChatServer1/models/offline_queue.py:385-410 | over the users in order, each deque becomes its live entries in order; the expired entries of all users are counted; the users left with none are listed in order |
| OfflineMailbox.OfflineQueue.DropUsers | ChatServer1/models/offline_queue.py:412-421 | the second pass of the sweep: the listed users deleted |
| OfflineMailbox.OfflineQueue.ClearAll | ChatServer1/models/offline_queue.py:595-623 | returns the entry and user counts, empties everything, keeps the cumulative counters |
| OfflineMailbox.OfflineQueue.UpdateConfig | ChatServer1/models/offline_queue.py:625-652 | max ≥ 10 with every deque rebuilt keeping its newest entries; expiry ≥ 1 h; interval ≥ 60 s |
| OfflineMailbox.OfflineQueue.HandleUserOnline | ChatServer1/models/offline_queue.py:520-548 | None iff the user has no live entry, and then nothing changes; otherwise, for an online user, the live entries delivered, the user's deque emptied, the statistics refreshed and the callback given the list; for a user not online, an empty list and nothing changed |
| SpamUtils.KeepOnly | utils/spam_utils.py:24-26 | deletes every character outside `[a-z0-9\s]` and never lengthens the text |
| SpamUtils.Normalize | utils/spam_utils.py:24-26 | the output holds only a–z, 0–9 and whitespace |
| SpamUtils.NormalizeIdempotent | utils/spam_utils.py:24-26 | normalising twice is normalising once |
| SpamUtils.KeptPhraseSurvives | utils/spam_utils.py:24-26 | a phrase of kept characters found in the lower-cased text survives normalisation (also utils/spam_utils.py:43-45) |
| SpamUtils.HundredPercentFreeNeverMatches | utils/spam_utils.py:11-17 | "100% free" can never match: normalize deletes the '%' (also utils/spam_utils.py:43-45) |
| SpamUtils.MatchableKeywords | utils/spam_utils.py:11-17 | every other listed phrase is made of kept characters |
| SpamUtils.KeywordInTextIsSpam | utils/spam_utils.py:43-45 | a listed phrase (not "100% free") found in the text, in any letter case, makes it spam |
| SpamUtils.LongTextIsSpam | utils/spam_utils.py:60-61 | any text longer than 300 characters is spam |
| SpamUtils.EmptyIsNotSpam | utils/spam_utils.py:36-37 | the empty text is not spam |
| SpamUtils.RepeatedLetterIsSpam | utils/spam_utils.py:20 | "heyyyyy" is spam (also utils/spam_utils.py:48-49) |
| SpamUtils.RepeatedWordIsSpam | utils/spam_utils.py:22 | "free free free" is spam (also utils/spam_utils.py:52-53) |
| SpamUtils.UpperCaseLinkIsSpam | utils/spam_utils.py:21 | the link rule ignores case: "WWW.x" is spam (also utils/spam_utils.py:56-57) |
| SpamUtils.BareLinkPrefixIsNotLink | utils/spam_utils.py:21 | a link prefix followed by whitespace is no link |
| ChatApp.UnreachableSpamKeywords | ChatServer1/app.py:35 | "100% free", "earn $" and "make $$$" never occur in a normalised text (also ChatServer1/app.py:37, ChatServer1/app.py:47-49) |
| ChatApp.SpamKeywordInTextIsSpam | ChatServer1/app.py:56-63 | a listed phrase of kept characters, found in the text in any letter case, makes it spam |
| ChatApp.SharedSpamIsSpam | ChatServer1/app.py:51-90 | whatever the shared detector flags, the server's detector flags too (also utils/spam_utils.py:28-63) |
| ChatApp.AToJNotSharedSpam | utils/spam_utils.py:28-63 | non-empty text of at most 300 characters that lower-cases and normalises to letters a..j, with no run of five, matches no phrase, no repeated word and no link, so the shared detector passes it |
| ChatApp.CapitalsNotSharedSpam | utils/spam_utils.py:28-63 | ten capitals in a row are not spam for the shared detector |
| ChatApp.CapitalsRuleOnlyHere | ChatServer1/app.py:45 | ten capitals in a row are spam for the server's detector only (also ChatServer1/app.py:86-88) |
| ChatApp.DetectMessagePriority | ChatServer1/app.py:169-213 | a manual tier in 1..4 is returned unchanged; otherwise the result is in {1, 2, 3} |
| ChatApp.MentionBeatsUrgentKeyword | ChatServer1/app.py:199-205 | "@bob help" is tier 2 although it holds the urgent keyword "help" |
| ChatApp.CapitalsBeatMention | ChatServer1/app.py:194-200 | eleven capitals and an '@' make tier 1 |
| ChatApp.CountUpper | ChatServer1/app.py:194 | counts the capitals, at most the length |
| ChatApp.MessageTier | ChatServer1/app.py:507-521 | the tier is in 1..4; spam forces 4; the tier is 4 iff the message is spam or asked for 4; otherwise a valid manual tier is kept, and without one (a manual tier outside 1..4 is dropped) the heuristic decides |
| ChatApp.UrgentWordEndsLow | ChatServer1/app.py:38 | text containing "urgent" in any letter case always ends at tier 4 (also ChatServer1/app.py:516-521) |
| ChatApp.UrgentKeywordDetected | ChatServer1/app.py:193-205 | text that is not mostly capitals, holds no '@' and contains an urgent keyword in its lower-cased form is tier 1 |
| ChatApp.UrgentKeywordNeverYieldsUrgent | ChatServer1/app.py:181-182 | the heuristic calls "urgent" tier 1, but the message lands at tier 4 (also ChatServer1/app.py:516-521) |
| ChatApp.Stamp | ChatServer1/app.py:128-130 | a message without an id gets one; a message with an id is unchanged |
| ChatApp.Stamped | ChatServer1/app.py:124-130 | the batch as add_batch_messages leaves it, message for message |
| ChatApp.StampedId | ChatServer1/app.py:128-130 | a message's own id is kept; a message without one gets the next counter value, above the starting counter and at most the final one |
| ChatApp.StampedIdsIncrease | ChatServer1/app.py:128-130 | new ids increase strictly along the batch |
| ChatApp.Displayed | ChatServer1/app.py:103-106 | a tier's bounded deque after the batch: at most the bound (also ChatServer1/app.py:133) |
| ChatApp.DisplayedSnoc | ChatServer1/app.py:133 | one more message changes only its own tier's deque |
| ChatApp.TracksStep | ChatServer1/app.py:124-134 | storing one message in its tier keeps every tier in step with the batch |
| ChatApp.DisplayMessageQueue.constructor | ChatServer1/app.py:98-118 | four empty tiers, counter 0 |
| ChatApp.DisplayMessageQueue.AddBatchMessages | ChatServer1/app.py:120-139 | every message, stamped, is appended in order to its tier (default 3) with oldest ones dropped past the bound; returns the count; an unknown tier raises after the messages before it were added and the offending one took its id |
| ChatApp.DisplayMessageQueue.GetQueueStats | ChatServer1/app.py:152-160 | the four tier sizes and their sum, at most four full deques |
| ChatApp.DisplayMessageQueue.GetAllMessagesOrganized | ChatServer1/app.py:141-150 | the four tier names, each with exactly its tier's deque, oldest first, and at most the bound |
| ChatApp.DisplayMessageQueue.ClearAll | ChatServer1/app.py:162-166 | every tier empty and the counter 0 |
| Accounts.RegistrationCheck | ChatServer1/models/user_manager.py:108-130 | the refusals in order (empty, under 3, over 20, case-insensitive duplicate, password under 4), each as an iff, and acceptance iff none applies (also models/user_manager.py:87-109) |
| Accounts.CaseVariantTaken | ChatServer1/models/user_manager.py:120-121 | once a name is registered, every spelling of it in another letter case is taken |
| Accounts.AcceptedKeepsCaseDistinct | ChatServer1/models/user_manager.py:120-134 | an accepted name is new and keeps the registered names distinct up to letter case |
| Accounts.TwentyCharacterNameAccepted | ChatServer1/models/user_manager.py:116-117 | a 20-character name is accepted, although the refusal text says "less than 20" |
| Accounts.AvailabilityDoesNotStrip | ChatServer1/models/user_manager.py:105 | " bob" looks available while "bob" is registered, yet registering it is refused as taken (also ChatServer1/models/user_manager.py:425) |
| Accounts.OfflineCount | ChatServer1/models/user_manager.py:369-371 | currently_offline = total − online, and online ≤ total |
| Accounts.Put | ChatServer1/models/user_manager.py:170 | setting one counter leaves every other counter |
| Accounts.Bump | ChatServer1/models/user_manager.py:163 | one more failure for that name only (also ChatServer1/models/user_manager.py:178) |
| Accounts.BumpTotal | ChatServer1/models/user_manager.py:163 | each failed login adds exactly one to total_failed_logins (also ChatServer1/models/user_manager.py:372) |
| Accounts.ResetTotal | ChatServer1/models/user_manager.py:170 | a successful login takes exactly that name's failures out of the total (also ChatServer1/models/user_manager.py:372) |
| UserRegistry.NewUser | ChatServer1/models/user_manager.py:18-31 | a new user is offline with no socket, no join or offline time, and zero counters |
| UserRegistry.User.constructor | ChatServer1/models/user_manager.py:18-31 | the object's state is NewUser |
| UserRegistry.User.GoOnline | ChatServer1/models/user_manager.py:214-217 | online on the socket, join and activity times set, the mailbox's delivered count added (also ChatServer1/models/user_manager.py:228-229) |
| UserRegistry.User.GoOffline | ChatServer1/models/user_manager.py:252-254 | offline, no socket, last_offline_time set |
| UserRegistry.UserManager.constructor | ChatServer1/models/user_manager.py:53-61 | everything empty |
| UserRegistry.UserManager.RegisterUser | ChatServer1/models/user_manager.py:96-143 | the stripped name is checked; a refusal changes nothing; acceptance adds exactly one offline user and one session |
| UserRegistry.UserManager.AddUser | ChatServer1/models/user_manager.py:127-134 | the accepted branch: exactly one new offline user under the name and one new session for it; nothing else changes |
| UserRegistry.UserManager.LoginUser | ChatServer1/models/user_manager.py:145-184 | an unknown name or wrong hash counts one failure and changes no session or user; success adds a session, keeps the old ones, sets the user's session and resets the counter to 0 |
| UserRegistry.UserManager.OpenSession | ChatServer1/models/user_manager.py:169-175 | a successful login: one new session for the user, the user's session id set to it, the failure count back to 0, older sessions kept |
| Accounts.Available | ChatServer1/models/user_manager.py:415-425 | for a name of acceptable length, available iff registration would not refuse it as taken, whatever the password; a name not available is never accepted (also models/user_manager.py:285-295) |
| UserRegistry.UserManager.IsUsernameAvailable | ChatServer1/models/user_manager.py:415-425 | Accounts.Available on the registered names (also ChatServer1/models/user_manager.py:120) |
| UserRegistry.UserManager.SetUserOnline | ChatServer1/models/user_manager.py:198-234 | false and nothing changed for an unknown name; otherwise the user goes online, joins online_users, and the socket maps to them, the old socket's entry kept |
| UserRegistry.UserManager.SetUserOffline | ChatServer1/models/user_manager.py:236-268 | None for an unknown socket; otherwise the socket's user goes offline, leaves online_users, and the socket's entry is removed |
| UserRegistry.UserManager.LogoutUser | ChatServer1/models/user_manager.py:427-451 | false for an unknown session; otherwise the session is deleted and, when the user has a socket, whoever it maps to goes offline |
| UserRegistry.UserManager.CleanupInactiveSessions | ChatServer1/models/user_manager.py:490-518 | exactly the sessions of offline users inactive for more than hours · 3600 are deleted; returns their number |
| UserRegistry.UserManager.StaleSessions | ChatServer1/models/user_manager.py:502-512 | the first loop collects exactly the stale sessions |
| UserRegistry.UserManager.DropSessions | ChatServer1/models/user_manager.py:514-515 | the second loop deletes exactly the collected sessions |
| UserRegistry.UserManager.ForceUserOffline | ChatServer1/models/user_manager.py:520-541 | true iff the user exists, is online and has a socket, which then goes offline |
| UserRegistry.UserManager.GetUserStats | ChatServer1/models/user_manager.py:352-377 | registered, online (≤ registered), offline = the offline users, failures = the counter total, the mailbox fields |
| BasicUserRegistry.NewUser | models/user_manager.py:17-26 | a new user is offline with no socket and no messages |
| BasicUserRegistry.User.constructor | models/user_manager.py:17-26 | the object's state is NewUser |
| BasicUserRegistry.User.GoOnline | models/user_manager.py:192-195 | online on the socket, join and activity times set |
| BasicUserRegistry.User.GoOffline | models/user_manager.py:217-218 | offline and no socket; no offline time is recorded |
| BasicUserRegistry.UserManager.constructor | models/user_manager.py:45-50 | everything empty |
| BasicUserRegistry.UserManager.RegisterUser | models/user_manager.py:75-122 | the same ordered checks; acceptance adds exactly one user and one session |
| BasicUserRegistry.UserManager.AddUser | models/user_manager.py:106-113 | the accepted branch: exactly one new offline user under the name and one new session for it; nothing else changes |
| BasicUserRegistry.UserManager.LoginUser | models/user_manager.py:124-163 | a failure counts one for the name and adds no session; success adds a session and resets the counter |
| BasicUserRegistry.UserManager.OpenSession | models/user_manager.py:148-154 | a successful login: one new session for the user, the user's session id set to it, the failure count back to 0, older sessions kept |
| BasicUserRegistry.UserManager.IsUsernameAvailable | models/user_manager.py:285-295 | Accounts.Available on the registered names |
| BasicUserRegistry.UserManager.SetUserOnline | models/user_manager.py:177-201 | false for an unknown name; otherwise online, in online_users, the socket mapped |
| BasicUserRegistry.UserManager.SetUserOffline | models/user_manager.py:203-225 | None for an unknown socket; otherwise offline, out of online_users, the socket's entry removed |
| BasicUserRegistry.UserManager.LogoutUser | models/user_manager.py:297-320 | false for an unknown session; otherwise the session is deleted and the socket, if any, goes offline |
| BasicUserRegistry.UserManager.GetUserStats | models/user_manager.py:271-283 | registered, online (≤ registered), failures = the counter total, the online names |
| UserRegistry.User.StartSession | ChatServer1/models/user_manager.py:170-172 | the user's session id becomes the new one; nothing else of the user changes |
| BasicUserRegistry.User.StartSession | models/user_manager.py:149-151 | the user's session id becomes the new one; nothing else of the user changes |
| StatusRetry.RetryMessage.RecordAttempt | retry_queue.py:175-177 | attempt_count + 1, last_attempt_time := now, the reason logged under that attempt number; nothing else changes |
| StatusRetry.AfterReady | retry_queue.py:245-250 | ready records become RETRYING, every other record keeps its state |
| StatusRetry.RemoveFirst | retry_queue.py:262-265 | `deque.remove`: a record not in the deque leaves it unchanged |
| StatusRetry.CountStatus | retry_queue.py:347 | the number of history entries with a status, at most the history's length |
| StatusRetry.Ages | retry_queue.py:59 | one age per history record: now minus its creation time (also retry_queue.py:351) |
| StatusRetry.Classify | retry_queue.py:245-252 | one popped record: ready iff pending with a truthy retry time that has passed; a ready one is marked RETRYING |
| StatusRetry.ForceOne | retry_queue.py:377-380 | one record of force_retry_all: forced iff pending, then due now |
| StatusRetry.RetryQueue.NewRecord | retry_queue.py:138-140 | a fresh pending record wrapping the message, created now, with the initial reason and the first retry time |
| StatusRetry.RetryQueue.Find | retry_queue.py:173-174 | the lookup loop returns the first position wrapping the message, or -1 (also retry_queue.py:212-213) |
| StatusRetry.RetryQueue.Retire | retry_queue.py:259-272 | the record at a position leaves the deque, enters the bounded history and is counted under its status |
| StatusRetry.RetryQueue.FailAt | retry_queue.py:175-194 | the record at a position fails as in AfterFailure; an abandoned one is retired |
| StatusRetry.RetryQueue.SucceedAt | retry_queue.py:214-223 | the record at a position succeeds as in AfterSuccess and is retired; successful_retries + 1 |
| ChatApp.StampedAt | ChatServer1/app.py:124-130 | message j of the batch is stamped with the counter advanced by the id-less messages before it |
| ChatApp.IdLessCountPrefix | ChatServer1/app.py:128-130 | the counter never goes back along the batch and grows by each message without an id |
| ChatApp.OfTier | ChatServer1/app.py:131-133 | the messages of one tier, in batch order |
| ChatApp.TracksEveryTier | ChatServer1/app.py:124-134 | every tier's deque is the old one with that tier's messages appended, bounded |
| ChatApp.StoreKnownPrefix | ChatServer1/app.py:124-134 | the loop up to the first message whose tier has no deque: every tier's deque is the old one with that tier's stamped messages appended, newest kept; the counter advances by the id-less ones; it stops exactly at the first unknown tier |
| ChatApp.StoreNext | ChatServer1/app.py:127-133 | one pass: the message, stamped, is appended to its own tier's bounded deque and every tier stays in step with the batch |
| ChatApp.KnownTiersAll | ChatServer1/app.py:131-133 | the recursive "every tier known" check agrees with the per-message one |
| Deques.KeepNewest | ChatServer1/app.py:103-106 | a deque with maxlen keeps the newest `maxlen` entries, in order (also retry_queue.py:100) |
| Deques.KeepNewestSnoc | ChatServer1/app.py:133 | appending one at a time to a bounded deque is bounding the whole appended sequence (also ChatServer1/models/offline_queue.py:98) |
| OfflineMailbox.LiveUpTo | ChatServer1/models/offline_queue.py:303-321 | the live entries among the first k, in order, at most k |
| PriorityQueue.ChosenPriority | priority_queue.py:76-82 | the manual value verbatim when given; otherwise the heuristic tier, in 1..3 |
| Text.Lower | priority_queue.py:194 | `str.lower()` on ASCII: same length, each capital mapped to its small letter, every other character kept |
| Text.Strip | priority_queue.py:194 | `str.strip()`: never longer, and the result neither starts nor ends with whitespace (also ChatServer1/models/user_manager.py:108) |
| Ratios.Percent | ChatServer1/models/offline_queue.py:458 | `part / whole * 100` lies in 0..100, is 100 iff part = whole and 0 iff part = 0 (also ChatServer1/models/batch_queue.py:175, retry_queue.py:348) |
| ChatApp.IsSpam | ChatServer1/app.py:51-90 | the server's detector: empty text is not spam; then the phrase list on the normalised text, repeated characters, repeated words, links, length over 300 and a run of ten capitals, in that order |
| ChatApp.HasCapitalsRun | ChatServer1/app.py:45 | `[A-Z]{10,}` finds a match: ten capitals in a row |
| ChatApp.MostlyCapitals | ChatServer1/app.py:194 | more than 70% capitals in a message longer than ten characters |
| SpamUtils.IsSpam | utils/spam_utils.py:28-63 | the shared detector: the same rules as the server's, without the capitals rule |
| SpamUtils.HasRepeatedChar | utils/spam_utils.py:20 | `(.)\1{4,}` finds a match: five equal characters in a row, the first not a newline |
| SpamUtils.HasRepeatedWord | utils/spam_utils.py:22 | `\b(\w+)\s+\1\s+\1` finds a match: a word at a boundary, repeated twice more after whitespace |
| SpamUtils.HasLink | utils/spam_utils.py:21 | `https?://\S+` or `www\.\S+` finds a match, ignoring case |
| PolledBatch.ReleaseReason | ChatServer1/models/batch_queue.py:120-135 | the processor's release rule: full; else at least the minimum and waited max_wait; else non-empty with a truthy start time and waited twice max_wait; else no release |
| StatusRetry.NextRetryTime | retry_queue.py:37-46 | now plus the capped delay plus the jitter share of it |
| StatusRetry.IsReady | retry_queue.py:245-247 | get_ready_messages takes a record exactly when it is pending with a truthy retry time that has passed |
| OfflineMailbox.IsLive | ChatServer1/models/offline_queue.py:259 | an entry is live while now has not passed its expiry (the deliver path drops it once now is strictly later, ChatServer1/models/offline_queue.py:177) |
| OfflineMailbox.Refreshed | ChatServer1/models/offline_queue.py:430-460 | `_update_user_stats`: the user count and the delivery rate replaced, the counters kept |
| PriorityQueue.KeywordsUnpadded | priority_queue.py:46-54 | no urgent or high keyword begins or ends with whitespace |

In both registries, `Valid()` holds after every operation. It keeps `online_users` equal to the
set of users whose `is_online` is set, each online user holding a socket, and the registered names
distinct up to letter case.

## Left out

- Threads, locks, `threading.Timer`, `sleep`, `stop`/`join` and `__del__`. Each background
  iteration is one atomic method. `_update_user_stats` re-acquires a lock its callers already hold,
  which would deadlock the real program; the model has no locks, and its mailbox operations complete
  as if the lock were reentrant.
- Randomness. `_simulate_message_delivery`, `add_message_for_delivery` and the delivery outcome of
  `_attempt_retry` are represented by the `success` input, and the jitter of
  `calculate_next_retry` is an input in [0.1, 0.5].
- The wall clock, `datetime` strings, and ids built from timestamps (`batch_id`, `retry_id`,
  `message_id`). `now` is a parameter.
- Rounding (`round(…, 2)`) and the float averages of the offline mailbox
  (`average_messages_per_user`, `oldest_undelivered_age`). Percentages and averages are exact
  reals.
- The history of the priority queue: `CircularQueue` is not part of this model, so `get_history`
  and the history counts of `get_queue_stats` and `clear_all` are left out.
- `message_metadata` and its size bookkeeping in the offline mailbox.
- Reporting and export functions: `get_queue_status` (all queues), `export_*_log`,
  `get_pending_retries`, `get_queue_contents`, `get_all_offline_users`, `handle_user_offline`,
  `force_cleanup`, the user listings and summaries (`get_online_users`, `get_offline_users`,
  `get_user_offline_summary`, `get_users_for_broadcast`, `get_user_activity_report`,
  `get_all_users_summary`, `get_user_info`, `check_user_exists`) and the batch queue's `get_stats`
  copy. The last one only refreshes `messages_in_current_batch`, which the model keeps equal to the
  pending count at all times (`TimerBatch.BatchQueue.CurrentBatchSize`).
- `validate_session`, `get_user_by_socket` and `update_user_activity`. They only read a map or
  update a timestamp.
- The earlier `get_offline_message_count` in the offline mailbox. A later method of the same name
  replaces it, and only that one is modelled.
- Callbacks are not called.
  - Where a callback receives a value, the method returns that value (a batch envelope, a retry
    event, a delivery list).
  - Where a callback raising changes the state, that is a boolean input.
- The socket handlers, Flask routes, the `websockets` server and `main()`.
- `set_send_callback`, `set_retry_callback` and `set_offline_queue`. They only replace a
  collaborator.
- Mutation of a caller's dict: setting `"id"` in `add_batch_messages` and `batch_timestamp` in
  `add_message` happens on the modelled copy, not on an object the caller also holds.
- Unicode. `lower()`, `isupper()`, `\s` and `\w` are modelled on ASCII only.
- `hashlib.sha256` and `secrets.token_urlsafe`. The hash is a fixed function given to the
  registry, and the session id is an argument.
- The offline-queue hooks of the ChatServer1 registry. `set_user_online` takes the number of
  messages the mailbox delivered as its input `delivered`. With no mailbox, or when the mailbox
  raises, that is 0. It is also 0 with the mailbox as written, because its online check never
  succeeds on this registry (see "Findings"). The `handle_user_offline` notification is not
  modelled.
- `update_offline_message_delivery_stats` is not modelled separately. The same addition happens
  inside `UserRegistry.User.GoOnline`.
- UserRegistry.User.GoOnline: `join_time` and `last_active` come from two clock reads in the source;
  the model uses one `now` for both.
- ChatApp.DetectMessagePriority: the contract states the range and the manual-tier rule. The rule
  order (shouting, mention, keywords) is shown on concrete messages by
  `ChatApp.MentionBeatsUrgentKeyword` and `ChatApp.CapitalsBeatMention`.
- PolledBatch.RecordSend: `total_wait_time` and the averages are exact reals; float rounding is not
  modelled.
- StatusRetry.RetryQueue.GetStats: models the intended history statistics; the raising code as
  written is `StatusRetry.HistoryStatsAsWritten`.

## Findings

| source | as written | input that shows it | evidently intended | confidence | as-written member | corrected member |
|---|---|---|---|---|---|---|
| ChatServer1/models/offline_queue.py:163 | the online check calls `.get('is_online', False)` on the registry's record, but the ChatServer1 registry stores `User` objects (ChatServer1/models/user_manager.py:131), which have no `get`; the AttributeError is caught (ChatServer1/models/offline_queue.py:236) and an empty list returned | a registered user "bob" comes online via `set_user_online` with one live offline message waiting | the lookup reads the user's `is_online` attribute, and bob receives the message | not executed | OfflineMailbox.OfflineQueue.DeliverAsWritten | OfflineMailbox.OfflineQueue.Deliver |
| retry_queue.py:351 | `get_stats` takes `msg.total_time_in_queue` of each completed `RetryMessage`, but that name is only a key of `to_dict()` (retry_queue.py:59), not an attribute, so the call raises AttributeError as soon as the history is non-empty | one SUCCESS record in the history, created 5 s ago | the longest time any history entry has spent since creation, `now − first_attempt_time` | not executed | StatusRetry.HistoryStatsAsWritten | StatusRetry.HistoryStats |
