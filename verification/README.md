# Verified model of the OCPP message queue and five of its helpers

This project models, in Dafny, the part of an OCPP charging-station library that decides which message is sent when,
and proves what that part keeps over every run. The core is the message queue (`include/ocpp/common/message_queue.hpp`):
two queues, one message in flight, two database tables, retries under fresh ids, a pause/resume counter, the rule that a
CALL of the CSMS is answered first, overflow handling, and transaction ids that become known late. Beside it stand five
smaller algorithms: the base64 codec, the URI parser and printer, the thinning out of `StopTransaction.req` meter
values, the rotation of message logs, and the clock-aligned timer.

## How the model is built

* `QueueSpec` gives the queue as a state machine. Every body that holds `message_mutex`, every pass of the worker loop
  and every timer callback is one step (`Next`); `Enabled` says what the environment guarantees: `create_message_id`
  never repeats an id, the response timer is armed exactly while a message is in flight, a resume callback fires only if
  it was scheduled. The transport is a flag per send, the clock an argument of the step. `Crash` loses the process at
  any moment and starts a new queue over the tables, so runs go through any number of restarts. Each state carries the
  history of its boot (`Entry`), and each message a serial number that stands for the identity of the shared object.
  `WholeRun` joins the histories of all boots, with an entry for each restart and for each message it skips.
* `MessageQueue` is the class itself: mutable fields, `ControlMessage` objects that are shared between the queues, the
  in-flight slot and the loops that change them in place. Each method is proved to take the state machine from the old
  state to the one `Next` prescribes (`View`), so every theorem about runs is a theorem about sequences of these calls.
* `TransactionOrder`, `Ledger` and `Delivery` hold the inductive invariants. `SendOrder`, `Recovery` and
  `NormalRecovery`, `Synchronicity`, `AnswerFirst` and `EarlySend`, `Guarantees` and `Lifetimes`, `LateReplies`,
  `Exhausted`, `Promises`, `Backlog`, `Budget`, `Backoff`, `PauseResume`, `LateTransactionIds`, `MeterValueIds`,
  `StopIds` and `Overflow` state what follows; `Witnesses` and `RestartWitnesses` hold concrete runs that show where a
  general result stops.
* `Base64` (with `Bytes`), `Uri` (with `Numbers`), `TransactionData`, `LogRotation` and `AlignedTimer` each pair the loops
  of the source with a specification function and prove what the source promises about that function.

## Where the code does less than one may expect

* A failed send of a message that is not kept removes the front of the normal queue, which need not be the message that
  was sent (`message_queue.hpp:455-464` against `545`). `Promises.PromisesRight` shows that promises stay right in exactly
  the runs where no such send meets a blocked front; `Witnesses.BootLostPromiseSetTwice` loses a BootNotification that way.
* The message that is removed so may be one that is kept. Its row stays in NORMAL_QUEUE, and the next restart brings it
  back. `NormalRecovery.RestartsExact` shows that restarts put back exactly what they should in exactly the runs without
  such a step, and without a restart that stops keeping what it reads back. Rows that pile up that way break the bound on
  the backlog, because reading the tables back checks no size (`Backlog.BacklogBound`, `Backlog.BacklogExact`);
  `RestartWitnesses.DroppedMessagesComeBack` is a run.
* The answer-first gate holds one id. A second CALL of the CSMS overwrites it and any reply clears it (`:735-753`).
  `AnswerFirst.GateAlwaysComplete` and `AnsweredBeforeSending` give the exact condition under which CALLs are answered
  first, `EarlySend.UntimelySendsEarly` shows that each step against it can be followed by a message that goes out too
  early, and `Witnesses.SentBeforeAnswering` is a run in which one does.
* Meter values are registered under the id their StartTransaction had at that time, a retry renames it (`:838`), and its
  response is handled under the new id (`lib/ocpp/v16/charge_point_impl.cpp:246-250`, `2354`). A restart forgets the
  registrations altogether. `MeterValueIds.MeterValuesArrive` gives the exact condition, per start and over all runs, under
  which its meter values get the transaction id; `Witnesses.MeterValueMissesItsTransaction` is a run in which one does not.
* Likewise a StopTransaction gets its late transaction id only if it waits, at the registration, under the id it is
  registered under, and no restart comes before its next offer (`StopIds.StopIdArrives`, `OneRegistration`): not if it is
  in flight at that moment or was renamed by a retry before. `RestartWitnesses.RestartForgetsTheTransaction` is a run.
* A restart gives a message its first id again, so a late reply to an attempt before the restart is taken for the answer
  to the attempt after it: `LateReplies.LateReply` says exactly when, `RestartWitnesses.LateReplyIsTakenUp` is a run.
* `queues_total_size_threshold` is compared with an unsigned size, so a negative one is never exceeded.
* A failed send counts as an attempt (`:518`), so a message can be given up after fewer deliveries than configured
  attempts: exactly if more sends failed than it had attempts beyond the limit (`Exhausted.GivenUpAfter`;
  `RestartWitnesses.GivenUpAfterOneDelivery` is a run). The comment at `:840` calls the backoff exponential; the delays
  grow by a constant (`Backoff`).
* Log rotation sorts names as text. `LogRotation.SafeRuns` shows that every run is safe exactly for a maximum of 1 to 11
  files, or with no twelfth rotation. With dates as suffixes, the file that is removed as "the oldest"
  (`ocpp_logging.cpp:214-217`) is the latest archive, and a second rotation within the same second overwrites the archive
  of the first (`LogRotation.DatedArchives`).
* The URI printer drops the brackets of an IPv6 host; `Uri.StrIsStable` says exactly which URIs are printed so that
  parsing returns them.
* A clock-aligned timer that fires exactly at its start instant schedules that same instant again
  (`AlignedTimer.ScheduleIncreases`). One that fires after its interval was set to zero divides by zero
  (`AlignedTimer.ClockAlignedTimer.Fire`); the message it logs (`aligned_timer.hpp:37-39`) divides by the interval too.

## Model

| member | source | states |
|---|---|---|
| `SendOrder.TransactionsInOrder` | include/ocpp/common/message_queue.hpp:485-564 | In every run, over all its boots, with retries, failed sends, overflow, restarts and normal messages in between, transaction messages are offered to the transport in the order of acceptance, and no other one is offered between two attempts at the same one |
| `WholeRun.EndsWithHistory` | include/ocpp/common/message_queue.hpp:582-633 | The history of the whole run, over which that order is stated, ends with the history of the current boot |
| `SendOrder.TransmitOrder` | include/ocpp/common/message_queue.hpp:485-495 | One attempt, at the head of the transaction queue or at a normal message, keeps that order |
| `SendOrder.CrashOrder` | include/ocpp/common/message_queue.hpp:582-633 | So does a restart: what is read back continues where the last boot stopped |
| `TransactionOrder.NextKeepsTx` | include/ocpp/common/message_queue.hpp:269-287 | Every step keeps the transaction discipline: the table shadows the message in flight followed by the queue, row by row, in strictly increasing order of acceptance, with everything behind the head untried and under its first id |
| `TransactionOrder.PurgeIsKept` | include/ocpp/common/message_queue.hpp:589-601 | Deleting the ignored rows one by one by their id leaves exactly the other rows, in order |
| `TransactionOrder.LoadIsKept` | include/ocpp/common/message_queue.hpp:586-615 | The messages read back are those of the rows that are not ignored, in order |
| `Recovery.CrashRestores` | include/ocpp/common/message_queue.hpp:582-633 | After any run with any number of earlier restarts, a restart puts back exactly the unresolved transaction messages, but for security notifications it is told to ignore, the one in flight included, in order, each untried and under its first id |
| `Recovery.CrashRestoresNothingResolved` | include/ocpp/common/message_queue.hpp:793-807 | No restart brings back a transaction message that was answered, given up or dropped in that boot |
| `Recovery.CrashRestoresNoResolvedNormal` | include/ocpp/common/message_queue.hpp:793-807 | Nor a normal message, in a run without a leak |
| `Recovery.ReadBackQueuesTwice` | include/ocpp/common/message_queue.hpp:582-615 | Reading the tables back into a queue that is not empty queues every unresolved transaction message a second time |
| `NormalRecovery.RestartsExact` | include/ocpp/common/message_queue.hpp:528-547 | In every run: at each moment a restart would put back exactly the unresolved normal messages that are kept, if and only if no step leaks: no failed send pops a kept message, and no restart stops keeping a message it reads back |
| `NormalRecovery.RestartRestores` | include/ocpp/common/message_queue.hpp:582-633 | After a run without a leak a restart under any configuration puts exactly those messages back, each untried and under its first id |
| `NormalRecovery.NextShadow` | include/ocpp/common/message_queue.hpp:243-268 | Exactly which steps break the shadow of the normal table, which has one row for each unresolved kept normal message and no other |
| `NormalRecovery.PoppedComesBack` | include/ocpp/common/message_queue.hpp:539-547 | A failed send that pops a kept message leaves its row, and a restart puts the message back |
| `Recovery.OnlyTheHeadWasTried` | include/ocpp/common/message_queue.hpp:485-525 | In every reachable state only the first unresolved transaction message can have attempts, another id or another timestamp than when it was made; all others are as their rows say, except for a transaction id that became known |
| `Synchronicity.OneCallAtATime` | include/ocpp/common/message_queue.hpp:426-447 | In every run, over all its boots, between a successful transmission and the next offer to the transport, the first call was answered, refused or timed out, or the station was restarted (section 4.1.1 of the OCPP-J 1.6 specification) |
| `Synchronicity.TransmissionRule` | include/ocpp/common/message_queue.hpp:426-513 | A message reaches the transport only in a worker step with nothing in flight, not paused, not stalled, not before its time and not held back; it is the transaction head or the first allowed normal message, and an allowed head is never passed over for a younger normal message other than a BootNotification |
| `Synchronicity.CsmsAnsweredFirst` | include/ocpp/common/message_queue.hpp:503-513 | In every run, over all its boots, after the latest CALL of the CSMS no queued message with another id goes out before that CALL was answered, a reply was received, the hold was reset or the station was restarted |
| `AnswerFirst.GateAlwaysComplete` | include/ocpp/common/message_queue.hpp:735-753 | In every run, over all its boots, the one-slot gate stands for every unanswered CALL of the current boot all the time, if and only if no CALL arrives while another one is unanswered and no reply or reset while any is |
| `AnswerFirst.AnsweredBeforeSending` | include/ocpp/common/message_queue.hpp:503-513 | In such a run, over all its boots, nothing is sent while a CALL of the CSMS that came since the last restart is unanswered, unless it has the id of that CALL |
| `AnswerFirst.GateCompleteStep` | include/ocpp/common/message_queue.hpp:735-753 | Exactly which steps let the gate go on standing for every unanswered CALL |
| `EarlySend.UntimelySendsEarly` | include/ocpp/common/message_queue.hpp:735-753 | That condition is needed: after a first step against it, a running queue has a continuation in which a message is sent while a CALL is unanswered, if the CSMS uses ids of its own |
| `EarlySend.IncompleteGateSendsEarly` | include/ocpp/common/message_queue.hpp:503-513 | So has every running queue whose gate does not stand for every unanswered CALL |
| `Ledger.ReachedAt` | include/ocpp/common/message_queue.hpp:289-372 | In every reachable state each accepted message is queued, in flight or gone, exactly once, and a wire id under which an attempt has ended belongs to no unresolved message |
| `Ledger.LoadedDistinct` | include/ocpp/common/message_queue.hpp:586-615 | The messages read back at a restart are pairwise distinct, in identity and in wire id |
| `Ledger.UndeliveredPending` | include/ocpp/common/message_queue.hpp:527-548 | A failed send leaves every pending message pending, except that for a message that is not kept the front of the normal queue goes |
| `Delivery.ReachedSound` | include/ocpp/common/message_queue.hpp:515-525 | In every reachable state the history of each message is consistent: one origin, justified endings, attempts not below deliveries, and deliveries within the limit |
| `Guarantees.BoundedDelivery` | include/ocpp/common/message_queue.hpp:820-920 | In every run a kept message reaches the transport at most max(1, N) times per boot, N being the largest limit configured in that boot, and any other message but a BootNotification at most once |
| `Guarantees.Conservation` | include/ocpp/common/message_queue.hpp:786-920 | Within one boot every message it accepted or read back is at any time either unresolved or gone, exactly once |
| `Lifetimes.Conservation` | include/ocpp/common/message_queue.hpp:269-372 | In every run, over all its boots: a transaction message accepted in any of them is unresolved, has departed or was skipped at a restart, exactly one of these and exactly once; so its departures and what is unresolved of it make one if and only if no restart skipped it |
| `Guarantees.TransactionFates` | include/ocpp/common/message_queue.hpp:289-372 | Within one boot a transaction message ends only by an answer, by using up its attempts or, if it is an update, by overflow |
| `Lifetimes.Fates` | include/ocpp/common/message_queue.hpp:582-615 | In every run, over all its boots: what ends a transaction message is an answer, its last attempt, overflow if it is an update, or, if it is a security notification, a restart that ignores those; and it is the message that was accepted, whatever retries and restarts lie between |
| `Lifetimes.CrashSum` | include/ocpp/common/message_queue.hpp:586-615 | A restart leaves of a transaction message exactly what was unresolved, or skips it |
| `Exhausted.GivenUpAfter` | include/ocpp/common/message_queue.hpp:820-861 | In every run, counted within the boot: a message is given up after at least one delivery and as many attempts as the limit, failed sends included; its deliveries reach the limit if and only if no more sends failed than it had attempts beyond the limit |
| `Guarantees.StaleReplyHarmless` | include/ocpp/common/message_queue.hpp:748-778 | In every run, within one boot: a CALLRESULT or CALLERROR for an attempt of this boot that is over changes no queue, table, promise or message in flight; only the answer-first gate is cleared |
| `LateReplies.LateReply` | include/ocpp/common/message_queue.hpp:748-778 | Across a restart: a reply under an id from before it changes nothing but the gate, if and only if the message in flight is not one that was read back with that first id and has not been retried since |
| `Promises.PromisesRight` | include/ocpp/common/message_queue.hpp:698-723 | In every run promises are set at most once, and stay unset while their message is unresolved, if and only if no failed send of a message that is not kept meets a blocked front of the normal queue |
| `Promises.MisfireBreaks` | include/ocpp/common/message_queue.hpp:540-547 | Each such failed send leaves an unresolved message whose promise is set |
| `Promises.NextPromise` | include/ocpp/common/message_queue.hpp:786-817 | Every other step keeps all promises right |
| `Backlog.BacklogBound` | include/ocpp/common/message_queue.hpp:243-308 | In every reachable state, after any number of restarts: with X unresolved transaction messages and threshold T, the unresolved normal messages number at most max(0, T - X) + 1, if no step leaks and no restart lowers the threshold |
| `Backlog.BacklogExact` | include/ocpp/common/message_queue.hpp:582-633 | In every run that bound holds all the time, if and only if it holds of what each restart reads back: no other step can break it |
| `Backlog.NoLeakFits` | include/ocpp/common/message_queue.hpp:582-633 | Without a leak, and with a threshold that is never lowered, every restart does |
| `Backlog.FailBounded` | include/ocpp/common/message_queue.hpp:857-861 | A retry goes to the front of its queue without any size check and still fits that bound |
| `Budget.HandoversBounded` | include/ocpp/common/message_queue.hpp:527-564 | From any reachable state on, the handovers of bounded messages never exceed the budget of that state plus what later pushes, raised limits and restarts grant |
| `Budget.NextBudget` | include/ocpp/common/message_queue.hpp:820-920 | Each step lowers the budget by the handovers it makes and raises it by no more than it grants |
| `Backoff.RetryTimes` | include/ocpp/common/message_queue.hpp:839-845 | With a constant positive interval R, after k retries a queued transaction message is not due before t0 + R * k(k+1)/2, and exactly then if no send failed |
| `Backoff.RetryDelay` | include/ocpp/common/message_queue.hpp:833-851 | The k-th retry delays the message by R * (k + f), f being its failed sends so far, and keeps the bound of all delays |
| `PauseResume.ReachedPausing` | include/ocpp/common/message_queue.hpp:933-962 | In every reachable state the queue is resuming exactly if one pending callback carries the current counter, and only while it is paused |
| `PauseResume.PausedUntilResume` | include/ocpp/common/message_queue.hpp:375-383 | In every run, once paused by pause() or by a failed send, the queue stays paused until a later resume(), whatever older callbacks still fire |
| `PauseResume.NextPausing` | include/ocpp/common/message_queue.hpp:527-528 | Which steps touch the pause flags at all, and how |
| `LateTransactionIds.IdsArrive` | include/ocpp/common/message_queue.hpp:1037-1057 | If the worker does nothing between the answer to a transaction message and the handler, every queued message registered for that start gets the transaction id, nothing else changes and the registration is gone |
| `LateTransactionIds.IdsArriveUnlessRenamed` | include/ocpp/common/message_queue.hpp:834-861 | In any reachable state the handler does that, for what is registered under the id it is called with, if and only if the head of the queue still has the id it was registered under or needs no change; with a transaction message in flight it always does |
| `MeterValueIds.MeterValuesArrive` | include/ocpp/common/message_queue.hpp:1025-1057 | In every run, for every start: when its answer is handled, all queued messages ever registered for it, under whatever id it had, get the transaction id and nothing else changes, if and only if none was registered only before its last retry or the last restart and the head of the queue is recognised |
| `MeterValueIds.EarlyRetriesDoNoHarm` | include/ocpp/common/message_queue.hpp:834-861 | So a start that is not retried after a registration, without a restart after one, serves all of them, if the head of the queue was not renamed |
| `StopIds.StopIdArrives` | include/ocpp/common/message_queue.hpp:515-525 | In every run, restarts and other registrations included: after a transaction id is registered for a stop message, the next offer of that message carries it because of a registration under that id, if and only if the message was waiting under that very id, at the registration or after the last restart since, and the last registration under the id since the last restart was for that transaction |
| `StopIds.OneRegistration` | include/ocpp/common/message_queue.hpp:1020-1023 | So, where that transaction is registered only once under the id: if and only if the message was waiting under the id at the registration and neither a restart nor another registration under the id lies between |
| `Overflow.OverflowOutcome` | include/ocpp/common/message_queue.hpp:289-372 | Overflow handling ends within the threshold, or with no normal message and no update before the last two transaction messages; the newest normal messages survive, transaction messages keep their order and go only when no normal message is left, and if normal messages survive at most one batch too many went |
| `Overflow.DropNormalsExact` | include/ocpp/common/message_queue.hpp:298-330 | The first phase drops only the oldest normal messages, in batches of a tenth of the threshold and at least one |
| `Overflow.DropUpdatesExact` | include/ocpp/common/message_queue.hpp:304-372 | The second phase ends within the threshold or with nothing left to drop, and keeps a subsequence |
| `Overflow.MaskRule` | include/ocpp/common/message_queue.hpp:341-362 | A pass drops a message exactly if it is an update, not one of the last two, and its predecessor was kept |
| `Overflow.PassKeepsUnmasked` | include/ocpp/common/message_queue.hpp:338-364 | What a pass leaves is exactly what that rule spares, in order |
| `Overflow.PassShrinks` | include/ocpp/common/message_queue.hpp:366-371 | A pass reports success exactly if an update stood before the last two messages |
| `QueueSpec.QuietStep` | include/ocpp/common/message_queue.hpp:933-1035 | The steps that are not about messages change no queue, no table and no message in flight |
| `Witnesses.BootLostPromiseSetTwice` | include/ocpp/common/message_queue.hpp:540-547 | A run in which a failed send removes a waiting BootNotification whose promise is never set, and the promise of another message is set twice |
| `Witnesses.SentBeforeAnswering` | include/ocpp/common/message_queue.hpp:735-745 | A run in which a CALL goes out although an earlier CALL of the CSMS has not been answered |
| `Witnesses.MeterValueMissesItsTransaction` | lib/ocpp/v16/charge_point_impl.cpp:246-258 | A run in which a meter value never gets its transaction id, because its StartTransaction was renamed by a retry |
| `Witnesses.MeterValueIsStranded` | lib/ocpp/v16/charge_point_impl.cpp:246-258 | That run in the terms of `MeterValueIds`: the meter value is registered for the start, but not under the id that is answered |
| `RestartWitnesses.DroppedMessagesComeBack` | include/ocpp/common/message_queue.hpp:539-547 | A run in which failed Heartbeats pop two waiting BootNotifications whose rows stay: a restart brings both back, and the bound on the backlog fails |
| `RestartWitnesses.LateReplyIsTakenUp` | include/ocpp/common/message_queue.hpp:748-778 | A run in which a late reply for an attempt before a restart resolves, or retries, the message that is in flight again under the same id |
| `RestartWitnesses.GivenUpAfterOneDelivery` | include/ocpp/common/message_queue.hpp:515-528 | A run in which a message with two attempts is given up after one delivery |
| `RestartWitnesses.RestartForgetsTheTransaction` | include/ocpp/common/message_queue.hpp:515-525 | A run in which a stop message waits under the id its transaction is registered under, and goes out without it after a restart |
| `RestartWitnesses.AlarmIsSkipped` | include/ocpp/common/message_queue.hpp:589-601 | A run in which a restart that ignores security notifications leaves nothing of a queued one |
| `MessageQueue.MessageQueue.constructor` | include/ocpp/common/message_queue.hpp:393-410 | A new queue is empty, paused and unregistered |
| `MessageQueue.MessageQueue.CheckQueueSizes` | include/ocpp/common/message_queue.hpp:289-308 | The loops do what the state machine calls overflow handling |
| `MessageQueue.MessageQueue.DropMessagesFromNormalQueue` | include/ocpp/common/message_queue.hpp:310-330 | One batch of the oldest normal messages goes, with their rows |
| `MessageQueue.MessageQueue.DropUpdateMessagesFromTransactionQueue` | include/ocpp/common/message_queue.hpp:338-372 | The pass through a second deque leaves what the pass of the state machine leaves, and returns whether it shrank the queue |
| `MessageQueue.MessageQueue.Sift` | include/ocpp/common/message_queue.hpp:342-362 | One round of that pass: the front is dropped with its row, or kept |
| `MessageQueue.MessageQueue.AddToTransactionMessageQueue` | include/ocpp/common/message_queue.hpp:269-287 | Queued at the back, persisted, then overflow |
| `MessageQueue.MessageQueue.AddToNormalMessageQueue` | include/ocpp/common/message_queue.hpp:243-268 | Queued at the back or, for a BootNotification, at the front, persisted if it is kept, then overflow |
| `MessageQueue.MessageQueue.PushCall` | include/ocpp/common/message_queue.hpp:635-657 | Refines the push step |
| `MessageQueue.MessageQueue.PushCallAsync` | include/ocpp/common/message_queue.hpp:698-723 | Refines the asynchronous push step, and tells whether the promise was set at once |
| `MessageQueue.MessageQueue.PushReply` | include/ocpp/common/message_queue.hpp:660-694 | Answering the CALL the gate waits for opens the gate |
| `MessageQueue.MessageQueue.ReceiveCall` | include/ocpp/common/message_queue.hpp:735-745 | Refines the arrival of a CALL |
| `MessageQueue.MessageQueue.ReceiveCallResult` | include/ocpp/common/message_queue.hpp:748-776 | Refines the arrival of a CALLRESULT, expected or not |
| `MessageQueue.MessageQueue.ReceiveCallError` | include/ocpp/common/message_queue.hpp:748-776 | Refines the arrival of a CALLERROR, expected or not |
| `MessageQueue.MessageQueue.HandleCallResult` | include/ocpp/common/message_queue.hpp:786-817 | The message in flight is resolved and leaves its table |
| `MessageQueue.MessageQueue.HandleTimeoutOrCallError` | include/ocpp/common/message_queue.hpp:820-920 | The message in flight is retried, given up or dropped, as its kind and attempts demand |
| `MessageQueue.MessageQueue.Renew` | include/ocpp/common/message_queue.hpp:836-851 | The shared message gets its new id and time in place |
| `MessageQueue.MessageQueue.FindFirstAllowed` | include/ocpp/common/message_queue.hpp:454-464 | The first normal message that may be sent |
| `MessageQueue.MessageQueue.SelectMessage` | include/ocpp/common/message_queue.hpp:449-501 | The loop selects what the state machine selects |
| `MessageQueue.MessageQueue.PrepareMessage` | include/ocpp/common/message_queue.hpp:517-525 | The attempt is counted and a transaction id filled in while the message is still queued |
| `MessageQueue.MessageQueue.Deliver` | include/ocpp/common/message_queue.hpp:549-564 | An accepted message leaves its queue and is in flight |
| `MessageQueue.MessageQueue.Keep` | include/ocpp/common/message_queue.hpp:530-538 | A refused message that is kept stays where it is |
| `MessageQueue.MessageQueue.PopFront` | include/ocpp/common/message_queue.hpp:539-547 | For any other refused message the front of the normal queue goes |
| `MessageQueue.MessageQueue.AttemptSend` | include/ocpp/common/message_queue.hpp:515-567 | One call of the transport with all flags that depend on its answer |
| `MessageQueue.MessageQueue.PassOverQueues` | include/ocpp/common/message_queue.hpp:432-568 | One pass over the queues, with its early exits, selection, hold and attempt |
| `MessageQueue.MessageQueue.WorkerIteration` | include/ocpp/common/message_queue.hpp:429-568 | One iteration of the worker loop is the worker step of the state machine, on every path through it, with the end of the thread after a stop |
| `MessageQueue.MessageQueue.Pause` | include/ocpp/common/message_queue.hpp:933-942 | Refines pausing |
| `MessageQueue.MessageQueue.Resume` | include/ocpp/common/message_queue.hpp:945-962 | Refines resuming, at once or later |
| `MessageQueue.MessageQueue.ResumeQueueNow` | include/ocpp/common/message_queue.hpp:375-383 | Only the current counter unpauses |
| `MessageQueue.MessageQueue.ResumeTimerFires` | include/ocpp/common/message_queue.hpp:956-958 | Refines the resume callback |
| `MessageQueue.MessageQueue.AddMeterValueMessageId` | include/ocpp/common/message_queue.hpp:1025-1035 | The id is appended to the list of its start |
| `MessageQueue.MessageQueue.SubstituteIn` | include/ocpp/common/message_queue.hpp:1046-1053 | The inner loop changes the message exactly if its id is listed |
| `MessageQueue.MessageQueue.NotifyStartTransactionHandled` | include/ocpp/common/message_queue.hpp:1037-1057 | Refines the handling of a StartTransaction response |
| `MessageQueue.MessageQueue.GetPersistedMessages` | include/ocpp/common/message_queue.hpp:582-633 | Both tables are read back behind whatever the queues hold, ignored rows deleted, and without queueing of all messages the table of normal messages emptied |
| `MessageQueue.MessageQueue.LoadTable` | include/ocpp/common/message_queue.hpp:586-617 | One table: the rows that are not ignored are queued in order, the others deleted |
| `MessageQueue.MessageQueue.Restart` | include/ocpp/common/message_queue.hpp:393-633 | A new queue over the tables is the boot state of the state machine |
| `MessageQueue.MessageQueue.AddStoppedTransactionId` | include/ocpp/common/message_queue.hpp:1020-1023 | The transaction id is remembered for the message |
| `MessageQueue.MessageQueue.SetRegistrationStatusAccepted` | include/ocpp/common/message_queue.hpp:964-970 | Refines the acceptance by the CSMS: the hold on stalled messages is lifted for good |
| `MessageQueue.MessageQueue.ResetNextMessageToSend` | include/ocpp/common/message_queue.hpp:576-579 | Refines the reset of the answer-first gate; no message is touched |
| `MessageQueue.MessageQueue.NotifyQueueTimer` | include/ocpp/common/message_queue.hpp:866-871 | Refines the callback that lets the worker look again when a retry is due |
| `MessageQueue.MessageQueue.UpdateTransactionMessageAttempts` | include/ocpp/common/message_queue.hpp:1004-1006 | Refines a new limit on attempts: from now on a message that is kept is retried exactly while it has fewer attempts than that, whatever the limit was when it was queued |
| `MessageQueue.MessageQueue.UpdateTransactionMessageRetryInterval` | include/ocpp/common/message_queue.hpp:1009-1011 | Refines a new retry interval: from now on every retry of a message that is kept is delayed by that interval times its attempts, or not at all if it is not positive |
| `Base64.DecodeOfEncode` | 3rd_party/websocketpp_utils/base64.hpp:65-170 | decode(encode(x)) = x for every byte string |
| `Base64.EncodeOfDecode` | 3rd_party/websocketpp_utils/base64.hpp:65-170 | encode(decode(s)) = s if and only if s is canonical: whole groups of four, at most two paddings, no bits after the last byte |
| `Base64.EncodedLength` | 3rd_party/websocketpp_utils/base64.hpp:65-107 | Four characters per three bytes, rounded up |
| `Base64.EncodedPadding` | 3rd_party/websocketpp_utils/base64.hpp:91-107 | As many '=' as bytes are missing in the last group, after letters only |
| `Base64.EncodedBit` | 3rd_party/websocketpp_utils/base64.hpp:65-107 | Section 4 of RFC 4648: bit n of the letters is bit n of the bytes, followed by zeros up to a whole letter |
| `Base64.DecodedBit` | 3rd_party/websocketpp_utils/base64.hpp:123-170 | Bit n of the decoded bytes is bit n of the six-bit groups of the letters |
| `Base64.DecodedPrefix` | 3rd_party/websocketpp_utils/base64.hpp:132-167 | Decoding depends on the longest prefix of k letters alone and yields 3k/4 bytes, rounded down, whatever a failed find leaves in the unused slots |
| `Base64.LettersAreSextets` | 3rd_party/websocketpp_utils/base64.hpp:43-57 | Every six-bit value has a letter, which is_base64 accepts and which stands for that value |
| `Base64.SextetsAreLetters` | 3rd_party/websocketpp_utils/base64.hpp:43-57 | Every character is_base64 accepts is the letter of its value |
| `Base64.Base64Encode` | 3rd_party/websocketpp_utils/base64.hpp:65-107 | The loops over the two buffers compute the specified encoding |
| `Base64.Base64Decode` | 3rd_party/websocketpp_utils/base64.hpp:123-170 | The loops over the two buffers compute the specified decoding |
| `Base64.FindSextet` | 3rd_party/websocketpp_utils/base64.hpp:136-137 | The lookup of a letter never fails |
| `Bytes.BytesReturn` | 3rd_party/websocketpp_utils/base64.hpp:74-81 | Splitting three bytes into four sextets loses nothing |
| `Bytes.SextetsReturn` | 3rd_party/websocketpp_utils/base64.hpp:140-142 | Joining four sextets into three bytes loses nothing |
| `Uri.ParseOfStr` | 3rd_party/websocketpp_utils/uri.hpp:255-266 | Parsing a printed URI returns every field, for the four schemes, a plain host, a port of 1 to 65535 and a resource that begins with a slash |
| `Uri.StrIsStable` | 3rd_party/websocketpp_utils/uri.hpp:48-159 | For every string that parses as valid, printing and parsing it again returns the same if and only if its host is plain, which every host without brackets is |
| `Uri.OnlyPlainHosts` | 3rd_party/websocketpp_utils/uri.hpp:81-135 | A host that is not plain is not found again |
| `Uri.ParsedIsWellFormed` | 3rd_party/websocketpp_utils/uri.hpp:48-159 | A valid parse has a known scheme with its security, a port of 1 to 65535 and a resource that begins with a slash |
| `Uri.ParseUri` | 3rd_party/websocketpp_utils/uri.hpp:48-159 | The state loops compute the specified parse, for every string, including the cases in which no number can be read |
| `Uri.ReadHost` | 3rd_party/websocketpp_utils/uri.hpp:117-135 | The host loop stops at the first slash or colon |
| `Uri.ReadPort` | 3rd_party/websocketpp_utils/uri.hpp:137-153 | The port loop stops at the first slash |
| `Uri.GetPortFromString` | 3rd_party/websocketpp_utils/uri.hpp:284-301 | An empty port is the default one; any other is read, judged and cut to sixteen bits |
| `Numbers.NumberOfDecimal` | 3rd_party/websocketpp_utils/uri.hpp:261-261 | The decimal text of a number denotes that number |
| `Uri.StoulOfDecimal` | 3rd_party/websocketpp_utils/uri.hpp:290-290 | std::stoul reads back what was printed |
| `TransactionData.PassExact` | lib/ocpp/v16/utils.cpp:18-20 | One pass over n entries leaves n - n/3 of them: all but the original indices 1, 4, 7, ... before the last one, in order |
| `TransactionData.OriginsAreKept` | lib/ocpp/v16/utils.cpp:18-20 | The kept indices are strictly increasing, start with the first, end with the last and contain none that is dropped |
| `TransactionData.KeptHasPlace` | lib/ocpp/v16/utils.cpp:18-20 | Every index that is not dropped is kept |
| `TransactionData.ThinnedWhileTooLong` | lib/ocpp/v16/utils.cpp:15-22 | For any size function: the result is an iterate of the pass, it fits or has at most two entries, and every earlier iterate was too long |
| `TransactionData.ThinnedKeepsEnds` | lib/ocpp/v16/utils.cpp:15-22 | The result is a subsequence with the same first and last entry, and at least two entries stay of two or more |
| `TransactionData.StopTransactionCall.DropTransactionData` | lib/ocpp/v16/utils.cpp:15-22 | The nested loops that erase in place compute that result and terminate |
| `LogRotation.ArchivesAreLatest` | lib/ocpp/common/ocpp_logging.cpp:198-263 | With numeric suffixes, after i rotations from none the archives are exactly the latest contents, newest at .0, as many as fit beside the current log; for every i if the maximum is 1 to 11, otherwise up to i = 11 |
| `LogRotation.SafeRuns` | lib/ocpp/common/ocpp_logging.cpp:211-254 | No rename overwrites a file and only the highest number is deleted, throughout a run, if and only if the run has no twelfth rotation or the maximum is 1 to 11 |
| `LogRotation.TwelfthIsUnsafe` | lib/ocpp/common/ocpp_logging.cpp:211-251 | With eleven archives and a maximum of 12 or more, or none, the next rotation deletes the wrong file or overwrites one |
| `LogRotation.RotationKeeps` | lib/ocpp/common/ocpp_logging.cpp:213-261 | One rotation with up to ten archives |
| `LogRotation.ShiftAll` | lib/ocpp/common/ocpp_logging.cpp:222-261 | The renames move every content up by one without finding a name taken |
| `LogRotation.NamesAreListed` | lib/ocpp/common/ocpp_logging.cpp:200-211 | Up to ten archives are sorted by number |
| `LogRotation.DatedArchives` | lib/ocpp/common/ocpp_logging.cpp:213-227 | With dates as suffixes, once there is no room the earliest logs stay for ever and only the last place is used again; of logs rotated in the same second only the last is kept |
| `LogRotation.OtherFilesStay` | lib/ocpp/common/ocpp_logging.cpp:204-209 | A rotation touches no file of another log |
| `LogRotation.MessageLogging.ListFiles` | lib/ocpp/common/ocpp_logging.cpp:201-211 | In whatever order the directory is visited, the files of the log come out sorted |
| `LogRotation.MessageLogging.RotateLog` | lib/ocpp/common/ocpp_logging.cpp:198-263 | The loop over the sorted files computes the specified rotation and its status |
| `LogRotation.MessageLogging.RotateLogIfNeeded` | lib/ocpp/common/ocpp_logging.cpp:269-297 | Nothing happens below the maximum size; otherwise the log is closed, rotated and opened again |
| `LogRotation.MessageLogging.RenameLog` | lib/ocpp/common/ocpp_logging.cpp:223-260 | One file gets its next name, or keeps its name if no number can be read |
| `AlignedTimer.NextIsFirst` | include/ocpp/common/aligned_timer.hpp:22-41 | After the start the result is an instant of the schedule, later than now by at most one interval, with no instant of the schedule in between; up to the start it is the start |
| `AlignedTimer.NextIsAligned` | include/ocpp/common/aligned_timer.hpp:29-33 | Truncating the clock to whole seconds loses nothing |
| `AlignedTimer.ScheduleIncreases` | include/ocpp/common/aligned_timer.hpp:48-51 | If no firing comes early, the scheduled instants strictly increase if and only if no firing reads exactly the start instant |
| `AlignedTimer.NoInstantSkipped` | include/ocpp/common/aligned_timer.hpp:48-51 | A firing is followed by the very next instant if and only if it came less than an interval late and not at the start instant |
| `AlignedTimer.ClockAlignedTimer.GetNextTimepoint` | include/ocpp/common/aligned_timer.hpp:22-41 | Computes the specified instant |
| `AlignedTimer.ClockAlignedTimer.CallNext` | include/ocpp/common/aligned_timer.hpp:43-56 | Arms the timer, or returns the epoch and leaves the timer as it was when there is no callback or no interval |
| `AlignedTimer.ClockAlignedTimer.IntervalStartingFrom` | include/ocpp/common/aligned_timer.hpp:77-83 | A new start and interval take effect at once |
| `AlignedTimer.ClockAlignedTimer.SetInterval` | include/ocpp/common/aligned_timer.hpp:86-89 | A new interval takes effect at once; an interval of zero does not disarm the timer |
| `AlignedTimer.ClockAlignedTimer.Fire` | include/ocpp/common/aligned_timer.hpp:29-51 | The timer arms itself again, strictly later unless the clock reads the start; after the interval was set to zero it divides by zero instead |

## Left out

- Websocket transport, JSON, SQLite and its exceptions, file-system errors, log streams and HTML text: the transport is a flag, the tables are sequences scanned in insertion order that never fail, the directory is a map.
- The contents of messages beyond the type, the id, the transaction id and the offline flag; ids are numbers compared for equality.
- Threads, mutexes, condition variables and timers: a body that holds `message_mutex` is one step, which includes the moment at `message_queue.hpp:771-772` at which the lock is given up. That the worker is ever woken is not stated.
- The in-flight slot while the transport is being called (`message_queue.hpp:517-527`): the slot of the model is set once the transport has taken the message, so a callback that looks at the queue during the call is not modelled.
- Message timeouts (`current_message_timeout`, `update_message_timeout`): a timeout may happen at any time while a message is in flight.
- Machine integers: attempts, timestamps, intervals and the pause counter are unbounded, and a timestamp is stored without loss of precision.
- What external_notify delays: a step of the worker may come at any time after an answer.
- `get_message_transmission_priority`, the queries `contains_*` and `is_transaction_message_queue_empty`, and the charge-point logic above the queue.
- Counts of deliveries and attempts are per boot: those before a restart are not added to those after it.
- Reading the tables back at any other time than at a boot: the method is modelled for any queue, but no run of the state machine takes it as a step of its own.
- Backoff.RetryTimes: for a retry interval that stays constant, which is what the promised time refers to.
- MessageQueue.MessageQueue.ReceiveCall: the parsed CALL itself, which is returned to the caller, is not modelled.
- Uri: the constructors that take fields, `get_query` and the other getters; ports are read as std::stoul does in the default locale.
- TransactionData.StopTransactionCall.DropTransactionData: the list is present, as its callers see to; an absent one makes the source throw.
- LogRotation: renames that fail, and a suffix of 2147483647, whose successor is not defined in the source.
- AlignedTimer.NextIsFirst: for positive intervals; for a negative one only the arithmetic of the source is kept (`NextTimepoint`).
