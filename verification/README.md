# Verified model of the C++ threading utilities

A publisher thread pushes messages down lock-free pipes to subscribers. A subscriber may poll its
pipe, block on it, have new messages forwarded, or arm a trigger that fires when there is something
to read. A worker thread drains subscribers by arming triggers that post jobs to itself. A keyed
publisher turns updates of a data set into NEW, UPDATE and DELETE notices. This project models that
code and proves what it keeps, for all inputs and all interleavings.

## How the project is laid out

| file | what it holds |
|---|---|
| `NotifyModel.dfy` | the notification protocol of `PipeSubscriber` as a machine of atomic steps: every load, compare-exchange, push, pop, `empty()` test, slot write and condition-variable operation of either thread is one step, and every `throw` is a state |
| `NotifyInvariant.dfy` | which thread may be where, in each of the twelve values of `notifyState`: the inductive invariant |
| `NotifySafety.dfy`, `NotifyProvisos.dfy`, `NotifyWitness.dfy` | which throws can be reached, exactly when, and runs that reach them |
| `NotifyOwnership.dfy`, `NotifyLedger.dfy`, `NotifyDelivery.dfy`, `NotifyTargets.dfy` | slot ownership and progress; what becomes of every trigger; no lost message or notification; triggers with a target |
| `NotifyReplacement.dfy`, `NotifyRest.dfy` | exactly which triggers are replaced; exactly when messages are unread at rest |
| `NotifyRearm.dfy` | clients that arm a trigger only after the last has fired |
| `WaitForMessage.dfy`, `WaitExactly.dfy`, `WaitWitness.dfy` | the blocking read as a program over the protocol, and exactly when its answer misleads |
| `WaitRefines.dfy` | how a call of the class's `WaitForMessage` is a run of that program |
| `PipeSubscriber.dfy` | the class itself: the fields changed in place, the six compare-exchange loops and the calls between them, each proved to take the machine's steps |
| `ConsumerState.dfy`, `MessageForwarding.dfy` | `Done` against `Abort`; the switch from queueing to forwarding |
| `WorkerThread.dfy` | the job list with promises, sleep and wake: the critical sections, all their interleavings, and the class |
| `HandleUpdates.dfy`, `Composition.dfy` | sliced consumption on a worker, and the two state machines side by side |
| `AggPipePub.dfy` | the keyed publisher, its two-map merge, and what a client makes of the stream |
| `PipePublisher.dfy` | fan-out, removal while iterating, batches |
| `Wrappers.dfy` | `Option` |

`Exec`, `RunAll` and `Run` fold a sequence of actions, so a lemma about them is about every run.
A class has a value `Now()` and its methods say what that value becomes; the lemmas are about the
value. What other threads do between two atomic operations of a method is a parameter, `schedule`,
that the method's contract holds for whatever it is. Loops that would wait for ever end when the
schedule has been used up.

## What the source promises and the code does not do

* A `ThreadingViolation` marks a combination of state and thread that its message says cannot
  happen. Three of them can: a trigger that installs another from inside its own pull
  (include/PipeSubscriber.hpp:342-346, 533-534); a publisher that starts another `PushComplete`
  before a client it has released gets going (101-105, 336-337); a spurious wake-up (325-329).
  `DoomedIffProvisoBroken` says that these are the only ways, and that each of them is fatal;
  `DoomedIffBroken` says it of where the two threads are when they act, and not of what they find.
* `WaitForWake` has no predicate, so a notification sent before the wait begins is missed and the
  client hangs (636-645): `NotifyReachesOnlyAWaiter`, `EarlyNotifyIsMissed`, `MissedWakeHangs`.
* `WaitForMessage` is documented to block until there is a message or the publisher is done. It may
  return false although neither holds, or although there is a message (741-769).
  `FalseMeansDoneExactly`: a call can return false before Done if and only if it began with an empty
  queue, before Done, and with the publisher in a `PushComplete` that could still fire a trigger.
  `UnreadCallsExactly`: a call can return false over a message if and only if it began with an empty
  queue, before Done, and the queue has room for one. `UnreadExactly` says how that happens: a push
  and Done both fall between the call's second look at the queue and its return.
  `FalseThoughNotDone` and `FalseThoughUnread` are runs. A client that has aborted before it arms its
  trigger blocks for ever: its trigger is never numbered, so never called (`AbortedNeverNotified`).
* `OnNextMessage` is documented to call its function exactly once. At most once holds
  (`OneStatusPerTrigger`), but a trigger replaced by a later one is never called:
  `ReplacedTriggerIsNeverCalled`. `ReplacedExactly` says which are replaced; `RearmingReplacesNone`
  and `InstallOverUnfired` say it in terms of what the caller does.
* The PUB_RECONFIGURING case of `NotifyConfigured` makes a trigger live over messages that were
  notified but not read (429-434): `ReconfiguringLeavesMessagesUnread`. `NoLostNotification` is
  stated so as to be true of it. `UnreadAtRestExactly`: with a trigger armed and nothing under way,
  messages are unread if and only if that case armed it over them.
* `forwardMessage` is tested before the lock is taken (684-689), so order across the switch to
  forwarding holds exactly when no message is forwarded past a queued one:
  `OrderedIffNoneOvertook`, `SerialRunsConserve`, `ForwardedPastAQueuedMessage`. From a given state
  order can go wrong if and only if a message is queued, or about to be, while forwarding is on, or
  forwarding may still be turned on: `DisorderExactly`.
* Clients of the keyed publisher always see the ids of its store (`EveryClientTracks`). They see its
  messages in every run exactly when the equality of messages is sound, as an equivalence is:
  `ConvergesIffSound`.
* The ABORTED consumer state is declared and tested for, but never assigned; the model has the three
  states that occur.

## Model

| member | source | states |
|---|---|---|
| `NotifyInvariant.ExecKeeps` | include/PipeSubscriber.hpp:75-634 | in every interleaving of one publisher and one client thread, each value of notifyState allows only certain positions of the two threads, each thread's currentState was legal when read, and a slot about to be used is filled |
| `NotifySafety.OnlyThreeThrows` | include/PipeSubscriber.hpp:325-346 | with no assumption about the callers, the publisher is never thrown a ThreadingViolation, and the client only at SUB_WAKEUP_REQUIRED and PULL_REQUIRED of NotifyRequested and RECONFIGURE_REQUIRED of NotifyPendingConfigured |
| `NotifySafety.CalmRunsNeverThrow` | include/PipeSubscriber.hpp:75-634 | without spurious wake-ups, installs from inside a pull, or a PushComplete during a hand-off, no throw at all is reached |
| `NotifySafety.DoomedIffProvisoBroken` | include/PipeSubscriber.hpp:101-105 | in every run the client is bound to throw if and only if one of those three things has happened |
| `NotifyProvisos.DoomedIffBroken` | include/PipeSubscriber.hpp:269-376 | in every run that is so if and only if the publisher exchanged CONFIGURING for PULL_REQUIRED before a released client went on, a client woken spuriously made its exchange while the publisher was still reconfiguring, or a trigger installed another inside its pull |
| `NotifySafety.DoomedClientThrows` | include/PipeSubscriber.hpp:269-376 | a client bound to throw is inside a call, every step of its own brings the throw nearer, and nothing the publisher does puts it off |
| `NotifySafety.NotifyReachesOnlyAWaiter` | include/PipeSubscriber.hpp:636-645 | the publisher's notify_one releases the parked client if it already waits, and is missed exactly if it is still about to wait |
| `NotifySafety.MissedWakeHangs` | include/PipeSubscriber.hpp:642-645 | once the wake-up is missed the client stays blocked in every continuation without a spurious wake-up |
| `NotifyWitness.RearmInPullThrows` | include/PipeSubscriber.hpp:342-346 | a run in which a trigger called by a pull installs another and its client is thrown RECONFIGURE_REQUIRED |
| `NotifyWitness.OvertakenHandoffThrows` | include/PipeSubscriber.hpp:101-105 | a run in which a second PushComplete overtakes a released client, which then throws on PULL_REQUIRED |
| `NotifyWitness.SpuriousWakeThrows` | include/PipeSubscriber.hpp:325-329 | a run in which a spurious wake-up makes the client throw on SUB_WAKEUP_REQUIRED |
| `NotifyWitness.EarlyNotifyIsMissed` | include/PipeSubscriber.hpp:642-645 | a run in which the notification comes before the wait and the client is left waiting |
| `NotifyWitness.ReconfiguringLeavesMessagesUnread` | include/PipeSubscriber.hpp:429-434 | a run that ends with a live trigger, both threads idle and a message unread |
| `NotifyWitness.ReplacedTriggerIsNeverCalled` | include/PipeSubscriber.h:159-168 | a run in which a trigger is replaced by a second one, and a push then calls only the second |
| `NotifyOwnership.SlotsNeverShared` | include/PipeSubscriber.hpp:647-677 | in every run notifyState and the two positions entitle at most one thread to the live slot and at most one to the pending slot, and only that thread touches it |
| `NotifyOwnership.FailuresPaidBySuccesses` | include/PipeSubscriber.hpp:154-158 | between any two points of a run without spurious wake-ups one thread's compare-exchanges fail no more often than the other's succeed, up to the one it was about to lose |
| `NotifyOwnership.FailuresBounded` | include/PipeSubscriber.hpp:356-366 | from construction on, failed compare-exchanges of one thread never outnumber the successful ones of the other, so every loop ends once the other thread stops changing the state |
| `NotifyLedger.OneStatusPerTrigger` | include/PipeSubscriber.hpp:791-813 | every trigger given to OnNextMessage is at all times in exactly one of the statuses installing, pending, live, fired, replaced, and fires at most once |
| `NotifyLedger.ReplacedNeverFires` | include/PipeSubscriber.hpp:648-677 | a replaced trigger never fires and a fired one is never armed again, however the run goes on |
| `NotifyLedger.AbortedNeverNotified` | include/PipeSubscriber.hpp:794-796 | once the client has aborted no trigger is issued, and the one it would have installed next never fires, however the run goes on |
| `NotifyLedger.RunAccounted` | include/PipeSubscriber.hpp:791-813 | the places a trigger is in and the times it fired or was replaced always add up to one |
| `NotifyReplacement.ReplacedExactly` | include/PipeSubscriber.hpp:797-811 | in every run a trigger is replaced if and only if the client at some point wrote another over it in the live or the pending slot; the publisher replaces none |
| `NotifyReplacement.LatestKept` | include/PipeSubscriber.hpp:797-811 | the trigger given to OnNextMessage last is never among the replaced |
| `NotifyReplacement.RearmingReplacesNone` | include/WorkerThread.h:237-257 | a client that arms only after its last trigger has fired, and never inside a pull, has none replaced |
| `NotifyReplacement.InstallOverUnfired` | include/PipeSubscriber.hpp:269-323 | a client that installs while its trigger is live and unfired, or pending, replaces that trigger with its third step unless the publisher gets in first |
| `NotifyDelivery.NoLostNotification` | include/PipeSubscriber.hpp:84-159 | in every run messages come out in order without loss; at rest in NOTHING_TO_NOTIFY with no PushComplete owed every unread message was pushed before a trigger last fired, and none is unread if none has fired |
| `NotifyDelivery.RunDelivers` | include/PipeSubscriber.hpp:393-434 | the invariant behind it: a notification not yet given is owed by a thread that has still to look |
| `NotifyRest.UnreadAtRestExactly` | include/PipeSubscriber.hpp:393-434 | at rest with a live trigger and no PushComplete owed: if the client armed it, nothing is unread; if the publisher did, nothing was pushed since; messages are unread if and only if the publisher armed it over messages that have not been read since |
| `NotifyRest.WhoGoesToRest` | include/PipeSubscriber.hpp:393-434 | only two exchanges put the protocol to rest: the publisher's from PUB_RECONFIGURING, and the client's from CONFIGURING after it has found the queue empty |
| `NotifyTargets.TargetsAreHonoured` | include/PipeSubscriber.hpp:655-677 | if every trigger is given a target, then in every run the target goes live with its trigger and no trigger is called on the stack of the thread that fires it |
| `NotifyRearm.RearmingClientsAreSafe` | include/WorkerThread.h:237-257 | a client that arms only after its last trigger has fired, and never inside a pull, reaches no throw, never waits for the publisher and never leaves a trigger pending inside a pull, with or without batches |
| `WaitForMessage.WaitsOnlyForNews` | include/PipeSubscriber.hpp:741-769 | a client blocked on an unset promise with the publisher idle has its trigger live, an empty queue and a publisher not done; with data or Done there, the publisher is inside the operation that sets the promise; SUB_WAKEUP_REQUIRED and throws do not occur |
| `WaitForMessage.NextNewsSetsPromise` | include/PipeSubscriber.hpp:719-727 | from there the next push, or Done, sets the promise within four steps of the publisher |
| `WaitExactly.FalseMeansDone` | include/PipeSubscriber.h:145-158 | a call that begins with a message to read, after Done, or with the publisher not in a PushComplete that could fire a trigger armed from now on, returns false only once the publisher is done, however the run goes on |
| `WaitExactly.LateNotifyMisleads` | include/PipeSubscriber.hpp:755-766 | from every other start some continuation of the call returns false while the publisher is not done |
| `WaitExactly.FalseMeansDoneExactly` | include/PipeSubscriber.hpp:741-769 | so a call can return false before Done if and only if it begins that way |
| `WaitExactly.UnreadExactly` | include/PipeSubscriber.hpp:758-760 | a call returns false over an unread message if and only if its second look at the queue came before Done and both a push and Done fell between that look and the return |
| `WaitExactly.UnreadCallsExactly` | include/PipeSubscriber.hpp:741-769 | some continuation of a call returns false over an unread message if and only if the call begins with an empty queue, before Done, and with a queue that can hold a message |
| `WaitExactly.DoneCallsReadAll` | include/PipeSubscriber.hpp:746-749 | a call begun after Done returns false only over an empty queue |
| `WaitRefines.ObjectReturnsFalse` | include/PipeSubscriber.hpp:740-769 | the two conditions hold of the object: a call of the class that returns false, with a publisher that does not batch, does so after Done unless it began where a late notification can mislead it, and over an empty queue unless it began with an empty queue, before Done, and with room |
| `WaitWitness.FalseThoughNotDone` | include/PipeSubscriber.hpp:763-766 | a run in which WaitForMessage returns false although the publisher is not done |
| `WaitWitness.FalseThoughUnread` | include/PipeSubscriber.hpp:758-760 | a run in which it returns false although a message is waiting |
| `PipeSubscribers.PipeSubscriber.constructor` | include/PipeSubscriber.hpp:48-65 | an initial state of the machine, holding the initial data |
| `PipeSubscribers.PipeSubscriber.PushComplete` | include/PipeSubscriber.hpp:75-170 | whatever the client does meanwhile, the loop takes the machine's steps from its first load to its return or throw, and ends; the whole state is the one after the actions performed |
| `PipeSubscribers.PipeSubscriber.PublishNextMessage` | include/PipeSubscriber.hpp:655-665 | the same from the test of the target to the end of PublishComplete |
| `PipeSubscribers.PipeSubscriber.PublishComplete` | include/PipeSubscriber.hpp:172-267 | the same for PublishComplete, with the reconfiguration it may have to do |
| `PipeSubscribers.PipeSubscriber.NotifyRequested` | include/PipeSubscriber.hpp:269-376 | the same; returns whether the live or the pending slot is the client's, or that it throws, or that it is blocked with nobody left to wake it |
| `PipeSubscribers.PipeSubscriber.WaitForWake` | include/PipeSubscriber.hpp:642-645 | returns only if something elsewhere has ended the wait; otherwise the client is still waiting when nothing more happens |
| `PipeSubscribers.PipeSubscriber.NotifyConfigured` | include/PipeSubscriber.hpp:378-486 | the same for either thread, with the empty() test before the exchange |
| `PipeSubscribers.PipeSubscriber.NotifyPendingConfigured` | include/PipeSubscriber.hpp:488-559 | the same |
| `PipeSubscribers.PipeSubscriber.ConfigurePendingNotify` | include/PipeSubscriber.hpp:647-653 | the same for the three slot writes and NotifyConfigured |
| `PipeSubscribers.PipeSubscriber.PullNextMessage` | include/PipeSubscriber.hpp:667-677 | the same, with triggers that pop, abort and install others |
| `PipeSubscribers.PipeSubscriber.PullComplete` | include/PipeSubscriber.hpp:561-634 | the same, reconfiguring inside the loop |
| `PipeSubscribers.PipeSubscriber.OnNextMessage` | include/PipeSubscriber.hpp:790-813 | the first thing it does is issue a trigger, and on return that trigger is pending, live or fired, or was replaced by one installed since; it returns to where it was called; called from outside a trigger it throws if and only if one of the three provisos has been broken; after an abort it does nothing |
| `PipeSubscribers.PipeSubscriber.PushMessage` | include/PipeSubscriber.hpp:679-703 | the first thing it does is push exactly this message, and then, unless a batch is open, it sees the notification through to its end, never thrown a ThreadingViolation; a full queue is reported and changes nothing; in a batch the protocol is left alone |
| `PipeSubscribers.PipeSubscriber.EndBatch` | include/PipeSubscriber.hpp:777-788 | notifies as for a push and closes the batch, without a throw; does nothing when no batch is open |
| `PipeSubscribers.PipeSubscriber.Done` | include/PipeSubscriber.hpp:705-728 | leaves the state FINISHED, unless the client has aborted, and then tells the client as of a message: the notification runs to its end, without a throw; after an abort nothing happens |
| `PipeSubscribers.PipeSubscriber.GetNextMessage` | include/PipeSubscriber.hpp:730-738 | takes the oldest queued message, or says there is none and changes nothing |
| `PipeSubscribers.PipeSubscriber.WaitForMessage` | include/PipeSubscriber.hpp:740-769 | is a run of the program that `WaitExactly` is about, whenever the publisher does not batch and the client neither aborts nor has triggers of its own running; it ends with the message it popped last of all; or with false, having looked at an empty queue, the publisher having finished or the trigger of this call having fired, with nothing happening after the look unless the publisher has finished; or, having looked at an empty queue, blocked with the schedule used up on the trigger this call installed, which has not fired and is pending, live or replaced; after an abort it pops a message or blocks; or it is thrown after a broken proviso, or parked for a wake-up |
| `PipeSubscribers.PipeSubscriber.Delivers` | include/PipeSubscriber.hpp:679-738 | of the object at any time: what was pushed is what was popped followed by what is queued; idle with a trigger armed and no batch open, everything unread was there when a trigger last fired; the publisher has met no violation, and the client only if a proviso was broken |
| `ConsumerStates.PipeConsumer.ChangeState` | include/PipeSubscriber.hpp:31-46 | against any other changes: the first settles the state for good, the call succeeds if and only if the state is then the one it asked for, and OnStateChange is called once in that case only |
| `ConsumerStates.PipeConsumer.Done` | include/PipeSubscriber.hpp:14-20 | Done and Abort leave exactly one of FINISHED and ABORTING, never changed again |
| `Forwarding.OrderedIffNoneOvertook` | include/PipeSubscriber.hpp:680-703 | in every interleaving no message is lost or duplicated across the switch to forwarding, and popped or forwarded messages followed by queued ones are in order if and only if none was forwarded while another was queued |
| `Forwarding.SerialRunsConserve` | include/PipeSubscriber.hpp:816-824 | order is kept whenever PushMessage and OnNewMessage do not overlap |
| `Forwarding.ForwardedPastAQueuedMessage` | include/PipeSubscriber.hpp:684-689 | a run, with overlap, in which a message is forwarded past a queued one |
| `Forwarding.DisorderExactly` | include/PipeSubscriber.hpp:680-703 | from any state reached, some continuation delivers out of order if and only if one message has already overtaken another, or forwarding is on with a message queued or about to be queued, or forwarding is off and can still be turned on |
| `Forwarding.MessageQueue.PushMessage` | include/PipeSubscriber.hpp:679-703 | under serialised calls: when forwarding the message goes to the callback, otherwise to the back of the queue, and nothing else moves; a full queue is reported and changes nothing; it is what the publisher's two steps do in the machine |
| `Forwarding.MessageQueue.OnNewMessage` | include/PipeSubscriber.hpp:816-824 | everything queued is given to the callback in order, and the queue stays empty from then on; it is an install and a drain of the machine |
| `Forwarding.MessageQueue.GetNextMessage` | include/PipeSubscriber.hpp:731-738 | takes the oldest message, or reports none and changes nothing; it is a pop of the machine |
| `WorkerModel.PromisesKept` | src/WorkerThread.cpp:26-48 | in every interleaving of critical sections each promise is set at most once, holds true exactly if its task ran to completion, and is set once the worker has been destroyed |
| `WorkerModel.OrderAndWakefulness` | src/WorkerThread.cpp:50-91 | tasks start in posting order with none skipped; before the first Stop none is lost; the thread sleeps only over an empty queue, and is awake when a running worker has work |
| `WorkerModel.NothingStartsAfterStop` | src/WorkerThread.cpp:34-42 | once stopped or aborted the worker stays so and starts nothing more |
| `WorkerModel.CancelSpec` | src/WorkerThread.cpp:26-32 | cancelling from a position on erases exactly those jobs, sets exactly their promises, all to false, and leaves the others alone |
| `WorkerModel.StopErases` | src/WorkerThread.cpp:34-42 | Stop leaves at most the front job queued and at once sets the promises of the jobs behind it, and no others, to false |
| `WorkerModel.StopCancels` | src/WorkerThread.cpp:34-48 | in every interleaving after a Stop: of the jobs accepted before it only the front one is ever queued, the promises of those behind it stay false, and every promise given before has been kept or is the front job's |
| `WorkerModel.RunValid` | src/WorkerThread.cpp:135-142 | the running job stays at the front of the list while later ones are erased, and every promise not yet set belongs to a job still listed |
| `WorkerModel.OthersLeaveThreadAlone` | src/WorkerThread.cpp:112-151 | other threads' posts, stops and aborts move the worker thread only by waking it, and never remove the front job |
| `WorkerThreads.WorkerThread.CancelJobs` | src/WorkerThread.cpp:26-32 | the loop does what CancelSpec describes |
| `WorkerThreads.WorkerThread.PostTask` | src/WorkerThread.cpp:15-24 | appends one job with the next number, wakes a sleeping worker and sets it running; after an abort it changes nothing; also the locked part of DoTask |
| `WorkerThreads.WorkerThread.Stop` | src/WorkerThread.cpp:34-42 | the worker is stopped and woken; all jobs but the first are erased and their promises, and no others, set to false on return |
| `WorkerThreads.WorkerThread.FinishAbort` | src/WorkerThread.cpp:87-91 | the second critical section of Abort: the worker is aborted and woken |
| `WorkerThreads.WorkerThread.Start` | src/WorkerThread.cpp:93-103 | starts a worker that was not started, whose thread is then about to look for work, and reports whether it did; changes nothing otherwise |
| `WorkerThreads.WorkerThread.TaskDone` | src/WorkerThread.cpp:135-142 | removes the front job and sets its promise, and no other, to true |
| `WorkerThreads.WorkerThread.GetTask` | src/WorkerThread.cpp:79-85 | none if and only if the thread is to sleep or leave; otherwise the job that is started next |
| `WorkerThreads.WorkerThread.DoTasks` | src/WorkerThread.cpp:68-77 | whatever others do while tasks run, the loop ends with the queue empty or the worker not running, in a state some interleaving of critical sections leads to |
| `WorkerThreads.WorkerThread.Run` | src/WorkerThread.cpp:50-66 | the main loop ends in a reachable state: gone if the worker was stopped, else asleep with every accepted task done |
| `Consuming.HandleUpdates` | include/WorkerThread.h:236-257 | with the publisher running meanwhile, hands over a slice of the oldest messages in order, short only if the queue was found empty, and appends exactly one job to the worker's queue, unless the worker was aborted |
| `Composition.OneContinuation` | include/WorkerThread.h:242-256 | from the first ConsumeUpdates on, in every interleaving with other jobs on the worker, a client that has not aborted has exactly one continuation: a handler or installer job waiting or running, or a trigger installing, pending or live; no throw is reached |
| `Composition.HandlersNeverOverlap` | include/WorkerThread.h:237-257 | a handler or installer waits only while none of the client's is running and no trigger is armed, and never two wait |
| `Composition.PostsTheLast` | include/PipeSubscriber.hpp:656-677 | the trigger about to be posted is the client's last and has not fired |
| `Composition.SliceTakes` | include/WorkerThread.h:236-257 | in that system a handler left to itself pops the oldest messages, as many as its slice allows, and posts one job, the installer |
| `AggUpdates.EveryClientTracks` | include/AggPipePub.hpp:8-137 | for any equality of messages, after any updates, resets and joins in any mode: each client was sent NEW only for ids not in its view, UPDATE and DELETE only for ids in view, never NONE, and no UPDATE when modifications are replaced; and its view has the store's ids |
| `AggUpdates.EveryClientConverges` | include/AggPipePub.hpp:8-137 | with a sound equality, and whatever the updates, resets, joins and modes: the message a client makes of its snapshot and stream is, for each id of the store, the store's own when duplicates are not checked for and otherwise an equal one; and the stream is well formed |
| `AggUpdates.ConvergesIffSound` | include/AggPipePub.h:136-147 | the messages agree so in all runs if and only if taking messages of one id for unchanged twice over leaves them equal |
| `AggUpdates.UnsoundDrifts` | include/AggPipePub.hpp:94-97 | otherwise two resets that publish nothing leave a client with a message not equal to the store's |
| `AggUpdates.ChangesInOrder` | include/AggPipePub.h:96-107 | a reset publishes in id order, at most one update for an id or a DELETE followed by a NEW |
| `AggUpdates.ChangesComplete` | include/AggPipePub.hpp:61-93 | an update is published if and only if it is what one of the ids changed by |
| `AggUpdates.LastWins` | include/AggPipePub.hpp:51-54 | of several new messages with one id the last is kept |
| `AggUpdates.OnlyThose` | include/AggPipePub.hpp:51-54 | no id is kept that was not given |
| `AggUpdates.SnapshotReplayed` | include/AggPipePub.hpp:12-21 | a client's initial data rebuild the store |
| `AggUpdates.ChangesSendDue` | include/AggPipePub.hpp:57-93 | the difference of two stores holds exactly the updates due: DELETE for ids gone, NEW for ids come, UPDATE or DELETE and NEW for messages modified, in id order |
| `AggUpdates.StoreHoldsLast` | include/AggPipePub.hpp:42-137 | after any updates, resets and joins the store has an id if and only if a message was given with it since the last reset, and files the last of those, or one equal to it where duplicates are looked for |
| `AggPipePubs.AggPipePub.ResetMessages` | include/AggPipePub.hpp:50-99 | afterwards the store has exactly the ids given, with the last message of each; sent is, in id order, exactly a DELETE for each id no longer there, a NEW for each not there before, and for each modified an UPDATE, or DELETE and NEW when modifications are replaced; clients keep their ids right, and their messages if the equality is sound |
| `AggPipePubs.AggPipePub.Merge` | include/AggPipePub.hpp:57-93 | walking the two sorted maps at once sends exactly those, and ends for any totally ordered id |
| `AggPipePubs.AggPipePub.ManufactureUpdate` | include/AggPipePub.hpp:103-137 | a message with a new id is filed and answered by NEW; a modification is filed and answered by UPDATE, or by DELETE of the old and NEW when modifications are replaced; a duplicate, when duplicates are looked for, is dropped and answered by nothing |
| `AggPipePubs.AggPipePub.Update` | include/AggPipePub.hpp:42-48 | files the message and publishes exactly that answer; clients keep their ids right, and their messages if the equality is sound |
| `AggPipePubs.AggPipePub.NewClient` | include/AggPipePub.hpp:8-22 | the client starts with exactly a NEW for each message of the store in id order, and has everything published from then on; its ids are right, and its messages if the equality is sound |
| `AggPipePubs.AggPipePub.InitialData` | include/AggPipePub.hpp:24-40 | with a filter, a NEW for each id whose message it lets through and for no other, in id order |
| `AggPipePubs.ChosenExactly` | include/AggPipePub.hpp:24-40 | the ids chosen are those of the store whose message passes the filter, and they are in id order |
| `Publishing.ContiguousDelivery` | include/PipePublisher.hpp:40-180 | over any run a consumer has been pushed exactly the messages published since it was installed, up to now or to its removal, in order, batched or not; it is removed only if gone; its batches are open exactly while the publisher's is; numClients is the length of the list |
| `Publishing.OneOp` | include/PipePublisher.hpp:103-107 | no operation moves the start of a consumer's run of messages, removes a consumer that is not gone, or calls one that was removed |
| `Publishing.PublishedIsGiven` | include/PipePublisher.hpp:64-92 | over any run what has been published is the sequence of messages given to Publish, in a batch or not |
| `Publishing.EveryCallMade` | include/PipePublisher.hpp:39-180 | over any run a consumer still listed has been pushed exactly the messages given to Publish since it was installed, told of the start of every batch, of the end of every batch but an open one, and of every Done |
| `Publishing.DoKeeps` | include/PipePublisher.hpp:126-180 | the invariant behind it, for every operation |
| `Publishing.StayingSpec` | include/PipePublisher.hpp:67-91 | a sweep keeps exactly the clients that are not gone |
| `PipePublishers.PipePublisher.SweepAll` | include/PipePublisher.hpp:70-91 | the loop that erases while it iterates looks at every client once: removes those gone and calls the others |
| `PipePublishers.PipePublisher.Publish` | include/PipePublisher.hpp:64-92 | records the message as published and pushes it, once, to every client in a batch and to every client not gone otherwise, and to no other consumer; removes those gone when no batch is open; keeps the invariant |
| `PipePublishers.PipePublisher.StartBatch` | include/PipePublisher.hpp:136-158 | ends an open batch, then starts one on every client, which is left open; nobody else is called |
| `PipePublishers.PipePublisher.EndBatch` | include/PipePublisher.hpp:144-180 | if a batch is open, ends it on every client not gone and removes the others; no batch is open afterwards and nothing else is called |
| `PipePublishers.PipePublisher.Done` | include/PipePublisher.hpp:39-62 | ends an open batch, tells every client not gone that the publisher is done, once, and removes the others |
| `PipePublishers.PipePublisher.InstallClient` | include/PipePublisher.hpp:126-134 | appends a client that has been told nothing yet and will see exactly what is published from now on; no other changes |
| `PipePublishers.PipePublisher.RemoveClient` | include/PipePublisher.hpp:103-107 | erases the client the iterator stands at and counts it off; the list stays free of repetitions with its count right, and holds exactly the other clients |

## Left out

- Weak memory ordering and the internals of `boost::lockfree::spsc_queue`: the model is sequentially consistent, with a bounded FIFO that has push, pop and empty.
- Spurious wake-ups of the condition variables, except where a lemma is about them: `NotifySafety` allows them everywhere but in the runs it calls calm; the worker's `Sleep` has none.
- Triggers that publish to or install on their own subscriber from the publisher's stack: a trigger called by the publisher may pop and nothing else.
- PipeSubscribers.PipeSubscriber.constructor: more initial data than the queue holds makes the source's constructor throw; no such object exists here.
- PipeSubscribers.PipeSubscriber.PushMessage: leaves out forwarding, which `Forwarding` models on its own, since a forwarding subscriber no longer uses its triggers.
- PipeSubscribers.PipeSubscriber.PullComplete: a failed exchange in the RECONFIGURE_REQUIRED case, after which the source would reconfigure all the same, is made a throw; the invariant shows that it does not occur.
- PipeSubscribers.PipeSubscriber.Done: `ChangeState` and `OnStateChange` are one step; `ConsumerStates` shows what the exchange loop comes to.
- Batches, and triggers of the client's own, in `WaitForMessage` and `WaitExactly`: they are about a client that polls and blocks; a batch would hold its notification back until it ends.
- Consuming.HandleUpdates: the user's task does nothing to the client or the worker here; in `Composition` it, or any other job, may also abort the client.
- Composition.OneContinuation: for a worker that is never stopped or aborted; a stopped worker drops jobs. Progress is not claimed: a client that re-arms while the publisher is publishing may have unread messages until the next push.
- WorkerModel.PromisesKept: tasks that throw, and destruction on the worker thread itself, are left out, as they end the program.
- Publishing.ContiguousDelivery: a push to a full client queue throws out of the publisher's loop and is left out; installing while a batch is open waits for its end.
- PipePublishers.PipePublisher.RemoveClient: the source goes on using the iterator it has just erased, which the language leaves undefined; it is taken to stand at the next client.
- AggPipePubs.AggPipePub.InitialData: nothing is claimed about a filtered client after its snapshot, since later updates are not filtered.
- Concurrent NewClient and Update of the keyed publisher: the snapshot lock is released before the client is installed, so an update in between is missed.
- Use of a subscriber after Abort, and publishing after Done: no guarantee is given for either.
- include/AggPipePub_MessageAdaption.h: the traits that choose id and equality functions; the model takes the functions as parameters.
- Object lifetime: shared pointers, destructors during a batch, references kept by posted lambdas. A dropped client is a flag that may be set at any time.
- src/publisherSpeed.cpp, src/dummy.cpp, src/AggUpdate.cpp and the build files.
