# Curator's background-operation and connection-state engine, in Dafny

This project models the engine at the centre of Apache Curator's
`CuratorFrameworkImpl`. It covers:

- the client lifecycle LATENT → STARTED → STOPPED;
- the delay queue of pending background operations (`backgroundOperations`);
- the side list of operations parked in a forced sleep (`forcedSleepOperations`);
- the last seen instance index of the ZooKeeper transport;
- the decisions the engine takes when an operation is performed, fails, is
  retried, is aborted or is closed, and when the session state changes.

`CuratorFrameworkImpl` is a class whose fields are updated in place, so the
model is a Dafny class (`Framework.CuratorFrameworkImpl`) with those fields.
Each public or private method is modelled as one atomic step. This is the
model's own abstraction: in the source, `closeLock` guards only
`closeWithLock`, the check-and-offer of `queueOperation` and the STARTED
branch of `requeueSleepOperation`, and the rest runs unlocked. Operations (`OperationAndData` objects)
are identified by an `OpId`. The class holds their current records in a map,
so a `clearSleep` on an operation that is both queued and parked is seen from
both lists, as with the shared Java object.

Everything the engine hands to collaborators is appended to an event log:
callbacks, `retriesExhausted`, listeners, `ConnectionStateManager`,
`InternalConnectionHandler` and unhandled-error listeners. The collaborators
enter the model in two ways:

- fixed functions given at construction: the retry policy, `codeToState` and
  the connection timeout;
- an `Env` parameter of each step: the clock, the operation's elapsed time,
  connectivity, whether handing the operation to the transport throws, and
  whether `client.getZooKeeper()` throws for an operation that waits for the
  connection.

The object invariant `Valid()` states the engine's central promise:

- every operation's callback receives a result at most once;
- an operation that is queued or in flight has received none;
- while the client is LATENT, nothing is queued.

Every method keeps this invariant. Further guarantees are proved as
postconditions and lemmas:

- the lifecycle only moves forward, and start and close each act at most once;
- admission to the queue happens exactly while the client is STARTED;
- close leaves the queue empty and completes each queued operation exactly
  once;
- after performBackgroundOperation, processBackgroundOperation,
  handleBackgroundOperationException, sleepAndQueueOperation or the
  connection-timeout retry, the operation they handle is queued, in flight,
  or finished with exactly one completion if it has a callback (`Accounted`).

Modules:

- `Types`: the entities and events.
- `Lifecycle`: the compare-and-set transitions of `state`.
- `Queues`: `BlockingQueue.remove`, and `DelayQueue.take` and `drainTo` over
  deadlines.
- `EventLog`: counting completions, and the SESSIONEXPIRED sequences of close.
- `Decisions`: the pure branch choices.
- `Framework`: the class.

## Model

All source paths are in `curator-framework/src/main/java/org/apache/curator/framework/imps/`.

| member | source | states |
|---|---|---|
| Lifecycle.StartTransition | curator-framework/src/main/java/org/apache/curator/framework/imps/CuratorFrameworkImpl.java:289-293 | the compare-and-set of start swaps exactly from LATENT, to STARTED; otherwise the state is unchanged; the state never moves back |
| Lifecycle.CloseTransition | curator-framework/src/main/java/org/apache/curator/framework/imps/CuratorFrameworkImpl.java:344-348 | the compare-and-set of closeWithLock swaps exactly from STARTED, to STOPPED; otherwise the state is unchanged; the state never moves back |
| Lifecycle.StartAndCloseActAtMostOnce | curator-framework/src/main/java/org/apache/curator/framework/imps/CuratorFrameworkImpl.java:289-293 | over any sequence of start and close calls: at most one start takes effect, and only from LATENT; at most one close takes effect, never from STOPPED, and only after a start; the state never moves backwards |
| Queues.RemoveFirst | curator-framework/src/main/java/org/apache/curator/framework/imps/CuratorFrameworkImpl.java:585-593 | remove of an absent operation changes nothing; otherwise exactly one element goes; the others stay; on a queue without duplicates the operation is then absent |
| Queues.Expired | curator-framework/src/main/java/org/apache/curator/framework/imps/CuratorFrameworkImpl.java:393-394 | drainTo moves out exactly the queued operations whose deadline has passed |
| Queues.Unexpired | curator-framework/src/main/java/org/apache/curator/framework/imps/CuratorFrameworkImpl.java:393-394 | drainTo leaves behind exactly the queued operations still sleeping |
| Queues.ClearedQueueDrainsFully | curator-framework/src/main/java/org/apache/curator/framework/imps/CuratorFrameworkImpl.java:389-394 | once every queued sleep is cleared, drainTo takes the whole queue, in order, and leaves nothing, whatever the clock says |
| Queues.EarliestDeadline | curator-framework/src/main/java/org/apache/curator/framework/imps/CuratorFrameworkImpl.java:796 | the head of the delay queue: an operation whose deadline is no later than any other's, the first such |
| EventLog.CallbackEvent | curator-framework/src/main/java/org/apache/curator/framework/imps/CuratorFrameworkImpl.java:556-558 | a result is delivered iff the operation has a callback; every delivered event carries this operation and exactly `code`; it completes that operation once and no other |
| EventLog.CloseEvent | curator-framework/src/main/java/org/apache/curator/framework/imps/CuratorFrameworkImpl.java:561-579 | closeOperation delivers only SESSIONEXPIRED, completes the operation once if it has a callback, and otherwise nothing |
| EventLog.CloseEvents | curator-framework/src/main/java/org/apache/curator/framework/imps/CuratorFrameworkImpl.java:395 | closing each dropped operation delivers only SESSIONEXPIRED, at most one event per operation, each to a dropped operation that has a callback |
| EventLog.CloseEventsCompleteOnce | curator-framework/src/main/java/org/apache/curator/framework/imps/CuratorFrameworkImpl.java:389-395 | closing distinct dropped operations completes each one with a callback exactly once, and nothing else |
| EventLog.NoCallbackNoCompletion | curator-framework/src/main/java/org/apache/curator/framework/imps/CuratorFrameworkImpl.java:647-660 | events that are not results to callbacks (state changes, listener and error notifications) complete no operation |
| Decisions.AbortCode | curator-framework/src/main/java/org/apache/curator/framework/imps/CuratorFrameworkImpl.java:510-559 | a KeeperException's own code; otherwise SYSTEMERROR iff STARTED and SESSIONEXPIRED iff not |
| Decisions.RouteResult | curator-framework/src/main/java/org/apache/curator/framework/imps/CuratorFrameworkImpl.java:488-502 | a result goes to the retry check iff it is a failure and retryable; otherwise to the callback iff there is one, and to processEvent iff not |
| Decisions.ChoosePerformRoute | curator-framework/src/main/java/org/apache/curator/framework/imps/CuratorFrameworkImpl.java:814-845 | the operation runs iff no connection is required or the client is connected; it sleeps iff it is not running and the elapsed time is below the connection timeout; it is treated as a lost connection iff the timeout has been reached |
| Decisions.ConnectionEvents | curator-framework/src/main/java/org/apache/curator/framework/imps/CuratorFrameworkImpl.java:647-660 | Disconnected gives exactly the suspend, Expired exactly LOST, SyncConnected the new-connection check then RECONNECTED, ConnectedReadOnly the new-connection check then READ_ONLY; any other state produces nothing (membership iff, the exact length, and the order) |
| Decisions.LostOncePerReplacement | curator-framework/src/main/java/org/apache/curator/framework/imps/CuratorFrameworkImpl.java:662-670 | starting from the initial index -1, repeated checkInstanceIndex calls report LOST exactly once per change of the instance index, and not for the first connection |
| Decisions.LostsFromStored | curator-framework/src/main/java/org/apache/curator/framework/imps/CuratorFrameworkImpl.java:662-670 | from a stored index, the LOST reports equal the number of changes in the observed index sequence |
| Decisions.ReasonOrNA | curator-framework/src/main/java/org/apache/curator/framework/imps/CuratorFrameworkImpl.java:614-617 | the reported reason is never empty: an empty reason becomes "n/a", any other is kept |
| Framework.CuratorFrameworkImpl.constructor | curator-framework/src/main/java/org/apache/curator/framework/imps/CuratorFrameworkImpl.java:98 | a new client is LATENT, with both queues empty and the instance index -1 (also lines 158-159 and 172) |
| Framework.CuratorFrameworkImpl.Start | curator-framework/src/main/java/org/apache/curator/framework/imps/CuratorFrameworkImpl.java:289-293 | start succeeds iff the client was LATENT and then moves it to STARTED; otherwise (IllegalStateException) the state is unchanged |
| Framework.CuratorFrameworkImpl.CloseWithLock | curator-framework/src/main/java/org/apache/curator/framework/imps/CuratorFrameworkImpl.java:344-348 | true iff this call moved STARTED to STOPPED |
| Framework.CuratorFrameworkImpl.CloseOperation | curator-framework/src/main/java/org/apache/curator/framework/imps/CuratorFrameworkImpl.java:561-579 | SESSIONEXPIRED to the callback, if there is one; the operation's completion count rises by exactly that, and no other operation's does |
| Framework.CuratorFrameworkImpl.AbortOperation | curator-framework/src/main/java/org/apache/curator/framework/imps/CuratorFrameworkImpl.java:510-559 | the AbortCode result to the callback, if there is one; nothing when there is none |
| Framework.CuratorFrameworkImpl.LogError | curator-framework/src/main/java/org/apache/curator/framework/imps/CuratorFrameworkImpl.java:614-636 | the unhandled-error listeners receive the reason, or "n/a"; no operation is completed |
| Framework.CuratorFrameworkImpl.QueueOperation | curator-framework/src/main/java/org/apache/curator/framework/imps/CuratorFrameworkImpl.java:602-611 | queued at the end, returning true, iff STARTED, with nothing delivered; otherwise the queue is unchanged, the call returns false, and the operation receives exactly one SESSIONEXPIRED if it has a callback, nothing if not |
| Framework.CuratorFrameworkImpl.RequeueSleepOperation | curator-framework/src/main/java/org/apache/curator/framework/imps/CuratorFrameworkImpl.java:581-596 | the sleep is always cleared; while STARTED, queue membership is unchanged and nothing is delivered; otherwise the operation leaves the queue and is closed only if it was still queued, so an operation already taken is never completed twice |
| Framework.CuratorFrameworkImpl.UnSleepOne | curator-framework/src/main/java/org/apache/curator/framework/imps/CuratorFrameworkImpl.java:867 | requeueSleepOperation on one more drained operation extends what un-sleeping the earlier ones did |
| Framework.CuratorFrameworkImpl.UnSleepBackgroundOperations | curator-framework/src/main/java/org/apache/curator/framework/imps/CuratorFrameworkImpl.java:863-868 | the parked list ends empty; every parked operation's sleep is cleared; while STARTED the queue keeps its members and nothing is delivered; otherwise each parked operation still queued leaves the queue and is completed once with SESSIONEXPIRED |
| Framework.CuratorFrameworkImpl.ValidateConnection | curator-framework/src/main/java/org/apache/curator/framework/imps/CuratorFrameworkImpl.java:647-660 | the ConnectionEvents of the session state are delivered; only on SyncConnected are the parked operations un-sleeped, and only queued operations can be completed by it |
| Framework.CuratorFrameworkImpl.CheckInstanceIndex | curator-framework/src/main/java/org/apache/curator/framework/imps/CuratorFrameworkImpl.java:662-670 | the new index is stored; LOST is reported iff the previous index was set (>= 0) and differs |
| Framework.CuratorFrameworkImpl.CheckBackgroundRetry | curator-framework/src/main/java/org/apache/curator/framework/imps/CuratorFrameworkImpl.java:695-742 | the policy sees the retry count before the increment, and the count always rises by one; on a retry nothing else changes (queue, parked list, log); on refusal, `RetryRefused`: the operation is not queued and is completed exactly once iff it has a callback; retriesExhausted (if there is an error callback), the result (if there is a callback) and the connection events of codeToState(code) are delivered in order and the error is logged last; for any session state but SyncConnected the queue, the parked list and the records are otherwise unchanged and the log is exactly that; for SyncConnected the parked list ends empty and the parked operations are un-sleeped as UnSleepBackgroundOperations states |
| Framework.CuratorFrameworkImpl.GetThenIncrementRetryCount | curator-framework/src/main/java/org/apache/curator/framework/imps/CuratorFrameworkImpl.java:697-699 | the policy receives the retry count as it was, and the operation's record then holds one more; nothing else changes |
| Framework.CuratorFrameworkImpl.RetryGaveUp | curator-framework/src/main/java/org/apache/curator/framework/imps/CuratorFrameworkImpl.java:702-739 | the refusal branch, as `RetryRefused` states, with the retry count left as it is |
| Framework.CuratorFrameworkImpl.DeliverGiveUp | curator-framework/src/main/java/org/apache/curator/framework/imps/CuratorFrameworkImpl.java:703-709 | retriesExhausted iff there is an error callback, then the result iff there is a callback |
| Framework.CuratorFrameworkImpl.HandleBackgroundOperationException | curator-framework/src/main/java/org/apache/curator/framework/imps/CuratorFrameworkImpl.java:755-789 | `ExceptionHandled`: the retry count rises iff the failure is retryable; the operation is requeued (closed once not STARTED) iff the policy then allows a retry; otherwise the log grows by exactly retriesExhausted (for a retryable failure with an error callback), the AbortCode result and the error, in that order; the operation is accounted for |
| Framework.CuratorFrameworkImpl.SleepAndQueueOperation | curator-framework/src/main/java/org/apache/curator/framework/imps/CuratorFrameworkImpl.java:854-861 | `SleptAndQueued`: the deadline is set one second ahead; while STARTED the operation is queued and parked and nothing is delivered; otherwise neither list changes and it is closed (SESSIONEXPIRED once if it has a callback) |
| Framework.CuratorFrameworkImpl.PerformBackgroundOperation | curator-framework/src/main/java/org/apache/curator/framework/imps/CuratorFrameworkImpl.java:812-851 | `PerformedFrom`, by ChoosePerformRoute: run now, the operation is in flight and nothing else changes, or `ExceptionHandled` if the transport throws; an operation waiting for the connection goes to `ExceptionHandled` if getZooKeeper throws, otherwise `SleptAndQueued` below the timeout and `RetriedAfterTimeout` at or above it; only the sleep and a refused retry on SyncConnected touch the parked list; the lifecycle and the instance index are untouched and the operation is accounted for |
| Framework.CuratorFrameworkImpl.AwaitConnection | curator-framework/src/main/java/org/apache/curator/framework/imps/CuratorFrameworkImpl.java:819-851 | for an operation that must wait for the connection: `ExceptionHandled` if getZooKeeper throws, otherwise `SleptAndQueued` below the connection timeout and `RetriedAfterTimeout` at or above it; nothing goes in flight |
| Framework.CuratorFrameworkImpl.Dispatch | curator-framework/src/main/java/org/apache/curator/framework/imps/CuratorFrameworkImpl.java:814-816 | the operation is handed to the transport and is in flight |
| Framework.CuratorFrameworkImpl.ConnectionTimeoutRetry | curator-framework/src/main/java/org/apache/curator/framework/imps/CuratorFrameworkImpl.java:825-846 | `RetriedAfterTimeout`: CONNECTIONLOSS through checkBackgroundRetry; the retry count rises; on a retry it is queued (closed once not STARTED) and the parked list is unchanged; on refusal (`TimeoutGaveUp`) the log is a refusal of the retry check exactly as `RetryRefused` states for CONNECTIONLOSS, followed by the connection-retry error |
| Framework.CuratorFrameworkImpl.RequeueAfterTimeout | curator-framework/src/main/java/org/apache/curator/framework/imps/CuratorFrameworkImpl.java:842-843 | a CONNECTIONLOSS retry the policy allowed queues the operation again while STARTED and closes it otherwise, as `RetriedAfterTimeout` states |
| Framework.CuratorFrameworkImpl.LogTimeoutGaveUp | curator-framework/src/main/java/org/apache/curator/framework/imps/CuratorFrameworkImpl.java:844-846 | a refused CONNECTIONLOSS retry logs exactly one more error and completes nothing |
| Framework.CuratorFrameworkImpl.ProcessEvent | curator-framework/src/main/java/org/apache/curator/framework/imps/CuratorFrameworkImpl.java:870-885 | a WATCHED event goes through validateConnection first: on SyncConnected the parked list ends empty and the parked operations are un-sleeped as UnSleepBackgroundOperations states; on other states only the connection events are added; the listeners are notified last; an operation result changes nothing else |
| Framework.CuratorFrameworkImpl.Land | curator-framework/src/main/java/org/apache/curator/framework/imps/CuratorFrameworkImpl.java:481 | when the transport reports a result, the operation is no longer in flight and is held by the caller |
| Framework.CuratorFrameworkImpl.ProcessResult | curator-framework/src/main/java/org/apache/curator/framework/imps/CuratorFrameworkImpl.java:487-507 | `ResultProcessed`, by RouteResult: the retry check, with a requeue iff a retry is allowed (parked list unchanged) and on refusal exactly what `RetryRefused` states; or the result to the callback once; or the listeners notified; in the last two nothing else changes, the parked list included |
| Framework.CuratorFrameworkImpl.ProcessBackgroundOperation | curator-framework/src/main/java/org/apache/curator/framework/imps/CuratorFrameworkImpl.java:481-508 | with no result (initial execution), exactly what perform does (`PerformedFrom`); with a result, the operation leaves the in-flight set and is routed as `ResultProcessed` says, including a refused retry and its effect on the parked list; the instance index is untouched; the operation is accounted for and is never completed twice |
| Framework.CuratorFrameworkImpl.Take | curator-framework/src/main/java/org/apache/curator/framework/imps/CuratorFrameworkImpl.java:796 | take yields the queued operation with the earliest deadline once that deadline has passed, removing it; while no deadline has passed, nothing is taken and the queue is unchanged |
| Framework.CuratorFrameworkImpl.BackgroundOperationsLoop | curator-framework/src/main/java/org/apache/curator/framework/imps/CuratorFrameworkImpl.java:791-810 | runs only while STARTED and leaves a client that is not STARTED untouched; keeps the invariant, the lifecycle and the instance index |
| Framework.CuratorFrameworkImpl.DrainQueue | curator-framework/src/main/java/org/apache/curator/framework/imps/CuratorFrameworkImpl.java:389-395 | every queued sleep is cleared; the queue ends empty; the dropped operations receive SESSIONEXPIRED in the order they were queued, each with a callback exactly once, and no other operation is completed |
| Framework.CuratorFrameworkImpl.ClearSleeps | curator-framework/src/main/java/org/apache/curator/framework/imps/CuratorFrameworkImpl.java:392 | every queued operation's sleep is cleared, and nothing else changes |
| Framework.CuratorFrameworkImpl.CloseDropped | curator-framework/src/main/java/org/apache/curator/framework/imps/CuratorFrameworkImpl.java:395 | closeOperation on each dropped operation, in order |
| Framework.CuratorFrameworkImpl.Close | curator-framework/src/main/java/org/apache/curator/framework/imps/CuratorFrameworkImpl.java:350-401 | acts iff this call moved STARTED to STOPPED; a second close changes nothing; the acting call notifies CLOSING, clears the sleep of every queued operation and changes nothing else in any record, leaves the queue empty, and completes every queued operation with a callback exactly once |

## Left out

- Threads, the executor, `shutdownNow`/`awaitTermination`, and the `closeLock` monitor. Each method is modelled as one atomic step. The blocking `take` becomes a step that either takes an expired head or reports that it is still waiting.
- Wall-clock time: the current time and an operation's elapsed time come in as parameters (`Env`). Deadlines are naturals in milliseconds. `OperationAndData.getDelay` is not part of this model beyond "expired iff the deadline is not after now".
- ZooKeeper construction, auth info, `ZKClientConfig`, `EnsembleTracker`, the quorum configuration and schema logging: these are I/O or foreign calls.
- `RetryPolicy`, `ConnectionStateManager`, `InternalConnectionHandler`, `OperationAndData`, `NamespaceImpl` and `FrameworkUtils.codeToState` are not part of this model. The retry policy, `codeToState` and the connection timeout are arbitrary functions and constants fixed at construction. Both `allowRetry` calls pass three arguments: the retry count, the elapsed time and the operation itself as the `RetrySleeper`. The model keeps the first two as a function of (retry count, elapsed time) and leaves out the third (see the CheckBackgroundRetry and HandleBackgroundOperationException lines below). The other collaborators only receive events.
- Logging levels and the `DONT_LOG_CONNECTION_ISSUES` switches; the test-only latches and injected codes in `checkBackgroundRetry`; `debugListener` and `debugUnhandledErrorListener`.
- Exceptions thrown by listeners and callbacks: `sendToBackgroundCallback` re-entering `handleBackgroundOperationException` with no operation, and the "Event listener threw exception" error.
- Framework.CuratorFrameworkImpl.CheckBackgroundRetry: a retry policy that sleeps, or sets the operation's backoff deadline (`OperationAndData.sleepFor`), through the `RetrySleeper` argument is not modelled; on a retry the model keeps `sleepUntilMs` as it was. The policy is not part of this model.
- Framework.CuratorFrameworkImpl.HandleBackgroundOperationException: the same holds for its `allowRetry` call: a backoff the policy sets through the operation is not modelled, and the requeued operation keeps its deadline.
- The `catch` in `start()` (CuratorFrameworkImpl.java:330-333): an exception thrown while starting the transport, the executor or the ensemble tracker goes to `handleBackgroundOperationException(null, e)`, which only logs it. It concerns transport and executor failures, which are not part of this model, and it touches no operation.
- A result code with no `KeeperException.Code` (the null code path in `checkBackgroundRetry`). Codes are a closed datatype.
- The rest of `close()` after the drain: clearing the listener lists, and closing the connection-state manager and the client. The listener notifications are single events, not one per listener.
- Framework.CuratorFrameworkImpl.DrainQueue: `DelayQueue.drainTo` hands out the expired operations in the queue's priority-heap order; the model closes them in the order they were queued. Which operation receives SESSIONEXPIRED first is not modelled; the set of completions is.
- Queues.EarliestDeadline: when several queued operations share the earliest deadline, `DelayQueue` does not specify which one `take` returns; the model picks the first queued.
- Framework.CuratorFrameworkImpl.BackgroundOperationsLoop: the contract states the invariant, the lifecycle and the "nothing while not STARTED" promise, not the per-tick effects. Those are the Take and PerformBackgroundOperation contracts.
