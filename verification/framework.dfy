/**
 * The background-operation and connection-state engine of the client
 * (CuratorFrameworkImpl), as a class whose fields are the lifecycle state,
 * the delay queue of pending operations, the side list of operations parked
 * in a forced sleep, the last seen instance index of the transport, and the
 * OperationAndData objects themselves. Each method is one atomic step; what
 * the engine hands to callbacks, listeners and the connection-state manager
 * is appended to `events`.
 *
 * The object invariant says that every operation receives a result at most
 * once, and that a queued or in-flight operation has received none.
 */
module Framework {
  import opened Types
  import opened Queues
  import opened EventLog
  import opened Decisions
  import Lifecycle

  /** sleepAndQueueOperationSeconds: a parked operation sleeps for one second. */
  const FORCED_SLEEP_MS: nat := 1000

  const RETRY_GAVE_UP: string := "Background operation retry gave up"
  const CONNECTION_RETRY_GAVE_UP: string := "Background retry gave up"
  const EXCEPTION_GAVE_UP: string := "Background exception was not retry-able or retry gave up"

  /** An operation keeps its callbacks and its connection requirement, and its retry counter never goes down. */
  ghost predicate OpsEvolve(ops0: map<OpId, Operation>, ops1: map<OpId, Operation>)
  {
    forall id :: id in ops0 ==>
      && id in ops1
      && ops1[id].hasCallback == ops0[id].hasCallback
      && ops1[id].hasErrorCallback == ops0[id].hasErrorCallback
      && ops1[id].connectionRequired == ops0[id].connectionRequired
      && ops0[id].retryCount <= ops1[id].retryCount
  }

  lemma OpsEvolveTransitive(ops0: map<OpId, Operation>, ops1: map<OpId, Operation>, ops2: map<OpId, Operation>)
    requires OpsEvolve(ops0, ops1) && OpsEvolve(ops1, ops2)
    ensures OpsEvolve(ops0, ops2)
  {
  }

  /** `ops1` is `ops0` with the sleep of every operation in `cleared` cleared, and nothing else changed. */
  ghost predicate SleepsCleared(ops0: map<OpId, Operation>, ops1: map<OpId, Operation>, cleared: seq<OpId>)
  {
    && ops1.Keys == ops0.Keys
    && forall id :: id in ops0 ==>
         ops1[id] == if id in cleared then ops0[id].(sleepUntilMs := NO_SLEEP) else ops0[id]
  }

  /** What checkBackgroundRetry delivers when the retry policy refuses: retriesExhausted, then the result. */
  function GiveUpEvents(id: OpId, op: Operation, code: Code): seq<Event>
  {
    (if op.hasErrorCallback then [RetriesExhausted(id)] else []) + CallbackEvent(id, op, code)
  }

  /** The operations after getThenIncrementRetryCount on `id`. */
  function Bumped(ops0: map<OpId, Operation>, id: OpId): map<OpId, Operation>
    requires id in ops0
  {
    ops0[id := ops0[id].(retryCount := ops0[id].retryCount + 1)]
  }

  /**
   * What un-sleeping the operations `parked` does in state `s`, from the queue,
   * operations and log (q0, ops0, log0) to (q, ops, log): their sleeps are
   * cleared; while started the queue keeps the same members and nothing is
   * delivered; otherwise the parked operations still queued leave the queue
   * and receive SESSIONEXPIRED, each once.
   */
  ghost predicate UnSlept(s: FrameworkState, q0: seq<OpId>, parked: seq<OpId>, ops0: map<OpId, Operation>,
                          log0: seq<Event>, q: seq<OpId>, ops: map<OpId, Operation>, log: seq<Event>)
  {
    && SleepsCleared(ops0, ops, parked)
    && (s == Started ==> log == log0 && forall x :: x in q <==> x in q0)
    && (s != Started ==> forall x :: x in q <==> x in q0 && x !in parked)
    && log0 <= log
    && SessionExpiredOnly(log[|log0|..])
    && forall x :: Completions(log, x) == Completions(log0, x)
         + (if s != Started && x in q0 && x in parked && x in ops0 && ops0[x].hasCallback then 1 else 0)
  }

  /**
   * What one requeueSleepOperation(id) does in state `s`, from queue q1,
   * records ops1 and log log1 to q2, ops2 and log2: the sleep is cleared;
   * while STARTED the queue keeps its members and nothing is delivered;
   * otherwise the operation leaves the queue and is closed only if it was
   * still queued, so it is completed at most once.
   */
  ghost predicate Requeued(s: FrameworkState, id: OpId, q1: seq<OpId>, ops1: map<OpId, Operation>, log1: seq<Event>,
                           q2: seq<OpId>, ops2: map<OpId, Operation>, log2: seq<Event>)
  {
    && id in ops1
    && SleepsCleared(ops1, ops2, [id])
    && (s == Started ==> log2 == log1 && forall x :: x in q2 <==> x in q1)
    && (s != Started ==> q2 == RemoveFirst(q1, id))
    && (s != Started ==> log2 == log1 + (if id in q1 then CloseEvent(id, ops1[id]) else []))
    && forall x :: Completions(log2, x) == Completions(log1, x)
         + (if x == id && s != Started && id in q1 && ops1[id].hasCallback then 1 else 0)
  }

  class CuratorFrameworkImpl {
    /** RetryPolicy.allowRetry(retryCount, elapsedTimeMs, ...). */
    const retryPolicy: (nat, nat) -> bool
    /** RetryPolicy.allowRetry(Throwable): is this failure worth retrying at all. */
    const retryable: Failure -> bool
    /** FrameworkUtils.codeToState. */
    const codeToState: Code -> KeeperState
    /** client.getConnectionTimeoutMs(). */
    const connectionTimeoutMs: nat

    var state: FrameworkState
    var backgroundOperations: seq<OpId>
    var forcedSleepOperations: seq<OpId>
    var currentInstanceIndex: int
    /** The OperationAndData objects, by identity. */
    var ops: map<OpId, Operation>
    var events: seq<Event>
    /** Operations handed to the transport whose result has not been processed yet. */
    ghost var inFlight: set<OpId>

    ghost predicate Valid()
      reads this
    {
      && NoDuplicates(backgroundOperations)
      && AllKnown(backgroundOperations, ops)
      && AllKnown(forcedSleepOperations, ops)
      && (forall id :: id in backgroundOperations ==> id !in inFlight && Completions(events, id) == 0)
      && (forall id :: id in inFlight ==> id in ops && Completions(events, id) == 0)
      && (forall id :: Completions(events, id) <= 1)
      && (forall id :: Completions(events, id) > 0 ==> id in ops)
      && (state == Latent ==> backgroundOperations == [] && forcedSleepOperations == [])
    }

    /** The caller holds the operation: it is neither queued nor in flight, and has not been completed. */
    ghost predicate Owned(id: OpId)
      reads this
    {
      id in ops && id !in backgroundOperations && id !in inFlight && Completions(events, id) == 0
    }

    /**
     * The operation is accounted for: queued, in flight, or finished; finished
     * means completed exactly once if it has a callback.
     */
    ghost predicate Accounted(id: OpId)
      reads this
      requires id in ops
    {
      id in backgroundOperations || id in inFlight
      || Completions(events, id) == if ops[id].hasCallback then 1 else 0
    }

    /**
     * What every step keeps: the lifecycle only moves forward, nothing is
     * admitted to the queue once it is stopped, operations evolve as
     * OpsEvolve says, and the event log only grows.
     */
    ghost predicate Step(s0: FrameworkState, q0: seq<OpId>, ops0: map<OpId, Operation>, log0: seq<Event>)
      reads this
    {
      && Lifecycle.Rank(s0) <= Lifecycle.Rank(state)
      && (s0 == Stopped ==> forall id :: id in backgroundOperations ==> id in q0)
      && OpsEvolve(ops0, ops)
      && log0 <= events
    }

    /** UnSlept over this object's state. */
    ghost predicate UnSleptFrom(q0: seq<OpId>, parked: seq<OpId>, ops0: map<OpId, Operation>, log0: seq<Event>)
      reads this
    {
      UnSlept(state, q0, parked, ops0, log0, backgroundOperations, ops, events)
    }

    /**
     * What handleBackgroundOperationException(id, failure) did, from the queue
     * q0, the operations ops0 and the log log0: a retryable failure bumps the
     * retry count; if the policy then allows a retry the operation is queued
     * (or closed, once not STARTED); otherwise retriesExhausted (retryable
     * failures only), the AbortCode result and the error are delivered.
     */
    ghost predicate ExceptionHandled(id: OpId, failure: Failure, elapsedMs: nat,
                                     q0: seq<OpId>, ops0: map<OpId, Operation>, log0: seq<Event>)
      reads this
    {
      && id in ops0
      && ops == (if retryable(failure)
                 then ops0[id := ops0[id].(retryCount := ops0[id].retryCount + 1)]
                 else ops0)
      && backgroundOperations == q0 + (if retryable(failure) && retryPolicy(ops0[id].retryCount, elapsedMs)
                                          && state == Started then [id] else [])
      && events == log0 +
           if retryable(failure) && retryPolicy(ops0[id].retryCount, elapsedMs) then
             (if state == Started then [] else CloseEvent(id, ops0[id]))
           else
             (if retryable(failure) && ops0[id].hasErrorCallback then [RetriesExhausted(id)] else [])
             + CallbackEvent(id, ops0[id], AbortCode(failure, state))
             + [UnhandledError(EXCEPTION_GAVE_UP)]
    }

    /** What sleepAndQueueOperation(id) did at time nowMs: parked and queued while STARTED, closed otherwise. */
    ghost predicate SleptAndQueued(id: OpId, nowMs: nat, q0: seq<OpId>, parked0: seq<OpId>,
                                   ops0: map<OpId, Operation>, log0: seq<Event>)
      reads this
    {
      && id in ops0
      && ops == ops0[id := ops0[id].(sleepUntilMs := nowMs + FORCED_SLEEP_MS)]
      && (state == Started ==>
            backgroundOperations == q0 + [id] && forcedSleepOperations == parked0 + [id] && events == log0)
      && (state != Started ==>
            && backgroundOperations == q0 && forcedSleepOperations == parked0
            && events == log0 + CloseEvent(id, ops0[id]))
    }

    /**
     * What the refusal branch of checkBackgroundRetry did to operation `id`,
     * from the queue q0, the parked list parked0, the operations ops1 (the
     * retry count already incremented) and the log log0, ending with the log
     * `log`: the operation is not queued and is completed once if it has a
     * callback; the give-up events and the connection events of
     * codeToState(code) follow log0 and RETRY_GAVE_UP is logged last; for any
     * session state but SyncConnected nothing else changes, for SyncConnected
     * the parked operations are un-slept as UnSlept says and the parked list
     * is emptied.
     */
    ghost predicate RetryRefused(id: OpId, code: Code, q0: seq<OpId>, parked0: seq<OpId>, ops1: map<OpId, Operation>,
                                 log0: seq<Event>, log: seq<Event>)
      reads this`state, this`backgroundOperations, this`forcedSleepOperations, this`ops
    {
      && id in ops1
      && id !in backgroundOperations
      && Completions(log, id) == (if ops1[id].hasCallback then 1 else 0)
      && |log| > 0 && log[|log| - 1] == UnhandledError(RETRY_GAVE_UP)
      && var delivered := log0 + GiveUpEvents(id, ops1[id], code) + ConnectionEvents(codeToState(code));
         && delivered <= log
         && (codeToState(code) != SyncConnected ==>
               && backgroundOperations == q0 && forcedSleepOperations == parked0 && ops == ops1
               && log == delivered + [UnhandledError(RETRY_GAVE_UP)])
         && (codeToState(code) == SyncConnected ==>
               && forcedSleepOperations == []
               && UnSlept(state, q0, parked0, ops1, delivered, backgroundOperations, ops, log[..|log| - 1]))
    }

    /**
     * What a CONNECTIONLOSS through checkBackgroundRetry did: the retry count
     * rises; on a retry the operation is queued (or closed, once not STARTED);
     * on refusal, as TimeoutGaveUp says. The parked list changes only on a
     * refusal.
     */
    ghost predicate RetriedAfterTimeout(id: OpId, elapsedMs: nat, q0: seq<OpId>, parked0: seq<OpId>,
                                        ops0: map<OpId, Operation>, log0: seq<Event>)
      reads this
    {
      && id in ops0 && id in ops
      && ops[id].retryCount == ops0[id].retryCount + 1
      && (retryPolicy(ops0[id].retryCount, elapsedMs) ==>
            && ops == ops0[id := ops0[id].(retryCount := ops0[id].retryCount + 1)]
            && forcedSleepOperations == parked0
            && (state == Started ==> backgroundOperations == q0 + [id] && events == log0)
            && (state != Started ==> backgroundOperations == q0 && events == log0 + CloseEvent(id, ops0[id])))
      && (!retryPolicy(ops0[id].retryCount, elapsedMs) ==> TimeoutGaveUp(id, q0, parked0, ops0, log0))
    }

    /**
     * The refusal half of RetriedAfterTimeout: the log is a log `log1` that
     * ends the refusal of the retry check as RetryRefused says, followed by
     * CONNECTION_RETRY_GAVE_UP.
     */
    ghost predicate TimeoutGaveUp(id: OpId, q0: seq<OpId>, parked0: seq<OpId>, ops0: map<OpId, Operation>,
                                  log0: seq<Event>)
      reads this
    {
      && id in ops0
      && exists log1 :: events == log1 + [UnhandledError(CONNECTION_RETRY_GAVE_UP)]
                        && RetryRefused(id, ConnectionLoss, q0, parked0, Bumped(ops0, id), log0, log1)
    }

    /**
     * What processBackgroundOperation did with the result `code` of operation
     * `id`, by RouteResult: the retry check, with a requeue iff a retry is
     * allowed, and on refusal as RetryRefused says; the result to the
     * callback; or the listeners notified. Only a refusal touches the parked
     * list.
     */
    ghost predicate ResultProcessed(id: OpId, code: Code, elapsedMs: nat, q0: seq<OpId>, parked0: seq<OpId>,
                                    ops0: map<OpId, Operation>, log0: seq<Event>)
      reads this
    {
      && id in ops0 && id in ops
      && var route := RouteResult(code, retryable(KeeperFailure(code)), ops0[id].hasCallback);
         && (route == ToCallback ==>
               events == log0 + [Callback(id, code)] && backgroundOperations == q0 && ops == ops0
               && forcedSleepOperations == parked0)
         && (route == ToListeners ==>
               events == log0 + [ListenersNotified(OperationResult(id, code))] && backgroundOperations == q0
               && ops == ops0 && forcedSleepOperations == parked0)
         && (route == RetryCheck ==>
               && ops[id].retryCount == ops0[id].retryCount + 1
               && (retryPolicy(ops0[id].retryCount, elapsedMs) ==>
                     && ops == ops0[id := ops0[id].(retryCount := ops0[id].retryCount + 1)]
                     && forcedSleepOperations == parked0
                     && (state == Started ==> backgroundOperations == q0 + [id] && events == log0)
                     && (state != Started ==> backgroundOperations == q0 && events == log0 + CloseEvent(id, ops0[id])))
               && (!retryPolicy(ops0[id].retryCount, elapsedMs) ==>
                     RetryRefused(id, code, q0, parked0, Bumped(ops0, id), log0, events)))
    }

    /**
     * What performBackgroundOperation did with operation `id` in environment
     * `env`, by ChoosePerformRoute: handed to the transport (in flight), or
     * exception handling if that throws; for an operation that waits for the
     * connection, exception handling if getZooKeeper throws, otherwise the
     * forced sleep or the CONNECTIONLOSS retry check.
     */
    ghost predicate PerformedFrom(id: OpId, env: Env, q0: seq<OpId>, parked0: seq<OpId>, ops0: map<OpId, Operation>,
                                  log0: seq<Event>, inFlight0: set<OpId>)
      reads this
    {
      && id in ops0
      && var route := ChoosePerformRoute(ops0[id].connectionRequired, env.connected, env.elapsedMs,
                                         connectionTimeoutMs);
         && (route == RunNow && env.outcome.Returned? ==>
               && events == log0 + [Performed(id)] && inFlight == inFlight0 + {id}
               && backgroundOperations == q0 && forcedSleepOperations == parked0 && ops == ops0)
         && (route == RunNow && env.outcome.Threw? ==>
               && ExceptionHandled(id, env.outcome.failure, env.elapsedMs, q0, ops0, log0)
               && inFlight == inFlight0 && forcedSleepOperations == parked0)
         && (route != RunNow && env.getZooKeeper.Threw? ==>
               && ExceptionHandled(id, env.getZooKeeper.failure, env.elapsedMs, q0, ops0, log0)
               && inFlight == inFlight0 && forcedSleepOperations == parked0)
         && (route == ForcedSleep && env.getZooKeeper.Returned? ==>
               SleptAndQueued(id, env.nowMs, q0, parked0, ops0, log0) && inFlight == inFlight0)
         && (route == ConnectionTimedOut && env.getZooKeeper.Returned? ==>
               RetriedAfterTimeout(id, env.elapsedMs, q0, parked0, ops0, log0) && inFlight == inFlight0)
    }

    constructor (retryPolicy: (nat, nat) -> bool, retryable: Failure -> bool,
                 codeToState: Code -> KeeperState, connectionTimeoutMs: nat)
      ensures Valid()
      ensures this.retryPolicy == retryPolicy && this.retryable == retryable
      ensures this.codeToState == codeToState && this.connectionTimeoutMs == connectionTimeoutMs
      ensures state == Latent && backgroundOperations == [] && forcedSleepOperations == []
      ensures currentInstanceIndex == -1 && ops == map[] && events == [] && inFlight == {}
    {
      this.retryPolicy := retryPolicy;
      this.retryable := retryable;
      this.codeToState := codeToState;
      this.connectionTimeoutMs := connectionTimeoutMs;
      state := Latent;
      backgroundOperations := [];
      forcedSleepOperations := [];
      currentInstanceIndex := -1;
      ops := map[];
      events := [];
      inFlight := {};
    }

    /** A new OperationAndData: a fresh identity, no retries yet, no sleep. */
    method Register(id: OpId, op: Operation)
      requires Valid()
      requires id !in ops
      requires op.retryCount == 0 && op.sleepUntilMs == NO_SLEEP
      modifies this`ops
      ensures Valid() && Owned(id)
      ensures ops == old(ops)[id := op]
    {
      ops := ops[id := op];
    }

    /** Appends to the event log. */
    method Emit(log: seq<Event>)
      modifies this`events
      ensures events == old(events) + log
      ensures forall x :: Completions(events, x) == Completions(old(events), x) + Completions(log, x)
    {
      forall x ensures Completions(events + log, x) == Completions(events, x) + Completions(log, x) {
        CompletionsAppend(events, log, x);
      }
      events := events + log;
    }

    /** start(): only from LATENT; otherwise IllegalStateException (`started` false) and no change. */
    method Start() returns (started: bool)
      requires Valid()
      modifies this`state
      ensures Valid()
      ensures started <==> old(state) == Latent
      ensures state == Lifecycle.StartTransition(old(state)).next
    {
      var t := Lifecycle.StartTransition(state);
      state := t.next;
      started := t.changed;
    }

    /** closeWithLock(): STARTED becomes STOPPED; true only for the call that made that change. */
    method CloseWithLock() returns (changed: bool)
      requires Valid()
      modifies this`state
      ensures Valid()
      ensures changed <==> old(state) == Started
      ensures state == Lifecycle.CloseTransition(old(state)).next
    {
      var t := Lifecycle.CloseTransition(state);
      state := t.next;
      changed := t.changed;
    }

    /** closeOperation: SESSIONEXPIRED to the operation's callback, if it has one. */
    method CloseOperation(id: OpId)
      requires Valid() && Owned(id)
      modifies this`events
      ensures Valid()
      ensures events == old(events) + CloseEvent(id, ops[id])
      ensures forall x :: Completions(events, x) == Completions(old(events), x)
                + (if x == id && ops[id].hasCallback then 1 else 0)
    {
      Emit(CloseEvent(id, ops[id]));
    }

    /** abortOperation: the code AbortCode picks, to the operation's callback, if it has one. */
    method AbortOperation(id: OpId, failure: Failure)
      requires Valid() && Owned(id)
      modifies this`events
      ensures Valid()
      ensures events == old(events) + CallbackEvent(id, ops[id], AbortCode(failure, state))
      ensures forall x :: Completions(events, x) == Completions(old(events), x)
                + (if x == id && ops[id].hasCallback then 1 else 0)
    {
      Emit(CallbackEvent(id, ops[id], AbortCode(failure, state)));
    }

    /** logError: the unhandled-error listeners receive the reason, "n/a" if it is empty. */
    method LogError(reason: string)
      requires Valid()
      modifies this`events
      ensures Valid()
      ensures events == old(events) + [UnhandledError(ReasonOrNA(reason))]
      ensures forall x :: Completions(events, x) == Completions(old(events), x)
    {
      NoCallbackNoCompletionForAll([UnhandledError(ReasonOrNA(reason))]);
      Emit([UnhandledError(ReasonOrNA(reason))]);
    }

    /**
     * queueOperation: admitted, at the end of the queue, exactly while the
     * client is STARTED; otherwise closed at once (SESSIONEXPIRED to its
     * callback, if any) and the queue is unchanged.
     */
    method QueueOperation(id: OpId) returns (queued: bool)
      requires Valid() && Owned(id)
      modifies this`backgroundOperations, this`events
      ensures Valid()
      ensures queued <==> state == Started
      ensures queued ==> backgroundOperations == old(backgroundOperations) + [id] && events == old(events)
      ensures !queued ==> backgroundOperations == old(backgroundOperations)
      ensures !queued ==> events == old(events) + CloseEvent(id, ops[id])
      ensures forall x :: Completions(events, x) == Completions(old(events), x)
                + (if x == id && !queued && ops[id].hasCallback then 1 else 0)
    {
      if state == Started {
        backgroundOperations := backgroundOperations + [id];
        queued := true;
        return;
      }
      CloseOperation(id);
      queued := false;
    }

    /**
     * requeueSleepOperation: always clears the sleep. While STARTED the
     * operation is removed and re-inserted only if it was still queued, so
     * the queue keeps the same members. Otherwise it is closed only if this
     * call won the removal, so an operation already taken by the dispatch
     * loop or by close() is not completed a second time.
     */
    method RequeueSleepOperation(id: OpId)
      requires Valid() && id in ops
      modifies this`ops, this`backgroundOperations, this`events
      ensures Valid()
      ensures Requeued(state, id, old(backgroundOperations), old(ops), old(events), backgroundOperations, ops, events)
    {
      ops := ops[id := ops[id].(sleepUntilMs := NO_SLEEP)];
      if state == Started {
        var removed := id in backgroundOperations;
        backgroundOperations := RemoveFirst(backgroundOperations, id);
        if removed {
          backgroundOperations := backgroundOperations + [id];
        }
        return;
      }
      var removed := id in backgroundOperations;
      backgroundOperations := RemoveFirst(backgroundOperations, id);
      if removed {
        CloseOperation(id);
      }
    }

    /** requeueSleepOperation on one more of the drained operations. */
    method UnSleepOne(ghost q0: seq<OpId>, ghost parked: seq<OpId>, ghost ops0: map<OpId, Operation>,
                      ghost log0: seq<Event>, id: OpId)
      requires Valid() && id in ops0 && id in ops
      requires UnSleptFrom(q0, parked, ops0, log0)
      modifies this`ops, this`backgroundOperations, this`events
      ensures Valid()
      ensures UnSleptFrom(q0, parked + [id], ops0, log0)
    {
      RequeueSleepOperation(id);
    }

    /**
     * unSleepBackgroundOperations: empties forcedSleepOperations and runs
     * requeueSleepOperation on every operation it held.
     */
    method UnSleepBackgroundOperations()
      requires Valid()
      modifies this`ops, this`backgroundOperations, this`events, this`forcedSleepOperations
      ensures Valid()
      ensures forcedSleepOperations == []
      ensures UnSleptFrom(old(backgroundOperations), old(forcedSleepOperations), old(ops), old(events))
    {
      var drain := forcedSleepOperations;
      forcedSleepOperations := [];
      var i := 0;
      while i < |drain|
        invariant 0 <= i <= |drain|
        invariant Valid()
        invariant forcedSleepOperations == []
        invariant AllKnown(drain, ops)
        invariant UnSleptFrom(old(backgroundOperations), drain[..i], old(ops), old(events))
      {
        UnSleepOne(old(backgroundOperations), drain[..i], old(ops), old(events), drain[i]);
        assert drain[..i + 1] == drain[..i] + [drain[i]];
        i := i + 1;
      }
      assert drain[..i] == drain;
    }

    /**
     * validateConnection: Disconnected suspends, Expired is LOST,
     * SyncConnected checks for a new connection, is RECONNECTED and un-sleeps
     * every parked operation, ConnectedReadOnly checks for a new connection and
     * is READ_ONLY; any other state changes nothing.
     */
    method ValidateConnection(ks: KeeperState)
      requires Valid()
      modifies this`ops, this`backgroundOperations, this`events, this`forcedSleepOperations
      ensures Valid()
      ensures ks != SyncConnected ==> events == old(events) + ConnectionEvents(ks)
      ensures ks != SyncConnected ==> backgroundOperations == old(backgroundOperations)
      ensures ks != SyncConnected ==> forcedSleepOperations == old(forcedSleepOperations) && ops == old(ops)
      ensures ks == SyncConnected ==> forcedSleepOperations == []
      ensures ks == SyncConnected ==> UnSleptFrom(old(backgroundOperations), old(forcedSleepOperations), old(ops),
                                                  old(events) + ConnectionEvents(ks))
      ensures old(events) + ConnectionEvents(ks) <= events
      ensures forall x :: x !in old(backgroundOperations) ==> Completions(events, x) == Completions(old(events), x)
      ensures forall x :: x in backgroundOperations ==> x in old(backgroundOperations)
      ensures SleepsCleared(old(ops), ops, if ks == SyncConnected then old(forcedSleepOperations) else [])
    {
      NoCallbackNoCompletionForAll(ConnectionEvents(ks));
      Emit(ConnectionEvents(ks));
      if ks == SyncConnected {
        UnSleepBackgroundOperations();
      }
    }

    /**
     * checkInstanceIndex: stores the transport's current instance index and
     * reports LOST when the previously stored index was set and differs.
     */
    method CheckInstanceIndex(instanceIndex: int)
      requires Valid()
      modifies this`currentInstanceIndex, this`events
      ensures Valid()
      ensures currentInstanceIndex == instanceIndex
      ensures events == old(events)
                + (if LostOnIndexChange(old(currentInstanceIndex), instanceIndex) then [StateChange(Lost)] else [])
    {
      var previous := currentInstanceIndex;
      currentInstanceIndex := instanceIndex;
      if LostOnIndexChange(previous, instanceIndex) {
        NoCallbackNoCompletionForAll([StateChange(Lost)]);
        Emit([StateChange(Lost)]);
      }
    }

    /**
     * checkBackgroundRetry: asks the retry policy with the retry count as it
     * was, and always increments the count. When the policy refuses:
     * retriesExhausted to the error callback, the result to the callback,
     * codeToState(code) to validateConnection, and the error logged.
     */
    method CheckBackgroundRetry(id: OpId, code: Code, elapsedMs: nat) returns (doRetry: bool)
      requires Valid() && Owned(id)
      modifies this`ops, this`backgroundOperations, this`events, this`forcedSleepOperations
      ensures Valid()
      ensures doRetry <==> retryPolicy(old(ops)[id].retryCount, elapsedMs)
      ensures id in ops && ops[id].retryCount == old(ops)[id].retryCount + 1
      ensures OpsEvolve(old(ops), ops)
      ensures doRetry ==> Owned(id) && events == old(events)
      ensures doRetry ==> ops == old(ops)[id := old(ops)[id].(retryCount := old(ops)[id].retryCount + 1)]
      ensures doRetry ==> backgroundOperations == old(backgroundOperations)
      ensures doRetry ==> forcedSleepOperations == old(forcedSleepOperations)
      ensures !doRetry ==> RetryRefused(id, code, old(backgroundOperations), old(forcedSleepOperations),
                                        Bumped(old(ops), id), old(events), events)
      ensures Step(old(state), old(backgroundOperations), old(ops), old(events))
    {
      var count := GetThenIncrementRetryCount(id);
      doRetry := retryPolicy(count, elapsedMs);
      if !doRetry {
        ghost var ops1 := ops;
        RetryGaveUp(id, code);
        OpsEvolveTransitive(old(ops), ops1, ops);
      }
    }

    /** OperationAndData.getThenIncrementRetryCount: the count as it was; the operation now has one more. */
    method GetThenIncrementRetryCount(id: OpId) returns (count: nat)
      requires Valid() && Owned(id)
      modifies this`ops
      ensures Valid() && Owned(id)
      ensures count == old(ops)[id].retryCount
      ensures ops == Bumped(old(ops), id)
      ensures OpsEvolve(old(ops), ops)
    {
      count := ops[id].retryCount;
      ops := Bumped(ops, id);
    }

    /**
     * The refusal branch of checkBackgroundRetry: retriesExhausted to the
     * error callback, the result to the callback, codeToState(code) to
     * validateConnection, and the error logged.
     */
    method RetryGaveUp(id: OpId, code: Code)
      requires Valid() && Owned(id)
      modifies this`ops, this`backgroundOperations, this`events, this`forcedSleepOperations
      ensures Valid()
      ensures id in ops && ops[id].retryCount == old(ops)[id].retryCount
      ensures OpsEvolve(old(ops), ops)
      ensures Step(state, old(backgroundOperations), old(ops), old(events))
      ensures RetryRefused(id, code, old(backgroundOperations), old(forcedSleepOperations), old(ops), old(events), events)
    {
      DeliverGiveUp(id, code);
      ValidateConnection(codeToState(code));
      ghost var log1 := events;
      LogError(RETRY_GAVE_UP);
      assert events[..|events| - 1] == log1;
    }

    /** retriesExhausted to the error callback, if any, then `code` to the callback, if any. */
    method DeliverGiveUp(id: OpId, code: Code)
      requires Valid() && Owned(id)
      modifies this`events
      ensures Valid()
      ensures events == old(events) + GiveUpEvents(id, ops[id], code)
      ensures forall x :: Completions(events, x) == Completions(old(events), x)
                + (if x == id && ops[id].hasCallback then 1 else 0)
    {
      forall x
        ensures Completions(GiveUpEvents(id, ops[id], code), x) == if x == id && ops[id].hasCallback then 1 else 0
      {
        var exhausted := if ops[id].hasErrorCallback then [RetriesExhausted(id)] else [];
        NoCallbackNoCompletion(exhausted, x);
        CompletionsAppend(exhausted, CallbackEvent(id, ops[id], code), x);
      }
      Emit(GiveUpEvents(id, ops[id], code));
    }

    /**
     * handleBackgroundOperationException for an operation that threw: a
     * retryable failure increments the retry count and, if the policy allows,
     * the operation is queued again; otherwise retriesExhausted (when the
     * failure was retryable), abortOperation, and the error is logged.
     */
    method HandleBackgroundOperationException(id: OpId, failure: Failure, elapsedMs: nat)
      requires Valid() && Owned(id)
      modifies this`ops, this`backgroundOperations, this`events
      ensures Valid()
      ensures ExceptionHandled(id, failure, elapsedMs, old(backgroundOperations), old(ops), old(events))
      ensures id in ops && Accounted(id)
    {
      if retryable(failure) {
        var count := GetThenIncrementRetryCount(id);
        if retryPolicy(count, elapsedMs) {
          var _ := QueueOperation(id);
          return;
        }
        if ops[id].hasErrorCallback {
          NoCallbackNoCompletionForAll([RetriesExhausted(id)]);
          Emit([RetriesExhausted(id)]);
        }
      }
      ghost var log1 := events;
      AbortOperation(id, failure);
      LogError(EXCEPTION_GAVE_UP);
      assert events == log1 + CallbackEvent(id, old(ops)[id], AbortCode(failure, state)) + [UnhandledError(EXCEPTION_GAVE_UP)];
    }

    /**
     * sleepAndQueueOperation: the operation sleeps for a second and is queued;
     * only if it was queued is it also recorded in forcedSleepOperations.
     */
    method SleepAndQueueOperation(id: OpId, nowMs: nat)
      requires Valid() && Owned(id)
      modifies this`ops, this`backgroundOperations, this`events, this`forcedSleepOperations
      ensures Valid()
      ensures SleptAndQueued(id, nowMs, old(backgroundOperations), old(forcedSleepOperations), old(ops), old(events))
      ensures id in ops && Accounted(id)
    {
      ops := ops[id := ops[id].(sleepUntilMs := nowMs + FORCED_SLEEP_MS)];
      var queued := QueueOperation(id);
      if queued {
        forcedSleepOperations := forcedSleepOperations + [id];
      }
    }

    /**
     * performBackgroundOperation: an operation that needs no connection, or
     * finds the client connected, is handed to the transport; otherwise it is
     * parked in a forced sleep while the elapsed time is below the connection
     * timeout, and after that a CONNECTIONLOSS result goes through
     * checkBackgroundRetry and the operation is queued again iff a retry is
     * allowed. If the transport throws, handleBackgroundOperationException
     * takes over. In every case the operation ends up queued, in flight or
     * finished, and it is never completed twice.
     */
    method PerformBackgroundOperation(id: OpId, env: Env)
      requires Valid() && Owned(id)
      modifies this
      ensures Valid()
      ensures state == old(state)
      ensures Step(old(state), old(backgroundOperations), old(ops), old(events))
      ensures id in ops && Accounted(id)
      ensures inFlight - {id} == old(inFlight)
      ensures currentInstanceIndex == old(currentInstanceIndex)
      ensures PerformedFrom(id, env, old(backgroundOperations), old(forcedSleepOperations), old(ops), old(events),
                            old(inFlight))
    {
      var route := ChoosePerformRoute(ops[id].connectionRequired, env.connected, env.elapsedMs, connectionTimeoutMs);
      if route == RunNow {
        match env.outcome {
          case Returned =>
            Dispatch(id);
          case Threw(failure) =>
            HandleBackgroundOperationException(id, failure, env.elapsedMs);
        }
        return;
      }
      AwaitConnection(id, env);
    }

    /**
     * The part of performBackgroundOperation for an operation that needs the
     * connection and finds none: getZooKeeper, then the forced sleep while the
     * elapsed time is below the connection timeout, the CONNECTIONLOSS retry
     * check after that.
     */
    method AwaitConnection(id: OpId, env: Env)
      requires Valid() && Owned(id)
      requires ChoosePerformRoute(ops[id].connectionRequired, env.connected, env.elapsedMs, connectionTimeoutMs) != RunNow
      modifies this`ops, this`backgroundOperations, this`events, this`forcedSleepOperations
      ensures Valid()
      ensures Step(state, old(backgroundOperations), old(ops), old(events))
      ensures id in ops && Accounted(id)
      ensures PerformedFrom(id, env, old(backgroundOperations), old(forcedSleepOperations), old(ops), old(events),
                            inFlight)
    {
      var route := ChoosePerformRoute(ops[id].connectionRequired, env.connected, env.elapsedMs, connectionTimeoutMs);
      match env.getZooKeeper {
        case Threw(failure) =>
          HandleBackgroundOperationException(id, failure, env.elapsedMs);
        case Returned =>
          if route == ForcedSleep {
            SleepAndQueueOperation(id, env.nowMs);
          } else {
            ConnectionTimeoutRetry(id, env.elapsedMs);
          }
      }
    }

    /** The operation is handed to the transport and is in flight until its result is processed. */
    method Dispatch(id: OpId)
      requires Valid() && Owned(id)
      modifies this`events, this`inFlight
      ensures Valid()
      ensures events == old(events) + [Performed(id)]
      ensures inFlight == old(inFlight) + {id}
    {
      NoCallbackNoCompletionForAll([Performed(id)]);
      Emit([Performed(id)]);
      inFlight := inFlight + {id};
    }

    /** The connection never came: handled as a CONNECTIONLOSS result through checkBackgroundRetry. */
    method ConnectionTimeoutRetry(id: OpId, elapsedMs: nat)
      requires Valid() && Owned(id)
      modifies this`ops, this`backgroundOperations, this`events, this`forcedSleepOperations
      ensures Valid()
      ensures Step(state, old(backgroundOperations), old(ops), old(events))
      ensures id in ops && Accounted(id)
      ensures RetriedAfterTimeout(id, elapsedMs, old(backgroundOperations), old(forcedSleepOperations), old(ops),
                                  old(events))
    {
      var retry := CheckBackgroundRetry(id, ConnectionLoss, elapsedMs);
      if retry {
        RequeueAfterTimeout(id, elapsedMs, old(backgroundOperations), old(forcedSleepOperations), old(ops), old(events));
      } else {
        ghost var log1 := events;
        LogTimeoutGaveUp(id, old(backgroundOperations), old(ops), old(events));
        TimeoutGaveUpLogged(id, old(backgroundOperations), old(forcedSleepOperations), old(ops), old(events), log1);
      }
    }

    /** The CONNECTIONLOSS retry check allowed a retry: the operation is queued again. */
    method RequeueAfterTimeout(id: OpId, ghost elapsedMs: nat, ghost q0: seq<OpId>, ghost parked0: seq<OpId>,
                               ghost ops0: map<OpId, Operation>, ghost log0: seq<Event>)
      requires Valid() && Owned(id)
      requires id in ops0 && retryPolicy(ops0[id].retryCount, elapsedMs)
      requires ops == Bumped(ops0, id) && backgroundOperations == q0 && forcedSleepOperations == parked0
      requires events == log0 && Step(state, q0, ops0, log0)
      modifies this`backgroundOperations, this`events
      ensures Valid()
      ensures Step(state, q0, ops0, log0)
      ensures id in ops && Accounted(id)
      ensures RetriedAfterTimeout(id, elapsedMs, q0, parked0, ops0, log0)
    {
      var _ := QueueOperation(id);
    }

    /**
     * The CONNECTIONLOSS retry check refused: a second error is logged after
     * the one checkBackgroundRetry logged, and nothing else changes.
     */
    method LogTimeoutGaveUp(ghost id: OpId, ghost q0: seq<OpId>, ghost ops0: map<OpId, Operation>, ghost log0: seq<Event>)
      requires Valid()
      requires id in ops0 && id !in backgroundOperations && Step(state, q0, ops0, log0)
      requires id in ops && ops[id].hasCallback == ops0[id].hasCallback
      requires Completions(events, id) == if ops0[id].hasCallback then 1 else 0
      modifies this`events
      ensures Valid()
      ensures events == old(events) + [UnhandledError(CONNECTION_RETRY_GAVE_UP)]
      ensures Step(state, q0, ops0, log0)
      ensures id in ops && Accounted(id)
      ensures Completions(events, id) == Completions(old(events), id)
    {
      LogError(CONNECTION_RETRY_GAVE_UP);
    }

    /** The log `log1` of a refused CONNECTIONLOSS retry check, followed by CONNECTION_RETRY_GAVE_UP, is TimeoutGaveUp. */
    lemma TimeoutGaveUpLogged(id: OpId, q0: seq<OpId>, parked0: seq<OpId>, ops0: map<OpId, Operation>,
                              log0: seq<Event>, log1: seq<Event>)
      requires id in ops0
      requires RetryRefused(id, ConnectionLoss, q0, parked0, Bumped(ops0, id), log0, log1)
      requires events == log1 + [UnhandledError(CONNECTION_RETRY_GAVE_UP)]
      ensures TimeoutGaveUp(id, q0, parked0, ops0, log0)
    {
    }

    /**
     * processEvent: a WATCHED event goes through validateConnection with its
     * session state first; then the listeners receive the event.
     */
    method ProcessEvent(ev: CuratorEvent)
      requires Valid()
      modifies this`ops, this`backgroundOperations, this`events, this`forcedSleepOperations
      ensures Valid()
      ensures Step(state, old(backgroundOperations), old(ops), old(events))
      ensures |events| > 0 && events[|events| - 1] == ListenersNotified(ev)
      ensures ev.OperationResult? ==> events == old(events) + [ListenersNotified(ev)]
      ensures ev.OperationResult? ==> backgroundOperations == old(backgroundOperations) && ops == old(ops)
      ensures ev.OperationResult? ==> forcedSleepOperations == old(forcedSleepOperations)
      ensures ev.Watched? ==> old(events) + ConnectionEvents(ev.keeperState) <= events
      ensures ev.Watched? && ev.keeperState != SyncConnected ==>
                events == old(events) + ConnectionEvents(ev.keeperState) + [ListenersNotified(ev)]
      ensures ev.Watched? && ev.keeperState != SyncConnected ==>
                backgroundOperations == old(backgroundOperations) && ops == old(ops)
                && forcedSleepOperations == old(forcedSleepOperations)
      ensures ev == Watched(SyncConnected) ==> forcedSleepOperations == []
      ensures ev == Watched(SyncConnected) ==>
                UnSlept(state, old(backgroundOperations), old(forcedSleepOperations), old(ops),
                        old(events) + ConnectionEvents(SyncConnected),
                        backgroundOperations, ops, events[..|events| - 1])
      ensures forall x :: x !in old(backgroundOperations) ==> Completions(events, x) == Completions(old(events), x)
    {
      if ev.Watched? {
        ValidateConnection(ev.keeperState);
      }
      ghost var log1 := events;
      NoCallbackNoCompletionForAll([ListenersNotified(ev)]);
      Emit([ListenersNotified(ev)]);
      assert events[..|events| - 1] == log1;
    }

    /** The transport reports the result of an in-flight operation: the caller holds it again. */
    method Land(id: OpId)
      requires Valid() && id in inFlight
      modifies this`inFlight
      ensures Valid() && Owned(id)
      ensures inFlight == old(inFlight) - {id}
    {
      inFlight := inFlight - {id};
    }

    /**
     * The result `code` of an operation the caller holds: a failure the
     * retry policy calls retryable goes through checkBackgroundRetry and the
     * operation is queued again if a retry is allowed; otherwise the result
     * goes to the callback if there is one, and to processEvent if not.
     */
    method ProcessResult(id: OpId, code: Code, elapsedMs: nat)
      requires Valid() && Owned(id)
      modifies this`ops, this`backgroundOperations, this`events, this`forcedSleepOperations
      ensures Valid()
      ensures Step(state, old(backgroundOperations), old(ops), old(events))
      ensures id in ops && Accounted(id)
      ensures ResultProcessed(id, code, elapsedMs, old(backgroundOperations), old(forcedSleepOperations), old(ops),
                              old(events))
    {
      var route := RouteResult(code, retryable(KeeperFailure(code)), ops[id].hasCallback);
      match route {
        case RetryCheck =>
          var doQueue := CheckBackgroundRetry(id, code, elapsedMs);
          if doQueue {
            var _ := QueueOperation(id);
          }
        case ToCallback =>
          Emit(CallbackEvent(id, ops[id], code));
        case ToListeners =>
          ProcessEvent(OperationResult(id, code));
      }
    }

    /**
     * processBackgroundOperation: with no result yet (the initial execution)
     * the operation is performed; with the transport's result it is routed
     * as ProcessResult says.
     */
    method ProcessBackgroundOperation(id: OpId, result: Option<Code>, env: Env)
      requires Valid()
      requires result.None? ==> Owned(id)
      requires result.Some? ==> id in inFlight
      modifies this
      ensures Valid()
      ensures state == old(state)
      ensures Step(old(state), old(backgroundOperations), old(ops), old(events))
      ensures id in ops && Accounted(id)
      ensures result.None? ==>
                PerformedFrom(id, env, old(backgroundOperations), old(forcedSleepOperations), old(ops), old(events),
                              old(inFlight))
      ensures currentInstanceIndex == old(currentInstanceIndex)
      ensures result.Some? ==> inFlight == old(inFlight) - {id}
      ensures result.Some? ==>
                ResultProcessed(id, result.value, env.elapsedMs, old(backgroundOperations), old(forcedSleepOperations),
                                old(ops), old(events))
    {
      match result {
        case None =>
          PerformBackgroundOperation(id, env);
        case Some(code) =>
          Land(id);
          ProcessResult(id, code, env.elapsedMs);
      }
    }

    /**
     * DelayQueue.take at time `nowMs`: the operation with the earliest
     * deadline leaves the queue once that deadline has passed; while it has
     * not, take is still waiting (None) and the queue is unchanged.
     */
    method Take(nowMs: nat) returns (taken: Option<OpId>)
      requires Valid()
      modifies this`backgroundOperations
      ensures Valid()
      ensures taken.None? ==> backgroundOperations == old(backgroundOperations)
      ensures taken.None? ==> forall x :: x in backgroundOperations ==> !IsExpired(ops[x], nowMs)
      ensures taken.Some? ==> taken.value in old(backgroundOperations) && IsExpired(ops[taken.value], nowMs)
      ensures taken.Some? ==>
                forall x :: x in old(backgroundOperations) ==> ops[taken.value].sleepUntilMs <= ops[x].sleepUntilMs
      ensures taken.Some? ==> backgroundOperations == RemoveFirst(old(backgroundOperations), taken.value)
      ensures taken.Some? ==> Owned(taken.value)
    {
      if backgroundOperations == [] {
        return None;
      }
      var k := EarliestDeadline(backgroundOperations, ops);
      var head := backgroundOperations[k];
      if !IsExpired(ops[head], nowMs) {
        return None;
      }
      backgroundOperations := RemoveFirst(backgroundOperations, head);
      return Some(head);
    }

    /**
     * backgroundOperationsLoop, one iteration per tick while the client is
     * STARTED: take the next expired operation, if any, and perform it.
     */
    method BackgroundOperationsLoop(ticks: seq<Env>)
      requires Valid()
      modifies this
      ensures Valid()
      ensures state == old(state)
      ensures Step(old(state), old(backgroundOperations), old(ops), old(events))
      ensures old(state) != Started ==> backgroundOperations == old(backgroundOperations)
      ensures old(state) != Started ==> events == old(events) && ops == old(ops)
      ensures currentInstanceIndex == old(currentInstanceIndex)
    {
      var i := 0;
      while i < |ticks| && state == Started
        invariant 0 <= i <= |ticks|
        invariant Valid()
        invariant state == old(state)
        invariant Step(old(state), old(backgroundOperations), old(ops), old(events))
        invariant old(state) != Started ==> backgroundOperations == old(backgroundOperations)
        invariant old(state) != Started ==> events == old(events) && ops == old(ops)
        invariant currentInstanceIndex == old(currentInstanceIndex)
      {
        var taken := Take(ticks[i].nowMs);
        if taken.Some? {
          PerformBackgroundOperation(taken.value, ticks[i]);
        }
        i := i + 1;
      }
    }

    /**
     * The drain at the end of close(): every queued operation's sleep is
     * cleared, drainTo moves them all out, and each receives SESSIONEXPIRED,
     * once, in queue order.
     */
    method DrainQueue(nowMs: nat)
      requires Valid() && state == Stopped
      modifies this`ops, this`backgroundOperations, this`events
      ensures Valid()
      ensures backgroundOperations == []
      ensures SleepsCleared(old(ops), ops, old(backgroundOperations))
      ensures events == old(events) + CloseEvents(old(backgroundOperations), ops)
      ensures forall x :: Completions(events, x) == Completions(old(events), x)
                + (if x in old(backgroundOperations) && old(ops)[x].hasCallback then 1 else 0)
    {
      ClearSleeps();
      ClearedQueueDrainsFully(backgroundOperations, ops, nowMs);
      var dropped := Queues.Expired(backgroundOperations, ops, nowMs);
      backgroundOperations := Unexpired(backgroundOperations, ops, nowMs);
      CloseDropped(dropped);
    }

    /** backgroundOperations.forEach(clearSleep). */
    method ClearSleeps()
      requires Valid()
      modifies this`ops
      ensures Valid()
      ensures SleepsCleared(old(ops), ops, backgroundOperations)
      ensures forall id :: id in backgroundOperations ==> ops[id].sleepUntilMs == NO_SLEEP
    {
      var i := 0;
      while i < |backgroundOperations|
        invariant 0 <= i <= |backgroundOperations|
        invariant SleepsCleared(old(ops), ops, backgroundOperations[..i])
      {
        var id := backgroundOperations[i];
        ops := ops[id := ops[id].(sleepUntilMs := NO_SLEEP)];
        assert backgroundOperations[..i + 1] == backgroundOperations[..i] + [id];
        i := i + 1;
      }
      assert backgroundOperations[..i] == backgroundOperations;
    }

    /** droppedOperations.forEach(closeOperation), for operations the caller holds. */
    method CloseDropped(dropped: seq<OpId>)
      requires Valid() && NoDuplicates(dropped) && AllKnown(dropped, ops)
      requires forall k :: 0 <= k < |dropped| ==> Owned(dropped[k])
      modifies this`events
      ensures Valid()
      ensures events == old(events) + CloseEvents(dropped, ops)
      ensures forall x :: Completions(events, x) == Completions(old(events), x)
                + (if x in dropped && ops[x].hasCallback then 1 else 0)
    {
      var j := 0;
      while j < |dropped|
        invariant 0 <= j <= |dropped|
        invariant Valid()
        invariant events == old(events) + CloseEvents(dropped[..j], ops)
        invariant forall k :: j <= k < |dropped| ==> Owned(dropped[k])
      {
        CloseOperation(dropped[j]);
        assert dropped[..j + 1][..j] == dropped[..j];
        j := j + 1;
      }
      assert dropped[..j] == dropped;
      forall x
        ensures Completions(events, x) == Completions(old(events), x)
                  + (if x in dropped && ops[x].hasCallback then 1 else 0)
      {
        CompletionsAppend(old(events), CloseEvents(dropped, ops), x);
        CloseEventsCompleteOnce(dropped, ops, x);
      }
    }

    /**
     * close(): only the call that moves STARTED to STOPPED does anything; it
     * notifies the listeners of CLOSING and then drains the queue, so every
     * operation still queued is completed exactly once.
     */
    method Close(nowMs: nat) returns (changed: bool)
      requires Valid()
      modifies this`state, this`ops, this`backgroundOperations, this`events
      ensures Valid()
      ensures changed <==> old(state) == Started
      ensures state == Lifecycle.CloseTransition(old(state)).next
      ensures !changed ==> backgroundOperations == old(backgroundOperations)
      ensures !changed ==> events == old(events) && ops == old(ops)
      ensures ops.Keys == old(ops).Keys
      ensures changed ==> SleepsCleared(old(ops), ops, old(backgroundOperations))
      ensures changed ==> backgroundOperations == []
      ensures changed ==> events == old(events) + [ClosingNotified] + CloseEvents(old(backgroundOperations), ops)
      ensures changed ==> forall x :: x in old(backgroundOperations) ==>
                Completions(events, x) == if old(ops)[x].hasCallback then 1 else 0
    {
      changed := CloseWithLock();
      if changed {
        NoCallbackNoCompletionForAll([ClosingNotified]);
        Emit([ClosingNotified]);
        DrainQueue(nowMs);
      }
    }
  }
}
