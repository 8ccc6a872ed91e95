/**
 * Counting completions in the event log. An operation is completed each time
 * its BackgroundCallback receives a result; the engine promises this happens
 * at most once per operation. close() completes the queued operations with
 * SESSIONEXPIRED, in queue order.
 */
module EventLog {
  import opened Types
  import opened Queues

  /** How many times the log delivers a result to operation `id`'s callback. */
  function Completions(log: seq<Event>, id: OpId): nat
  {
    if log == [] then 0
    else (if log[0].Callback? && log[0].op == id then 1 else 0) + Completions(log[1..], id)
  }

  lemma {:induction false} CompletionsAppend(a: seq<Event>, b: seq<Event>, id: OpId)
    ensures Completions(a + b, id) == Completions(a, id) + Completions(b, id)
  {
    if a == [] {
      assert a + b == b;
    } else {
      assert (a + b)[1..] == a[1..] + b;
      CompletionsAppend(a[1..], b, id);
    }
  }

  /** A log that delivers no result to any callback completes nothing. */
  lemma {:induction false} NoCallbackNoCompletion(log: seq<Event>, id: OpId)
    requires forall e :: e in log ==> !e.Callback?
    ensures Completions(log, id) == 0
  {
    if log != [] {
      assert log[0] in log;
      assert forall e :: e in log[1..] ==> e in log;
      NoCallbackNoCompletion(log[1..], id);
    }
  }

  lemma NoCallbackNoCompletionForAll(log: seq<Event>)
    requires forall e :: e in log ==> !e.Callback?
    ensures forall x :: Completions(log, x) == 0
  {
    forall x ensures Completions(log, x) == 0 {
      NoCallbackNoCompletion(log, x);
    }
  }

  /** Every event of the log is a SESSIONEXPIRED result delivered to some callback. */
  predicate SessionExpiredOnly(log: seq<Event>)
  {
    forall k :: 0 <= k < |log| ==> log[k].Callback? && log[k].code == SessionExpired
  }

  /** Delivering `code` to operation `id`, which happens only when it has a callback. */
  function CallbackEvent(id: OpId, op: Operation, code: Code): (r: seq<Event>)
    ensures op.hasCallback <==> r != []
    ensures forall e :: e in r ==> e == Callback(id, code)
    ensures forall x :: Completions(r, x) == if x == id && op.hasCallback then 1 else 0
  {
    if op.hasCallback then [Callback(id, code)] else []
  }

  /** closeOperation: SESSIONEXPIRED to the callback, if there is one. */
  function CloseEvent(id: OpId, op: Operation): (r: seq<Event>)
    ensures SessionExpiredOnly(r)
    ensures forall x :: Completions(r, x) == if x == id && op.hasCallback then 1 else 0
  {
    CallbackEvent(id, op, SessionExpired)
  }

  /** closeOperation applied to each operation of `q` in turn. */
  function CloseEvents(q: seq<OpId>, ops: map<OpId, Operation>): (r: seq<Event>)
    requires AllKnown(q, ops)
    ensures SessionExpiredOnly(r)
    ensures |r| <= |q|
    ensures forall k :: 0 <= k < |r| ==> r[k].op in q && ops[r[k].op].hasCallback
  {
    if q == [] then []
    else
      var last := q[|q| - 1];
      CloseEvents(q[..|q| - 1], ops) + CloseEvent(last, ops[last])
  }

  /**
   * Closing N distinct queued operations completes exactly the ones that have
   * a callback, each exactly once, and no other operation.
   */
  lemma {:induction false} CloseEventsCompleteOnce(q: seq<OpId>, ops: map<OpId, Operation>, id: OpId)
    requires AllKnown(q, ops)
    requires NoDuplicates(q)
    ensures Completions(CloseEvents(q, ops), id) == if id in q && ops[id].hasCallback then 1 else 0
  {
    if q != [] {
      var init, last := q[..|q| - 1], q[|q| - 1];
      assert q == init + [last];
      assert NoDuplicates(init);
      assert last !in init;
      CloseEventsCompleteOnce(init, ops, id);
      CompletionsAppend(CloseEvents(init, ops), CloseEvent(last, ops[last]), id);
    }
  }
}
