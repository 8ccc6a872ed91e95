/**
 * The queue operations the engine relies on, over a queue of operation ids
 * and the operations' current records: BlockingQueue.remove (first
 * occurrence), and the two DelayQueue operations, take (the head, that is the
 * operation with the earliest deadline, once that deadline has passed) and
 * drainTo (every operation whose deadline has passed, nothing else).
 */
module Queues {
  import opened Types

  predicate NoDuplicates(q: seq<OpId>)
  {
    forall i, j :: 0 <= i < j < |q| ==> q[i] != q[j]
  }

  predicate AllKnown(q: seq<OpId>, ops: map<OpId, Operation>)
  {
    forall id :: id in q ==> id in ops
  }

  /** backgroundOperations.remove(op): true, and the first occurrence gone, iff the op was queued. */
  function RemoveFirst(q: seq<OpId>, id: OpId): (r: seq<OpId>)
    ensures id !in q ==> r == q
    ensures id in q ==> |r| == |q| - 1
    ensures forall x :: x in r ==> x in q
    ensures forall x :: x != id && x in q ==> x in r
    ensures NoDuplicates(q) ==> NoDuplicates(r) && id !in r
  {
    if q == [] then []
    else if q[0] == id then
      assert NoDuplicates(q) ==> forall k :: 0 <= k < |q[1..]| ==> q[1..][k] == q[k + 1] != q[0];
      q[1..]
    else
      var rest := RemoveFirst(q[1..], id);
      assert NoDuplicates(q) ==> NoDuplicates(q[1..]) && q[0] !in q[1..] by {
        if NoDuplicates(q) {
          forall k | 0 <= k < |q[1..]| ensures q[1..][k] != q[0] { assert q[1..][k] == q[k + 1]; }
        }
      }
      [q[0]] + rest
  }

  /** An operation is expired, and can leave the DelayQueue, once its deadline is not in the future. */
  predicate IsExpired(op: Operation, nowMs: nat)
  {
    op.sleepUntilMs <= nowMs
  }

  /** The operations DelayQueue.drainTo moves out: the expired ones, in queue order. */
  function Expired(q: seq<OpId>, ops: map<OpId, Operation>, nowMs: nat): (r: seq<OpId>)
    requires AllKnown(q, ops)
    ensures forall x :: x in r <==> x in q && IsExpired(ops[x], nowMs)
    ensures |r| <= |q|
  {
    if q == [] then []
    else (if IsExpired(ops[q[0]], nowMs) then [q[0]] else []) + Expired(q[1..], ops, nowMs)
  }

  /** The operations drainTo leaves in the DelayQueue: the ones still sleeping, in queue order. */
  function Unexpired(q: seq<OpId>, ops: map<OpId, Operation>, nowMs: nat): (r: seq<OpId>)
    requires AllKnown(q, ops)
    ensures forall x :: x in r <==> x in q && !IsExpired(ops[x], nowMs)
    ensures |r| <= |q|
  {
    if q == [] then []
    else (if IsExpired(ops[q[0]], nowMs) then [] else [q[0]]) + Unexpired(q[1..], ops, nowMs)
  }

  /**
   * Once every queued operation has had its sleep cleared, drainTo takes the
   * whole queue, in order, and leaves it empty, whatever the clock says. This
   * is why close() clears every sleep before it drains.
   */
  lemma {:induction false} ClearedQueueDrainsFully(q: seq<OpId>, ops: map<OpId, Operation>, nowMs: nat)
    requires AllKnown(q, ops)
    requires forall id :: id in q ==> ops[id].sleepUntilMs == NO_SLEEP
    ensures Expired(q, ops, nowMs) == q
    ensures Unexpired(q, ops, nowMs) == []
  {
    if q != [] {
      assert q[0] in q;
      ClearedQueueDrainsFully(q[1..], ops, nowMs);
      assert [q[0]] + q[1..] == q;
    }
  }

  /**
   * The head of the DelayQueue: the position of an operation whose deadline
   * is no later than any other queued operation's (the first such one).
   */
  method EarliestDeadline(q: seq<OpId>, ops: map<OpId, Operation>) returns (k: nat)
    requires |q| > 0
    requires AllKnown(q, ops)
    ensures k < |q|
    ensures forall j :: 0 <= j < |q| ==> ops[q[k]].sleepUntilMs <= ops[q[j]].sleepUntilMs
    ensures forall j :: 0 <= j < k ==> ops[q[j]].sleepUntilMs > ops[q[k]].sleepUntilMs
  {
    k := 0;
    var i := 1;
    while i < |q|
      invariant 1 <= i <= |q|
      invariant k < i
      invariant forall j :: 0 <= j < i ==> ops[q[k]].sleepUntilMs <= ops[q[j]].sleepUntilMs
      invariant forall j :: 0 <= j < k ==> ops[q[j]].sleepUntilMs > ops[q[k]].sleepUntilMs
    {
      if ops[q[i]].sleepUntilMs < ops[q[k]].sleepUntilMs {
        k := i;
      }
      i := i + 1;
    }
  }
}
