/**
 * The client's lifecycle. The `state` reference only ever changes by
 * compare-and-set: start() swaps LATENT for STARTED and closeWithLock() swaps
 * STARTED for STOPPED, so the state only moves forward and each of the two
 * swaps succeeds at most once in the client's life.
 */
module Lifecycle {
  import opened Types

  /** The outcome of a compare-and-set on `state`: did it swap, and what `state` holds afterwards. */
  datatype Transition = Transition(changed: bool, next: FrameworkState)

  /** Position of a state in the order LATENT, STARTED, STOPPED. */
  function Rank(s: FrameworkState): nat
  {
    match s
    case Latent => 0
    case Started => 1
    case Stopped => 2
  }

  /** start(): compareAndSet(LATENT, STARTED); a failed swap throws IllegalStateException. */
  function StartTransition(s: FrameworkState): (t: Transition)
    ensures t.changed <==> s == Latent
    ensures t.changed ==> t.next == Started
    ensures !t.changed ==> t.next == s
    ensures Rank(s) <= Rank(t.next)
  {
    if s == Latent then Transition(true, Started) else Transition(false, s)
  }

  /** closeWithLock(): compareAndSet(STARTED, STOPPED); true only for the call that made the change. */
  function CloseTransition(s: FrameworkState): (t: Transition)
    ensures t.changed <==> s == Started
    ensures t.changed ==> t.next == Stopped
    ensures !t.changed ==> t.next == s
    ensures Rank(s) <= Rank(t.next)
  {
    if s == Started then Transition(true, Stopped) else Transition(false, s)
  }

  /** A call of start() or close() on the client. */
  datatype Call = StartCall | CloseCall

  /** Where a sequence of calls leaves the state, and how many starts and closes took effect. */
  datatype Run = Run(final: FrameworkState, starts: nat, closes: nat)

  function RunCalls(s: FrameworkState, calls: seq<Call>): Run
    decreases calls
  {
    if calls == [] then Run(s, 0, 0)
    else
      var t := if calls[0] == StartCall then StartTransition(s) else CloseTransition(s);
      var rest := RunCalls(t.next, calls[1..]);
      Run(rest.final,
          rest.starts + (if calls[0] == StartCall && t.changed then 1 else 0),
          rest.closes + (if calls[0] == CloseCall && t.changed then 1 else 0))
  }

  /**
   * Whatever the interleaving of start() and close() calls, start takes effect
   * at most once and only from LATENT, close takes effect at most once and only
   * after a start, and the state never moves backwards.
   */
  lemma {:induction false} StartAndCloseActAtMostOnce(s: FrameworkState, calls: seq<Call>)
    ensures RunCalls(s, calls).starts <= (if s == Latent then 1 else 0)
    ensures RunCalls(s, calls).closes <= (if s == Stopped then 0 else 1)
    ensures RunCalls(s, calls).closes <= RunCalls(s, calls).starts + (if s == Started then 1 else 0)
    ensures Rank(s) <= Rank(RunCalls(s, calls).final)
    decreases calls
  {
    if calls != [] {
      var t := if calls[0] == StartCall then StartTransition(s) else CloseTransition(s);
      StartAndCloseActAtMostOnce(t.next, calls[1..]);
    }
  }
}
