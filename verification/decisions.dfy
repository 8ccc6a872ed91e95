/**
 * The engine's branch choices, each a small deterministic function of the
 * values it looks at: which code an aborted operation receives, where an
 * operation result is routed, whether an operation runs, sleeps or gives up
 * waiting for the connection, what a raw session state turns into, when a
 * change of the transport's instance index is reported as LOST, and the
 * reason logError reports.
 */
module Decisions {
  import opened Types

  /**
   * abortOperation: the KeeperException's own code; otherwise SYSTEMERROR
   * while the client runs and SESSIONEXPIRED once it does not.
   */
  function AbortCode(failure: Failure, state: FrameworkState): (c: Code)
    ensures failure.KeeperFailure? ==> c == failure.code
    ensures !failure.KeeperFailure? ==> (c == SystemError <==> state == Started)
    ensures !failure.KeeperFailure? ==> (c == SessionExpired <==> state != Started)
  {
    match failure
    case KeeperFailure(code) => code
    case OtherFailure => if state == Started then SystemError else SessionExpired
  }

  /** Where processBackgroundOperation sends the result of an operation. */
  datatype ResultRoute = RetryCheck | ToCallback | ToListeners

  /**
   * A failed result the retry policy calls retryable goes to the retry check;
   * any other result, success included, goes to the operation's callback if
   * it has one, and to the listeners otherwise.
   */
  function RouteResult(code: Code, retryable: bool, hasCallback: bool): (r: ResultRoute)
    ensures r == RetryCheck <==> code != Ok && retryable
    ensures r == ToCallback <==> (code == Ok || !retryable) && hasCallback
    ensures r == ToListeners <==> (code == Ok || !retryable) && !hasCallback
  {
    if code != Ok && retryable then RetryCheck
    else if hasCallback then ToCallback
    else ToListeners
  }

  /** What performBackgroundOperation does with an operation. */
  datatype PerformRoute = RunNow | ForcedSleep | ConnectionTimedOut

  /**
   * Run at once if no connection is needed or the client is connected;
   * otherwise sleep and requeue while the elapsed time is below the
   * connection timeout, and treat it as a lost connection after that.
   */
  function ChoosePerformRoute(connectionRequired: bool, connected: bool, elapsedMs: nat, connectionTimeoutMs: nat)
    : (r: PerformRoute)
    ensures r == RunNow <==> !connectionRequired || connected
    ensures r == ForcedSleep <==> connectionRequired && !connected && elapsedMs < connectionTimeoutMs
    ensures r == ConnectionTimedOut <==> connectionRequired && !connected && elapsedMs >= connectionTimeoutMs
  {
    if !connectionRequired || connected then RunNow
    else if elapsedMs < connectionTimeoutMs then ForcedSleep
    else ConnectionTimedOut
  }

  /**
   * validateConnection, apart from un-sleeping the parked operations on
   * SyncConnected: the events each raw session state produces, in order.
   */
  function ConnectionEvents(ks: KeeperState): (r: seq<Event>)
    ensures SuspendConnection in r <==> ks == Disconnected
    ensures StateChange(Lost) in r <==> ks == Expired
    ensures StateChange(Reconnected) in r <==> ks == SyncConnected
    ensures StateChange(ReadOnly) in r <==> ks == ConnectedReadOnly
    ensures CheckNewConnection in r <==> ks == SyncConnected || ks == ConnectedReadOnly
    ensures CheckNewConnection in r ==> r[0] == CheckNewConnection
    ensures r == [] <==> ks == OtherKeeperState
    ensures |r| == if ks == SyncConnected || ks == ConnectedReadOnly then 2 else if ks == OtherKeeperState then 0 else 1
    ensures forall e :: e in r && e.StateChange? ==>
              e.newState == Lost || e.newState == Reconnected || e.newState == ReadOnly
    ensures forall e :: e in r ==> e == SuspendConnection || e == CheckNewConnection || e.StateChange?
  {
    match ks
    case Disconnected => [SuspendConnection]
    case Expired => [StateChange(Lost)]
    case SyncConnected => [CheckNewConnection, StateChange(Reconnected)]
    case ConnectedReadOnly => [CheckNewConnection, StateChange(ReadOnly)]
    case OtherKeeperState => []
  }

  /**
   * checkInstanceIndex: LOST is synthesised when an index was stored before
   * (the initial value is -1) and the transport now reports a different one.
   */
  predicate LostOnIndexChange(stored: int, current: int)
  {
    stored >= 0 && current != stored
  }

  /** How many LOST events repeated checkInstanceIndex calls synthesise, starting from `stored`. */
  function IndexLosts(stored: int, observed: seq<int>): nat
    decreases observed
  {
    if observed == [] then 0
    else (if LostOnIndexChange(stored, observed[0]) then 1 else 0) + IndexLosts(observed[0], observed[1..])
  }

  /** How many times consecutive observed indices differ: the physical connection was replaced. */
  function IndexChanges(observed: seq<int>): nat
  {
    if |observed| <= 1 then 0
    else (if observed[1] != observed[0] then 1 else 0) + IndexChanges(observed[1..])
  }

  /**
   * Starting from the initial index -1, checkInstanceIndex synthesises exactly
   * one LOST per replacement of the physical connection, and none for the
   * first connection.
   */
  lemma {:induction false} LostOncePerReplacement(observed: seq<int>)
    requires forall k :: 0 <= k < |observed| ==> observed[k] >= 0
    ensures IndexLosts(-1, observed) == IndexChanges(observed)
  {
    if observed != [] {
      LostsFromStored(observed[0], observed[1..]);
      assert [observed[0]] + observed[1..] == observed;
    }
  }

  lemma {:induction false} LostsFromStored(stored: int, observed: seq<int>)
    requires stored >= 0
    requires forall k :: 0 <= k < |observed| ==> observed[k] >= 0
    ensures IndexLosts(stored, observed) == IndexChanges([stored] + observed)
    decreases observed
  {
    if observed != [] {
      LostsFromStored(observed[0], observed[1..]);
      assert ([stored] + observed)[1..] == [observed[0]] + observed[1..];
    }
  }

  /** logError: a missing or empty reason is reported as "n/a". */
  function ReasonOrNA(reason: string): (r: string)
    ensures |r| > 0
    ensures reason != [] ==> r == reason
    ensures reason == [] ==> r == "n/a"
  {
    if |reason| == 0 then "n/a" else reason
  }
}
