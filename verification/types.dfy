/**
 * The values the background-operation and connection-state engine works on:
 * lifecycle and connection states, the coordination service's result codes
 * and raw session states, pending operations, and the events the engine
 * hands to its collaborators (callbacks, listeners, the connection-state
 * manager), which the model records in an append-only log.
 */
module Types {

  datatype Option<T> = None | Some(value: T)

  /** Lifecycle of the client (CuratorFrameworkState). */
  datatype FrameworkState = Latent | Started | Stopped

  /** Result codes of the coordination service that the engine names; every other code is `OtherCode`. */
  datatype Code = Ok | SystemError | ConnectionLoss | SessionExpired | OtherCode(value: int)

  /** Raw session states reported by the transport's watcher; `OtherKeeperState` stands for the rest. */
  datatype KeeperState = Disconnected | Expired | SyncConnected | ConnectedReadOnly | OtherKeeperState

  /** The de-duplicated connection states handed to the connection-state manager. */
  datatype ConnectionState = Connected | Suspended | Reconnected | Lost | ReadOnly

  /** What an operation threw: a KeeperException carrying its code, or any other Throwable. */
  datatype Failure = KeeperFailure(code: Code) | OtherFailure

  /** Identity of an OperationAndData object. */
  type OpId = nat

  /** A deadline of zero is a cleared sleep: the operation is ready at any time. */
  const NO_SLEEP: nat := 0

  /**
   * The parts of an OperationAndData that the engine reads or writes: whether
   * it has a completion callback and an error callback, whether it needs a
   * live connection, its retry counter, and its "sleep until" deadline.
   */
  datatype Operation = Operation(
    hasCallback: bool,
    hasErrorCallback: bool,
    connectionRequired: bool,
    retryCount: nat,
    sleepUntilMs: nat)

  /** An event handed to processEvent: a watched event from the transport, or an operation result. */
  datatype CuratorEvent = Watched(keeperState: KeeperState) | OperationResult(op: OpId, code: Code)

  /** Everything the engine does that is visible outside it, in the order it does it. */
  datatype Event =
    | Callback(op: OpId, code: Code)          // the operation's BackgroundCallback receives a result
    | RetriesExhausted(op: OpId)              // the operation's error callback is told retries ran out
    | ListenersNotified(event: CuratorEvent)  // processEvent fans an event out to the CuratorListeners
    | Performed(op: OpId)                     // the operation is handed to the transport
    | StateChange(newState: ConnectionState)  // connectionStateManager.addStateChange
    | SuspendConnection                       // internalConnectionHandler.suspendConnection
    | CheckNewConnection                      // internalConnectionHandler.checkNewConnection
    | UnhandledError(reason: string)          // logError: the unhandled-error listeners are told
    | ClosingNotified                         // close(): the CLOSING event to the CuratorListeners

  /** What a call into the transport does: it returns, or it throws. */
  datatype Outcome = Returned | Threw(failure: Failure)

  /**
   * What the engine observes of the outside world while it handles one
   * operation: the clock, the operation's elapsed time, whether the client is
   * connected, what handing the operation to the transport does, and what
   * client.getZooKeeper() does for an operation that has to wait for the
   * connection.
   */
  datatype Env = Env(nowMs: nat, elapsedMs: nat, connected: bool, outcome: Outcome, getZooKeeper: Outcome)
}
