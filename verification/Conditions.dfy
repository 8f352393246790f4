/** The condition vocabulary reported to the gateway.  Time stamps and message
    texts are dropped; what stays is the status, the reason, and whether a console
    tail was attached to the message. */
module Conditions {

  datatype Reason =
    | Starting
    | BackendReady
    | ContainerExited
    | ContainerStopped
    | ProvisioningFailed
    | Deleting

  datatype Condition = Condition(ready: bool, reason: Reason, tail: bool)

  const STARTING_CONDITION := Condition(false, Starting, false)
  const READY_CONDITION := Condition(true, BackendReady, false)
  const EXITED_CONDITION := Condition(false, ContainerExited, false)
  const STOPPED_CONDITION := Condition(false, ContainerStopped, false)
  const FAILED_CONDITION := Condition(false, ProvisioningFailed, false)
  const DELETING_CONDITION := Condition(false, Deleting, false)

  /** What the gateway acts on: the console tail is only diagnostic text. */
  predicate SamePhase(a: Condition, b: Condition) {
    a.ready == b.ready && a.reason == b.reason
  }

  /** Every constructor ties the status to the reason. */
  predicate Coherent(c: Condition) {
    c.ready == (c.reason == BackendReady)
  }
}
