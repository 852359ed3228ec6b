/** State changes, as the action executor enqueues them (internal/action/stateevents.go). */
module StateChanges {
  import opened Common

  datatype Kind = Identity | Account | Proxy

  datatype LifecycleState = Pending | Active | Expired | Banned | Quarantined | Disabled | Retired

  /** The fields of a state change that reach a row or the event log; subject is None when it could not be resolved. */
  datatype Change = Change(
    id: nat, at: int, kind: Kind, subject: Option<nat>, to: LifecycleState,
    until: Option<int>, permanent: bool,
    stateReason: string, rule: string, reason: string,
    cooldown: bool, shadow: bool, updateSubject: bool)
  {
    /** The change updates a subject row; it is never spilled. */
    predicate Lifecycle() {
      updateSubject && !shadow
    }
  }
}
