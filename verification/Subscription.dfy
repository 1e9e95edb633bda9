/** Subscription snapshots and the fail-closed status view every access decision is based on. */
module Subscription {
  import opened Basics

  datatype SnapshotState = Absent | Inactive | NotEligible | NeedsReview | Active

  /** A row of subscription_snapshots; the label is free text at rest. */
  datatype Snapshot = Snapshot(stateLabel: string, activeUntil: Option<int>)

  type Snapshots = map<string, Snapshot>

  datatype SafeStatus =
    | NeedsBootstrap
    | InactiveOrNotEligible
    | StatusNeedsReview
    | SubscriptionExpired
    | SubscriptionActive
    | AccessNotReady
    | AccessReady

  function ParseLabel(text: string): SnapshotState
  {
    if text == "absent" then Absent
    else if text == "not_eligible" then NotEligible
    else if text == "needs_review" then NeedsReview
    else if text == "active" then Active
    else Inactive
  }

  function StatusView(userKnown: bool, state: Option<SnapshotState>): SafeStatus
  {
    if !userKnown then NeedsBootstrap
    else if state.None? then InactiveOrNotEligible
    else match state.value
      case Active => SubscriptionActive
      case NeedsReview => StatusNeedsReview
      case _ => InactiveOrNotEligible
  }

  predicate AllowsIssueResend(state: Option<SnapshotState>)
  {
    StatusView(true, state) == SubscriptionActive
  }

  /** UC-02 for a known user before access readiness is looked up. */
  function LifecycleStatus(snap: Option<Snapshot>, now: int): SafeStatus
  {
    var state := if snap.None? then None else Some(ParseLabel(snap.value.stateLabel));
    var safe := StatusView(true, state);
    if safe == SubscriptionActive && snap.value.activeUntil.Some? && now > snap.value.activeUntil.value
    then SubscriptionExpired else safe
  }

  function SnapshotOf(snaps: Snapshots, user: string): Option<Snapshot>
  {
    if user in snaps then Some(snaps[user]) else None
  }
}
