/** The orchestration phase of a resource and its legal-transition table. */
module Phases {

  datatype Phase =
    | Unknown
    | Provisioning
    | Ready
    | Allocated
    | Draining
    | Deleting
    | Failed
    | Orphaned
    | Parking
    | Parked
    | Starting

  /** The phases each phase may move to. Tombstoning is not a phase move. */
  function Transitions(from: Phase): set<Phase> {
    match from
    case Unknown => {Ready, Orphaned, Deleting}
    case Provisioning => {Ready, Failed, Orphaned}
    case Ready => {Allocated, Draining, Orphaned, Deleting, Parking}
    case Allocated => {Ready, Draining, Orphaned}
    case Draining => {Ready, Deleting}
    case Deleting => {Failed}
    case Failed => {Deleting}
    case Orphaned => {Ready, Parked}
    case Parking => {Parked, Ready}
    case Parked => {Starting, Deleting, Orphaned}
    case Starting => {Ready, Parked, Failed}
  }

  predicate CanTransition(from: Phase, to: Phase) {
    to in Transitions(from)
  }

  /** A resource in one of these phases is owned by the operation that put it there. */
  predicate Shielded(p: Phase) {
    p.Provisioning? || p.Deleting? || p.Parking? || p.Starting?
  }

  /** A resource in one of these phases is on its way out and never serves again. */
  predicate Doomed(p: Phase) {
    p.Deleting? || p.Failed?
  }
}
