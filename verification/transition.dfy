/** Transition records: a destination handle, a condition handle and, for the
    monitored kind, a transit counter and timestamp. The operations that update
    a record in place are methods of `Layouts.Layout`, addressed by `TransId`. */
module Transitions {
  import opened Types

  /** ConditionalTransition, or MonitoredTransition with its two counters. */
  datatype TransKind = Conditional | MonitoredTransit

  datatype TransRec = TransRec(
    kind: TransKind,
    next: Option<StateId>,
    cond: Option<CondId>,
    transitCount: nat,
    lastTransitTime: real)

  /** A freshly constructed transition stores the destination and condition it
      is given; a monitored one starts with a zero count and a zero timestamp. */
  function FreshTransition(kind: TransKind, next: Option<StateId>, cond: Option<CondId>): (r: TransRec)
    ensures r.kind == kind && r.next == next && r.cond == cond
    ensures r.transitCount == 0 && r.lastTransitTime == 0.0
  {
    TransRec(kind, next, cond, 0, 0.0)
  }

  /** `Transition.is_valid`: a destination is set. */
  predicate HasDestination(t: TransRec)
  {
    t.next.Some?
  }

  /** `ConditionalTransition.is_valid`: a destination and a condition are set. */
  predicate IsValid(t: TransRec)
    ensures IsValid(t) ==> HasDestination(t)
    ensures t.cond.None? ==> !IsValid(t)
  {
    HasDestination(t) && t.cond.Some?
  }
}
