/** Conditions: boolean predicates gating transitions. A condition's observable
    value is its `inverse` flag XOR the value its variant compares. Evaluation
    reads the clock instant `now` and the state records, and may write them: a
    count condition with auto-reset zeroes the monitored state's entry counter
    when it succeeds, so evaluation returns the updated records too. */
module Conditions {
  import opened Types
  import opened States

  /** The three composite variants of the source's ManyConditions. */
  datatype ManyOp = AllOf | AnyOf | NoneOf

  datatype Kind =
    | AlwaysTrue
      /** Two values captured at construction. */
    | ValueEq(initial: Value, expected: Value)
      /** True while less than `duration` has elapsed since `reference`. */
    | Timed(duration: real, reference: real)
      /** True once more than `duration` has elapsed since the monitored state's last entry. */
    | EntryDuration(duration: real, state: StateId)
      /** True once the monitored state's entry count reaches `expected`. */
    | EntryCount(expectedCount: int, state: StateId, autoReset: bool)
      /** True when the monitored state's custom value equals `expected`. */
    | StateValue(expected: Value, state: StateId)
      /** Ordered child conditions, combined by `op`. */
    | Many(op: ManyOp, children: seq<Condition>)

  datatype Condition = Condition(inverse: bool, kind: Kind)

  predicate Monitors(states: seq<StateRec>, s: StateId)
  {
    s < |states| && states[s].kind == Monitored
  }

  /** Every state the condition, or any condition nested in it, refers to exists
      and is a monitored state (the source's constructors reject anything else). */
  ghost predicate RefsOk(c: Condition, states: seq<StateRec>)
    decreases c
  {
    match c.kind
    case EntryDuration(_, s) => Monitors(states, s)
    case EntryCount(_, s, _) => Monitors(states, s)
    case StateValue(_, s) => Monitors(states, s)
    case Many(_, cs) => forall i :: 0 <= i < |cs| ==> RefsOk(cs[i], states)
    case _ => true
  }

  /** `b` keeps every record of `a` at its index with the same kind, and may add more. */
  ghost predicate KindsKept(a: seq<StateRec>, b: seq<StateRec>)
  {
    |a| <= |b| && forall i :: 0 <= i < |a| ==> b[i].kind == a[i].kind
  }

  /** `b` differs from `a` at most in entry counters. */
  ghost predicate CountsOnly(a: seq<StateRec>, b: seq<StateRec>)
  {
    |a| == |b| &&
    forall i :: 0 <= i < |a| ==> b[i] == a[i].(monitor := a[i].monitor.(entryCount := b[i].monitor.entryCount))
  }

  lemma {:induction false} RefsOkKept(c: Condition, a: seq<StateRec>, b: seq<StateRec>)
    requires RefsOk(c, a) && KindsKept(a, b)
    ensures RefsOk(c, b)
    decreases c
  {
    match c.kind
    case Many(_, cs) =>
      forall i | 0 <= i < |cs| ensures RefsOk(cs[i], b) {
        RefsOkKept(cs[i], a, b);
      }
    case _ =>
  }

  lemma RefsOkAllKept(cs: seq<Condition>, a: seq<StateRec>, b: seq<StateRec>)
    requires forall i :: 0 <= i < |cs| ==> RefsOk(cs[i], a)
    requires KindsKept(a, b)
    ensures forall i :: 0 <= i < |cs| ==> RefsOk(cs[i], b)
  {
    forall i | 0 <= i < |cs| ensures RefsOk(cs[i], b) {
      RefsOkKept(cs[i], a, b);
    }
  }

  function ResetCount(states: seq<StateRec>, s: StateId): (r: seq<StateRec>)
    requires s < |states|
  {
    states[s := states[s].(monitor := states[s].monitor.(entryCount := 0))]
  }

  /** `Condition.__bool__`: the inverse flag XOR the variant's comparison. */
  function Eval(c: Condition, states: seq<StateRec>, now: real): (r: (bool, seq<StateRec>))
    requires RefsOk(c, states)
    ensures CountsOnly(states, r.1)
    decreases c, 1
  {
    var cmp := Compare(c, states, now);
    (c.inverse != cmp.0, cmp.1)
  }

  /** The `compare()` of each variant. */
  function Compare(c: Condition, states: seq<StateRec>, now: real): (r: (bool, seq<StateRec>))
    requires RefsOk(c, states)
    ensures CountsOnly(states, r.1)
    decreases c, 0
  {
    match c.kind
    case AlwaysTrue => (true, states)
    case ValueEq(initial, expected) => (initial == expected, states)
    case Timed(duration, reference) => (now - reference < duration, states)
    case EntryDuration(duration, s) => (duration < now - states[s].monitor.lastEntry, states)
    case EntryCount(expected, s, autoReset) =>
      if expected <= states[s].monitor.entryCount then
        (true, if autoReset then ResetCount(states, s) else states)
      else (false, states)
    case StateValue(expected, s) => (expected == states[s].custom, states)
    case Many(op, cs) =>
      match op
      case AllOf => var sc := Scan(cs, false, states, now); (!sc.0, sc.1)
      case AnyOf => Scan(cs, true, states, now)
      case NoneOf => var sc := Scan(cs, true, states, now); (!sc.0, sc.1)
  }

  /** Python's `all`/`any` over the children: evaluate them left to right and
      stop at the first whose value is `stopOn`; the result says whether one was found. */
  function Scan(cs: seq<Condition>, stopOn: bool, states: seq<StateRec>, now: real): (r: (bool, seq<StateRec>))
    requires forall i :: 0 <= i < |cs| ==> RefsOk(cs[i], states)
    ensures CountsOnly(states, r.1)
    decreases cs
  {
    if cs == [] then (false, states)
    else
      var head := Eval(cs[0], states, now);
      if head.0 == stopOn then (true, head.1)
      else
        RefsOkAllKept(cs[1..], states, head.1);
        Scan(cs[1..], stopOn, head.1, now)
  }

  function Holds(c: Condition, states: seq<StateRec>, now: real): bool
    requires RefsOk(c, states)
  {
    Eval(c, states, now).0
  }

  /** No count condition with auto-reset occurs in the condition. */
  predicate NoAutoReset(c: Condition)
    decreases c
  {
    match c.kind
    case EntryCount(_, _, autoReset) => !autoReset
    case Many(_, cs) => forall i :: 0 <= i < |cs| ==> NoAutoReset(cs[i])
    case _ => true
  }

  /** `add_condition` / `add_conditions`: the composite with `extra` appended to its children. */
  function WithChildren(c: Condition, extra: seq<Condition>): (r: Condition)
    requires c.kind.Many?
    ensures r.inverse == c.inverse && r.kind.Many? && r.kind.op == c.kind.op
    ensures r.kind.children == c.kind.children + extra
  {
    c.(kind := Many(c.kind.op, c.kind.children + extra))
  }

  // ---------------------------------------------------------------------------
  // Properties

  /** Flipping the inverse flag negates the value and changes nothing else. */
  lemma InverseNegates(c: Condition, states: seq<StateRec>, now: real)
    requires RefsOk(c, states)
    ensures RefsOk(c.(inverse := !c.inverse), states)
    ensures Eval(c.(inverse := !c.inverse), states, now).0 == !Eval(c, states, now).0
    ensures Eval(c.(inverse := !c.inverse), states, now).1 == Eval(c, states, now).1
  {
  }

  /** An always-true condition is true, or always false when inverted. */
  lemma AlwaysTrueValue(inverse: bool, states: seq<StateRec>, now: real)
    ensures Eval(Condition(inverse, AlwaysTrue), states, now) == (!inverse, states)
  {
  }

  /** A value condition depends only on the two values it captured: it gives the
      same answer in every state and at every instant. */
  lemma ValueConditionFixed(inverse: bool, initial: Value, expected: Value,
                            s1: seq<StateRec>, now1: real, s2: seq<StateRec>, now2: real)
    ensures Eval(Condition(inverse, ValueEq(initial, expected)), s1, now1).0 == (inverse != (initial == expected))
    ensures Eval(Condition(inverse, ValueEq(initial, expected)), s1, now1).0
         == Eval(Condition(inverse, ValueEq(initial, expected)), s2, now2).0
    ensures Eval(Condition(inverse, ValueEq(initial, expected)), s1, now1).1 == s1
  {
  }

  /** A timed condition is true exactly while strictly less than its duration
      has elapsed since its reference instant. */
  lemma TimedWindow(duration: real, reference: real, states: seq<StateRec>, now: real)
    ensures Eval(Condition(false, Timed(duration, reference)), states, now).0 <==> now < reference + duration
    ensures Eval(Condition(false, Timed(duration, reference)), states, now).1 == states
  {
  }

  /** A state-entry-duration condition is true exactly when strictly more than
      its duration has elapsed since the monitored state's last entry: at exactly
      the duration it is still false, and once true it stays true as time advances. */
  lemma EntryDurationStrict(duration: real, s: StateId, states: seq<StateRec>, now: real, later: real)
    requires Monitors(states, s) && now <= later
    ensures Eval(Condition(false, EntryDuration(duration, s)), states, now).0
        <==> states[s].monitor.lastEntry + duration < now
    ensures !Eval(Condition(false, EntryDuration(duration, s)), states, states[s].monitor.lastEntry + duration).0
    ensures Eval(Condition(false, EntryDuration(duration, s)), states, now).0 ==>
            Eval(Condition(false, EntryDuration(duration, s)), states, later).0
    ensures Eval(Condition(false, EntryDuration(duration, s)), states, now).1 == states
  {
  }

  /** A state-entry-count condition is true exactly when the entry count has
      reached the expected count; when true with auto-reset it zeroes that
      state's counter and nothing else, otherwise it changes nothing. */
  lemma EntryCountEffect(expected: int, s: StateId, autoReset: bool, states: seq<StateRec>, now: real)
    requires Monitors(states, s)
    ensures var r := Eval(Condition(false, EntryCount(expected, s, autoReset)), states, now);
      && (r.0 <==> expected <= states[s].monitor.entryCount)
      && (r.0 && autoReset ==>
            && |r.1| == |states| && r.1[s].monitor.entryCount == 0
            && r.1[s] == states[s].(monitor := r.1[s].monitor)
            && r.1[s].monitor.lastEntry == states[s].monitor.lastEntry
            && r.1[s].monitor.lastExit == states[s].monitor.lastExit
            && forall i :: 0 <= i < |states| && i != s ==> r.1[i] == states[i])
      && (!r.0 || !autoReset ==> r.1 == states)
  {
  }

  /** With auto-reset and a positive expected count, the condition succeeds once
      and is false on the next evaluation unless the state is entered again. */
  lemma EntryCountFiresOnce(expected: int, s: StateId, states: seq<StateRec>, now: real, later: real)
    requires Monitors(states, s) && 1 <= expected <= states[s].monitor.entryCount
    ensures var c := Condition(false, EntryCount(expected, s, true));
      var first := Eval(c, states, now);
      && first.0
      && RefsOk(c, first.1)
      && !Eval(c, first.1, later).0
      && Eval(c, first.1, later).1 == first.1
  {
  }

  /** A state-value condition re-reads the monitored state's custom value on
      every evaluation and never changes the state records. */
  lemma StateValueRereads(expected: Value, s: StateId, states: seq<StateRec>, now: real, v: Value)
    requires Monitors(states, s)
    ensures Eval(Condition(false, StateValue(expected, s)), states, now) == (states[s].custom == expected, states)
    ensures var states' := states[s := states[s].(custom := v)];
      Monitors(states', s) && Eval(Condition(false, StateValue(expected, s)), states', now).0 == (v == expected)
  {
  }

  /** Children after the first deciding one are never evaluated: appending more
      children after it changes neither the result nor the state records. */
  lemma {:induction false} ScanIgnoresLater(cs: seq<Condition>, rest: seq<Condition>, stopOn: bool,
                                            states: seq<StateRec>, now: real)
    requires forall i :: 0 <= i < |cs| ==> RefsOk(cs[i], states)
    requires forall i :: 0 <= i < |rest| ==> RefsOk(rest[i], states)
    requires Scan(cs, stopOn, states, now).0
    ensures forall i :: 0 <= i < |cs + rest| ==> RefsOk((cs + rest)[i], states)
    ensures Scan(cs + rest, stopOn, states, now) == Scan(cs, stopOn, states, now)
    decreases cs
  {
    assert forall i :: 0 <= i < |cs + rest| ==> RefsOk((cs + rest)[i], states) by {
      forall i | 0 <= i < |cs + rest| ensures RefsOk((cs + rest)[i], states) {
        if i < |cs| { assert (cs + rest)[i] == cs[i]; } else { assert (cs + rest)[i] == rest[i - |cs|]; }
      }
    }
    assert cs != [];
    assert (cs + rest)[0] == cs[0];
    var head := Eval(cs[0], states, now);
    if head.0 != stopOn {
      assert (cs + rest)[1..] == cs[1..] + rest;
      RefsOkAllKept(cs[1..], states, head.1);
      RefsOkAllKept(rest, states, head.1);
      ScanIgnoresLater(cs[1..], rest, stopOn, head.1, now);
    }
  }

  /** A condition without auto-resetting count conditions leaves the state records as they are. */
  lemma {:induction false} NoAutoResetKeeps(c: Condition, states: seq<StateRec>, now: real)
    requires RefsOk(c, states) && NoAutoReset(c)
    ensures Eval(c, states, now).1 == states
    decreases c, 1
  {
    match c.kind
    case Many(op, cs) => ScanKeeps(cs, true, states, now); ScanKeeps(cs, false, states, now);
    case _ =>
  }

  lemma {:induction false} ScanKeeps(cs: seq<Condition>, stopOn: bool, states: seq<StateRec>, now: real)
    requires forall i :: 0 <= i < |cs| ==> RefsOk(cs[i], states) && NoAutoReset(cs[i])
    ensures Scan(cs, stopOn, states, now).1 == states
    ensures Scan(cs, stopOn, states, now).0 <==> exists i :: 0 <= i < |cs| && Holds(cs[i], states, now) == stopOn
    decreases cs
  {
    if cs != [] {
      NoAutoResetKeeps(cs[0], states, now);
      ScanKeeps(cs[1..], stopOn, states, now);
      if Holds(cs[0], states, now) != stopOn {
        forall i | 0 <= i < |cs| && Holds(cs[i], states, now) == stopOn
          ensures exists j :: 0 <= j < |cs[1..]| && Holds(cs[1..][j], states, now) == stopOn
        {
          assert cs[1..][i - 1] == cs[i];
        }
      }
    }
  }

  /** When no child auto-resets a counter: All is true iff every child is true,
      Any iff some child is, None iff no child is; on no children that gives
      true, false and true. */
  lemma ManyMeaning(cs: seq<Condition>, states: seq<StateRec>, now: real)
    requires forall i :: 0 <= i < |cs| ==> RefsOk(cs[i], states) && NoAutoReset(cs[i])
    ensures Holds(Condition(false, Many(AllOf, cs)), states, now) <==> forall i :: 0 <= i < |cs| ==> Holds(cs[i], states, now)
    ensures Holds(Condition(false, Many(AnyOf, cs)), states, now) <==> exists i :: 0 <= i < |cs| && Holds(cs[i], states, now)
    ensures Holds(Condition(false, Many(NoneOf, cs)), states, now) <==> forall i :: 0 <= i < |cs| ==> !Holds(cs[i], states, now)
    ensures cs == [] ==>
      && Holds(Condition(false, Many(AllOf, cs)), states, now)
      && !Holds(Condition(false, Many(AnyOf, cs)), states, now)
      && Holds(Condition(false, Many(NoneOf, cs)), states, now)
  {
    ScanKeeps(cs, false, states, now);
    ScanKeeps(cs, true, states, now);
    var all, any, none := Condition(false, Many(AllOf, cs)), Condition(false, Many(AnyOf, cs)), Condition(false, Many(NoneOf, cs));
    assert Compare(all, states, now).0 == !Scan(cs, false, states, now).0;
    assert Compare(any, states, now).0 == Scan(cs, true, states, now).0;
    assert Compare(none, states, now).0 == !Scan(cs, true, states, now).0;
  }
}
