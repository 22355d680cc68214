/** The layout: the set of member states and the initial state, together with
    the arena that owns every state, transition and condition record. Every
    operation of the engine that updates a state, a transition or a condition
    in place is a method of `Layout` addressing the record by its handle. */
module Layouts {
  import opened Types
  import opened States
  import opened Conditions
  import opened Transitions
  import opened Arenas

  datatype LayoutError = NotAMember

  /** `State.is_valid`, with each transition's validity check called: at least
      one transition, and every transition has a destination and a condition. */
  predicate StateValid(a: Arena, s: StateId)
    requires s < |a.states|
    ensures a.states[s].transitions == [] ==> !StateValid(a, s)
    ensures StateValid(a, s) ==> forall k :: 0 <= k < |a.states[s].transitions| ==>
      a.states[s].transitions[k] < |a.transitions| && HasDestination(a.transitions[a.states[s].transitions[k]])
  {
    var ts := a.states[s].transitions;
    |ts| > 0 && forall k :: 0 <= k < |ts| ==> ts[k] < |a.transitions| && IsValid(a.transitions[ts[k]])
  }

  /** `Layout.is_valid`, with each state's validity check called: an initial
      state is set and every member state is valid. */
  predicate LayoutValid(a: Arena, members: set<StateId>, initial: Option<StateId>)
    ensures initial.None? ==> !LayoutValid(a, members, initial)
    ensures LayoutValid(a, members, initial) ==> forall s :: s in members ==> s < |a.states| && a.states[s].transitions != []
  {
    initial.Some? && forall s :: s in members ==> s < |a.states| && StateValid(a, s)
  }

  /** Every transition of state `s` has a destination, so whichever of them
      fires, the machine has somewhere to go. */
  ghost predicate Routed(a: Arena, s: StateId)
    requires ArenaOk(a) && s < |a.states|
  {
    forall k :: 0 <= k < |a.states[s].transitions| ==> a.transitions[a.states[s].transitions[k]].next.Some?
  }

  /** In a valid layout every member state has a transition, and every one of
      them has a destination and a condition; in particular a member state is
      routed. A state without transitions is never valid. */
  lemma ValidMemberRouted(a: Arena, members: set<StateId>, initial: Option<StateId>, s: StateId)
    requires ArenaOk(a) && LayoutValid(a, members, initial) && s in members
    ensures s < |a.states| && |a.states[s].transitions| > 0 && Routed(a, s)
    ensures forall k :: 0 <= k < |a.states[s].transitions| ==> a.transitions[a.states[s].transitions[k]].cond.Some?
  {
  }

  lemma NoTransitionsInvalid(a: Arena, s: StateId)
    requires s < |a.states| && a.states[s].transitions == []
    ensures !StateValid(a, s)
  {
  }

  /** A layout is invalid without an initial state, whatever its states. */
  lemma NoInitialInvalid(a: Arena, members: set<StateId>)
    ensures !LayoutValid(a, members, None)
  {
  }

  /** `State.is_valid` as written: each transition's check is named but not
      called, and a bound method is always truthy, so only the emptiness test
      is left. */
  predicate StateValidAsWritten(a: Arena, s: StateId)
    requires s < |a.states|
    ensures StateValid(a, s) ==> StateValidAsWritten(a, s)
  {
    |a.states[s].transitions| > 0
  }

  /** `Layout.is_valid` as written: the same uncalled check on every member
      leaves only the initial-state test. */
  predicate LayoutValidAsWritten(a: Arena, members: set<StateId>, initial: Option<StateId>)
    ensures LayoutValid(a, members, initial) ==> LayoutValidAsWritten(a, members, initial)
  {
    initial.Some?
  }

  /** The written checks accept whatever the intended ones accept. */
  lemma WrittenChecksWeaker(a: Arena, members: set<StateId>, initial: Option<StateId>, s: StateId)
    requires s < |a.states|
    ensures StateValid(a, s) ==> StateValidAsWritten(a, s)
    ensures LayoutValid(a, members, initial) ==> LayoutValidAsWritten(a, members, initial)
  {
  }

  /** A state whose only transition has neither destination nor condition
      passes the written check and fails the intended one. */
  lemma StateCheckAdmitsDeadEnd()
    ensures var a := Arena([NewStateRec(Action, DefaultParameters).(transitions := [0])],
                           [FreshTransition(Conditional, None, None)], []);
      StateValidAsWritten(a, 0) && !StateValid(a, 0)
  {
    var a := Arena([NewStateRec(Action, DefaultParameters).(transitions := [0])],
                   [FreshTransition(Conditional, None, None)], []);
    assert a.states[0].transitions[0] == 0 && !IsValid(a.transitions[0]);
  }

  /** A layout whose only member has no transition at all passes the written
      check and fails the intended one. */
  lemma LayoutCheckAdmitsStuckState()
    ensures var a := Arena([NewStateRec(Action, DefaultParameters)], [], []);
      LayoutValidAsWritten(a, {0}, Some(0)) && !LayoutValid(a, {0}, Some(0))
  {
    var a := Arena([NewStateRec(Action, DefaultParameters)], [], []);
    NoTransitionsInvalid(a, 0);
  }

  class Layout {
    var arena: Arena
    var members: set<StateId>
    var initial: Option<StateId>

    /** Every handle resolves, every member is a state of the arena, and the
        initial state, once set, is a member. */
    ghost predicate Valid()
      reads this
    {
      && ArenaOk(arena)
      && (forall s :: s in members ==> s < |arena.states|)
      && (initial.Some? ==> initial.value in members)
    }

    /** `Layout.is_valid`. */
    predicate IsValid()
      reads this
    {
      LayoutValid(arena, members, initial)
    }

    /** A fresh layout: no states and no initial state. */
    constructor()
      ensures Valid()
      ensures arena == Arena([], [], []) && members == {} && initial == None
    {
      arena := Arena([], [], []);
      members := {};
      initial := None;
    }

    /** Constructing a state record: it gets the next free handle. A fresh
        state has no transitions. */
    method NewState(rec: StateRec) returns (s: StateId)
      requires Valid() && rec.transitions == []
      modifies this
      ensures Valid()
      ensures s == |old(arena.states)| && arena == old(arena).(states := old(arena.states) + [rec])
      ensures members == old(members) && initial == old(initial)
    {
      s := |arena.states|;
      ReplaceStatesOk(arena, arena.states + [rec]);
      arena := arena.(states := arena.states + [rec]);
    }

    /** Constructing a transition record with the given destination and condition. */
    method NewTransition(kind: TransKind, next: Option<StateId>, cond: Option<CondId>) returns (t: TransId)
      requires Valid()
      requires next.Some? ==> next.value < |arena.states|
      requires cond.Some? ==> cond.value < |arena.conditions|
      modifies this
      ensures Valid()
      ensures t == |old(arena.transitions)|
      ensures arena == old(arena).(transitions := old(arena.transitions) + [FreshTransition(kind, next, cond)])
      ensures members == old(members) && initial == old(initial)
    {
      t := |arena.transitions|;
      arena := arena.(transitions := arena.transitions + [FreshTransition(kind, next, cond)]);
    }

    /** Constructing a condition record. */
    method NewCondition(c: Condition) returns (id: CondId)
      requires Valid() && RefsOk(c, arena.states)
      modifies this
      ensures Valid()
      ensures id == |old(arena.conditions)| && arena == old(arena).(conditions := old(arena.conditions) + [c])
      ensures members == old(members) && initial == old(initial)
    {
      id := |arena.conditions|;
      arena := arena.(conditions := arena.conditions + [c]);
    }

    /** `State.add_transition`: appended at the end, existing entries kept,
        no de-duplication. */
    method AddTransition(s: StateId, t: TransId)
      requires Valid() && s < |arena.states| && t < |arena.transitions|
      modifies this
      ensures Valid()
      ensures arena == old(arena).(states := old(arena.states)[s := old(arena.states[s]).(transitions := old(arena.states[s].transitions) + [t])])
      ensures members == old(members) && initial == old(initial)
    {
      var st := arena.states[s];
      ReplaceStatesOk(arena, arena.states[s := st.(transitions := st.transitions + [t])]);
      arena := arena.(states := arena.states[s := st.(transitions := st.transitions + [t])]);
    }

    /** `ActionState.add_entering_action`, `add_in_state_action` and
        `add_exiting_action`: the callback goes at the end of its own list only. */
    method AddAction(s: StateId, h: Hook, action: Label)
      requires Valid() && s < |arena.states| && arena.states[s].kind != Plain
      modifies this
      ensures Valid()
      ensures |arena.states| == |old(arena.states)|
      ensures forall i :: 0 <= i < |arena.states| && i != s ==> arena.states[i] == old(arena.states[i])
      ensures HookList(arena.states[s], h) == HookList(old(arena.states[s]), h) + [action]
      ensures forall g :: g != h ==> HookList(arena.states[s], g) == HookList(old(arena.states[s]), g)
      ensures arena.states[s].(entering := [], inState := [], exiting := []) == old(arena.states[s]).(entering := [], inState := [], exiting := [])
      ensures arena.transitions == old(arena.transitions) && arena.conditions == old(arena.conditions)
      ensures members == old(members) && initial == old(initial)
    {
      var st := arena.states[s];
      var st' := match h
        case Entering => st.(entering := st.entering + [action])
        case InState => st.(inState := st.inState + [action])
        case Exiting => st.(exiting := st.exiting + [action]);
      ReplaceStatesOk(arena, arena.states[s := st']);
      arena := arena.(states := arena.states[s := st']);
    }

    /** `MonitoredState.reset_entry_count`: the count only becomes 0. */
    method ResetEntryCount(s: StateId)
      requires Valid() && s < |arena.states| && arena.states[s].kind == Monitored
      modifies this
      ensures Valid()
      ensures arena == old(arena).(states := old(arena.states)[s := old(arena.states[s]).(monitor := old(arena.states[s].monitor).(entryCount := 0))])
      ensures members == old(members) && initial == old(initial)
    {
      ReplaceStatesOk(arena, ResetCount(arena.states, s));
      arena := arena.(states := ResetCount(arena.states, s));
    }

    /** `MonitoredState.reset_last_times`: both timestamps become 0.0, the count stays. */
    method ResetLastTimes(s: StateId)
      requires Valid() && s < |arena.states| && arena.states[s].kind == Monitored
      modifies this
      ensures Valid()
      ensures arena == old(arena).(states := old(arena.states)[s := old(arena.states[s]).(monitor := old(arena.states[s].monitor).(lastEntry := 0.0, lastExit := 0.0))])
      ensures members == old(members) && initial == old(initial)
    {
      var st := arena.states[s];
      var st' := st.(monitor := st.monitor.(lastEntry := 0.0, lastExit := 0.0));
      ReplaceStatesOk(arena, arena.states[s := st']);
      arena := arena.(states := arena.states[s := st']);
    }

    /** Assigning `MonitoredState.custom_value`. */
    method SetCustomValue(s: StateId, v: Value)
      requires Valid() && s < |arena.states| && arena.states[s].kind == Monitored
      modifies this
      ensures Valid()
      ensures arena == old(arena).(states := old(arena.states)[s := old(arena.states[s]).(custom := v)])
      ensures members == old(members) && initial == old(initial)
    {
      var st := arena.states[s];
      ReplaceStatesOk(arena, arena.states[s := st.(custom := v)]);
      arena := arena.(states := arena.states[s := st.(custom := v)]);
    }

    /** The `Transition.next_state` setter: the getter then returns `next`. */
    method SetNextState(t: TransId, next: Option<StateId>)
      requires Valid() && t < |arena.transitions|
      requires next.Some? ==> next.value < |arena.states|
      modifies this
      ensures Valid()
      ensures arena == old(arena).(transitions := old(arena.transitions)[t := old(arena.transitions[t]).(next := next)])
      ensures arena.transitions[t].next == next
      ensures members == old(members) && initial == old(initial)
    {
      arena := arena.(transitions := arena.transitions[t := arena.transitions[t].(next := next)]);
    }

    /** The `ConditionalTransition.condition` setter. */
    method SetCondition(t: TransId, cond: Option<CondId>)
      requires Valid() && t < |arena.transitions|
      requires cond.Some? ==> cond.value < |arena.conditions|
      modifies this
      ensures Valid()
      ensures arena == old(arena).(transitions := old(arena.transitions)[t := old(arena.transitions[t]).(cond := cond)])
      ensures arena.transitions[t].cond == cond
      ensures members == old(members) && initial == old(initial)
    {
      arena := arena.(transitions := arena.transitions[t := arena.transitions[t].(cond := cond)]);
    }

    /** `MonitoredTransition.reset_transit_count`. */
    method ResetTransitCount(t: TransId)
      requires Valid() && t < |arena.transitions| && arena.transitions[t].kind == MonitoredTransit
      modifies this
      ensures Valid()
      ensures arena == old(arena).(transitions := old(arena.transitions)[t := old(arena.transitions[t]).(transitCount := 0)])
      ensures members == old(members) && initial == old(initial)
    {
      arena := arena.(transitions := arena.transitions[t := arena.transitions[t].(transitCount := 0)]);
    }

    /** `MonitoredTransition.reset_last_transit_time`. */
    method ResetLastTransitTime(t: TransId)
      requires Valid() && t < |arena.transitions| && arena.transitions[t].kind == MonitoredTransit
      modifies this
      ensures Valid()
      ensures arena == old(arena).(transitions := old(arena.transitions)[t := old(arena.transitions[t]).(lastTransitTime := 0.0)])
      ensures members == old(members) && initial == old(initial)
    {
      arena := arena.(transitions := arena.transitions[t := arena.transitions[t].(lastTransitTime := 0.0)]);
    }

    /** Replacing condition `c` by `c'`, which keeps its state references resolvable. */
    method PutCondition(c: CondId, c': Condition)
      requires Valid() && c < |arena.conditions| && RefsOk(c', arena.states)
      modifies this
      ensures Valid()
      ensures arena == old(arena).(conditions := old(arena.conditions)[c := c'])
      ensures members == old(members) && initial == old(initial)
    {
      arena := arena.(conditions := arena.conditions[c := c']);
    }

    /** The `duration` setters of `TimedCondition` and `StateEntryDurationCondition`. */
    method SetDuration(c: CondId, d: real)
      requires Valid() && c < |arena.conditions|
      requires arena.conditions[c].kind.Timed? || arena.conditions[c].kind.EntryDuration?
      modifies this
      ensures Valid()
      ensures arena == old(arena).(conditions := old(arena.conditions)[c := old(arena.conditions[c]).(kind := old(arena.conditions[c].kind).(duration := d))])
      ensures members == old(members) && initial == old(initial)
    {
      var cond := arena.conditions[c];
      PutCondition(c, cond.(kind := cond.kind.(duration := d)));
    }

    /** `TimedCondition.reset`: the reference becomes `now`, nothing else changes. */
    method ResetTimer(c: CondId, now: real)
      requires Valid() && c < |arena.conditions| && arena.conditions[c].kind.Timed?
      modifies this
      ensures Valid()
      ensures arena == old(arena).(conditions := old(arena.conditions)[c := old(arena.conditions[c]).(kind := old(arena.conditions[c].kind).(reference := now))])
      ensures members == old(members) && initial == old(initial)
    {
      var cond := arena.conditions[c];
      PutCondition(c, cond.(kind := cond.kind.(reference := now)));
    }

    /** The `StateValueCondition.expected_value` setter. */
    method SetExpectedValue(c: CondId, v: Value)
      requires Valid() && c < |arena.conditions| && arena.conditions[c].kind.StateValue?
      modifies this
      ensures Valid()
      ensures arena == old(arena).(conditions := old(arena.conditions)[c := Condition(old(arena.conditions[c]).inverse, StateValue(v, old(arena.conditions[c]).kind.state))])
      ensures members == old(members) && initial == old(initial)
    {
      var cond := arena.conditions[c];
      PutCondition(c, Condition(cond.inverse, StateValue(v, cond.kind.state)));
    }

    /** The `MonitoredStateCondition.monitored_state` setter; the new state must
        be a monitored one. */
    method SetMonitoredState(c: CondId, s: StateId)
      requires Valid() && c < |arena.conditions| && Monitors(arena.states, s)
      requires arena.conditions[c].kind.EntryDuration? || arena.conditions[c].kind.EntryCount? || arena.conditions[c].kind.StateValue?
      modifies this
      ensures Valid()
      ensures arena == old(arena).(conditions := old(arena.conditions)[c := old(arena.conditions[c]).(kind := old(arena.conditions[c].kind).(state := s))])
      ensures members == old(members) && initial == old(initial)
    {
      var cond := arena.conditions[c];
      PutCondition(c, cond.(kind := cond.kind.(state := s)));
    }

    /** `ManyConditions.add_condition`: the child goes at the end of the list. */
    method AddCondition(c: CondId, child: Condition)
      requires Valid() && c < |arena.conditions| && arena.conditions[c].kind.Many? && RefsOk(child, arena.states)
      modifies this
      ensures Valid()
      ensures arena == old(arena).(conditions := old(arena.conditions)[c := WithChildren(old(arena.conditions[c]), [child])])
      ensures members == old(members) && initial == old(initial)
    {
      PutCondition(c, WithChildren(arena.conditions[c], [child]));
    }

    /** `ManyConditions.add_conditions`: the children go at the end, in order. */
    method AddConditions(c: CondId, children: seq<Condition>)
      requires Valid() && c < |arena.conditions| && arena.conditions[c].kind.Many?
      requires forall i :: 0 <= i < |children| ==> RefsOk(children[i], arena.states)
      modifies this
      ensures Valid()
      ensures arena == old(arena).(conditions := old(arena.conditions)[c := WithChildren(old(arena.conditions[c]), children)])
      ensures members == old(members) && initial == old(initial)
    {
      assert old(arena.conditions)[c := WithChildren(old(arena.conditions[c]), children[..0])] == old(arena.conditions) by {
        assert old(arena.conditions[c]).kind.children + children[..0] == old(arena.conditions[c]).kind.children;
      }
      var i := 0;
      while i < |children|
        invariant 0 <= i <= |children| && Valid()
        invariant arena == old(arena).(conditions := old(arena.conditions)[c := WithChildren(old(arena.conditions[c]), children[..i])])
        invariant members == old(members) && initial == old(initial)
      {
        ghost var before := old(arena.conditions[c]).kind.children;
        assert children[..i + 1] == children[..i] + [children[i]];
        assert (before + children[..i]) + [children[i]] == before + children[..i + 1];
        AddCondition(c, children[i]);
        i := i + 1;
      }
      assert children[..i] == children;
    }

    /** `Layout.add_state`: set insertion, so adding a member again changes nothing. */
    method AddState(s: StateId)
      requires Valid() && s < |arena.states|
      modifies this
      ensures Valid()
      ensures members == old(members) + {s} && arena == old(arena) && initial == old(initial)
    {
      members := members + {s};
    }

    /** `Layout.add_states`: set union. */
    method AddStates(ss: set<StateId>)
      requires Valid() && forall s :: s in ss ==> s < |arena.states|
      modifies this
      ensures Valid()
      ensures members == old(members) + ss && arena == old(arena) && initial == old(initial)
    {
      members := members + ss;
    }

    /** The `Layout.initial_state` setter: a member becomes the initial state;
        anything else is refused and leaves the layout unchanged. */
    method SetInitialState(s: StateId) returns (r: Outcome<LayoutError>)
      requires Valid()
      modifies this
      ensures Valid()
      ensures r.Pass? <==> s in old(members)
      ensures r.Pass? ==> initial == Some(s)
      ensures r.Fail? ==> r.error == NotAMember && initial == old(initial)
      ensures members == old(members) && arena == old(arena)
    {
      if s !in members {
        return Fail(NotAMember);
      }
      initial := Some(s);
      r := Pass;
    }

    /** `ActionState._do_entering_action` and its two siblings: every callback
        of the list, in insertion order, each seeing the state's current
        monitoring fields. */
    method DoHooks(s: StateId, h: Hook) returns (events: seq<Event>)
      requires s < |arena.states|
      ensures events == Fire(s, h, HookList(arena.states[s], h), arena.states[s].monitor)
    {
      var labels := HookList(arena.states[s], h);
      var seen := arena.states[s].monitor;
      events := [];
      var i := 0;
      while i < |labels|
        invariant 0 <= i <= |labels|
        invariant events == Fire(s, h, labels[..i], seen)
      {
        assert labels[..i + 1] == labels[..i] + [labels[i]];
        FireAppend(s, h, labels[..i], [labels[i]], seen);
        events := events + [Event(s, h, labels[i], seen)];
        i := i + 1;
      }
      assert labels[..i] == labels;
    }

    /** `State._exec_in_state_action`. */
    method ExecInState(s: StateId) returns (events: seq<Event>)
      requires s < |arena.states|
      ensures events == InStateEvents(s, arena.states[s])
    {
      events := DoHooks(s, InState);
    }

    /** `State._exec_entering_action`, with the `MonitoredState` override that
        stamps and counts the entry before any hook runs. */
    method ExecEntering(s: StateId, now: real) returns (events: seq<Event>)
      requires Valid() && s < |arena.states|
      modifies this
      ensures Valid()
      ensures (arena, events) == Enter(old(arena), s, now)
      ensures members == old(members) && initial == old(initial)
    {
      var st := Entered(arena.states[s], now);
      ReplaceStatesOk(arena, arena.states[s := st]);
      arena := arena.(states := arena.states[s := st]);
      events := DoHooks(s, Entering);
      if st.params.inStateWhenEntering {
        var more := DoHooks(s, InState);
        events := events + more;
      } else {
        assert events + [] == events;
      }
    }

    /** `State._exec_exiting_action`, with the `MonitoredState` override that
        stamps the exit before any hook runs. */
    method ExecExiting(s: StateId, now: real) returns (events: seq<Event>)
      requires Valid() && s < |arena.states|
      modifies this
      ensures Valid()
      ensures (arena, events) == Exit(old(arena), s, now)
      ensures members == old(members) && initial == old(initial)
    {
      var st := Exited(arena.states[s], now);
      ReplaceStatesOk(arena, arena.states[s := st]);
      arena := arena.(states := arena.states[s := st]);
      events := [];
      if st.params.inStateWhenExiting {
        events := DoHooks(s, InState);
      } else {
        assert [] + Fire(s, Exiting, st.exiting, st.monitor) == Fire(s, Exiting, st.exiting, st.monitor);
      }
      var more := DoHooks(s, Exiting);
      events := events + more;
    }

    /** `State.is_transiting`: the transitions of `s` are tried in insertion
        order and the first whose condition holds is returned; the ones after
        it are not evaluated. Evaluation may reset entry counters. */
    method IsTransiting(s: StateId, now: real) returns (t: Option<TransId>)
      requires Valid() && s < |arena.states|
      modifies this
      ensures Valid()
      ensures AllIn(old(arena.states[s].transitions), old(arena))
      ensures (t, arena) == FirstFiring(old(arena), old(arena.states[s].transitions), now)
      ensures members == old(members) && initial == old(initial)
    {
      var ts := arena.states[s].transitions;
      assert AllIn(ts, arena);
      var i := 0;
      while i < |ts|
        invariant 0 <= i <= |ts| && Valid()
        invariant arena.transitions == old(arena.transitions) && AllIn(ts, arena)
        invariant FirstFiring(old(arena), ts, now) == FirstFiring(arena, ts[i..], now)
        invariant members == old(members) && initial == old(initial)
      {
        var f := Fires(arena, ts[i], now);
        RewiredOk(arena, f.1);
        assert ts[i..][0] == ts[i] && ts[i..][1..] == ts[i + 1..];
        arena := arena.(states := f.1);
        if f.0 {
          return Some(ts[i]);
        }
        i := i + 1;
      }
      t := None;
    }
  }
}
