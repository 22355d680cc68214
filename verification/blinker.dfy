/** The blinker: a finite state machine over an eleven-state layout that
    drives a light on, off, on for a while, off for a while, blinking forever
    or blinking for a bounded time, reconfigured between polls by changing the
    durations of its conditions and the custom values of its states. Its
    layout is always built the same way into a fresh arena, so its states,
    conditions and transitions have fixed handles. */
module Blinkers {
  import opened Types
  import opened States
  import opened Conditions
  import opened Transitions
  import opened Arenas
  import opened Layouts
  import opened Machines

  // State handles, in the order the blinker constructs its states.
  const OffState: StateId := 0
  const OnState: StateId := 1
  const OffDuration: StateId := 2
  const OnDuration: StateId := 3
  const BlinkBegin: StateId := 4
  const BlinkOff: StateId := 5
  const BlinkOn: StateId := 6
  const StopBegin: StateId := 7
  const StopEnd: StateId := 8
  const StopOn: StateId := 9
  const StopOff: StateId := 10

  // Condition handles, in construction order.
  const OffDurationCond: CondId := 0
  const OnDurationCond: CondId := 1
  const BlinkOffCond: CondId := 2
  const BlinkOnCond: CondId := 3
  const BeginOffCond: CondId := 4
  const BeginOnCond: CondId := 5
  const StopOffCond: CondId := 6
  const StopOnCond: CondId := 7
  const StopBeginOffCond: CondId := 8
  const StopBeginOnCond: CondId := 9
  const StopCond: CondId := 10
  const EndOffCond: CondId := 11
  const EndOnCond: CondId := 12

  const AllStates: set<StateId> := {0, 1, 2, 3, 4, 5, 6, 7, 8, 9, 10}

  /** The states `is_on` and `is_off` test membership in. */
  const OnStates: set<StateId> := {OnState, OnDuration, BlinkOn, StopOn}
  const OffStates: set<StateId> := {OffState, OffDuration, BlinkOff, StopOff}

  /** No state is both on and off, and the three choosing states (the start of
      a blink, the start and the end of its stop) are neither. */
  lemma OnOffDisjoint()
    ensures OnStates !! OffStates
    ensures BlinkBegin !in OnStates + OffStates && StopBegin !in OnStates + OffStates && StopEnd !in OnStates + OffStates
    ensures OnStates + OffStates + {BlinkBegin, StopBegin, StopEnd} == AllStates
  {
  }

  /** The conditions as constructed: every duration starts at 0.0. */
  const InitialConditions: seq<Condition> := [
    Condition(false, EntryDuration(0.0, OffDuration)),
    Condition(false, EntryDuration(0.0, OnDuration)),
    Condition(false, EntryDuration(0.0, BlinkOff)),
    Condition(false, EntryDuration(0.0, BlinkOn)),
    Condition(false, StateValue(Str("off"), BlinkBegin)),
    Condition(false, StateValue(Str("on"), BlinkBegin)),
    Condition(false, EntryDuration(0.0, StopOff)),
    Condition(false, EntryDuration(0.0, StopOn)),
    Condition(false, StateValue(Str("off"), StopBegin)),
    Condition(false, StateValue(Str("on"), StopBegin)),
    Condition(false, EntryDuration(0.0, StopBegin)),
    Condition(false, StateValue(Str("off"), StopEnd)),
    Condition(false, StateValue(Str("on"), StopEnd))]

  /** The transitions, in construction order; transition 10 is shared by the
      two states of the bounded blink. */
  const BlinkerTransitions: seq<TransRec> := [
    FreshTransition(Conditional, Some(OnState), Some(OffDurationCond)),
    FreshTransition(Conditional, Some(OffState), Some(OnDurationCond)),
    FreshTransition(Conditional, Some(BlinkOn), Some(BlinkOffCond)),
    FreshTransition(Conditional, Some(BlinkOff), Some(BlinkOnCond)),
    FreshTransition(Conditional, Some(BlinkOn), Some(BeginOnCond)),
    FreshTransition(Conditional, Some(BlinkOff), Some(BeginOffCond)),
    FreshTransition(Conditional, Some(StopOn), Some(StopOffCond)),
    FreshTransition(Conditional, Some(StopOff), Some(StopOnCond)),
    FreshTransition(Conditional, Some(StopOn), Some(StopBeginOnCond)),
    FreshTransition(Conditional, Some(StopOff), Some(StopBeginOffCond)),
    FreshTransition(Conditional, Some(StopEnd), Some(StopCond)),
    FreshTransition(Conditional, Some(OnState), Some(EndOnCond)),
    FreshTransition(Conditional, Some(OffState), Some(EndOffCond))]

  /** The transition list of each state, in the order they were added. */
  const Wiring: seq<seq<TransId>> := [[], [], [0], [1], [4, 5], [2], [3], [8, 9], [11, 12], [7, 10], [6, 10]]

  /** A state generator: the monitored state a user callable builds, with its
      parameters and hook lists. */
  datatype Generator = Generator(params: Parameters, entering: seq<Label>, inState: seq<Label>, exiting: seq<Label>)

  function Generate(g: Generator): StateRec
  {
    StateRec(Monitored, g.params, [], g.entering, g.inState, g.exiting, FreshMonitor, NoValue)
  }

  /** The eleven states as constructed, before any transition is added. */
  function Protos(off: Generator, on: Generator): (r: seq<StateRec>)
    ensures |r| == 11
    ensures forall s :: 0 <= s < 11 ==>
      r[s].kind == Monitored && r[s].transitions == [] && r[s].monitor == FreshMonitor && r[s].custom == NoValue
    ensures r[BlinkBegin].params == r[StopBegin].params == r[StopEnd].params == DefaultParameters
  {
    var plain := NewStateRec(Monitored, DefaultParameters);
    [Generate(off), Generate(on), Generate(off), Generate(on), plain, Generate(off), Generate(on),
     plain, plain, Generate(on), Generate(off)]
  }

  /** `c` is condition `d` up to the duration, which the blinker reconfigures. */
  predicate Reshaped(c: Condition, d: Condition)
  {
    c.inverse == d.inverse &&
    if d.kind.EntryDuration? then c.kind.EntryDuration? && c.kind.state == d.kind.state else c == d
  }

  /** The blinker's arena: the wiring never changes; only durations, custom
      values, monitoring fields and hooks may. */
  ghost predicate BlinkerShape(a: Arena)
  {
    && |a.states| == 11 && a.transitions == BlinkerTransitions && |a.conditions| == 13
    && (forall s :: 0 <= s < 11 ==> a.states[s].kind == Monitored && a.states[s].transitions == Wiring[s])
    && a.states[BlinkBegin].params == DefaultParameters
    && a.states[StopBegin].params == DefaultParameters
    && a.states[StopEnd].params == DefaultParameters
    && (forall k :: 0 <= k < 13 ==> Reshaped(a.conditions[k], InitialConditions[k]))
  }

  lemma ShapeEvolves(a: Arena, b: Arena)
    requires BlinkerShape(a) && Evolves(a, b)
    ensures BlinkerShape(b)
  {
  }

  /** Every handle of a blinker-shaped arena resolves. */
  lemma ShapeOk(a: Arena)
    requires BlinkerShape(a)
    ensures ArenaOk(a)
  {
    forall s, k | 0 <= s < 11 && 0 <= k < |a.states[s].transitions| ensures a.states[s].transitions[k] < 13 {
      assert a.states[s].transitions == Wiring[s];
    }
    forall t | 0 <= t < 13 ensures TransOk(a.transitions[t], a) {
      assert a.transitions[t] == BlinkerTransitions[t];
    }
    forall c | 0 <= c < 13 ensures RefsOk(a.conditions[c], a.states) {
      assert Reshaped(a.conditions[c], InitialConditions[c]);
    }
  }

  /** Every transition of the blinker has a destination. */
  lemma ShapeRouted(a: Arena)
    requires ArenaOk(a) && BlinkerShape(a)
    ensures AllRouted(a)
  {
    forall s | 0 <= s < |a.states| ensures Routed(a, s) {
      forall k | 0 <= k < |a.states[s].transitions| ensures a.transitions[a.states[s].transitions[k]].next.Some? {
        assert a.states[s].transitions[k] < 13;
      }
    }
  }

  /** Building the on and off states and their timed variants. */
  method BuildPlainStates(layout: Layout, off: Generator, on: Generator)
    requires layout.Valid() && layout.arena == Arena([], [], [])
    modifies layout
    ensures layout.Valid() && layout.arena == Arena([Generate(off), Generate(on), Generate(off), Generate(on)], [], [])
    ensures layout.members == old(layout.members) && layout.initial == old(layout.initial)
  {
    var s := layout.NewState(Generate(off));
    s := layout.NewState(Generate(on));
    s := layout.NewState(Generate(off));
    s := layout.NewState(Generate(on));
  }

  /** Building the states of the endless blink and the bounded blink's first state. */
  method BuildBlinkStates(layout: Layout, off: Generator, on: Generator)
    requires layout.Valid() && layout.arena.transitions == [] && layout.arena.conditions == []
    modifies layout
    ensures layout.Valid()
    ensures layout.arena == old(layout.arena).(states := old(layout.arena.states) +
      [NewStateRec(Monitored, DefaultParameters), Generate(off), Generate(on), NewStateRec(Monitored, DefaultParameters)])
    ensures layout.members == old(layout.members) && layout.initial == old(layout.initial)
  {
    var s := layout.NewState(NewStateRec(Monitored, DefaultParameters));
    s := layout.NewState(Generate(off));
    s := layout.NewState(Generate(on));
    s := layout.NewState(NewStateRec(Monitored, DefaultParameters));
  }

  /** Building the bounded blink's last, on and off states. */
  method BuildStopStates(layout: Layout, off: Generator, on: Generator)
    requires layout.Valid() && layout.arena.transitions == [] && layout.arena.conditions == []
    modifies layout
    ensures layout.Valid()
    ensures layout.arena == old(layout.arena).(states := old(layout.arena.states) +
      [NewStateRec(Monitored, DefaultParameters), Generate(on), Generate(off)])
    ensures layout.members == old(layout.members) && layout.initial == old(layout.initial)
  {
    var s := layout.NewState(NewStateRec(Monitored, DefaultParameters));
    s := layout.NewState(Generate(on));
    s := layout.NewState(Generate(off));
  }

  /** Building the eleven states into an empty layout. */
  method BuildStates(layout: Layout, off: Generator, on: Generator)
    requires layout.Valid() && layout.arena == Arena([], [], [])
    modifies layout
    ensures layout.Valid() && layout.arena == Arena(Protos(off, on), [], [])
    ensures layout.members == old(layout.members) && layout.initial == old(layout.initial)
  {
    BuildPlainStates(layout, off, on);
    BuildBlinkStates(layout, off, on);
    BuildStopStates(layout, off, on);
  }

  /** The arena a blinker is built into: the construction-order states, each
      with the transitions added to it, the transitions and the conditions. */
  function Built(off: Generator, on: Generator): (r: Arena)
    ensures ArenaOk(r) && BlinkerShape(r)
    ensures forall s :: 0 <= s < 11 ==> r.states[s].monitor == FreshMonitor && r.states[s].custom == NoValue
  {
    var p := Protos(off, on);
    var r := Arena(seq(11, s requires 0 <= s < 11 => p[s].(transitions := Wiring[s])), BlinkerTransitions, InitialConditions);
    ShapeOk(r);
    r
  }

  method BuildConditions(layout: Layout)
    requires layout.Valid() && layout.arena == Arena(layout.arena.states, [], [])
    requires |layout.arena.states| == 11 && forall s :: 0 <= s < 11 ==> layout.arena.states[s].kind == Monitored
    modifies layout
    ensures layout.Valid() && layout.arena == old(layout.arena).(conditions := InitialConditions)
    ensures layout.members == old(layout.members) && layout.initial == old(layout.initial)
  {
    var c := layout.NewCondition(Condition(false, EntryDuration(0.0, OffDuration)));
    c := layout.NewCondition(Condition(false, EntryDuration(0.0, OnDuration)));
    c := layout.NewCondition(Condition(false, EntryDuration(0.0, BlinkOff)));
    c := layout.NewCondition(Condition(false, EntryDuration(0.0, BlinkOn)));
    c := layout.NewCondition(Condition(false, StateValue(Str("off"), BlinkBegin)));
    c := layout.NewCondition(Condition(false, StateValue(Str("on"), BlinkBegin)));
    c := layout.NewCondition(Condition(false, EntryDuration(0.0, StopOff)));
    c := layout.NewCondition(Condition(false, EntryDuration(0.0, StopOn)));
    c := layout.NewCondition(Condition(false, StateValue(Str("off"), StopBegin)));
    c := layout.NewCondition(Condition(false, StateValue(Str("on"), StopBegin)));
    c := layout.NewCondition(Condition(false, EntryDuration(0.0, StopBegin)));
    c := layout.NewCondition(Condition(false, StateValue(Str("off"), StopEnd)));
    c := layout.NewCondition(Condition(false, StateValue(Str("on"), StopEnd)));
  }

  /** The transitions of the on, off and endless blink states. */
  method BuildBlinkTransitions(layout: Layout)
    requires layout.Valid() && |layout.arena.states| == 11 && |layout.arena.conditions| == 13
    modifies layout
    ensures layout.Valid() && layout.arena == old(layout.arena).(transitions := old(layout.arena.transitions) + [
      FreshTransition(Conditional, Some(OnState), Some(OffDurationCond)),
      FreshTransition(Conditional, Some(OffState), Some(OnDurationCond)),
      FreshTransition(Conditional, Some(BlinkOn), Some(BlinkOffCond)),
      FreshTransition(Conditional, Some(BlinkOff), Some(BlinkOnCond)),
      FreshTransition(Conditional, Some(BlinkOn), Some(BeginOnCond)),
      FreshTransition(Conditional, Some(BlinkOff), Some(BeginOffCond))])
    ensures layout.members == old(layout.members) && layout.initial == old(layout.initial)
  {
    var t := layout.NewTransition(Conditional, Some(OnState), Some(OffDurationCond));
    t := layout.NewTransition(Conditional, Some(OffState), Some(OnDurationCond));
    t := layout.NewTransition(Conditional, Some(BlinkOn), Some(BlinkOffCond));
    t := layout.NewTransition(Conditional, Some(BlinkOff), Some(BlinkOnCond));
    t := layout.NewTransition(Conditional, Some(BlinkOn), Some(BeginOnCond));
    t := layout.NewTransition(Conditional, Some(BlinkOff), Some(BeginOffCond));
  }

  /** The transitions of the bounded blink's states. */
  method BuildStopTransitions(layout: Layout)
    requires layout.Valid() && |layout.arena.states| == 11 && |layout.arena.conditions| == 13
    modifies layout
    ensures layout.Valid() && layout.arena == old(layout.arena).(transitions := old(layout.arena.transitions) + [
      FreshTransition(Conditional, Some(StopOn), Some(StopOffCond)),
      FreshTransition(Conditional, Some(StopOff), Some(StopOnCond)),
      FreshTransition(Conditional, Some(StopOn), Some(StopBeginOnCond)),
      FreshTransition(Conditional, Some(StopOff), Some(StopBeginOffCond)),
      FreshTransition(Conditional, Some(StopEnd), Some(StopCond)),
      FreshTransition(Conditional, Some(OnState), Some(EndOnCond)),
      FreshTransition(Conditional, Some(OffState), Some(EndOffCond))])
    ensures layout.members == old(layout.members) && layout.initial == old(layout.initial)
  {
    var t := layout.NewTransition(Conditional, Some(StopOn), Some(StopOffCond));
    t := layout.NewTransition(Conditional, Some(StopOff), Some(StopOnCond));
    t := layout.NewTransition(Conditional, Some(StopOn), Some(StopBeginOnCond));
    t := layout.NewTransition(Conditional, Some(StopOff), Some(StopBeginOffCond));
    t := layout.NewTransition(Conditional, Some(StopEnd), Some(StopCond));
    t := layout.NewTransition(Conditional, Some(OnState), Some(EndOnCond));
    t := layout.NewTransition(Conditional, Some(OffState), Some(EndOffCond));
  }

  method BuildTransitions(layout: Layout)
    requires layout.Valid() && layout.arena == Arena(layout.arena.states, [], InitialConditions)
    requires |layout.arena.states| == 11
    modifies layout
    ensures layout.Valid() && layout.arena == old(layout.arena).(transitions := BlinkerTransitions)
    ensures layout.members == old(layout.members) && layout.initial == old(layout.initial)
  {
    BuildBlinkTransitions(layout);
    BuildStopTransitions(layout);
  }

  /** `states` are the records `p` with the transition lists `w`. */
  ghost predicate WiredAs(states: seq<StateRec>, p: seq<StateRec>, w: seq<seq<TransId>>)
  {
    |states| == |p| == |w| && forall s :: 0 <= s < |p| ==> states[s] == p[s].(transitions := w[s])
  }

  /** `Layout.AddTransition`, tracking the transition lists built so far. */
  method Link(layout: Layout, s: StateId, t: TransId, ghost p: seq<StateRec>, ghost w: seq<seq<TransId>>)
    requires layout.Valid() && WiredAs(layout.arena.states, p, w) && s < |p| && t < |layout.arena.transitions|
    modifies layout
    ensures layout.Valid() && WiredAs(layout.arena.states, p, w[s := w[s] + [t]])
    ensures layout.arena.transitions == old(layout.arena.transitions) && layout.arena.conditions == old(layout.arena.conditions)
    ensures layout.members == old(layout.members) && layout.initial == old(layout.initial)
  {
    layout.AddTransition(s, t);
  }

  /** Wiring: the timed on and off states hand over to the plain ones. */
  method WireDurations(layout: Layout, ghost p: seq<StateRec>)
    requires layout.Valid() && WiredAs(layout.arena.states, p, [[], [], [], [], [], [], [], [], [], [], []])
    requires |layout.arena.transitions| == 13
    modifies layout
    ensures layout.Valid() && WiredAs(layout.arena.states, p, [[], [], [0], [1], [], [], [], [], [], [], []])
    ensures layout.arena.transitions == old(layout.arena.transitions) && layout.arena.conditions == old(layout.arena.conditions)
    ensures layout.members == old(layout.members) && layout.initial == old(layout.initial)
  {
    Link(layout, OffDuration, 0, p, [[], [], [], [], [], [], [], [], [], [], []]);
    Link(layout, OnDuration, 1, p, [[], [], [0], [], [], [], [], [], [], [], []]);
  }

  /** Wiring: the blink's on and off states hand over to each other. */
  method WireBlink(layout: Layout, ghost p: seq<StateRec>)
    requires layout.Valid() && WiredAs(layout.arena.states, p, [[], [], [0], [1], [], [], [], [], [], [], []])
    requires |layout.arena.transitions| == 13
    modifies layout
    ensures layout.Valid() && WiredAs(layout.arena.states, p, [[], [], [0], [1], [], [2], [3], [], [], [], []])
    ensures layout.arena.transitions == old(layout.arena.transitions) && layout.arena.conditions == old(layout.arena.conditions)
    ensures layout.members == old(layout.members) && layout.initial == old(layout.initial)
  {
    Link(layout, BlinkOff, 2, p, [[], [], [0], [1], [], [], [], [], [], [], []]);
    Link(layout, BlinkOn, 3, p, [[], [], [0], [1], [], [2], [], [], [], [], []]);
  }

  /** Wiring: the blink's first state chooses on or off. */
  method WireBlinkBegin(layout: Layout, ghost p: seq<StateRec>)
    requires layout.Valid() && WiredAs(layout.arena.states, p, [[], [], [0], [1], [], [2], [3], [], [], [], []])
    requires |layout.arena.transitions| == 13
    modifies layout
    ensures layout.Valid() && WiredAs(layout.arena.states, p, [[], [], [0], [1], [4, 5], [2], [3], [], [], [], []])
    ensures layout.arena.transitions == old(layout.arena.transitions) && layout.arena.conditions == old(layout.arena.conditions)
    ensures layout.members == old(layout.members) && layout.initial == old(layout.initial)
  {
    Link(layout, BlinkBegin, 4, p, [[], [], [0], [1], [], [2], [3], [], [], [], []]);
    Link(layout, BlinkBegin, 5, p, [[], [], [0], [1], [4], [2], [3], [], [], [], []]);
  }

  /** Wiring: the bounded blink's on and off states hand over to each other. */
  method WireStopToggles(layout: Layout, ghost p: seq<StateRec>)
    requires layout.Valid() && WiredAs(layout.arena.states, p, [[], [], [0], [1], [4, 5], [2], [3], [], [], [], []])
    requires |layout.arena.transitions| == 13
    modifies layout
    ensures layout.Valid() && WiredAs(layout.arena.states, p, [[], [], [0], [1], [4, 5], [2], [3], [], [], [7], [6]])
    ensures layout.arena.transitions == old(layout.arena.transitions) && layout.arena.conditions == old(layout.arena.conditions)
    ensures layout.members == old(layout.members) && layout.initial == old(layout.initial)
  {
    Link(layout, StopOff, 6, p, [[], [], [0], [1], [4, 5], [2], [3], [], [], [], []]);
    Link(layout, StopOn, 7, p, [[], [], [0], [1], [4, 5], [2], [3], [], [], [], [6]]);
  }

  /** Wiring: the bounded blink's first state chooses on or off. */
  method WireStopBegin(layout: Layout, ghost p: seq<StateRec>)
    requires layout.Valid() && WiredAs(layout.arena.states, p, [[], [], [0], [1], [4, 5], [2], [3], [], [], [7], [6]])
    requires |layout.arena.transitions| == 13
    modifies layout
    ensures layout.Valid() && WiredAs(layout.arena.states, p, [[], [], [0], [1], [4, 5], [2], [3], [8, 9], [], [7], [6]])
    ensures layout.arena.transitions == old(layout.arena.transitions) && layout.arena.conditions == old(layout.arena.conditions)
    ensures layout.members == old(layout.members) && layout.initial == old(layout.initial)
  {
    Link(layout, StopBegin, 8, p, [[], [], [0], [1], [4, 5], [2], [3], [], [], [7], [6]]);
    Link(layout, StopBegin, 9, p, [[], [], [0], [1], [4, 5], [2], [3], [8], [], [7], [6]]);
  }

  /** Wiring: the bounded blink's on and off states share the transition that ends it. */
  method WireStopEnd(layout: Layout, ghost p: seq<StateRec>)
    requires layout.Valid() && WiredAs(layout.arena.states, p, [[], [], [0], [1], [4, 5], [2], [3], [8, 9], [], [7], [6]])
    requires |layout.arena.transitions| == 13
    modifies layout
    ensures layout.Valid() && WiredAs(layout.arena.states, p, [[], [], [0], [1], [4, 5], [2], [3], [8, 9], [], [7, 10], [6, 10]])
    ensures layout.arena.transitions == old(layout.arena.transitions) && layout.arena.conditions == old(layout.arena.conditions)
    ensures layout.members == old(layout.members) && layout.initial == old(layout.initial)
  {
    Link(layout, StopOff, 10, p, [[], [], [0], [1], [4, 5], [2], [3], [8, 9], [], [7], [6]]);
    Link(layout, StopOn, 10, p, [[], [], [0], [1], [4, 5], [2], [3], [8, 9], [], [7], [6, 10]]);
  }

  /** Wiring: the bounded blink's last state chooses on or off. */
  method WireEnd(layout: Layout, ghost p: seq<StateRec>)
    requires layout.Valid() && WiredAs(layout.arena.states, p, [[], [], [0], [1], [4, 5], [2], [3], [8, 9], [], [7, 10], [6, 10]])
    requires |layout.arena.transitions| == 13
    modifies layout
    ensures layout.Valid() && WiredAs(layout.arena.states, p, [[], [], [0], [1], [4, 5], [2], [3], [8, 9], [11, 12], [7, 10], [6, 10]])
    ensures layout.arena.transitions == old(layout.arena.transitions) && layout.arena.conditions == old(layout.arena.conditions)
    ensures layout.members == old(layout.members) && layout.initial == old(layout.initial)
  {
    Link(layout, StopEnd, 11, p, [[], [], [0], [1], [4, 5], [2], [3], [8, 9], [], [7, 10], [6, 10]]);
    Link(layout, StopEnd, 12, p, [[], [], [0], [1], [4, 5], [2], [3], [8, 9], [11], [7, 10], [6, 10]]);
  }

  lemma WiredIsBuilt(states: seq<StateRec>, off: Generator, on: Generator)
    requires WiredAs(states, Protos(off, on), [[], [], [0], [1], [4, 5], [2], [3], [8, 9], [11, 12], [7, 10], [6, 10]])
    ensures states == Built(off, on).states
  {
    assert forall s :: 0 <= s < 11 ==> states[s] == Built(off, on).states[s];
  }

  /** Adding each transition to the states it leaves, in the original's order. */
  method Wire(layout: Layout, off: Generator, on: Generator)
    requires layout.Valid() && layout.arena == Arena(Protos(off, on), BlinkerTransitions, InitialConditions)
    modifies layout
    ensures layout.Valid() && layout.arena == Built(off, on)
    ensures layout.members == old(layout.members) && layout.initial == old(layout.initial)
  {
    ghost var p := Protos(off, on);
    assert WiredAs(layout.arena.states, p, [[], [], [], [], [], [], [], [], [], [], []]);
    WireDurations(layout, p);
    WireBlink(layout, p);
    WireBlinkBegin(layout, p);
    WireStopToggles(layout, p);
    WireStopBegin(layout, p);
    WireStopEnd(layout, p);
    WireEnd(layout, p);
    WiredIsBuilt(layout.arena.states, off, on);
  }

  /** The layout of a blinker: its eleven states, all members, the off state
      initial. */
  method Build(off: Generator, on: Generator) returns (layout: Layout)
    ensures fresh(layout) && layout.Valid()
    ensures layout.arena == Built(off, on)
    ensures layout.members == AllStates && layout.initial == Some(OffState)
  {
    layout := new Layout();
    BuildStates(layout, off, on);
    BuildConditions(layout);
    BuildTransitions(layout);
    Wire(layout, off, on);
    layout.AddStates(AllStates);
    var r := layout.SetInitialState(OffState);
  }

  /** The on/off custom value the choosing states compare against. */
  function OnOff(on: bool): Value
  {
    Str(if on then "on" else "off")
  }

  function Duration(a: Arena, k: CondId): real
    requires BlinkerShape(a) && k < 13 && InitialConditions[k].kind.EntryDuration?
  {
    a.conditions[k].kind.duration
  }

  /** Setting the duration of one of the blinker's entry-duration conditions. */
  function WithDuration(a: Arena, k: CondId, d: real): (r: Arena)
    requires ArenaOk(a) && BlinkerShape(a) && k < 13 && InitialConditions[k].kind.EntryDuration?
    ensures ArenaOk(r) && BlinkerShape(r) && r.states == a.states && r.transitions == a.transitions
    ensures r.conditions[k] == Condition(false, EntryDuration(d, InitialConditions[k].kind.state))
    ensures forall j :: 0 <= j < 13 && j != k ==> r.conditions[j] == a.conditions[j]
  {
    a.(conditions := a.conditions[k := Condition(a.conditions[k].inverse, EntryDuration(d, a.conditions[k].kind.state))])
  }

  /** Setting the custom value of one of the blinker's states. */
  function WithCustom(a: Arena, s: StateId, v: Value): (r: Arena)
    requires ArenaOk(a) && BlinkerShape(a) && s < 11
    ensures ArenaOk(r) && BlinkerShape(r) && r.conditions == a.conditions && r.transitions == a.transitions
    ensures r.states[s].custom == v && r.states[s].(custom := a.states[s].custom) == a.states[s]
    ensures forall i :: 0 <= i < 11 && i != s ==> r.states[i] == a.states[i]
  {
    var states := a.states[s := a.states[s].(custom := v)];
    RefsOkAllKept(a.conditions, a.states, states);
    a.(states := states)
  }

  /** How `blink` was asked to blink. */
  datatype Plan = Forever(cycle: real) | Bounded(total: real, cycle: real)

  datatype BlinkError = PercentOutOfRange | InvalidCallingConvention | DivisionByZero

  /** The calling conventions `blink` accepts: a cycle alone, or exactly two of
      total duration, cycle duration and number of cycles. */
  predicate Accepted(total: Option<real>, cycle: Option<real>, n: Option<int>)
  {
    var given := (if total.Some? then 1 else 0) + (if cycle.Some? then 1 else 0) + (if n.Some? then 1 else 0);
    given == 2 || (given == 1 && cycle.Some?)
  }

  /** The argument checks and dispatch of `Blinker.blink`: the share of time on
      is checked first, then the calling convention; the missing one of total
      duration, cycle duration and number of cycles is derived from the other
      two, dividing by the number of cycles when the cycle is missing. */
  function PlanBlink(total: Option<real>, cycle: Option<real>, n: Option<int>, percent: real): (r: Result<Plan, BlinkError>)
    ensures r == Failure(PercentOutOfRange) <==> !(0.0 <= percent <= 1.0)
    ensures r == Failure(InvalidCallingConvention) <==> 0.0 <= percent <= 1.0 && !Accepted(total, cycle, n)
    ensures r == Failure(DivisionByZero) <==> 0.0 <= percent <= 1.0 && total.Some? && cycle.None? && n == Some(0)
    ensures r.Success? ==> Accepted(total, cycle, n)
    ensures r.Success? ==> (r.value.Forever? <==> total.None? && n.None?)
    ensures r.Success? ==> cycle.Some? ==> r.value.cycle == cycle.value
    ensures r.Success? && r.value.Bounded? ==>
      && (total.Some? ==> r.value.total == total.value)
      && (n.Some? ==> r.value.total == r.value.cycle * n.value as real)
  {
    if !(0.0 <= percent <= 1.0) then Failure(PercentOutOfRange)
    else if cycle.Some? && total.None? && n.None? then Success(Forever(cycle.value))
    else if total.Some? && cycle.Some? && n.None? then Success(Bounded(total.value, cycle.value))
    else if total.Some? && cycle.None? && n.Some? then
      if n.value == 0 then Failure(DivisionByZero)
      else Success(Bounded(total.value, total.value / n.value as real))
    else if total.None? && cycle.Some? && n.Some? then Success(Bounded(cycle.value * n.value as real, cycle.value))
    else Failure(InvalidCallingConvention)
  }

  /** What `__blink` writes before moving to the blink's first state: the
      first state's value, then a cycle split into `cycle * percent` on and
      the rest off. */
  function ConfigureForever(a: Arena, cycle: real, percent: real, beginOn: bool): (r: Arena)
    requires ArenaOk(a) && BlinkerShape(a)
    ensures ArenaOk(r) && BlinkerShape(r)
  {
    var on := cycle * percent;
    WithDuration(WithDuration(WithCustom(a, BlinkBegin, OnOff(beginOn)), BlinkOnCond, on), BlinkOffCond, cycle - on)
  }

  /** What `__blink_stop` writes before moving to the blink's first state:
      the total, the cycle split as for `__blink`, then the values of the
      first and last states. */
  function ConfigureBounded(a: Arena, total: real, cycle: real, percent: real, beginOn: bool, endOff: bool): (r: Arena)
    requires ArenaOk(a) && BlinkerShape(a)
    ensures ArenaOk(r) && BlinkerShape(r)
  {
    var on := cycle * percent;
    var timed := WithDuration(WithDuration(WithDuration(a, StopCond, total), StopOnCond, on), StopOffCond, cycle - on);
    WithCustom(WithCustom(timed, StopBegin, OnOff(beginOn)), StopEnd, OnOff(!endOff))
  }

  function Configure(a: Arena, plan: Plan, percent: real, beginOn: bool, endOff: bool): (r: Arena)
    requires ArenaOk(a) && BlinkerShape(a)
    ensures ArenaOk(r) && BlinkerShape(r)
  {
    if plan.Forever? then ConfigureForever(a, plan.cycle, percent, beginOn)
    else ConfigureBounded(a, plan.total, plan.cycle, percent, beginOn, endOff)
  }

  /** Where a step on a non-terminal state leads: the destination of the first
      transition that fires, or nowhere. */
  lemma StepLeadsTo(c: Config, now: real)
    requires ConfigOk(c) && c.current.Some? && AllRouted(c.arena)
    requires !c.arena.states[c.current.value].params.terminal
    ensures AllIn(c.arena.states[c.current.value].transitions, c.arena)
    ensures var f := FirstFiring(c.arena, c.arena.states[c.current.value].transitions, now);
      var r := TrackSpec(c, now);
      r.0 && r.1.current == (if f.0.Some? then c.arena.transitions[f.0.value].next else c.current)
  {
    var f := FirstFiring(c.arena, c.arena.states[c.current.value].transitions, now);
    if f.0.Some? { TrackFiring(c, now); } else { TrackStays(c, now); }
  }

  /** The first of two transitions whose conditions leave the records alone. */
  lemma FirstOfTwo(a: Arena, x: TransId, y: TransId, now: real)
    requires ArenaOk(a) && x < |a.transitions| && y < |a.transitions|
    requires Fires(a, x, now).1 == a.states && Fires(a, y, now).1 == a.states
    ensures AllIn([x, y], a)
    ensures FirstFiring(a, [x, y], now).0
      == if Fires(a, x, now).0 then Some(x) else if Fires(a, y, now).0 then Some(y) else None
  {
    assert [x, y][1..] == [y];
    assert a.(states := a.states) == a;
  }

  /** The states that choose where to go by their own custom value, and the
      states "on" and "off" send them to. */
  const Choosers: set<StateId> := {BlinkBegin, StopBegin, StopEnd}

  function OnBranch(s: StateId): StateId
  {
    if s == BlinkBegin then BlinkOn else if s == StopBegin then StopOn else OnState
  }

  function OffBranch(s: StateId): StateId
  {
    if s == BlinkBegin then BlinkOff else if s == StopBegin then StopOff else OffState
  }

  /** A state left by two transitions guarded by its own value being "on",
      then "off", moves to the first's destination, to the second's, or
      stays. */
  lemma ChooseByValue(c: Config, x: TransId, y: TransId, now: real)
    requires ConfigOk(c) && c.current.Some? && AllRouted(c.arena)
    requires !c.arena.states[c.current.value].params.terminal
    requires c.arena.states[c.current.value].transitions == [x, y]
    requires x < |c.arena.transitions| && y < |c.arena.transitions|
    requires c.arena.transitions[x].cond.Some? && c.arena.transitions[y].cond.Some?
    requires c.arena.transitions[x].next.Some? && c.arena.transitions[y].next.Some?
    requires c.arena.conditions[c.arena.transitions[x].cond.value] == Condition(false, StateValue(OnOff(true), c.current.value))
    requires c.arena.conditions[c.arena.transitions[y].cond.value] == Condition(false, StateValue(OnOff(false), c.current.value))
    ensures var v := c.arena.states[c.current.value].custom;
      var r := TrackSpec(c, now);
      && r.0
      && r.1.current == (if v == OnOff(true) then c.arena.transitions[x].next
                         else if v == OnOff(false) then c.arena.transitions[y].next else c.current)
  {
    var a := c.arena;
    var v := a.states[c.current.value].custom;
    StateValueRereads(OnOff(true), c.current.value, a.states, now, v);
    StateValueRereads(OnOff(false), c.current.value, a.states, now, v);
    assert Fires(a, x, now) == (v == OnOff(true), a.states);
    assert Fires(a, y, now) == (v == OnOff(false), a.states);
    FirstOfTwo(a, x, y, now);
    StepLeadsTo(c, now);
  }

  /** A choosing state moves to its "on" branch when its custom value is "on",
      to its "off" branch when it is "off", and otherwise stays. */
  lemma ValueChoice(c: Config, now: real)
    requires ConfigOk(c) && BlinkerShape(c.arena) && c.current.Some? && c.current.value in Choosers
    ensures AllRouted(c.arena)
    ensures var cur := c.current.value;
      var v := c.arena.states[cur].custom;
      var r := TrackSpec(c, now);
      && r.0
      && r.1.current == (if v == OnOff(true) then Some(OnBranch(cur)) else if v == OnOff(false) then Some(OffBranch(cur)) else c.current)
  {
    var a := c.arena;
    var cur := c.current.value;
    ShapeRouted(a);
    var x, y := a.states[cur].transitions[0], a.states[cur].transitions[1];
    assert a.states[cur].transitions == [x, y];
    assert a.conditions[a.transitions[x].cond.value] == Condition(false, StateValue(OnOff(true), cur));
    assert a.conditions[a.transitions[y].cond.value] == Condition(false, StateValue(OnOff(false), cur));
    assert a.transitions[x].next == Some(OnBranch(cur)) && a.transitions[y].next == Some(OffBranch(cur));
    ChooseByValue(c, x, y, now);
  }

  /** The states that hold for a set time before handing over. */
  const Holders: set<StateId> := {OffDuration, OnDuration, BlinkOff, BlinkOn}

  /** Where a holding or toggling state hands over to. */
  function Partner(s: StateId): StateId
  {
    match s
    case 2 => OnState
    case 3 => OffState
    case 5 => BlinkOn
    case 6 => BlinkOff
    case 9 => StopOff
    case 10 => StopOn
    case _ => s
  }

  /** The condition timing a holding or toggling state. */
  function HoldCond(s: StateId): CondId
  {
    match s
    case 2 => OffDurationCond
    case 3 => OnDurationCond
    case 5 => BlinkOffCond
    case 6 => BlinkOnCond
    case 9 => StopOnCond
    case _ => StopOffCond
  }

  /** A holding state stays while at most its duration has elapsed since its
      entry, and hands over to its partner once more has. */
  lemma HoldThenHandOver(c: Config, now: real)
    requires ConfigOk(c) && BlinkerShape(c.arena) && c.current.Some? && c.current.value in Holders
    requires !c.arena.states[c.current.value].params.terminal
    ensures AllRouted(c.arena)
    ensures var cur := c.current.value;
      var due := c.arena.states[cur].monitor.lastEntry + Duration(c.arena, HoldCond(cur));
      var r := TrackSpec(c, now);
      && r.0
      && (now <= due ==> r.1.current == c.current)
      && (due < now ==> r.1.current == Some(Partner(cur)))
  {
    var cur := c.current.value;
    ShapeRouted(c.arena);
    assert c.arena.states[cur].transitions == [HoldCond(cur)];
    DurationHandOff(c, HoldCond(cur), Duration(c.arena, HoldCond(cur)), now);
  }

  /** The two states of the bounded blink. */
  const Togglers: set<StateId> := {StopOn, StopOff}

  /** In the bounded blink, a state hands over to its partner once its own
      duration has elapsed; otherwise the blink ends once the total duration
      has elapsed since the blink began; otherwise it stays. When both are due
      at the same poll, the hand-over wins, because it was added first. */
  lemma ToggleOrEnd(c: Config, now: real)
    requires ConfigOk(c) && BlinkerShape(c.arena) && c.current.Some? && c.current.value in Togglers
    requires !c.arena.states[c.current.value].params.terminal
    ensures AllRouted(c.arena)
    ensures var cur := c.current.value;
      var toggle := c.arena.states[cur].monitor.lastEntry + Duration(c.arena, HoldCond(cur));
      var end := c.arena.states[StopBegin].monitor.lastEntry + Duration(c.arena, StopCond);
      var r := TrackSpec(c, now);
      && r.0
      && r.1.current == (if toggle < now then Some(Partner(cur)) else if end < now then Some(StopEnd) else c.current)
  {
    ShapeRouted(c.arena);
    TogglerFiring(c.arena, c.current.value, now);
    StepLeadsTo(c, now);
  }

  /** Which of a toggling state's two transitions fires first, and where each leads. */
  lemma TogglerFiring(a: Arena, cur: StateId, now: real)
    requires ArenaOk(a) && BlinkerShape(a) && cur in Togglers
    ensures AllIn(a.states[cur].transitions, a)
    ensures var x := HoldCond(cur);
      && a.transitions[x].next == Some(Partner(cur)) && a.transitions[10].next == Some(StopEnd)
      && FirstFiring(a, a.states[cur].transitions, now).0
         == if a.states[cur].monitor.lastEntry + Duration(a, x) < now then Some(x)
            else if a.states[StopBegin].monitor.lastEntry + Duration(a, StopCond) < now then Some(10)
            else None
  {
    var x := HoldCond(cur);
    if cur == StopOn {
      TimedFires(a, x, StopOn, now);
    } else {
      TimedFires(a, x, StopOff, now);
    }
    TimedFires(a, 10, StopBegin, now);
    assert a.states[cur].transitions == [x, 10];
    FirstOfTwo(a, x, 10, now);
  }

  /** A transition timed by one of the blinker's entry-duration conditions
      fires exactly once that duration has passed since its state was entered,
      and leaves the records alone. */
  lemma TimedFires(a: Arena, t: TransId, s: StateId, now: real)
    requires ArenaOk(a) && BlinkerShape(a) && t < 13 && s < 11
    requires a.transitions[t].cond == Some(t) && InitialConditions[t] == Condition(false, EntryDuration(0.0, s))
    ensures Fires(a, t, now).1 == a.states
    ensures Fires(a, t, now).0 <==> a.states[s].monitor.lastEntry + Duration(a, t) < now
  {
    assert Reshaped(a.conditions[t], InitialConditions[t]);
    EntryDurationStrict(Duration(a, t), s, a.states, now, now);
  }

  /** A step changes no state's custom value: only blinking writes them. */
  lemma StepKeepsCustoms(c: Config, now: real)
    requires ConfigOk(c) && c.current.Some? && AllRouted(c.arena)
    ensures var r := TrackSpec(c, now);
      forall s :: 0 <= s < |c.arena.states| ==> r.1.arena.states[s].custom == c.arena.states[s].custom
  {
    var cur := c.current.value;
    if !c.arena.states[cur].params.terminal {
      var f := FirstFiring(c.arena, c.arena.states[cur].transitions, now);
      assert forall s :: 0 <= s < |c.arena.states| ==> f.1.states[s].custom == c.arena.states[s].custom;
      if f.0.Some? {
        assert Routed(c.arena, cur);
      }
    }
  }

  /** `turn_on` (`on`) and `turn_off`: without a duration, go to the plain on
      or off state; with one, set the timed state's duration and go there. */
  function Turn(c: Config, on: bool, d: Option<real>, now: real): (r: Config)
    requires ConfigOk(c) && BlinkerShape(c.arena) && c.current.Some?
    ensures ConfigOk(r) && BlinkerShape(r.arena) && r.current.Some? && AllRouted(r.arena)
    ensures r.current.value in (if on then OnStates else OffStates)
    ensures d.None? ==> r.current == Some(if on then OnState else OffState)
    ensures d.Some? ==> r.current == Some(if on then OnDuration else OffDuration)
    ensures r.op == c.op
  {
    var timed := if on then OnDuration else OffDuration;
    var c1 := if d.Some? then c.(arena := WithDuration(c.arena, HoldCond(timed), d.value)) else c;
    var r := TransitToSpec(c1, if d.Some? then timed else if on then OnState else OffState, now);
    ShapeEvolves(c1.arena, r.arena);
    ShapeRouted(r.arena);
    r
  }

  /** Turning on (off) for `d` keeps the light on (off) for polls up to `d`
      after the call and turns it off (on) at the first poll after that. */
  lemma TimedTurn(c: Config, on: bool, d: real, now: real, later: real)
    requires ConfigOk(c) && BlinkerShape(c.arena) && c.current.Some?
    requires !c.arena.states[if on then OnDuration else OffDuration].params.terminal
    ensures var r := Turn(c, on, Some(d), now);
      var timed := if on then OnDuration else OffDuration;
      var step := TrackSpec(r, later);
      && r.current == Some(timed)
      && (later <= now + d ==> step.1.current == Some(timed))
      && (now + d < later ==> step.1.current == Some(if on then OffState else OnState))
  {
    var timed := if on then OnDuration else OffDuration;
    var r := Turn(c, on, Some(d), now);
    assert r.arena.states[timed].monitor.lastEntry == now;
    assert Duration(r.arena, HoldCond(timed)) == d;
    HoldThenHandOver(r, later);
  }

  /** Moving between states changes no custom value. */
  lemma TransitKeepsCustoms(c: Config, s: StateId, now: real)
    requires ConfigOk(c) && c.current.Some? && s < |c.arena.states|
    ensures forall i :: 0 <= i < |c.arena.states| ==> TransitToSpec(c, s, now).arena.states[i].custom == c.arena.states[i].custom
  {
  }

  /** `Blinker.blink`: check and dispatch the arguments, write the durations
      and values, and move to the first state of the blink; a refused call
      changes nothing. */
  function BlinkSpec(c: Config, total: Option<real>, cycle: Option<real>, n: Option<int>, percent: real,
                     beginOn: bool, endOff: bool, now: real): (r: Result<Config, BlinkError>)
    requires ConfigOk(c) && BlinkerShape(c.arena) && c.current.Some?
    ensures r.Success? <==> PlanBlink(total, cycle, n, percent).Success?
    ensures r.Failure? ==> r.error == PlanBlink(total, cycle, n, percent).error
    ensures r.Success? ==> ConfigOk(r.value) && BlinkerShape(r.value.arena) && r.value.current.Some? && r.value.op == c.op
  {
    match PlanBlink(total, cycle, n, percent)
    case Failure(e) => Failure(e)
    case Success(plan) =>
      var c1 := c.(arena := Configure(c.arena, plan, percent, beginOn, endOff));
      var r := TransitToSpec(c1, if plan.Forever? then BlinkBegin else StopBegin, now);
      ShapeEvolves(c1.arena, r.arena);
      Success(r)
  }

  /** Blinking forever splits the cycle into `cycle * percent` on and the rest
      off, both non-negative for a non-negative cycle, and chooses the first
      half by `beginOn`; it leaves the bounded blink and every monitor alone. */
  lemma ForeverConfigured(a: Arena, cycle: real, percent: real, beginOn: bool)
    requires ArenaOk(a) && BlinkerShape(a)
    ensures var r := ConfigureForever(a, cycle, percent, beginOn);
      && Duration(r, BlinkOnCond) == cycle * percent
      && Duration(r, BlinkOnCond) + Duration(r, BlinkOffCond) == cycle
      && (0.0 <= cycle && 0.0 <= percent <= 1.0 ==> 0.0 <= Duration(r, BlinkOnCond) && 0.0 <= Duration(r, BlinkOffCond))
      && r.states[BlinkBegin].custom == OnOff(beginOn)
      && (forall k :: StopOffCond <= k < 13 ==> r.conditions[k] == a.conditions[k])
      && r.states[StopBegin] == a.states[StopBegin] && r.states[StopEnd] == a.states[StopEnd]
      && (forall s :: 0 <= s < 11 ==> r.states[s].monitor == a.states[s].monitor)
  {
    if 0.0 <= cycle && 0.0 <= percent <= 1.0 {
      SplitBounds(cycle, percent);
    }
  }

  /** The on part of a cycle lies between none and all of it. */
  lemma SplitBounds(cycle: real, percent: real)
    requires 0.0 <= cycle && 0.0 <= percent <= 1.0
    ensures 0.0 <= cycle * percent <= cycle
  {
    assert cycle * percent <= cycle * 1.0;
  }

  /** The three durations `__blink_stop` writes, and nothing else. */
  lemma StopTimed(a: Arena, total: real, on: real, off: real)
    requires ArenaOk(a) && BlinkerShape(a)
    ensures var t := WithDuration(WithDuration(WithDuration(a, StopCond, total), StopOnCond, on), StopOffCond, off);
      && t.states == a.states
      && Duration(t, StopCond) == total && Duration(t, StopOnCond) == on && Duration(t, StopOffCond) == off
      && (forall k :: 0 <= k < StopOffCond ==> t.conditions[k] == a.conditions[k])
  {
  }

  /** A bounded blink ends after `total`, splits its cycle like a blink
      forever, chooses its first half by `beginOn` and its final state by
      `endOff`; it leaves the unbounded blink and every monitor alone. */
  lemma BoundedConfigured(a: Arena, total: real, cycle: real, percent: real, beginOn: bool, endOff: bool)
    requires ArenaOk(a) && BlinkerShape(a)
    ensures var r := ConfigureBounded(a, total, cycle, percent, beginOn, endOff);
      && Duration(r, StopCond) == total
      && Duration(r, StopOnCond) == cycle * percent
      && Duration(r, StopOnCond) + Duration(r, StopOffCond) == cycle
      && (0.0 <= cycle && 0.0 <= percent <= 1.0 ==> 0.0 <= Duration(r, StopOnCond) && 0.0 <= Duration(r, StopOffCond))
      && r.states[StopBegin].custom == OnOff(beginOn)
      && r.states[StopEnd].custom == OnOff(!endOff)
      && (forall k :: 0 <= k < StopOffCond ==> r.conditions[k] == a.conditions[k])
      && r.states[BlinkBegin] == a.states[BlinkBegin]
      && (forall s :: 0 <= s < 11 ==> r.states[s].monitor == a.states[s].monitor)
  {
    var on := cycle * percent;
    var timed := WithDuration(WithDuration(WithDuration(a, StopCond, total), StopOnCond, on), StopOffCond, cycle - on);
    StopTimed(a, total, on, cycle - on);
    var r := ConfigureBounded(a, total, cycle, percent, beginOn, endOff);
    assert r.conditions == timed.conditions;
    if 0.0 <= cycle && 0.0 <= percent <= 1.0 {
      SplitBounds(cycle, percent);
    }
  }

  /** The half a blink starts in: the on or off state of the unbounded
      (`forever`) or bounded blink. */
  function FirstHalf(forever: bool, beginOn: bool): StateId
  {
    if forever then (if beginOn then BlinkOn else BlinkOff) else (if beginOn then StopOn else StopOff)
  }

  /** An accepted `blink` enters the blink's first state, whose custom value
      says which half comes first. */
  lemma BlinkEnters(c: Config, total: Option<real>, cycle: Option<real>, n: Option<int>, percent: real,
                    beginOn: bool, endOff: bool, now: real)
    requires ConfigOk(c) && BlinkerShape(c.arena) && c.current.Some?
    requires PlanBlink(total, cycle, n, percent).Success?
    ensures var b := BlinkSpec(c, total, cycle, n, percent, beginOn, endOff, now).value;
      var first := if PlanBlink(total, cycle, n, percent).value.Forever? then BlinkBegin else StopBegin;
      && b.current == Some(first)
      && b.arena.states[first].custom == OnOff(beginOn)
  {
    var plan := PlanBlink(total, cycle, n, percent).value;
    var a := Configure(c.arena, plan, percent, beginOn, endOff);
    var first := if plan.Forever? then BlinkBegin else StopBegin;
    if plan.Forever? {
      ForeverConfigured(c.arena, plan.cycle, percent, beginOn);
    } else {
      BoundedConfigured(c.arena, plan.total, plan.cycle, percent, beginOn, endOff);
    }
    TransitKeepsCustoms(c.(arena := a), first, now);
  }

  /** After an accepted `blink`, the machine is in the blink's first state and
      the next poll, whenever it comes, moves to the on or off half as
      `beginOn` asks. */
  lemma BlinkStarts(c: Config, total: Option<real>, cycle: Option<real>, n: Option<int>, percent: real,
                    beginOn: bool, endOff: bool, now: real, later: real)
    requires ConfigOk(c) && BlinkerShape(c.arena) && c.current.Some?
    requires PlanBlink(total, cycle, n, percent).Success?
    ensures var b := BlinkSpec(c, total, cycle, n, percent, beginOn, endOff, now).value;
      var forever := PlanBlink(total, cycle, n, percent).value.Forever?;
      && b.current == Some(if forever then BlinkBegin else StopBegin)
      && AllRouted(b.arena)
      && TrackSpec(b, later).1.current == Some(FirstHalf(forever, beginOn))
  {
    var b := BlinkSpec(c, total, cycle, n, percent, beginOn, endOff, now).value;
    BlinkEnters(c, total, cycle, n, percent, beginOn, endOff, now);
    ValueChoice(b, later);
  }

  /** The bounded blink's last state leaves for the off state when the blink
      was asked to end off, and for the on state otherwise. */
  lemma BoundedEnds(c: Config, endOff: bool, now: real)
    requires ConfigOk(c) && BlinkerShape(c.arena) && c.current == Some(StopEnd)
    requires c.arena.states[StopEnd].custom == OnOff(!endOff)
    ensures AllRouted(c.arena)
    ensures TrackSpec(c, now).1.current == Some(if endOff then OffState else OnState)
  {
    ValueChoice(c, now);
  }

  /** A blinker: a finite state machine over the blinker's layout. The machine
      is held rather than inherited; its layout is the blinker's own. */
  class Blinker {
    const fsm: FiniteStateMachine

    ghost predicate Valid()
      reads this, fsm, fsm.layout
    {
      fsm.Valid() && fsm.current.Some? && BlinkerShape(fsm.layout.arena) && AllRouted(fsm.layout.arena)
    }

    /** `is_on`: the current state is one of the four on states. */
    predicate IsOn()
      reads this, fsm
      ensures IsOn() ==> fsm.current.Some? && fsm.current.value !in OffStates + Choosers
    {
      fsm.current.Some? && fsm.current.value in OnStates
    }

    /** `is_off`: the current state is one of the four off states. */
    predicate IsOff()
      reads this, fsm
      ensures IsOff() ==> fsm.current.Some? && fsm.current.value !in OnStates + Choosers
    {
      fsm.current.Some? && fsm.current.value in OffStates
    }

    /** Builds the layout from the two generators and resets the machine at
        `now`, which enters the off state. */
    constructor(off: Generator, on: Generator, now: real)
      ensures Valid() && fresh(fsm) && fresh(fsm.layout)
      ensures fsm.Model() == ResetSpec(Config(Built(off, on), None, Uninitialized, []), OffState, now)
      ensures IsOff() && !IsOn() && fsm.op == Idle
    {
      var layout := Build(off, on);
      fsm := new FiniteStateMachine(layout, false, now);
      new;
      ShapeEvolves(Built(off, on), fsm.layout.arena);
      ShapeRouted(fsm.layout.arena);
    }

    /** The shared body of `turn_on` and `turn_off`: with a duration, that
        duration on the timed state's condition, then the move to the timed
        state; without one, the move to the plain state. */
    method Switch(on: bool, duration: Option<real>, now: real)
      requires Valid()
      modifies fsm, fsm.layout
      ensures Valid()
      ensures fsm.Model() == Turn(old(fsm.Model()), on, duration, now)
    {
      ghost var c := fsm.Model();
      var timed := if on then OnDuration else OffDuration;
      if duration.Some? {
        Retime(HoldCond(timed), duration.value);
        assert fsm.Model() == c.(arena := WithDuration(c.arena, HoldCond(timed), duration.value));
        fsm.TransitTo(timed, now);
      } else {
        fsm.TransitTo(if on then OnState else OffState, now);
      }
      assert fsm.Model() == Turn(c, on, duration, now);
    }

    /** `turn_on`. */
    method TurnOn(duration: Option<real>, now: real)
      requires Valid()
      modifies fsm, fsm.layout
      ensures Valid() && IsOn() && !IsOff()
      ensures fsm.Model() == Turn(old(fsm.Model()), true, duration, now)
    {
      Switch(true, duration, now);
    }

    /** `turn_off`. */
    method TurnOff(duration: Option<real>, now: real)
      requires Valid()
      modifies fsm, fsm.layout
      ensures Valid() && IsOff() && !IsOn()
      ensures fsm.Model() == Turn(old(fsm.Model()), false, duration, now)
    {
      Switch(false, duration, now);
    }

    /** `blink`, then `__blink` or `__blink_stop`. */
    method Blink(total: Option<real>, cycle: Option<real>, n: Option<int>, percent: real,
                 beginOn: bool, endOff: bool, now: real) returns (r: Outcome<BlinkError>)
      requires Valid()
      modifies fsm, fsm.layout
      ensures Valid()
      ensures var spec := BlinkSpec(old(fsm.Model()), total, cycle, n, percent, beginOn, endOff, now);
        && (r.Fail? <==> spec.Failure?)
        && (r.Fail? ==> r.error == spec.error && fsm.Model() == old(fsm.Model()))
        && (r.Pass? ==> fsm.Model() == spec.value)
    {
      var plan := PlanBlink(total, cycle, n, percent);
      if plan.Failure? {
        return Fail(plan.error);
      }
      match plan.value {
        case Forever(cy) => BlinkForever(cy, percent, beginOn, now);
        case Bounded(t, cy) => BlinkBounded(t, cy, percent, beginOn, endOff, now);
      }
      r := Pass;
    }

    /** Setting the duration of one of the blinker's timed conditions. */
    method Retime(k: CondId, d: real)
      requires Valid() && k < 13 && InitialConditions[k].kind.EntryDuration?
      modifies fsm.layout
      ensures Valid() && fsm.layout.arena == WithDuration(old(fsm.layout.arena), k, d)
    {
      ghost var a := WithDuration(fsm.layout.arena, k, d);
      fsm.layout.SetDuration(k, d);
      assert fsm.layout.arena.conditions[k] == a.conditions[k];
      assert fsm.layout.arena == a;
      ShapeRouted(a);
    }

    /** Setting the custom value of one of the blinker's states to "on" or "off". */
    method Mark(s: StateId, on: bool)
      requires Valid() && s < 11
      modifies fsm.layout
      ensures Valid() && fsm.layout.arena == WithCustom(old(fsm.layout.arena), s, OnOff(on))
    {
      ghost var a := WithCustom(fsm.layout.arena, s, OnOff(on));
      fsm.layout.SetCustomValue(s, OnOff(on));
      assert fsm.layout.arena.states == a.states;
      ShapeRouted(a);
    }

    /** The endless blink's configuration, written in the original's order. */
    method ConfigureBlink(cycle: real, percent: real, beginOn: bool)
      requires Valid()
      modifies fsm.layout
      ensures Valid()
      ensures fsm.layout.arena == ConfigureForever(old(fsm.layout.arena), cycle, percent, beginOn)
    {
      var on := cycle * percent;
      Mark(BlinkBegin, beginOn);
      Retime(BlinkOnCond, on);
      Retime(BlinkOffCond, cycle - on);
    }

    /** `__blink`: the begin state's value, the on and off durations, then
        the move to the begin state. */
    method BlinkForever(cycle: real, percent: real, beginOn: bool, now: real)
      requires Valid()
      modifies fsm, fsm.layout
      ensures Valid()
      ensures var c := old(fsm.Model());
        fsm.Model() == TransitToSpec(c.(arena := ConfigureForever(c.arena, cycle, percent, beginOn)), BlinkBegin, now)
    {
      ghost var c := fsm.Model();
      ConfigureBlink(cycle, percent, beginOn);
      ghost var a := ConfigureForever(c.arena, cycle, percent, beginOn);
      assert fsm.Model() == c.(arena := a);
      fsm.TransitTo(BlinkBegin, now);
      ShapeEvolves(a, fsm.layout.arena);
      ShapeRouted(fsm.layout.arena);
    }

    /** The three durations of the bounded blink. */
    method RetimeStop(total: real, on: real, off: real)
      requires Valid()
      modifies fsm.layout
      ensures Valid()
      ensures fsm.layout.arena == WithDuration(WithDuration(WithDuration(old(fsm.layout.arena), StopCond, total), StopOnCond, on), StopOffCond, off)
    {
      Retime(StopCond, total);
      Retime(StopOnCond, on);
      Retime(StopOffCond, off);
    }

    /** The values of the bounded blink's first and last states. */
    method MarkStop(beginOn: bool, endOff: bool)
      requires Valid()
      modifies fsm.layout
      ensures Valid()
      ensures fsm.layout.arena == WithCustom(WithCustom(old(fsm.layout.arena), StopBegin, OnOff(beginOn)), StopEnd, OnOff(!endOff))
    {
      Mark(StopBegin, beginOn);
      Mark(StopEnd, !endOff);
    }

    /** The bounded blink's configuration, written in the original's order. */
    method ConfigureStop(total: real, cycle: real, percent: real, beginOn: bool, endOff: bool)
      requires Valid()
      modifies fsm.layout
      ensures Valid()
      ensures fsm.layout.arena == ConfigureBounded(old(fsm.layout.arena), total, cycle, percent, beginOn, endOff)
    {
      var on := cycle * percent;
      RetimeStop(total, on, cycle - on);
      MarkStop(beginOn, endOff);
    }

    /** `__blink_stop`: the total, on and off durations, the begin and end
        states' values, then the move to the begin state. */
    method BlinkBounded(total: real, cycle: real, percent: real, beginOn: bool, endOff: bool, now: real)
      requires Valid()
      modifies fsm, fsm.layout
      ensures Valid()
      ensures var c := old(fsm.Model());
        fsm.Model() == TransitToSpec(c.(arena := ConfigureBounded(c.arena, total, cycle, percent, beginOn, endOff)), StopBegin, now)
    {
      ghost var c := fsm.Model();
      ConfigureStop(total, cycle, percent, beginOn, endOff);
      ghost var a := ConfigureBounded(c.arena, total, cycle, percent, beginOn, endOff);
      assert fsm.Model() == c.(arena := a);
      fsm.TransitTo(StopBegin, now);
      ShapeEvolves(a, fsm.layout.arena);
      ShapeRouted(fsm.layout.arena);
    }

    /** One blinker's part in a `SideBlinkers` turn: turn it on, off, or leave it. */
    method TurnBy(turn: Option<bool>, duration: Option<real>, now: real)
      requires Valid()
      modifies fsm, fsm.layout
      ensures Valid()
      ensures turn.Some? ==> IsOn() == turn.value && IsOff() == !turn.value
      ensures fsm.Model() == TurnedBy(old(fsm.Model()), turn, duration, now)
    {
      if turn == Some(true) {
        TurnOn(duration, now);
      } else if turn == Some(false) {
        TurnOff(duration, now);
      }
    }

    /** One blinker's part in a `SideBlinkers` blink: blink it, with the
        arguments as given or reciprocal, or leave it. */
    method BlinkBy(flip: Option<bool>, total: Option<real>, cycle: Option<real>, n: Option<int>, percent: real,
                   beginOn: bool, endOff: bool, now: real) returns (r: Outcome<BlinkError>)
      requires Valid()
      modifies fsm, fsm.layout
      ensures Valid()
      ensures r.Fail? <==> flip.Some? && PlanBlink(total, cycle, n, percent).Failure?
      ensures r.Fail? ==> r.error == PlanBlink(total, cycle, n, percent).error
      ensures fsm.Model() == BlinkedBy(old(fsm.Model()), flip, total, cycle, n, percent, beginOn, endOff, now)
    {
      r := Pass;
      if flip.Some? {
        r := Blink(total, cycle, n, percent, beginOn != flip.value, endOff != flip.value, now);
      }
    }

    /** `track`, inherited from the machine. */
    method Track(now: real) returns (more: bool)
      requires Valid()
      modifies fsm, fsm.layout
      ensures Valid()
      ensures (more, fsm.Model()) == TrackSpec(old(fsm.Model()), now)
    {
      more := fsm.Track(now);
      ShapeEvolves(old(fsm.layout.arena), fsm.layout.arena);
    }
  }

  /** Which blinker or blinkers a `SideBlinkers` call addresses; the
      reciprocal sides drive the two blinkers in opposite phases. */
  datatype Side = Left | Right | Both | LeftReciprocal | RightReciprocal

  /** Whether a blinker shows what a turn asked of it: on for `Some(true)`,
      off for `Some(false)`, anything when left alone. */
  predicate Shows(turn: Option<bool>, on: bool, off: bool)
  {
    turn.None? || (if turn.value then on else off)
  }

  /** `SideBlinkers.is_on`, from each blinker's `is_on` and `is_off`: exactly
      when each blinker `turn_on` would act on shows what it would set. */
  function SideOn(side: Side, leftOn: bool, leftOff: bool, rightOn: bool, rightOff: bool): (r: bool)
    ensures r <==> Shows(LeftTurn(side, true), leftOn, leftOff) && Shows(RightTurn(side, true), rightOn, rightOff)
  {
    match side
    case Both => rightOn && leftOn
    case Left => leftOn
    case Right => rightOn
    case LeftReciprocal => leftOn && rightOff
    case RightReciprocal => rightOn && leftOff
  }

  /** `SideBlinkers.is_off`: exactly when each blinker `turn_off` would act
      on shows what it would set. */
  function SideOff(side: Side, leftOn: bool, leftOff: bool, rightOn: bool, rightOff: bool): (r: bool)
    ensures r <==> Shows(LeftTurn(side, false), leftOn, leftOff) && Shows(RightTurn(side, false), rightOn, rightOff)
  {
    match side
    case Both => rightOff && leftOff
    case Right => rightOff
    case Left => leftOff
    case LeftReciprocal => leftOff && rightOn
    case RightReciprocal => rightOff && leftOn
  }

  /** What `turn_on` (`on`) or `turn_off` does to the left blinker: turn it on
      (`Some(true)`), off (`Some(false)`), or leave it alone. */
  function LeftTurn(side: Side, on: bool): Option<bool>
  {
    match side
    case Left => Some(on)
    case Right => None
    case Both => Some(on)
    case LeftReciprocal => Some(on)
    case RightReciprocal => Some(!on)
  }

  /** What `turn_on` (`on`) or `turn_off` does to the right blinker. */
  function RightTurn(side: Side, on: bool): Option<bool>
  {
    match side
    case Left => None
    case Right => Some(on)
    case Both => Some(on)
    case LeftReciprocal => Some(!on)
    case RightReciprocal => Some(on)
  }

  /** Whether `blink` blinks the left blinker, and whether with the reciprocal
      arguments (`begin_on` and `end_off` negated). */
  function LeftBlink(side: Side): Option<bool>
  {
    match side
    case Left => Some(false)
    case Right => None
    case Both => Some(false)
    case LeftReciprocal => Some(false)
    case RightReciprocal => Some(true)
  }

  function RightBlink(side: Side): Option<bool>
  {
    match side
    case Left => None
    case Right => Some(false)
    case Both => Some(false)
    case LeftReciprocal => Some(true)
    case RightReciprocal => Some(false)
  }

  /** The turning table and the query table agree: whatever the side, once
      every blinker it turns is on or off as asked, the side reads as on after
      `turn_on` and as off after `turn_off`, whatever the blinkers it leaves
      alone are doing. */
  lemma TurnMeetsQuery(side: Side, on: bool, leftOn: bool, leftOff: bool, rightOn: bool, rightOff: bool)
    requires LeftTurn(side, on).Some? ==> leftOn == LeftTurn(side, on).value && leftOff == !leftOn
    requires RightTurn(side, on).Some? ==> rightOn == RightTurn(side, on).value && rightOff == !rightOn
    ensures SideOn(side, leftOn, leftOff, rightOn, rightOff) == on
    ensures SideOff(side, leftOn, leftOff, rightOn, rightOff) == !on
  {
  }

  /** A reciprocal side reads as off exactly when the other reciprocal side
      reads as on. */
  lemma ReciprocalDuality(leftOn: bool, leftOff: bool, rightOn: bool, rightOff: bool)
    ensures SideOff(LeftReciprocal, leftOn, leftOff, rightOn, rightOff) == SideOn(RightReciprocal, leftOn, leftOff, rightOn, rightOff)
    ensures SideOff(RightReciprocal, leftOn, leftOff, rightOn, rightOff) == SideOn(LeftReciprocal, leftOn, leftOff, rightOn, rightOff)
  {
  }

  /** A blinker after a turn, or untouched. */
  function TurnedBy(c: Config, turn: Option<bool>, d: Option<real>, now: real): Config
    requires ConfigOk(c) && BlinkerShape(c.arena) && c.current.Some?
  {
    if turn.Some? then Turn(c, turn.value, d, now) else c
  }

  /** A blinker after its part in a side blink: blinked plainly or
      reciprocally, or untouched when it takes no part or the arguments are
      refused. */
  function BlinkedBy(c: Config, flip: Option<bool>, total: Option<real>, cycle: Option<real>, n: Option<int>,
                     percent: real, beginOn: bool, endOff: bool, now: real): (r: Config)
    requires ConfigOk(c) && BlinkerShape(c.arena) && c.current.Some?
    ensures flip.None? || PlanBlink(total, cycle, n, percent).Failure? ==> r == c
  {
    if flip.None? then c
    else match BlinkSpec(c, total, cycle, n, percent, beginOn != flip.value, endOff != flip.value, now)
      case Success(blinked) => blinked
      case Failure(_) => c
  }

  /** Blinking two blinkers reciprocally starts them in opposite halves: one
      starts on exactly when the other starts off. */
  lemma ReciprocalHalves(forever: bool, beginOn: bool)
    ensures FirstHalf(forever, beginOn) in OnStates <==> FirstHalf(forever, !beginOn) in OffStates
    ensures FirstHalf(forever, beginOn) in OffStates <==> FirstHalf(forever, !beginOn) in OnStates
    ensures FirstHalf(forever, beginOn) in OnStates <==> beginOn
  {
  }

  /** Two distinct blinkers' parts in a `SideBlinkers` blink: the first
      one's, then the second one's unless the first was refused. */
  method BlinkInTurn(first: Blinker, second: Blinker, f: Option<bool>, g: Option<bool>,
                     total: Option<real>, cycle: Option<real>, n: Option<int>, percent: real,
                     beginOn: bool, endOff: bool, now: real) returns (r: Outcome<BlinkError>)
    requires first.Valid() && second.Valid() && first.fsm != second.fsm && first.fsm.layout != second.fsm.layout
    requires f.Some? || g.Some?
    modifies first.fsm, first.fsm.layout, second.fsm, second.fsm.layout
    ensures first.Valid() && second.Valid()
    ensures r.Fail? <==> PlanBlink(total, cycle, n, percent).Failure?
    ensures r.Fail? ==> r.error == PlanBlink(total, cycle, n, percent).error
    ensures first.fsm.Model() == BlinkedBy(old(first.fsm.Model()), f, total, cycle, n, percent, beginOn, endOff, now)
    ensures second.fsm.Model() == BlinkedBy(old(second.fsm.Model()), g, total, cycle, n, percent, beginOn, endOff, now)
  {
    r := first.BlinkBy(f, total, cycle, n, percent, beginOn, endOff, now);
    if r.Pass? {
      r := second.BlinkBy(g, total, cycle, n, percent, beginOn, endOff, now);
    }
  }

  /** Two blinkers driven together. */
  class SideBlinkers {
    const left: Blinker
    const right: Blinker

    ghost predicate Valid()
      reads this, left, right, left.fsm, right.fsm, left.fsm.layout, right.fsm.layout
    {
      left.Valid() && right.Valid() && left.fsm != right.fsm && left.fsm.layout != right.fsm.layout
    }

    predicate IsOn(side: Side)
      reads this, left, right, left.fsm, right.fsm
    {
      SideOn(side, left.IsOn(), left.IsOff(), right.IsOn(), right.IsOff())
    }

    predicate IsOff(side: Side)
      reads this, left, right, left.fsm, right.fsm
    {
      SideOff(side, left.IsOn(), left.IsOff(), right.IsOn(), right.IsOff())
    }

    /** Builds the left blinker, then the right one; both start off. */
    constructor(leftOff: Generator, leftOn: Generator, rightOff: Generator, rightOn: Generator, now: real)
      ensures Valid() && fresh(left.fsm) && fresh(left.fsm.layout) && fresh(right.fsm) && fresh(right.fsm.layout)
      ensures left.fsm.Model() == ResetSpec(Config(Built(leftOff, leftOn), None, Uninitialized, []), OffState, now)
      ensures right.fsm.Model() == ResetSpec(Config(Built(rightOff, rightOn), None, Uninitialized, []), OffState, now)
      ensures IsOff(Both) && !IsOn(Both)
    {
      left := new Blinker(leftOff, leftOn, now);
      right := new Blinker(rightOff, rightOn, now);
    }

    /** `turn_on`: the left blinker's part, then the right one's. */
    method TurnOn(side: Side, duration: Option<real>, now: real)
      requires Valid()
      modifies left.fsm, left.fsm.layout, right.fsm, right.fsm.layout
      ensures Valid() && IsOn(side) && !IsOff(side)
      ensures left.fsm.Model() == TurnedBy(old(left.fsm.Model()), LeftTurn(side, true), duration, now)
      ensures right.fsm.Model() == TurnedBy(old(right.fsm.Model()), RightTurn(side, true), duration, now)
    {
      left.TurnBy(LeftTurn(side, true), duration, now);
      right.TurnBy(RightTurn(side, true), duration, now);
      TurnMeetsQuery(side, true, left.IsOn(), left.IsOff(), right.IsOn(), right.IsOff());
    }

    /** `turn_off`: the left blinker's part, then the right one's. */
    method TurnOff(side: Side, duration: Option<real>, now: real)
      requires Valid()
      modifies left.fsm, left.fsm.layout, right.fsm, right.fsm.layout
      ensures Valid() && IsOff(side) && !IsOn(side)
      ensures left.fsm.Model() == TurnedBy(old(left.fsm.Model()), LeftTurn(side, false), duration, now)
      ensures right.fsm.Model() == TurnedBy(old(right.fsm.Model()), RightTurn(side, false), duration, now)
    {
      left.TurnBy(LeftTurn(side, false), duration, now);
      right.TurnBy(RightTurn(side, false), duration, now);
      TurnMeetsQuery(side, false, left.IsOn(), left.IsOff(), right.IsOn(), right.IsOff());
    }

    /** `blink`: the right blinker first for both sides and the right
        reciprocal side, the left one first otherwise. The first blinker's
        refusal stops the call before the second is touched, and both are
        refused alike, so a refused call changes nothing. */
    method Blink(side: Side, total: Option<real>, cycle: Option<real>, n: Option<int>, percent: real,
                 beginOn: bool, endOff: bool, now: real) returns (r: Outcome<BlinkError>)
      requires Valid()
      modifies left.fsm, left.fsm.layout, right.fsm, right.fsm.layout
      ensures Valid()
      ensures r.Fail? <==> PlanBlink(total, cycle, n, percent).Failure?
      ensures r.Fail? ==> r.error == PlanBlink(total, cycle, n, percent).error
      ensures left.fsm.Model() == BlinkedBy(old(left.fsm.Model()), LeftBlink(side), total, cycle, n, percent, beginOn, endOff, now)
      ensures right.fsm.Model() == BlinkedBy(old(right.fsm.Model()), RightBlink(side), total, cycle, n, percent, beginOn, endOff, now)
    {
      if side == Left || side == LeftReciprocal {
        r := BlinkInTurn(left, right, LeftBlink(side), RightBlink(side), total, cycle, n, percent, beginOn, endOff, now);
      } else {
        r := BlinkInTurn(right, left, RightBlink(side), LeftBlink(side), total, cycle, n, percent, beginOn, endOff, now);
      }
    }

    /** `track`: the left blinker's step, then the right one's. */
    method Track(now: real)
      requires Valid()
      modifies left.fsm, left.fsm.layout, right.fsm, right.fsm.layout
      ensures Valid()
      ensures left.fsm.Model() == TrackSpec(old(left.fsm.Model()), now).1
      ensures right.fsm.Model() == TrackSpec(old(right.fsm.Model()), now).1
    {
      var more := left.Track(now);
      more := right.Track(now);
    }
  }
}
