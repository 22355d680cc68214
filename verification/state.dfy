/** State records of the engine (State, ActionState and MonitoredState) as values
    kept in a layout's arena, and the hook sequences that entering, staying in
    and leaving a state produce. The operations that update a record in place
    are methods of `Layouts.Layout`, addressed by `StateId`. */
module States {
  import opened Types

  /** Per-state configuration; every flag is false by default. */
  datatype Parameters = Parameters(terminal: bool, inStateWhenEntering: bool, inStateWhenExiting: bool)

  const DefaultParameters := Parameters(false, false, false)

  /** Plain states run no hooks; action states own three hook lists; monitored
      states additionally keep an entry counter and entry/exit timestamps. */
  datatype StateKind = Plain | Action | Monitored

  datatype Hook = Entering | InState | Exiting

  /** The monitoring fields of a state, as a hook running on it can read them. */
  datatype Monitor = Monitor(entryCount: nat, lastEntry: real, lastExit: real)

  const FreshMonitor := Monitor(0, 0.0, 0.0)

  /** One hook run: which state, which list, which callback, and the state's
      monitoring fields at the moment the callback ran. */
  datatype Event = Event(state: StateId, hook: Hook, action: Label, seen: Monitor)

  datatype StateRec = StateRec(
    kind: StateKind,
    params: Parameters,
    transitions: seq<TransId>,
    entering: seq<Label>,
    inState: seq<Label>,
    exiting: seq<Label>,
    monitor: Monitor,
    custom: Value)

  /** A freshly constructed state: no transitions, no hooks, count 0, both
      timestamps 0.0 and no custom value. */
  function NewStateRec(kind: StateKind, params: Parameters): (r: StateRec)
    ensures r.kind == kind && r.params == params
    ensures r.transitions == [] && r.entering == [] && r.inState == [] && r.exiting == []
    ensures r.monitor.entryCount == 0 && r.monitor.lastEntry == 0.0 && r.monitor.lastExit == 0.0
    ensures r.custom == NoValue
  {
    StateRec(kind, params, [], [], [], [], FreshMonitor, NoValue)
  }

  function HookList(st: StateRec, h: Hook): seq<Label>
  {
    match h
    case Entering => st.entering
    case InState => st.inState
    case Exiting => st.exiting
  }

  /** Running the callbacks of one hook list, in insertion order. */
  function Fire(id: StateId, h: Hook, labels: seq<Label>, seen: Monitor): seq<Event>
    decreases labels
  {
    if labels == [] then [] else [Event(id, h, labels[0], seen)] + Fire(id, h, labels[1..], seen)
  }

  lemma {:induction false} FireAt(id: StateId, h: Hook, labels: seq<Label>, seen: Monitor)
    ensures |Fire(id, h, labels, seen)| == |labels|
    ensures forall k :: 0 <= k < |labels| ==> Fire(id, h, labels, seen)[k] == Event(id, h, labels[k], seen)
    decreases labels
  {
    if labels != [] {
      FireAt(id, h, labels[1..], seen);
    }
  }

  lemma {:induction false} FireAppend(id: StateId, h: Hook, a: seq<Label>, b: seq<Label>, seen: Monitor)
    ensures Fire(id, h, a + b, seen) == Fire(id, h, a, seen) + Fire(id, h, b, seen)
    decreases a
  {
    if a == [] {
      assert a + b == b;
    } else {
      assert (a + b)[0] == a[0] && (a + b)[1..] == a[1..] + b;
      FireAppend(id, h, a[1..], b, seen);
    }
  }

  /** `_exec_entering_action`: the entering hooks, then the in-state hooks when
      the state asks for them on entering. */
  function EnteringEvents(id: StateId, st: StateRec): (r: seq<Event>)
    ensures |r| == |st.entering| + (if st.params.inStateWhenEntering then |st.inState| else 0)
  {
    FireAt(id, Entering, st.entering, st.monitor);
    FireAt(id, InState, st.inState, st.monitor);
    Fire(id, Entering, st.entering, st.monitor)
      + (if st.params.inStateWhenEntering then Fire(id, InState, st.inState, st.monitor) else [])
  }

  /** `_exec_in_state_action`. */
  function InStateEvents(id: StateId, st: StateRec): (r: seq<Event>)
    ensures |r| == |st.inState|
    ensures forall k :: 0 <= k < |r| ==> r[k] == Event(id, InState, st.inState[k], st.monitor)
  {
    FireAt(id, InState, st.inState, st.monitor);
    Fire(id, InState, st.inState, st.monitor)
  }

  /** `_exec_exiting_action`: the in-state hooks first when the state asks for
      them on exiting, then the exiting hooks. */
  function ExitingEvents(id: StateId, st: StateRec): (r: seq<Event>)
    ensures |r| == (if st.params.inStateWhenExiting then |st.inState| else 0) + |st.exiting|
  {
    FireAt(id, InState, st.inState, st.monitor);
    FireAt(id, Exiting, st.exiting, st.monitor);
    (if st.params.inStateWhenExiting then Fire(id, InState, st.inState, st.monitor) else [])
      + Fire(id, Exiting, st.exiting, st.monitor)
  }

  /** The record after entering at instant `now`: a monitored state stamps its
      entry time and counts the entry; other kinds are unchanged. */
  function Entered(st: StateRec, now: real): (r: StateRec)
    ensures r.(monitor := st.monitor) == st
    ensures st.kind == Monitored ==> r.monitor == Monitor(st.monitor.entryCount + 1, now, st.monitor.lastExit)
    ensures st.kind != Monitored ==> r == st
  {
    if st.kind == Monitored then st.(monitor := st.monitor.(entryCount := st.monitor.entryCount + 1, lastEntry := now))
    else st
  }

  /** The record after exiting at instant `now`: a monitored state stamps its
      exit time and leaves its count alone. */
  function Exited(st: StateRec, now: real): (r: StateRec)
    ensures r.(monitor := st.monitor) == st
    ensures st.kind == Monitored ==> r.monitor == Monitor(st.monitor.entryCount, st.monitor.lastEntry, now)
    ensures st.kind != Monitored ==> r == st
  {
    if st.kind == Monitored then st.(monitor := st.monitor.(lastExit := now)) else st
  }

  /** Entering runs every entering hook in order, then every in-state hook in
      order exactly when the state's parameters ask for it, and nothing else. */
  lemma EnteringOrder(id: StateId, st: StateRec)
    ensures var ev := EnteringEvents(id, st);
      && |ev| == |st.entering| + (if st.params.inStateWhenEntering then |st.inState| else 0)
      && (forall k :: 0 <= k < |st.entering| ==> ev[k] == Event(id, Entering, st.entering[k], st.monitor))
      && (forall k :: |st.entering| <= k < |ev| ==>
            ev[k] == Event(id, InState, st.inState[k - |st.entering|], st.monitor))
  {
    FireAt(id, Entering, st.entering, st.monitor);
    FireAt(id, InState, st.inState, st.monitor);
  }

  /** Exiting runs every in-state hook in order first, exactly when the state's
      parameters ask for it, then every exiting hook in order. */
  lemma ExitingOrder(id: StateId, st: StateRec)
    ensures var ev := ExitingEvents(id, st);
      var pre := if st.params.inStateWhenExiting then |st.inState| else 0;
      && |ev| == pre + |st.exiting|
      && (forall k :: 0 <= k < pre ==> ev[k] == Event(id, InState, st.inState[k], st.monitor))
      && (forall k :: pre <= k < |ev| ==> ev[k] == Event(id, Exiting, st.exiting[k - pre], st.monitor))
  {
    FireAt(id, Entering, st.entering, st.monitor);
    FireAt(id, InState, st.inState, st.monitor);
    FireAt(id, Exiting, st.exiting, st.monitor);
  }

  /** A monitored state counts the entry and stamps the entry time before any
      hook of its entering sequence runs: every one of those hooks sees the new
      count and the new timestamp. */
  lemma EnteredBeforeHooks(id: StateId, st: StateRec, now: real)
    requires st.kind == Monitored
    ensures forall e :: e in EnteringEvents(id, Entered(st, now)) ==>
      e.state == id && e.seen.entryCount == st.monitor.entryCount + 1 && e.seen.lastEntry == now
  {
    var st' := Entered(st, now);
    FireAt(id, Entering, st'.entering, st'.monitor);
    FireAt(id, InState, st'.inState, st'.monitor);
  }

  /** A monitored state stamps its exit time before any hook of its exiting
      sequence runs, and the count those hooks see is the unchanged one. */
  lemma ExitedBeforeHooks(id: StateId, st: StateRec, now: real)
    requires st.kind == Monitored
    ensures forall e :: e in ExitingEvents(id, Exited(st, now)) ==>
      e.state == id && e.seen.lastExit == now && e.seen.entryCount == st.monitor.entryCount
  {
    var st' := Exited(st, now);
    FireAt(id, InState, st'.inState, st'.monitor);
    FireAt(id, Exiting, st'.exiting, st'.monitor);
  }
}
