/** The driver: a finite state machine polling a layout. It keeps an
    operational state (its own lifecycle) and an applicative state (the current
    state of the layout), and records every hook it runs in a trace.
    `Config` is the machine's whole observable state as a value; the functions
    over it specify the methods of `FiniteStateMachine`. Every instant the
    original reads from the wall clock is an explicit argument here. */
module Machines {
  import opened Types
  import opened States
  import opened Conditions
  import opened Transitions
  import opened Arenas
  import opened Layouts

  datatype OperationalState = Uninitialized | Idle | Running | TerminalReached

  datatype Config = Config(arena: Arena, current: Option<StateId>, op: OperationalState, trace: seq<Event>)

  ghost predicate ConfigOk(c: Config)
  {
    ArenaOk(c.arena) && (c.current.Some? ==> c.current.value < |c.arena.states|)
  }

  /** Every transition of every state has a destination. */
  ghost predicate AllRouted(a: Arena)
    requires ArenaOk(a)
  {
    forall s :: 0 <= s < |a.states| ==> Routed(a, s)
  }

  /** What a step of the machine may change in the arena: monitoring fields,
      custom values and hook lists are untouched by it, but it never rewires. */
  ghost predicate Evolves(a: Arena, b: Arena)
  {
    b.transitions == a.transitions && b.conditions == a.conditions && SameWiring(a.states, b.states)
  }

  lemma EvolvesRouted(a: Arena, b: Arena)
    requires ArenaOk(a) && ArenaOk(b) && Evolves(a, b) && AllRouted(a)
    ensures AllRouted(b)
  {
    forall s | 0 <= s < |b.states| ensures Routed(b, s) {
      assert Routed(a, s);
    }
  }

  /** `FiniteStateMachine.reset`: idle, in the layout's initial state, whose
      entering sequence has run. */
  function ResetSpec(c: Config, initial: StateId, now: real): (r: Config)
    requires ConfigOk(c) && initial < |c.arena.states|
    ensures ConfigOk(r) && Evolves(c.arena, r.arena)
  {
    var e := Enter(c.arena, initial, now);
    Config(e.0, Some(initial), Idle, c.trace + e.1)
  }

  /** `FiniteStateMachine.transit_to`: leave the current state, make `s` current
      and enter it; no transition action, and `s` need not be a member. */
  function TransitToSpec(c: Config, s: StateId, now: real): (r: Config)
    requires ConfigOk(c) && c.current.Some? && s < |c.arena.states|
    ensures ConfigOk(r) && Evolves(c.arena, r.arena)
  {
    var x := Exit(c.arena, c.current.value, now);
    var e := Enter(x.0, s, now);
    Config(e.0, Some(s), c.op, c.trace + x.1 + e.1)
  }

  /** `FiniteStateMachine._transit_by`: leave the current state, run the
      transition's action (a no-op for every transition kind of the engine),
      make its destination current and enter it. */
  function TransitBySpec(c: Config, t: TransId, now: real): (r: Config)
    requires ConfigOk(c) && c.current.Some? && t < |c.arena.transitions| && c.arena.transitions[t].next.Some?
    ensures ConfigOk(r) && Evolves(c.arena, r.arena)
  {
    var x := Exit(c.arena, c.current.value, now);
    var s := c.arena.transitions[t].next.value;
    var e := Enter(x.0, s, now);
    Config(e.0, Some(s), c.op, c.trace + x.1 + e.1)
  }

  /** `FiniteStateMachine.track`: one step at instant `now`. */
  function TrackSpec(c: Config, now: real): (r: (bool, Config))
    requires ConfigOk(c) && c.current.Some? && AllRouted(c.arena)
    ensures ConfigOk(r.1) && Evolves(c.arena, r.1.arena) && r.1.current.Some?
  {
    var cur := c.current.value;
    if c.arena.states[cur].params.terminal then (false, c.(op := TerminalReached))
    else
      var ts := c.arena.states[cur].transitions;
      assert AllIn(ts, c.arena);
      var f := FirstFiring(c.arena, ts, now);
      CountsOnlyWiring(c.arena.states, f.1.states);
      var c1 := c.(arena := f.1);
      match f.0
      case Some(t) =>
        assert Routed(c.arena, cur);
        (true, TransitBySpec(c1, t, now))
      case None => (true, c1.(trace := c.trace + InStateEvents(cur, f.1.states[cur])))
  }

  /** `FiniteStateMachine.stop`: a running machine becomes idle; in any other
      operational state it is left alone. Nothing but the operational state
      changes. */
  function StopSpec(c: Config): (r: Config)
    ensures r.(op := c.op) == c
    ensures r.op != Running
    ensures c.op != Running ==> r == c
  {
    if c.op == Running then c.(op := Idle) else c
  }

  /** A machine the polling loop can step: well formed, in some state, with
      every transition routed. */
  ghost predicate Live(c: Config)
  {
    ConfigOk(c) && c.current.Some? && AllRouted(c.arena)
  }

  /** The polling loop of `FiniteStateMachine.run` from poll `i` on: poll `k`
      happens at `clock[k]`; the loop ends when a step reports a terminal
      state, or stops the machine when a step ends at or after the budget. */
  function RunLoop(c: Config, budget: Option<real>, start: real, clock: seq<real>, i: nat): (r: Config)
    requires Live(c)
    ensures ConfigOk(r) && r.current.Some?
    decreases |clock| - i
  {
    if i >= |clock| then c
    else
      var step := TrackSpec(c, clock[i]);
      EvolvesRouted(c.arena, step.1.arena);
      if !step.0 then step.1
      else if budget.Some? && clock[i] - start >= budget.value then StopSpec(step.1)
      else RunLoop(step.1, budget, start, clock, i + 1)
  }

  /** `FiniteStateMachine.run`: running, then (when asked) reset, which makes
      the machine idle again, then the polling loop, timed from `start`. */
  function RunSpec(c: Config, reset: bool, initial: Option<StateId>, budget: Option<real>, start: real, clock: seq<real>): (r: Config)
    requires ConfigOk(c) && AllRouted(c.arena)
    requires reset ==> initial.Some? && initial.value < |c.arena.states|
    requires !reset ==> c.current.Some?
    ensures ConfigOk(r) && r.current.Some?
  {
    var c0 := c.(op := Running);
    var c1 := if reset then ResetSpec(c0, initial.value, start) else c0;
    EvolvesRouted(c.arena, c1.arena);
    RunLoop(c1, budget, start, clock, 0)
  }

  /** `_transit_by` is `transit_to` towards the transition's destination: the
      transition adds no hook of its own. */
  lemma TransitByIsTransitTo(c: Config, t: TransId, now: real)
    requires ConfigOk(c) && c.current.Some? && t < |c.arena.transitions| && c.arena.transitions[t].next.Some?
    ensures c.arena.transitions[t].next.value < |c.arena.states|
    ensures TransitBySpec(c, t, now) == TransitToSpec(c, c.arena.transitions[t].next.value, now)
  {
  }

  /** Reset makes the initial state current and the machine idle, and runs
      exactly the initial state's entering hooks in order, then its in-state
      hooks in order when the state asks for them on entering, and nothing
      else; every hook sees the record as entered, and a monitored initial
      state counts one more entry, stamped `now`. No other record changes. */
  lemma ResetEntersOnce(c: Config, initial: StateId, now: real)
    requires ConfigOk(c) && initial < |c.arena.states|
    ensures var r := ResetSpec(c, initial, now);
      var st := c.arena.states[initial];
      var st' := r.arena.states[initial];
      var n := |c.trace|;
      && r.current == Some(initial) && r.op == Idle
      && r.trace == c.trace + EnteringEvents(initial, st')
      && st'.(monitor := st.monitor) == st
      && |r.trace| == n + |st.entering| + (if st.params.inStateWhenEntering then |st.inState| else 0)
      && (forall k :: 0 <= k < |st.entering| ==>
            r.trace[n + k] == Event(initial, Entering, st.entering[k], st'.monitor))
      && (forall k :: n + |st.entering| <= k < |r.trace| ==>
            r.trace[k] == Event(initial, InState, st.inState[k - n - |st.entering|], st'.monitor))
      && (st.kind == Monitored ==> st'.monitor == Monitor(st.monitor.entryCount + 1, now, st.monitor.lastExit))
      && (forall s :: 0 <= s < |c.arena.states| && s != initial ==> r.arena.states[s] == c.arena.states[s])
  {
    var st' := Entered(c.arena.states[initial], now);
    EnteringAppended(c.trace, initial, st');
    var r := ResetSpec(c, initial, now);
    assert r.arena.states == c.arena.states[initial := st'];
    assert r.trace == c.trace + EnteringEvents(initial, st');
  }

  /** The entering sequence of `st` appended to `t`, event by event. */
  lemma EnteringAppended(t: seq<Event>, id: StateId, st: StateRec)
    ensures var r := t + EnteringEvents(id, st);
      var n := |t|;
      && |r| == n + |st.entering| + (if st.params.inStateWhenEntering then |st.inState| else 0)
      && (forall k :: 0 <= k < |st.entering| ==> r[n + k] == Event(id, Entering, st.entering[k], st.monitor))
      && (forall k :: n + |st.entering| <= k < |r| ==> r[k] == Event(id, InState, st.inState[k - n - |st.entering|], st.monitor))
  {
    EnteringOrder(id, st);
  }

  /** On a terminal state a step reports false, marks the terminal state as
      reached and runs no hook; repeating it changes nothing more. */
  lemma TrackTerminal(c: Config, now: real, later: real)
    requires ConfigOk(c) && c.current.Some? && AllRouted(c.arena)
    requires c.arena.states[c.current.value].params.terminal
    ensures TrackSpec(c, now) == (false, c.(op := TerminalReached))
    ensures TrackSpec(TrackSpec(c, now).1, later) == TrackSpec(c, now)
  {
  }

  /** A step on a non-terminal state whose transition `t` fires first reports
      true, keeps the operational state and makes `t`'s destination current.
      It appends exactly the exiting sequence of the old state, as exited, and
      then the entering sequence of the new one, as entered; both records keep
      the hooks and parameters they had. The old state, when monitored, is
      stamped with exit time `now`; the new one, when monitored, counts one
      more entry than the guards left it, stamped `now`. Nothing else changes
      beyond what evaluating the guards wrote. */
  lemma TrackFiring(c: Config, now: real)
    requires ConfigOk(c) && c.current.Some? && AllRouted(c.arena)
    requires !c.arena.states[c.current.value].params.terminal
    requires AllIn(c.arena.states[c.current.value].transitions, c.arena)
    requires FirstFiring(c.arena, c.arena.states[c.current.value].transitions, now).0.Some?
    ensures var cur := c.current.value;
      var f := FirstFiring(c.arena, c.arena.states[cur].transitions, now);
      var t := f.0.value;
      var r := TrackSpec(c, now);
      && t in c.arena.states[cur].transitions
      && c.arena.transitions[t].next.Some?
      && var next := c.arena.transitions[t].next.value;
      var left := Exited(f.1.states[cur], now);
      var entered := r.1.arena.states[next];
      && r.0 && r.1.op == c.op && r.1.current == Some(next)
      && r.1.trace == c.trace + ExitingEvents(cur, left) + EnteringEvents(next, entered)
      && left.(monitor := c.arena.states[cur].monitor) == c.arena.states[cur]
      && entered.(monitor := c.arena.states[next].monitor) == c.arena.states[next]
      && (c.arena.states[cur].kind == Monitored ==> left.monitor.lastExit == now)
      && (c.arena.states[next].kind == Monitored ==>
            entered.monitor.entryCount == f.1.states[next].monitor.entryCount + 1 && entered.monitor.lastEntry == now)
      && (next != cur ==> r.1.arena.states[cur] == left)
      && (forall s :: 0 <= s < |c.arena.states| && s != cur && s != next ==> r.1.arena.states[s] == f.1.states[s])
  {
    var cur := c.current.value;
    var f := FirstFiring(c.arena, c.arena.states[cur].transitions, now);
    var t := f.0.value;
    assert Routed(c.arena, cur);
    CountsOnlyWiring(c.arena.states, f.1.states);
    var nxt := f.1.transitions[t].next.value;
    assert f.1.states[cur] == c.arena.states[cur].(monitor := f.1.states[cur].monitor);
    assert f.1.states[nxt] == c.arena.states[nxt].(monitor := f.1.states[nxt].monitor);
  }

  /** A step on a non-terminal state where no transition fires reports true,
      keeps the current and operational states, and runs exactly the current
      state's in-state hooks. */
  lemma TrackStays(c: Config, now: real)
    requires ConfigOk(c) && c.current.Some? && AllRouted(c.arena)
    requires !c.arena.states[c.current.value].params.terminal
    requires AllIn(c.arena.states[c.current.value].transitions, c.arena)
    requires FirstFiring(c.arena, c.arena.states[c.current.value].transitions, now).0.None?
    ensures var r := TrackSpec(c, now);
      var st := c.arena.states[c.current.value];
      var n := |c.trace|;
      && r.0 && r.1.op == c.op && r.1.current == c.current
      && |r.1.trace| == n + |st.inState| && r.1.trace[..n] == c.trace
      && forall k :: n <= k < |r.1.trace| ==>
           r.1.trace[k].state == c.current.value && r.1.trace[k].hook == InState && r.1.trace[k].action == st.inState[k - n]
  {
    var cur := c.current.value;
    var f := FirstFiring(c.arena, c.arena.states[cur].transitions, now);
    CountsOnlyWiring(c.arena.states, f.1.states);
    assert f.1.states[cur].inState == c.arena.states[cur].inState;
    FireAt(cur, InState, f.1.states[cur].inState, f.1.states[cur].monitor);
  }

  /** A traffic-light style hand-off: a non-terminal state whose only
      transition is guarded by its own entry duration `d` stays put while at
      most `d` has elapsed since its entry, and moves on once more has. */
  lemma DurationHandOff(c: Config, t: TransId, d: real, now: real)
    requires ConfigOk(c) && c.current.Some? && AllRouted(c.arena)
    requires var st := c.arena.states[c.current.value];
      && !st.params.terminal && st.kind == Monitored && st.transitions == [t]
    requires t < |c.arena.transitions| && c.arena.transitions[t].cond.Some?
    requires c.arena.conditions[c.arena.transitions[t].cond.value] == Condition(false, EntryDuration(d, c.current.value))
    ensures var st := c.arena.states[c.current.value];
      var r := TrackSpec(c, now);
      && r.0
      && (now <= st.monitor.lastEntry + d ==> r.1.current == c.current)
      && (st.monitor.lastEntry + d < now ==> r.1.current == c.arena.transitions[t].next)
  {
    var cur := c.current.value;
    var ts := c.arena.states[cur].transitions;
    assert Routed(c.arena, cur);
    assert ts[0] == t && ts[1..] == [];
    var cond := c.arena.conditions[c.arena.transitions[t].cond.value];
    EntryDurationStrict(d, cur, c.arena.states, now, now);
    assert Fires(c.arena, t, now) == Eval(cond, c.arena.states, now);
  }

  /** A step either reports false, having only marked a terminal current state
      as reached, or reports true and keeps the operational state; either way
      it only appends to the trace. */
  lemma TrackEffect(c: Config, now: real)
    requires ConfigOk(c) && c.current.Some? && AllRouted(c.arena)
    ensures var r := TrackSpec(c, now);
      && (!r.0 ==> r.1 == c.(op := TerminalReached) && c.arena.states[c.current.value].params.terminal)
      && (r.0 ==> r.1.op == c.op)
      && |c.trace| <= |r.1.trace| && r.1.trace[..|c.trace|] == c.trace
  {
    var cur := c.current.value;
    if !c.arena.states[cur].params.terminal {
      var f := FirstFiring(c.arena, c.arena.states[cur].transitions, now);
      if f.0.Some? {
        assert Routed(c.arena, cur);
      }
    }
  }

  /** The polling loop ends idle, running (only when the clock runs out) or
      with a terminal state reached, and in that case the current state is
      terminal; without a budget it stops only on a terminal state. */
  lemma {:induction false} RunLoopOutcome(c: Config, budget: Option<real>, start: real, clock: seq<real>, i: nat)
    requires ConfigOk(c) && c.current.Some? && AllRouted(c.arena)
    requires c.op == Running || c.op == Idle
    ensures var r := RunLoop(c, budget, start, clock, i);
      && (r.op == Idle || r.op == c.op || r.op == TerminalReached)
      && (r.op == TerminalReached ==> r.arena.states[r.current.value].params.terminal)
      && (budget.None? ==> r.op == c.op || r.op == TerminalReached)
    decreases |clock| - i
  {
    if i < |clock| {
      var step := TrackSpec(c, clock[i]);
      EvolvesRouted(c.arena, step.1.arena);
      TrackEffect(c, clock[i]);
      if step.0 && !(budget.Some? && clock[i] - start >= budget.value) {
        RunLoopOutcome(step.1, budget, start, clock, i + 1);
      }
    }
  }

  /** The polling loop only ever appends to the trace. */
  lemma {:induction false} RunLoopExtends(c: Config, budget: Option<real>, start: real, clock: seq<real>, i: nat)
    requires ConfigOk(c) && c.current.Some? && AllRouted(c.arena)
    ensures var r := RunLoop(c, budget, start, clock, i);
      |c.trace| <= |r.trace| && r.trace[..|c.trace|] == c.trace
    decreases |clock| - i
  {
    if i < |clock| {
      var step := TrackSpec(c, clock[i]);
      EvolvesRouted(c.arena, step.1.arena);
      TrackEffect(c, clock[i]);
      if !step.0 {
        assert RunLoop(c, budget, start, clock, i) == step.1;
      } else if budget.Some? && clock[i] - start >= budget.value {
        assert RunLoop(c, budget, start, clock, i) == StopSpec(step.1);
      } else {
        RunLoopExtends(step.1, budget, start, clock, i + 1);
        var r := RunLoop(step.1, budget, start, clock, i + 1);
        assert RunLoop(c, budget, start, clock, i) == r;
        assert r.trace[..|c.trace|] == r.trace[..|step.1.trace|][..|c.trace|];
      }
    }
  }

  /** The machine after one poll at `now`, whatever the step reported. */
  function AfterPoll(c: Config, now: real): (r: Config)
    requires Live(c)
    ensures Live(r)
  {
    var step := TrackSpec(c, now);
    EvolvesRouted(c.arena, step.1.arena);
    step.1
  }

  /** Polls `i` to `k - 1`, each one made whatever the previous step reported. */
  function Polled(c: Config, clock: seq<real>, i: nat, k: nat): (r: Config)
    requires Live(c) && i <= k <= |clock|
    ensures Live(r)
    decreases k - i
  {
    if i == k then c else AfterPoll(Polled(c, clock, i, k - 1), clock[k - 1])
  }

  /** Whether the polling loop goes on after polling `c` at instant `now`: the
      step reports true and the budget is not yet used up. */
  predicate GoesOn(c: Config, budget: Option<real>, start: real, now: real)
    requires Live(c)
  {
    TrackSpec(c, now).0 && !(budget.Some? && now - start >= budget.value)
  }

  /** Whether the loop goes on after each of the polls `i` to `k - 1`. */
  ghost predicate KeepsPolling(c: Config, budget: Option<real>, start: real, clock: seq<real>, i: nat, k: nat)
    requires Live(c) && i <= k <= |clock|
    decreases k - i
  {
    i == k || (GoesOn(c, budget, start, clock[i]) && KeepsPolling(AfterPoll(c, clock[i]), budget, start, clock, i + 1, k))
  }

  /** The loop does not end early: while every poll reports true before the
      budget is used up, it has made each of those polls in turn; when that
      holds up to the end of the clock, it ends still polling, every poll
      made. */
  lemma RunLoopPollsOn(c: Config, budget: Option<real>, start: real, clock: seq<real>, i: nat, k: nat)
    requires Live(c) && i <= k <= |clock|
    requires KeepsPolling(c, budget, start, clock, i, k)
    ensures RunLoop(c, budget, start, clock, i) == RunLoop(Polled(c, clock, i, k), budget, start, clock, k)
    ensures k == |clock| ==> RunLoop(c, budget, start, clock, i) == Polled(c, clock, i, k)
  {
    assert Polled(c, clock, i, i) == c;
    PollsOnFrom(c, budget, start, clock, i, i, k);
  }

  lemma {:induction false} PollsOnFrom(c: Config, budget: Option<real>, start: real, clock: seq<real>, i: nat, j: nat, k: nat)
    requires Live(c) && i <= j <= k <= |clock|
    requires KeepsPolling(Polled(c, clock, i, j), budget, start, clock, j, k)
    ensures RunLoop(Polled(c, clock, i, j), budget, start, clock, j) == RunLoop(Polled(c, clock, i, k), budget, start, clock, k)
    decreases k - j
  {
    if j < k {
      PollsOnStep(c, budget, start, clock, i, j, k);
      PollsOnFrom(c, budget, start, clock, i, j + 1, k);
    }
  }

  lemma PollsOnStep(c: Config, budget: Option<real>, start: real, clock: seq<real>, i: nat, j: nat, k: nat)
    requires Live(c) && i <= j < k <= |clock|
    requires KeepsPolling(Polled(c, clock, i, j), budget, start, clock, j, k)
    ensures KeepsPolling(Polled(c, clock, i, j + 1), budget, start, clock, j + 1, k)
    ensures RunLoop(Polled(c, clock, i, j), budget, start, clock, j) == RunLoop(Polled(c, clock, i, j + 1), budget, start, clock, j + 1)
  {
    var x := Polled(c, clock, i, j);
    assert Polled(c, clock, i, j + 1) == AfterPoll(x, clock[j]);
    assert RunLoop(x, budget, start, clock, j) == RunLoop(AfterPoll(x, clock[j]), budget, start, clock, j + 1);
  }

  /** The loop ends at the first poll after which it does not go on: as that
      step left the machine when it reported false (a terminal state), and
      stopped when it reported true at or past the budget. */
  lemma RunLoopEndsAt(c: Config, budget: Option<real>, start: real, clock: seq<real>, i: nat, k: nat)
    requires Live(c) && i <= k < |clock|
    requires KeepsPolling(c, budget, start, clock, i, k)
    requires !GoesOn(Polled(c, clock, i, k), budget, start, clock[k])
    ensures var step := TrackSpec(Polled(c, clock, i, k), clock[k]);
      && (!step.0 ==> RunLoop(c, budget, start, clock, i) == step.1)
      && (step.0 ==> budget.Some? && clock[k] - start >= budget.value
                     && RunLoop(c, budget, start, clock, i) == StopSpec(step.1))
  {
    RunLoopPollsOn(c, budget, start, clock, i, k);
  }

  /** Instants after the first poll at or past the budget are never polled:
      the loop over the whole clock is the loop over the clock cut just after
      that poll. */
  lemma {:induction false} RunLoopStopsAtBudget(c: Config, budget: Option<real>, start: real, clock: seq<real>, i: nat, k: nat)
    requires Live(c)
    requires budget.Some? && i <= k < |clock| && clock[k] - start >= budget.value
    ensures RunLoop(c, budget, start, clock, i) == RunLoop(c, budget, start, clock[..k + 1], i)
    decreases |clock| - i
  {
    var step := TrackSpec(c, clock[i]);
    EvolvesRouted(c.arena, step.1.arena);
    assert clock[..k + 1][i] == clock[i];
    if i < k {
      RunLoopStopsAtBudget(step.1, budget, start, clock, i + 1, k);
    }
  }

  /** `run` with a reset polls an idle machine (the reset overrides the
      running state just set), so it ends idle or with a terminal state
      reached; without a reset it may also end still running, when the clock
      runs out. */
  lemma RunEndsIdleOrTerminal(c: Config, reset: bool, initial: Option<StateId>, budget: Option<real>, start: real, clock: seq<real>)
    requires ConfigOk(c) && AllRouted(c.arena)
    requires reset ==> initial.Some? && initial.value < |c.arena.states|
    requires !reset ==> c.current.Some?
    ensures var r := RunSpec(c, reset, initial, budget, start, clock);
      && (reset ==> r.op == Idle || r.op == TerminalReached)
      && (r.op == Idle || r.op == Running || r.op == TerminalReached)
      && (r.op == TerminalReached ==> r.arena.states[r.current.value].params.terminal)
  {
    var c0 := c.(op := Running);
    var c1 := if reset then ResetSpec(c0, initial.value, start) else c0;
    EvolvesRouted(c.arena, c1.arena);
    RunLoopOutcome(c1, budget, start, clock, 0);
  }

  class FiniteStateMachine {
    const layout: Layout
    var current: Option<StateId>
    var op: OperationalState
    var trace: seq<Event>

    ghost predicate Valid()
      reads this, layout
    {
      layout.Valid() && (current.Some? ==> current.value < |layout.arena.states|)
    }

    /** The machine's observable state. */
    function Model(): Config
      reads this, layout
    {
      Config(layout.arena, current, op, trace)
    }

    /** A machine left uninitialized has no current state; otherwise the
        constructor resets it at `now`. */
    constructor(layout: Layout, uninitialized: bool, now: real)
      requires layout.Valid() && (!uninitialized ==> layout.initial.Some?)
      modifies layout
      ensures Valid() && this.layout == layout
      ensures uninitialized ==> Model() == Config(old(layout.arena), None, Uninitialized, [])
      ensures !uninitialized ==> Model() == ResetSpec(Config(old(layout.arena), None, Uninitialized, []), old(layout.initial).value, now)
      ensures layout.members == old(layout.members) && layout.initial == old(layout.initial)
    {
      this.layout := layout;
      current := None;
      op := Uninitialized;
      trace := [];
      new;
      if !uninitialized {
        Reset(now);
      }
    }

    /** `reset`: the layout's initial state must be set. */
    method Reset(now: real)
      requires Valid() && layout.initial.Some?
      modifies this, layout
      ensures Valid()
      ensures Model() == ResetSpec(old(Model()), old(layout.initial).value, now)
      ensures layout.members == old(layout.members) && layout.initial == old(layout.initial)
    {
      var s := layout.initial.value;
      op := Idle;
      current := Some(s);
      var events := layout.ExecEntering(s, now);
      trace := trace + events;
    }

    /** `_transit_by`. */
    method TransitBy(t: TransId, now: real)
      requires Valid() && current.Some? && t < |layout.arena.transitions| && layout.arena.transitions[t].next.Some?
      modifies this, layout
      ensures Valid()
      ensures Model() == TransitBySpec(old(Model()), t, now)
      ensures layout.members == old(layout.members) && layout.initial == old(layout.initial)
    {
      var left := layout.ExecExiting(current.value, now);
      var s := layout.arena.transitions[t].next.value;
      current := Some(s);
      var entered := layout.ExecEntering(s, now);
      trace := trace + left + entered;
    }

    /** `transit_to`. */
    method TransitTo(s: StateId, now: real)
      requires Valid() && current.Some? && s < |layout.arena.states|
      modifies this, layout
      ensures Valid()
      ensures Model() == TransitToSpec(old(Model()), s, now)
      ensures layout.members == old(layout.members) && layout.initial == old(layout.initial)
    {
      var left := layout.ExecExiting(current.value, now);
      current := Some(s);
      var entered := layout.ExecEntering(s, now);
      trace := trace + left + entered;
    }

    /** `track`. */
    method Track(now: real) returns (more: bool)
      requires Valid() && current.Some? && AllRouted(layout.arena)
      modifies this, layout
      ensures Valid() && AllRouted(layout.arena)
      ensures (more, Model()) == TrackSpec(old(Model()), now)
      ensures layout.members == old(layout.members) && layout.initial == old(layout.initial)
    {
      ghost var before := Model();
      var cur := current.value;
      if layout.arena.states[cur].params.terminal {
        op := TerminalReached;
        return false;
      }
      var t := layout.IsTransiting(cur, now);
      CountsOnlyWiring(before.arena.states, layout.arena.states);
      if t.Some? {
        assert Routed(before.arena, cur);
        TransitBy(t.value, now);
      } else {
        var events := layout.ExecInState(cur);
        trace := trace + events;
      }
      more := true;
      EvolvesRouted(before.arena, layout.arena);
    }

    /** `stop`: only a running machine becomes idle. */
    method Stop()
      modifies this
      ensures Model() == StopSpec(old(Model()))
      ensures op == (if old(op) == Running then Idle else old(op))
    {
      if op == Running {
        op := Idle;
      }
    }

    /** One iteration of the loop of `run`: a step at `clock[i]`, then the
        budget check; `done` when the loop ends here. */
    method Poll(budget: Option<real>, start: real, clock: seq<real>, i: nat) returns (done: bool)
      requires Valid() && current.Some? && AllRouted(layout.arena) && i < |clock|
      modifies this, layout
      ensures Valid() && current.Some? && AllRouted(layout.arena)
      ensures done ==> Model() == RunLoop(old(Model()), budget, start, clock, i)
      ensures !done ==> RunLoop(Model(), budget, start, clock, i + 1) == RunLoop(old(Model()), budget, start, clock, i)
      ensures layout.members == old(layout.members) && layout.initial == old(layout.initial)
    {
      var more := Track(clock[i]);
      if !more {
        return true;
      }
      if budget.Some? && clock[i] - start >= budget.value {
        Stop();
        return true;
      }
      done := false;
    }

    /** `run`: the reset and the start of the loop happen at `start`, poll `k`
        at `clock[k]`; the loop ends when the clock runs out. */
    method Run(reset: bool, budget: Option<real>, start: real, clock: seq<real>)
      requires Valid() && AllRouted(layout.arena)
      requires reset ==> layout.initial.Some?
      requires !reset ==> current.Some?
      modifies this, layout
      ensures Valid()
      ensures Model() == RunSpec(old(Model()), reset, old(layout.initial), budget, start, clock)
      ensures layout.members == old(layout.members) && layout.initial == old(layout.initial)
    {
      ghost var c := Model();
      op := Running;
      if reset {
        Reset(start);
      }
      EvolvesRouted(c.arena, layout.arena);
      ghost var target := RunLoop(Model(), budget, start, clock, 0);
      var i: nat := 0;
      while i < |clock|
        invariant i <= |clock| && Valid() && current.Some? && AllRouted(layout.arena)
        invariant target == RunLoop(Model(), budget, start, clock, i)
        invariant layout.members == old(layout.members) && layout.initial == old(layout.initial)
      {
        var done := Poll(budget, start, clock, i);
        if done {
          break;
        }
        i := i + 1;
      }
    }
  }
}
