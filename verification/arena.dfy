/** The arena a layout owns: every state, transition and condition record,
    addressed by index, so that transitions refer to destination states and
    conditions by handle and a condition or transition can be shared by several
    holders. The functions here are the specification of the per-state
    operations of the engine: which transition fires, and what entering,
    staying in and leaving a state do. */
module Arenas {
  import opened Types
  import opened States
  import opened Conditions
  import opened Transitions

  datatype Arena = Arena(states: seq<StateRec>, transitions: seq<TransRec>, conditions: seq<Condition>)

  ghost predicate TransOk(t: TransRec, a: Arena)
  {
    (t.next.Some? ==> t.next.value < |a.states|) && (t.cond.Some? ==> t.cond.value < |a.conditions|)
  }

  /** Every handle in the arena designates a record of the right kind. */
  ghost predicate ArenaOk(a: Arena)
  {
    && (forall s, k :: 0 <= s < |a.states| && 0 <= k < |a.states[s].transitions| ==>
          a.states[s].transitions[k] < |a.transitions|)
    && (forall t :: 0 <= t < |a.transitions| ==> TransOk(a.transitions[t], a))
    && (forall c :: 0 <= c < |a.conditions| ==> RefsOk(a.conditions[c], a.states))
  }

  /** `b` keeps the number, kinds, parameters and transition lists of the
      records of `a`. */
  ghost predicate SameWiring(a: seq<StateRec>, b: seq<StateRec>)
  {
    |a| == |b| &&
    forall i :: 0 <= i < |a| ==>
      b[i].kind == a[i].kind && b[i].params == a[i].params && b[i].transitions == a[i].transitions
  }

  lemma RewiredOk(a: Arena, states: seq<StateRec>)
    requires ArenaOk(a) && SameWiring(a.states, states)
    ensures ArenaOk(a.(states := states))
  {
    forall c | 0 <= c < |a.conditions| ensures RefsOk(a.conditions[c], states) {
      RefsOkKept(a.conditions[c], a.states, states);
    }
  }

  /** Replacing the state records keeps the arena well formed when the kinds
      of existing states are kept and every transition handle resolves. */
  lemma ReplaceStatesOk(a: Arena, states: seq<StateRec>)
    requires ArenaOk(a) && KindsKept(a.states, states)
    requires forall s, k :: 0 <= s < |states| && 0 <= k < |states[s].transitions| ==>
      states[s].transitions[k] < |a.transitions|
    ensures ArenaOk(a.(states := states))
  {
    forall c | 0 <= c < |a.conditions| ensures RefsOk(a.conditions[c], states) {
      RefsOkKept(a.conditions[c], a.states, states);
    }
  }

  lemma CountsOnlyWiring(a: seq<StateRec>, b: seq<StateRec>)
    requires CountsOnly(a, b)
    ensures SameWiring(a, b)
  {
    forall i | 0 <= i < |a| ensures b[i].kind == a[i].kind && b[i].params == a[i].params && b[i].transitions == a[i].transitions {
      assert b[i] == a[i].(monitor := a[i].monitor.(entryCount := b[i].monitor.entryCount));
    }
  }

  ghost predicate AllIn(ts: seq<TransId>, a: Arena)
  {
    forall k :: 0 <= k < |ts| ==> ts[k] < |a.transitions|
  }

  /** Whether a transition fires: its condition evaluates true; without a
      condition it never fires. */
  function Fires(a: Arena, t: TransId, now: real): (r: (bool, seq<StateRec>))
    requires ArenaOk(a) && t < |a.transitions|
    ensures CountsOnly(a.states, r.1)
  {
    match a.transitions[t].cond
    case None => (false, a.states)
    case Some(c) => Eval(a.conditions[c], a.states, now)
  }

  /** `State.is_transiting`: the first transition of `ts`, in order, that fires,
      and the records as the evaluations left them. */
  function FirstFiring(a: Arena, ts: seq<TransId>, now: real): (r: (Option<TransId>, Arena))
    requires ArenaOk(a) && AllIn(ts, a)
    ensures ArenaOk(r.1) && r.1.transitions == a.transitions && r.1.conditions == a.conditions
    ensures CountsOnly(a.states, r.1.states)
    ensures r.0.Some? ==> r.0.value in ts
    decreases ts
  {
    if ts == [] then (None, a)
    else
      var f := Fires(a, ts[0], now);
      var a1 := a.(states := f.1);
      RewiredOk(a, f.1);
      if f.0 then (Some(ts[0]), a1)
      else
        var r := FirstFiring(a1, ts[1..], now);
        (r.0, r.1)
  }

  /** `_exec_entering_action` on state `s` at `now`: the updated arena and the hooks run. */
  function Enter(a: Arena, s: StateId, now: real): (r: (Arena, seq<Event>))
    requires ArenaOk(a) && s < |a.states|
    ensures ArenaOk(r.0) && SameWiring(a.states, r.0.states)
    ensures r.0.transitions == a.transitions && r.0.conditions == a.conditions
  {
    var st := Entered(a.states[s], now);
    RewiredOk(a, a.states[s := st]);
    (a.(states := a.states[s := st]), EnteringEvents(s, st))
  }

  /** `_exec_exiting_action` on state `s` at `now`. */
  function Exit(a: Arena, s: StateId, now: real): (r: (Arena, seq<Event>))
    requires ArenaOk(a) && s < |a.states|
    ensures ArenaOk(r.0) && SameWiring(a.states, r.0.states)
    ensures r.0.transitions == a.transitions && r.0.conditions == a.conditions
  {
    var st := Exited(a.states[s], now);
    RewiredOk(a, a.states[s := st]);
    (a.(states := a.states[s := st]), ExitingEvents(s, st))
  }

  /** Conditions that never write the state records. */
  ghost predicate PureGuards(a: Arena, ts: seq<TransId>)
    requires ArenaOk(a) && AllIn(ts, a)
  {
    forall k :: 0 <= k < |ts| && a.transitions[ts[k]].cond.Some? ==>
      NoAutoReset(a.conditions[a.transitions[ts[k]].cond.value])
  }

  /** Once a transition fires, the ones after it are not evaluated: appending
      transitions after it changes neither the choice nor the records. */
  lemma {:induction false} FirstFiringIgnoresLater(a: Arena, ts: seq<TransId>, rest: seq<TransId>, now: real)
    requires ArenaOk(a) && AllIn(ts, a) && AllIn(rest, a)
    requires FirstFiring(a, ts, now).0.Some?
    ensures AllIn(ts + rest, a)
    ensures FirstFiring(a, ts + rest, now) == FirstFiring(a, ts, now)
    decreases ts
  {
    assert AllIn(ts + rest, a) by {
      forall k | 0 <= k < |ts + rest| ensures (ts + rest)[k] < |a.transitions| {
        if k < |ts| { assert (ts + rest)[k] == ts[k]; } else { assert (ts + rest)[k] == rest[k - |ts|]; }
      }
    }
    assert (ts + rest)[0] == ts[0];
    var f := Fires(a, ts[0], now);
    if !f.0 {
      RewiredOk(a, f.1);
      assert (ts + rest)[1..] == ts[1..] + rest;
      FirstFiringIgnoresLater(a.(states := f.1), ts[1..], rest, now);
    }
  }

  /** With conditions that never write the records, the choice is exactly the
      first transition in order whose condition holds, or none when none holds,
      and the records are unchanged. */
  lemma {:induction false} FirstFiringPure(a: Arena, ts: seq<TransId>, now: real)
    requires ArenaOk(a) && AllIn(ts, a) && PureGuards(a, ts)
    ensures FirstFiring(a, ts, now).1 == a
    ensures FirstFiring(a, ts, now).0.None? <==> forall k :: 0 <= k < |ts| ==> !Fires(a, ts[k], now).0
    ensures FirstFiring(a, ts, now).0.Some? ==>
      exists k :: 0 <= k < |ts| && ts[k] == FirstFiring(a, ts, now).0.value && Fires(a, ts[k], now).0
        && forall j :: 0 <= j < k ==> !Fires(a, ts[j], now).0
    decreases ts
  {
    if ts != [] {
      var c := a.transitions[ts[0]].cond;
      if c.Some? {
        NoAutoResetKeeps(a.conditions[c.value], a.states, now);
      }
      var f := Fires(a, ts[0], now);
      assert f.1 == a.states;
      assert a.(states := f.1) == a;
      if !f.0 {
        assert AllIn(ts[1..], a);
        FirstFiringPure(a, ts[1..], now);
        var r := FirstFiring(a, ts[1..], now);
        assert FirstFiring(a, ts, now) == r;
        if r.0.None? {
          forall k | 0 <= k < |ts| ensures !Fires(a, ts[k], now).0 {
            if k > 0 { assert ts[k] == ts[1..][k - 1]; }
          }
        } else {
          var k :| 0 <= k < |ts[1..]| && ts[1..][k] == r.0.value && Fires(a, ts[1..][k], now).0
            && forall j :: 0 <= j < k ==> !Fires(a, ts[1..][j], now).0;
          assert ts[k + 1] == r.0.value;
          forall j | 0 <= j < k + 1 ensures !Fires(a, ts[j], now).0 {
            if j > 0 { assert ts[j] == ts[1..][j - 1]; }
          }
        }
      }
    }
  }
}
