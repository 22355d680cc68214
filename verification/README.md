# StateMachine_NYRF in Dafny

A model of the polling finite-state-machine engine of StateMachine_NYRF and of
the blinker built on it.

The engine is made of four parts:

- **Conditions.** These are boolean predicates with an `inverse` flag. They
  can be always true, an equality of two captured values, a timer, or a test
  on a monitored state's entry duration, entry count or custom value. They
  can also combine children with All, Any and None.
- **States.** A state holds an ordered list of transitions and three hook
  lists (entering, in-state and exiting). A monitored state also keeps an
  entry counter and entry and exit timestamps.
- **Transitions.** A transition has a destination and a condition.
- **Layout.** The layout is the set of member states plus an initial state.

A `FiniteStateMachine` polls a layout. Each `track` call is one step:

- On a terminal state, the step stops.
- Otherwise, the first transition whose condition holds fires. The step then
  leaves the current state, makes the destination current, and enters it.
- When nothing fires, the step runs the current state's in-state hooks.

`run` repeats the step until a terminal state is reached or a time budget is
spent. `stop` returns a running machine to idle.

A `Blinker` is a machine over a fixed graph of eleven monitored states. This
graph is the on and off states, their timed variants, an endless blink, and a
bounded blink. `turn_on`, `turn_off` and `blink` rewrite condition durations
and state custom values, then jump to the right state. `SideBlinkers` drives a
left and a right blinker, separately, together, or in opposite phases.

How the model is laid out:

- States, transitions and conditions are value records held in an *arena*
  (`Arenas.Arena`). A handle is an index into the arena. The `Layouts.Layout`
  class owns the arena, the member set and the initial state. Every
  operation the source performs on a record in place is a `Layout` method
  that addresses the record by its handle.
- A hook is a label. Running a hook appends an `Event` to the machine's
  trace. The event records the state, the hook list, the label, and the
  monitoring fields the hook could see.
- Each instant the source reads from the wall clock is an explicit `now`
  argument. `run` instead takes a sequence of poll instants.
- Evaluating a condition returns the updated state records along with the
  value. A count condition with auto-reset writes to the entry counter.
- Each class method is proved against a specification function over a value
  of the whole observable state (`Machines.Config`). The lemmas state the
  properties of those functions.

Files:

| file | module | contents |
|---|---|---|
| `types.dfy` | `Types` | handles, `Option`, `Result`, `Outcome`, values |
| `state.dfy` | `States` | state records, hook order |
| `condition.dfy` | `Conditions` | condition variants and their evaluation |
| `transition.dfy` | `Transitions` | transition records and validity |
| `arena.dfy` | `Arenas` | the arena, first-firing selection, entering and exiting |
| `layout.dfy` | `Layouts` | the `Layout` class and every in-place update |
| `finite_state_machine.dfy` | `Machines` | the driver, as specification functions and the `FiniteStateMachine` class |
| `blinker.dfy` | `Blinkers` | `Blinker`, `Side`, `SideBlinkers` |

## Model

| member | source | states |
|---|---|---|
| `States.NewStateRec` | lib/state.py:262-276 | A fresh state has no transitions and no hooks. Its entry count is 0, both timestamps are 0.0, and it has no custom value. |
| `States.FireAt` | lib/state.py:184-206 | Running a hook list gives exactly one event per callback, in insertion order. |
| `States.Entered` | lib/state.py:316-324 | Entering a monitored state sets its last entry time to `now` and adds one to its count. Nothing else changes. A non-monitored state does not change. |
| `States.Exited` | lib/state.py:326-333 | Exiting a monitored state sets its last exit time to `now`. The count and the entry time stay as they were. |
| `States.EnteringOrder` | lib/state.py:106-114 | Entering runs every entering hook in order. Then it runs every in-state hook in order, exactly when `do_in_state_action_when_entering` is set. Nothing else runs. |
| `States.ExitingOrder` | lib/state.py:123-131 | Exiting first runs every in-state hook in order, exactly when `do_in_state_action_when_exiting` is set. Then it runs every exiting hook in order. |
| `States.EnteringEvents` | lib/state.py:106-114 | The entering sequence has one event per entering hook, plus one per in-state hook exactly when `do_in_state_action_when_entering` is set. `States.EnteringOrder` gives the events one by one. |
| `States.InStateEvents` | lib/state.py:116-121 | The in-state sequence is exactly one event per in-state hook, in insertion order. |
| `States.ExitingEvents` | lib/state.py:123-131 | The exiting sequence has one event per in-state hook exactly when `do_in_state_action_when_exiting` is set, plus one per exiting hook. `States.ExitingOrder` gives the events one by one. |
| `States.EnteredBeforeHooks` | lib/state.py:316-324 | Every entering hook of a monitored state already sees the incremented count and the new entry time. |
| `States.ExitedBeforeHooks` | lib/state.py:326-333 | Every exiting hook of a monitored state already sees the new exit time and the unchanged count. |
| `Conditions.Eval` | condition.py:35-42 | Evaluating any condition changes no state record except, at most, entry counters. |
| `Conditions.Compare` | condition.py:334-344 | Of all the comparisons, only the count comparison writes, and it writes only an entry counter. |
| `Conditions.Scan` | condition.py:469-501 | Scanning the children of a composite changes nothing except entry counters. |
| `Conditions.WithChildren` | condition.py:419-432 | Adding children appends them at the end. The inverse flag, the operator and the existing children are kept. |
| `Conditions.InverseNegates` | condition.py:35-42 | Flipping `inverse` negates the value. It leaves the effect on the state records unchanged. |
| `Conditions.AlwaysTrueValue` | condition.py:69-76 | The always-true condition is true. It is false when inverted, and it writes nothing. |
| `Conditions.ValueConditionFixed` | condition.py:90-111 | A value condition is true iff its two captured values are equal (XOR `inverse`). It gives the same answer in every state and at every instant. |
| `Conditions.TimedWindow` | condition.py:169-176 | A timer is true iff `now - reference < duration`, with strict inequality. It writes nothing. |
| `Conditions.EntryDurationStrict` | condition.py:291-299 | An entry-duration condition is true iff `duration < now - last_entry`. It is false when exactly `duration` has elapsed. Once true, it stays true as time advances. |
| `Conditions.EntryCountEffect` | condition.py:334-348 | A count condition is true iff `expected <= entry_count`. When it is true with auto-reset, it zeroes that state's count and changes nothing else. Otherwise it changes nothing. |
| `Conditions.EntryCountFiresOnce` | condition.py:312-348 | An auto-resetting count condition with a positive expected count succeeds once. It is then false until the state is entered again. |
| `Conditions.StateValueRereads` | condition.py:389-396 | A state-value condition compares against the state's current custom value, re-read at each evaluation. After the value is changed, the new value decides. |
| `Conditions.ScanIgnoresLater` | condition.py:469-501 | Children after the first deciding child are never evaluated. Appending children changes neither the result nor the records. |
| `Conditions.NoAutoResetKeeps` | condition.py:340-344 | A condition with no auto-resetting count inside it writes nothing. |
| `Conditions.ScanKeeps` | condition.py:494-501 | Without auto-resetting counts, a scan finds a deciding child iff one exists, and it writes nothing. |
| `Conditions.ManyMeaning` | condition.py:454-526 | All means every child holds, Any means some child holds, and None means no child holds. With no children they give true, false and true. |
| `Transitions.FreshTransition` | Partie1/transition.py:76-81 | A new transition stores exactly the destination and condition it was given. A monitored one starts with count 0 and time 0. |
| `Transitions.IsValid` | Partie1/transition.py:48-49 | A valid transition has a destination. A transition without a condition is never valid. |
| `Arenas.Fires` | lib/state.py:89-91 | A transition without a condition never fires. Otherwise it fires when its condition holds. Evaluation writes only counters. |
| `Arenas.FirstFiring` | lib/state.py:82-91 | The transition chosen is one of the state's own. Selection never changes transitions or conditions, and it changes states only in their counters. |
| `Arenas.Enter` | lib/state.py:106-114 | Entering never rewires. Kinds, parameters, transition lists, transitions and conditions are kept. |
| `Arenas.Exit` | lib/state.py:123-131 | Exiting never rewires. |
| `Arenas.FirstFiringIgnoresLater` | lib/state.py:89-91 | Once a transition fires, the ones after it are not evaluated. Appending transitions changes neither the choice nor the records. |
| `Arenas.FirstFiringPure` | lib/state.py:82-91 | With conditions that do not write, the choice is the first transition in insertion order whose condition holds. It is none iff no condition holds. The records are unchanged. |
| `Layouts.ValidMemberRouted` | Partie1/layout.py:18-30 | In a valid layout, every member state has at least one transition, and each of them has a destination and a condition. |
| `Layouts.StateValid` | lib/state.py:64-72 | A state without transitions is never valid. In a valid state every transition exists and has a destination. |
| `Layouts.LayoutValid` | Partie1/layout.py:18-30 | A layout without an initial state is never valid. In a valid layout every member exists and has at least one transition. |
| `Layouts.StateValidAsWritten` | lib/state.py:64-72 | The written state check keeps only the emptiness test, so it accepts every state the intended check accepts. |
| `Layouts.LayoutValidAsWritten` | Partie1/layout.py:18-30 | The written layout check keeps only the initial-state test, so it accepts every layout the intended check accepts. |
| `Layouts.NoTransitionsInvalid` | lib/state.py:69-70 | A state without transitions is never valid. |
| `Layouts.NoInitialInvalid` | Partie1/layout.py:27-28 | A layout without an initial state is never valid. |
| `Layouts.WrittenChecksWeaker` | lib/state.py:64-72 | The validity checks as written accept everything the intended checks accept. |
| `Layouts.StateCheckAdmitsDeadEnd` | lib/state.py:72 | A state whose only transition has neither a destination nor a condition passes the written check. It fails the intended check. |
| `Layouts.LayoutCheckAdmitsStuckState` | Partie1/layout.py:30 | A layout whose only member has no transition passes the written check. It fails the intended check. |
| `Layouts.Layout.constructor` | Partie1/layout.py:9-16 | A new layout has no states and no initial state. |
| `Layouts.Layout.NewState` | lib/state.py:48-62 | A constructed state gets the next free handle. Everything already there is kept. |
| `Layouts.Layout.NewTransition` | Partie1/transition.py:44-46 | A constructed transition gets the next free handle and holds its destination and condition. |
| `Layouts.Layout.NewCondition` | condition.py:19-33 | A constructed condition gets the next free handle. |
| `Layouts.Layout.AddTransition` | lib/state.py:93-104 | `add_transition` appends at the end of that state's list. There is no de-duplication, and every other record is kept. |
| `Layouts.Layout.AddAction` | lib/state.py:208-245 | Each `add_*_action` appends to its own list only. The other two lists and every other record are kept. |
| `Layouts.Layout.ResetEntryCount` | lib/state.py:302-307 | Only the entry count becomes 0. |
| `Layouts.Layout.ResetLastTimes` | lib/state.py:309-314 | Only the two timestamps become 0.0. |
| `Layouts.Layout.SetCustomValue` | lib/state.py:276 | Only that state's custom value changes. |
| `Layouts.Layout.SetNextState` | Partie1/transition.py:19-28 | The getter then returns the stored destination. Nothing else changes. |
| `Layouts.Layout.SetCondition` | Partie1/transition.py:51-57 | The getter then returns the stored condition. Nothing else changes. |
| `Layouts.Layout.ResetTransitCount` | Partie1/transition.py:91-92 | Only the transit count becomes 0. |
| `Layouts.Layout.ResetLastTransitTime` | Partie1/transition.py:94-95 | Only the last transit time becomes 0. |
| `Layouts.Layout.SetDuration` | condition.py:159-167 | Only that condition's duration changes. |
| `Layouts.Layout.ResetTimer` | condition.py:178-182 | `reset` sets the reference to `now` and changes nothing else. |
| `Layouts.Layout.SetExpectedValue` | condition.py:379-387 | Only the expected value changes. |
| `Layouts.Layout.SetMonitoredState` | condition.py:222-237 | Only the monitored state changes, and the new one is a monitored state. |
| `Layouts.Layout.AddCondition` | condition.py:419-432 | The child goes at the end of the composite's list. |
| `Layouts.Layout.AddConditions` | condition.py:434-451 | The children go at the end, in order. The loop is proved against appending the whole list. |
| `Layouts.Layout.AddState` | Partie1/layout.py:32-46 | Set insertion. Adding a present state changes nothing. |
| `Layouts.Layout.AddStates` | Partie1/layout.py:48-63 | Set union. |
| `Layouts.Layout.SetInitialState` | Partie1/layout.py:77-92 | A member becomes the initial state. A non-member is refused, and the initial state stays as it was. |
| `Layouts.Layout.DoHooks` | lib/state.py:184-206 | The loop runs every callback of the list in insertion order. |
| `Layouts.Layout.ExecInState` | lib/state.py:116-121 | It runs exactly the in-state hooks. |
| `Layouts.Layout.ExecEntering` | lib/state.py:316-324 | It stamps and counts the entry, then runs the entering sequence, as `Arenas.Enter` says. |
| `Layouts.Layout.ExecExiting` | lib/state.py:326-333 | It stamps the exit, then runs the exiting sequence, as `Arenas.Exit` says. |
| `Layouts.Layout.IsTransiting` | lib/state.py:82-91 | The loop returns the first firing transition, as `Arenas.FirstFiring` says, and stops there. |
| `Machines.ResetSpec` | finite_state_machine.py:62-68 | Reset leaves a well-formed machine and never rewires. |
| `Machines.TransitToSpec` | finite_state_machine.py:85-97 | `transit_to` leaves a well-formed machine and never rewires. |
| `Machines.TransitBySpec` | finite_state_machine.py:70-83 | `_transit_by` leaves a well-formed machine and never rewires. |
| `Machines.StopSpec` | finite_state_machine.py:148-153 | `stop` changes only the operational state. Afterwards the machine is not RUNNING, and a machine that was not RUNNING is left as it was. |
| `Machines.TrackSpec` | finite_state_machine.py:99-117 | A step always leaves a current state and never rewires. |
| `Machines.RunLoop` | finite_state_machine.py:139-146 | The polling loop always leaves a current state. Its budget exit is stated by `Machines.RunLoopPollsOn`, `Machines.RunLoopEndsAt` and `Machines.RunLoopStopsAtBudget`. |
| `Machines.RunSpec` | finite_state_machine.py:119-146 | `run` always leaves a current state. |
| `Machines.TransitByIsTransitTo` | finite_state_machine.py:70-97 | `_transit_by(t)` is `transit_to(t.next_state)`. The transition adds no hook of its own. |
| `Machines.ResetEntersOnce` | finite_state_machine.py:62-68 | Reset makes the machine idle and makes the initial state current. The trace gains exactly that state's entering hooks in order, then its in-state hooks in order when `do_in_state_action_when_entering` is set, and nothing else. Every event sees the entered record. A monitored initial state counts one more entry, stamped `now`. No other state record changes. |
| `Machines.TrackTerminal` | finite_state_machine.py:107-109 | On a terminal state, `track` returns false, sets TERMINAL_REACHED and runs no hook. Repeating it changes nothing. |
| `Machines.TrackFiring` | finite_state_machine.py:80-117 | When a transition fires, `track` returns true, keeps the operational state and makes the destination current. The trace gains exactly the old state's exiting sequence, then the new state's entering sequence. The old state, when monitored, is stamped with exit time `now`. The new one, when monitored, counts one more entry, stamped `now`. Hooks and parameters are kept, and no other record changes beyond what the guards wrote. |
| `Machines.TrackStays` | finite_state_machine.py:111-117 | When nothing fires, `track` returns true, keeps both states, and runs exactly the current state's in-state hooks. |
| `Machines.DurationHandOff` | finite_state_machine.py:111-117 | A state guarded by its own entry duration `d` stays while at most `d` has elapsed. It moves on once more has elapsed. |
| `Machines.TrackEffect` | finite_state_machine.py:99-117 | `track` returns false only on a terminal state, and then changes only the operational state. Otherwise it keeps the operational state. Either way it only appends to the trace. |
| `Machines.RunLoopOutcome` | finite_state_machine.py:139-146 | The loop ends idle, still as it started, or with a terminal state reached and current. Without a budget it never ends idle by itself. |
| `Machines.RunLoopExtends` | finite_state_machine.py:139-146 | The loop only appends to the trace. |
| `Machines.RunLoopPollsOn` | finite_state_machine.py:139-146 | While every poll reports true before the budget is used up, the loop makes each of those polls in turn and does not end early. When that holds to the end of the clock, it ends with every poll made. |
| `Machines.RunLoopEndsAt` | finite_state_machine.py:139-146 | The loop ends at the first poll after which it does not go on. If that step reported false, the loop ends as the step left the machine. Otherwise the budget was reached at that poll and the machine is stopped. |
| `Machines.RunLoopStopsAtBudget` | finite_state_machine.py:139-146 | No instant after the first poll at or past the budget is ever polled. The loop over the whole clock equals the loop over the clock cut just after that poll. |
| `Machines.RunEndsIdleOrTerminal` | finite_state_machine.py:132-146 | With a reset, `run` ends idle or with a terminal state reached, because the reset replaces RUNNING with IDLE. TERMINAL_REACHED always means the current state is terminal. |
| `Machines.FiniteStateMachine.constructor` | finite_state_machine.py:24-40 | When uninitialized, there is no current state and the machine is UNINITIALIZED. Otherwise the constructor is `reset`. |
| `Machines.FiniteStateMachine.Reset` | finite_state_machine.py:62-68 | Equals `Machines.ResetSpec`. |
| `Machines.FiniteStateMachine.TransitBy` | finite_state_machine.py:70-83 | Equals `Machines.TransitBySpec`. |
| `Machines.FiniteStateMachine.TransitTo` | finite_state_machine.py:85-97 | Equals `Machines.TransitToSpec`. |
| `Machines.FiniteStateMachine.Track` | finite_state_machine.py:99-117 | Equals `Machines.TrackSpec`, and keeps every transition routed. |
| `Machines.FiniteStateMachine.Stop` | finite_state_machine.py:148-153 | RUNNING becomes IDLE. Every other operational state is kept. |
| `Machines.FiniteStateMachine.Poll` | finite_state_machine.py:139-146 | One loop iteration, which is one step of `Machines.RunLoop`. |
| `Machines.FiniteStateMachine.Run` | finite_state_machine.py:119-146 | Equals `Machines.RunSpec`. The loop invariant ties each poll to `Machines.RunLoop`, whose budget exit the loop lemmas state. |
| `Blinkers.Protos` | lib/blinker.py:76-92 | It builds eleven fresh monitored states. The begin and end states of the blinks have default parameters. |
| `Blinkers.Built` | lib/blinker.py:97-158 | The built graph is well formed, is a blinker graph, and every state starts fresh. |
| `Blinkers.ShapeRouted` | lib/blinker.py:97-158 | Every transition of the blinker graph has a destination. |
| `Blinkers.OnOffDisjoint` | lib/blinker.py:161-175 | No state is both on and off. The begin state of the blink and the begin and end states of its stop are neither. Together the three groups cover all eleven states. |
| `Blinkers.Blinker.constructor` | lib/blinker.py:64-174 | The blinker is the built layout reset into `off`. `is_off` holds, `is_on` does not, and the machine is idle. |
| `Blinkers.Blinker.IsOn` | lib/blinker.py:176-178 | When `is_on` holds, the current state is neither an off state nor one of the three choosing states. |
| `Blinkers.Blinker.IsOff` | lib/blinker.py:180-182 | When `is_off` holds, the current state is neither an on state nor one of the three choosing states. |
| `Blinkers.WithDuration` | lib/blinker.py:200 | It sets one entry-duration condition's duration and changes nothing else. |
| `Blinkers.WithCustom` | lib/blinker.py:288 | It sets one state's custom value and changes nothing else. |
| `Blinkers.PlanBlink` | lib/blinker.py:254-271 | It refuses a `percent_on` outside [0,1] first. It then accepts exactly a cycle alone, or two of total, cycle and count, and refuses any other combination. `n_cycles = 0` divides by zero. It derives `cycle = total / n` and `total = cycle * n`. |
| `Blinkers.ConfigureForever` | lib/blinker.py:285-290 | Configuring the endless blink never rewires. |
| `Blinkers.ConfigureBounded` | lib/blinker.py:306-315 | Configuring the bounded blink never rewires. |
| `Blinkers.Configure` | lib/blinker.py:257-269 | Configuring a planned blink never rewires. |
| `Blinkers.ValueChoice` | lib/blinker.py:116-122 | A choosing state moves to its on branch when its value is "on" and to its off branch when it is "off". Otherwise it stays. |
| `Blinkers.HoldThenHandOver` | lib/blinker.py:102-114 | A timed or blinking state stays while at most its duration has elapsed, and then hands over to its partner. |
| `Blinkers.ToggleOrEnd` | lib/blinker.py:126-150 | In the bounded blink, a state toggles once its duration has elapsed. Otherwise the blink ends once the total has elapsed. The toggle wins when both are due. |
| `Blinkers.TogglerFiring` | lib/blinker.py:124-148 | In a state of the bounded blink, the toggle transition fires first when its duration has elapsed. Otherwise the stop transition fires when the total has elapsed. Otherwise neither fires. It also says where each one leads. |
| `Blinkers.TimedFires` | lib/blinker.py:96-109 | A transition guarded by one of the blinker's entry-duration conditions fires exactly when more than that duration has passed since its state was entered. It writes nothing. |
| `Blinkers.StepKeepsCustoms` | finite_state_machine.py:99-117 | A step changes no custom value. |
| `Blinkers.Turn` | lib/blinker.py:184-220 | Without a duration, `turn_on` ends exactly in `on` and `turn_off` exactly in `off`. With a duration they end in the timed on or off state. Either way the light is on (off). The operational state is kept and the graph is not rewired. |
| `Blinkers.TimedTurn` | lib/blinker.py:197-201 | Turning on or off for `d` holds through polls up to `d` later. It flips at the first poll after that. |
| `Blinkers.TransitKeepsCustoms` | finite_state_machine.py:85-97 | `transit_to` changes no custom value. |
| `Blinkers.BlinkSpec` | lib/blinker.py:222-271 | `blink` succeeds exactly when the arguments are accepted, and fails with their error otherwise. On success the graph is not rewired and the operational state is kept. |
| `Blinkers.ForeverConfigured` | lib/blinker.py:285-292 | On time is `cycle * percent_on`, and on plus off is `cycle`. Both are non-negative for a valid percent. The begin state's value is "on" iff `begin_on`. The bounded blink and every monitor are untouched. |
| `Blinkers.BoundedConfigured` | lib/blinker.py:306-317 | The stop duration is `total`, and the cycle is split as above. The begin value is "on" iff `begin_on`, and the end value is "off" iff `end_off`. The endless blink and every monitor are untouched. |
| `Blinkers.BlinkEnters` | lib/blinker.py:288-292 | An accepted blink enters the blink's begin state, whose value reflects `begin_on`. |
| `Blinkers.BlinkStarts` | lib/blinker.py:273-292 | After an accepted blink, the next poll moves to the on half iff `begin_on`, and to the off half otherwise. |
| `Blinkers.BoundedEnds` | lib/blinker.py:152-158 | The end state of the bounded blink leaves for `off` when `end_off` was asked, and for `on` otherwise. |
| `Blinkers.Blinker.TurnOn` | lib/blinker.py:184-201 | Equals `Blinkers.Turn` with `on`. Afterwards `is_on` holds and `is_off` does not. |
| `Blinkers.Blinker.TurnOff` | lib/blinker.py:203-220 | Equals `Blinkers.Turn` with `off`. Afterwards `is_off` holds and `is_on` does not. |
| `Blinkers.Blinker.Blink` | lib/blinker.py:222-271 | Equals `Blinkers.BlinkSpec`. A refused call changes nothing. |
| `Blinkers.Blinker.BlinkForever` | lib/blinker.py:273-292 | It writes the configuration, then performs `transit_to(blink_begin)`. |
| `Blinkers.Blinker.BlinkBounded` | lib/blinker.py:294-317 | It writes the configuration, then performs `transit_to(blink_stop_begin)`. |
| `Blinkers.Blinker.TurnBy` | lib/blinker.py:408-422 | One blinker's part in a side turn: on, off, or untouched. |
| `Blinkers.Blinker.BlinkBy` | lib/blinker.py:474-505 | One blinker's part in a side blink: plain, reciprocal (`begin_on` and `end_off` negated), or untouched. It fails exactly when it takes part and the arguments are refused, and then it changes nothing. |
| `Blinkers.Blinker.Track` | finite_state_machine.py:99-117 | Equals `Machines.TrackSpec`, and the graph stays a blinker graph. |
| `Blinkers.BlinkedBy` | lib/blinker.py:474-505 | A blinker that takes no part, or whose arguments are refused, is left exactly as it was. |
| `Blinkers.TurnMeetsQuery` | lib/blinker.py:351-455 | For every side, the blinkers `turn_on` turns make `is_on(side)` hold and `is_off(side)` fail, whatever the untouched blinker does. `turn_off` gives the converse. |
| `Blinkers.SideOn` | lib/blinker.py:351-372 | `is_on(side)` holds exactly when every blinker `turn_on(side)` would turn shows what it would set. An untouched blinker does not matter. |
| `Blinkers.SideOff` | lib/blinker.py:374-395 | `is_off(side)` holds exactly when every blinker `turn_off(side)` would turn shows what it would set. An untouched blinker does not matter. |
| `Blinkers.ReciprocalDuality` | lib/blinker.py:369-395 | `is_off(LEFT_RECIPROCAL)` equals `is_on(RIGHT_RECIPROCAL)`, and the converse also holds. |
| `Blinkers.ReciprocalHalves` | lib/blinker.py:484-501 | A reciprocal blink starts the two blinkers in opposite halves. |
| `Blinkers.BlinkInTurn` | lib/blinker.py:490-505 | The call fails exactly when the arguments are refused, with their error. Both blinkers are refused alike, and a refused call leaves both untouched. Otherwise each blinker is blinked as its part says. |
| `Blinkers.SideBlinkers.constructor` | lib/blinker.py:331-349 | It builds the left blinker, then the right one. Both start off. |
| `Blinkers.SideBlinkers.TurnOn` | lib/blinker.py:397-425 | Each blinker is turned as the side says. Afterwards `is_on(side)` holds and `is_off(side)` does not. |
| `Blinkers.SideBlinkers.TurnOff` | lib/blinker.py:427-455 | Each blinker is turned as the side says. Afterwards `is_off(side)` holds and `is_on(side)` does not. |
| `Blinkers.SideBlinkers.Blink` | lib/blinker.py:457-512 | The right blinker goes first for BOTH and RIGHT_RECIPROCAL. A refused call changes neither blinker. On success each blinker is blinked as the side says. |
| `Blinkers.SideBlinkers.Track` | lib/blinker.py:514-516 | It polls the left blinker, then the right one. |

## Left out

- **Wall clock.** Every `time.perf_counter()` read is a `now` argument.
  - `run` takes `start` and one instant per poll. The same instant serves both the step and the budget check that follows it.
  - The reset inside `run` happens at `start`.
  - The number of instants bounds the loop. A `run` without a budget may loop forever, and the model covers only a finite prefix of it.
- **Float rounding.** Durations are exact `real`s.
- **Hooks.** User callbacks are labels, and running one appends an event to the trace. Exceptions raised by a callback are not modelled.
- **Transition action.** The transition action is a no-op. `_do_transiting_action` does nothing in every transition class. In `ActionTransition`, the action list is assigned the type `list[...]` rather than a list, so `add_transition_action` cannot work. It is not modelled.
- **Monitored transitions.** `MonitoredTransition` only stores its counter and timestamp, and its reset methods zero them. The code never increments or stamps them when the transition fires, though the specification of the design says it does. The model follows the code.
- **`ConditionalTransition.is_transiting`.** It returns an abstract property, which is a draft. It is modelled as "the condition evaluates true", which is how the states and the blinker use it.
- **`ConditionalTransition.is_valid`.** It calls `super.is_valid()` on the builtin `super`, which would raise. It is modelled as intended: a destination and a condition.
- **Evaluation side effects.** Selecting a transition is described as free of side effects. In the code, an auto-resetting count condition writes the entry counter during selection. The model follows the code.
- **Composite children.** They are held inline as values. A child condition object shared by reference with another holder, and later mutated through that holder, is not modelled.
- **Timer reference.** `TimedCondition` takes its reference instant as an argument. The constructor rejects the default `None` before it could read the clock.
- **Type checks.** `isinstance` checks and the `TypeError`s they raise are enforced by Dafny's types. This includes the type checks of `blink`, `turn_on` and `turn_off`.
- **Shared default parameters.** The source shares one default `Parameters()` instance. Each state here has its own parameter value.
- Machines.TrackSpec: requires every transition of the arena to have a destination, where the source fails only when a transition without one actually fires; the same holds for Machines.FiniteStateMachine.Track and Machines.FiniteStateMachine.Run.
- Machines.RunLoop: requires every transition to have a destination, as Machines.TrackSpec does.
- Machines.RunSpec: requires every transition to have a destination, as Machines.TrackSpec does.
- Machines.FiniteStateMachine.constructor: requires an initial state when the machine is not left uninitialized; the source then fails with an `AttributeError` inside `reset`, which is not modelled.
- Machines.FiniteStateMachine.Reset: requires an initial state; without one the source sets IDLE and no current state, then fails with an `AttributeError` when it enters `None`, which is not modelled.
- Machines.FiniteStateMachine.Run: requires an initial state when it resets and a current state when it does not; the source fails with an `AttributeError` in those cases, which is not modelled.
- Machines.FiniteStateMachine.TransitBy: requires a current state; an uninitialized machine fails with an `AttributeError` when it exits `None`, which is not modelled.
- Machines.FiniteStateMachine.TransitTo: requires a current state, for the same reason as Machines.FiniteStateMachine.TransitBy.
- Machines.FiniteStateMachine.Track: requires a current state; an uninitialized machine fails with an `AttributeError` when it reads the state's parameters, which is not modelled.
- Blinkers.TimedTurn: requires the timed state not to be terminal; a generator may produce a terminal state, and the machine then stops there instead of handing over.
- **Generators.** They are templates: parameters plus hook labels. The source calls a user function that may return any monitored state.
- **Construction order.** In the blinker, all conditions are created before the transitions. The source interleaves them, with the same resulting graph.
- **Inheritance.** `Blinker` holds its machine rather than inheriting from it. `run`, `reset`, `stop` and `transit_to` are reached through it (`fsm`). They are not repeated as `Blinker` methods.
- **`SideBlinkers` errors.** `SideBlinkers` re-raises some errors as `ValueError`. A refused call is an `Outcome` failure that carries the cause.

## Findings

| source | as written | input that shows it | evidently intended | confidence | as-written member | corrected member |
|---|---|---|---|---|---|---|
| lib/state.py:72 | `all(t.is_valid for t in transitions)` names the method without calling it. A bound method is truthy, so a state is valid as soon as it has a transition. | A state whose only transition has neither a destination nor a condition | Call `t.is_valid()`: every transition has a destination and a condition | not executed | `Layouts.StateCheckAdmitsDeadEnd` | `Layouts.ValidMemberRouted` |
| Partie1/layout.py:30 | `all(s.is_valid for s in states)` names the method without calling it, so a layout is valid as soon as it has an initial state. | A layout whose only, initial member has no transition | Call `s.is_valid()`: every member state is valid | not executed | `Layouts.LayoutCheckAdmitsStuckState` | `Layouts.NoTransitionsInvalid` |
