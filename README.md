# fsmplay state machine, modelled in Dafny

fsmplay contains a small finite-state-machine engine (`statemachine.py`). A
`StateMachine` keeps three things:

- a dictionary from upper-cased state name to handler;
- an optional start state;
- a list of end states.

`add_state` and `set_start` fill these in. `run(cargo)` first checks that the
start state has a handler and that there is at least one end state. It then
calls handlers one after another. Each handler returns the next state's name
and the cargo. The loop stops as soon as the upper-cased name is an end state.
The fly simulation (`fly.py`) supplies a `Cargo` record and two handlers,
`resting` and `eating`.

The model has four modules:

- `Names` (`names.dfy`): ASCII upper-casing of state names. It proves that
  upper-casing is idempotent and that two names denote the same state exactly
  when they differ only in case.
- `Engine` (`engine.dfy`): the `StateMachine` class and its methods. It also
  holds the functions that specify the run loop: `Step` (one turn), `Exec`
  (the loop), `Calls` (which handlers get called), `Reach` (the state after
  `k` turns) and `RunOutcome` (what `run` does). The lemmas about the loop sit
  beside them.
- `Fly` (`fly.dfy`): the cargo, `resting` and `eating`, and the unit-test
  scenarios.
- `FlyMachine` (`fly_machine.dfy`): the engine running the fly handlers.

Handlers are values of type `C -> (string, C)`. In the original, a handler
changes the cargo object it is given and returns that same object, and `run`
returns nothing: the caller sees the final cargo only through that object. The
model instead returns the updated cargo. `Run` returns the cargo the last
handler returned in `Stopped(cargo)`. When each handler returns the object it
received, as the handlers in `fly.py` do, that is the value the caller's
object holds when the loop breaks. A run that raises `KeyError` has already
called handlers, so that outcome, `KeyError(name, cargo)`, also carries the
cargo the last handler returned.

The original loop has no step bound. The model bounds it with `fuel`, the
number of handler calls allowed. When the fuel runs out, the outcome is
`Running(state, cargo)`. Lemmas `ExecMoreFuel` and `ExecSplit` show that fuel
only cuts the loop short:

- once a run has stopped or failed, more fuel gives the same outcome;
- a longer run is a shorter run continued from where it was cut off.

`run` raises `ValueError` for both start-state failures and for a machine
without end states, and `KeyError` for a missing next state:

- `Failed(StartNotSet)`: the start state is unset **or** has no handler;
  the two cases share one error.
- `Failed(NoEndStates)`: there is no end state.
- `KeyError(name, cargo)`: the next state is neither an end state nor
  registered.

End states are kept in a list that `add_state` appends to, so registering one
twice stores it twice; `EndStatesAsSet` proves this changes no outcome.

`eating` returns `dead` or `resting`, `resting` returns `resting` or
`looking`, and nothing in `fly.py` registers `looking`.

## Model

| member | source | states |
|---|---|---|
| `Names.Upper` | statemachine.py:11 | upper-casing keeps a name's length and leaves no lower-case ASCII letter |
| `Names.UpperFixesExactlyUpper` | statemachine.py:36 | upper-casing leaves a name unchanged exactly when it is already upper-case |
| `Names.UpperIdempotent` | statemachine.py:19 | upper-casing an upper-cased name changes nothing, so stored names are canonical |
| `Names.SameStateIff` | statemachine.py:11 | two names have the same upper-case form exactly when they are equal letter by letter up to case |
| `Engine.StateMachine.constructor` | statemachine.py:5-8 | a new machine has no handlers, no start state and no end states |
| `Engine.StateMachine.AddState` | statemachine.py:10-16 | the handler is stored under the upper-cased name, replacing any earlier one; only that key changes; an end state's name is appended, and end-state membership grows by exactly that name; the start state is unchanged; all stored names stay upper-case |
| `Engine.StateMachine.SetStart` | statemachine.py:18-19 | the start state becomes the upper-cased name, registered or not; handlers and end states are unchanged |
| `Engine.StateMachine.Run` | statemachine.py:22-44 | the loop, with its start-handler and end-state checks, computes exactly `RunOutcome` of the machine's fields and does not change the machine |
| `Engine.RunOutcome` | statemachine.py:25-30 | the start-state error is raised exactly when the start state is unset or unregistered, even if there are no end states; the end-state error is raised exactly when the start lookup succeeds and there are no end states; a key error names a state that is neither registered nor an end state |
| `Engine.Step` | statemachine.py:35-44 | one turn calls the handler registered for the current state and upper-cases the name it returns; it halts with the returned cargo exactly when that name is an end state; otherwise it moves to that name if it is registered, and if not raises a key error on it that carries the returned cargo |
| `Engine.Exec` | statemachine.py:32-44 | the loop raises no `ValueError`; a key error names a state that is neither registered nor an end state; an unfinished loop sits at a registered state, and after at least one turn that state is not an end state |
| `Engine.Calls` | statemachine.py:32-35 | the start handler is called first, even if the start state is an end state; every called state is registered; no state after the first is an end state, so an end state's handler is never called on a transition into it |
| `Engine.Reach` | statemachine.py:39-44 | every state reached by moving on is registered and is not an end state |
| `Engine.ExecMoreFuel` | statemachine.py:32 | once the loop has stopped or failed, more fuel does not change the outcome |
| `Engine.ExecSplit` | statemachine.py:32-44 | running a + b turns is running a turns and then, if still running, b more from the state reached |
| `Engine.ExecAfterReach` | statemachine.py:43-44 | after k turns that moved on, the loop's outcome is the outcome of the loop started from the state reached |
| `Engine.StopsAtFirstEnd` | statemachine.py:39-42 | if k turns moved on and the next handler names an end state, the run stops there with that handler's cargo |
| `Engine.FailsAtFirstMissing` | statemachine.py:39-44 | if k turns moved on and the next handler names a state that is neither an end state nor registered, the run raises a key error on that upper-cased name with that handler's cargo |
| `Engine.ReachPrefix` | statemachine.py:39-44 | a state reached after k turns was reached by moving on at every earlier turn, so no earlier turn named an end state |
| `Engine.EndHandlerNeverCalled` | statemachine.py:39-42 | replacing the handler registered under an end-state name changes no outcome of a loop that does not start there |
| `Engine.EndStatesAsSet` | statemachine.py:14-16 | two end-state lists with the same members, duplicates included, give the same outcome |
| `Engine.CallsFollowReach` | statemachine.py:35-44 | the i-th handler called is the one for the state reached after i turns that moved on, so `Calls` is the trace `Exec` follows |
| `Engine.EndsAtSomeTurn` | statemachine.py:39-44 | a run that stopped, or raised a key error, did so on some turn within the fuel, reached by moving on at every earlier turn, and with that turn's cargo |
| `Engine.CaseInsensitiveLookup` | statemachine.py:36-44 | with upper-case keys, a returned name reaches the handler registered under a key exactly when the two names differ only in case |
| `Engine.CallsCount` | statemachine.py:32-44 | a run cut off by fuel has called a handler once per unit of fuel; a run that stopped or failed called at least one handler |
| `Engine.StartHandlerCalledFirst` | statemachine.py:26-42 | with a usable start state and some end state, the start handler is called first; if it names an end state, the run stops with its cargo, even when the start state is itself an end state |
| `Fly.NewCargo` | fly.py:101-108 | a new cargo has the given energy, no food, and is not hit by the human (its `hit` flag, which stands for `hit_by_human`, is false) |
| `Fly.HandlersKeepHit` | fly.py:107-108 | neither handler changes whether the fly is hit, so a new cargo stays unhit after either handler and only a replacement on the object, as the tests make, makes `hit_by_human` answer true |
| `Fly.Resting` | fly.py:111-116 | energy drops by exactly one and nothing else changes; the result is `looking` exactly when the new energy is below 70, and `resting` exactly when it is not |
| `Fly.Eating` | fly.py:140-146 | energy rises by five and food falls by five, nothing else changes; the result is `dead` exactly when the fly is hit, and `resting` exactly when it is not |
| `Fly.RestingTimes` | fly.py:111-112 | after k rests the energy has dropped by k, and food and the hit flag are unchanged |
| `Fly.RestingTests` | fly.py:121-137 | energy 80 stays resting, energy 60 goes looking, energy 99 becomes 98 |
| `Fly.EatingTests` | fly.py:154-181 | a fly that is not hit rests, a fly that is hit dies, energy 60 becomes 65, food 65 becomes 60 |
| `Fly.RestingFromNinetyNine` | fly.py:111-116 | from energy 99, the first 29 rests return `resting` and the 30th returns `looking` with energy 69 |
| `FlyMachine.RestingLoop` | fly.py:113-116 | in a machine that binds `RESTING` to `resting`, each turn with enough energy stays in `RESTING` and costs one unit |
| `FlyMachine.HungryTurn` | fly.py:113-114 | at energy 70 the next turn names `LOOKING` with energy 69; the run then stops, continues or fails as `LOOKING` is an end state, registered, or neither |
| `FlyMachine.RestsUntilHungry` | fly.py:111-116 | from energy e of at least 70, the run makes e - 70 resting turns and then goes on as if it had moved to `LOOKING` with energy 69 |
| `FlyMachine.FlyFromNinetyNine` | fly.py:111-116 | from energy 99, 29 turns stay in `RESTING` (energy 70), and the 30th call moves on to `LOOKING` with energy 69 |
| `FlyMachine.DiesWhenHit` | fly.py:143-144 | with `DEAD` an end state, a fly that is hit stops after one eating call, fed; only the eating handler is called |
| `FlyMachine.LookingIsMissing` | statemachine.py:43-44 | if no state `LOOKING` is registered, the run from energy 99 ends with a key error on `LOOKING`, with the cargo at energy 69 |
| `FlyMachine.BuildFlyMachine` | statemachine.py:10-19 | in an example machine, names registered in mixed case land on upper-case keys; re-registering `resting` replaces the earlier handler; `Dead` becomes the end state `DEAD` |
| `FlyMachine.RegisterAndRun` | statemachine.py:22-44 | the fly machine built that way, run from energy 99, raises a key error for `LOOKING` with the cargo at energy 69 |

## Left out

- Logging: the `logging.debug` calls and the `current_state` derived from
  `handler.__name__` feed only the log. Handlers are assumed to have a
  `__name__`, as plain functions do; a callable without one makes `run` raise
  `AttributeError` at statemachine.py:33 before it is called, which the model
  does not capture.
- The `unittest` classes, `selftest` and the `__main__` block of `fly.py` are
  not modelled as code. Their assertions are stated as the lemmas
  `Fly.RestingTests` and `Fly.EatingTests`.
- The commented-out handlers and `build_machine` in `fly.py`, and the unused
  `random` import, are dead code.
- Upper-casing covers ASCII letters only. Python's `str.upper` also changes
  other Unicode letters, and some of those change a string's length.
- Engine.StateMachine.Run: bounded by `fuel` handler calls, because the
  original loop is unbounded. A run that never reaches an end state shows up
  as `Running` for every fuel, not as non-termination.
- Engine.StateMachine.Run: returns the final cargo as a value. The original
  returns `None`, and the caller sees the cargo through the object the
  handlers changed in place. Object identity and aliasing of the cargo are not
  modelled.
- Handlers are total functions. Their other side effects and the exceptions
  they raise, which the engine only passes on, are not modelled.
- The bare `except` around the start lookup catches any exception. With
  string keys the only one possible is the lookup's `KeyError`, and that is
  the case modelled.
- The tests replace `hit_by_human` and add `full` on the object at run time.
  The model uses the `hit` field instead; `full` is never read by `eating`.
- Engine.StateMachine.AddState: the `end_state` flag is a `bool`. The original
  tests any value for truthiness (the dead `build_machine` passes `1`); every
  such value is modelled by the `bool` it tests as.
