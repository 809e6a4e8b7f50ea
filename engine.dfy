/** The finite-state-machine engine: a registry of handlers keyed by
    upper-cased state name, an optional start state, a list of end states,
    and the run loop that calls handlers until one names an end state.

    Handlers are values of type `C -> (string, C)`. In the original they
    mutate the cargo object they are given and `run` returns nothing; here
    the updated cargo is threaded through explicitly and `Run` returns the
    cargo the last handler returned. When each handler returns the object it
    received, as the fly's handlers do, that is the value the mutated object
    holds when the loop breaks. The unbounded loop is bounded by a `fuel`
    count of handler calls: when the fuel runs out the outcome is `Running`,
    naming the state whose handler would be called next. */
module Engine {
  import opened Names

  datatype Option<T> = None | Some(value: T)

  /** Given the cargo, a handler returns the next state's name and the updated cargo. */
  type Handler<!C> = C -> (string, C)

  type Registry<!C> = map<string, Handler<C>>

  /** The `ValueError`s `run` raises before calling any handler. */
  datatype Error =
    | StartNotSet  // no start state, or the start state has no handler
    | NoEndStates  // no state was registered as an end state

  /** How a run ends. Every variant that follows a handler call carries the
      cargo the last handler returned; when each handler returns the object
      it received, that is what the caller's object holds when `run` returns
      or raises. */
  datatype Outcome<C> =
    | Stopped(cargo: C)                  // a handler named an end state; the loop broke
    | Failed(error: Error)               // a `ValueError`; no handler was called
    | KeyError(name: string, cargo: C)   // the next state is neither an end state nor registered
    | Running(state: string, cargo: C)   // fuel exhausted; `state`'s handler is next

  /** What one turn of the loop does. */
  datatype Move<C> =
    | Halt(cargo: C)                 // the returned name is an end state
    | Next(state: string, cargo: C)  // the returned name is a registered, non-end state
    | Missing(name: string, cargo: C) // the returned name is neither

  /** One turn of the loop: call the handler registered for `state`,
      upper-case the name it returns, test it against the end states and
      then against the registry. */
  function Step<C>(handlers: Registry<C>, endstates: seq<string>, state: string, cargo: C): (m: Move<C>)
    requires state in handlers
    ensures m.Halt? <==> Upper(handlers[state](cargo).0) in endstates
    ensures m.Halt? ==> m.cargo == handlers[state](cargo).1
    ensures m.Next? ==> m.state == Upper(handlers[state](cargo).0) && m.state in handlers
                        && m.state !in endstates && m.cargo == handlers[state](cargo).1
    ensures m.Missing? ==> m.name == Upper(handlers[state](cargo).0)
                           && m.name !in handlers && m.name !in endstates
                           && m.cargo == handlers[state](cargo).1
  {
    var (name, cargo') := handlers[state](cargo);
    var next := Upper(name);
    if next in endstates then Halt(cargo')
    else if next in handlers then Next(next, cargo')
    else Missing(next, cargo')
  }

  /** The loop started at `state` with at most `fuel` handler calls. */
  function Exec<C>(handlers: Registry<C>, endstates: seq<string>, state: string, cargo: C, fuel: nat): (o: Outcome<C>)
    requires state in handlers
    ensures !o.Failed?
    ensures o.KeyError? ==> o.name !in handlers && o.name !in endstates
    ensures o.Running? ==> o.state in handlers
    ensures o.Running? && fuel > 0 ==> o.state !in endstates
    decreases fuel
  {
    if fuel == 0 then Running(state, cargo)
    else
      match Step(handlers, endstates, state, cargo)
      case Halt(c) => Stopped(c)
      case Missing(n, c) => KeyError(n, c)
      case Next(s, c) => Exec(handlers, endstates, s, c, fuel - 1)
  }

  /** The states whose handlers the loop calls, in order. */
  function Calls<C>(handlers: Registry<C>, endstates: seq<string>, state: string, cargo: C, fuel: nat): (t: seq<string>)
    requires state in handlers
    ensures |t| <= fuel
    ensures fuel > 0 ==> |t| > 0 && t[0] == state
    ensures forall i :: 0 <= i < |t| ==> t[i] in handlers
    ensures forall i :: 1 <= i < |t| ==> t[i] !in endstates
    decreases fuel
  {
    if fuel == 0 then []
    else
      match Step(handlers, endstates, state, cargo)
      case Next(s, c) => [state] + Calls(handlers, endstates, s, c, fuel - 1)
      case _ => [state]
  }

  /** The state and cargo after `k` turns of the loop that each moved on to
      a registered, non-end state; `None` if some turn before the `k`-th
      stopped or failed instead. */
  function Reach<C>(handlers: Registry<C>, endstates: seq<string>, state: string, cargo: C, k: nat): (r: Option<(string, C)>)
    requires state in handlers
    ensures r.Some? ==> r.value.0 in handlers
    ensures r.Some? && k > 0 ==> r.value.0 !in endstates
    decreases k
  {
    if k == 0 then Some((state, cargo))
    else
      match Step(handlers, endstates, state, cargo)
      case Next(s, c) => Reach(handlers, endstates, s, c, k - 1)
      case _ => None
  }

  /** What `run(cargo)` does for the given fields, with at most `fuel` handler calls. */
  function RunOutcome<C>(handlers: Registry<C>, startstate: Option<string>, endstates: seq<string>, cargo: C, fuel: nat): (o: Outcome<C>)
    ensures o == Failed(StartNotSet) <==> startstate.None? || startstate.value !in handlers
    ensures o == Failed(NoEndStates) <==> startstate.Some? && startstate.value in handlers && endstates == []
    ensures o.KeyError? ==> o.name !in handlers && o.name !in endstates
  {
    if startstate.None? || startstate.value !in handlers then Failed(StartNotSet)
    else if endstates == [] then Failed(NoEndStates)
    else Exec(handlers, endstates, startstate.value, cargo, fuel)
  }

  /** Every registered name is upper-case, as `add_state` stores them. */
  ghost predicate CanonicalKeys<C>(handlers: Registry<C>) {
    forall s :: s in handlers ==> IsUpper(s)
  }

  class StateMachine<C> {
    var handlers: Registry<C>
    var startstate: Option<string>
    var endstates: seq<string>

    /** Every stored name is in canonical (upper) case; `CaseInsensitiveLookup`
        shows what this buys the run loop. */
    ghost predicate Valid()
      reads this
    {
      && CanonicalKeys(handlers)
      && (startstate.Some? ==> IsUpper(startstate.value))
      && (forall i :: 0 <= i < |endstates| ==> IsUpper(endstates[i]))
    }

    constructor ()
      ensures Valid()
      ensures handlers == map[] && startstate == None && endstates == []
    {
      handlers := map[];
      startstate := None;
      endstates := [];
    }

    /** Registers `handler` under the upper-cased `name`, replacing any
        handler registered under a name equal up to case; an end state's
        name is appended to `endstates`. */
    method AddState(name: string, handler: Handler<C>, endState: bool := false)
      requires Valid()
      modifies this
      ensures Valid()
      ensures handlers == old(handlers)[Upper(name) := handler]
      ensures endstates == if endState then old(endstates) + [Upper(name)] else old(endstates)
      ensures forall s :: s in endstates <==> s in old(endstates) || (endState && s == Upper(name))
      ensures startstate == old(startstate)
    {
      var key := Upper(name);
      handlers := handlers[key := handler];
      if endState {
        endstates := endstates + [key];
      }
    }

    /** Makes the upper-cased `name` the start state; it need not be registered yet. */
    method SetStart(name: string)
      requires Valid()
      modifies this
      ensures Valid()
      ensures startstate == Some(Upper(name))
      ensures handlers == old(handlers) && endstates == old(endstates)
    {
      startstate := Some(Upper(name));
    }

    /** The run loop, with at most `fuel` handler calls; the machine itself is not changed. */
    method Run(cargo: C, fuel: nat) returns (o: Outcome<C>)
      ensures o == RunOutcome(handlers, startstate, endstates, cargo, fuel)
    {
      if startstate.None? || startstate.value !in handlers {
        return Failed(StartNotSet);
      }
      var current := startstate.value;
      var handler := handlers[current];
      if |endstates| == 0 {
        return Failed(NoEndStates);
      }
      var c := cargo;
      var steps := 0;
      while steps < fuel
        invariant steps <= fuel
        invariant current in handlers && handler == handlers[current]
        invariant Exec(handlers, endstates, startstate.value, cargo, fuel) == Exec(handlers, endstates, current, c, fuel - steps)
      {
        var (name, c') := handler(c);
        var next := Upper(name);
        if next in endstates {
          return Stopped(c');
        }
        if next !in handlers {
          return KeyError(next, c');
        }
        handler := handlers[next];
        current, c := next, c';
        steps := steps + 1;
      }
      o := Running(current, c);
    }
  }

  // ---------------------------------------------------------------------
  // Properties of the run loop

  /** Fuel only bounds the loop: once the loop has stopped or failed, more fuel gives the same outcome. */
  lemma {:induction false} ExecMoreFuel<C>(handlers: Registry<C>, endstates: seq<string>, state: string, cargo: C, fuel: nat, more: nat)
    requires state in handlers
    requires !Exec(handlers, endstates, state, cargo, fuel).Running?
    requires fuel <= more
    ensures Exec(handlers, endstates, state, cargo, more) == Exec(handlers, endstates, state, cargo, fuel)
    decreases fuel
  {
    match Step(handlers, endstates, state, cargo)
    case Halt(_) =>
    case Missing(_, _) =>
    case Next(s, c) =>
      ExecMoreFuel(handlers, endstates, s, c, fuel - 1, more - 1);
  }

  /** Running `a + b` turns is running `a` turns and, if the loop is still
      going, `b` more from where it is. */
  lemma {:induction false} ExecSplit<C>(handlers: Registry<C>, endstates: seq<string>, state: string, cargo: C, a: nat, b: nat)
    requires state in handlers
    ensures Exec(handlers, endstates, state, cargo, a + b) ==
      match Exec(handlers, endstates, state, cargo, a)
      case Running(s, c) => Exec(handlers, endstates, s, c, b)
      case o => o
    decreases a
  {
    if a > 0 {
      match Step(handlers, endstates, state, cargo)
      case Halt(_) =>
      case Missing(_, _) =>
      case Next(s, c) =>
        ExecSplit(handlers, endstates, s, c, a - 1, b);
    }
  }

  /** After `k` turns that each moved on, the loop continues from the state reached. */
  lemma {:induction false} ExecAfterReach<C>(handlers: Registry<C>, endstates: seq<string>, state: string, cargo: C, k: nat, fuel: nat)
    requires state in handlers
    requires Reach(handlers, endstates, state, cargo, k).Some?
    requires k <= fuel
    ensures var (s, c) := Reach(handlers, endstates, state, cargo, k).value;
            Exec(handlers, endstates, state, cargo, fuel) == Exec(handlers, endstates, s, c, fuel - k)
    decreases k
  {
    if k > 0 {
      match Step(handlers, endstates, state, cargo)
      case Next(s, c) =>
        ExecAfterReach(handlers, endstates, s, c, k - 1, fuel - 1);
    }
  }

  /** The loop stops at the first turn whose handler names an end state,
      with the cargo that handler returned: if `k` turns moved on and the
      next one halts, the run stops there whatever fuel is left. */
  lemma StopsAtFirstEnd<C>(handlers: Registry<C>, endstates: seq<string>, state: string, cargo: C, k: nat, fuel: nat)
    requires state in handlers
    requires Reach(handlers, endstates, state, cargo, k).Some?
    requires k < fuel
    requires var (s, c) := Reach(handlers, endstates, state, cargo, k).value;
             Step(handlers, endstates, s, c).Halt?
    ensures var (s, c) := Reach(handlers, endstates, state, cargo, k).value;
            Exec(handlers, endstates, state, cargo, fuel) == Stopped(handlers[s](c).1)
  {
    ExecAfterReach(handlers, endstates, state, cargo, k, fuel);
  }

  /** The loop raises a key error at the first turn whose handler names a
      state that is neither an end state nor registered: if `k` turns moved
      on and the next one names such a state, the run fails there on that
      name, with the cargo that handler returned, whatever fuel is left. */
  lemma FailsAtFirstMissing<C>(handlers: Registry<C>, endstates: seq<string>, state: string, cargo: C, k: nat, fuel: nat)
    requires state in handlers
    requires Reach(handlers, endstates, state, cargo, k).Some?
    requires k < fuel
    requires var (s, c) := Reach(handlers, endstates, state, cargo, k).value;
             Step(handlers, endstates, s, c).Missing?
    ensures var (s, c) := Reach(handlers, endstates, state, cargo, k).value;
            Exec(handlers, endstates, state, cargo, fuel) == KeyError(Upper(handlers[s](c).0), handlers[s](c).1)
  {
    ExecAfterReach(handlers, endstates, state, cargo, k, fuel);
  }

  /** A state reached after `k` turns was reached by moving on at every earlier turn. */
  lemma {:induction false} ReachPrefix<C>(handlers: Registry<C>, endstates: seq<string>, state: string, cargo: C, j: nat, k: nat)
    requires state in handlers
    requires j < k
    requires Reach(handlers, endstates, state, cargo, k).Some?
    ensures Reach(handlers, endstates, state, cargo, j).Some?
    ensures var (s, c) := Reach(handlers, endstates, state, cargo, j).value;
            Step(handlers, endstates, s, c).Next?
    decreases j
  {
    match Step(handlers, endstates, state, cargo)
    case Next(s, c) =>
      if j > 0 {
        ReachPrefix(handlers, endstates, s, c, j - 1, k - 1);
      }
  }

  /** The handler registered under an end-state name is never called when
      the loop moves into that name: replacing it changes nothing, unless it
      is the state the loop starts in. */
  lemma {:induction false} EndHandlerNeverCalled<C>(handlers: Registry<C>, endstates: seq<string>, state: string, cargo: C, fuel: nat, end: string, h: Handler<C>)
    requires state in handlers
    requires end in endstates && state != end
    ensures Exec(handlers[end := h], endstates, state, cargo, fuel) == Exec(handlers, endstates, state, cargo, fuel)
    decreases fuel
  {
    if fuel > 0 {
      var handlers' := handlers[end := h];
      assert handlers'[state] == handlers[state];
      match Step(handlers, endstates, state, cargo)
      case Halt(_) =>
      case Missing(_, _) =>
      case Next(s, c) =>
        EndHandlerNeverCalled(handlers, endstates, s, c, fuel - 1, end, h);
    }
  }

  /** Only membership in `endstates` matters: duplicates appended by
      registering an end state twice, or any reordering, change nothing. */
  lemma {:induction false} EndStatesAsSet<C>(handlers: Registry<C>, endstates: seq<string>, endstates': seq<string>, state: string, cargo: C, fuel: nat)
    requires state in handlers
    requires forall s :: s in endstates <==> s in endstates'
    ensures Exec(handlers, endstates', state, cargo, fuel) == Exec(handlers, endstates, state, cargo, fuel)
    decreases fuel
  {
    if fuel > 0 {
      match Step(handlers, endstates, state, cargo)
      case Halt(_) =>
      case Missing(_, _) =>
      case Next(s, c) =>
        EndStatesAsSet(handlers, endstates, endstates', s, c, fuel - 1);
    }
  }

  /** A loop still `Running` has spent every unit of fuel on a handler call;
      one that stopped or failed did so after at least one call. */
  lemma {:induction false} CallsCount<C>(handlers: Registry<C>, endstates: seq<string>, state: string, cargo: C, fuel: nat)
    requires state in handlers
    ensures Exec(handlers, endstates, state, cargo, fuel).Running? ==> |Calls(handlers, endstates, state, cargo, fuel)| == fuel
    ensures !Exec(handlers, endstates, state, cargo, fuel).Running? ==> |Calls(handlers, endstates, state, cargo, fuel)| > 0
    decreases fuel
  {
    if fuel > 0 {
      match Step(handlers, endstates, state, cargo)
      case Halt(_) =>
      case Missing(_, _) =>
      case Next(s, c) =>
        CallsCount(handlers, endstates, s, c, fuel - 1);
    }
  }

  /** `Calls` is the trace the loop follows: its `i`-th entry is the state
      reached after `i` turns that moved on. */
  lemma {:induction false} CallsFollowReach<C>(handlers: Registry<C>, endstates: seq<string>, state: string, cargo: C, fuel: nat, i: nat)
    requires state in handlers
    requires i < |Calls(handlers, endstates, state, cargo, fuel)|
    ensures Reach(handlers, endstates, state, cargo, i).Some?
    ensures Calls(handlers, endstates, state, cargo, fuel)[i] == Reach(handlers, endstates, state, cargo, i).value.0
    decreases fuel
  {
    if i > 0 {
      match Step(handlers, endstates, state, cargo)
      case Next(s, c) =>
        CallsFollowReach(handlers, endstates, s, c, fuel - 1, i - 1);
    }
  }

  /** Turn `k` is reached by moving on at every earlier turn, and does `m`. */
  ghost predicate TurnDoes<C>(handlers: Registry<C>, endstates: seq<string>, state: string, cargo: C, k: nat, m: Move<C>)
    requires state in handlers
  {
    var r := Reach(handlers, endstates, state, cargo, k);
    r.Some? && Step(handlers, endstates, r.value.0, r.value.1) == m
  }

  /** A run that stopped, or raised a key error, did so on a turn reached by
      moving on at every earlier turn: the converse of `StopsAtFirstEnd`. */
  lemma {:induction false} EndsAtSomeTurn<C>(handlers: Registry<C>, endstates: seq<string>, state: string, cargo: C, fuel: nat)
    requires state in handlers
    ensures var o := Exec(handlers, endstates, state, cargo, fuel);
      o.Stopped? ==> exists k :: 0 <= k < fuel && TurnDoes(handlers, endstates, state, cargo, k, Halt(o.cargo))
    ensures var o := Exec(handlers, endstates, state, cargo, fuel);
      o.KeyError? ==> exists k :: 0 <= k < fuel && TurnDoes(handlers, endstates, state, cargo, k, Missing(o.name, o.cargo))
    decreases fuel
  {
    if fuel > 0 {
      match Step(handlers, endstates, state, cargo)
      case Halt(c) =>
        assert TurnDoes(handlers, endstates, state, cargo, 0, Halt(c));
      case Missing(n, c) =>
        assert TurnDoes(handlers, endstates, state, cargo, 0, Missing(n, c));
      case Next(s, c) =>
        var o := Exec(handlers, endstates, s, c, fuel - 1);
        EndsAtSomeTurn(handlers, endstates, s, c, fuel - 1);
        if o.Stopped? || o.KeyError? {
          var m: Move<C> := if o.Stopped? then Halt(o.cargo) else Missing(o.name, o.cargo);
          var k :| 0 <= k < fuel - 1 && TurnDoes(handlers, endstates, s, c, k, m);
          assert Reach(handlers, endstates, state, cargo, k + 1) == Reach(handlers, endstates, s, c, k);
          assert TurnDoes(handlers, endstates, state, cargo, k + 1, m);
        }
    }
  }

  /** With canonical keys, a handler's returned name reaches the state
      registered under `key` exactly when the two names differ only in
      case: returning `eating` or `Eating` reaches the handler stored by
      registering `EATING`. */
  lemma CaseInsensitiveLookup<C>(handlers: Registry<C>, endstates: seq<string>, state: string, cargo: C, key: string)
    requires CanonicalKeys(handlers)
    requires state in handlers && key in handlers
    requires Upper(handlers[state](cargo).0) !in endstates
    ensures Step(handlers, endstates, state, cargo) == Next(key, handlers[state](cargo).1)
            <==> EqualIgnoringCase(handlers[state](cargo).0, key)
  {
    var name := handlers[state](cargo).0;
    UpperFixesExactlyUpper(key);
    SameStateIff(name, key);
  }

  /** The start handler is called first, even when the start state is itself an end state. */
  lemma StartHandlerCalledFirst<C>(handlers: Registry<C>, startstate: Option<string>, endstates: seq<string>, cargo: C, fuel: nat)
    requires startstate.Some? && startstate.value in handlers && endstates != []
    requires fuel > 0
    ensures var t := Calls(handlers, endstates, startstate.value, cargo, fuel); |t| > 0 && t[0] == startstate.value
    ensures var (name, c) := handlers[startstate.value](cargo);
            Upper(name) in endstates ==> RunOutcome(handlers, startstate, endstates, cargo, fuel) == Stopped(c)
  {
  }
}
