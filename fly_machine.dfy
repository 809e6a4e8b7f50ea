/** The engine driving the fly's handlers: a machine in which the state
    `RESTING` is bound to `Resting` and is not an end state. */
module FlyMachine {
  import opened Names
  import opened Engine
  import opened Fly

  /** `handlers` binds `RESTING` to the resting handler, and `RESTING` does not end the run. */
  ghost predicate RestsAt(handlers: Registry<Cargo>, endstates: seq<string>) {
    "RESTING" in handlers && "RESTING" !in endstates &&
    forall c :: handlers["RESTING"](c) == Resting(c)
  }

  /** The spellings of the fly's state names, upper-cased. */
  lemma Spellings()
    ensures Upper("resting") == Upper("Resting") == Upper("RESTING") == "RESTING"
    ensures Upper("eating") == "EATING" && Upper("looking") == "LOOKING"
    ensures Upper("dead") == Upper("Dead") == "DEAD"
  {
  }

  /** While the fly is not hungry, each turn of the loop calls `Resting`
      and stays in `RESTING`. */
  lemma {:induction false} RestingLoop(handlers: Registry<Cargo>, endstates: seq<string>, c: Cargo, k: nat)
    requires RestsAt(handlers, endstates)
    requires c.energy - k >= HungryBelow
    ensures Reach(handlers, endstates, "RESTING", c, k) == Some(("RESTING", RestingTimes(c, k)))
    decreases k
  {
    if k > 0 {
      Spellings();
      var (name, c') := Resting(c);
      assert name == "resting" && c' == RestingTimes(c, 1);
      assert Step(handlers, endstates, "RESTING", c) == Next("RESTING", c');
      RestingLoop(handlers, endstates, c', k - 1);
      RestingTimesShift(c, k - 1);
    }
  }

  /** Resting once and then `k` times is resting `k + 1` times. */
  lemma RestingTimesShift(c: Cargo, k: nat)
    ensures RestingTimes(Resting(c).1, k) == RestingTimes(c, k + 1)
  {
  }

  /** The turn on which the fly, with energy 70, gets hungry: the resting
      handler names `looking` with energy 69. */
  lemma HungryTurn(handlers: Registry<Cargo>, endstates: seq<string>, c: Cargo, fuel: nat)
    requires RestsAt(handlers, endstates)
    requires c.energy == HungryBelow && fuel > 0
    ensures Exec(handlers, endstates, "RESTING", c, fuel) ==
      var hungry := c.(energy := HungryBelow - 1);
      if "LOOKING" in endstates then Stopped(hungry)
      else if "LOOKING" in handlers then Exec(handlers, endstates, "LOOKING", hungry, fuel - 1)
      else KeyError("LOOKING", hungry)
  {
    Spellings();
    assert handlers["RESTING"](c) == ("looking", c.(energy := HungryBelow - 1));
  }

  /** Started in `RESTING` with energy `e` of at least 70, the loop calls
      the resting handler `e - 69` times: each call but the last stays in
      `RESTING`, and the last names `looking` with energy 69, after which
      the run goes on exactly as if it had moved to `LOOKING`. */
  lemma RestsUntilHungry(handlers: Registry<Cargo>, endstates: seq<string>, c: Cargo, fuel: nat)
    requires RestsAt(handlers, endstates)
    requires c.energy >= HungryBelow && fuel > c.energy - HungryBelow
    ensures Reach(handlers, endstates, "RESTING", c, c.energy - HungryBelow) == Some(("RESTING", c.(energy := HungryBelow)))
    ensures Exec(handlers, endstates, "RESTING", c, fuel) ==
      var hungry := c.(energy := HungryBelow - 1);
      if "LOOKING" in endstates then Stopped(hungry)
      else if "LOOKING" in handlers then Exec(handlers, endstates, "LOOKING", hungry, fuel - (c.energy - HungryBelow + 1))
      else KeyError("LOOKING", hungry)
  {
    var k := c.energy - HungryBelow;
    RestingLoop(handlers, endstates, c, k);
    ExecAfterReach(handlers, endstates, "RESTING", c, k, fuel);
    HungryTurn(handlers, endstates, c.(energy := HungryBelow), fuel - k);
  }

  /** From energy 99 the resting handler is called 30 times before the fly
      is hungry, with energy 69. */
  lemma FlyFromNinetyNine(handlers: Registry<Cargo>, endstates: seq<string>, fuel: nat)
    requires RestsAt(handlers, endstates)
    requires fuel >= 30
    ensures Reach(handlers, endstates, "RESTING", NewCargo(99), 29) == Some(("RESTING", Cargo(70, 0, false)))
    ensures Exec(handlers, endstates, "RESTING", NewCargo(99), fuel) ==
      var hungry := Cargo(69, 0, false);
      if "LOOKING" in endstates then Stopped(hungry)
      else if "LOOKING" in handlers then Exec(handlers, endstates, "LOOKING", hungry, fuel - 30)
      else KeyError("LOOKING", hungry)
  {
    RestsUntilHungry(handlers, endstates, NewCargo(99), fuel);
  }

  /** With `EATING` bound to the eating handler and `DEAD` an end state, a
      fly that is hit stops after one call, having eaten; the handler of
      `DEAD` is never called. */
  lemma DiesWhenHit(handlers: Registry<Cargo>, endstates: seq<string>, c: Cargo, fuel: nat)
    requires "EATING" in handlers && "DEAD" in endstates
    requires forall c :: handlers["EATING"](c) == Eating(c)
    requires c.hit && fuel > 0
    ensures Exec(handlers, endstates, "EATING", c, fuel) == Stopped(c.(energy := c.energy + 5, food := c.food - 5))
    ensures Calls(handlers, endstates, "EATING", c, fuel) == ["EATING"]
  {
    Spellings();
    assert handlers["EATING"](c) == ("dead", c.(energy := c.energy + 5, food := c.food - 5));
  }

  /** Run from `RESTING` with energy 99 in a machine that registers no
      `LOOKING` state: the 30th call of the resting handler names `looking`,
      which is neither an end state nor registered. */
  lemma LookingIsMissing(handlers: Registry<Cargo>, endstates: seq<string>, fuel: nat)
    requires RestsAt(handlers, endstates) && endstates != []
    requires "LOOKING" !in handlers && "LOOKING" !in endstates
    requires fuel >= 30
    ensures RunOutcome(handlers, Some("RESTING"), endstates, NewCargo(99), fuel) == KeyError("LOOKING", Cargo(69, 0, false))
  {
    FlyFromNinetyNine(handlers, endstates, fuel);
  }

  /** An example machine that exercises case folding and re-registration:
      names are given in mixed case, `resting` is registered twice, and the
      end state's handler is never called. */
  method BuildFlyMachine() returns (m: StateMachine<Cargo>)
    ensures fresh(m) && m.Valid()
    ensures m.handlers.Keys == {"RESTING", "EATING", "DEAD"}
    ensures m.handlers["RESTING"] == Resting && m.handlers["EATING"] == Eating
    ensures m.startstate == Some("RESTING") && m.endstates == ["DEAD"]
  {
    Spellings();
    m := new StateMachine<Cargo>();
    m.AddState("Resting", Eating);
    m.AddState("resting", Resting);  // replaces the handler registered just above
    m.AddState("eating", Eating);
    m.AddState("Dead", c => ("dead", c), true);
    m.SetStart("RESTING");
  }

  /** Nothing registers `looking`, so in that machine the 30th call of the
      resting handler ends the run from energy 99 with a key error. */
  method RegisterAndRun() returns (o: Outcome<Cargo>)
    ensures o == KeyError("LOOKING", Cargo(69, 0, false))
  {
    var m := BuildFlyMachine();
    LookingIsMissing(m.handlers, m.endstates, 30);
    o := m.Run(NewCargo(99), 30);
  }
}
