/** The fly simulation's cargo and its two live handlers. In the original the
    handlers change the cargo object's fields in place and hand the same
    object back; here they return the updated value. */
module Fly {

  /** The fly's energy, the food left on the skin, and whether the human
      hits the fly (the `hit_by_human` predicate, which always answers false
      unless it is replaced on the object). */
  datatype Cargo = Cargo(energy: int, food: int, hit: bool)

  /** Below this much energy the fly is hungry. */
  const HungryBelow: int := 70

  /** A fresh cargo: the given energy, no food, not hit. */
  function NewCargo(energy: int): (c: Cargo)
    ensures c.energy == energy && c.food == 0 && !c.hit
  {
    Cargo(energy, 0, false)
  }

  /** Neither handler changes whether the fly is hit: only replacing
      `hit_by_human` on the object, as the tests do, makes it answer true. */
  lemma HandlersKeepHit(c: Cargo, e: int)
    ensures Resting(c).1.hit == c.hit
    ensures Eating(c).1.hit == c.hit
    ensures !Resting(NewCargo(e)).1.hit && !Eating(NewCargo(e)).1.hit
  {
  }

  /** Resting costs one unit of energy; the fly starts looking for food
      once its energy has dropped below 70. */
  function Resting(c: Cargo): (r: (string, Cargo))
    ensures r.1 == c.(energy := c.energy - 1)
    ensures r.0 == "looking" <==> c.energy - 1 < HungryBelow
    ensures r.0 == "resting" <==> c.energy - 1 >= HungryBelow
  {
    var c' := c.(energy := c.energy - 1);
    if c'.energy < HungryBelow then ("looking", c') else ("resting", c')
  }

  /** Eating gains five units of energy and uses up five units of food;
      the fly dies if the human hits it, and rests otherwise. */
  function Eating(c: Cargo): (r: (string, Cargo))
    ensures r.1 == c.(energy := c.energy + 5, food := c.food - 5)
    ensures r.0 == "dead" <==> c.hit
    ensures r.0 == "resting" <==> !c.hit
  {
    var c' := c.(energy := c.energy + 5, food := c.food - 5);
    if c'.hit then ("dead", c') else ("resting", c')
  }

  /** The cargo after `k` calls of `Resting`. */
  function RestingTimes(c: Cargo, k: nat): (r: Cargo)
    ensures r.energy == c.energy - k && r.food == c.food && r.hit == c.hit
  {
    if k == 0 then c else Resting(RestingTimes(c, k - 1)).1
  }

  /** The unit tests of the resting state. */
  lemma RestingTests()
    ensures Resting(NewCargo(80)).0 == "resting"
    ensures Resting(NewCargo(60)).0 == "looking"
    ensures Resting(NewCargo(99)).1.energy == 98
  {
  }

  /** The unit tests of the eating state: a fly that is not hit rests (its
      `full` predicate is never consulted), a fly that is hit dies, and the
      energy and food change by five. */
  lemma EatingTests()
    ensures Eating(NewCargo(100)).0 == "resting"
    ensures Eating(NewCargo(100).(hit := true)).0 == "dead"
    ensures Eating(NewCargo(100).(energy := 60)).1.energy == 65
    ensures Eating(NewCargo(100).(food := 65)).1.food == 60
  {
  }

  /** From energy 99 the fly rests 29 times and starts looking on the 30th
      call, when its energy reaches 69. */
  lemma RestingFromNinetyNine()
    ensures forall k :: 0 <= k < 29 ==> Resting(RestingTimes(NewCargo(99), k)).0 == "resting"
    ensures Resting(RestingTimes(NewCargo(99), 29)) == ("looking", Cargo(69, 0, false))
  {
  }
}
