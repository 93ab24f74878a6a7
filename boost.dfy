/**
 * The boost effect of src/components/world.tsx and the part of the physics
 * world it touches: the world's set of bodies.
 *
 * While boost is on, every tick pushes the rocket forward; every 15th tick a
 * smoke body is created behind the rocket, put at the front of the effect's
 * smoke queue and added to the world, and when the queue then holds five
 * smokes the oldest is popped and removed from the world.  Turning boost off
 * removes every smoke still queued from the world.
 *
 * `BoostStep` is the specification of one tick on plain values; the class
 * `BoostEffect` does the same step by step on a shared `PhysicsWorld` and is
 * proved to agree with it.  The heading (a sine and a cosine of the rocket's
 * angle) and the rocket's position are inputs.
 */
module Boost {
  import opened Vectors

  /** Bodies are known by their engine-assigned ids. */
  type BodyId = nat

  // ------------------------------------------------------------ world

  /**
   * The physics world's body set, with the engine's counter for new body
   * ids.  `Add` and `Remove` are the world's insert and delete.
   */
  class PhysicsWorld {
    var bodies: set<BodyId>
    var nextId: BodyId

    /** Every body in the world was created before the counter's value. */
    ghost predicate Valid()
      reads this
    {
      forall b :: b in bodies ==> b < nextId
    }

    constructor ()
      ensures Valid() && bodies == {} && nextId == 0
    {
      bodies := {};
      nextId := 0;
    }

    /** A new body: it gets the next id and is not yet in the world. */
    method CreateBody() returns (id: BodyId)
      requires Valid()
      modifies this
      ensures Valid()
      ensures id == old(nextId) && nextId == old(nextId) + 1 && bodies == old(bodies)
      ensures id !in bodies
    {
      id := nextId;
      nextId := nextId + 1;
    }

    method Add(id: BodyId)
      requires Valid() && id < nextId
      modifies this
      ensures Valid()
      ensures bodies == old(bodies) + {id} && nextId == old(nextId)
    {
      bodies := bodies + {id};
    }

    method Remove(id: BodyId)
      requires Valid()
      modifies this
      ensures Valid()
      ensures bodies == old(bodies) - {id} && nextId == old(nextId)
    {
      bodies := bodies - {id};
    }
  }

  // ------------------------------------------------- specification

  /** A smoke is spawned on every 15th tick. */
  const SpawnPeriod: nat := 15

  /** The queue length at which the oldest smoke is evicted. */
  const SmokeCap: nat := 5

  /**
   * What one tick reads and changes: the frame counter, the smoke queue
   * (newest first), the world's bodies and id counter, and every smoke this
   * effect has ever created (`spawned`, bookkeeping for the proofs).
   */
  datatype BoostState = BoostState(
    frameCounter: nat,
    smokes: seq<BodyId>,
    world: set<BodyId>,
    nextId: nat,
    spawned: set<BodyId>)

  /** The state right after the effect is switched on in a world. */
  function Start(world: set<BodyId>, nextId: nat): BoostState
  {
    BoostState(0, [], world, nextId, {})
  }

  function Members(q: seq<BodyId>): set<BodyId>
  {
    set b | b in q
  }

  /** One tick of the boost handler, as the source does it. */
  function BoostStep(s: BoostState): BoostState
  {
    var counter := s.frameCounter + 1;
    if counter != SpawnPeriod then s.(frameCounter := counter)
    else
      var smoke := s.nextId;
      var queue := [smoke] + s.smokes;
      var world := s.world + {smoke};
      var spawned := s.spawned + {smoke};
      if |queue| == SmokeCap then
        BoostState(0, queue[..SmokeCap - 1], world - {queue[SmokeCap - 1]}, smoke + 1, spawned)
      else
        BoostState(0, queue, world, smoke + 1, spawned)
  }

  /** `n` ticks in a row. */
  function Steps(s: BoostState, n: nat): BoostState
    decreases n
  {
    if n == 0 then s else BoostStep(Steps(s, n - 1))
  }

  /** Turning boost off: every queued smoke leaves the world (the queue itself is kept). */
  function DisableWorld(s: BoostState): set<BodyId>
  {
    s.world - Members(s.smokes)
  }

  /** Newest first: ids strictly decrease along the queue. */
  ghost predicate Ordered(q: seq<BodyId>)
  {
    forall i, j :: 0 <= i < j < |q| ==> q[j] < q[i]
  }

  /** Every queued smoke is in the world and was spawned by this effect. */
  ghost predicate Queued(s: BoostState)
  {
    forall i :: 0 <= i < |s.smokes| ==> s.smokes[i] in s.world && s.smokes[i] in s.spawned
  }

  /** Every body, and every spawned smoke, has an id below the world's counter. */
  ghost predicate Below(s: BoostState)
  {
    (forall b :: b in s.world ==> b < s.nextId) &&
    (forall b :: b in s.spawned ==> b < s.nextId)
  }

  /** A spawned smoke that is still in the world is queued. */
  ghost predicate Tracked(s: BoostState)
  {
    forall b :: b in s.spawned && b in s.world ==> b in s.smokes
  }

  /**
   * What holds between ticks: the counter is in [0, 14]; at most four smokes
   * are queued, newest (highest id) first; every queued smoke is in the world
   * and was spawned here; and every smoke spawned here that is still in the
   * world is queued.
   */
  ghost predicate Inv(s: BoostState)
  {
    s.frameCounter < SpawnPeriod && |s.smokes| < SmokeCap &&
    Ordered(s.smokes) && Queued(s) && Below(s) && Tracked(s)
  }

  lemma StartInv(world: set<BodyId>, nextId: nat)
    requires forall b :: b in world ==> b < nextId
    ensures Inv(Start(world, nextId))
  {
  }

  /** Putting an id above every queued one at the front keeps the queue ordered. */
  lemma OrderedPush(q: seq<BodyId>, x: BodyId)
    requires Ordered(q) && forall i :: 0 <= i < |q| ==> q[i] < x
    ensures Ordered([x] + q)
  {
    var r := [x] + q;
    forall i, j | 0 <= i < j < |r|
      ensures r[j] < r[i]
    {
      assert r[j] == q[j - 1];
      if i > 0 {
        assert r[i] == q[i - 1];
      }
    }
  }

  /** The spawn tick keeps the invariant. */
  lemma SpawnKeepsInv(s: BoostState)
    requires Inv(s) && s.frameCounter + 1 == SpawnPeriod
    ensures Inv(BoostStep(s))
  {
    var t := BoostStep(s);
    var smoke := s.nextId;
    var queue := [smoke] + s.smokes;
    OrderedPush(s.smokes, smoke);
    assert smoke !in s.world && smoke !in s.spawned;
    if |queue| == SmokeCap {
      var oldest := queue[SmokeCap - 1];
      assert t.smokes == queue[..SmokeCap - 1];
      assert t.world == (s.world + {smoke}) - {oldest};
      assert Ordered(t.smokes);
      forall i | 0 <= i < |t.smokes|
        ensures t.smokes[i] in t.world && t.smokes[i] in t.spawned
      {
        assert t.smokes[i] == queue[i];
        assert queue[i] != oldest;
      }
      forall b | b in t.spawned && b in t.world
        ensures b in t.smokes
      {
        if b != smoke {
          var k :| 0 <= k < |s.smokes| && s.smokes[k] == b;
          assert queue[k + 1] == b;
          assert k + 1 != SmokeCap - 1;
          assert t.smokes[k + 1] == b;
        } else {
          assert t.smokes[0] == b;
        }
      }
    } else {
      assert t.smokes == queue;
      forall i | 0 <= i < |t.smokes|
        ensures t.smokes[i] in t.world && t.smokes[i] in t.spawned
      {
        if i > 0 {
          assert t.smokes[i] == s.smokes[i - 1];
        }
      }
      forall b | b in t.spawned && b in t.world
        ensures b in t.smokes
      {
        if b != smoke {
          var k :| 0 <= k < |s.smokes| && s.smokes[k] == b;
          assert t.smokes[k + 1] == b;
        } else {
          assert t.smokes[0] == b;
        }
      }
    }
  }

  /** Every tick keeps the invariant: in particular the queue never holds more than four smokes. */
  lemma StepKeepsInv(s: BoostState)
    requires Inv(s)
    ensures Inv(BoostStep(s))
  {
    if s.frameCounter + 1 == SpawnPeriod {
      SpawnKeepsInv(s);
    }
  }

  /**
   * The frame counter: it counts up on every tick and a smoke is spawned
   * exactly on the tick where it reaches 15, when it goes back to 0.
   */
  lemma StepCounter(s: BoostState)
    requires Inv(s)
    ensures BoostStep(s).frameCounter == (s.frameCounter + 1) % SpawnPeriod
    ensures BoostStep(s).nextId == s.nextId + (if s.frameCounter == SpawnPeriod - 1 then 1 else 0)
    ensures s.frameCounter != SpawnPeriod - 1 ==> BoostStep(s) == s.(frameCounter := s.frameCounter + 1)
  {
  }

  /**
   * A spawn tick: the new smoke (the next id) goes to the front of the queue
   * and into the world; if the queue then holds five, the oldest is dropped
   * from both.  No other body of the world changes.
   */
  lemma SpawnTick(s: BoostState)
    requires Inv(s) && s.frameCounter == SpawnPeriod - 1
    ensures var t := BoostStep(s);
      t.smokes[0] == s.nextId && s.nextId !in s.world && s.nextId in t.world &&
      (|s.smokes| < SmokeCap - 1 ==> t.smokes == [s.nextId] + s.smokes && t.world == s.world + {s.nextId}) &&
      (|s.smokes| == SmokeCap - 1 ==>
        t.smokes == [s.nextId] + s.smokes[..SmokeCap - 2] &&
        s.smokes[SmokeCap - 2] !in t.world &&
        t.world == (s.world + {s.nextId}) - {s.smokes[SmokeCap - 2]})
    ensures var t := BoostStep(s);
      forall b :: b != s.nextId && b !in s.smokes ==> (b in t.world <==> b in s.world)
  {
    var t := BoostStep(s);
    var queue := [s.nextId] + s.smokes;
    if |s.smokes| == SmokeCap - 1 {
      assert queue[..SmokeCap - 1] == [s.nextId] + s.smokes[..SmokeCap - 2];
      assert queue[SmokeCap - 1] == s.smokes[SmokeCap - 2];
    }
  }

  /** Several ticks keep the invariant. */
  lemma {:induction false} StepsKeepInv(s: BoostState, n: nat)
    requires Inv(s)
    ensures Inv(Steps(s, n))
    decreases n
  {
    if n > 0 {
      StepsKeepInv(s, n - 1);
      StepKeepsInv(Steps(s, n - 1));
    }
  }

  /**
   * Spawn rate: after n ticks the counter is (c + n) mod 15 and exactly
   * (c + n) div 15 smokes have been created, c being the counter at the start.
   */
  lemma {:induction false} StepsCount(s: BoostState, n: nat)
    requires Inv(s)
    ensures Steps(s, n).frameCounter == (s.frameCounter + n) % SpawnPeriod
    ensures Steps(s, n).nextId == s.nextId + (s.frameCounter + n) / SpawnPeriod
    decreases n
  {
    if n > 0 {
      StepsCount(s, n - 1);
      StepsKeepInv(s, n - 1);
      StepCounter(Steps(s, n - 1));
      var m := s.frameCounter + n - 1;
      if m % SpawnPeriod == SpawnPeriod - 1 {
        assert (m + 1) % SpawnPeriod == 0 && (m + 1) / SpawnPeriod == m / SpawnPeriod + 1;
      } else {
        assert (m + 1) % SpawnPeriod == m % SpawnPeriod + 1 && (m + 1) / SpawnPeriod == m / SpawnPeriod;
      }
    }
  }

  /**
   * Fifteen ticks after boost is switched on exactly one smoke exists: it is
   * the only one queued and it is in the world.
   */
  lemma FifteenTicks(world: set<BodyId>, nextId: nat)
    requires forall b :: b in world ==> b < nextId
    ensures var t := Steps(Start(world, nextId), SpawnPeriod);
      t.smokes == [nextId] && t.world == world + {nextId} && t.nextId == nextId + 1 && t.frameCounter == 0
  {
    var s := Start(world, nextId);
    StartInv(world, nextId);
    StepsCount(s, SpawnPeriod - 1);
    var q := Steps(s, SpawnPeriod - 1);
    assert q.nextId == nextId;
    QuietSteps(s, SpawnPeriod - 1);
  }

  /** Ticks before the counter reaches 15 change nothing but the counter. */
  lemma {:induction false} QuietSteps(s: BoostState, n: nat)
    requires s.frameCounter + n < SpawnPeriod
    ensures Steps(s, n) == s.(frameCounter := s.frameCounter + n)
    decreases n
  {
    if n > 0 {
      QuietSteps(s, n - 1);
    }
  }

  /**
   * Turning boost off leaves none of this effect's smokes in the world, and
   * every body that is not one of them is left as it was.
   */
  lemma DisableLeavesNoSmoke(s: BoostState)
    requires Inv(s)
    ensures forall b :: b in s.spawned ==> b !in DisableWorld(s)
    ensures forall b :: b !in s.spawned ==> (b in DisableWorld(s) <==> b in s.world)
  {
  }

  // ------------------------------------------------------------ forces

  /** A force applied to one body. */
  datatype Push = Push(body: BodyId, force: Vec)

  /** The forward force on the rocket: the heading scaled by 0.2 * (power + 1). */
  function Thrust(power: int, heading: Vec): Vec
  {
    Scale(heading, 0.2 * (power as real + 1.0))
  }

  /** The drift force on a smoke: the heading divided by -100. */
  function Drift(heading: Vec): Vec
  {
    Div(heading, -100.0)
  }

  /** Where a new smoke appears: 90 behind the rocket along the heading. */
  function SmokeOrigin(origin: Vec, heading: Vec): Vec
  {
    Vec(origin.x - 90.0 * heading.x, origin.y - 90.0 * heading.y)
  }

  /** The drift pushes of a tick: one per queued smoke after a spawn, none otherwise. */
  function TickPushes(s: BoostState, heading: Vec): (r: seq<Push>)
    ensures s.frameCounter + 1 != SpawnPeriod ==> r == []
    ensures s.frameCounter + 1 == SpawnPeriod ==>
      |r| == |BoostStep(s).smokes| &&
      forall i :: 0 <= i < |r| ==> r[i] == Push(BoostStep(s).smokes[i], Drift(heading))
  {
    if s.frameCounter + 1 != SpawnPeriod then []
    else
      var q := BoostStep(s).smokes;
      seq(|q|, i requires 0 <= i < |q| => Push(q[i], Drift(heading)))
  }

  /**
   * With a unit heading the thrust has strength 0.2 * (power + 1) (0.4 at
   * power 1), the drift 1/100, and a new smoke starts 90 behind the rocket.
   */
  lemma ForceStrengths(power: int, heading: Vec, origin: Vec)
    requires Norm2(heading) == 1.0
    ensures Norm2(Thrust(power, heading)) == (0.2 * (power as real + 1.0)) * (0.2 * (power as real + 1.0))
    ensures power == 1 ==> Norm2(Thrust(power, heading)) == 0.4 * 0.4
    ensures Norm2(Drift(heading)) == 0.0001
    ensures Dist2(SmokeOrigin(origin, heading), origin) == 8100.0
  {
    var k := 0.2 * (power as real + 1.0);
    ScaleNorm(heading, k);
    ScaleNorm(heading, -0.01);
    assert Drift(heading) == Scale(heading, -0.01);
    ScaleNorm(heading, -90.0);
    assert Sub(SmokeOrigin(origin, heading), origin) == Scale(heading, -90.0);
  }

  /** The drift push for every queued smoke, in queue order. */
  method DriftPushes(queue: seq<BodyId>, heading: Vec) returns (pushes: seq<Push>)
    ensures |pushes| == |queue|
    ensures forall i :: 0 <= i < |queue| ==> pushes[i] == Push(queue[i], Drift(heading))
  {
    pushes := [];
    var i := 0;
    while i < |queue|
      invariant 0 <= i <= |queue|
      invariant |pushes| == i
      invariant forall j :: 0 <= j < i ==> pushes[j] == Push(queue[j], Drift(heading))
    {
      pushes := pushes + [Push(queue[i], Drift(heading))];
      i := i + 1;
    }
  }

  // ------------------------------------------------------------ effect

  /**
   * One enabled boost effect: its own counter and smoke queue, and the world
   * it adds smokes to.  Constructing it is switching boost on; `Disable` is
   * switching it off.
   */
  class BoostEffect {
    const world: PhysicsWorld
    var frameCounter: nat
    var smokes: seq<BodyId>
    var attached: bool
    ghost var spawned: set<BodyId>

    ghost function State(): BoostState
      reads this, world
    {
      BoostState(frameCounter, smokes, world.bodies, world.nextId, spawned)
    }

    ghost predicate Valid()
      reads this, world
    {
      world.Valid() && Inv(State())
    }

    /** Switching boost on: an empty queue, the counter at 0, the handler attached. */
    constructor (w: PhysicsWorld)
      requires w.Valid()
      ensures world == w && attached && Valid()
      ensures State() == Start(w.bodies, w.nextId)
    {
      world := w;
      frameCounter := 0;
      smokes := [];
      attached := true;
      spawned := {};
    }

    /**
     * One tick: returns the force put on the rocket, where a smoke was
     * spawned (if one was) and the drift pushes put on the queued smokes.
     */
    method Tick(power: int, origin: Vec, heading: Vec) returns (thrust: Vec, spawnedAt: Vec, pushes: seq<Push>)
      requires Valid() && attached
      modifies this, world
      ensures Valid() && attached
      ensures State() == BoostStep(old(State()))
      ensures thrust == Thrust(power, heading)
      ensures old(frameCounter) + 1 == SpawnPeriod ==> spawnedAt == SmokeOrigin(origin, heading)
      ensures pushes == TickPushes(old(State()), heading)
    {
      StepKeepsInv(State());
      thrust := Thrust(power, heading);
      spawnedAt := origin;
      pushes := [];
      if frameCounter + 1 == SpawnPeriod {
        SpawnSmoke();
        spawnedAt := SmokeOrigin(origin, heading);
        pushes := DriftPushes(smokes, heading);
      } else {
        frameCounter := frameCounter + 1;
      }
    }

    /**
     * The spawn tick's bookkeeping: a new smoke at the front of the queue and
     * in the world, the oldest evicted when five are queued, the counter reset.
     */
    method SpawnSmoke()
      requires Valid() && frameCounter + 1 == SpawnPeriod
      modifies this, world
      ensures State() == BoostStep(old(State())) && attached == old(attached)
    {
      frameCounter := 0;
      var smoke := world.CreateBody();
      smokes := [smoke] + smokes;
      spawned := spawned + {smoke};
      world.Add(smoke);
      if |smokes| == SmokeCap {
        var oldest := smokes[|smokes| - 1];
        smokes := smokes[..|smokes| - 1];
        world.Remove(oldest);
      }
    }

    /** Switching boost off: the handler is detached and every queued smoke is removed from the world. */
    method Disable()
      requires Valid() && attached
      modifies this`attached, world
      ensures !attached && world.Valid()
      ensures world.bodies == DisableWorld(old(State())) && world.nextId == old(world.nextId)
      ensures smokes == old(smokes)
    {
      var i := 0;
      while i < |smokes|
        invariant 0 <= i <= |smokes|
        invariant world.Valid() && world.nextId == old(world.nextId)
        invariant world.bodies == old(world.bodies) - Members(smokes[..i])
      {
        assert Members(smokes[..i + 1]) == Members(smokes[..i]) + {smokes[i]};
        world.Remove(smokes[i]);
        i := i + 1;
      }
      assert smokes[..i] == smokes;
      attached := false;
    }
  }
}
