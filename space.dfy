/**
 * World generation (src/lib/space.ts): the render size, the gravity wells
 * Moon and Earth, the rocket's start pose, rejection sampling of asteroid
 * positions, the ten random asteroids and the four corner decorations.
 *
 * `Math.random()` is replaced by a caller-supplied stream of draws: each
 * draw is the pair of factors one call of `makeRandomPos` takes for x and y.
 * The source retries forever; the model stops when the stream runs out and
 * then answers `None`.
 */
module Space {
  import opened Vectors
  import opened Wrappers

  const Width: real := 4000.0
  const Height: real := 4000.0

  const AsteroidRadius: real := 100.0

  /** An asteroid may not be placed closer than three radii (300) to a fixed body. */
  const MinSeparation: real := 3.0 * AsteroidRadius

  /** Distance from each side of the world inside which no asteroid is sampled. */
  const SampleMargin: real := 125.0

  /** Inset of each corner decoration from the two nearest sides. */
  const CornerInset: real := 71.0

  /** The rocket's start position (its centre when the scene is built). */
  const DoggoStart := Vec(1200.0, 3000.0)

  const AsteroidImages: seq<string> := [
    "images/space/asteroid-1-r.png",
    "images/space/asteroid-2-r.svg",
    "images/space/asteroid-3-r.svg",
    "images/space/asteroid-4-r.svg",
    "images/space/earth-resized.png"
  ]

  /** A circular body as the scene builds it: centre, radius, sprite, static flag. */
  datatype Circle = Circle(center: Vec, radius: real, texture: Option<string>, isStatic: bool)

  /** The optional settings of `generateAsteroid`; an absent field is `None`. */
  datatype AsteroidOptions = AsteroidOptions(isStatic: Option<bool>, pos: Option<Vec>)

  /** The settings used when the caller passes none. */
  const DefaultOptions := AsteroidOptions(Some(false), None)

  /** Two factors in [0, 1), as two calls of `Math.random()` return them. */
  datatype Draw = Draw(u: real, v: real)

  predicate InUnit(d: Draw) { 0.0 <= d.u < 1.0 && 0.0 <= d.v < 1.0 }

  /** The sprite of asteroid number `num`; JavaScript's out-of-range read gives `None`. */
  function Texture(num: int): (t: Option<string>)
    ensures t.Some? <==> 1 <= num <= |AsteroidImages|
  {
    if 1 <= num <= |AsteroidImages| then Some(AsteroidImages[num - 1]) else None
  }

  /** The body `generateAsteroid` builds once it has a position. */
  function AsteroidAt(num: int, center: Vec, isStatic: Option<bool>): Circle
  {
    Circle(center, AsteroidRadius, Texture(num), isStatic == Some(true))
  }

  const MoonOptions := AsteroidOptions(Some(true), Some(Vec(3000.0, 1000.0)))
  const EarthOptions := AsteroidOptions(Some(true), Some(Vec(1000.0, 3000.0)))

  const Moon: Circle := AsteroidAt(4, Vec(3000.0, 1000.0), Some(true))
  const Earth: Circle := AsteroidAt(5, Vec(1000.0, 3000.0), Some(true))

  /** The bodies a sampled asteroid must keep away from, in the order they are checked. */
  const FixedBodies: seq<Vec> := [DoggoStart, Moon.center, Earth.center]

  /** The point a draw selects in the box [min, max]. */
  function Sample(min: Vec, max: Vec, d: Draw): Vec
  {
    Vec(min.x + d.u * (max.x - min.x), min.y + d.v * (max.y - min.y))
  }

  /**
   * The `for ... of` check: true when `pos` is at least the minimum separation
   * from every body in `objs` (the source compares |obj - pos| < 300; the
   * model compares the squares).
   */
  function FarFromAll(objs: seq<Vec>, pos: Vec): (ok: bool)
    ensures ok <==> forall i :: 0 <= i < |objs| ==> Dist2(objs[i], pos) >= MinSeparation * MinSeparation
  {
    if objs == [] then true
    else if Dist2(objs[0], pos) < MinSeparation * MinSeparation then false
    else FarFromAll(objs[1..], pos)
  }

  predicate Accepted(pos: Vec) { FarFromAll(FixedBodies, pos) }

  /** An accepted point is at least 300 (squared: 90000) from each fixed body. */
  lemma AcceptedClear(pos: Vec)
    ensures Accepted(pos) <==>
      Dist2(DoggoStart, pos) >= 90000.0 &&
      Dist2(Moon.center, pos) >= 90000.0 &&
      Dist2(Earth.center, pos) >= 90000.0
  {
    assert MinSeparation * MinSeparation == 90000.0;
    assert FixedBodies[0] == DoggoStart && FixedBodies[1] == Moon.center && FixedBodies[2] == Earth.center;
  }

  /**
   * Rejection sampling: the first draw whose point is far enough from the
   * rocket, the Moon and the Earth, together with the draws left after it
   * (`MakeRandomPosFirstAccepted` states what it picks).
   */
  function MakeRandomPos(min: Vec, max: Vec, draws: seq<Draw>): (r: Option<(Vec, seq<Draw>)>)
    ensures r.Some? ==> |r.value.1| < |draws|
    decreases |draws|
  {
    if draws == [] then None
    else
      var pos := Sample(min, max, draws[0]);
      if !Accepted(pos) then MakeRandomPos(min, max, draws[1..])
      else Some((pos, draws[1..]))
  }

  /**
   * The sampled point comes from the first draw whose point is accepted, every
   * earlier draw was rejected, and the rest of the stream starts right after
   * it; there is no point exactly when every draw is rejected.
   */
  lemma {:induction false} MakeRandomPosFirstAccepted(min: Vec, max: Vec, draws: seq<Draw>)
    ensures var r := MakeRandomPos(min, max, draws);
      r.Some? ==>
        var k := |draws| - |r.value.1| - 1;
        0 <= k < |draws| && r.value.1 == draws[k + 1..] &&
        r.value.0 == Sample(min, max, draws[k]) && Accepted(r.value.0) &&
        forall j :: 0 <= j < k ==> !Accepted(Sample(min, max, draws[j]))
    ensures MakeRandomPos(min, max, draws).None? <==> forall j :: 0 <= j < |draws| ==> !Accepted(Sample(min, max, draws[j]))
    decreases |draws|
  {
    if draws != [] && !Accepted(Sample(min, max, draws[0])) {
      MakeRandomPosFirstAccepted(min, max, draws[1..]);
      assert forall j :: 1 <= j < |draws| ==> draws[j] == draws[1..][j - 1];
    }
  }

  /** A point selected by an in-range draw lies in the asteroid box [125, 3875)^2. */
  lemma SampleInBox(d: Draw)
    requires InUnit(d)
    ensures SampleMin.x <= Sample(SampleMin, SampleMax, d).x < SampleMax.x
    ensures SampleMin.y <= Sample(SampleMin, SampleMax, d).y < SampleMax.y
  {
  }

  const SampleMin := Vec(SampleMargin, SampleMargin)
  const SampleMax := Vec(Width - SampleMargin, Height - SampleMargin)

  /**
   * `generateAsteroid`: an explicit position is used as given and consumes no
   * draw; otherwise the position is sampled in [125, 3875]^2.
   */
  function GenerateAsteroid(num: int, options: AsteroidOptions, draws: seq<Draw>): (r: Option<(Circle, seq<Draw>)>)
    ensures options.pos.Some? ==> r == Some((AsteroidAt(num, options.pos.value, options.isStatic), draws))
    ensures options.pos.None? ==>
      match MakeRandomPos(SampleMin, SampleMax, draws)
      case None => r.None?
      case Some((p, rest)) => r == Some((AsteroidAt(num, p, options.isStatic), rest))
  {
    match options.pos
    case Some(p) => Some((AsteroidAt(num, p, options.isStatic), draws))
    case None =>
      match MakeRandomPos(SampleMin, SampleMax, draws)
      case None => None
      case Some((p, rest)) => Some((AsteroidAt(num, p, options.isStatic), rest))
  }

  /**
   * An asteroid sampled with the default settings is a good one, and the
   * draws left over are a suffix of the stream (so still in range).
   */
  lemma SampledAsteroid(draws: seq<Draw>)
    requires forall i :: 0 <= i < |draws| ==> InUnit(draws[i])
    ensures var r := GenerateAsteroid(1, DefaultOptions, draws);
      r.Some? ==>
        GoodAsteroid(r.value.0) && |r.value.1| < |draws| &&
        forall i :: 0 <= i < |r.value.1| ==> InUnit(r.value.1[i])
  {
    MakeRandomPosFirstAccepted(SampleMin, SampleMax, draws);
    var r := MakeRandomPos(SampleMin, SampleMax, draws);
    if r.Some? {
      var k := |draws| - |r.value.1| - 1;
      SampleInBox(draws[k]);
      assert forall i :: 0 <= i < |r.value.1| ==> r.value.1[i] == draws[k + 1 + i];
    }
  }

  /** The Moon and the Earth are the asteroids generated at their fixed positions. */
  lemma WellsAreGenerated(draws: seq<Draw>)
    ensures GenerateAsteroid(4, MoonOptions, draws) == Some((Moon, draws))
    ensures GenerateAsteroid(5, EarthOptions, draws) == Some((Earth, draws))
    ensures Moon.isStatic && Moon.center == Vec(3000.0, 1000.0) && Moon.radius == 100.0
    ensures Earth.isStatic && Earth.center == Vec(1000.0, 3000.0) && Earth.radius == 100.0
  {
  }

  /**
   * The accepted points of the stream, in order: the first accepted sample,
   * then the accepted points of the draws after it (the positions a run of
   * default-option asteroids takes one after another).
   */
  function AcceptedPoints(draws: seq<Draw>): (pts: seq<Vec>)
    ensures pts == [] <==> MakeRandomPos(SampleMin, SampleMax, draws).None?
    decreases |draws|
  {
    match MakeRandomPos(SampleMin, SampleMax, draws)
    case None => []
    case Some((p, rest)) => [p] + AcceptedPoints(rest)
  }

  /**
   * The same points read straight off the stream: the sample of every draw,
   * in order, keeping those that are accepted.
   */
  function AcceptedSamples(draws: seq<Draw>): seq<Vec>
    decreases |draws|
  {
    if draws == [] then []
    else
      var p := Sample(SampleMin, SampleMax, draws[0]);
      (if Accepted(p) then [p] else []) + AcceptedSamples(draws[1..])
  }

  /** Repeated rejection sampling visits exactly the accepted samples of the stream, in order. */
  lemma {:induction false} AcceptedPointsAreSamples(draws: seq<Draw>)
    ensures AcceptedPoints(draws) == AcceptedSamples(draws)
    decreases |draws|
  {
    if draws != [] {
      AcceptedPointsAreSamples(draws[1..]);
      var p := Sample(SampleMin, SampleMax, draws[0]);
      if Accepted(p) {
        assert MakeRandomPos(SampleMin, SampleMax, draws) == Some((p, draws[1..]));
      } else {
        assert MakeRandomPos(SampleMin, SampleMax, draws) == MakeRandomPos(SampleMin, SampleMax, draws[1..]);
      }
    }
  }

  /**
   * `n` asteroids generated one after another with the default settings,
   * each taking its draws from where the previous one stopped.
   */
  function GenerateAsteroids(n: nat, draws: seq<Draw>): (r: Option<(seq<Circle>, seq<Draw>)>)
    ensures r.Some? ==> |r.value.0| == n && |r.value.1| <= |draws|
    decreases n
  {
    if n == 0 then Some(([], draws))
    else
      match GenerateAsteroid(1, DefaultOptions, draws)
      case None => None
      case Some((a, rest)) =>
        match GenerateAsteroids(n - 1, rest)
        case None => None
        case Some((more, left)) => Some(([a] + more, left))
  }

  /** One step of the generation loop: the first asteroid takes the first sampled point, then n - 1 follow. */
  lemma GenerateAsteroidsStep(n: nat, draws: seq<Draw>)
    requires n > 0
    ensures var s := MakeRandomPos(SampleMin, SampleMax, draws);
      (s.None? ==> GenerateAsteroids(n, draws).None?) &&
      (s.Some? ==>
        var more := GenerateAsteroids(n - 1, s.value.1);
        (more.None? ==> GenerateAsteroids(n, draws).None?) &&
        (more.Some? ==>
          GenerateAsteroids(n, draws) == Some(([AsteroidAt(1, s.value.0, Some(false))] + more.value.0, more.value.1))))
  {
  }

  /** Sampling moves the stream on by exactly one accepted point. */
  lemma AcceptedPointsStep(draws: seq<Draw>)
    requires MakeRandomPos(SampleMin, SampleMax, draws).Some?
    ensures var s := MakeRandomPos(SampleMin, SampleMax, draws).value;
      AcceptedPoints(draws) == [s.0] + AcceptedPoints(s.1)
  {
  }

  /** The induction step of `GenerateAsteroidsSucceeds`: one sampling, then m = n - 1 more asteroids. */
  lemma GenerateAsteroidsSucceedsStep(n: nat, draws: seq<Draw>, m: nat, rest: seq<Draw>)
    requires m == n - 1
    requires MakeRandomPos(SampleMin, SampleMax, draws).Some? && rest == MakeRandomPos(SampleMin, SampleMax, draws).value.1
    requires GenerateAsteroids(m, rest).Some? <==> m <= |AcceptedPoints(rest)|
    ensures GenerateAsteroids(n, draws).Some? <==> n <= |AcceptedPoints(draws)|
  {
    GenerateAsteroidsStep(n, draws);
    AcceptedPointsStep(draws);
  }

  /** Generation of n asteroids fails iff the stream holds fewer than n accepted points. */
  lemma {:induction false} GenerateAsteroidsSucceeds(n: nat, draws: seq<Draw>)
    ensures GenerateAsteroids(n, draws).Some? <==> n <= |AcceptedPoints(draws)|
    decreases n
  {
    if n > 0 {
      var m: nat := n - 1;
      GenerateAsteroidsStep(n, draws);
      if MakeRandomPos(SampleMin, SampleMax, draws).Some? {
        var rest := MakeRandomPos(SampleMin, SampleMax, draws).value.1;
        GenerateAsteroidsSucceeds(m, rest);
        GenerateAsteroidsSucceedsStep(n, draws, m, rest);
      }
    }
  }

  /** The first step of a run: the first asteroid takes the first accepted point, the rest follow. */
  lemma GenerateAsteroidsCons(n: nat, draws: seq<Draw>, m: nat, rest: seq<Draw>)
    requires m == n - 1
    requires MakeRandomPos(SampleMin, SampleMax, draws).Some? && rest == MakeRandomPos(SampleMin, SampleMax, draws).value.1
    requires GenerateAsteroids(m, rest).Some?
    ensures GenerateAsteroids(n, draws).Some?
    ensures GenerateAsteroids(n, draws).value.0 ==
      [AsteroidAt(1, MakeRandomPos(SampleMin, SampleMax, draws).value.0, Some(false))] + GenerateAsteroids(m, rest).value.0
    ensures GenerateAsteroids(n, draws).value.1 == GenerateAsteroids(m, rest).value.1
    ensures AcceptedPoints(draws) == [MakeRandomPos(SampleMin, SampleMax, draws).value.0] + AcceptedPoints(rest)
  {
    GenerateAsteroidsStep(n, draws);
    AcceptedPointsStep(draws);
  }

  /** Consing a centre and a point onto two lists that agree position by position keeps them agreeing. */
  lemma CentersCons(a: Circle, cs: seq<Circle>, p: Vec, pts: seq<Vec>, m: nat)
    requires a.center == p && m <= |cs| && m <= |pts|
    requires forall i :: 0 <= i < m ==> cs[i].center == pts[i]
    ensures forall i :: 0 <= i < m + 1 ==> ([a] + cs)[i].center == ([p] + pts)[i]
  {
    forall i | 0 <= i < m + 1
      ensures ([a] + cs)[i].center == ([p] + pts)[i]
    {
      if i > 0 {
        assert ([a] + cs)[i] == cs[i - 1];
        assert ([p] + pts)[i] == pts[i - 1];
      }
    }
  }

  /** Dropping n elements after a cons drops n - 1 from the tail. */
  lemma DropCons(p: Vec, t: seq<Vec>, n: nat)
    requires 1 <= n <= |t| + 1
    ensures ([p] + t)[n..] == t[n - 1..]
  {
  }

  /** The induction step of `GenerateAsteroidsLeftover`: one sampling, then m = n - 1 more asteroids. */
  lemma LeftoverStep(n: nat, draws: seq<Draw>, m: nat, rest: seq<Draw>)
    requires m == n - 1
    requires MakeRandomPos(SampleMin, SampleMax, draws).Some? && rest == MakeRandomPos(SampleMin, SampleMax, draws).value.1
    requires GenerateAsteroids(n, draws).Some?
    requires GenerateAsteroids(m, rest).Some? ==>
      m <= |AcceptedPoints(rest)| && AcceptedPoints(GenerateAsteroids(m, rest).value.1) == AcceptedPoints(rest)[m..]
    ensures AcceptedPoints(GenerateAsteroids(n, draws).value.1) == AcceptedPoints(draws)[n..]
  {
    GenerateAsteroidsStep(n, draws);
    AcceptedPointsStep(draws);
    DropCons(MakeRandomPos(SampleMin, SampleMax, draws).value.0, AcceptedPoints(rest), n);
  }

  /** The draws left over after n asteroids hold the accepted points after the n-th. */
  lemma {:induction false} GenerateAsteroidsLeftover(n: nat, draws: seq<Draw>)
    ensures var r := GenerateAsteroids(n, draws);
      r.Some? ==> n <= |AcceptedPoints(draws)| && AcceptedPoints(r.value.1) == AcceptedPoints(draws)[n..]
    decreases n
  {
    GenerateAsteroidsSucceeds(n, draws);
    if n > 0 && GenerateAsteroids(n, draws).Some? {
      GenerateAsteroidsStep(n, draws);
      var m: nat := n - 1;
      var rest := MakeRandomPos(SampleMin, SampleMax, draws).value.1;
      GenerateAsteroidsLeftover(m, rest);
      LeftoverStep(n, draws, m, rest);
    }
  }

  /** Asteroid i is centred on the i-th accepted point of the stream. */
  lemma {:induction false} GenerateAsteroidsFollowStream(n: nat, draws: seq<Draw>)
    ensures var r := GenerateAsteroids(n, draws);
      r.Some? ==>
        n <= |AcceptedPoints(draws)| &&
        forall i :: 0 <= i < n ==> r.value.0[i].center == AcceptedPoints(draws)[i]
    decreases n
  {
    GenerateAsteroidsSucceeds(n, draws);
    if n > 0 && GenerateAsteroids(n, draws).Some? {
      var m: nat := n - 1;
      var rest := MakeRandomPos(SampleMin, SampleMax, draws).value.1;
      GenerateAsteroidsFollowStream(m, rest);
      GenerateAsteroidsSucceeds(m, rest);
      GenerateAsteroidsCons(n, draws, m, rest);
      var p := MakeRandomPos(SampleMin, SampleMax, draws).value.0;
      CentersCons(AsteroidAt(1, p, Some(false)), GenerateAsteroids(m, rest).value.0, p, AcceptedPoints(rest), m);
    }
  }

  /** The ten random asteroids of the scene, or `None` if the draws hold fewer than ten accepted points. */
  function Asteroids(draws: seq<Draw>): (r: Option<seq<Circle>>)
    ensures r.Some? <==> 10 <= |AcceptedPoints(draws)|
    ensures r.Some? ==> |r.value| == 10 && forall i :: 0 <= i < 10 ==> r.value[i].center == AcceptedPoints(draws)[i]
  {
    GenerateAsteroidsSucceeds(10, draws);
    GenerateAsteroidsFollowStream(10, draws);
    match GenerateAsteroids(10, draws)
    case None => None
    case Some((list, _)) => Some(list)
  }

  /** A dynamic asteroid body of the scene: sampled in the box and clear of the fixed bodies. */
  predicate GoodAsteroid(c: Circle)
  {
    c.radius == AsteroidRadius && !c.isStatic && c.texture == Some(AsteroidImages[0]) &&
    Accepted(c.center) &&
    SampleMargin <= c.center.x < Width - SampleMargin &&
    SampleMargin <= c.center.y < Height - SampleMargin
  }

  lemma {:induction false} GenerateAsteroidsGood(n: nat, draws: seq<Draw>)
    requires forall i :: 0 <= i < |draws| ==> InUnit(draws[i])
    ensures var r := GenerateAsteroids(n, draws);
      r.Some? ==> AllGood(r.value.0)
    decreases n
  {
    if n > 0 {
      var g := GenerateAsteroid(1, DefaultOptions, draws);
      SampledAsteroid(draws);
      if g.Some? {
        var (a, rest) := g.value;
        GenerateAsteroidsGood(n - 1, rest);
        var more := GenerateAsteroids(n - 1, rest);
        if more.Some? {
          var list := [a] + more.value.0;
          assert GenerateAsteroids(n, draws) == Some((list, more.value.1));
          AllGoodCons(a, more.value.0);
        }
      }
    }
  }

  predicate AllGood(cs: seq<Circle>)
  {
    forall i :: 0 <= i < |cs| ==> GoodAsteroid(cs[i])
  }

  lemma AllGoodCons(a: Circle, cs: seq<Circle>)
    requires GoodAsteroid(a) && AllGood(cs)
    ensures AllGood([a] + cs)
  {
    var list := [a] + cs;
    forall i | 0 <= i < |list|
      ensures GoodAsteroid(list[i])
    {
      if i > 0 {
        assert list[i] == cs[i - 1];
      }
    }
  }

  /**
   * The scene's asteroids: exactly ten dynamic bodies of radius 100, each at
   * least 300 from the rocket's start, the Moon and the Earth, and inside the
   * sampling box.
   */
  lemma AsteroidsPlacement(draws: seq<Draw>)
    requires forall i :: 0 <= i < |draws| ==> InUnit(draws[i])
    ensures var r := Asteroids(draws);
      r.Some? ==> |r.value| == 10 && AllGood(r.value)
    ensures var r := Asteroids(draws);
      r.Some? ==> forall i :: 0 <= i < 10 ==>
        Dist2(DoggoStart, r.value[i].center) >= 90000.0 &&
        Dist2(Moon.center, r.value[i].center) >= 90000.0 &&
        Dist2(Earth.center, r.value[i].center) >= 90000.0
  {
    GenerateAsteroidsGood(10, draws);
    var r := Asteroids(draws);
    if r.Some? {
      forall i | 0 <= i < 10
        ensures Dist2(DoggoStart, r.value[i].center) >= 90000.0
        ensures Dist2(Moon.center, r.value[i].center) >= 90000.0
        ensures Dist2(Earth.center, r.value[i].center) >= 90000.0
      {
        AcceptedClear(r.value[i].center);
      }
    }
  }

  /** A corner decoration: its centre and its rotation in quarter turns (angle = quarterTurns * pi / 2). */
  datatype Corner = Corner(center: Vec, quarterTurns: nat)

  /** The four inset corner positions, clockwise from the top left. */
  const CornerCoords: seq<Vec> := [
    Vec(CornerInset, CornerInset),
    Vec(Width - CornerInset, CornerInset),
    Vec(Width - CornerInset, Height - CornerInset),
    Vec(CornerInset, Height - CornerInset)
  ]

  /** Where `loadCorners` puts its four copies of the outline: corner `idx` turned `idx` quarter turns. */
  function Corners(): (r: seq<Corner>)
    ensures |r| == 4
    ensures forall i :: 0 <= i < 4 ==> r[i].center == CornerCoords[i] && r[i].quarterTurns == i
  {
    seq(4, i requires 0 <= i < 4 => Corner(CornerCoords[i], i))
  }

  const WorldCenter := Vec(Width / 2.0, Height / 2.0)

  /** A quarter turn of point `p` about the world's centre, in screen coordinates (y down). */
  function QuarterTurn(p: Vec): Vec
  {
    Vec(WorldCenter.x - (p.y - WorldCenter.y), WorldCenter.y + (p.x - WorldCenter.x))
  }

  /**
   * The corners are consistent with their rotations: each corner's position
   * is the previous one's turned a quarter about the world's centre, four
   * turns bring the last back to the first, and every corner sits 71 from
   * two sides.
   */
  lemma CornersFollowRotation()
    ensures forall i :: 0 <= i < 3 ==> Corners()[i + 1].center == QuarterTurn(Corners()[i].center)
    ensures QuarterTurn(Corners()[3].center) == Corners()[0].center
    ensures Corners()[0].center == Vec(CornerInset, CornerInset)
    ensures forall i :: 0 <= i < 4 ==>
      (Corners()[i].center.x == CornerInset || Corners()[i].center.x == Width - CornerInset) &&
      (Corners()[i].center.y == CornerInset || Corners()[i].center.y == Height - CornerInset)
  {
    var c := Corners();
    assert c[0].center == Vec(71.0, 71.0);
    assert c[1].center == Vec(3929.0, 71.0);
    assert c[2].center == Vec(3929.0, 3929.0);
    assert c[3].center == Vec(71.0, 3929.0);
  }
}
