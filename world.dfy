/**
 * The per-tick effects of the scene (src/components/world.tsx) that compute
 * a value: the gravity resultant, the camera window, the guide overlay, the
 * rotation torque, the option toggle, and the boundary walls built with the
 * scene.  The boost effect, which changes the world's body set, is in
 * module Boost.
 */
module World {
  import opened Vectors
  import opened Wrappers
  import Space
  import Utils

  // ---------------------------------------------------------------- gravity

  const GravityStrength: real := 30.0

  /** The gravity wells, in the order the handler visits them: Moon, then Earth. */
  const Wells: seq<Vec> := [Space.Moon.center, Space.Earth.center]

  lemma SquareNonNegative(a: real)
    ensures a * a >= 0.0
  {
    if a < 0.0 {
      assert a * a == (-a) * (-a);
    }
  }

  /**
   * The pull of one well on the rocket: with d the vector from the rocket to
   * the well, 30 * d / |d|^2.  The rocket must not sit at the well's
   * centre, where |d|^2 is 0 (the source would divide by zero).
   */
  function Pull(well: Vec, doggo: Vec): Vec
    requires Dist2(well, doggo) != 0.0
  {
    var d := Sub(well, doggo);
    Scale(Div(d, Norm2(d)), GravityStrength)
  }

  predicate ApartFrom(wells: seq<Vec>, doggo: Vec)
  {
    forall i :: 0 <= i < |wells| ==> Dist2(wells[i], doggo) != 0.0
  }

  /** The sum of the pulls of `wells`, added up in order. */
  function Resultant(wells: seq<Vec>, doggo: Vec): Vec
    requires ApartFrom(wells, doggo)
    decreases |wells|
  {
    if wells == [] then Zero
    else Add(Resultant(wells[..|wells| - 1], doggo), Pull(wells[|wells| - 1], doggo))
  }

  /**
   * The gravity handler: starts from the zero vector and adds each well's
   * pull into it in place; the result is the force applied to the rocket.
   */
  method GravityResultant(wells: seq<Vec>, doggo: Vec) returns (resultant: Vec)
    requires ApartFrom(wells, doggo)
    ensures resultant == Resultant(wells, doggo)
  {
    resultant := Zero;
    var i := 0;
    while i < |wells|
      invariant 0 <= i <= |wells|
      invariant resultant == Resultant(wells[..i], doggo)
    {
      assert wells[..i + 1][..i] == wells[..i];
      resultant := Add(resultant, Pull(wells[i], doggo));
      i := i + 1;
    }
    assert wells[..i] == wells;
  }

  /** Superposition: the resultant of two groups of wells is the sum of their resultants. */
  lemma {:induction false} ResultantSplit(a: seq<Vec>, b: seq<Vec>, doggo: Vec)
    requires ApartFrom(a, doggo) && ApartFrom(b, doggo)
    ensures ApartFrom(a + b, doggo)
    ensures Resultant(a + b, doggo) == Add(Resultant(a, doggo), Resultant(b, doggo))
    decreases |b|
  {
    if b == [] {
      assert a + b == a;
    } else {
      var b' := b[..|b| - 1];
      assert (a + b)[..|a + b| - 1] == a + b';
      ResultantSplit(a, b', doggo);
    }
  }

  /** The force on the rocket is the Moon's pull plus the Earth's. */
  lemma TwoWellResultant(doggo: Vec)
    requires Dist2(Space.Moon.center, doggo) != 0.0 && Dist2(Space.Earth.center, doggo) != 0.0
    ensures ApartFrom(Wells, doggo)
    ensures Resultant(Wells, doggo) == Add(Pull(Space.Moon.center, doggo), Pull(Space.Earth.center, doggo))
  {
    var moon, earth := Space.Moon.center, Space.Earth.center;
    assert Wells[..1] == [moon];
    assert [moon][..0] == [];
    assert Resultant([moon], doggo) == Add(Zero, Pull(moon, doggo));
    assert Resultant(Wells, doggo) == Add(Resultant([moon], doggo), Pull(earth, doggo));
  }

  /**
   * Each pull points from the rocket towards the well (it is parallel to d
   * and has a positive dot product with it), and its strength is 30 / |d|:
   * dividing d by |d|^2 leaves one power of the distance, so the pull weakens
   * as the inverse of the distance, not of its square.
   */
  lemma PullIsInverseDistance(well: Vec, doggo: Vec)
    requires Dist2(well, doggo) != 0.0
    ensures var d, f := Sub(well, doggo), Pull(well, doggo);
      f.x * d.y == f.y * d.x &&
      f.x * d.x + f.y * d.y > 0.0 &&
      Norm2(f) * Norm2(d) == GravityStrength * GravityStrength &&
      Norm2(f) == GravityStrength * GravityStrength / Norm2(d)
  {
    var d := Sub(well, doggo);
    SquareNonNegative(d.x);
    SquareNonNegative(d.y);
    var n := Norm2(d);
    assert n > 0.0;
    var k := GravityStrength / n;
    var f := Pull(well, doggo);
    assert f == Scale(d, k) by {
      assert (d.x / n) * GravityStrength == d.x * k;
      assert (d.y / n) * GravityStrength == d.y * k;
    }
    assert f.x * d.y == k * (d.x * d.y) == f.y * d.x;
    assert f.x * d.x + f.y * d.y == k * n;
    assert k > 0.0;
    ScaleNorm(d, k);
    assert Norm2(f) * n == k * k * n * n;
    assert k * n == GravityStrength;
    assert Norm2(f) == (Norm2(f) * n) / n;
  }

  // ----------------------------------------------------------------- camera

  /** A viewport: the world rectangle from `min` to `max` that is shown on the canvas. */
  datatype Bounds = Bounds(min: Vec, max: Vec)

  /** Half the side of the follow window. */
  const FollowHalf: real := 400.0

  /** The wide camera: the whole 4000 x 4000 world. */
  function WideView(): (b: Bounds)
    ensures b.min == Zero && b.max == Vec(Space.Width, Space.Height)
  {
    Bounds(Zero, Vec(Space.Width, Space.Height))
  }

  /** The follow camera: an 800 x 800 window centred on the rocket. */
  function FollowView(p: Vec): (b: Bounds)
    ensures (b.min.x + b.max.x) / 2.0 == p.x && (b.min.y + b.max.y) / 2.0 == p.y
    ensures b.max.x - b.min.x == 2.0 * FollowHalf && b.max.y - b.min.y == 2.0 * FollowHalf
  {
    Bounds(Vec(p.x - FollowHalf, p.y - FollowHalf), Vec(p.x + FollowHalf, p.y + FollowHalf))
  }

  /** The viewport in force: following the rocket when zoomed in, the whole world otherwise. */
  function CameraView(zoomIn: bool, doggo: Vec): Bounds
  {
    if zoomIn then FollowView(doggo) else WideView()
  }

  /** Where a world point is drawn on the 4000 x 4000 canvas under viewport `b`. */
  function ToCanvas(b: Bounds, p: Vec): Vec
    requires b.max.x != b.min.x && b.max.y != b.min.y
  {
    Vec((p.x - b.min.x) * (Space.Width / (b.max.x - b.min.x)),
        (p.y - b.min.y) * (Space.Height / (b.max.y - b.min.y)))
  }

  /** Both windows contain the rocket, and leaving zoom mode restores the whole world. */
  lemma CameraShowsRocket(zoomIn: bool, doggo: Vec)
    requires 0.0 <= doggo.x <= Space.Width && 0.0 <= doggo.y <= Space.Height
    ensures var b := CameraView(zoomIn, doggo);
      b.min.x <= doggo.x <= b.max.x && b.min.y <= doggo.y <= b.max.y
    ensures !zoomIn ==> CameraView(zoomIn, doggo) == Bounds(Vec(0.0, 0.0), Vec(4000.0, 4000.0))
    ensures zoomIn ==> (CameraView(zoomIn, doggo) ==
      Bounds(Vec(doggo.x - 400.0, doggo.y - 400.0), Vec(doggo.x + 400.0, doggo.y + 400.0)))
  {
  }

  // ------------------------------------------------------------ guide overlay

  /** The canvas centre, the anchor of the guide in zoom mode. */
  const CanvasCenter := Vec(Space.Width / 2.0, Space.Height / 2.0)

  /** Below this distance to the Moon no guide is drawn. */
  const GuideThreshold: nat := 300

  /** The drawing of one tick: nothing, or a dashed line and a label reading "Moon: <distance>km". */
  datatype Guide = Hidden | Line(from: Vec, to: Vec, textAt: Vec, distance: nat)

  /** The largest k >= start whose square is at most n (the integer part of sqrt n). */
  function FloorSqrtFrom(n: real, start: nat): (k: nat)
    requires (start as real) * (start as real) <= n
    ensures start <= k
    ensures (k as real) * (k as real) <= n < ((k + 1) as real) * ((k + 1) as real)
    decreases n.Floor + 1 - start
  {
    var next := (start + 1) as real;
    if next * next <= n then
      assert next <= next * next;
      FloorSqrtFrom(n, start + 1)
    else start
  }

  /** `Math.sqrt(n) | 0` for the sizes this world has: the integer part of sqrt n. */
  function FloorSqrt(n: real): (k: nat)
    requires n >= 0.0
    ensures (k as real) * (k as real) <= n < ((k + 1) as real) * ((k + 1) as real)
  {
    FloorSqrtFrom(n, 0)
  }

  lemma SquareMonotone(a: real, b: real)
    requires 0.0 <= a <= b
    ensures a * a <= b * b
  {
    assert a * a <= a * b;
    assert a * b <= b * b;
  }

  /** The truncated distance is below t exactly when the squared distance is below t^2. */
  lemma FloorSqrtBelow(n: real, t: nat)
    requires n >= 0.0
    ensures FloorSqrt(n) < t <==> n < (t as real) * (t as real)
  {
    var k := FloorSqrt(n);
    if k < t {
      SquareMonotone((k + 1) as real, t as real);
    } else {
      SquareMonotone(t as real, k as real);
    }
  }

  /**
   * The guide handler of one tick: the distance from the rocket to the Moon
   * is truncated to an integer; below 300 nothing is drawn.  Otherwise a
   * line runs from the rocket to the Moon (wide camera) or, in zoom mode,
   * from the canvas centre to centre + d * (4000 / 800); the label sits 700
   * to the left of the line's start and 600 (zoom) or 300 (wide) below it.
   */
  function GuideOverlay(zoomIn: bool, doggo: Vec, moon: Vec): (g: Guide)
    ensures g.Hidden? <==> Dist2(moon, doggo) < 90000.0
    ensures g.Line? ==>
      GuideThreshold <= g.distance &&
      (g.distance as real) * (g.distance as real) <= Dist2(moon, doggo) < ((g.distance + 1) as real) * ((g.distance + 1) as real)
    ensures g.Line? ==> g.textAt == Vec(g.from.x - 700.0, g.from.y + (if zoomIn then 600.0 else 300.0))
  {
    var d := Sub(moon, doggo);
    assert Norm2(d) >= 0.0;
    var distance := FloorSqrt(Norm2(d));
    FloorSqrtBelow(Norm2(d), GuideThreshold);
    if distance < GuideThreshold then Hidden
    else
      var from := if zoomIn then CanvasCenter else doggo;
      var multiple := if zoomIn then Space.Width / 800.0 else 1.0;
      var to := if zoomIn then Vec(CanvasCenter.x + d.x * multiple, CanvasCenter.y + d.y * multiple) else moon;
      Line(from, to, Vec(from.x - 700.0, from.y + (if zoomIn then 600.0 else 300.0)), distance)
  }

  /**
   * The guide agrees with the camera: in both modes its line starts where
   * the rocket is drawn and ends where the Moon is drawn under the viewport
   * in force (the zoom-mode factor 4000 / 800 is the canvas-to-window ratio).
   */
  lemma GuideMatchesCamera(zoomIn: bool, doggo: Vec, moon: Vec)
    requires GuideOverlay(zoomIn, doggo, moon).Line?
    ensures var g, b := GuideOverlay(zoomIn, doggo, moon), CameraView(zoomIn, doggo);
      g.from == ToCanvas(b, doggo) && g.to == ToCanvas(b, moon)
  {
    var b := CameraView(zoomIn, doggo);
    if zoomIn {
      assert b.max.x - b.min.x == 800.0 && b.max.y - b.min.y == 800.0;
      assert Space.Width / (b.max.x - b.min.x) == 5.0;
      assert Space.Height / (b.max.y - b.min.y) == 5.0;
    } else {
      assert Space.Width / (b.max.x - b.min.x) == 1.0;
    }
  }

  // --------------------------------------------------------------- rotation

  /** Torque per unit of rotation direction. */
  const TorqueStep: int := 30

  /**
   * The rotation handler: attached only while `rotating` is non-zero, and
   * then it sets the rocket's torque to rotating * 30 on every tick.
   */
  function RotationHandler(rotating: int): (torque: Option<int>)
    ensures torque.Some? <==> rotating != 0
  {
    if rotating != 0 then Some(rotating * TorqueStep) else None
  }

  /** The torque the tick's handlers leave on the rocket: the handler's value, or, with no handler attached, whatever was there. */
  function TorqueAfterTick(rotating: int, torque: int): int
  {
    match RotationHandler(rotating)
    case Some(t) => t
    case None => torque
  }

  /** For the three directions: clockwise writes +30, counter-clockwise -30, and idle writes no torque. */
  lemma RotationTorque(rotating: int, torque: int)
    requires -1 <= rotating <= 1
    ensures rotating == 1 ==> TorqueAfterTick(rotating, torque) == 30
    ensures rotating == -1 ==> TorqueAfterTick(rotating, torque) == -30
    ensures rotating == 0 ==> TorqueAfterTick(rotating, torque) == torque
    ensures rotating != 0 ==> TorqueAfterTick(rotating, torque) * rotating == 30
  {
  }

  // ------------------------------------------------------------ options

  /** The control-panel options, in the order their switches are listed. */
  datatype ControlPanelOptions = ControlPanelOptions(boost: bool, zoomIn: bool, guide: bool)

  datatype OptionKey = Boost | ZoomIn | Guide

  /** The options the world starts with. */
  const InitialOptions := ControlPanelOptions(false, false, true)

  /** The keys in listing order, as `Object.keys` returns them. */
  const OptionKeys: seq<OptionKey> := [Boost, ZoomIn, Guide]

  function KeyName(k: OptionKey): string
  {
    match k
    case Boost => "boost"
    case ZoomIn => "zoomIn"
    case Guide => "guide"
  }

  function Get(o: ControlPanelOptions, k: OptionKey): bool
  {
    match k
    case Boost => o.boost
    case ZoomIn => o.zoomIn
    case Guide => o.guide
  }

  /** A switch's toggle: the named option is negated, the other two are kept. */
  function Toggle(o: ControlPanelOptions, k: OptionKey): (r: ControlPanelOptions)
    ensures Get(r, k) == !Get(o, k)
    ensures forall j :: j != k ==> Get(r, j) == Get(o, j)
  {
    match k
    case Boost => o.(boost := !o.boost)
    case ZoomIn => o.(zoomIn := !o.zoomIn)
    case Guide => o.(guide := !o.guide)
  }

  /** Toggling twice restores the options, and toggles of different switches commute. */
  lemma ToggleInvolution(o: ControlPanelOptions, k: OptionKey, j: OptionKey)
    ensures Toggle(Toggle(o, k), k) == o
    ensures Toggle(Toggle(o, k), j) == Toggle(Toggle(o, j), k)
  {
  }

  /** The switches are labelled "Boost", "Zoom In" and "Guide", and no two share a label. */
  lemma SwitchLabels()
    ensures Utils.GetKeyString(KeyName(Boost)) == "Boost"
    ensures Utils.GetKeyString(KeyName(ZoomIn)) == "Zoom In"
    ensures Utils.GetKeyString(KeyName(Guide)) == "Guide"
  {
    Utils.OptionLabels();
  }

  /** The panel's switches in listing order: each key's label and whether it is on. */
  function Switches(o: ControlPanelOptions): seq<(string, bool)>
  {
    seq(|OptionKeys|, i requires 0 <= i < |OptionKeys| => (Utils.GetKeyString(KeyName(OptionKeys[i])), Get(o, OptionKeys[i])))
  }

  /** The panel first shows Boost off, Zoom In off and Guide on. */
  lemma InitialPanel()
    ensures Switches(InitialOptions) == [("Boost", false), ("Zoom In", false), ("Guide", true)]
  {
    SwitchLabels();
  }

  /** Clicking switch i flips that switch and leaves the labels and the other switches as they were. */
  lemma ClickSwitch(o: ControlPanelOptions, i: nat)
    requires i < |OptionKeys|
    ensures var after := Switches(Toggle(o, OptionKeys[i]));
      |after| == |Switches(o)| == 3 &&
      after[i] == (Switches(o)[i].0, !Switches(o)[i].1) &&
      forall j :: 0 <= j < 3 && j != i ==> after[j] == Switches(o)[j]
  {
  }

  // ----------------------------------------------------------------- walls

  /** A static rectangle: centre, width and height. */
  datatype Rect = Rect(center: Vec, w: real, h: real)

  const WallThickness: real := 50.0

  /** The four boundary walls: top, bottom, right, left, centred on the world's edges. */
  const Walls: seq<Rect> := [
    Rect(Vec(Space.Width / 2.0, 0.0), Space.Width, WallThickness),
    Rect(Vec(Space.Width / 2.0, Space.Height), Space.Width, WallThickness),
    Rect(Vec(Space.Width, Space.Height / 2.0), WallThickness, Space.Height),
    Rect(Vec(0.0, Space.Height / 2.0), WallThickness, Space.Height)
  ]

  /**
   * A randomly placed asteroid starts clear of every wall: the sampling
   * margin 125 is the asteroid radius 100 plus half the wall thickness.
   */
  lemma AsteroidClearOfWalls(c: Space.Circle)
    requires Space.GoodAsteroid(c)
    ensures c.center.y - c.radius >= Walls[0].center.y + Walls[0].h / 2.0
    ensures c.center.y + c.radius <= Walls[1].center.y - Walls[1].h / 2.0
    ensures c.center.x + c.radius <= Walls[2].center.x - Walls[2].w / 2.0
    ensures c.center.x - c.radius >= Walls[3].center.x + Walls[3].w / 2.0
  {
  }
}
