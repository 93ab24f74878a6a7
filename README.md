# Lunar trip — a Dafny model of the space world

Lunar trip is a small browser game. A rocket (the "doggo") flies in a
4000 × 4000 world under the pull of the Moon and the Earth. Ten asteroids are
scattered at random, and four corner pieces and four walls close the world off.
A control panel has three switches:

- **Boost** pushes the rocket forward and leaves a trail of smoke.
- **Zoom In** makes the camera follow the rocket.
- **Guide** draws a dashed line to the Moon, labelled with the distance.

Rotate buttons set a torque on the rocket.

This project models the game's core in Dafny:

- `Vectors`: plane vectors over reals.
- `Utils`: turning an option key into a switch label (`getKeyString`).
- `Space`: the world's fixed bodies and constants, rejection sampling of a
  free asteroid position, generation of asteroids, and the four corners.
- `World`: the per-tick handlers of the world component:
  - the gravity resultant;
  - the camera window;
  - the guide overlay and its 300 threshold;
  - the rotation torque;
  - the option toggle;
  - the walls.
- `Boost`: the boost handler. A 15-tick frame counter spawns smoke bodies into
  a queue of at most four. The oldest smoke is evicted from the world when a
  fifth would be queued. Turning boost off removes the queued smokes from the
  world. The class `BoostEffect` updates a shared `PhysicsWorld` in place. It
  is proved to agree with the value-level step `BoostStep`, and the queue
  invariant and the spawn rate are proved about that step.

Randomness (`Math.random`) is passed in: the caller supplies a finite sequence
of draws, each pair of numbers in [0, 1). The rocket's position and heading
(the sine and cosine of its angle) are inputs to the handlers. The physics
engine is represented only by the set of bodies in its world and its counter
for body ids.

Gravity follows the code of the gravity handler (src/components/world.tsx:116-117).
It divides the offset d from the rocket to a well by |d|² and multiplies by 30.
The pull therefore has strength 30 / |d|, and it weakens as the inverse of the
distance. The game is described as using an inverse-square attraction,
strength / |d|², which would need a division by |d|³. The model keeps the
code's formula.

## Model

| member | source | states |
|---|---|---|
| Utils.ToUpper | src/lib/utils.ts:5 | a lower-case ASCII letter becomes the upper-case letter 32 code points below; every other character is unchanged |
| Utils.ToLower | src/lib/utils.ts:3 | an upper-case ASCII letter becomes its lower-case letter; every other character is unchanged (the "is lower" test of the fold) |
| Utils.Piece | src/lib/utils.ts:3-10 | one step of the `reduce` callback; what it emits is stated by `Utils.LabelsAt` and undone by `Utils.UnspaceStep` |
| Utils.Labels | src/lib/utils.ts:2-12 | the `reduce` over the key's characters; its length, positions and inverse are stated by `Utils.LabelsLength`, `Utils.LabelsAt` and `Utils.UnspaceLabels` |
| Utils.GetKeyString | src/lib/utils.ts:1-13 | the label is as long as the key plus one space per capital; it is empty iff the key is; a lower-case first letter is capitalised, a capital first letter is preceded by a space, and any other first character is copied |
| Utils.LabelsLength | src/lib/utils.ts:2-12 | the fold emits one character per key character plus one extra space per capital |
| Utils.LabelsAt | src/lib/utils.ts:2-12 | the fold places key character k at offset k plus the capitals up to k; the character is upper-cased at index 0; a capital is preceded by a space |
| Utils.GetKeyStringAt | src/lib/utils.ts:1-13 | the same position law for the whole label: character k sits at k + (capitals in key[..k+1]), and a capital is preceded by a space |
| Utils.LabelsHead | src/lib/utils.ts:3-9 | past index 0 the fold never starts its output with a capital |
| Utils.UnspaceStep | src/lib/utils.ts:3-11 | removing the space before each capital undoes one step of the fold |
| Utils.UnspaceLabels | src/lib/utils.ts:2-12 | removing the inserted spaces recovers the folded key exactly (past index 0) |
| Utils.UnlabelGetKeyString | src/lib/utils.ts:1-13 | round trip: lower-casing the first character and dropping the inserted spaces recovers every key from its label |
| Utils.GetKeyStringInjective | src/lib/utils.ts:1-13 | two different keys never get the same label |
| Utils.OptionLabels | src/lib/utils.ts:1-13 | "boost", "zoomIn" and "guide" become "Boost", "Zoom In" and "Guide" |
| Space.Texture | src/lib/space.ts:19-25 | an image path exists exactly for asteroid numbers 1 to 5 (`asteroidImgPath[num - 1]`) |
| Space.FarFromAll | src/lib/space.ts:90-95 | a position passes iff it is at least 3 × 100 from every listed body (squared distance at least 90000) |
| Space.AcceptedClear | src/lib/space.ts:90-95 | an accepted position is exactly one 300 or more away from the rocket's start (1200, 3000), the Moon (3000, 1000) and the Earth (1000, 3000) |
| Space.MakeRandomPos | src/lib/space.ts:85-98 | every successful sampling consumes at least one draw; what it picks is stated by `Space.MakeRandomPosFirstAccepted` |
| Space.MakeRandomPosFirstAccepted | src/lib/space.ts:85-98 | on success the position is the first accepted sample, every earlier draw was rejected, and the draws after the accepted one are returned; it fails iff every draw is rejected |
| Space.Sample | src/lib/space.ts:87-88 | the point a draw (u, v) selects, min + (u, v) · (max - min); where it lands is stated by `Space.SampleInBox` |
| Space.SampleInBox | src/lib/space.ts:139 | a sample from draws in [0, 1) lies in the box [125, 3875) × [125, 3875) |
| Space.AsteroidAt | src/lib/space.ts:144-164 | the `Bodies.circle` call: radius 100, texture of the asteroid number, static only when asked; stated by `Space.GenerateAsteroid` and `Space.WellsAreGenerated` |
| Space.GenerateAsteroid | src/lib/space.ts:123-165 | with a position the circle is centred there and consumes no draw; without one, it is centred on `makeRandomPos` over the 125-margin box and fails iff sampling does; radius 100, texture `asteroidImgPath[num - 1]` |
| Space.SampledAsteroid | src/lib/space.ts:123-165 | an asteroid with default options is dynamic, radius 100, lies in the box and is clear of the rocket, Moon and Earth; the draws left over are still in [0, 1) |
| Space.WellsAreGenerated | src/lib/space.ts:167-184 | the `Moon` and `Earth` constants are what `generateAsteroid` gives for image 4 at (3000, 1000) and image 5 at (1000, 3000): static circles of radius 100 |
| Space.GenerateAsteroids | src/lib/space.ts:202 | on success exactly n asteroids are produced and the stream does not grow; which ones is stated by the `GenerateAsteroids…` lemmas below |
| Space.AcceptedPoints | src/lib/space.ts:202 | the reference for a run of samplings: the accepted points of the stream in order, empty iff `makeRandomPos` finds none |
| Space.AcceptedPointsAreSamples | src/lib/space.ts:85-98 | repeated sampling visits exactly the accepted samples of the stream: the point of every draw, in order, kept when it is at least 300 from the rocket, the Moon and the Earth |
| Space.AcceptedPointsStep | src/lib/space.ts:85-98 | one sampling takes exactly the first accepted point off the stream |
| Space.GenerateAsteroidsStep | src/lib/space.ts:202 | the first asteroid takes the first sampled point and the other n - 1 are generated from the draws after it; the run fails if either part fails |
| Space.GenerateAsteroidsSucceeds | src/lib/space.ts:202 | n asteroids are generated iff the draws hold at least n accepted points |
| Space.GenerateAsteroidsFollowStream | src/lib/space.ts:202 | asteroid i is centred on the i-th accepted point of the draws |
| Space.GenerateAsteroidsLeftover | src/lib/space.ts:202 | the draws left over hold exactly the accepted points after the n-th, so a later sampling continues the same stream |
| Space.Asteroids | src/lib/space.ts:202 | the ten asteroids exist iff the draws yield at least ten accepted points, and asteroid i is centred on the i-th of them |
| Space.GenerateAsteroidsGood | src/lib/space.ts:202 | every asteroid produced with the default options is dynamic, inside the box and clear of the fixed bodies |
| Space.AsteroidsPlacement | src/lib/space.ts:202 | when the draws yield ten accepted points, `Asteroids` has ten members, each dynamic, inside the box and at least 300 from the rocket's start, the Moon and the Earth |
| Space.Corners | src/lib/space.ts:50-72 | four corners; corner i sits at the i-th inset position, (71, 71), (3929, 71), (3929, 3929), (71, 3929), and is turned by i quarter turns |
| Space.CornersFollowRotation | src/lib/space.ts:50-72 | corner 0 sits at (71, 71), every corner is 71 in from two edges, each corner is the previous one turned a quarter about the world centre, and four turns close the cycle |
| World.GravityResultant | src/components/world.tsx:111-121 | the loop over the wells returns the sum of their pulls |
| World.Pull | src/components/world.tsx:116-117 | the pull of one well on the rocket: 30 times the offset d to the well, divided by the squared distance; its direction and strength are stated by `World.PullIsInverseDistance` |
| World.Resultant | src/components/world.tsx:112-118 | the sum of the pulls over a list of wells; stated by `World.ResultantSplit` and `World.TwoWellResultant`, and computed by `World.GravityResultant` |
| World.ResultantSplit | src/components/world.tsx:115-118 | superposition: the resultant over two lists of wells is the sum of their resultants |
| World.TwoWellResultant | src/components/world.tsx:115-120 | the force on the rocket is the Moon's pull plus the Earth's pull |
| World.PullIsInverseDistance | src/components/world.tsx:116-117 | each pull points towards its well, and its strength is 30 divided by the distance (squared: 900 divided by the squared distance), so it weakens as the inverse of the distance |
| World.WideView | src/components/world.tsx:192-196 | with zoom off the camera shows the whole 4000 × 4000 world |
| World.FollowView | src/components/world.tsx:199-205 | with zoom on the camera is an 800 × 800 window centred on the rocket |
| World.CameraView | src/components/world.tsx:192-205 | the window the camera shows for the zoom switch; stated by `World.WideView`, `World.FollowView` and `World.CameraShowsRocket` |
| World.CameraShowsRocket | src/components/world.tsx:187-212 | whenever the rocket is inside the world, it is inside the camera window, which is the whole world or the window of ±400 about the rocket |
| World.FloorSqrtFrom | src/components/world.tsx:224 | the search returns the integer k with k² ≤ n < (k+1)² |
| World.FloorSqrt | src/components/world.tsx:224 | the distance truncated to an integer: the integer k with k² ≤ n < (k+1)² |
| World.FloorSqrtBelow | src/components/world.tsx:224-227 | the truncated distance is below t iff the squared distance is below t² |
| World.GuideOverlay | src/components/world.tsx:222-262 | nothing is drawn iff the rocket is within 300 of the Moon; otherwise the distance is the truncated length (at least 300) and the text sits at (from.x - 700, from.y + 600 or 300); the line's two ends are stated by `World.GuideMatchesCamera` |
| World.GuideMatchesCamera | src/components/world.tsx:238-254 | the guide line's ends are where the camera draws the rocket and the Moon |
| World.RotationHandler | src/components/world.tsx:270-283 | a handler is attached iff `rotating` is non-zero |
| World.TorqueAfterTick | src/components/world.tsx:272-275 | the torque the tick's handlers leave on the rocket; stated by `World.RotationTorque` |
| World.RotationTorque | src/components/world.tsx:272-275 | a tick writes torque 30 when turning clockwise and -30 counter-clockwise; when idle no handler writes a torque |
| World.Toggle | src/components/world.tsx:304 | a switch flips its own option and keeps the other two |
| World.ToggleInvolution | src/components/world.tsx:304 | toggling twice restores the options, and toggles of two options commute |
| World.SwitchLabels | src/components/world.tsx:300-306 | the three switches are labelled "Boost", "Zoom In" and "Guide" |
| World.Switches | src/components/world.tsx:300-308 | the panel's switches, one per option key in listing order; stated by `World.InitialPanel` and `World.ClickSwitch` |
| World.InitialPanel | src/components/world.tsx:18-22 | the panel starts with "Boost" off, "Zoom In" off and "Guide" on |
| World.ClickSwitch | src/components/world.tsx:300-308 | clicking switch i flips its checked state, keeps its label, and leaves the other switches as they were |
| World.AsteroidClearOfWalls | src/components/world.tsx:61-66 | the `Walls` are the 50-thick top, bottom, right and left rectangles centred on the world's edges, and a generated asteroid never overlaps one of them |
| Boost.PhysicsWorld.constructor | src/components/world.tsx:33-37 | a new world has no bodies |
| Boost.PhysicsWorld.CreateBody | src/components/world.tsx:159-167 | a new body gets a fresh id, not in the world |
| Boost.PhysicsWorld.Add | src/components/world.tsx:170 | adds exactly that body to the world |
| Boost.PhysicsWorld.Remove | src/components/world.tsx:173 | removes exactly that body from the world |
| Boost.BoostStep | src/components/world.tsx:141-176 | one tick of the boost handler on the counter, the queue and the world; stated by `Boost.StepCounter`, `Boost.SpawnTick` and `Boost.StepKeepsInv` |
| Boost.DisableWorld | src/components/world.tsx:181 | the world after switching boost off; stated by `Boost.DisableLeavesNoSmoke` |
| Boost.Start | src/components/world.tsx:138-139 | the state when boost is switched on: no smokes, counter 0; stated by `Boost.BoostEffect.constructor` and `Boost.StartInv` |
| Boost.StartInv | src/components/world.tsx:138-139 | the queue invariant holds when boost is switched on |
| Boost.OrderedPush | src/components/world.tsx:169 | `unshift` of a newer id keeps the queue newest first |
| Boost.SpawnKeepsInv | src/components/world.tsx:157-176 | the spawn tick keeps the queue invariant |
| Boost.StepKeepsInv | src/components/world.tsx:141-177 | every tick keeps the invariant: counter in 0..14, at most four smokes, newest first, all in the world, and no smoke of this effect is in the world unqueued |
| Boost.StepCounter | src/components/world.tsx:142-158 | the counter goes to (c + 1) mod 15; a body is created exactly when it reaches 15; other ticks change only the counter |
| Boost.SpawnTick | src/components/world.tsx:157-174 | on a spawn tick the new smoke is at the front and in the world; with five queued the oldest leaves queue and world; no other body changes |
| Boost.StepsKeepInv | src/components/world.tsx:141-177 | the invariant holds after any number of ticks |
| Boost.StepsCount | src/components/world.tsx:142-158 | after n ticks the counter is (c + n) mod 15 and (c + n) div 15 smokes were created |
| Boost.FifteenTicks | src/components/world.tsx:138-170 | fifteen ticks after switching on, exactly one smoke exists, and it is queued and in the world |
| Boost.QuietSteps | src/components/world.tsx:142-157 | ticks before the counter reaches 15 change only the counter |
| Boost.DisableLeavesNoSmoke | src/components/world.tsx:179-183 | after switching off, no smoke of this effect is left in the world, and every other body is untouched |
| Boost.Thrust | src/components/world.tsx:154 | the forward push on the rocket; its strength is stated by `Boost.ForceStrengths` |
| Boost.Drift | src/components/world.tsx:175 | the push on each queued smoke; stated by `Boost.ForceStrengths` and `Boost.TickPushes` |
| Boost.SmokeOrigin | src/components/world.tsx:159 | where a new smoke is placed; stated by `Boost.ForceStrengths` |
| Boost.TickPushes | src/components/world.tsx:175 | drift pushes happen only on spawn ticks, one per queued smoke, each of force heading / -100 |
| Boost.ForceStrengths | src/components/world.tsx:154-175 | with a unit heading the thrust has strength 0.2 × (power + 1), the drift 1/100, and the smoke starts 90 behind the rocket |
| Boost.DriftPushes | src/components/world.tsx:175 | one drift push per queued smoke, in queue order |
| Boost.BoostEffect.constructor | src/components/world.tsx:130-141 | switching boost on: empty queue, counter 0, handler attached, invariant established |
| Boost.BoostEffect.Tick | src/components/world.tsx:141-177 | one tick changes the effect and the world exactly as `BoostStep`; returns the thrust, the smoke's spawn point and the drift pushes |
| Boost.BoostEffect.SpawnSmoke | src/components/world.tsx:157-174 | the spawn-tick bookkeeping, exactly as `BoostStep` on a 14 counter |
| Boost.BoostEffect.Disable | src/components/world.tsx:179-183 | switching off detaches the handler and removes every queued smoke from the world, which stays valid; the queue array itself is kept |

## Left out

- Numbers are reals, not IEEE doubles. Rounding in the vector arithmetic and in the sampling is not modelled.
- World.FloorSqrt: the `| 0` of the source also wraps modulo 2³². Distances in a 4000 × 4000 world never reach that, so the wrap is not modelled.
- Utils.GetKeyString: `toLowerCase`/`toUpperCase` are modelled for ASCII letters only. Other characters count as neither case and are copied, which matches the source for digits and punctuation but not for non-ASCII letters.
- Space.MakeRandomPos: the source retries by unbounded recursion on `Math.random`. The model takes a finite sequence of draws and returns None when all of them are rejected.
- Space.MakeRandomPos: the rocket is taken at its start position (1200, 3000), where it is when the asteroids are generated.
- The matter-js engine is not modelled: collision, integration of forces, friction, the mouse constraint, and the rendering calls (`Render.lookAt`, canvas strokes, `fillText` formatting of "Moon: Nkm").
- The heading (sine and cosine of the rocket's angle) is an input; trigonometry is not modelled.
- The smokes' ageing (opacity × 0.9 and scale × 1.02 per tick) is not modelled.
- The corner shapes: loading the SVG file (`loadSvg`, `Svg.pathToVertices`, `Bodies.fromVertices`) is left out. Only the corners' positions and quarter turns are kept.
- React's effect lifecycle: which handler is attached when and the re-subscription when `power` changes are not modelled. Each handler is a function of its inputs, and `BoostEffect` has its own attach and detach.
- World.Pull: the rocket at the very centre of a well is excluded by the precondition. There the source divides a zero vector by zero and applies a NaN force.
- World.RotationTorque: matter-js clears every body's torque after each engine update. That reset is part of the engine and is not modelled, so with no handler attached the model leaves the torque as it was.
- World.PullIsInverseDistance: the strength is stated through squared lengths, because square roots are not modelled.
- `SpaceEngine`, `createRenderer` and the empty `makeDummies` in src/lib/space.ts define no behaviour used by the world. The controller, gear and switch components and App are not part of this model.
