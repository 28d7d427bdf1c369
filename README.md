# Paper-plane flight game: a verified model of the game core

This project models the sequential game logic of a browser paper-plane game
in Dafny, and proves properties of that model. A player drags to launch a
paper plane over endless rolling terrain, steers and boosts it, and picks up
stars. When the flight ends, its earnings go into a persistent balance that
buys upgrades.

Four source files make up the core, and each has its own module:

- `Progression` (`progression.dfy`) models `src/game/GameState.js`. This is
  the progression store: the balance, the four upgrade levels
  (speed, weight, aero, fuel) and their prices, which are
  `floor(base * 1.5^(level - offset))`. It also covers the all-or-nothing
  purchase, the reset to defaults, the save, and the fallback rules for
  loading a save. The class `GameState` keeps the source's fields and
  updates them in place. Each method is tied to a pure function (`Buy`,
  `Restore`, `Snapshot`), and the lemmas state the source's promises about
  those functions.
- `Environment` (`environment.dfy`) models `src/game/World.js`. Ground
  segments are 300 units wide and their list has no gaps. It starts with
  100 segments and grows during a flight by at most one segment per tick;
  only a reset rebuilds it. A segment may
  spawn one star, and stars within radius 40 are captured, one way only.
  There are also decorative clouds. The class `World` keeps the three lists
  as `seq` fields, plus a ghost map from each star to the segment that
  spawned it. Its invariant says the segments have no gaps, each star sits
  in its segment's band, and no segment spawned two stars.
- `Plane` (`plane.dfy`) models `src/game/Player.js`. It covers the boost
  fuel gauge and the boosting flag, and the trail of particles: they fade,
  expire, and are capped at 30. It also covers the two `while` loops that
  wrap the steering angle into [-PI, PI].
- `Flight` (`flight.dfy`) models `src/game/Game.js`, the session
  controller. A drag gesture leads to a launch. Each flying frame updates
  the camera, distance and altitude, the star income at the crane
  multiplier, the 300-frame multiplier timer, a shooting star's kick and
  refill, and the earnings. The end test then credits the earnings to the
  balance exactly once, and a restart follows.

`common.dfy` holds a few shared definitions: `Option`, `Math.min` and
`Math.max`, powers, and an integer-division fact. This README uses these
shorthands:

- **tick input**: what the physics engine, the browser, the random number
  generator and the trigonometric functions supply each frame. The model
  takes these values as parameters:
  - `Tick` holds a frame's body state, keys, angles, collision result,
    canvas size and random draws.
  - `SegmentDraws` and `CloudDraws` are records of `Math.random` values in
    [0, 1).
  - `sine` is the function a `World` is built with.
- **squared comparisons**: the source compares `Math.sqrt(...)` with a
  constant. The model compares the squared value with the squared constant,
  which is exactly equivalent over the reals. The one length that is used
  as a value, the drag length in `onLaunchEnd`, is a parameter constrained
  by `len * len == dx * dx + dy * dy`.
- JavaScript numbers are Dafny `real`s. Balances, prices and levels are
  `int`s. `1.5^e` is written `3^e / 2^e`, and `Math.floor` of a quotient
  becomes integer division.

Three facts about the source shape the model:

- `src/game/World.js` has no tiered star values, thermals, wind zones or
  high-altitude stars, so none is modelled.
- `src/game/Game.js:211` calls `world.checkStarCollisions`, which
  `src/game/World.js` does not define. Its `{collected, multiplier, boost}`
  result therefore comes in as part of the tick input (`Collection`).
- The earnings use the altitude of the current frame, not `maxAltitude`
  (`src/game/Game.js:248`). The end test only fires within 80 of the canvas
  bottom or below it, so the altitude bonus of the frame that settles a run
  is always 0 (`Flight.EndingAltitudeBonus`).

## Model

| member | source | states |
|---|---|---|
| Progression.Levels.Bump | src/game/GameState.js:34 | `upgrades[type]++` raises exactly the bought kind by one and leaves the other three levels unchanged |
| Progression.CostIsFloor | src/game/GameState.js:42-46 | from the kind's starting level on, the price is the floor of base * 1.5^(level - offset): price * 2^e <= base * 3^e < (price + 1) * 2^e |
| Progression.CostIsFloorBelow | src/game/GameState.js:42-46 | below the kind's starting level (reachable only from a loaded save), the price is the floor of base / 1.5^m with m = offset - level: price * 3^m <= base * 2^m < (price + 1) * 3^m |
| Progression.Cost | src/game/GameState.js:42-46 | definition of the price; properties in Progression.CostIsFloor, Progression.CostIsFloorBelow, Progression.CostIncreases |
| Progression.GameState.UpgradeCost | src/game/GameState.js:42-46 | definition: the price of the current level; properties in Progression.CostIsFloor |
| Progression.Buy | src/game/GameState.js:29-40 | definition of the purchase on values; properties in Progression.BuyIsAtomic |
| Progression.Restore | src/game/GameState.js:56-67 | definition of the loading rules; properties in Progression.RestoreFallback, Progression.RestoreSnapshot |
| Progression.CostAtLeastBase | src/game/GameState.js:42-46 | from its starting level on, a kind never costs less than its base price |
| Progression.CostIncreases | src/game/GameState.js:42-46 | from its starting level on, each level of a kind costs strictly more than the one before |
| Progression.DefaultPrices | src/game/GameState.js:19-24 | at the default levels, speed costs 50, weight 75, aero 100 and fuel 200; speed 2 costs 75, fuel 1 costs 300, aero 3 costs 225 |
| Progression.BuyIsAtomic | src/game/GameState.js:29-40 | a purchase succeeds iff the balance covers the price; on success the balance drops by exactly the price and only the bought level rises, by one; on failure nothing changes |
| Progression.BuyKeepsBalance | src/game/GameState.js:32-33 | a purchase never takes a non-negative balance below zero and never raises the balance |
| Progression.BuyRaisesPrice | src/game/GameState.js:29-46 | from the kind's starting level on, after a successful purchase the next level of that kind costs strictly more |
| Progression.BuyScenarios | src/game/GameState.js:29-40 | with balance 0 and the default levels nothing is bought; with 100, speed is bought, leaving 50 and speed level 2 |
| Progression.RestoreFallback | src/game/GameState.js:56-67 | no save or an unparseable one keeps the current balance and levels; a falsy saved money reads as 0; missing saved upgrades keep the current levels |
| Progression.RestoreSnapshot | src/game/GameState.js:48-67 | loading what saveProgress wrote restores exactly the saved balance and levels |
| Progression.GameState.constructor | src/game/GameState.js:2-27 | state is menu, the run record is zeroed, and balance and levels are the defaults (0; 1, 1, 1, 0) with the saved game applied by the loading rules |
| Progression.GameState.LoadProgress | src/game/GameState.js:56-67 | balance and levels become the loading rules applied to the stored entry and the current fields; nothing else changes |
| Progression.GameState.SaveProgress | src/game/GameState.js:48-54 | the stored entry becomes a record of the current balance and levels |
| Progression.GameState.UpgradeStat | src/game/GameState.js:29-40 | result and new balance and levels are those of the all-or-nothing purchase; a success saves, and a failure leaves the stored entry alone |
| Progression.GameState.ResetProgress | src/game/GameState.js:69-73 | balance 0 and levels {1, 1, 1, 0} whatever came before, and those are saved |
| Environment.Terrain | src/game/World.js:14-17 | the initial terrain has exactly n segments, segment i at x = 300 i |
| Environment.NewStar | src/game/World.js:43-51 | a spawned star lies at x in [seg.x, seg.x + 200) and y in (ground - 270, ground - 120], uncollected, unrotated, with pulse in [0, 2 PI) |
| Environment.SpawnedBounded | src/game/World.js:43-51 | building segments spawns at most one star per segment, all uncollected |
| Environment.CloudFrom | src/game/World.js:19-26 | a cloud lies at x in [0, 10000) and y in [100, 400), with size in [40, 100) and speed in [0.1, 0.4) |
| Environment.CloudsFrom | src/game/World.js:19-26 | each cloud draw yields exactly one cloud |
| Environment.Touched | src/game/World.js:60-73 | the collection pass keeps every star in the list (no star is removed) |
| Environment.Touch | src/game/World.js:60-73 | definition of one star's step of the collection pass; properties in Environment.SweepCollects |
| Environment.WithinOffset | src/game/World.js:63-67 | capture depends only on the offset between player and star: strictly less than 40 |
| Environment.CaptureIsStrict | src/game/World.js:63-69 | a player on an uncollected star captures it, a player at distance exactly 40 does not, one at 39 does |
| Environment.SweepKeepsStars | src/game/World.js:60-73 | over any number of ticks stars never move, and a collected star is never changed again (rotation and pulse freeze) |
| Environment.SweepCollects | src/game/World.js:60-73 | over any number of ticks a star ends up collected iff it was already, or the player came strictly within 40 of it at some tick |
| Environment.World.StarsBounded | src/game/World.js:43-51 | there are never more stars than ground segments |
| Environment.World.constructor | src/game/World.js:4-12 | the world starts with the 100-segment terrain, the stars those segments spawned, and 30 clouds, and satisfies the world invariant |
| Environment.World.CreateInitialWorld | src/game/World.js:14-27 | 100 segments at x = 300 i, the stars they spawn in order, and 30 clouds appended |
| Environment.World.CreateGroundSegment | src/game/World.js:29-52 | appends exactly the segment at x and at most one star in its band |
| Environment.World.Update | src/game/World.js:54-74 | appends one segment, 300 beyond the last, iff the player is within 2000 of the last segment, then runs the collection pass over every star; the invariant (no gaps, stars placed, at most one star per segment) is kept and clouds are unchanged |
| Environment.World.Reset | src/game/World.js:189-196 | rebuilds exactly the initial 100 segments and their stars and grows the cloud list by exactly 30 |
| Plane.ThrottleContract | src/game/Player.js:33-69 | below speed 0.3 nothing changes; otherwise the plane boosts iff the boost key is held and fuel is positive, a boost burns exactly 0.8 clamped at 0, no boost leaves the fuel as it was, and fuel never rises nor goes negative |
| Plane.Throttled | src/game/Player.js:37-68 | definition of handleInput's effect on the gauge; properties in Plane.ThrottleContract |
| Plane.HoldBurns | src/game/Player.js:57-59 | holding boost at speed for n calls leaves exactly max(0, fuel - 0.8 n) |
| Plane.Faded | src/game/Player.js:103-107 | fading never grows the trail and leaves only particles with positive life |
| Plane.FadedMembers | src/game/Player.js:103-107 | a particle survives fading iff it is an old particle aged by 0.02 that still has positive life |
| Plane.NextTrail | src/game/Player.js:94-112 | after a trail update the trail holds at most 30 particles if it did before, every particle has life in (0, 1] |
| Plane.WrapAngle | src/game/Player.js:88-90 | the wrapped difference lies in [-PI, PI], differs from the input by whole turns, and is the input itself when that is in range |
| Plane.Player.constructor | src/game/Player.js:22-30 | boost fuel and the tank size both equal fuel level * 100, not boosting, empty trail |
| Plane.Player.HandleInput | src/game/Player.js:33-69 | the gauge and boost flag change as the throttle rule says, and the player invariant is kept |
| Plane.Player.Update | src/game/Player.js:71-113 | the body turns 12% of the wrapped difference towards its velocity's heading, and the trail becomes the pushed, faded and capped trail |
| Flight.Fold | src/game/Game.js:213-232 | definition of the bonus part of update; properties in Flight.FoldKeepsBonus, Flight.QuietDecay |
| Flight.Earnings | src/game/Game.js:248 | definition of the earnings; properties in Flight.EarningsInIntegers, Flight.EarningsMonotone |
| Flight.Ends | src/game/Game.js:254 | definition of the end test; properties in Flight.EndsCases, Flight.EndingAltitudeBonus |
| Flight.LaunchPower | src/game/Game.js:104 | definition of the launch power; properties in Flight.LaunchPowerBounds |
| Flight.Settle | src/game/Game.js:336-338 | definition of the settlement of one frame; properties in Flight.CreditedOnce |
| Flight.FoldKeepsBonus | src/game/Game.js:213-232 | a frame keeps multiplier >= 1, the timer in [0, 300], a spent timer means multiplier 1 and star income >= 0; stars are paid at the multiplier in force before the frame |
| Flight.CraneRaises | src/game/Game.js:220-224 | a crane adds its multiplier to the current one and leaves 299 frames on the timer after this one |
| Flight.QuietDecay | src/game/Game.js:226-232 | without cranes the multiplier holds for exactly the frames the timer has left and then is exactly 1, not before |
| Flight.CraneExpires | src/game/Game.js:220-232 | a crane worth 2 on multiplier 1 gives 3 with 299 frames left; still 3 after 298 quiet frames, back to 1 after 299 |
| Flight.EarningsInIntegers | src/game/Game.js:248 | the earnings floor(d * 0.15) + floor(a * 0.05) + stars equal (15 d) div 100 + a div 20 + stars |
| Flight.EarningsMonotone | src/game/Game.js:247-248 | earnings are never below the star income and grow with distance and altitude |
| Flight.DistanceOf | src/game/Game.js:204 | the distance is a non-negative integer, the floor of x / 10 for x >= 0 and 0 for negative x |
| Flight.AltitudeOf | src/game/Game.js:205 | the altitude is a non-negative integer, the floor of (height - y) / 10 above the bottom and 0 below it |
| Flight.EndsCases | src/game/Game.js:253-256 | more than 100 below the bottom always ends the flight; at or above 80 over the bottom, or at speed >= 0.8 and not below the margin, it never does |
| Flight.EndingAltitudeBonus | src/game/Game.js:248-256 | whenever the end test fires, the altitude is below 8 and its bonus floor(a * 0.05) is 0 |
| Flight.Refuel | src/game/Game.js:243-244 | a shooting star's refill gives min(fuel + 30, tank size), never lowers fuel, and leaves the boost flag unchanged |
| Flight.RefuelKeepsTank | src/game/Game.js:244 | a refill keeps the fuel within the tank bounds |
| Flight.CameraTarget | src/game/Game.js:199-200 | definition of the camera's target; properties in Flight.CameraCeiling, Flight.TrackCeiling |
| Flight.CameraCeiling | src/game/Game.js:199-202 | a camera at most a quarter canvas low stays so after one frame of following, wherever the plane is |
| Flight.TrackCeiling | src/game/Game.js:198-202 | over any number of frames on a canvas of fixed size, a camera that starts at most a quarter canvas low never goes lower |
| Flight.Follow | src/game/Game.js:201-202 | each frame the camera closes exactly 8% of its gap to the target on each axis |
| Flight.ChaseBetween | src/game/Game.js:198-202 | following a fixed target never overshoots: the camera stays between where it started and the target |
| Flight.LaunchPowerBounds | src/game/Game.js:104 | the launch power is drag / 80 * speed up to a drag of 320, then 4 * speed, and, for a speed level >= 0, always in [0, 4 * speed] |
| Flight.Launched | src/game/Game.js:144-146 | the launch velocity has x >= 5 and y <= -2, and keeps a component that is already in range; the position is unchanged |
| Flight.IdleFrames | src/game/Game.js:158-167 | frames outside a flight change neither the phase nor the balance |
| Flight.CreditedOnce | src/game/Game.js:336-338 | over any frames of a flight, the balance rises by the earnings of the first ending frame and only once; a flight that never ends credits nothing |
| Flight.CreditScenario | src/game/Game.js:336-338 | a balance of 100 and a run worth 37 end at 137, and extra ending frames do not credit again |
| Flight.Game.constructor | src/game/Game.js:7-45 | a store loaded from the save, in state menu, a fresh world, no plane, no drag, camera at the origin, multiplier 1 and timer 0 |
| Flight.Game.OnLaunchStart | src/game/Game.js:80-86 | a press starts a drag at the press point only in state launching; otherwise nothing changes |
| Flight.Game.OnLaunchMove | src/game/Game.js:88-91 | a move updates the drag end only while a drag is in progress |
| Flight.Game.OnLaunchEnd | src/game/Game.js:93-106 | a release always ends the drag; without a drag or with a drag shorter than 30 the state and the plane are unchanged; otherwise the plane launches opposite to the drag, scaled by the launch power; fuel, tank size and trail stay as they were |
| Flight.Game.LaunchPlane | src/game/Game.js:132-153 | with a plane: state flying, a zeroed run record stamped with the clock, and the clamped launch velocity, with fuel, tank size and trail unchanged; with no plane nothing changes |
| Flight.Game.StartLaunchMode | src/game/Game.js:108-123 | state launching, camera at the origin, star income 0, a new plane at rest at (150, height - 200) with a full tank |
| Flight.Game.EndFlight | src/game/Game.js:336-356 | state game over, the run's earnings credited to the balance, and the balance and levels saved |
| Flight.Game.Update | src/game/Game.js:182-269 | a flying frame: plane input and steering, camera, distance, altitude with maxAltitude the running maximum, bonuses by the frame fold, kick and refill, earnings, the end test settling the balance, and the world update, all in source order; the game invariant is kept |
| Flight.Game.Pilot | src/game/Game.js:183-194 | the engine's body, then handleInput, then the player's update; only the heading changes, by at most 0.12 PI |
| Flight.Game.Collect | src/game/Game.js:213-245 | the bonus fields follow the frame fold, the run's star count follows them, and a shooting star kicks the body by (8, -4) and refills the fuel |
| Flight.Game.Account | src/game/Game.js:248-256 | the earnings are recorded, and the end test settles the phase and the balance and saves |
| Flight.Game.GameLoop | src/game/Game.js:158-167 | a frame outside a flight changes nothing; a flying frame does exactly what Flight.Game.Update states: plane, camera, run record, bonuses, phase and balance settled by the end test, store, and world |
| Flight.Game.Reset | src/game/Game.js:364-380 | a new plane at rest at (150, height - 200) with a full tank, no boost and an empty trail; camera at the origin, star income 0, multiplier 1, timer 0; the world rebuilt; back in state launching with balance, levels and the drag fields untouched |
| Flight.Game.OnRestartKey | src/game/Game.js:70-73 | the R key does exactly what reset does, but only after a game over; in every other state nothing changes |

## Left out

- The physics engine is not modelled: `Engine.update`, gravity, `applyForce`
  (lift, dive, boost thrust, wind), the density and air-friction formulas,
  and the creation and removal of bodies. The body's state after each
  engine step is a tick input, and `setVelocity`/`setAngle` become field
  updates.
- Wind (`updateWind` and its force, `src/game/Game.js:172-191`) is left
  out. It is a random re-roll feeding only a physics force.
- All drawing is left out: the `render` methods, `renderLaunchScreen`,
  `renderLaunchTrajectory`, the multiplier banner and the particle drawing.
- The event wiring is left out: mouse and touch listeners, `resize`, the
  `keys` map, and the `window.dispatchEvent` notifications. Key presses
  arrive as `Keys`, and the canvas size arrives as a parameter.
- Scheduling is left out (`requestAnimationFrame`, `cancelAnimationFrame`,
  elapsed time). `Flight.Game.GameLoop` models one callback, and
  `Flight.Frames` models a sequence of them.
- `localStorage` and `JSON` mechanics are not modelled. A stored entry is
  one of three cases: none, unparseable, or a record whose money is either
  absent or falsy or a number, and whose upgrades are either absent or a
  full record.
    - A saved upgrades record with missing fields is not modelled.
    - A saved money that is truthy but not a number is not modelled.
- An unknown upgrade kind string, and the `NaN` price it would produce, is
  not modelled: `Kind` has exactly the four kinds.
- Floating-point rounding is not modelled; arithmetic is exact over the
  reals.
- `Math.random`, `Math.sin`, `Math.atan2`, `Math.cos` and `Math.sin` of the
  plane's angle are tick inputs or parameters, not computed.
- `world.checkStarCollisions` is not part of this model, because
  `src/game/World.js` does not define it. The cranes and shooting stars it
  would report are not spawned by `src/game/World.js` either.
- The collision result's star count and crane multiplier are taken as
  non-negative integers. Fractional or negative values are not modelled,
  since the function that would produce them is not part of this model.
- A ground segment is only its x and its height; its physics body is left
  out.
- `Array.prototype.filter` in the trail update mutates the particle objects
  in place, including the ones it drops. The model works on particle
  values, so aliasing between particles is not captured.
- The `Game` constructor and `init` are modelled as one constructor, since
  nothing happens between them apart from event wiring. `resizeCanvas` is
  not modelled.
- The run record a fresh `GameState` builds has no `starsCollected` field
  (it is `undefined` until the first launch). The model stores 0 there.
- Progression.CostIncreases: holds only from a kind's starting level on. A
  saved game with a level below it (negative for fuel, below 1 for the
  others) can price neighbouring levels equally; for example, speed at
  levels -10 and -9 both cost 0.
- Progression.BuyRaisesPrice: for the same reason, stated only for a
  purchase made at or above the kind's starting level.
- Flight.LaunchPowerBounds: the bound [0, 4 * speed] is stated for a speed
  level >= 0. A save with a negative speed level gives a power in
  [4 * speed, 0] instead.
- Flight.Game.Update: requires state flying, the only state in which
  `gameLoop` calls it. The source's `!this.player` early return is then
  unreachable, because the game invariant gives a plane in every state but
  the menu.
- Flight.Game.Update: states only that the heading changes by at most
  0.12 PI. The exact steering amount is stated by Plane.Player.Update,
  which it calls.
- Flight.Game.Pilot: same heading bound as Flight.Game.Update, for the same
  reason.
- Flight.Game.GameLoop: same heading bound as Flight.Game.Update for a
  flying frame, for the same reason.
- `src/game/UI.js` and `src/main.js` are not part of this model. They hold
  the shop screens and the DOM wiring that call these methods.
