/**
 * The session controller of src/game/Game.js: the launch gesture, the launch
 * itself, the per-frame bookkeeping of a flight (camera, distance, altitude,
 * star income, the crane multiplier, shooting-star boosts, the running
 * earnings), the end-of-flight test that credits the earnings once, and the
 * restart.
 *
 * What the physics engine, the world's collision test, the canvas and the
 * browser supply each frame comes in as a `Tick`.
 */
module Flight {
  import opened Common
  import opened Progression
  import opened Environment
  import opened Plane

  /** A drag shorter than this does not launch. */
  const DragThreshold: real := 30.0
  /** The start position of the plane: x = 150, y = canvas height - 200. */
  const StartX: real := 150.0
  const StartDrop: real := 200.0
  /** A crane keeps its multiplier for 300 frames. */
  const CraneTicks: int := 300
  /** Fuel a shooting star refills. */
  const Refill: real := 30.0

  /** What checkStarCollisions reports for one frame. */
  datatype Collection = Collection(collected: int, multiplier: int, boost: bool)

  /** The run's star income, the money multiplier and the frames it has left. */
  datatype Bonus = Bonus(stars: int, multiplier: int, timer: int)

  /**
   * The multiplier is at least 1, the timer runs from 0 to 300, a spent timer
   * means the multiplier is back to 1, and the star income is never negative.
   */
  predicate BonusOk(b: Bonus)
  {
    && b.multiplier >= 1
    && 0 <= b.timer <= CraneTicks
    && (b.timer == 0 ==> b.multiplier == 1)
    && b.stars >= 0
  }

  /**
   * The bonus part of update: stars are paid at the current multiplier, a
   * crane adds to the multiplier and restarts the timer at 300, then the
   * timer counts down one frame and the multiplier drops to 1 when it runs out.
   */
  function Fold(b: Bonus, c: Collection): Bonus
  {
    var stars := if c.collected > 0 then b.stars + c.collected * b.multiplier else b.stars;
    var m := if c.multiplier > 0 then b.multiplier + c.multiplier else b.multiplier;
    var t := if c.multiplier > 0 then CraneTicks else b.timer;
    if t > 0 && t - 1 == 0 then Bonus(stars, 1, 0)
    else if t > 0 then Bonus(stars, m, t - 1)
    else Bonus(stars, m, t)
  }

  /**
   * A frame keeps the bonus invariant (for the non-negative counts the world
   * reports), never lowers the star income, pays each collected star at the
   * multiplier in force before the frame, and leaves the timer below 300.
   */
  lemma FoldKeepsBonus(b: Bonus, c: Collection)
    requires BonusOk(b) && c.collected >= 0 && c.multiplier >= 0
    ensures BonusOk(Fold(b, c))
    ensures Fold(b, c).stars == b.stars + c.collected * b.multiplier
    ensures Fold(b, c).timer < CraneTicks
  {
    assert c.collected * b.multiplier >= 0 by {
      if c.collected > 0 {
        assert c.collected * b.multiplier >= c.collected * 1;
      }
    }
  }

  /** A crane adds its multiplier on top of the current one, with 299 frames left after this one. */
  lemma CraneRaises(b: Bonus, c: Collection)
    requires c.multiplier > 0
    ensures Fold(b, c).multiplier == b.multiplier + c.multiplier
    ensures Fold(b, c).timer == CraneTicks - 1
  {
  }

  /** n frames in which nothing is collected. */
  function Quiet(b: Bonus, n: nat): Bonus
    decreases n
  {
    if n == 0 then b else Quiet(Fold(b, Collection(0, 0, false)), n - 1)
  }

  /**
   * Without cranes the multiplier holds for exactly as many frames as the
   * timer has left, then is 1; the star income does not move.
   */
  lemma {:induction false} QuietDecay(b: Bonus, n: nat)
    requires BonusOk(b)
    ensures n < b.timer ==> Quiet(b, n) == b.(timer := b.timer - n)
    ensures n >= b.timer ==> Quiet(b, n) == b.(multiplier := 1, timer := 0)
    decreases n
  {
    if n > 0 {
      var next := Fold(b, Collection(0, 0, false));
      FoldKeepsBonus(b, Collection(0, 0, false));
      QuietDecay(next, n - 1);
    }
  }

  /** The crane scenario: multiplier 1, a crane worth 2, 299 quiet frames later it is back to 1. */
  lemma CraneExpires()
    ensures Fold(Bonus(0, 1, 0), Collection(0, 2, false)) == Bonus(0, 3, 299)
    ensures Quiet(Bonus(0, 3, 299), 298).multiplier == 3
    ensures Quiet(Bonus(0, 3, 299), 299) == Bonus(0, 1, 0)
  {
    QuietDecay(Bonus(0, 3, 299), 298);
    QuietDecay(Bonus(0, 3, 299), 299);
  }

  /** The run's earnings: floor(distance * 0.15) + floor(altitude * 0.05) + star income. */
  function Earnings(distance: int, altitude: int, stars: int): int
  {
    ((distance as real) * 0.15).Floor + ((altitude as real) * 0.05).Floor + stars
  }

  lemma UnitFraction(r: int, d: int)
    requires 0 <= r < d
    ensures 0.0 <= (r as real) / (d as real) < 1.0
  {
  }

  lemma FloorOfRatio(n: int, d: int)
    requires d > 0
    ensures ((n as real) / (d as real)).Floor == n / d
  {
    var q, r := n / d, n % d;
    assert n == q * d + r && 0 <= r < d;
    UnitFraction(r, d);
    assert (n as real) == (q as real) * (d as real) + (r as real);
    assert (n as real) / (d as real) == q as real + (r as real) / (d as real);
  }

  /** The same earnings in integer arithmetic: 15% of the distance and 5% of the altitude, rounded down. */
  lemma EarningsInIntegers(distance: int, altitude: int, stars: int)
    ensures Earnings(distance, altitude, stars) == (15 * distance) / 100 + altitude / 20 + stars
  {
    FloorOfRatio(15 * distance, 100);
    FloorOfRatio(altitude, 20);
    assert (distance as real) * 0.15 == ((15 * distance) as real) / (100 as real);
    assert (altitude as real) * 0.05 == (altitude as real) / (20 as real);
  }

  /** Earnings never fall below the star income and grow with distance and altitude. */
  lemma EarningsMonotone(d: int, a: int, d2: int, a2: int, stars: int)
    requires 0 <= d <= d2 && 0 <= a <= a2
    ensures stars <= Earnings(d, a, stars) <= Earnings(d2, a2, stars)
  {
    EarningsInIntegers(d, a, stars);
    EarningsInIntegers(d2, a2, stars);
    DivLowerBound(15 * d2, 100, (15 * d) / 100);
    DivLowerBound(a2, 20, a / 20);
    DivLowerBound(15 * d, 100, 0);
    DivLowerBound(a, 20, 0);
  }

  /** The distance shown: tenths of the x position, rounded down, never negative. */
  function DistanceOf(x: real): (r: int)
    ensures r >= 0
    ensures x >= 0.0 ==> 10.0 * r as real <= x < 10.0 * (r + 1) as real
    ensures x < 0.0 ==> r == 0
  {
    MaxI(0, (x / 10.0).Floor)
  }

  /** The altitude shown: tenths of the height above the canvas bottom, rounded down, never negative. */
  function AltitudeOf(y: real, height: real): (r: int)
    ensures r >= 0
    ensures y <= height ==> 10.0 * r as real <= height - y < 10.0 * (r + 1) as real
    ensures y > height ==> r == 0
  {
    MaxI(0, ((height - y) / 10.0).Floor)
  }

  /** The end test: slower than 0.8 within 80 of the bottom, or more than 100 below it. */
  predicate Ends(b: Body, height: real)
  {
    (SpeedSq(b) < 0.64 && b.y > height - 80.0) || b.y > height + 100.0
  }

  /**
   * Falling off the bottom always ends the flight; high above the ground, or
   * fast enough and not below the bottom margin, it never does.
   */
  lemma EndsCases(b: Body, height: real)
    ensures b.y > height + 100.0 ==> Ends(b, height)
    ensures b.y <= height - 80.0 ==> !Ends(b, height)
    ensures SpeedSq(b) >= 0.64 && b.y <= height + 100.0 ==> !Ends(b, height)
  {
  }

  /** A flight always ends within 80 of the bottom or below it, so its altitude bonus is 0. */
  lemma EndingAltitudeBonus(b: Body, height: real)
    requires Ends(b, height)
    ensures AltitudeOf(b.y, height) < 8
    ensures ((AltitudeOf(b.y, height) as real) * 0.05).Floor == 0
  {
  }

  /** A shooting star's kick: 8 more to the right, 4 more upwards. */
  function Kicked(b: Body): Body
  {
    b.(vx := b.vx + 8.0, vy := b.vy - 4.0)
  }

  /** The gauge after a frame; a shooting star refills 30, up to the tank size. */
  function Refuel(t: Throttle, max: real, boost: bool): (r: Throttle)
    ensures r.boosting == t.boosting
    ensures boost && t.fuel <= max ==> t.fuel <= r.fuel <= MinR(t.fuel + 30.0, max) && (r.fuel == max || r.fuel == t.fuel + 30.0)
    ensures !boost ==> r == t
  {
    if boost then t.(fuel := MinR(t.fuel + Refill, max)) else t
  }

  /** A refill keeps the fuel inside the tank. */
  lemma RefuelKeepsTank(t: Throttle, max: real, boost: bool)
    requires MinR(0.0, max) <= t.fuel <= max
    ensures MinR(0.0, max) <= Refuel(t, max, boost).fuel <= max
  {
  }

  /** Where the camera heads: a third of the canvas behind the plane, at most a quarter canvas low. */
  function CameraTarget(x: real, y: real, width: real, height: real): (r: Point)
    ensures r.x == x - width / 3.0
    ensures r.y <= height / 4.0 && r.y <= y - height / 2.0
    ensures r.y == height / 4.0 || r.y == y - height / 2.0
  {
    Point(x - width / 3.0, MinR(y - height / 2.0, height / 4.0))
  }

  /** A camera at most a quarter canvas low stays so after following any plane position. */
  lemma CameraCeiling(c: Point, x: real, y: real, width: real, height: real)
    requires c.y <= height / 4.0
    ensures Follow(c, CameraTarget(x, y, width, height)).y <= height / 4.0
  {
  }

  /** The camera after following the plane through the given positions, on a canvas of fixed size. */
  function Track(c: Point, path: seq<Point>, width: real, height: real): Point
    decreases |path|
  {
    if path == [] then c
    else Track(Follow(c, CameraTarget(path[0].x, path[0].y, width, height)), path[1..], width, height)
  }

  /**
   * However the plane flies, a camera that starts at most a quarter canvas low
   * (the origin, for a canvas of non-negative height) is never lower than that.
   */
  lemma {:induction false} TrackCeiling(c: Point, path: seq<Point>, width: real, height: real)
    requires c.y <= height / 4.0
    ensures Track(c, path, width, height).y <= height / 4.0
    decreases |path|
  {
    if path != [] {
      var next := Follow(c, CameraTarget(path[0].x, path[0].y, width, height));
      CameraCeiling(c, path[0].x, path[0].y, width, height);
      TrackCeiling(next, path[1..], width, height);
    }
  }

  /** The camera closes 8% of its distance to the target each frame. */
  function Follow(c: Point, target: Point): (r: Point)
    ensures target.x - r.x == 0.92 * (target.x - c.x)
    ensures target.y - r.y == 0.92 * (target.y - c.y)
  {
    Point(c.x + (target.x - c.x) * 0.08, c.y + (target.y - c.y) * 0.08)
  }

  /** n frames following a fixed target. */
  function Chase(c: Point, target: Point, n: nat): Point
    decreases n
  {
    if n == 0 then c else Chase(Follow(c, target), target, n - 1)
  }

  /** Following a fixed target never overshoots: the camera stays between where it was and the target. */
  lemma {:induction false} ChaseBetween(c: Point, target: Point, n: nat)
    ensures c.x <= target.x ==> c.x <= Chase(c, target, n).x <= target.x
    ensures target.x <= c.x ==> target.x <= Chase(c, target, n).x <= c.x
    ensures c.y <= target.y ==> c.y <= Chase(c, target, n).y <= target.y
    ensures target.y <= c.y ==> target.y <= Chase(c, target, n).y <= c.y
    decreases n
  {
    if n > 0 {
      ChaseBetween(Follow(c, target), target, n - 1);
    }
  }

  /** The squared length of a drag. */
  function DragSq(start: Point, end: Point): real
  {
    (start.x - end.x) * (start.x - end.x) + (start.y - end.y) * (start.y - end.y)
  }

  /** The launch power: the drag length over 80, capped at 4, times the speed level. */
  function LaunchPower(len: real, speed: int): real
  {
    MinR(len / 80.0, 4.0) * speed as real
  }

  /** The power grows with the drag up to a length of 320 and is 4 times the speed level beyond. */
  lemma LaunchPowerBounds(len: real, speed: int)
    requires len >= 0.0 && speed >= 0
    ensures 0.0 <= LaunchPower(len, speed) <= 4.0 * speed as real
    ensures len <= 320.0 ==> LaunchPower(len, speed) == len * speed as real / 80.0
    ensures len >= 320.0 ==> LaunchPower(len, speed) == 4.0 * speed as real
  {
    var m := MinR(len / 80.0, 4.0);
    var s := speed as real;
    assert 0.0 <= m <= 4.0;
    assert m * s <= 4.0 * s by {
      assert (4.0 - m) * s >= 0.0;
    }
  }

  /** launchPlane's velocity: at least 5 to the right and at least 2 upwards. */
  function Launched(b: Body, vx: real, vy: real): (r: Body)
    ensures r.vx >= 5.0 && r.vy <= -2.0
    ensures vx >= 5.0 ==> r.vx == vx
    ensures vy <= -2.0 ==> r.vy == vy
    ensures r.x == b.x && r.y == b.y && r.angle == b.angle
  {
    b.(vx := MaxR(vx, 5.0), vy := MinR(vy, -2.0))
  }

  /** What one frame of the end test and endFlight do to the phase and the balance. */
  function Settle(p: Phase, money: int, o: Outcome): (Phase, int)
  {
    if p == Flying && o.ends then (GameOver, money + o.earned) else (p, money)
  }

  /** A frame's earnings and whether its end test fired. */
  datatype Outcome = Outcome(earned: int, ends: bool)

  /** A sequence of frames, each running only while flying. */
  function Frames(p: Phase, money: int, os: seq<Outcome>): (Phase, int)
    decreases |os|
  {
    if os == [] then (p, money)
    else var s := Settle(p, money, os[0]); Frames(s.0, s.1, os[1..])
  }

  predicate AnyEnds(os: seq<Outcome>)
  {
    exists i :: 0 <= i < |os| && os[i].ends
  }

  /** The earnings of the first frame whose end test fires. */
  function FirstEnding(os: seq<Outcome>): int
  {
    if os == [] then 0 else if os[0].ends then os[0].earned else FirstEnding(os[1..])
  }

  /** Outside a flight, frames change nothing. */
  lemma {:induction false} IdleFrames(p: Phase, money: int, os: seq<Outcome>)
    requires p != Flying
    ensures Frames(p, money, os) == (p, money)
  {
    if os != [] {
      IdleFrames(p, money, os[1..]);
    }
  }

  /**
   * A flight's earnings are credited exactly once: the balance rises by the
   * earnings of the first frame that ends it and by nothing else; a flight
   * that never ends credits nothing.
   */
  lemma {:induction false} CreditedOnce(money: int, os: seq<Outcome>)
    ensures Frames(Flying, money, os) ==
            if AnyEnds(os) then (GameOver, money + FirstEnding(os)) else (Flying, money)
  {
    if os != [] {
      if os[0].ends {
        IdleFrames(GameOver, money + os[0].earned, os[1..]);
        assert AnyEnds(os);
      } else {
        CreditedOnce(money, os[1..]);
        assert AnyEnds(os) <==> AnyEnds(os[1..]) by {
          if AnyEnds(os) {
            var i :| 0 <= i < |os| && os[i].ends;
            assert os[1..][i - 1].ends;
          }
          if AnyEnds(os[1..]) {
            var i :| 0 <= i < |os[1..]| && os[1..][i].ends;
            assert os[i + 1].ends;
          }
        }
      }
    }
  }

  /** A balance of 100 and a run worth 37 end at 137, however many frames follow. */
  lemma CreditScenario()
    ensures Frames(Flying, 100, [Outcome(10, false), Outcome(37, true), Outcome(50, true)]) == (GameOver, 137)
  {
  }

  /**
   * What one frame brings in: the body after the engine step, the held keys,
   * the angle of the body's velocity, the cosine and sine of the angle after
   * steering, what checkStarCollisions reports, the canvas size and the
   * random draws for a segment the world may append.
   */
  datatype Tick = Tick(stepped: Body, keys: Keys, heading: real, cosA: real, sinA: real,
                       collection: Collection, width: real, height: real, draws: SegmentDraws)

  predicate TickOk(t: Tick)
  {
    t.collection.collected >= 0 && t.collection.multiplier >= 0 && SegmentDrawsOk(t.draws)
  }

  class Game {
    var gameState: GameState
    var world: World
    var player: Player?
    var isLaunching: bool
    var launchStart: Point
    var launchEnd: Point
    var camera: Point
    var starsCollected: int
    var moneyMultiplier: int
    var multiplierTimer: int

    function Bonuses(): Bonus
      reads this
    {
      Bonus(starsCollected, moneyMultiplier, multiplierTimer)
    }

    /**
     * The world keeps its invariant, a plane exists in every phase but the
     * menu and keeps its own invariant, a drag is only in progress while
     * launching, and the bonus invariant holds.
     */
    ghost predicate Valid()
      reads this, gameState, world, player
    {
      && world.Valid()
      && (player != null ==> player.Valid())
      && (gameState.state != Menu ==> player != null)
      && (isLaunching ==> gameState.state == Launching)
      && BonusOk(Bonuses())
    }

    /** The constructor together with init: a store loaded from `saved` and a fresh world. */
    constructor (saved: Saved, sine: real -> real, height: real, segDraws: seq<SegmentDraws>, cloudDraws: seq<CloudDraws>)
      requires |segDraws| == InitialSegments && AllSegmentDrawsOk(segDraws)
      requires |cloudDraws| == CloudBatch && AllCloudDrawsOk(cloudDraws)
      ensures Valid() && fresh(gameState) && fresh(world)
      ensures gameState.state == Menu && gameState.Current() == Restore(saved, DefaultProgress)
      ensures world.grounds == Terrain(InitialSegments, height, sine)
      ensures world.stars == Spawned(world.grounds, segDraws) && world.clouds == CloudsFrom(cloudDraws)
      ensures player == null && !isLaunching
      ensures launchStart == Point(0.0, 0.0) && launchEnd == Point(0.0, 0.0) && camera == Point(0.0, 0.0)
      ensures Bonuses() == Bonus(0, 1, 0)
    {
      gameState := new GameState(saved);
      world := new World(sine, height, segDraws, cloudDraws);
      player := null;
      isLaunching := false;
      launchStart := Point(0.0, 0.0);
      launchEnd := Point(0.0, 0.0);
      camera := Point(0.0, 0.0);
      starsCollected := 0;
      moneyMultiplier := 1;
      multiplierTimer := 0;
    }

    /** onLaunchStart: a press starts a drag only while launching. */
    method OnLaunchStart(p: Point)
      requires Valid()
      modifies this`isLaunching, this`launchStart, this`launchEnd
      ensures Valid()
      ensures old(gameState.state) != Launching ==>
                isLaunching == old(isLaunching) && launchStart == old(launchStart) && launchEnd == old(launchEnd)
      ensures old(gameState.state) == Launching ==> isLaunching && launchStart == p && launchEnd == p
    {
      if gameState.state != Launching {
        return;
      }
      isLaunching := true;
      launchStart := p;
      launchEnd := p;
    }

    /** onLaunchMove: a move only matters during a drag. */
    method OnLaunchMove(p: Point)
      modifies this`launchEnd
      ensures launchEnd == if isLaunching then p else old(launchEnd)
    {
      if !isLaunching {
        return;
      }
      launchEnd := p;
    }

    /**
     * onLaunchEnd: a release ends the drag; a drag of length at least 30
     * launches the plane opposite to the drag, scaled by the launch power.
     * `len` is the drag's length and `now` the clock reading.
     */
    method OnLaunchEnd(len: real, now: int)
      requires Valid()
      requires len >= 0.0 && len * len == DragSq(launchStart, launchEnd)
      modifies this`isLaunching, gameState, player
      ensures Valid() && !isLaunching && player == old(player)
      ensures !old(isLaunching) || len < DragThreshold ==>
                gameState.state == old(gameState.state) && gameState.currentRun == old(gameState.currentRun)
                && (player != null ==> player.body == old(player.body))
      ensures old(isLaunching) && len >= DragThreshold ==>
                var power := LaunchPower(len, gameState.upgrades.speed);
                && gameState.state == Flying && gameState.currentRun == Run(0, 0, 0, 0, now)
                && player.body == Launched(old(player.body), (launchStart.x - launchEnd.x) * power * 0.1,
                                                             (launchStart.y - launchEnd.y) * power * 0.1)
      ensures gameState.Current() == old(gameState.Current()) && gameState.store == old(gameState.store)
      ensures player != null ==> player.Gauge() == old(player.Gauge()) && player.trail == old(player.trail)
                                 && player.maxBoostFuel == old(player.maxBoostFuel)
    {
      if !isLaunching {
        return;
      }
      isLaunching := false;
      var dx := launchStart.x - launchEnd.x;
      var dy := launchStart.y - launchEnd.y;
      if len < DragThreshold {
        return;
      }
      var power := LaunchPower(len, gameState.upgrades.speed);
      LaunchPlane(dx * power * 0.1, dy * power * 0.1, now);
    }

    /** launchPlane: start a flight with a fresh run record and an upward, forward velocity. */
    method LaunchPlane(vx: real, vy: real, now: int)
      requires Valid() && !isLaunching
      modifies gameState, player
      ensures Valid() && player == old(player)
      ensures player == null ==> gameState.state == old(gameState.state) && gameState.currentRun == old(gameState.currentRun)
      ensures player != null ==>
                && gameState.state == Flying && gameState.currentRun == Run(0, 0, 0, 0, now)
                && player.body == Launched(old(player.body), vx, vy)
                && player.Gauge() == old(player.Gauge()) && player.trail == old(player.trail)
                && player.maxBoostFuel == old(player.maxBoostFuel)
      ensures gameState.Current() == old(gameState.Current()) && gameState.store == old(gameState.store)
    {
      if player == null {
        return;
      }
      gameState.state := Flying;
      gameState.currentRun := Run(0, 0, 0, 0, now);
      player.body := Launched(player.body, vx, vy);
    }

    /** startLaunchMode: a new plane at rest at (150, height - 200), fitted with the current upgrades. */
    method StartLaunchMode(height: real)
      requires world.Valid() && BonusOk(Bonuses().(stars := 0))
      modifies this`camera, this`starsCollected, this`player, gameState`state
      ensures Valid() && fresh(player)
      ensures gameState.state == Launching && camera == Point(0.0, 0.0) && starsCollected == 0
      ensures player.body == Body(StartX, height - StartDrop, 0.0, 0.0, 0.0)
      ensures player.boostFuel == gameState.upgrades.fuel as real * 100.0 == player.maxBoostFuel
      ensures !player.isBoosting && player.trail == []
    {
      gameState.state := Launching;
      camera := Point(0.0, 0.0);
      starsCollected := 0;
      player := new Player(StartX, height - StartDrop, gameState.upgrades);
    }

    /** endFlight: game over, the run's earnings credited, the progress saved. */
    method EndFlight()
      modifies gameState
      ensures gameState.state == GameOver
      ensures gameState.money == old(gameState.money) + gameState.currentRun.moneyEarned
      ensures gameState.upgrades == old(gameState.upgrades) && gameState.currentRun == old(gameState.currentRun)
      ensures gameState.store == Snapshot(gameState.Current())
    {
      gameState.state := GameOver;
      gameState.money := gameState.money + gameState.currentRun.moneyEarned;
      gameState.SaveProgress();
    }

    /**
     * update, for a frame of a flight: the engine's body, the player's input
     * and steering, the camera, the run record, the bonuses, a shooting
     * star's kick and refill, the earnings, the end test and the world.
     */
    method Update(t: Tick)
      requires Valid() && TickOk(t) && gameState.state == Flying
      modifies this, gameState, world, player
      ensures Valid() && player == old(player) && player != null
      ensures world == old(world) && gameState == old(gameState)
      ensures player.body.x == t.stepped.x && player.body.y == t.stepped.y
      ensures (player.body.vx, player.body.vy) ==
              if t.collection.boost then (t.stepped.vx + 8.0, t.stepped.vy - 4.0) else (t.stepped.vx, t.stepped.vy)
      ensures -0.12 * PI <= player.body.angle - t.stepped.angle <= 0.12 * PI
      ensures player.Gauge() == Refuel(Throttled(old(player.Gauge()), SpeedSq(t.stepped), t.keys.boost),
                                       player.maxBoostFuel, t.collection.boost)
      ensures player.maxBoostFuel == old(player.maxBoostFuel)
      ensures player.trail == NextTrail(old(player.trail),
                                        if SpeedSq(t.stepped) > 1.0 then Some(TrailPoint(t.stepped, t.cosA, t.sinA)) else None)
      ensures camera == Follow(old(camera), CameraTarget(t.stepped.x, t.stepped.y, t.width, t.height))
      ensures Bonuses() == Fold(old(Bonuses()), t.collection)
      ensures var d, a := DistanceOf(t.stepped.x), AltitudeOf(t.stepped.y, t.height);
              gameState.currentRun == old(gameState.currentRun).(
                distance := d,
                maxAltitude := MaxI(old(gameState.currentRun.maxAltitude), a),
                starsCollected := if t.collection.collected > 0 then starsCollected else old(gameState.currentRun.starsCollected),
                moneyEarned := Earnings(d, a, starsCollected))
      ensures (gameState.state, gameState.money) ==
              Settle(Flying, old(gameState.money), Outcome(gameState.currentRun.moneyEarned, Ends(player.body, t.height)))
      ensures gameState.upgrades == old(gameState.upgrades)
      ensures Ends(player.body, t.height) ==> gameState.store == Snapshot(gameState.Current())
      ensures !Ends(player.body, t.height) ==> gameState.store == old(gameState.store)
      ensures isLaunching == old(isLaunching) && launchStart == old(launchStart) && launchEnd == old(launchEnd)
      ensures world.clouds == old(world.clouds)
      ensures NeedsSegment(old(world.grounds), t.stepped.x) ==>
                var g := NextSegment(old(world.grounds), t.height, world.sine);
                world.grounds == old(world.grounds) + [g]
                && world.stars == Touched(old(world.stars) + StarFor(g, t.draws), t.stepped.x, t.stepped.y)
      ensures !NeedsSegment(old(world.grounds), t.stepped.x) ==>
                world.grounds == old(world.grounds) && world.stars == Touched(old(world.stars), t.stepped.x, t.stepped.y)
    {
      Pilot(t);
      var p := player;

      var target := CameraTarget(t.stepped.x, t.stepped.y, t.width, t.height);
      camera := Follow(camera, target);

      var distance := DistanceOf(t.stepped.x);
      var altitude := AltitudeOf(t.stepped.y, t.height);
      gameState.currentRun := gameState.currentRun.(distance := distance,
                                                    maxAltitude := MaxI(gameState.currentRun.maxAltitude, altitude));

      Collect(t.collection);

      Account(Earnings(distance, altitude, starsCollected), Ends(p.body, t.height));
      world.Update(t.stepped.x, t.stepped.y, t.height, t.draws);
    }

    /** The end of update: record the earnings, and end the flight if the end test fired. */
    method Account(earned: int, ends: bool)
      requires gameState.state == Flying
      modifies gameState
      ensures gameState.currentRun == old(gameState.currentRun).(moneyEarned := earned)
      ensures (gameState.state, gameState.money) == Settle(Flying, old(gameState.money), Outcome(earned, ends))
      ensures gameState.upgrades == old(gameState.upgrades)
      ensures ends ==> gameState.store == Snapshot(gameState.Current())
      ensures !ends ==> gameState.store == old(gameState.store)
    {
      gameState.currentRun := gameState.currentRun.(moneyEarned := earned);
      if ends {
        EndFlight();
      }
    }

    /** The player part of update: the engine's body, then handleInput, then the player's update. */
    method Pilot(t: Tick)
      requires player != null && player.Valid()
      modifies player
      ensures player.Valid()
      ensures player.body.x == t.stepped.x && player.body.y == t.stepped.y
      ensures player.body.vx == t.stepped.vx && player.body.vy == t.stepped.vy
      ensures -0.12 * PI <= player.body.angle - t.stepped.angle <= 0.12 * PI
      ensures player.Gauge() == Throttled(old(player.Gauge()), SpeedSq(t.stepped), t.keys.boost)
      ensures player.maxBoostFuel == old(player.maxBoostFuel)
      ensures player.trail == NextTrail(old(player.trail),
                                        if SpeedSq(t.stepped) > 1.0 then Some(TrailPoint(t.stepped, t.cosA, t.sinA)) else None)
    {
      var p := player;
      p.body := t.stepped;
      p.HandleInput(t.keys);
      ghost var steer: real;
      ghost var turns: int;
      steer, turns := p.Update(t.heading, t.cosA, t.sinA);
    }

    /**
     * The collection part of update: star income at the current multiplier,
     * cranes, the multiplier timer, and a shooting star's kick and refill.
     */
    method Collect(r: Collection)
      requires player != null && player.Valid() && BonusOk(Bonuses())
      requires r.collected >= 0 && r.multiplier >= 0
      modifies this`starsCollected, this`moneyMultiplier, this`multiplierTimer
      modifies gameState`currentRun, player`body, player`boostFuel
      ensures Bonuses() == Fold(old(Bonuses()), r) && BonusOk(Bonuses())
      ensures gameState.currentRun == old(gameState.currentRun).(
                starsCollected := if r.collected > 0 then starsCollected else old(gameState.currentRun.starsCollected))
      ensures player.body == if r.boost then Kicked(old(player.body)) else old(player.body)
      ensures player.Gauge() == Refuel(old(player.Gauge()), player.maxBoostFuel, r.boost) && player.Valid()
    {
      ghost var before := Bonuses();
      if r.collected > 0 {
        starsCollected := starsCollected + r.collected * moneyMultiplier;
        gameState.currentRun := gameState.currentRun.(starsCollected := starsCollected);
      }
      if r.multiplier > 0 {
        moneyMultiplier := moneyMultiplier + r.multiplier;
        multiplierTimer := CraneTicks;
      }
      if multiplierTimer > 0 {
        multiplierTimer := multiplierTimer - 1;
        if multiplierTimer == 0 {
          moneyMultiplier := 1;
        }
      }
      assert Bonuses() == Fold(before, r);
      FoldKeepsBonus(before, r);
      RefuelKeepsTank(player.Gauge(), player.maxBoostFuel, r.boost);
      if r.boost {
        player.body := Kicked(player.body);
        player.boostFuel := MinR(player.boostFuel + Refill, player.maxBoostFuel);
      }
    }

    /** One call of the gameLoop callback: an update only while flying, otherwise nothing. */
    method GameLoop(t: Tick)
      requires Valid() && TickOk(t)
      modifies this, gameState, world, player
      ensures Valid()
      ensures old(gameState.state) != Flying ==>
                unchanged(this, old(gameState), old(world)) && (old(player) != null ==> unchanged(old(player)))
      ensures world == old(world) && gameState == old(gameState)
      // A flying frame does exactly what update does.
      ensures old(gameState.state) == Flying ==> player == old(player) && player != null
      ensures old(gameState.state) == Flying ==> player.body.x == t.stepped.x && player.body.y == t.stepped.y
      ensures old(gameState.state) == Flying ==>
                (player.body.vx, player.body.vy) ==
                if t.collection.boost then (t.stepped.vx + 8.0, t.stepped.vy - 4.0) else (t.stepped.vx, t.stepped.vy)
      ensures old(gameState.state) == Flying ==> -0.12 * PI <= player.body.angle - t.stepped.angle <= 0.12 * PI
      ensures old(gameState.state) == Flying ==>
                player.Gauge() == Refuel(Throttled(old(player.Gauge()), SpeedSq(t.stepped), t.keys.boost),
                                         player.maxBoostFuel, t.collection.boost)
      ensures old(gameState.state) == Flying ==> player.maxBoostFuel == old(player.maxBoostFuel)
      ensures old(gameState.state) == Flying ==>
                player.trail == NextTrail(old(player.trail),
                                          if SpeedSq(t.stepped) > 1.0 then Some(TrailPoint(t.stepped, t.cosA, t.sinA)) else None)
      ensures old(gameState.state) == Flying ==> camera == Follow(old(camera), CameraTarget(t.stepped.x, t.stepped.y, t.width, t.height))
      ensures old(gameState.state) == Flying ==> Bonuses() == Fold(old(Bonuses()), t.collection)
      ensures old(gameState.state) == Flying ==>
                var d, a := DistanceOf(t.stepped.x), AltitudeOf(t.stepped.y, t.height);
                gameState.currentRun == old(gameState.currentRun).(
                  distance := d,
                  maxAltitude := MaxI(old(gameState.currentRun.maxAltitude), a),
                  starsCollected := if t.collection.collected > 0 then starsCollected else old(gameState.currentRun.starsCollected),
                  moneyEarned := Earnings(d, a, starsCollected))
      ensures old(gameState.state) == Flying ==>
                (gameState.state, gameState.money) ==
                Settle(Flying, old(gameState.money), Outcome(gameState.currentRun.moneyEarned, Ends(player.body, t.height)))
      ensures old(gameState.state) == Flying ==> gameState.upgrades == old(gameState.upgrades)
      ensures old(gameState.state) == Flying ==> Ends(player.body, t.height) ==> gameState.store == Snapshot(gameState.Current())
      ensures old(gameState.state) == Flying ==> !Ends(player.body, t.height) ==> gameState.store == old(gameState.store)
      ensures old(gameState.state) == Flying ==> isLaunching == old(isLaunching) && launchStart == old(launchStart) && launchEnd == old(launchEnd)
      ensures old(gameState.state) == Flying ==> world.clouds == old(world.clouds)
      ensures old(gameState.state) == Flying ==>
                NeedsSegment(old(world.grounds), t.stepped.x) ==>
                  var g := NextSegment(old(world.grounds), t.height, world.sine);
                  world.grounds == old(world.grounds) + [g]
                  && world.stars == Touched(old(world.stars) + StarFor(g, t.draws), t.stepped.x, t.stepped.y)
      ensures old(gameState.state) == Flying ==>
                !NeedsSegment(old(world.grounds), t.stepped.x) ==>
                  world.grounds == old(world.grounds) && world.stars == Touched(old(world.stars), t.stepped.x, t.stepped.y)
    {
      if gameState.state == Flying {
        Update(t);
      }
    }

    /** reset: drop the plane, zero the camera and bonuses, rebuild the world, then startLaunchMode. */
    method Reset(height: real, segDraws: seq<SegmentDraws>, cloudDraws: seq<CloudDraws>)
      requires Valid()
      requires |segDraws| == InitialSegments && AllSegmentDrawsOk(segDraws)
      requires |cloudDraws| == CloudBatch && AllCloudDrawsOk(cloudDraws)
      modifies this, gameState`state, world
      ensures Valid() && fresh(player) && world == old(world) && gameState == old(gameState)
      ensures gameState.state == Launching && gameState.Current() == old(gameState.Current())
      ensures isLaunching == old(isLaunching) && launchStart == old(launchStart) && launchEnd == old(launchEnd)
      ensures camera == Point(0.0, 0.0) && Bonuses() == Bonus(0, 1, 0)
      ensures player.body == Body(StartX, height - StartDrop, 0.0, 0.0, 0.0)
      ensures player.boostFuel == gameState.upgrades.fuel as real * 100.0 == player.maxBoostFuel
      ensures !player.isBoosting && player.trail == []
      ensures world.grounds == Terrain(InitialSegments, height, world.sine)
      ensures world.stars == Spawned(world.grounds, segDraws)
      ensures world.clouds == old(world.clouds) + CloudsFrom(cloudDraws)
    {
      player := null;
      camera := Point(0.0, 0.0);
      starsCollected := 0;
      moneyMultiplier := 1;
      multiplierTimer := 0;
      world.Reset(height, segDraws, cloudDraws);
      StartLaunchMode(height);
    }

    /** An R key press: quickRestart, which resets, but only after a game over. */
    method OnRestartKey(height: real, segDraws: seq<SegmentDraws>, cloudDraws: seq<CloudDraws>)
      requires Valid()
      requires |segDraws| == InitialSegments && AllSegmentDrawsOk(segDraws)
      requires |cloudDraws| == CloudBatch && AllCloudDrawsOk(cloudDraws)
      modifies this, gameState`state, world
      ensures Valid()
      ensures old(gameState.state) != GameOver ==> unchanged(this, old(gameState), old(world))
      ensures old(gameState.state) == GameOver ==>
                && world == old(world) && gameState == old(gameState)
                && gameState.state == Launching && gameState.Current() == old(gameState.Current())
                && isLaunching == old(isLaunching) && launchStart == old(launchStart) && launchEnd == old(launchEnd)
                && camera == Point(0.0, 0.0) && Bonuses() == Bonus(0, 1, 0)
                && fresh(player) && player.body == Body(StartX, height - StartDrop, 0.0, 0.0, 0.0)
                && player.boostFuel == gameState.upgrades.fuel as real * 100.0 == player.maxBoostFuel
                && !player.isBoosting && player.trail == []
                && world.grounds == Terrain(InitialSegments, height, world.sine)
                && world.stars == Spawned(world.grounds, segDraws)
                && world.clouds == old(world.clouds) + CloudsFrom(cloudDraws)
    {
      if gameState.state == GameOver {
        Reset(height, segDraws, cloudDraws);
      }
    }
  }
}
