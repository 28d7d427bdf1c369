/**
 * The bookkeeping of src/game/Player.js: the boost fuel gauge and the boosting
 * flag that handleInput keeps, the fading trail that update keeps, and the
 * wrapping of the steering angle into [-PI, PI].
 *
 * The body's position, velocity and angle are those the physics engine
 * reports; the forces handleInput and update apply are not modelled.
 */
module Plane {
  import opened Common
  import Progression

  /** What the physics engine reports of the plane's body. */
  datatype Body = Body(x: real, y: real, vx: real, vy: real, angle: real)

  /** The held keys handleInput reads: w or ArrowUp, s or ArrowDown, space. */
  datatype Keys = Keys(up: bool, down: bool, boost: bool)

  datatype Particle = Particle(x: real, y: real, life: real)

  /** Below this speed handleInput ignores the keys. */
  const ControlSpeed: real := 0.3
  /** Fuel burnt per handleInput call while boosting. */
  const Burn: real := 0.8
  const TrailCap: nat := 30
  /** Life a trail particle loses per update. */
  const FadeStep: real := 0.02

  /** The squared speed; speed < c is compared as SpeedSq < c * c. */
  function SpeedSq(b: Body): real
  {
    b.vx * b.vx + b.vy * b.vy
  }

  /** The fuel gauge and the boosting flag. */
  datatype Throttle = Throttle(fuel: real, boosting: bool)

  /** handleInput's effect on the gauge, at the given squared speed, with the boost key held or not. */
  function Throttled(t: Throttle, speedSq: real, held: bool): Throttle
  {
    if speedSq < ControlSpeed * ControlSpeed then t
    else if held && t.fuel > 0.0 then Throttle(MaxR(0.0, t.fuel - Burn), true)
    else t.(boosting := false)
  }

  /**
   * Below speed 0.3 nothing changes; otherwise the plane boosts iff the key is
   * held and there was fuel, and a boost burns 0.8, clamped at 0. Fuel never
   * rises and never goes below 0.
   */
  lemma ThrottleContract(t: Throttle, speedSq: real, held: bool)
    ensures var r := Throttled(t, speedSq, held);
      && (speedSq < 0.09 ==> r == t)
      && (speedSq >= 0.09 ==> (r.boosting <==> held && t.fuel > 0.0))
      && (r.fuel != t.fuel ==> r.boosting && r.fuel == MaxR(0.0, t.fuel - 0.8))
      && (speedSq >= 0.09 && held && t.fuel > 0.0 ==> r.fuel == MaxR(0.0, t.fuel - 0.8))
      && (speedSq >= 0.09 && !(held && t.fuel > 0.0) ==> r.fuel == t.fuel)
      && r.fuel <= t.fuel
      && (t.fuel >= 0.0 ==> r.fuel >= 0.0)
  {
  }

  /** n successive handleInput calls with the boost key held. */
  function Hold(t: Throttle, speedSq: real, n: nat): Throttle
    decreases n
  {
    if n == 0 then t else Hold(Throttled(t, speedSq, true), speedSq, n - 1)
  }

  /** Holding boost at speed for n calls burns exactly min(fuel, 0.8 n). */
  lemma {:induction false} HoldBurns(t: Throttle, speedSq: real, n: nat)
    requires speedSq >= 0.09 && t.fuel >= 0.0
    ensures Hold(t, speedSq, n).fuel == MaxR(0.0, t.fuel - 0.8 * n as real)
    decreases n
  {
    if n > 0 {
      var next := Throttled(t, speedSq, true);
      HoldBurns(next, speedSq, n - 1);
      if t.fuel > 0.8 {
        assert next.fuel == t.fuel - 0.8;
      } else {
        assert next.fuel == 0.0;
      }
    }
  }

  function Aged(p: Particle): Particle
  {
    p.(life := p.life - FadeStep)
  }

  /** The filter of update: every particle loses 0.02 life; those left with none are dropped. */
  function Faded(trail: seq<Particle>): (r: seq<Particle>)
    ensures |r| <= |trail|
    ensures forall i :: 0 <= i < |r| ==> r[i].life > 0.0
  {
    if trail == [] then []
    else (if Aged(trail[0]).life > 0.0 then [Aged(trail[0])] else []) + Faded(trail[1..])
  }

  /** Faded keeps exactly the aged particles that still have life. */
  lemma {:induction false} FadedMembers(trail: seq<Particle>, q: Particle)
    ensures q in Faded(trail) <==> q.life > 0.0 && exists p :: p in trail && q == Aged(p)
  {
    if trail != [] {
      FadedMembers(trail[1..], q);
      if exists p :: p in trail && q == Aged(p) {
        var p :| p in trail && q == Aged(p);
        if p != trail[0] {
          assert p in trail[1..];
        }
      }
      if exists p :: p in trail[1..] && q == Aged(p) {
        var p :| p in trail[1..] && q == Aged(p);
        assert p in trail;
      }
    }
  }

  /** One update of the trail: maybe push a new particle, fade, then drop the oldest beyond 30. */
  function NextTrail(trail: seq<Particle>, added: Option<Particle>): (r: seq<Particle>)
    ensures |trail| <= TrailCap ==> |r| <= TrailCap
    ensures forall i :: 0 <= i < |r| ==> r[i].life > 0.0
    ensures (forall i :: 0 <= i < |trail| ==> trail[i].life <= 1.0) && (added.Some? ==> added.value.life <= 1.0)
            ==> forall i :: 0 <= i < |r| ==> r[i].life <= 1.0
  {
    var pushed := if added.Some? then trail + [added.value] else trail;
    var kept := Faded(pushed);
    LivesBelowOne(pushed);
    if |kept| > TrailCap then kept[1..] else kept
  }

  /** Fading never raises a particle's life above what it was. */
  lemma {:induction false} LivesBelowOne(trail: seq<Particle>)
    ensures (forall i :: 0 <= i < |trail| ==> trail[i].life <= 1.0)
            ==> forall i :: 0 <= i < |Faded(trail)| ==> Faded(trail)[i].life <= 1.0
  {
    if trail != [] {
      LivesBelowOne(trail[1..]);
    }
  }

  /** The point 25 behind the body along its heading, given cos and sin of the heading. */
  function TrailPoint(b: Body, cosA: real, sinA: real): Particle
  {
    Particle(b.x - cosA * 25.0, b.y - sinA * 25.0, 1.0)
  }

  /**
   * The angle-wrap loops of update: subtract 2 PI while above PI, then add
   * 2 PI while below -PI. The result lies in [-PI, PI], differs from the input
   * by whole turns, and is the input itself when that is already in range.
   */
  method WrapAngle(diff: real) returns (r: real, ghost turns: int)
    ensures -PI <= r <= PI
    ensures r == diff + 2.0 * PI * turns as real
    ensures -PI <= diff <= PI ==> r == diff
  {
    r, turns := diff, 0;
    while r > PI
      invariant r == diff + 2.0 * PI * turns as real
      invariant r == diff || r > -PI
      invariant diff <= PI ==> r == diff
      decreases r.Floor
    {
      r, turns := r - 2.0 * PI, turns - 1;
    }
    while r < -PI
      invariant r == diff + 2.0 * PI * turns as real
      invariant r <= PI
      invariant -PI <= diff <= PI ==> r == diff
      decreases (-r).Floor
    {
      r, turns := r + 2.0 * PI, turns + 1;
    }
  }

  class Player {
    var body: Body
    var boostFuel: real
    var maxBoostFuel: real
    var isBoosting: bool
    var trail: seq<Particle>

    function Gauge(): Throttle
      reads this
    {
      Throttle(boostFuel, isBoosting)
    }

    /**
     * The fuel stays between min(0, max) and max (max is negative only for a
     * negative saved fuel level), the trail holds at most 30 particles, and
     * each particle has life in (0, 1].
     */
    ghost predicate Valid()
      reads this
    {
      && MinR(0.0, maxBoostFuel) <= boostFuel <= maxBoostFuel
      && |trail| <= TrailCap
      && forall i :: 0 <= i < |trail| ==> 0.0 < trail[i].life <= 1.0
    }

    /** The fuel fields of the constructor: a full tank of 100 per fuel level. */
    constructor (x: real, y: real, upgrades: Progression.Levels)
      ensures Valid()
      ensures body == Body(x, y, 0.0, 0.0, 0.0)
      ensures boostFuel == upgrades.fuel as real * 100.0 && maxBoostFuel == boostFuel
      ensures !isBoosting && trail == []
    {
      body := Body(x, y, 0.0, 0.0, 0.0);
      boostFuel := upgrades.fuel as real * 100.0;
      maxBoostFuel := upgrades.fuel as real * 100.0;
      isBoosting := false;
      trail := [];
    }

    /** The fuel and boost-flag part of handleInput. */
    method HandleInput(keys: Keys)
      requires Valid()
      modifies this`boostFuel, this`isBoosting
      ensures Valid()
      ensures Gauge() == Throttled(old(Gauge()), SpeedSq(body), keys.boost)
    {
      if SpeedSq(body) < ControlSpeed * ControlSpeed {
        return;
      }
      if keys.boost && boostFuel > 0.0 {
        isBoosting := true;
        boostFuel := MaxR(0.0, boostFuel - Burn);
      } else {
        isBoosting := false;
      }
    }

    /**
     * The steering and trail part of update: turn the body 12% of the wrapped
     * difference towards `target` (the angle atan2 gives for the velocity),
     * then update the trail. `cosA` and `sinA` are the cosine and sine of the
     * new angle.
     */
    method Update(target: real, cosA: real, sinA: real) returns (ghost steer: real, ghost turns: int)
      requires Valid()
      modifies this`body, this`trail
      ensures Valid()
      ensures -PI <= steer <= PI && steer == target - old(body.angle) + 2.0 * PI * turns as real
      ensures body == old(body).(angle := old(body.angle) + steer * 0.12)
      ensures trail == NextTrail(old(trail), if SpeedSq(body) > 1.0 then Some(TrailPoint(body, cosA, sinA)) else None)
    {
      var angleDiff;
      angleDiff, turns := WrapAngle(target - body.angle);
      steer := angleDiff;
      body := body.(angle := body.angle + angleDiff * 0.12);
      ghost var expected := NextTrail(trail, if SpeedSq(body) > 1.0 then Some(TrailPoint(body, cosA, sinA)) else None);
      if SpeedSq(body) > 1.0 {
        trail := trail + [TrailPoint(body, cosA, sinA)];
      }
      trail := Faded(trail);
      if |trail| > TrailCap {
        trail := trail[1..];
      }
      assert trail == expected;
    }
  }
}
