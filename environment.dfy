/**
 * The world of src/game/World.js: an append-only, gapless list of ground
 * segments 300 units wide, the stars that segments spawn, the decorative
 * clouds, and the per-tick extension of the ground and collection of stars.
 *
 * Math.random draws are passed in as SegmentDraws and CloudDraws records whose
 * fields lie in [0, 1); Math.sin is the `sine` function a World is built with.
 * The physics bodies of the segments are not modelled: a segment is its x and
 * the height y of its centre.
 */
module Environment {
  import opened Common

  const SegmentWidth: int := 300
  const InitialSegments: nat := 100
  /** A segment is appended while the player is within this distance of the last one. */
  const Lookahead: int := 2000
  const CloudBatch: nat := 30
  /** Only segments right of this x may spawn a star. */
  const StarMinX: int := 500
  const CaptureRadius: real := 40.0

  datatype Ground = Ground(x: int, y: real)
  datatype Star = Star(x: real, y: real, collected: bool, rotation: real, pulse: real)
  datatype Cloud = Cloud(x: real, y: real, size: real, speed: real)

  /** The draws one segment consumes: the spawn roll, then the star's x, y and pulse. */
  datatype SegmentDraws = SegmentDraws(spawn: real, dx: real, dy: real, pulse: real)
  /** The draws one cloud consumes. */
  datatype CloudDraws = CloudDraws(x: real, y: real, size: real, speed: real)

  /** A value Math.random can return. */
  predicate Unit(r: real) { 0.0 <= r < 1.0 }

  predicate SegmentDrawsOk(d: SegmentDraws) { Unit(d.spawn) && Unit(d.dx) && Unit(d.dy) && Unit(d.pulse) }

  predicate CloudDrawsOk(d: CloudDraws) { Unit(d.x) && Unit(d.y) && Unit(d.size) && Unit(d.speed) }

  predicate AllSegmentDrawsOk(ds: seq<SegmentDraws>) { forall i :: 0 <= i < |ds| ==> SegmentDrawsOk(ds[i]) }

  predicate AllCloudDrawsOk(ds: seq<CloudDraws>) { forall i :: 0 <= i < |ds| ==> CloudDrawsOk(ds[i]) }

  /** The segment createGroundSegment builds at x: baseline height - 100, varied by 80 * sin(0.005 x). */
  function GroundAt(x: int, height: real, sine: real -> real): Ground
  {
    Ground(x, height - 100.0 + sine(x as real * 0.005) * 80.0)
  }

  /** The first n segments, at x = 300 i. */
  function Terrain(n: nat, height: real, sine: real -> real): (r: seq<Ground>)
    ensures |r| == n
    ensures forall i :: 0 <= i < n ==> r[i].x == SegmentWidth * i
  {
    seq(n, i requires 0 <= i < n => GroundAt(SegmentWidth * i, height, sine))
  }

  /** update appends a segment iff the player is within 2000 of the last one. */
  predicate NeedsSegment(grounds: seq<Ground>, px: real)
    requires grounds != []
  {
    px > (grounds[|grounds| - 1].x - Lookahead) as real
  }

  /** The segment update appends: 300 right of the last one. */
  function NextSegment(grounds: seq<Ground>, height: real, sine: real -> real): Ground
    requires grounds != []
  {
    GroundAt(grounds[|grounds| - 1].x + SegmentWidth, height, sine)
  }

  /** Where a star spawned by segment g lies: x in [g.x, g.x + 200), y in (g.y - 270, g.y - 120]. */
  predicate InBand(s: Star, g: Ground)
  {
    && g.x > StarMinX
    && g.x as real <= s.x < g.x as real + 200.0
    && g.y - 270.0 < s.y <= g.y - 120.0
  }

  /** Whether segment g spawns a star: the roll exceeds 0.6 and the segment lies right of 500. */
  predicate Spawns(g: Ground, d: SegmentDraws)
  {
    d.spawn > 0.6 && g.x > StarMinX
  }

  /** The star a spawning segment pushes. */
  function NewStar(g: Ground, d: SegmentDraws): (s: Star)
    requires SegmentDrawsOk(d) && g.x > StarMinX
    ensures InBand(s, g)
    ensures !s.collected && s.rotation == 0.0 && 0.0 <= s.pulse < 2.0 * PI
  {
    Star(g.x as real + d.dx * 200.0, g.y - 120.0 - d.dy * 150.0, false, 0.0, d.pulse * PI * 2.0)
  }

  /** The stars segment g adds: at most one. */
  function StarFor(g: Ground, d: SegmentDraws): seq<Star>
    requires SegmentDrawsOk(d)
  {
    if Spawns(g, d) then [NewStar(g, d)] else []
  }

  /** The stars a run of segments spawns, one draw record per segment, in order. */
  function Spawned(gs: seq<Ground>, ds: seq<SegmentDraws>): seq<Star>
    requires |gs| == |ds| && AllSegmentDrawsOk(ds)
  {
    if gs == [] then []
    else Spawned(gs[..|gs| - 1], ds[..|ds| - 1]) + StarFor(gs[|gs| - 1], ds[|ds| - 1])
  }

  /** Building segments never spawns more stars than segments, and every new star is uncollected. */
  lemma {:induction false} SpawnedBounded(gs: seq<Ground>, ds: seq<SegmentDraws>)
    requires |gs| == |ds| && AllSegmentDrawsOk(ds)
    ensures |Spawned(gs, ds)| <= |gs|
    ensures forall j :: 0 <= j < |Spawned(gs, ds)| ==> !Spawned(gs, ds)[j].collected
  {
    if gs != [] {
      SpawnedBounded(gs[..|gs| - 1], ds[..|ds| - 1]);
    }
  }

  /** A cloud from its four draws. */
  function CloudFrom(d: CloudDraws): (c: Cloud)
    requires CloudDrawsOk(d)
    ensures 0.0 <= c.x < 10000.0 && 100.0 <= c.y < 400.0
    ensures 40.0 <= c.size < 100.0 && 0.1 <= c.speed < 0.4
  {
    Cloud(d.x * 10000.0, 100.0 + d.y * 300.0, 40.0 + d.size * 60.0, 0.1 + d.speed * 0.3)
  }

  function CloudsFrom(ds: seq<CloudDraws>): (r: seq<Cloud>)
    requires AllCloudDrawsOk(ds)
    ensures |r| == |ds|
  {
    seq(|ds|, i requires 0 <= i < |ds| => CloudFrom(ds[i]))
  }

  /** The player at (px, py) is strictly closer than 40 to star s (compared as squares). */
  predicate Within(s: Star, px: real, py: real)
  {
    (px - s.x) * (px - s.x) + (py - s.y) * (py - s.y) < CaptureRadius * CaptureRadius
  }

  /** One star's step of the collection pass: collected stars are skipped. */
  function Touch(s: Star, px: real, py: real): Star
  {
    if s.collected then s
    else s.(collected := Within(s, px, py), rotation := s.rotation + 0.05, pulse := s.pulse + 0.1)
  }

  /** The collection pass of update over all stars. */
  function Touched(stars: seq<Star>, px: real, py: real): (r: seq<Star>)
    ensures |r| == |stars|
  {
    seq(|stars|, i requires 0 <= i < |stars| => Touch(stars[i], px, py))
  }

  /** Capture depends only on the offset between the player and the star. */
  lemma WithinOffset(s: Star, dx: real, dy: real)
    ensures Within(s, s.x + dx, s.y + dy) <==> dx * dx + dy * dy < 1600.0
  {
    assert s.x + dx - s.x == dx && s.y + dy - s.y == dy;
  }

  /**
   * The capture radius is strict: a player exactly on an uncollected star takes
   * it, a player at distance exactly 40 (straight or on a 24-32-40 diagonal) does not.
   */
  lemma CaptureIsStrict(s: Star)
    requires !s.collected
    ensures Touch(s, s.x, s.y).collected
    ensures !Touch(s, s.x + 40.0, s.y).collected
    ensures !Touch(s, s.x - 24.0, s.y + 32.0).collected
    ensures Touch(s, s.x, s.y - 39.0).collected
  {
    WithinOffset(s, 0.0, 0.0);
    WithinOffset(s, 40.0, 0.0);
    WithinOffset(s, -24.0, 32.0);
    WithinOffset(s, 0.0, -39.0);
  }

  datatype Point = Point(x: real, y: real)

  /** The collection passes of successive ticks, the player at the given positions. */
  function Sweep(stars: seq<Star>, path: seq<Point>): (r: seq<Star>)
    decreases |path|
  {
    if path == [] then stars else Sweep(Touched(stars, path[0].x, path[0].y), path[1..])
  }

  /** At some tick of the path the player is strictly within 40 of s. */
  predicate PassesNear(s: Star, path: seq<Point>)
  {
    exists t :: 0 <= t < |path| && Within(s, path[t].x, path[t].y)
  }

  lemma PassesNearStep(s: Star, path: seq<Point>)
    requires path != []
    ensures PassesNear(s, path) <==> Within(s, path[0].x, path[0].y) || PassesNear(s, path[1..])
  {
    if PassesNear(s, path) {
      var t :| 0 <= t < |path| && Within(s, path[t].x, path[t].y);
      if t > 0 {
        assert path[1..][t - 1] == path[t];
      }
    }
    if PassesNear(s, path[1..]) {
      var t :| 0 <= t < |path[1..]| && Within(s, path[1..][t].x, path[1..][t].y);
      assert path[1..][t] == path[t + 1];
    }
  }

  /** Sweeping keeps every star in place, and a collected star exactly as it was. */
  lemma {:induction false} SweepKeepsStars(stars: seq<Star>, path: seq<Point>, i: int)
    requires 0 <= i < |stars|
    ensures |Sweep(stars, path)| == |stars|
    ensures Sweep(stars, path)[i].x == stars[i].x && Sweep(stars, path)[i].y == stars[i].y
    ensures stars[i].collected ==> Sweep(stars, path)[i] == stars[i]
    decreases |path|
  {
    if path != [] {
      SweepKeepsStars(Touched(stars, path[0].x, path[0].y), path[1..], i);
    }
  }

  /** Whether the player passes near a star depends only on where the star is. */
  lemma PassesNearPlace(s: Star, n: Star, path: seq<Point>)
    requires n.x == s.x && n.y == s.y
    ensures PassesNear(n, path) <==> PassesNear(s, path)
  {
    forall t | 0 <= t < |path|
      ensures Within(n, path[t].x, path[t].y) == Within(s, path[t].x, path[t].y)
    {
      WithinPlace(s, n, path[t].x, path[t].y);
    }
  }

  lemma WithinPlace(s: Star, n: Star, px: real, py: real)
    requires n.x == s.x && n.y == s.y
    ensures Within(n, px, py) == Within(s, px, py)
  {
  }

  /**
   * Over any number of ticks collection is one-way: a star ends collected iff
   * it was already, or the player passed strictly within 40 of it at some tick.
   */
  lemma {:induction false} SweepCollects(stars: seq<Star>, path: seq<Point>, i: int)
    requires 0 <= i < |stars|
    ensures |Sweep(stars, path)| == |stars|
    ensures Sweep(stars, path)[i].collected <==> stars[i].collected || PassesNear(stars[i], path)
    decreases |path|
  {
    SweepKeepsStars(stars, path, i);
    if path != [] {
      var next := Touched(stars, path[0].x, path[0].y);
      SweepCollects(next, path[1..], i);
      PassesNearStep(stars[i], path);
      PassesNearPlace(stars[i], next[i], path[1..]);
    }
  }

  /** A strictly increasing sequence of indices below n has at most n entries. */
  lemma {:induction false} IncreasingBelow(o: seq<nat>, n: nat)
    requires forall j :: 0 <= j < |o| ==> o[j] < n
    requires forall j, k :: 0 <= j < k < |o| ==> o[j] < o[k]
    ensures |o| <= n
  {
    if o != [] {
      var last := o[|o| - 1];
      IncreasingBelow(o[..|o| - 1], last);
    }
  }

  class World {
    /** Math.sin, as used for the terrain variance. */
    const sine: real -> real
    var grounds: seq<Ground>
    var stars: seq<Star>
    var clouds: seq<Cloud>
    /** For each star, the index of the segment that spawned it. */
    ghost var owner: seq<nat>

    /** Segment i lies at x = 300 i. */
    ghost predicate Gapless()
      reads this
    {
      forall i :: 0 <= i < |grounds| ==> grounds[i].x == SegmentWidth * i
    }

    /** Each star lies in the band of its own segment, and no segment owns two stars. */
    ghost predicate StarsPlaced()
      reads this
    {
      && |owner| == |stars|
      && (forall j :: 0 <= j < |stars| ==> owner[j] < |grounds| && InBand(stars[j], grounds[owner[j]]))
      && (forall j, k :: 0 <= j < k < |stars| ==> owner[j] < owner[k])
    }

    ghost predicate Valid()
      reads this
    {
      |grounds| >= InitialSegments && Gapless() && StarsPlaced()
    }

    /** There are never more stars than segments. */
    lemma StarsBounded()
      requires StarsPlaced()
      ensures |stars| <= |grounds|
    {
      IncreasingBelow(owner, |grounds|);
    }

    /** The constructor and its createInitialWorld. */
    constructor (sine: real -> real, height: real, segDraws: seq<SegmentDraws>, cloudDraws: seq<CloudDraws>)
      requires |segDraws| == InitialSegments && AllSegmentDrawsOk(segDraws)
      requires |cloudDraws| == CloudBatch && AllCloudDrawsOk(cloudDraws)
      ensures this.sine == sine && Valid()
      ensures grounds == Terrain(InitialSegments, height, sine)
      ensures stars == Spawned(grounds, segDraws)
      ensures clouds == CloudsFrom(cloudDraws)
    {
      this.sine := sine;
      grounds := [];
      stars := [];
      clouds := [];
      owner := [];
      new;
      CreateInitialWorld(height, segDraws, cloudDraws);
    }

    /** createInitialWorld: 100 segments from x = 0, then 30 more clouds. */
    method CreateInitialWorld(height: real, segDraws: seq<SegmentDraws>, cloudDraws: seq<CloudDraws>)
      requires grounds == [] && stars == [] && owner == []
      requires |segDraws| == InitialSegments && AllSegmentDrawsOk(segDraws)
      requires |cloudDraws| == CloudBatch && AllCloudDrawsOk(cloudDraws)
      modifies this
      ensures Valid()
      ensures grounds == Terrain(InitialSegments, height, sine)
      ensures stars == Spawned(grounds, segDraws)
      ensures clouds == old(clouds) + CloudsFrom(cloudDraws)
    {
      for i := 0 to InitialSegments
        invariant grounds == Terrain(i, height, sine)
        invariant stars == Spawned(grounds, segDraws[..i])
        invariant StarsPlaced() && clouds == old(clouds)
      {
        assert Terrain(i + 1, height, sine)[..i] == grounds;
        assert segDraws[..i + 1][..i] == segDraws[..i];
        CreateGroundSegment(SegmentWidth * i, height, segDraws[i]);
      }
      assert segDraws[..InitialSegments] == segDraws;
      for i := 0 to CloudBatch
        invariant clouds == old(clouds) + CloudsFrom(cloudDraws[..i])
        invariant grounds == Terrain(InitialSegments, height, sine)
        invariant stars == Spawned(grounds, segDraws) && StarsPlaced()
      {
        assert CloudsFrom(cloudDraws[..i + 1]) == CloudsFrom(cloudDraws[..i]) + [CloudFrom(cloudDraws[i])];
        clouds := clouds + [CloudFrom(cloudDraws[i])];
      }
      assert cloudDraws[..CloudBatch] == cloudDraws;
    }

    /** createGroundSegment: push the segment at x, and maybe one star above it. */
    method CreateGroundSegment(x: int, height: real, d: SegmentDraws)
      requires SegmentDrawsOk(d) && StarsPlaced()
      modifies this
      ensures grounds == old(grounds) + [GroundAt(x, height, sine)]
      ensures stars == old(stars) + StarFor(GroundAt(x, height, sine), d)
      ensures clouds == old(clouds) && StarsPlaced()
    {
      var g := GroundAt(x, height, sine);
      grounds := grounds + [g];
      if d.spawn > 0.6 && x > StarMinX {
        stars := stars + [NewStar(g, d)];
        owner := owner + [|grounds| - 1];
      }
    }

    /**
     * update: append one segment when the player is within 2000 of the last
     * one, then run the collection pass over every star.
     */
    method Update(px: real, py: real, height: real, d: SegmentDraws)
      requires Valid() && SegmentDrawsOk(d)
      modifies this
      ensures Valid() && clouds == old(clouds)
      ensures NeedsSegment(old(grounds), px) ==>
                var g := NextSegment(old(grounds), height, sine);
                grounds == old(grounds) + [g] && stars == Touched(old(stars) + StarFor(g, d), px, py)
      ensures !NeedsSegment(old(grounds), px) ==>
                grounds == old(grounds) && stars == Touched(old(stars), px, py)
    {
      var last := grounds[|grounds| - 1];
      if px > (last.x - Lookahead) as real {
        CreateGroundSegment(last.x + SegmentWidth, height, d);
      }
      assert Valid();
      ghost var before, g0, o0 := stars, grounds, owner;
      var i := 0;
      while i < |stars|
        invariant 0 <= i <= |stars| == |before|
        invariant forall j :: 0 <= j < i ==> stars[j] == Touch(before[j], px, py)
        invariant forall j :: i <= j < |stars| ==> stars[j] == before[j]
        invariant grounds == g0 && owner == o0 && clouds == old(clouds)
      {
        var s := stars[i];
        if !s.collected {
          if Within(s, px, py) {
            s := s.(collected := true);
          }
          s := s.(rotation := s.rotation + 0.05, pulse := s.pulse + 0.1);
          stars := stars[i := s];
        }
        i := i + 1;
      }
      assert stars == Touched(before, px, py);
      assert StarsPlaced() by {
        forall j | 0 <= j < |stars|
          ensures InBand(stars[j], grounds[owner[j]])
        {
          assert stars[j].x == before[j].x && stars[j].y == before[j].y;
        }
      }
    }

    /** reset: drop every segment and star and build the initial world again; clouds only grow. */
    method Reset(height: real, segDraws: seq<SegmentDraws>, cloudDraws: seq<CloudDraws>)
      requires |segDraws| == InitialSegments && AllSegmentDrawsOk(segDraws)
      requires |cloudDraws| == CloudBatch && AllCloudDrawsOk(cloudDraws)
      modifies this
      ensures Valid()
      ensures grounds == Terrain(InitialSegments, height, sine)
      ensures stars == Spawned(grounds, segDraws)
      ensures clouds == old(clouds) + CloudsFrom(cloudDraws)
      ensures |clouds| == |old(clouds)| + CloudBatch
    {
      grounds := [];
      stars := [];
      owner := [];
      CreateInitialWorld(height, segDraws, cloudDraws);
    }
  }
}
