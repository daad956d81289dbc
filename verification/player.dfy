/**
 * The player character (player.py `Player`): heading, the per-frame
 * locomotion step with its bounds, slope and collision gates, and ball
 * pick-up.
 *
 * A step first drops stale cache entries, then turns, then (with W or S
 * held) proposes a move along the heading, snaps it to the ground height and
 * commits it only when it stays inside the playfield, is not too steep and
 * hits no collision proxy. Every height query goes through the cache, so the
 * cache is threaded through the step, also when the move is refused.
 */
module Locomotion {
  import opened Base
  import HeightCache
  import Collision

  const Speed: real := 5.0
  /** Degrees per second. */
  const RotationSpeed: real := 90.0
  /** Degrees. */
  const MaxSlope: real := 30.0
  /** The player floats this far above the ground. */
  const HeightOffset: real := 0.1
  const BoundX: real := 59.0
  const BoundZ: real := 100.0
  /** Distance of the four slope probes from the proposed point. */
  const ProbeRadius: real := 0.5
  /** Height change above which the slope is examined. */
  const SlopeGate: real := 0.1
  const BallCollectionRadius: real := 1.0

  const StartPosition: Vec3 := Vec3(-15.0, 0.0, -15.0)
  const StartDirection: Vec3 := Vec3(0.0, 0.0, -1.0)
  const StartAngle: real := 90.0

  /** Probe directions, in degrees, in the order they are examined. */
  const ProbeAngles: seq<real> := [0.0, 90.0, 180.0, 270.0]

  datatype Player = Player(
    position: Vec3,
    direction: Vec3,
    angle: real,
    cache: HeightCache.Cache,
    proxies: seq<Collision.Proxy>,
    mesh: seq<Vec3>,
    ground: Model)

  /**
   * A new player on the ground mesh `mesh` (already flattened to vertices),
   * at the start point lifted onto the ground; the clock reading `now` starts
   * the cache's first generation.
   */
  function NewPlayer(mesh: seq<Vec3>, ground: Model, now: real): (p: Player)
    ensures p.position.x == StartPosition.x && p.position.z == StartPosition.z
    ensures |mesh| > 0 ==> p.position.y == HeightCache.Fresh(mesh, StartPosition.x, StartPosition.z) + HeightOffset
    ensures |mesh| == 0 ==> p.position.y == HeightCache.EmptyMeshHeight + HeightOffset
    ensures p.direction == StartDirection && p.angle == StartAngle && p.proxies == []
    ensures HeightCache.GridExact(p.cache, mesh)
    ensures p.mesh == mesh && p.ground == ground && p.cache.lastClear == now
    ensures |mesh| > 0 ==> p.cache.entries == map[HeightCache.KeyOf(StartPosition.x, StartPosition.z) := p.position.y - HeightOffset]
    ensures |mesh| == 0 ==> p.cache.entries == map[]
  {
    var (h, c) := HeightCache.Query(HeightCache.Cache(map[], now), mesh, StartPosition.x, StartPosition.z);
    HeightCache.GridKey(-150, -150);
    assert StartPosition.x == (-150 as real) / 10.0;
    assert HeightCache.CentreHeight(mesh, (-150, -150)) == HeightCache.Fresh(mesh, StartPosition.x, StartPosition.z);
    Player(StartPosition.(y := h + HeightOffset), StartDirection, StartAngle, c, [], mesh, ground)
  }

  function AddCollisionObject(p: Player, model: Model, center: Vec3, scale: real, heightOffset: real): (p': Player)
    ensures p'.proxies == Collision.AddCollisionObject(p.proxies, model, center, scale, heightOffset)
    ensures p' == p.(proxies := p'.proxies)
  {
    p.(proxies := Collision.AddCollisionObject(p.proxies, model, center, scale, heightOffset))
  }

  /** Facing direction for a heading in degrees (0 looks down -z, 90 down +x). */
  function Heading(lib: MathLib, angle: real): Vec3 {
    Vec3(lib.sinDeg(angle), 0.0, -lib.cosDeg(angle))
  }

  /** A turns left, D turns right; each recomputes the facing direction. */
  function Turn(p: Player, lib: MathLib, dt: real, keys: Keys): (p': Player)
    ensures p' == p.(angle := p'.angle, direction := p'.direction)
  {
    var p1 := if keys.a then var a := p.angle + RotationSpeed * dt; p.(angle := a, direction := Heading(lib, a)) else p;
    if keys.d then var a := p1.angle - RotationSpeed * dt; p1.(angle := a, direction := Heading(lib, a)) else p1
  }

  lemma TurnHeading(p: Player, lib: MathLib, dt: real, keys: Keys)
    ensures var p' := Turn(p, lib, dt, keys);
            (keys.a || keys.d ==> p'.direction == Heading(lib, p'.angle))
            && (!keys.a && !keys.d ==> p'.direction == p.direction && p'.angle == p.angle)
            && (keys.a && keys.d ==> p'.angle == p.angle)
            && (keys.a && !keys.d ==> p'.angle == p.angle + RotationSpeed * dt)
            && (!keys.a && keys.d ==> p'.angle == p.angle - RotationSpeed * dt)
  {
  }

  /** The point probed in direction `deg` around `pos`. */
  function ProbePoint(lib: MathLib, pos: Vec3, deg: real): Vec3 {
    Add(pos, Vec3(ProbeRadius * lib.cosDeg(deg), 0.0, ProbeRadius * lib.sinDeg(deg)))
  }

  /** `degrees(atan2(|h - centre|, radius))`. */
  function SlopeOf(lib: MathLib, h: real, center: real): real {
    lib.atan2Deg(Abs(h - center), ProbeRadius)
  }

  /**
   * The probe loop from probe `i` on, with running maximum `acc`: it stops
   * as soon as the maximum exceeds the limit.
   */
  function Scan(c: HeightCache.Cache, mesh: seq<Vec3>, lib: MathLib, pos: Vec3, center: real, i: nat, acc: real)
    : (r: (real, HeightCache.Cache))
    requires i <= |ProbeAngles|
    decreases |ProbeAngles| - i
  {
    if i == |ProbeAngles| then (acc, c)
    else
      var q := ProbePoint(lib, pos, ProbeAngles[i]);
      var (h, c1) := HeightCache.Query(c, mesh, q.x, q.z);
      var m := Max(acc, SlopeOf(lib, h, center));
      if m > MaxSlope then (m, c1) else Scan(c1, mesh, lib, pos, center, i + 1, m)
  }

  /** `get_slope_angle`: the centre height, then the probe loop. */
  function SlopeAngle(c: HeightCache.Cache, mesh: seq<Vec3>, lib: MathLib, pos: Vec3): (r: (real, HeightCache.Cache))
    ensures r.0 >= 0.0
  {
    var (center, c1) := HeightCache.Query(c, mesh, pos.x, pos.z);
    ScanAtLeast(c1, mesh, lib, pos, center, 0, 0.0);
    Scan(c1, mesh, lib, pos, center, 0, 0.0)
  }

  lemma {:induction false} ScanAtLeast(c: HeightCache.Cache, mesh: seq<Vec3>, lib: MathLib, pos: Vec3, center: real, i: nat, acc: real)
    requires i <= |ProbeAngles|
    ensures Scan(c, mesh, lib, pos, center, i, acc).0 >= acc
    decreases |ProbeAngles| - i
  {
    if i < |ProbeAngles| {
      var q := ProbePoint(lib, pos, ProbeAngles[i]);
      var (h, c1) := HeightCache.Query(c, mesh, q.x, q.z);
      var m := Max(acc, SlopeOf(lib, h, center));
      if m <= MaxSlope {
        ScanAtLeast(c1, mesh, lib, pos, center, i + 1, m);
      }
    }
  }

  /**
   * Reference for the probe loop: the heights of all remaining probes,
   * queried in order, with no early exit.
   */
  function ProbeHeights(c: HeightCache.Cache, mesh: seq<Vec3>, lib: MathLib, pos: Vec3, i: nat): (hs: seq<real>)
    requires i <= |ProbeAngles|
    ensures |hs| == |ProbeAngles| - i
    decreases |ProbeAngles| - i
  {
    if i == |ProbeAngles| then []
    else
      var q := ProbePoint(lib, pos, ProbeAngles[i]);
      var (h, c1) := HeightCache.Query(c, mesh, q.x, q.z);
      [h] + ProbeHeights(c1, mesh, lib, pos, i + 1)
  }

  predicate AllGentle(lib: MathLib, hs: seq<real>, center: real) {
    forall k :: 0 <= k < |hs| ==> SlopeOf(lib, hs[k], center) <= MaxSlope
  }

  /**
   * The early exit does not change the verdict: the loop's answer is within
   * the limit exactly when the running maximum was and every probe of the
   * full scan is.
   */
  lemma {:induction false} ScanVerdict(c: HeightCache.Cache, mesh: seq<Vec3>, lib: MathLib, pos: Vec3, center: real, i: nat, acc: real)
    requires i <= |ProbeAngles|
    ensures Scan(c, mesh, lib, pos, center, i, acc).0 <= MaxSlope
            <==> acc <= MaxSlope && AllGentle(lib, ProbeHeights(c, mesh, lib, pos, i), center)
    decreases |ProbeAngles| - i
  {
    if i < |ProbeAngles| {
      var q := ProbePoint(lib, pos, ProbeAngles[i]);
      var (h, c1) := HeightCache.Query(c, mesh, q.x, q.z);
      var m := Max(acc, SlopeOf(lib, h, center));
      var rest := ProbeHeights(c1, mesh, lib, pos, i + 1);
      assert ProbeHeights(c, mesh, lib, pos, i) == [h] + rest;
      AllGentleCons(lib, h, rest, center);
      if m <= MaxSlope {
        assert Scan(c, mesh, lib, pos, center, i, acc) == Scan(c1, mesh, lib, pos, center, i + 1, m);
        ScanVerdict(c1, mesh, lib, pos, center, i + 1, m);
      } else {
        assert Scan(c, mesh, lib, pos, center, i, acc) == (m, c1);
      }
    }
  }

  lemma AllGentleCons(lib: MathLib, h: real, rest: seq<real>, center: real)
    ensures AllGentle(lib, [h] + rest, center) <==> SlopeOf(lib, h, center) <= MaxSlope && AllGentle(lib, rest, center)
  {
    var hs := [h] + rest;
    if SlopeOf(lib, h, center) <= MaxSlope && AllGentle(lib, rest, center) {
      forall k | 0 <= k < |hs|
        ensures SlopeOf(lib, hs[k], center) <= MaxSlope
      {
        if k > 0 {
          assert hs[k] == rest[k - 1];
        }
      }
    }
    if AllGentle(lib, hs, center) {
      assert SlopeOf(lib, hs[0], center) <= MaxSlope;
      forall k | 0 <= k < |rest|
        ensures SlopeOf(lib, rest[k], center) <= MaxSlope
      {
        assert rest[k] == hs[k + 1];
      }
    }
  }

  /** The slope test of a move: the centre height, then the four probes. */
  lemma SlopeAngleVerdict(c: HeightCache.Cache, mesh: seq<Vec3>, lib: MathLib, pos: Vec3)
    ensures var (center, c1) := HeightCache.Query(c, mesh, pos.x, pos.z);
            SlopeAngle(c, mesh, lib, pos).0 <= MaxSlope <==> AllGentle(lib, ProbeHeights(c1, mesh, lib, pos, 0), center)
  {
    var (center, c1) := HeightCache.Query(c, mesh, pos.x, pos.z);
    ScanVerdict(c1, mesh, lib, pos, center, 0, 0.0);
  }

  predicate InBounds(q: Vec3) {
    Abs(q.x) <= BoundX && Abs(q.z) <= BoundZ
  }

  /** The point a move along `dir` for `dt` seconds proposes. */
  function Proposed(pos: Vec3, dir: Vec3, dt: real): Vec3 {
    Add(pos, Scale(Scale(dir, Speed), dt))
  }

  /**
   * The result of the gated part of a move from `from` to the proposed point
   * `prop`: whether it is taken, the grounded point, and the cache after all
   * the queries it made.
   */
  datatype MoveOutcome = MoveOutcome(taken: bool, target: Vec3, cache: HeightCache.Cache)

  function TryMove(c: HeightCache.Cache, mesh: seq<Vec3>, lib: MathLib, proxies: seq<Collision.Proxy>, ground: Model,
                   from: Vec3, prop: Vec3): (o: MoveOutcome)
    requires InBounds(prop)
    ensures o.target.x == prop.x && o.target.z == prop.z
    ensures o.target.y == HeightCache.Query(c, mesh, prop.x, prop.z).0 + HeightOffset
    ensures o.taken ==> !Collision.Collides(proxies, ground, o.target)
    ensures o.taken && Abs(o.target.y - from.y) > SlopeGate ==>
              SlopeAngle(HeightCache.Query(c, mesh, prop.x, prop.z).1, mesh, lib, o.target).0 <= MaxSlope
    ensures !Collision.Collides(proxies, ground, o.target) && Abs(o.target.y - from.y) <= SlopeGate ==> o.taken
    ensures o.taken <==>
              !Collision.Collides(proxies, ground, o.target)
              && (Abs(o.target.y - from.y) > SlopeGate ==>
                    SlopeAngle(HeightCache.Query(c, mesh, prop.x, prop.z).1, mesh, lib, o.target).0 <= MaxSlope)
  {
    var (g, c1) := HeightCache.Query(c, mesh, prop.x, prop.z);
    var target := prop.(y := g + HeightOffset);
    var steep := Abs(target.y - from.y) > SlopeGate;
    var (slopeOk, c2) :=
      if steep then var (a, cs) := SlopeAngle(c1, mesh, lib, target); (a <= MaxSlope, cs)
      else (true, c1);
    MoveOutcome(slopeOk && !Collision.Collides(proxies, ground, target), target, c2)
  }

  /** One frame of `Player.update` at clock reading `now`. */
  function Update(p: Player, lib: MathLib, dt: real, keys: Keys, now: real): (p': Player)
    ensures p'.proxies == p.proxies && p'.mesh == p.mesh && p'.ground == p.ground
    ensures p'.angle == Turn(p, lib, dt, keys).angle && p'.direction == Turn(p, lib, dt, keys).direction
    ensures !keys.w && !keys.s ==> p'.position == p.position
  {
    var c0 := HeightCache.ClearOld(p.cache, now);
    var p1 := Turn(p, lib, dt, keys).(cache := c0);
    if !keys.w && !keys.s then p1
    else
      var move := if keys.w then p1.direction else Neg(p1.direction);
      var prop := Proposed(p1.position, move, dt);
      if !InBounds(prop) then p1
      else
        var o := TryMove(c0, p.mesh, lib, p.proxies, p.ground, p1.position, prop);
        if o.taken then p1.(position := o.target, cache := o.cache) else p1.(cache := o.cache)
  }

  /** The direction a frame moves in: forward with W (also when S is held), backward with S alone. */
  function MoveDirection(p: Player, lib: MathLib, dt: real, keys: Keys): Vec3 {
    var t := Turn(p, lib, dt, keys);
    if keys.w then t.direction else Neg(t.direction)
  }

  /**
   * A position change is a committed move: the new point is the proposed
   * step along the frame's direction, lies inside the playfield, sits
   * `HeightOffset` above the ground answer at that point, hits no proxy, and
   * passed the slope test when the height changed by more than the gate.
   */
  lemma UpdateCommitted(p: Player, lib: MathLib, dt: real, keys: Keys, now: real)
    ensures var p' := Update(p, lib, dt, keys, now);
            var c0 := HeightCache.ClearOld(p.cache, now);
            var prop := Proposed(p.position, MoveDirection(p, lib, dt, keys), dt);
            var (g, c1) := HeightCache.Query(c0, p.mesh, prop.x, prop.z);
            p'.position == p.position
            || ((keys.w || keys.s)
                && p'.position.x == prop.x && p'.position.z == prop.z
                && InBounds(p'.position)
                && p'.position.y == g + HeightOffset
                && !Collision.Collides(p.proxies, p.ground, p'.position)
                && (Abs(p'.position.y - p.position.y) > SlopeGate ==>
                      SlopeAngle(c1, p.mesh, lib, p'.position).0 <= MaxSlope))
  {
  }

  /**
   * An unobstructed in-bounds move is always taken when it is gentle, or
   * when it is steep but passes the slope test.
   */
  lemma UpdateTakesFreeMove(p: Player, lib: MathLib, dt: real, keys: Keys, now: real)
    requires keys.w || keys.s
    ensures var c0 := HeightCache.ClearOld(p.cache, now);
            var prop := Proposed(p.position, MoveDirection(p, lib, dt, keys), dt);
            var (g, c1) := HeightCache.Query(c0, p.mesh, prop.x, prop.z);
            var target := prop.(y := g + HeightOffset);
            InBounds(prop) && !Collision.Collides(p.proxies, p.ground, target)
            && (Abs(target.y - p.position.y) > SlopeGate ==> SlopeAngle(c1, p.mesh, lib, target).0 <= MaxSlope)
            ==> Update(p, lib, dt, keys, now).position == target
  {
    var c0 := HeightCache.ClearOld(p.cache, now);
    var prop := Proposed(p.position, MoveDirection(p, lib, dt, keys), dt);
    if InBounds(prop) {
      UpdateMoveOutcome(p, lib, dt, keys, now);
      var o := TryMove(c0, p.mesh, lib, p.proxies, p.ground, p.position, prop);
      var (g, c1) := HeightCache.Query(c0, p.mesh, prop.x, prop.z);
      assert o.target == prop.(y := g + HeightOffset);
    }
  }

  /** An in-bounds step ends where the gated move says: at its target when taken, else in place. */
  lemma UpdateMoveOutcome(p: Player, lib: MathLib, dt: real, keys: Keys, now: real)
    requires keys.w || keys.s
    requires InBounds(Proposed(p.position, MoveDirection(p, lib, dt, keys), dt))
    ensures var o := TryMove(HeightCache.ClearOld(p.cache, now), p.mesh, lib, p.proxies, p.ground, p.position,
                             Proposed(p.position, MoveDirection(p, lib, dt, keys), dt));
            Update(p, lib, dt, keys, now).position == if o.taken then o.target else p.position
  {
  }

  /** Every cache answer the step stores is a fresh height of its cell. */
  lemma UpdateKeepsCacheSound(p: Player, lib: MathLib, dt: real, keys: Keys, now: real)
    requires HeightCache.Sound(p.cache, p.mesh)
    ensures HeightCache.Sound(Update(p, lib, dt, keys, now).cache, p.mesh)
  {
    var c0 := HeightCache.ClearOld(p.cache, now);
    HeightCache.ClearKeepsSound(p.cache, p.mesh, now);
    var p1 := Turn(p, lib, dt, keys).(cache := c0);
    if keys.w || keys.s {
      var move := if keys.w then p1.direction else Neg(p1.direction);
      var prop := Proposed(p1.position, move, dt);
      if InBounds(prop) {
        TryMoveKeepsSound(c0, p.mesh, lib, p.proxies, p.ground, p1.position, prop);
      }
    }
  }

  lemma TryMoveKeepsSound(c: HeightCache.Cache, mesh: seq<Vec3>, lib: MathLib, proxies: seq<Collision.Proxy>, ground: Model,
                          from: Vec3, prop: Vec3)
    requires InBounds(prop) && HeightCache.Sound(c, mesh)
    ensures HeightCache.Sound(TryMove(c, mesh, lib, proxies, ground, from, prop).cache, mesh)
  {
    HeightCache.QueryKeepsSound(c, mesh, prop.x, prop.z);
    var (g, c1) := HeightCache.Query(c, mesh, prop.x, prop.z);
    var target := prop.(y := g + HeightOffset);
    if Abs(target.y - from.y) > SlopeGate {
      SlopeAngleKeepsSound(c1, mesh, lib, target);
    }
  }

  lemma SlopeAngleKeepsSound(c: HeightCache.Cache, mesh: seq<Vec3>, lib: MathLib, pos: Vec3)
    requires HeightCache.Sound(c, mesh)
    ensures HeightCache.Sound(SlopeAngle(c, mesh, lib, pos).1, mesh)
  {
    HeightCache.QueryKeepsSound(c, mesh, pos.x, pos.z);
    var (center, c1) := HeightCache.Query(c, mesh, pos.x, pos.z);
    ScanKeepsSound(c1, mesh, lib, pos, center, 0, 0.0);
  }

  lemma {:induction false} ScanKeepsSound(c: HeightCache.Cache, mesh: seq<Vec3>, lib: MathLib, pos: Vec3, center: real, i: nat, acc: real)
    requires i <= |ProbeAngles| && HeightCache.Sound(c, mesh)
    ensures HeightCache.Sound(Scan(c, mesh, lib, pos, center, i, acc).1, mesh)
    decreases |ProbeAngles| - i
  {
    if i < |ProbeAngles| {
      var q := ProbePoint(lib, pos, ProbeAngles[i]);
      HeightCache.QueryKeepsSound(c, mesh, q.x, q.z);
      var (h, c1) := HeightCache.Query(c, mesh, q.x, q.z);
      var m := Max(acc, SlopeOf(lib, h, center));
      if m <= MaxSlope {
        ScanKeepsSound(c1, mesh, lib, pos, center, i + 1, m);
      }
    }
  }

  /**
   * `check_ball_collection`: the indices, ascending, of the balls strictly
   * within the collection radius of the player, on the ground plane.
   */
  function CollectBalls(pos: Vec3, balls: seq<Vec3>): (r: seq<nat>)
    ensures forall k :: 0 <= k < |r| ==> r[k] < |balls|
    ensures forall k, l :: 0 <= k < l < |r| ==> r[k] < r[l]
    ensures forall i :: 0 <= i < |balls| ==> (i in r <==> Within(HorizDistSq(pos, balls[i]), BallCollectionRadius))
    decreases |balls|
  {
    if |balls| == 0 then []
    else
      var n := |balls| - 1;
      var front := CollectBalls(pos, balls[..n]);
      assert forall i :: 0 <= i < n ==> balls[..n][i] == balls[i];
      if Within(HorizDistSq(pos, balls[n]), BallCollectionRadius) then front + [n] else front
  }
}
