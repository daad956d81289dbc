/**
 * One iteration of the game loop (Main.py `main`, the `while` body): collect
 * the balls within reach, toggle the camera on a fresh press of C, move the
 * player (third-person mode) or the free camera, and advance the monkey's
 * patrol and the two spinning animations. Rendering is not modelled.
 */
module Frame {
  import opened Base
  import Locomotion
  import CameraControl

  // ---------------------------------------------------------------------
  // Ball collection
  // ---------------------------------------------------------------------

  /** The balls from index `from` on whose indices are not in `drop`, in order. */
  function Survivors(balls: seq<Vec3>, drop: seq<nat>, from: nat): seq<Vec3>
    decreases |balls| - from
  {
    if from >= |balls| then []
    else (if from in drop then [] else [balls[from]]) + Survivors(balls, drop, from + 1)
  }

  predicate Ascending(idx: seq<nat>) {
    forall k, l :: 0 <= k < l < |idx| ==> idx[k] < idx[l]
  }

  /** A stretch with no dropped index survives whole. */
  lemma {:induction false} SurvivorsRun(balls: seq<Vec3>, drop: seq<nat>, a: nat, b: nat)
    requires a <= b <= |balls|
    requires forall i :: a <= i < b ==> i !in drop
    ensures Survivors(balls, drop, a) == balls[a..b] + Survivors(balls, drop, b)
    decreases b - a
  {
    if a < b {
      SurvivorsRun(balls, drop, a + 1, b);
      assert Survivors(balls, drop, a) == [balls[a]] + Survivors(balls, drop, a + 1);
      assert balls[a..b] == [balls[a]] + balls[a + 1..b];
      assert [balls[a]] + (balls[a + 1..b] + Survivors(balls, drop, b))
          == ([balls[a]] + balls[a + 1..b]) + Survivors(balls, drop, b);
    }
  }

  /** The next index up from position `j` of `idx`, or the end of the balls. */
  function Bound(balls: seq<Vec3>, idx: seq<nat>, j: nat): nat
    requires j <= |idx|
  {
    if j == |idx| then |balls| else idx[j]
  }

  /** Between two neighbouring entries of an ascending index list no index is dropped. */
  lemma GapFree(balls: seq<Vec3>, idx: seq<nat>, j: nat)
    requires Ascending(idx) && j <= |idx|
    ensures forall t :: (if j == 0 then 0 else idx[j - 1] + 1) <= t < Bound(balls, idx, j) ==> t !in idx
  {
    forall t | (if j == 0 then 0 else idx[j - 1] + 1) <= t < Bound(balls, idx, j)
      ensures t !in idx
    {
      forall k | 0 <= k < |idx|
        ensures idx[k] != t
      {
        if k < j - 1 { assert idx[k] < idx[j - 1]; }
        else if k > j { assert idx[j] < idx[k]; }
      }
    }
  }

  /** Popping the entry at `idx[j - 1]` extends the survivor suffix down to it. */
  lemma PopOne(balls: seq<Vec3>, idx: seq<nat>, j: nat, rest: seq<Vec3>)
    requires Ascending(idx) && 0 < j <= |idx|
    requires forall k :: 0 <= k < |idx| ==> idx[k] < |balls|
    requires rest == balls[..Bound(balls, idx, j)] + Survivors(balls, idx, Bound(balls, idx, j))
    ensures idx[j - 1] < |rest|
    ensures rest[..idx[j - 1]] + rest[idx[j - 1] + 1..] == balls[..idx[j - 1]] + Survivors(balls, idx, idx[j - 1])
  {
    var b := Bound(balls, idx, j);
    var i := idx[j - 1];
    assert i < b by {
      if j < |idx| { assert idx[j - 1] < idx[j]; }
    }
    GapFree(balls, idx, j);
    SurvivorsRun(balls, idx, i + 1, b);
    assert Survivors(balls, idx, i) == Survivors(balls, idx, i + 1);
    DropAt(balls, b, i, Survivors(balls, idx, b));
  }

  /** Removing entry `i` from a prefix of `s` followed by `tail`. */
  lemma DropAt<T>(s: seq<T>, b: nat, i: nat, tail: seq<T>)
    requires i < b <= |s|
    ensures var r := s[..b] + tail; r[..i] + r[i + 1..] == s[..i] + (s[i + 1..b] + tail)
  {
    var r := s[..b] + tail;
    assert r[..i] == s[..i];
    assert r[i + 1..] == s[i + 1..b] + tail;
  }

  /**
   * The score-keeping removal: the indices are popped from the largest down,
   * each pop adding one to the score, so earlier indices stay valid.
   */
  method PopAll(balls: seq<Vec3>, idx: seq<nat>, score: nat) returns (rest: seq<Vec3>, score': nat)
    requires Ascending(idx)
    requires forall k :: 0 <= k < |idx| ==> idx[k] < |balls|
    ensures rest == Survivors(balls, idx, 0)
    ensures |rest| == |balls| - |idx|
    ensures score' == score + |idx|
  {
    rest, score' := balls, score;
    var j := |idx|;
    while j > 0
      invariant 0 <= j <= |idx|
      invariant rest == balls[..Bound(balls, idx, j)] + Survivors(balls, idx, Bound(balls, idx, j))
      invariant |rest| == |balls| - (|idx| - j)
      invariant score' == score + (|idx| - j)
    {
      PopOne(balls, idx, j, rest);
      rest := rest[..idx[j - 1]] + rest[idx[j - 1] + 1..];
      score' := score' + 1;
      j := j - 1;
    }
    GapFree(balls, idx, 0);
    SurvivorsRun(balls, idx, 0, Bound(balls, idx, 0));
  }

  /** `x` is a ball at an index from `from` on that is not dropped. */
  predicate KeptFrom(balls: seq<Vec3>, drop: seq<nat>, from: nat, x: Vec3) {
    exists i :: from <= i < |balls| && i !in drop && balls[i] == x
  }

  /** Exactly the undropped balls survive. */
  lemma {:induction false} SurvivorsMembers(balls: seq<Vec3>, drop: seq<nat>, from: nat)
    ensures forall x :: x in Survivors(balls, drop, from) ==> KeptFrom(balls, drop, from, x)
    ensures forall i :: from <= i < |balls| && i !in drop ==> balls[i] in Survivors(balls, drop, from)
    decreases |balls| - from
  {
    if from < |balls| {
      SurvivorsMembers(balls, drop, from + 1);
      var s := Survivors(balls, drop, from);
      var tail := Survivors(balls, drop, from + 1);
      assert s == (if from in drop then [] else [balls[from]]) + tail;
      forall i | from <= i < |balls| && i !in drop
        ensures balls[i] in s
      {
        if i > from { assert balls[i] in tail; }
      }
      forall x | x in s
        ensures KeptFrom(balls, drop, from, x)
      {
        if x in tail {
          var i :| from + 1 <= i < |balls| && i !in drop && balls[i] == x;
        } else {
          assert from !in drop && x == balls[from];
        }
      }
    }
  }

  /**
   * After collection no ball left is within reach of the position used for
   * the check, and every ball out of reach is still there.
   */
  lemma NoBallLeftInReach(pos: Vec3, balls: seq<Vec3>)
    ensures var rest := Survivors(balls, Locomotion.CollectBalls(pos, balls), 0);
            (forall x :: x in rest ==> !Within(HorizDistSq(pos, x), Locomotion.BallCollectionRadius))
            && (forall i :: 0 <= i < |balls| && !Within(HorizDistSq(pos, balls[i]), Locomotion.BallCollectionRadius)
                  ==> balls[i] in rest)
  {
    var idx := Locomotion.CollectBalls(pos, balls);
    SurvivorsMembers(balls, idx, 0);
    forall x | x in Survivors(balls, idx, 0)
      ensures !Within(HorizDistSq(pos, x), Locomotion.BallCollectionRadius)
    {
      var i :| 0 <= i < |balls| && i !in idx && balls[i] == x;
    }
  }

  // ---------------------------------------------------------------------
  // Camera toggle on the rising edge of C
  // ---------------------------------------------------------------------

  function Flip(m: CameraControl.Mode): CameraControl.Mode {
    if m == CameraControl.ThirdPerson then CameraControl.Free else CameraControl.ThirdPerson
  }

  lemma ToggleFlips(lib: MathLib, c: CameraControl.Camera)
    ensures CameraControl.Toggle(lib, c).mode == Flip(c.mode)
  {
  }

  /** A press counts once: C is down now and was up on the previous frame. */
  function RisingEdges(prev: bool, samples: seq<bool>): nat
    decreases |samples|
  {
    if |samples| == 0 then 0
    else (if samples[0] && !prev then 1 else 0) + RisingEdges(samples[0], samples[1..])
  }

  /** The mode after a run of frames with the given C-key samples. */
  function ModeAfter(m: CameraControl.Mode, prev: bool, samples: seq<bool>): CameraControl.Mode
    decreases |samples|
  {
    if |samples| == 0 then m
    else ModeAfter(if samples[0] && !prev then Flip(m) else m, samples[0], samples[1..])
  }

  /** The mode is back where it started exactly when the number of presses is even. */
  lemma {:induction false} ModeAfterParity(m: CameraControl.Mode, prev: bool, samples: seq<bool>)
    ensures ModeAfter(m, prev, samples) == if RisingEdges(prev, samples) % 2 == 0 then m else Flip(m)
    decreases |samples|
  {
    if |samples| > 0 {
      var m1 := if samples[0] && !prev then Flip(m) else m;
      ModeAfterParity(m1, samples[0], samples[1..]);
    }
  }

  /** Holding C down over many frames toggles once, not every frame. */
  lemma {:induction false} HeldKeyTogglesOnce(prev: bool, samples: seq<bool>)
    requires forall k :: 0 <= k < |samples| ==> samples[k]
    ensures RisingEdges(prev, samples) == if |samples| > 0 && !prev then 1 else 0
    decreases |samples|
  {
    if |samples| > 0 {
      HeldKeyTogglesOnce(true, samples[1..]);
    }
  }

  // ---------------------------------------------------------------------
  // Monkey patrol and spinning animations
  // ---------------------------------------------------------------------

  const PatrolSpeed: real := 4.0
  const PatrolLimit: real := 20.0
  /** Degrees per second. */
  const MonkeySpin: real := 50.0
  const BirdSpin: real := 90.0

  /** The patrol step as the loop writes it: the direction is negated on every frame spent at or past the limit. */
  function PatrolAsWritten(z: real, dir: real, dt: real): (real, real) {
    var z' := z + dir * PatrolSpeed * dt;
    (z', if Abs(z') >= PatrolLimit then -dir else dir)
  }

  /**
   * With frame times 0.05 then 0.02, 0.02, ... the monkey crosses the limit
   * and then alternates between z = 20.1 and z = 20.02 forever: the second
   * frame past the limit turns it outward again.
   */
  lemma PatrolAsWrittenEscapes()
    ensures PatrolAsWritten(19.9, 1.0, 0.05) == (20.1, -1.0)
    ensures PatrolAsWritten(20.1, -1.0, 0.02) == (20.02, 1.0)
    ensures PatrolAsWritten(20.02, 1.0, 0.02) == (20.1, -1.0)
  {
  }

  /** `n` further frames of 0.02 s from the escaped state. */
  function EscapedRun(n: nat): (real, real) {
    if n == 0 then (20.1, -1.0)
    else var s := EscapedRun(n - 1); PatrolAsWritten(s.0, s.1, 0.02)
  }

  lemma {:induction false} EscapedRunStaysOut(n: nat)
    ensures EscapedRun(n) == (20.1, -1.0) || EscapedRun(n) == (20.02, 1.0)
    ensures Abs(EscapedRun(n).0) > PatrolLimit
  {
    if n > 0 {
      EscapedRunStaysOut(n - 1);
    }
  }

  /** The corrected step: at or past the limit the direction points back toward z = 0. */
  function Patrol(z: real, dir: real, dt: real): (r: (real, real))
    ensures r.0 == z + dir * PatrolSpeed * dt
    ensures Abs(r.0) >= PatrolLimit ==> r.1 * r.0 < 0.0
    ensures Abs(r.0) < PatrolLimit ==> r.1 == dir
  {
    var z' := z + dir * PatrolSpeed * dt;
    (z', if Abs(z') >= PatrolLimit then (if z' > 0.0 then -1.0 else 1.0) else dir)
  }

  /**
   * The monkey's patrol state is sane: a unit direction, never more than one
   * maximal step past the limit, and heading back whenever it is past it.
   */
  predicate PatrolOk(z: real, dir: real, maxStep: real) {
    (dir == 1.0 || dir == -1.0)
    && Abs(z) < PatrolLimit + maxStep
    && (Abs(z) >= PatrolLimit ==> dir * z < 0.0)
  }

  lemma PatrolKeepsOk(z: real, dir: real, dt: real, maxStep: real)
    requires PatrolOk(z, dir, maxStep)
    requires 0.0 <= PatrolSpeed * dt <= maxStep
    ensures var r := Patrol(z, dir, dt); PatrolOk(r.0, r.1, maxStep)
  {
    var s := PatrolSpeed * dt;
    var z' := Patrol(z, dir, dt).0;
    if dir == 1.0 {
      assert z' == z + s;
    } else {
      assert z' == z - s;
    }
  }

  /** Inside the limit, and with time moving forward, the correction changes nothing. */
  lemma PatrolAgreesInside(z: real, dir: real, dt: real)
    requires Abs(z) < PatrolLimit && (dir == 1.0 || dir == -1.0) && dt >= 0.0
    ensures Patrol(z, dir, dt) == PatrolAsWritten(z, dir, dt)
  {
    var s := PatrolSpeed * dt;
    assert s >= 0.0;
    assert dir * PatrolSpeed * dt == dir * s;
    assert dir == 1.0 ==> dir * s == s;
    assert dir == -1.0 ==> dir * s == -s;
  }

  /** Advance a spinning angle, taking 360 off once it reaches a full turn. */
  function WrapAngle(a: real, inc: real): (r: real)
    ensures 0.0 <= a < 360.0 && 0.0 <= inc < 360.0 ==> 0.0 <= r < 360.0
  {
    var a' := a + inc;
    if a' >= 360.0 then a' - 360.0 else a'
  }

  /** The angle moves by the increment, modulo a full turn. */
  lemma WrapAngleTurns(a: real, inc: real)
    ensures var r := WrapAngle(a, inc); r == a + inc || r == a + inc - 360.0
    ensures WrapAngle(a, inc) < 360.0 <==> a + inc < 720.0
  {
  }

  // ---------------------------------------------------------------------
  // The frame
  // ---------------------------------------------------------------------

  datatype World = World(
    player: Locomotion.Player,
    camera: CameraControl.Camera,
    balls: seq<Vec3>,
    score: nat,
    cPressed: bool,
    monkeyZ: real,
    monkeyDir: real,
    monkeyAngle: real,
    birdAngle: real)

  /** The loop's starting state around a built player, camera and ball list. */
  function InitialWorld(player: Locomotion.Player, camera: CameraControl.Camera, balls: seq<Vec3>): (w: World)
    ensures w.score == 0 && !w.cPressed && w.balls == balls
    ensures w.player == player && w.camera == camera
    ensures w.monkeyZ == 0.0 && w.monkeyDir == 1.0 && w.monkeyAngle == 0.0 && w.birdAngle == 0.0
    ensures forall maxStep :: maxStep > 0.0 ==> PatrolOk(w.monkeyZ, w.monkeyDir, maxStep)
  {
    World(player, camera, balls, 0, false, 0.0, 1.0, 0.0, 0.0)
  }

  /** The camera mode this frame runs in. */
  function FrameMode(w: World, cKey: bool): CameraControl.Mode {
    if cKey && !w.cPressed then Flip(w.camera.mode) else w.camera.mode
  }

  /** The camera after this frame's C handling: toggled on a fresh press. */
  function FrameCamera(lib: MathLib, w: World, cKey: bool): (c: CameraControl.Camera)
    ensures c.mode == FrameMode(w, cKey)
  {
    ToggleFlips(lib, w.camera);
    if cKey && !w.cPressed then CameraControl.Toggle(lib, w.camera) else w.camera
  }

  /**
   * What one frame does besides the monkey's patrol. Balls within reach of
   * the player's position before the move are collected and scored; C is
   * edge-triggered. In free mode only the camera's free-flight step runs; in
   * third-person mode the player moves and the camera trails it. The two
   * spinning models turn by their rate times `dt`, wrapped once.
   */
  predicate FrameEffects(w: World, w': World, lib: MathLib, dt: real, keys: Keys, cKey: bool, now: real) {
    && w'.score == w.score + |Locomotion.CollectBalls(w.player.position, w.balls)|
    && w'.balls == Survivors(w.balls, Locomotion.CollectBalls(w.player.position, w.balls), 0)
    && (forall x :: x in w'.balls ==> !Within(HorizDistSq(w.player.position, x), Locomotion.BallCollectionRadius))
    && w'.cPressed == cKey && w'.camera.mode == FrameMode(w, cKey)
    && (FrameMode(w, cKey) == CameraControl.Free ==>
          w'.player == w.player && w'.camera == CameraControl.Update(lib, FrameCamera(lib, w, cKey), dt, keys))
    && (FrameMode(w, cKey) == CameraControl.ThirdPerson ==>
          w'.player == Locomotion.Update(w.player, lib, dt, keys, now)
          && w'.camera == CameraControl.Follow(lib, FrameCamera(lib, w, cKey), w'.player.position, w'.player.direction)
          && w'.camera.position == Vec3(w'.player.position.x - CameraControl.OffsetDistance * w'.player.direction.x,
                                        w'.player.position.y + CameraControl.OffsetHeight,
                                        w'.player.position.z - CameraControl.OffsetDistance * w'.player.direction.z))
    && w'.monkeyAngle == WrapAngle(w.monkeyAngle, MonkeySpin * dt)
    && w'.birdAngle == WrapAngle(w.birdAngle, BirdSpin * dt)
  }

  /** Everything one frame does except the patrol, which is left where it was. */
  method Advance(w: World, lib: MathLib, dt: real, keys: Keys, cKey: bool, now: real) returns (w': World)
    ensures FrameEffects(w, w', lib, dt, keys, cKey, now)
    ensures w'.monkeyZ == w.monkeyZ && w'.monkeyDir == w.monkeyDir
  {
    var collected := Locomotion.CollectBalls(w.player.position, w.balls);
    var rest, score := PopAll(w.balls, collected, w.score);
    NoBallLeftInReach(w.player.position, w.balls);

    var cam := FrameCamera(lib, w, cKey);
    var player := w.player;
    if cam.mode == CameraControl.ThirdPerson {
      player := Locomotion.Update(player, lib, dt, keys, now);
      CameraControl.FollowGeometry(lib, cam, player.position, player.direction);
      cam := CameraControl.Follow(lib, cam, player.position, player.direction);
    } else {
      cam := CameraControl.Update(lib, cam, dt, keys);
    }
    w' := World(player, cam, rest, score, cKey, w.monkeyZ, w.monkeyDir,
                WrapAngle(w.monkeyAngle, MonkeySpin * dt), WrapAngle(w.birdAngle, BirdSpin * dt));
  }

  /**
   * One frame with frame time `dt`, clock reading `now`, the movement keys and
   * the state of C, with the corrected patrol.
   */
  method Step(w: World, lib: MathLib, dt: real, keys: Keys, cKey: bool, now: real) returns (w': World)
    ensures FrameEffects(w, w', lib, dt, keys, cKey, now)
    ensures (w'.monkeyZ, w'.monkeyDir) == Patrol(w.monkeyZ, w.monkeyDir, dt)
    ensures 0.0 <= dt && MonkeySpin * dt < 360.0 && 0.0 <= w.monkeyAngle < 360.0 ==> 0.0 <= w'.monkeyAngle < 360.0
    ensures 0.0 <= dt && BirdSpin * dt < 360.0 && 0.0 <= w.birdAngle < 360.0 ==> 0.0 <= w'.birdAngle < 360.0
  {
    w' := Advance(w, lib, dt, keys, cKey, now);
    var (z, dir) := Patrol(w.monkeyZ, w.monkeyDir, dt);
    w' := w'.(monkeyZ := z, monkeyDir := dir);
  }

  /**
   * One frame exactly as the loop is written: the same effects, with the
   * patrol that negates the direction on every frame past the limit.
   */
  method StepAsWritten(w: World, lib: MathLib, dt: real, keys: Keys, cKey: bool, now: real) returns (w': World)
    ensures FrameEffects(w, w', lib, dt, keys, cKey, now)
    ensures (w'.monkeyZ, w'.monkeyDir) == PatrolAsWritten(w.monkeyZ, w.monkeyDir, dt)
    ensures Abs(w.monkeyZ) < PatrolLimit && (w.monkeyDir == 1.0 || w.monkeyDir == -1.0) && dt >= 0.0 ==>
              (w'.monkeyZ, w'.monkeyDir) == Patrol(w.monkeyZ, w.monkeyDir, dt)
  {
    w' := Advance(w, lib, dt, keys, cKey, now);
    var (z, dir) := PatrolAsWritten(w.monkeyZ, w.monkeyDir, dt);
    w' := w'.(monkeyZ := z, monkeyDir := dir);
    if Abs(w.monkeyZ) < PatrolLimit && (w.monkeyDir == 1.0 || w.monkeyDir == -1.0) && dt >= 0.0 {
      PatrolAgreesInside(w.monkeyZ, w.monkeyDir, dt);
    }
  }
}
