/**
 * The camera (camera.py `Camera`): a two-mode machine. In third-person mode
 * it trails the player; in free mode W/S fly along the view direction, A/D
 * turn, 0/9 raise and lower.
 */
module CameraControl {
  import opened Base

  datatype Mode = ThirdPerson | Free

  datatype Camera = Camera(position: Vec3, front: Vec3, up: Vec3, right: Vec3, angle: real, mode: Mode)

  const Speed: real := 5.0
  /** Degrees per second. */
  const RotationSpeed: real := 90.0
  const OffsetDistance: real := 5.0
  const OffsetHeight: real := 2.0
  const WorldUp: Vec3 := Vec3(0.0, 1.0, 0.0)
  /** View direction restored when third-person mode is entered. */
  const ResetFront: Vec3 := Vec3(0.0, 0.0, -1.0)
  /** The look-at target sits this far above the player. */
  const TargetLift: Vec3 := Vec3(0.0, 1.0, 0.0)

  /** A new camera starts in third-person mode. */
  function NewCamera(lib: MathLib, position: Vec3, front: Vec3, up: Vec3, angle: real): (c: Camera)
    ensures c.mode == ThirdPerson && c.position == position && c.front == front && c.angle == angle
    ensures c.up == up && c.right == lib.normalize(Cross(front, up))
  {
    Camera(position, front, up, lib.normalize(Cross(front, up)), angle, ThirdPerson)
  }

  /**
   * `toggle_camera_mode`: leaving third-person mode keeps the current view
   * direction as the free-flight heading; entering it resets the view.
   */
  function Toggle(lib: MathLib, c: Camera): (c': Camera)
    ensures c'.mode != c.mode
    ensures c'.position == c.position && c'.up == c.up && c'.right == c.right
    ensures c.mode == Free ==> c'.front == ResetFront && c'.angle == 0.0
    ensures c.mode == ThirdPerson ==> c'.front == c.front && c'.angle == lib.atan2Deg(c.front.x, -c.front.z)
  {
    match c.mode
    case ThirdPerson => c.(mode := Free, angle := lib.atan2Deg(c.front.x, -c.front.z))
    case Free => c.(mode := ThirdPerson, front := ResetFront, angle := 0.0)
  }

  /**
   * Two toggles restore the mode; a round trip through free mode leaves a
   * third-person camera with the reset view and nothing else changed.
   */
  lemma ToggleTwice(lib: MathLib, c: Camera)
    ensures Toggle(lib, Toggle(lib, c)).mode == c.mode
    ensures c.mode == ThirdPerson ==> Toggle(lib, Toggle(lib, c)) == c.(front := ResetFront, angle := 0.0)
  {
  }

  /**
   * The free-flight step; a third-person camera is left alone. A free camera
   * turns by `RotationSpeed * dt` per held A (left) or D (right), looks along
   * the new heading, then flies `Speed * dt` along that view per held W
   * (forward) or S (back) and `Speed * dt` up or down per held 0 or 9.
   */
  function Update(lib: MathLib, c: Camera, dt: real, keys: Keys): (c': Camera)
    ensures c'.mode == c.mode && c'.up == c.up
    ensures c.mode == Free ==>
              c'.angle == c.angle + (if keys.a then RotationSpeed * dt else 0.0) - (if keys.d then RotationSpeed * dt else 0.0)
    ensures c.mode == Free ==>
              c'.front == lib.normalize(Vec3(lib.sinDeg(c'.angle), c.front.y, -lib.cosDeg(c'.angle)))
              && c'.right == lib.normalize(Cross(c'.front, WorldUp))
  {
    if c.mode != Free then c
    else
      var a1 := if keys.a then c.angle + RotationSpeed * dt else c.angle;
      var a2 := if keys.d then a1 - RotationSpeed * dt else a1;
      var f := lib.normalize(Vec3(lib.sinDeg(a2), c.front.y, -lib.cosDeg(a2)));
      c.(angle := a2, front := f, right := lib.normalize(Cross(f, WorldUp)),
         position := Fly(c.position, Scale(Scale(f, Speed), dt), Speed * dt, keys))
  }

  /**
   * The key-driven moves of a free camera in source order: `+step` for W,
   * `-step` for S, `+lift` up for 0, `-lift` down for 9.
   */
  function Fly(pos: Vec3, step: Vec3, lift: real, keys: Keys): (p: Vec3)
    ensures p.x == pos.x + Signed(keys.w, keys.s, step.x)
    ensures p.z == pos.z + Signed(keys.w, keys.s, step.z)
    ensures p.y == pos.y + Signed(keys.w, keys.s, step.y) + Signed(keys.zero, keys.nine, lift)
  {
    var p1 := if keys.w then Add(pos, step) else pos;
    var p2 := if keys.s then Sub(p1, step) else p1;
    var p3 := if keys.zero then p2.(y := p2.y + lift) else p2;
    if keys.nine then p3.(y := p3.y - lift) else p3
  }

  /** `v` counted once for `plus` and taken back once for `minus`. */
  function Signed(plus: bool, minus: bool, v: real): real {
    (if plus then v else 0.0) - (if minus then v else 0.0)
  }

  /**
   * Horizontally, a free camera flies `Speed * dt` along its new view per
   * held W and back per held S.
   */
  lemma UpdateFlight(lib: MathLib, c: Camera, dt: real, keys: Keys)
    requires c.mode == Free
    ensures var c' := Update(lib, c, dt, keys);
            c'.position.x == c.position.x + Signed(keys.w, keys.s, Speed * dt * c'.front.x)
            && c'.position.z == c.position.z + Signed(keys.w, keys.s, Speed * dt * c'.front.z)
  {
    var f := Update(lib, c, dt, keys).front;
    var step := Scale(Scale(f, Speed), dt);
    assert Update(lib, c, dt, keys).position == Fly(c.position, step, Speed * dt, keys);
    assert step.x == Speed * dt * f.x && step.z == Speed * dt * f.z;
  }

  /**
   * Vertically, the flight along the view adds to the climb: `Speed * dt`
   * up per held 0 and down per held 9.
   */
  lemma UpdateClimb(lib: MathLib, c: Camera, dt: real, keys: Keys)
    requires c.mode == Free
    ensures var c' := Update(lib, c, dt, keys);
            c'.position.y == c.position.y + Signed(keys.w, keys.s, Speed * dt * c'.front.y)
                             + Signed(keys.zero, keys.nine, Speed * dt)
  {
    var f := Update(lib, c, dt, keys).front;
    var step := Scale(Scale(f, Speed), dt);
    assert Update(lib, c, dt, keys).position == Fly(c.position, step, Speed * dt, keys);
    assert step.y == Speed * dt * f.y;
  }

  /**
   * Opposing keys cancel: with W and S both held or both released, and the
   * same for 0 and 9, a free camera turns but does not move; 0 and 9 never
   * move it horizontally.
   */
  lemma UpdateOpposingKeysCancel(lib: MathLib, c: Camera, dt: real, keys: Keys)
    requires c.mode == Free
    ensures var c' := Update(lib, c, dt, keys);
            (keys.w == keys.s ==> c'.position.x == c.position.x && c'.position.z == c.position.z)
            && (keys.zero == keys.nine && keys.w == keys.s ==> c'.position == c.position)
  {
  }

  /**
   * With neither W nor S held, a free camera keeps its (x, z): 0 raises it
   * and 9 lowers it by `Speed * dt` each, so both together cancel.
   */
  lemma UpdateVerticalKeys(lib: MathLib, c: Camera, dt: real, keys: Keys)
    requires c.mode == Free && !keys.w && !keys.s
    ensures var c' := Update(lib, c, dt, keys);
            c'.position.x == c.position.x && c'.position.z == c.position.z
            && c'.position.y == c.position.y + (if keys.zero then Speed * dt else 0.0) - (if keys.nine then Speed * dt else 0.0)
  {
  }

  /** Outside free mode the step changes nothing. */
  lemma UpdateOnlyInFree(lib: MathLib, c: Camera, dt: real, keys: Keys)
    requires c.mode == ThirdPerson
    ensures Update(lib, c, dt, keys) == c
  {
  }

  /** `follow_player`: trail the player; a free camera is left alone. */
  function Follow(lib: MathLib, c: Camera, playerPos: Vec3, playerDir: Vec3): (c': Camera)
    ensures c'.mode == c.mode && c'.angle == c.angle && c'.up == c.up
    ensures c.mode == Free ==> c' == c
  {
    if c.mode != ThirdPerson then c
    else
      var offset := Scale(Neg(playerDir), OffsetDistance).(y := OffsetHeight);
      var pos := Add(playerPos, offset);
      c.(position := pos, front := lib.normalize(Sub(Add(playerPos, TargetLift), pos)))
  }

  /**
   * The trailing camera sits `OffsetDistance` behind the player along its
   * facing direction (horizontally), `OffsetHeight` above it, and looks at a
   * point one unit above the player: its view direction depends on the
   * facing direction only, not on where the player is.
   */
  lemma FollowGeometry(lib: MathLib, c: Camera, playerPos: Vec3, playerDir: Vec3)
    requires c.mode == ThirdPerson
    ensures var c' := Follow(lib, c, playerPos, playerDir);
            c'.position.x == playerPos.x - OffsetDistance * playerDir.x
            && c'.position.y == playerPos.y + OffsetHeight
            && c'.position.z == playerPos.z - OffsetDistance * playerDir.z
            && c'.front == lib.normalize(Vec3(OffsetDistance * playerDir.x, TargetLift.y - OffsetHeight, OffsetDistance * playerDir.z))
  {
    var offset := Scale(Neg(playerDir), OffsetDistance).(y := OffsetHeight);
    var pos := Add(playerPos, offset);
    assert Sub(Add(playerPos, TargetLift), pos) == Vec3(OffsetDistance * playerDir.x, TargetLift.y - OffsetHeight, OffsetDistance * playerDir.z);
  }
}
