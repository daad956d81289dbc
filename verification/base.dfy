/**
 * Shared vocabulary of the model: optional values, real-valued vectors, the
 * squared-distance comparison that stands in for `glm.length(..) < r`, and the
 * floating-point library functions (trigonometry, normalisation) that the game
 * calls but whose numerics are not modelled.
 */
module Base {

  datatype Option<+T> = None | Some(value: T) {
    function GetOr(default: T): T {
      match this
      case Some(v) => v
      case None => default
    }
  }

  /** A point or direction in world space (glm.vec3). */
  datatype Vec3 = Vec3(x: real, y: real, z: real)

  /** A texture coordinate (glm.vec2). */
  datatype Vec2 = Vec2(u: real, v: real)

  function Abs(a: real): (r: real)
    ensures r >= 0.0 && (r == a || r == -a)
  {
    if a < 0.0 then -a else a
  }

  function Add(a: Vec3, b: Vec3): Vec3 {
    Vec3(a.x + b.x, a.y + b.y, a.z + b.z)
  }

  function Sub(a: Vec3, b: Vec3): Vec3 {
    Vec3(a.x - b.x, a.y - b.y, a.z - b.z)
  }

  function Scale(a: Vec3, k: real): Vec3 {
    Vec3(a.x * k, a.y * k, a.z * k)
  }

  function Cross(a: Vec3, b: Vec3): Vec3 {
    Vec3(a.y * b.z - a.z * b.y, a.z * b.x - a.x * b.z, a.x * b.y - a.y * b.x)
  }

  function NormSq(a: Vec3): real {
    a.x * a.x + a.y * a.y + a.z * a.z
  }

  /** Squared distance between two points projected on the ground (x,z) plane. */
  function HorizDistSq(a: Vec3, b: Vec3): real {
    (a.x - b.x) * (a.x - b.x) + (a.z - b.z) * (a.z - b.z)
  }

  /**
   * `Within(d2, r)` holds when a distance whose square is `d2` is strictly
   * below `r`. A length is never negative, so `length < r` can only hold when
   * `r > 0`, and then it is the same as comparing squares.
   */
  predicate Within(d2: real, r: real) {
    r > 0.0 && d2 < r * r
  }

  /** `Within` is exactly the comparison `d < r` on a non-negative length `d`. */
  lemma WithinIsLengthBelow(d: real, r: real)
    requires d >= 0.0
    ensures Within(d * d, r) <==> d < r
  {
    if d < r {
      var dd, dr, rr := d * d, d * r, r * r;
      assert dd <= dr;
      assert dr < rr;
    } else if r > 0.0 {
      var dd, dr, rr := d * d, d * r, r * r;
      assert rr <= dr;
      assert dr <= dd;
    }
  }

  /**
   * The scene's loaded models, in the order of its model table. Code that
   * compares models compares them by identity, which these constants stand for.
   */
  datatype Model = Ground | Rock | Monkey | Grass | Sphere | Cube | LightSphere | Hummingbird | Lego | Bark | Cactus1 | Ball

  /** The keys the movement code reads in one frame (held down or not). */
  datatype Keys = Keys(w: bool, s: bool, a: bool, d: bool, zero: bool, nine: bool)

  function Max(a: real, b: real): real {
    if a < b then b else a
  }

  function Neg(a: Vec3): Vec3 {
    Vec3(-a.x, -a.y, -a.z)
  }

  /**
   * The numerical library the game calls: sine and cosine of an angle in
   * degrees, `degrees(atan2(y, x))`, and vector
   * normalisation. They are inputs of the model, not part of it.
   */
  datatype MathLib = MathLib(
    sinDeg: real -> real,
    cosDeg: real -> real,
    atan2Deg: (real, real) -> real,
    normalize: Vec3 -> Vec3)
}
