/**
 * Terrain height query over a triangle soup (init.py `get_terrain_height`,
 * `point_in_triangle`, `interpolate_height`; the player keeps a copy of the
 * same scan in player.py).
 *
 * A mesh is the flat vertex list the OBJ loader produces: vertices 3t, 3t+1,
 * 3t+2 form triangle t. The query projects every triangle on the (x,z) plane,
 * keeps those that contain the point, intersects the vertical line through the
 * point with each one's plane, and answers with the highest intersection.
 */
module Terrain {
  import opened Base

  /** Height returned far from the origin and when no triangle is hit. */
  const Fallback: real := -0.8
  /** Beyond this |x| or |z| the mesh is not scanned at all. */
  const FarLimit: real := 1000.0
  /**
   * A unit normal with |y| < 0.001 marks a near-vertical triangle; on the
   * unnormalised normal n this reads n.y^2 < 0.001^2 * |n|^2.
   */
  const VerticalTolSq: real := 0.000001

  /**
   * The `sign` helper of the containment test: the 2-D cross product
   * (p1 - p3) x (p2 - p3) on the (x,z) plane.
   */
  function Side(p1x: real, p1z: real, p2x: real, p2z: real, p3x: real, p3z: real): real {
    (p1x - p3x) * (p2z - p3z) - (p2x - p3x) * (p1z - p3z)
  }

  /** Twice the signed (x,z) area of triangle a, b, c. */
  function Area2(a: Vec3, b: Vec3, c: Vec3): real {
    Side(a.x, a.z, b.x, b.z, c.x, c.z)
  }

  /**
   * The point (px, pz) lies in the (x,z) projection of triangle a, b, c, or on
   * its boundary: the three edge signs are never both negative and positive
   * (a zero sign counts as neither).
   */
  predicate PointInTriangle(px: real, pz: real, a: Vec3, b: Vec3, c: Vec3) {
    var d1 := Side(px, pz, a.x, a.z, b.x, b.z);
    var d2 := Side(px, pz, b.x, b.z, c.x, c.z);
    var d3 := Side(px, pz, c.x, c.z, a.x, a.z);
    var hasNeg := d1 < 0.0 || d2 < 0.0 || d3 < 0.0;
    var hasPos := d1 > 0.0 || d2 > 0.0 || d3 > 0.0;
    !(hasNeg && hasPos)
  }

  /** The three edge signs always add up to twice the triangle's signed area. */
  lemma SidesSumToArea(px: real, pz: real, a: Vec3, b: Vec3, c: Vec3)
    ensures Side(px, pz, a.x, a.z, b.x, b.z) + Side(px, pz, b.x, b.z, c.x, c.z)
            + Side(px, pz, c.x, c.z, a.x, a.z) == Area2(a, b, c)
  {
  }

  /**
   * Every convex combination of the vertices is accepted, so the test
   * accepts the whole closed triangle: its inside, its edges and its corners.
   */
  lemma {:induction false} ConvexCombinationInside(a: Vec3, b: Vec3, c: Vec3, wa: real, wb: real, wc: real)
    requires wa >= 0.0 && wb >= 0.0 && wc >= 0.0 && wa + wb + wc == 1.0
    ensures PointInTriangle(wa * a.x + wb * b.x + wc * c.x, wa * a.z + wb * b.z + wc * c.z, a, b, c)
  {
    var px := wa * a.x + wb * b.x + wc * c.x;
    var pz := wa * a.z + wb * b.z + wc * c.z;
    var D := Area2(a, b, c);
    SideIsAffine(px, pz, a, b, c, wa, wb, wc);
    var d1 := Side(px, pz, a.x, a.z, b.x, b.z);
    var d2 := Side(px, pz, b.x, b.z, c.x, c.z);
    var d3 := Side(px, pz, c.x, c.z, a.x, a.z);
    SameSignProducts(wc, wa, wb, D);
  }

  /** Each edge sign at a convex combination is the opposite weight times twice the area. */
  lemma SideIsAffine(px: real, pz: real, a: Vec3, b: Vec3, c: Vec3, wa: real, wb: real, wc: real)
    requires wa + wb + wc == 1.0
    requires px == wa * a.x + wb * b.x + wc * c.x && pz == wa * a.z + wb * b.z + wc * c.z
    ensures Side(px, pz, a.x, a.z, b.x, b.z) == wc * Area2(a, b, c)
    ensures Side(px, pz, b.x, b.z, c.x, c.z) == wa * Area2(a, b, c)
    ensures Side(px, pz, c.x, c.z, a.x, a.z) == wb * Area2(a, b, c)
  {
    assert wc == 1.0 - wa - wb;
  }

  lemma SameSignProducts(u: real, v: real, w: real, D: real)
    requires u >= 0.0 && v >= 0.0 && w >= 0.0
    ensures D >= 0.0 ==> u * D >= 0.0 && v * D >= 0.0 && w * D >= 0.0
    ensures D <= 0.0 ==> u * D <= 0.0 && v * D <= 0.0 && w * D <= 0.0
  {
  }

  /** Corners are accepted. */
  lemma VerticesInside(a: Vec3, b: Vec3, c: Vec3)
    ensures PointInTriangle(a.x, a.z, a, b, c)
    ensures PointInTriangle(b.x, b.z, a, b, c)
    ensures PointInTriangle(c.x, c.z, a, b, c)
  {
    ConvexCombinationInside(a, b, c, 1.0, 0.0, 0.0);
    ConvexCombinationInside(a, b, c, 0.0, 1.0, 0.0);
    ConvexCombinationInside(a, b, c, 0.0, 0.0, 1.0);
  }

  /**
   * Conversely, on a triangle with non-zero (x,z) area every accepted point is
   * a convex combination of the corners; the weights are the edge signs
   * divided by twice the area.
   */
  lemma InsideIsConvexCombination(px: real, pz: real, a: Vec3, b: Vec3, c: Vec3)
    requires Area2(a, b, c) != 0.0 && PointInTriangle(px, pz, a, b, c)
    ensures var D := Area2(a, b, c);
            var wa := Side(px, pz, b.x, b.z, c.x, c.z) / D;
            var wb := Side(px, pz, c.x, c.z, a.x, a.z) / D;
            var wc := Side(px, pz, a.x, a.z, b.x, b.z) / D;
            && wa >= 0.0 && wb >= 0.0 && wc >= 0.0 && wa + wb + wc == 1.0
            && px == wa * a.x + wb * b.x + wc * c.x
            && pz == wa * a.z + wb * b.z + wc * c.z
  {
    var D := Area2(a, b, c);
    var d1 := Side(px, pz, a.x, a.z, b.x, b.z);
    var d2 := Side(px, pz, b.x, b.z, c.x, c.z);
    var d3 := Side(px, pz, c.x, c.z, a.x, a.z);
    SidesSumToArea(px, pz, a, b, c);
    Reconstruct(px, pz, a, b, c);
    NormaliseWeights(D, d1, d2, d3, a.x, b.x, c.x, px);
    NormaliseWeights(D, d1, d2, d3, a.z, b.z, c.z, pz);
  }

  /** Dividing signs that agree with D and add up to D gives convex weights. */
  lemma NormaliseWeights(D: real, d1: real, d2: real, d3: real, ca: real, cb: real, cc: real, p: real)
    requires D != 0.0 && d1 + d2 + d3 == D
    requires !((d1 < 0.0 || d2 < 0.0 || d3 < 0.0) && (d1 > 0.0 || d2 > 0.0 || d3 > 0.0))
    requires d2 * ca + d3 * cb + d1 * cc == D * p
    ensures d2 / D >= 0.0 && d3 / D >= 0.0 && d1 / D >= 0.0 && d2 / D + d3 / D + d1 / D == 1.0
    ensures p == (d2 / D) * ca + (d3 / D) * cb + (d1 / D) * cc
  {
    var wa, wb, wc := d2 / D, d3 / D, d1 / D;
    assert wa + wb + wc == (d2 + d3 + d1) / D;
    assert (d2 + d3 + d1) / D == D / D == 1.0;
    assert d2 == wa * D && d3 == wb * D && d1 == wc * D;
    assert (wa * ca + wb * cb + wc * cc) * D == (wa * D) * ca + (wb * D) * cb + (wc * D) * cc;
    assert (wa * ca + wb * cb + wc * cc) * D == p * D;
    if D > 0.0 {
      assert d1 >= 0.0 && d2 >= 0.0 && d3 >= 0.0;
    } else {
      assert d1 <= 0.0 && d2 <= 0.0 && d3 <= 0.0;
    }
  }

  /** Weighting the corners by the edge signs gives the point scaled by twice the area. */
  lemma Reconstruct(px: real, pz: real, a: Vec3, b: Vec3, c: Vec3)
    ensures Side(px, pz, b.x, b.z, c.x, c.z) * a.x + Side(px, pz, c.x, c.z, a.x, a.z) * b.x
            + Side(px, pz, a.x, a.z, b.x, b.z) * c.x == Area2(a, b, c) * px
    ensures Side(px, pz, b.x, b.z, c.x, c.z) * a.z + Side(px, pz, c.x, c.z, a.x, a.z) * b.z
            + Side(px, pz, a.x, a.z, b.x, b.z) * c.z == Area2(a, b, c) * pz
  {
  }

  /** The answer does not depend on the winding order, nor on which corner comes first. */
  lemma PointInTriangleSymmetric(px: real, pz: real, a: Vec3, b: Vec3, c: Vec3)
    ensures PointInTriangle(px, pz, a, b, c) == PointInTriangle(px, pz, a, c, b)
    ensures PointInTriangle(px, pz, a, b, c) == PointInTriangle(px, pz, b, c, a)
  {
    assert Side(px, pz, a.x, a.z, c.x, c.z) == -Side(px, pz, c.x, c.z, a.x, a.z);
    assert Side(px, pz, c.x, c.z, b.x, b.z) == -Side(px, pz, b.x, b.z, c.x, c.z);
    assert Side(px, pz, b.x, b.z, a.x, a.z) == -Side(px, pz, a.x, a.z, b.x, b.z);
  }

  /** Normal of the triangle's supporting plane, before normalisation. */
  function Normal(v1: Vec3, v2: Vec3, v3: Vec3): Vec3 {
    Cross(Sub(v2, v1), Sub(v3, v1))
  }

  const Zero: Vec3 := Vec3(0.0, 0.0, 0.0)

  /**
   * The unit normal's |y| is below 0.001. The first disjunct is implied by the
   * second for every non-zero normal; it is spelled out so that the plane
   * equation is only ever solved for a non-zero n.y.
   */
  predicate NearVertical(n: Vec3) {
    n.y == 0.0 || n.y * n.y < VerticalTolSq * NormSq(n)
  }

  /**
   * Height of triangle v1, v2, v3's plane above (x, z). A near-vertical
   * triangle answers v1.y. Three collinear corners have no normal: glm turns
   * the zero vector into NaNs and Python's `max` never adopts a NaN, so such a
   * triangle contributes nothing, which is `None` here.
   */
  function InterpolateHeight(x: real, z: real, v1: Vec3, v2: Vec3, v3: Vec3): Option<real> {
    HeightFor(Normal(v1, v2, v3), v1, x, z)
  }

  /** The height above (x, z) of the plane through v1 with normal n, guarded as above. */
  function HeightFor(n: Vec3, v1: Vec3, x: real, z: real): (r: Option<real>)
    ensures r.None? <==> n == Zero
    ensures r.Some? && NearVertical(n) ==> r.value == v1.y
    ensures r.Some? && !NearVertical(n) ==> n.x * (x - v1.x) + n.y * (r.value - v1.y) + n.z * (z - v1.z) == 0.0
  {
    if n == Zero then None
    else if NearVertical(n) then Some(v1.y)
    else Some(PlanePoint(n, v1, x, z))
  }

  /** The y above (x, z) of the plane through v1 with normal n, as `n . p + d == 0`. */
  function PlanePoint(n: Vec3, v1: Vec3, x: real, z: real): (h: real)
    requires n.y != 0.0
    ensures n.x * (x - v1.x) + n.y * (h - v1.y) + n.z * (z - v1.z) == 0.0
  {
    var d := -(n.x * v1.x + n.y * v1.y + n.z * v1.z);
    PlaneSolved(n, v1, d, x, z);
    PlaneHeight(n, d, x, z)
  }

  /** The y of the plane `n . p + d == 0` above (x, z). */
  function PlaneHeight(n: Vec3, d: real, x: real, z: real): real
    requires n.y != 0.0
  {
    (-n.x * x - n.z * z - d) / n.y
  }

  /** Solving the plane equation for y gives a point on the plane. */
  lemma PlaneSolved(n: Vec3, v1: Vec3, d: real, x: real, z: real)
    requires n.y != 0.0 && d == -(n.x * v1.x + n.y * v1.y + n.z * v1.z)
    ensures n.x * (x - v1.x) + n.y * (PlaneHeight(n, d, x, z) - v1.y) + n.z * (z - v1.z) == 0.0
  {
    var num := -n.x * x - n.z * z - d;
    var h := num / n.y;
    assert n.y * h == num;
  }

  /** The normal is orthogonal to both edges, so every corner lies on the plane. */
  lemma NormalOrthogonal(v1: Vec3, v2: Vec3, v3: Vec3)
    ensures var n := Normal(v1, v2, v3);
            && n.x * (v2.x - v1.x) + n.y * (v2.y - v1.y) + n.z * (v2.z - v1.z) == 0.0
            && n.x * (v3.x - v1.x) + n.y * (v3.y - v1.y) + n.z * (v3.z - v1.z) == 0.0
  {
  }

  /**
   * Above any corner of a triangle that is neither degenerate nor
   * near-vertical, the interpolated height is that corner's height.
   */
  lemma InterpolateAtCorners(v1: Vec3, v2: Vec3, v3: Vec3)
    requires Normal(v1, v2, v3) != Zero && !NearVertical(Normal(v1, v2, v3))
    ensures InterpolateHeight(v1.x, v1.z, v1, v2, v3) == Some(v1.y)
    ensures InterpolateHeight(v2.x, v2.z, v1, v2, v3) == Some(v2.y)
    ensures InterpolateHeight(v3.x, v3.z, v1, v2, v3) == Some(v3.y)
  {
    var n := Normal(v1, v2, v3);
    NormalOrthogonal(v1, v2, v3);
    PlaneHeightUnique(n, v1, v2.x, v2.z, InterpolateHeight(v2.x, v2.z, v1, v2, v3).value, v2.y);
    PlaneHeightUnique(n, v1, v3.x, v3.z, InterpolateHeight(v3.x, v3.z, v1, v2, v3).value, v3.y);
    PlaneHeightUnique(n, v1, v1.x, v1.z, InterpolateHeight(v1.x, v1.z, v1, v2, v3).value, v1.y);
  }

  /** A non-horizontal-normal plane meets a vertical line once. */
  lemma PlaneHeightUnique(n: Vec3, v1: Vec3, x: real, z: real, h: real, k: real)
    requires n.y != 0.0
    requires n.x * (x - v1.x) + n.y * (h - v1.y) + n.z * (z - v1.z) == 0.0
    requires n.x * (x - v1.x) + n.y * (k - v1.y) + n.z * (z - v1.z) == 0.0
    ensures h == k
  {
    assert n.y * (h - k) == 0.0;
  }

  /** A level triangle with non-zero (x,z) area gives its common height everywhere. */
  lemma InterpolateFlat(x: real, z: real, v1: Vec3, v2: Vec3, v3: Vec3)
    requires v1.y == v2.y == v3.y && Area2(v1, v2, v3) != 0.0
    ensures InterpolateHeight(x, z, v1, v2, v3) == Some(v1.y)
  {
    var k := -Area2(v1, v2, v3);
    assert Normal(v1, v2, v3) == Vec3(0.0, k, 0.0);
    InterpolateLevelNormal(x, z, v1, v2, v3, k);
  }

  lemma InterpolateLevelNormal(x: real, z: real, v1: Vec3, v2: Vec3, v3: Vec3, k: real)
    requires Normal(v1, v2, v3) == Vec3(0.0, k, 0.0) && k != 0.0
    ensures InterpolateHeight(x, z, v1, v2, v3) == Some(v1.y)
  {
    LevelNormalNotVertical(k);
    assert Normal(v1, v2, v3) != Zero;
    assert !NearVertical(Normal(v1, v2, v3));
    var n := Normal(v1, v2, v3);
    var d := -(n.x * v1.x + n.y * v1.y + n.z * v1.z);
    var num := -n.x * x - n.z * z - d;
    assert InterpolateHeight(x, z, v1, v2, v3).value == num / n.y;
    assert num == k * v1.y by {
      assert n.x * v1.x == 0.0 && n.z * v1.z == 0.0 && (-n.x) * x == 0.0 && n.z * z == 0.0;
    }
    DivideProduct(num, k, v1.y);
  }

  lemma LevelNormalNotVertical(k: real)
    requires k != 0.0
    ensures !NearVertical(Vec3(0.0, k, 0.0))
  {
  }

  lemma DivideProduct(num: real, k: real, v: real)
    requires k != 0.0 && num == k * v
    ensures num / k == v
  {
  }

  /** Number of complete triangles; a trailing incomplete one is not scanned. */
  function TriangleCount(mesh: seq<Vec3>): nat {
    |mesh| / 3
  }

  /** What triangle t adds to the query: its plane height if it contains the point. */
  function Contribution(mesh: seq<Vec3>, t: nat, x: real, z: real): Option<real>
    requires t < TriangleCount(mesh)
  {
    var v1, v2, v3 := mesh[3 * t], mesh[3 * t + 1], mesh[3 * t + 2];
    if PointInTriangle(x, z, v1, v2, v3) then InterpolateHeight(x, z, v1, v2, v3) else None
  }

  /** Every triangle's contribution, in mesh order. */
  function Contributions(mesh: seq<Vec3>, x: real, z: real): (hs: seq<Option<real>>)
    ensures |hs| == TriangleCount(mesh)
    ensures forall t :: 0 <= t < |hs| ==> hs[t] == Contribution(mesh, t, x, z)
  {
    seq(TriangleCount(mesh), t requires 0 <= t < TriangleCount(mesh) => Contribution(mesh, t, x, z))
  }

  /** Running maximum, with `None` standing for the scan's initial minus infinity. */
  function MaxOpt(acc: Option<real>, h: Option<real>): Option<real> {
    match (acc, h)
    case (None, _) => h
    case (Some(a), None) => acc
    case (Some(a), Some(b)) => Some(if a < b then b else a)
  }

  /**
   * The scan's result over a list of contributions: the largest present
   * value, or `None` when no entry is present.
   */
  function MaxOf(hs: seq<Option<real>>): (r: Option<real>)
    ensures r.None? <==> forall i :: 0 <= i < |hs| ==> hs[i].None?
    ensures r.Some? ==> exists i :: 0 <= i < |hs| && hs[i] == r
    ensures r.Some? ==> forall i :: 0 <= i < |hs| && hs[i].Some? ==> hs[i].value <= r.value
  {
    if |hs| == 0 then None
    else
      var prev := MaxOf(hs[..|hs| - 1]);
      assert forall i :: 0 <= i < |hs| - 1 ==> hs[..|hs| - 1][i] == hs[i];
      MaxOpt(prev, hs[|hs| - 1])
  }

  /** The highest surface above (x, z) over the whole mesh, if any. */
  function TopHeight(mesh: seq<Vec3>, x: real, z: real): Option<real> {
    MaxOf(Contributions(mesh, x, z))
  }

  predicate Far(x: real, z: real) {
    Abs(x) > FarLimit || Abs(z) > FarLimit
  }

  /**
   * `get_terrain_height`: -0.8 far from the origin or when no triangle
   * contributes; otherwise the highest contribution.
   */
  function TerrainHeight(mesh: seq<Vec3>, x: real, z: real): (r: real)
    ensures Far(x, z) ==> r == Fallback
    ensures (forall t :: 0 <= t < TriangleCount(mesh) ==> Contribution(mesh, t, x, z).None?) ==> r == Fallback
    ensures !Far(x, z) && (exists t :: 0 <= t < TriangleCount(mesh) && Contribution(mesh, t, x, z).Some?) ==>
              && (exists t :: 0 <= t < TriangleCount(mesh) && Contribution(mesh, t, x, z) == Some(r))
              && (forall t :: 0 <= t < TriangleCount(mesh) && Contribution(mesh, t, x, z).Some? ==>
                                Contribution(mesh, t, x, z).value <= r)
  {
    if Far(x, z) then Fallback else TopHeight(mesh, x, z).GetOr(Fallback)
  }

  /** Vertices after the last complete triangle never change the answer. */
  lemma TrailingVerticesIgnored(mesh: seq<Vec3>, extra: seq<Vec3>, x: real, z: real)
    requires |mesh| % 3 == 0 && |extra| < 3
    ensures TerrainHeight(mesh + extra, x, z) == TerrainHeight(mesh, x, z)
  {
    var m := mesh + extra;
    assert TriangleCount(m) == TriangleCount(mesh);
    forall t | 0 <= t < TriangleCount(mesh)
      ensures Contribution(m, t, x, z) == Contribution(mesh, t, x, z)
    {
      assert m[3 * t] == mesh[3 * t] && m[3 * t + 1] == mesh[3 * t + 1] && m[3 * t + 2] == mesh[3 * t + 2];
    }
    assert Contributions(m, x, z) == Contributions(mesh, x, z);
  }

  /**
   * Two triangles that both contain the point: the scan answers the higher of
   * their plane heights, whichever comes first in the mesh.
   */
  lemma HigherOfTwoWins(a: Vec3, b: Vec3, c: Vec3, a': Vec3, b': Vec3, c': Vec3, x: real, z: real, h1: real, h2: real)
    requires !Far(x, z)
    requires PointInTriangle(x, z, a, b, c) && InterpolateHeight(x, z, a, b, c) == Some(h1)
    requires PointInTriangle(x, z, a', b', c') && InterpolateHeight(x, z, a', b', c') == Some(h2)
    ensures TerrainHeight([a, b, c, a', b', c'], x, z) == if h1 < h2 then h2 else h1
  {
    var mesh := [a, b, c, a', b', c'];
    assert Contribution(mesh, 0, x, z) == Some(h1);
    assert Contribution(mesh, 1, x, z) == Some(h2);
    var hs := Contributions(mesh, x, z);
    assert hs == [Some(h1), Some(h2)];
    assert hs[..1] == [Some(h1)];
  }
}
