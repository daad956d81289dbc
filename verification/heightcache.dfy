/**
 * The player's terrain-height lookup with its cache (player.py
 * `get_height_at_position`, `_clear_old_cache`).
 *
 * A query is answered from a map keyed by the position rounded to one decimal
 * (`round(v, 1)`, here kept as the integer number of tenths). On a miss the
 * ground mesh is scanned like the scene's height query, without the far-away
 * cut-off, the ground offset is added and the value is stored. The whole map
 * is dropped when more than one second has passed since the last drop; the
 * clock reading is an input.
 */
module HeightCache {
  import opened Base
  import Terrain

  /** Added to every scanned height (`ground_offset`). */
  const GroundOffset: real := -0.8
  /** Height used when no triangle contains the point, before the offset. */
  const NoHitHeight: real := -0.8
  /** Answer when the mesh has no vertices; it is not stored. */
  const EmptyMeshHeight: real := -0.8
  /** Seconds a cache generation lives. */
  const Lifetime: real := 1.0

  type Key = (int, int)

  datatype Cache = Cache(entries: map<Key, real>, lastClear: real)

  /**
   * `round(a, 1)` as a whole number of tenths: the integer nearest to `10 a`,
   * ties to the even one (Python rounds halves to even).
   */
  function RoundTenths(a: real): (r: int)
    ensures (r as real) - 0.5 <= 10.0 * a <= (r as real) + 0.5
    ensures (10.0 * a == (r as real) - 0.5 || 10.0 * a == (r as real) + 0.5) ==> r % 2 == 0
  {
    var t := 10.0 * a;
    var f := t.Floor;
    var frac := t - f as real;
    if frac < 0.5 then f
    else if frac > 0.5 then f + 1
    else if f % 2 == 0 then f
    else f + 1
  }

  /** Any integer strictly closer than one half to `10 a` is the rounding of `a`. */
  lemma RoundTenthsNearest(a: real, j: int)
    requires (j as real) - 0.5 < 10.0 * a < (j as real) + 0.5
    ensures RoundTenths(a) == j
  {
  }

  /** A value that is an exact number of tenths keeps it. */
  lemma RoundTenthsExact(k: int)
    ensures RoundTenths((k as real) / 10.0) == k
  {
    RoundTenthsNearest((k as real) / 10.0, k);
  }

  function KeyOf(x: real, z: real): Key {
    (RoundTenths(x), RoundTenths(z))
  }

  /** The value a miss computes and stores at (x, z). */
  function Fresh(mesh: seq<Vec3>, x: real, z: real): real {
    Terrain.TopHeight(mesh, x, z).GetOr(NoHitHeight) + GroundOffset
  }

  /**
   * A miss where no triangle contains the point answers the no-hit height
   * plus the ground offset, -1.6; a hit answers the highest containing
   * triangle's height lowered by 0.8.
   */
  lemma FreshHeight(mesh: seq<Vec3>, x: real, z: real)
    ensures (forall t :: 0 <= t < Terrain.TriangleCount(mesh) ==> Terrain.Contribution(mesh, t, x, z).None?) ==>
              Fresh(mesh, x, z) == -1.6
    ensures (exists t :: 0 <= t < Terrain.TriangleCount(mesh) && Terrain.Contribution(mesh, t, x, z).Some?) ==>
              (exists t :: 0 <= t < Terrain.TriangleCount(mesh) && Terrain.Contribution(mesh, t, x, z) == Some(Fresh(mesh, x, z) + 0.8))
    ensures forall t :: 0 <= t < Terrain.TriangleCount(mesh) && Terrain.Contribution(mesh, t, x, z).Some? ==>
              Terrain.Contribution(mesh, t, x, z).value <= Fresh(mesh, x, z) + 0.8
  {
    var hs := Terrain.Contributions(mesh, x, z);
    if exists t :: 0 <= t < Terrain.TriangleCount(mesh) && Terrain.Contribution(mesh, t, x, z).Some? {
      var t :| 0 <= t < Terrain.TriangleCount(mesh) && Terrain.Contribution(mesh, t, x, z).Some?;
      assert hs[t].Some?;
      var top := Terrain.TopHeight(mesh, x, z);
      assert top.Some?;
      var i :| 0 <= i < |hs| && hs[i] == top;
      assert Terrain.Contribution(mesh, i, x, z) == Some(Fresh(mesh, x, z) + 0.8);
    }
  }

  /** Drops every entry once the lifetime has strictly elapsed. */
  function ClearOld(c: Cache, now: real): (c': Cache)
    ensures c'.entries.Keys <= c.entries.Keys
    ensures forall k :: k in c'.entries ==> c'.entries[k] == c.entries[k]
    ensures now - c.lastClear > Lifetime ==> |c'.entries| == 0 && c'.lastClear == now
    ensures now - c.lastClear <= Lifetime ==> c' == c
  {
    if now - c.lastClear > Lifetime then Cache(map[], now) else c
  }

  /** One height query: the answer and the cache afterwards. */
  function Query(c: Cache, mesh: seq<Vec3>, x: real, z: real): (res: (real, Cache))
    ensures res.1.lastClear == c.lastClear
    ensures c.entries.Keys <= res.1.entries.Keys <= c.entries.Keys + {KeyOf(x, z)}
    ensures forall k :: k in c.entries ==> k in res.1.entries && res.1.entries[k] == c.entries[k]
    ensures KeyOf(x, z) in res.1.entries ==> res.1.entries[KeyOf(x, z)] == res.0
    ensures KeyOf(x, z) in c.entries ==> res == (c.entries[KeyOf(x, z)], c)
    ensures KeyOf(x, z) !in c.entries && |mesh| == 0 ==> res == (EmptyMeshHeight, c)
    ensures KeyOf(x, z) !in c.entries && |mesh| > 0 ==> res.0 == Fresh(mesh, x, z) && KeyOf(x, z) in res.1.entries
  {
    var key := KeyOf(x, z);
    if key in c.entries then (c.entries[key], c)
    else if |mesh| == 0 then (EmptyMeshHeight, c)
    else
      var h := Fresh(mesh, x, z);
      (h, c.(entries := c.entries[key := h]))
  }

  /** `h` is what a miss would compute at some point of the cell `k`. */
  ghost predicate FreshAtKey(mesh: seq<Vec3>, k: Key, h: real) {
    exists x: real, z: real :: KeyOf(x, z) == k && h == Fresh(mesh, x, z)
  }

  /** Every stored value was computed for a point of its own cell. */
  ghost predicate Sound(c: Cache, mesh: seq<Vec3>) {
    forall k :: k in c.entries ==> FreshAtKey(mesh, k, c.entries[k])
  }

  /** Queries keep the cache sound, and on a non-empty mesh each answer is a fresh height of the query's cell. */
  lemma QueryKeepsSound(c: Cache, mesh: seq<Vec3>, x: real, z: real)
    requires Sound(c, mesh)
    ensures Sound(Query(c, mesh, x, z).1, mesh)
    ensures |mesh| > 0 ==> FreshAtKey(mesh, KeyOf(x, z), Query(c, mesh, x, z).0)
  {
    var key := KeyOf(x, z);
    if key !in c.entries && |mesh| > 0 {
      assert KeyOf(x, z) == key && Fresh(mesh, x, z) == Query(c, mesh, x, z).0;
    }
  }

  lemma ClearKeepsSound(c: Cache, mesh: seq<Vec3>, now: real)
    requires Sound(c, mesh)
    ensures Sound(ClearOld(c, now), mesh)
  {
  }

  /**
   * A second query in the same cell returns the first answer and leaves the
   * cache as the first query left it, even at a different point: the cache is
   * keyed by cell, not by point.
   */
  lemma SameCellSameAnswer(c: Cache, mesh: seq<Vec3>, x: real, z: real, x': real, z': real)
    requires KeyOf(x, z) == KeyOf(x', z')
    ensures var (h, c1) := Query(c, mesh, x, z); Query(c1, mesh, x', z') == (h, c1)
  {
  }

  lemma GridKey(i: int, j: int)
    ensures KeyOf((i as real) / 10.0, (j as real) / 10.0) == (i, j)
  {
    RoundTenthsExact(i);
    RoundTenthsExact(j);
  }

  /** Every stored value is the fresh height at the centre of its cell. */
  function CentreHeight(mesh: seq<Vec3>, k: Key): real {
    Fresh(mesh, (k.0 as real) / 10.0, (k.1 as real) / 10.0)
  }

  predicate GridExact(c: Cache, mesh: seq<Vec3>) {
    forall k :: k in c.entries ==> c.entries[k] == CentreHeight(mesh, k)
  }

  /**
   * For points on the 0.1 grid the cache is transparent: the answer is the
   * fresh height (the empty-mesh answer aside), and exactness is kept.
   */
  lemma GridQueriesAreExact(c: Cache, mesh: seq<Vec3>, i: int, j: int)
    requires GridExact(c, mesh) && |mesh| > 0
    ensures var (h, c1) := Query(c, mesh, (i as real) / 10.0, (j as real) / 10.0);
            h == Fresh(mesh, (i as real) / 10.0, (j as real) / 10.0) && GridExact(c1, mesh)
  {
    GridKey(i, j);
    assert CentreHeight(mesh, (i, j)) == Fresh(mesh, (i as real) / 10.0, (j as real) / 10.0);
  }
}
