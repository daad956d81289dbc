/**
 * Collision proxies (player.py `add_collision_object`,
 * `check_object_collision`).
 *
 * A proxy is a bounding cylinder: the translation of its transform at the
 * moment it was registered, a radius contribution (`scale`) and a vertical
 * offset. Models are compared by identity, here as `Model` constants.
 */
module Collision {
  import opened Base

  datatype Proxy = Proxy(model: Model, center: Vec3, scale: real, heightOffset: real)

  const CollisionRadius: real := 0.5
  const CollisionHeight: real := 1.0

  /** The player standing at `pos` overlaps proxy `o`. */
  predicate Hits(o: Proxy, pos: Vec3) {
    Abs(pos.y - (o.center.y + o.heightOffset)) < CollisionHeight
    && Within(HorizDistSq(pos, o.center), CollisionRadius + o.scale)
  }

  /**
   * Scan of the proxy list in registration order; proxies of the ground
   * model are skipped.
   */
  function Collides(objs: seq<Proxy>, ground: Model, pos: Vec3): (r: bool)
    ensures r <==> exists i :: 0 <= i < |objs| && objs[i].model != ground && Hits(objs[i], pos)
  {
    if |objs| == 0 then false
    else if objs[0].model == ground then
      var rest := Collides(objs[1..], ground, pos);
      assert forall i :: 1 <= i < |objs| ==> objs[i] == objs[1..][i - 1];
      rest
    else if Hits(objs[0], pos) then true
    else
      var rest := Collides(objs[1..], ground, pos);
      assert forall i :: 1 <= i < |objs| ==> objs[i] == objs[1..][i - 1];
      rest
  }

  function AddCollisionObject(objs: seq<Proxy>, model: Model, center: Vec3, scale: real, heightOffset: real): (r: seq<Proxy>)
    ensures |r| == |objs| + 1 && r[..|objs|] == objs
    ensures r[|objs|] == Proxy(model, center, scale, heightOffset)
  {
    objs + [Proxy(model, center, scale, heightOffset)]
  }

  /** Registering one more proxy adds exactly its own hit to the verdict. */
  lemma AddedProxyDecides(objs: seq<Proxy>, ground: Model, o: Proxy, pos: Vec3)
    ensures Collides(AddCollisionObject(objs, o.model, o.center, o.scale, o.heightOffset), ground, pos)
            <==> Collides(objs, ground, pos) || (o.model != ground && Hits(o, pos))
  {
    var r := AddCollisionObject(objs, o.model, o.center, o.scale, o.heightOffset);
    assert forall i :: 0 <= i < |objs| ==> r[i] == objs[i];
    assert r[|objs|] == o;
  }
}
