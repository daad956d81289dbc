/**
 * Scene construction in Main.py: the static collision proxies, the five
 * placement calls in their fixed order sharing one ledger and one random
 * stream, the snapping of every placed prop onto the terrain, and the
 * proxies of the placed bark, cactus and rock instances.
 */
module Scene {
  import opened Base
  import Terrain
  import Placement
  import Collision

  /** The path the monkey patrols; props other than grass stay out of it. */
  const MonkeyPathZone: Placement.Rect := Placement.Rect(-2.0, 2.0, -20.0, 20.0)

  const AreaLo: real := -50.0
  const AreaHi: real := 50.0
  /** Grass is scattered over a wider range. */
  const GrassHi: real := 100.0

  /** The scene's models, in the order of the model table. */
  const SceneModels: seq<Model> :=
    [Ground, Rock, Monkey, Grass, Sphere, Cube, LightSphere, Hummingbird, Lego, Bark, Cactus1, Ball]

  /** The name a model has in the type tables, also the category tag of its placed instances. */
  function Name(m: Model): string {
    match m
    case Ground => "ground" case Rock => "rock" case Monkey => "monkey" case Grass => "grass"
    case Sphere => "sphere" case Cube => "cube" case LightSphere => "light_sphere"
    case Hummingbird => "hummingbird" case Lego => "lego" case Bark => "bark"
    case Cactus1 => "cactus1" case Ball => "ball"
  }

  /** Collision scale of a model type. */
  function ScaleOf(m: Model): real {
    match m
    case Rock => 1.2
    case Grass => 0.5
    case LightSphere => 0.2
    case Lego => 0.5
    case Bark => 0.8
    case Cactus1 => 0.8
    case Ball => 0.3
    case _ => 1.0
  }

  predicate HasCollision(m: Model) {
    match m
    case Rock | Monkey | Sphere | Cube | Hummingbird | Bark | Cactus1 => true
    case _ => false
  }

  /** Vertical offset of a model type (0 for types without one). */
  function HeightOffsetOf(m: Model): real {
    match m
    case Grass | Bark | Cactus1 | Rock => -0.8
    case Ball => -0.1
    case _ => 0.0
  }

  /** Translation of a model's initial transform; `None` means the identity. */
  function InitialTranslation(m: Model): Option<Vec3> {
    match m
    case Ground => Some(Vec3(0.0, -0.8, 0.0))
    case Rock => Some(Vec3(-5.0, -0.7, -2.0))
    case Monkey => Some(Vec3(0.0, 1.0, 0.0))
    case Sphere => Some(Vec3(3.0, 1.0, 0.0))
    case Grass => Some(Vec3(0.0, 3.0, 0.0))
    case Cube => Some(Vec3(0.0, -1.0, -5.0))
    case Hummingbird => Some(Vec3(2.0, 2.0, -3.0))
    case _ => None
  }

  const Origin: Vec3 := Vec3(0.0, 0.0, 0.0)

  /** The proxy a single model contributes, if it is collidable. */
  function StaticProxy1(m: Model): seq<Collision.Proxy> {
    if HasCollision(m) then [Collision.Proxy(m, InitialTranslation(m).GetOr(Origin), ScaleOf(m), HeightOffsetOf(m))] else []
  }

  /**
   * One proxy per collidable model, in model-table order, placed at the
   * model's initial transform. Proxies are not moved afterwards, so the
   * animated monkey and hummingbird keep colliding at their start points.
   */
  function StaticProxies(models: seq<Model>): seq<Collision.Proxy> {
    if |models| == 0 then [] else StaticProxy1(models[0]) + StaticProxies(models[1..])
  }

  /**
   * The static proxies of the scene: rock, monkey, sphere, cube and
   * hummingbird at their initial translations, and bark and cactus1, which
   * have no transform entry, at the origin.
   */
  lemma SceneStaticProxies()
    ensures var st := StaticProxies(SceneModels);
            |st| == 7
            && st[0] == Collision.Proxy(Rock, Vec3(-5.0, -0.7, -2.0), 1.2, -0.8)
            && st[1] == Collision.Proxy(Monkey, Vec3(0.0, 1.0, 0.0), 1.0, 0.0)
            && st[2] == Collision.Proxy(Sphere, Vec3(3.0, 1.0, 0.0), 1.0, 0.0)
            && st[3] == Collision.Proxy(Cube, Vec3(0.0, -1.0, -5.0), 1.0, 0.0)
            && st[4] == Collision.Proxy(Hummingbird, Vec3(2.0, 2.0, -3.0), 1.0, 0.0)
            && st[5] == Collision.Proxy(Bark, Origin, 0.8, -0.8)
            && st[6] == Collision.Proxy(Cactus1, Origin, 0.8, -0.8)
  {
    var first, second, third := [Ground, Rock, Monkey, Grass], [Sphere, Cube, LightSphere, Hummingbird], [Lego, Bark, Cactus1, Ball];
    assert SceneModels == first + second + third;
    StaticProxiesAppend(first + second, third);
    StaticProxiesAppend(first, second);
    var a, b, c := StaticProxies(first), StaticProxies(second), StaticProxies(third);
    StaticsFirstRow();
    StaticsSecondRow();
    StaticsThirdRow();
    ThreeRows(StaticProxies(SceneModels), a, b, c);
  }

  /** Indexing into three concatenated rows of lengths 2, 3 and 2. */
  lemma ThreeRows<T>(st: seq<T>, a: seq<T>, b: seq<T>, c: seq<T>)
    requires st == a + b + c && |a| == 2 && |b| == 3 && |c| == 2
    ensures |st| == 7 && st[0] == a[0] && st[1] == a[1] && st[2] == b[0] && st[3] == b[1] && st[4] == b[2]
    ensures st[5] == c[0] && st[6] == c[1]
  {
  }

  /** The proxies of a concatenation are the proxies of its parts, in order. */
  lemma {:induction false} StaticProxiesAppend(a: seq<Model>, b: seq<Model>)
    ensures StaticProxies(a + b) == StaticProxies(a) + StaticProxies(b)
    decreases |a|
  {
    if |a| == 0 {
      assert a + b == b;
    } else {
      assert (a + b)[1..] == a[1..] + b;
      StaticProxiesAppend(a[1..], b);
    }
  }

  lemma StaticsFirstRow()
    ensures StaticProxies([Ground, Rock, Monkey, Grass]) ==
            [Collision.Proxy(Rock, Vec3(-5.0, -0.7, -2.0), 1.2, -0.8), Collision.Proxy(Monkey, Vec3(0.0, 1.0, 0.0), 1.0, 0.0)]
  {
    assert [Ground, Rock, Monkey, Grass][1..] == [Rock, Monkey, Grass];
    assert [Rock, Monkey, Grass][1..] == [Monkey, Grass];
    assert [Monkey, Grass][1..] == [Grass];
    assert [Grass][1..] == [];
  }

  lemma StaticsSecondRow()
    ensures StaticProxies([Sphere, Cube, LightSphere, Hummingbird]) ==
            [Collision.Proxy(Sphere, Vec3(3.0, 1.0, 0.0), 1.0, 0.0), Collision.Proxy(Cube, Vec3(0.0, -1.0, -5.0), 1.0, 0.0),
             Collision.Proxy(Hummingbird, Vec3(2.0, 2.0, -3.0), 1.0, 0.0)]
  {
    assert [Sphere, Cube, LightSphere, Hummingbird][1..] == [Cube, LightSphere, Hummingbird];
    assert [Cube, LightSphere, Hummingbird][1..] == [LightSphere, Hummingbird];
    assert [LightSphere, Hummingbird][1..] == [Hummingbird];
    assert [Hummingbird][1..] == [];
  }

  lemma StaticsThirdRow()
    ensures StaticProxies([Lego, Bark, Cactus1, Ball]) ==
            [Collision.Proxy(Bark, Origin, 0.8, -0.8), Collision.Proxy(Cactus1, Origin, 0.8, -0.8)]
  {
    assert [Lego, Bark, Cactus1, Ball][1..] == [Bark, Cactus1, Ball];
    assert [Bark, Cactus1, Ball][1..] == [Cactus1, Ball];
    assert [Cactus1, Ball][1..] == [Ball];
    assert [Ball][1..] == [];
  }

  /** The spacing base each category's placement call is made with. */
  function CallSpacing(category: string): real {
    if category == "rock" then 8.0
    else if category == "grass" then 2.0
    else 5.0
  }

  /**
   * Every ledger entry kept, at the moment it was placed, the spacing its own
   * call demanded from every entry placed before it.
   */
  predicate LedgerSpaced(l: Placement.Ledger) {
    forall j, i :: 0 <= i < j < |l| ==>
      Placement.SpacedFrom(l[j].pos, l[i].pos, Placement.Required(l[j].category, l[i].category, CallSpacing(l[j].category)))
  }

  lemma ExtendSpaced(l: Placement.Ledger, ps: seq<Vec3>, category: string, l': Placement.Ledger)
    requires LedgerSpaced(l)
    requires l' == l + Placement.Tag(ps, category)
    requires Placement.SpacedAfter(l', |l|, category, CallSpacing(category))
    ensures LedgerSpaced(l')
  {
    forall j, i | 0 <= i < j < |l'|
      ensures Placement.SpacedFrom(l'[j].pos, l'[i].pos, Placement.Required(l'[j].category, l'[i].category, CallSpacing(l'[j].category)))
    {
      if j >= |l| {
        assert l'[j] == Placement.Entry(ps[j - |l|], category);
      } else {
        assert l'[j] == l[j] && l'[i] == l[i];
      }
    }
  }

  /** Every prop stands at the terrain height of its (x, z) plus `offset`. */
  predicate Grounded(mesh: seq<Vec3>, ps: seq<Vec3>, offset: real) {
    forall k :: 0 <= k < |ps| ==> ps[k].y == Terrain.TerrainHeight(mesh, ps[k].x, ps[k].z) + offset
  }

  predicate SameFootprint(ps: seq<Vec3>, qs: seq<Vec3>) {
    |ps| == |qs| && forall k :: 0 <= k < |ps| ==> ps[k].x == qs[k].x && ps[k].z == qs[k].z
  }

  /** Snap props onto the terrain: keep (x, z), set y to the ground height plus the type's offset. */
  function Anchor(mesh: seq<Vec3>, ps: seq<Vec3>, offset: real): (r: seq<Vec3>)
    ensures SameFootprint(r, ps) && Grounded(mesh, r, offset)
    ensures OutsideZone(ps) ==> OutsideZone(r)
  {
    seq(|ps|, k requires 0 <= k < |ps| => ps[k].(y := Terrain.TerrainHeight(mesh, ps[k].x, ps[k].z) + offset))
  }

  /** Proxies for placed instances of one model type. */
  function InstanceProxies(model: Model, ps: seq<Vec3>): (r: seq<Collision.Proxy>)
    ensures |r| == |ps|
    ensures forall k :: 0 <= k < |ps| ==> r[k] == Collision.Proxy(model, ps[k], ScaleOf(model), HeightOffsetOf(model))
  {
    seq(|ps|, k requires 0 <= k < |ps| => Collision.Proxy(model, ps[k], ScaleOf(model), HeightOffsetOf(model)))
  }

  datatype Scene = Scene(
    bark: seq<Vec3>, rocks: seq<Vec3>, cactus: seq<Vec3>, balls: seq<Vec3>, grass: seq<Vec3>,
    ledger: Placement.Ledger, proxies: seq<Collision.Proxy>)

  /** Random draws the five placement calls may use at most. */
  const DrawBudget: nat := 20 * (10 + 3 + 100 + 20 + 100)

  predicate OutsideZone(ps: seq<Vec3>) {
    forall k :: 0 <= k < |ps| ==> !Placement.InRect(MonkeyPathZone, ps[k].x, ps[k].z)
  }

  /**
   * One placement call of the scene, for the instances of one model: the
   * model's name tags the ledger entries, and the call uses its category's
   * spacing base and the model's height offset. Returns the draws it left
   * unused.
   */
  method PlaceCategory(count: nat, hi: real, exclude: Option<Placement.Rect>, model: Model,
                       ledger: Placement.Ledger, samples: seq<(real, real)>)
    returns (ps: seq<Vec3>, ledger': Placement.Ledger, rest: seq<(real, real)>)
    requires |samples| >= 20 * count && LedgerSpaced(ledger)
    ensures |ps| <= count && |rest| >= |samples| - 20 * count
    ensures exclude == Some(MonkeyPathZone) ==> OutsideZone(ps)
    ensures LedgerSpaced(ledger') && ledger' == ledger + Placement.Tag(ps, Name(model))
    ensures forall k :: 0 <= k < |ps| ==> ps[k].y == HeightOffsetOf(model)
    ensures (ps, |samples| - |rest|) == Placement.Run(CategoryCall(count, hi, exclude, model), ledger, samples, 0, [])
    ensures rest == samples[|samples| - |rest|..]
    ensures (ps, ledger', rest) == PlaceStep(count, hi, exclude, model, ledger, samples)
  {
    var attempts;
    var category := Name(model);
    ps, ledger', attempts := Placement.Generate(count, AreaLo, hi, CallSpacing(category), HeightOffsetOf(model),
                                                exclude, category, ledger, samples);
    ExtendSpaced(ledger, ps, category, ledger');
    rest := samples[attempts..];
  }

  /** The parameters of the placement call for one model. */
  function CategoryCall(count: nat, hi: real, exclude: Option<Placement.Rect>, model: Model): Placement.Call {
    Placement.Call(count, AreaLo, hi, CallSpacing(Name(model)), HeightOffsetOf(model), exclude, Name(model))
  }

  /**
   * One placement call as the attempt loop defines it: the points `Run`
   * accepts from attempt 0, the ledger grown by them, and the draws left
   * after the attempts it made.
   */
  function PlaceStep(count: nat, hi: real, exclude: Option<Placement.Rect>, model: Model,
                     ledger: Placement.Ledger, samples: seq<(real, real)>)
    : (r: (seq<Vec3>, Placement.Ledger, seq<(real, real)>))
    requires |samples| >= 20 * count
    ensures |r.2| >= |samples| - 20 * count
  {
    var (ps, n) := Placement.Run(CategoryCall(count, hi, exclude, model), ledger, samples, 0, []);
    (ps, ledger + Placement.Tag(ps, Name(model)), samples[n..])
  }

  /** The props of the five placement calls, before they are snapped, and the ledger after them. */
  datatype Placed = Placed(bark: seq<Vec3>, rocks: seq<Vec3>, cactus: seq<Vec3>, balls: seq<Vec3>, grass: seq<Vec3>,
                           ledger: Placement.Ledger)

  /**
   * The five placement calls in their fixed order: each starts from the
   * ledger the previous one left and draws from where it stopped.
   */
  function ScenePlacement(samples: seq<(real, real)>): Placed
    requires |samples| >= DrawBudget
  {
    var zone := Some(MonkeyPathZone);
    var (bark, l1, s1) := PlaceStep(10, AreaHi, zone, Bark, [], samples);
    var (rocks, l2, s2) := PlaceStep(3, AreaHi, zone, Rock, l1, s1);
    var (cactus, l3, s3) := PlaceStep(100, AreaHi, zone, Cactus1, l2, s2);
    var (balls, l4, s4) := PlaceStep(20, AreaHi, zone, Ball, l3, s3);
    var (grass, l5, _) := PlaceStep(100, GrassHi, None, Grass, l4, s4);
    Placed(bark, rocks, cactus, balls, grass, l5)
  }

  /** The scene keeps the placed props' (x, z) and the placement ledger. */
  predicate PlacedBy(sc: Scene, p: Placed) {
    && SameFootprint(sc.bark, p.bark) && SameFootprint(sc.rocks, p.rocks) && SameFootprint(sc.cactus, p.cactus)
    && SameFootprint(sc.balls, p.balls) && SameFootprint(sc.grass, p.grass) && sc.ledger == p.ledger
  }

  /**
   * The scene places something: the very first draw becomes the first bark
   * prop whenever it falls outside the monkey's path.
   */
  lemma FirstBarkPlaced(samples: seq<(real, real)>)
    requires |samples| >= DrawBudget
    requires var pos := Placement.Candidate(samples, 0, AreaLo, AreaHi, HeightOffsetOf(Bark));
             !Placement.InRect(MonkeyPathZone, pos.x, pos.z)
    ensures |ScenePlacement(samples).bark| > 0
    ensures ScenePlacement(samples).bark[0] == Placement.Candidate(samples, 0, AreaLo, AreaHi, HeightOffsetOf(Bark))
  {
    var call := CategoryCall(10, AreaHi, Some(MonkeyPathZone), Bark);
    Placement.FirstClearDrawAccepted(call, [], samples);
    assert ScenePlacement(samples).bark == Placement.Run(call, [], samples, 0, []).0;
  }

  /** The scene setup, from clearing the ledger to registering the prop proxies. */
  method BuildScene(mesh: seq<Vec3>, samples: seq<(real, real)>) returns (sc: Scene)
    requires |samples| >= DrawBudget
    ensures |sc.bark| <= 10 && |sc.rocks| <= 3 && |sc.cactus| <= 100 && |sc.balls| <= 20 && |sc.grass| <= 100
    ensures OutsideZone(sc.bark) && OutsideZone(sc.rocks) && OutsideZone(sc.cactus) && OutsideZone(sc.balls)
    ensures Grounded(mesh, sc.bark, HeightOffsetOf(Bark)) && Grounded(mesh, sc.rocks, HeightOffsetOf(Rock))
    ensures Grounded(mesh, sc.cactus, HeightOffsetOf(Cactus1)) && Grounded(mesh, sc.balls, HeightOffsetOf(Ball))
    ensures Grounded(mesh, sc.grass, HeightOffsetOf(Grass))
    ensures LedgerSpaced(sc.ledger)
    ensures |sc.ledger| == |sc.bark| + |sc.rocks| + |sc.cactus| + |sc.balls| + |sc.grass|
    ensures LedgerInOrder(sc)
    ensures sc.proxies == SceneProxies(sc.bark, sc.cactus, sc.rocks)
    ensures PlacedBy(sc, ScenePlacement(samples))
  {
    var zone := Some(MonkeyPathZone);
    var bark, l1, s1 := PlaceCategory(10, AreaHi, zone, Bark, [], samples);
    var rocks, l2, s2 := PlaceCategory(3, AreaHi, zone, Rock, l1, s1);
    var cactus, l3, s3 := PlaceCategory(100, AreaHi, zone, Cactus1, l2, s2);
    var balls, l4, s4 := PlaceCategory(20, AreaHi, zone, Ball, l3, s3);
    var grass, l5, s5 := PlaceCategory(100, GrassHi, None, Grass, l4, s4);

    var grass' := Anchor(mesh, grass, HeightOffsetOf(Grass));
    var bark' := Anchor(mesh, bark, HeightOffsetOf(Bark));
    var cactus' := Anchor(mesh, cactus, HeightOffsetOf(Cactus1));
    var rocks' := Anchor(mesh, rocks, HeightOffsetOf(Rock));
    var balls' := Anchor(mesh, balls, HeightOffsetOf(Ball));

    var proxies := SceneProxies(bark', cactus', rocks');
    LedgerOrder(bark, rocks, cactus, balls, grass, bark', rocks', cactus', balls', grass',
                Name(Bark), Name(Rock), Name(Cactus1), Name(Ball), Name(Grass), l1, l2, l3, l4, l5);
    sc := Scene(bark', rocks', cactus', balls', grass', l5, proxies);
  }

  /**
   * The scene's ledger lists the placed props category by category in
   * generation order (bark, rock, cactus1, ball, grass), each entry tagged
   * with its category and at its prop's (x, z).
   */
  predicate LedgerInOrder(sc: Scene) {
    BlocksInOrder(sc.ledger, sc.bark, sc.rocks, sc.cactus, sc.balls, sc.grass,
                  Name(Bark), Name(Rock), Name(Cactus1), Name(Ball), Name(Grass))
  }

  /** The ledger is the five blocks `qs1` … `qs5`, back to back, tagged `c1` … `c5`. */
  predicate BlocksInOrder(l: Placement.Ledger, qs1: seq<Vec3>, qs2: seq<Vec3>, qs3: seq<Vec3>, qs4: seq<Vec3>,
                          qs5: seq<Vec3>, c1: string, c2: string, c3: string, c4: string, c5: string) {
    && LedgerHolds(l, 0, qs1, c1)
    && LedgerHolds(l, |qs1|, qs2, c2)
    && LedgerHolds(l, |qs1| + |qs2|, qs3, c3)
    && LedgerHolds(l, |qs1| + |qs2| + |qs3|, qs4, c4)
    && LedgerHolds(l, |qs1| + |qs2| + |qs3| + |qs4|, qs5, c5)
  }

  /**
   * From index `from` on, the ledger holds one entry per prop of `ps`, in
   * order, tagged `category` and at the prop's (x, z).
   */
  predicate LedgerHolds(l: Placement.Ledger, from: nat, ps: seq<Vec3>, category: string) {
    from + |ps| <= |l| && BlockMatches(l[from..from + |ps|], ps, category)
  }

  /** Entry k of `block` is tagged `category` and sits at the (x, z) of `ps[k]`. */
  predicate BlockMatches(block: Placement.Ledger, ps: seq<Vec3>, category: string) {
    |block| == |ps|
    && forall k :: 0 <= k < |ps| ==>
         block[k].category == category && block[k].pos.x == ps[k].x && block[k].pos.z == ps[k].z
  }

  /**
   * Five calls appending to one ledger leave their blocks in call order, each
   * at its props' footprints; `l1` to `l5` are the ledger after each call.
   */
  lemma LedgerOrder(ps1: seq<Vec3>, ps2: seq<Vec3>, ps3: seq<Vec3>, ps4: seq<Vec3>, ps5: seq<Vec3>,
                    qs1: seq<Vec3>, qs2: seq<Vec3>, qs3: seq<Vec3>, qs4: seq<Vec3>, qs5: seq<Vec3>,
                    c1: string, c2: string, c3: string, c4: string, c5: string,
                    l1: Placement.Ledger, l2: Placement.Ledger, l3: Placement.Ledger, l4: Placement.Ledger,
                    l5: Placement.Ledger)
    requires SameFootprint(qs1, ps1) && SameFootprint(qs2, ps2) && SameFootprint(qs3, ps3)
    requires SameFootprint(qs4, ps4) && SameFootprint(qs5, ps5)
    requires l1 == [] + Placement.Tag(ps1, c1) && l2 == l1 + Placement.Tag(ps2, c2)
    requires l3 == l2 + Placement.Tag(ps3, c3) && l4 == l3 + Placement.Tag(ps4, c4)
    requires l5 == l4 + Placement.Tag(ps5, c5)
    ensures BlocksInOrder(l5, qs1, qs2, qs3, qs4, qs5, c1, c2, c3, c4, c5)
  {
    assert |l1| == |qs1|;
    assert |l2| == |qs1| + |qs2|;
    assert |l3| == |qs1| + |qs2| + |qs3|;
    assert |l4| == |qs1| + |qs2| + |qs3| + |qs4|;
    TagHolds([], ps1, c1, qs1);
    TagHolds(l1, ps2, c2, qs2);
    TagHolds(l2, ps3, c3, qs3);
    TagHolds(l3, ps4, c4, qs4);
    TagHolds(l4, ps5, c5, qs5);
    HoldsExtend(l1, 0, qs1, c1, Placement.Tag(ps2, c2));
    HoldsExtend(l2, 0, qs1, c1, Placement.Tag(ps3, c3));
    HoldsExtend(l2, |l1|, qs2, c2, Placement.Tag(ps3, c3));
    HoldsExtend(l3, 0, qs1, c1, Placement.Tag(ps4, c4));
    HoldsExtend(l3, |l1|, qs2, c2, Placement.Tag(ps4, c4));
    HoldsExtend(l3, |l2|, qs3, c3, Placement.Tag(ps4, c4));
    HoldsExtend(l4, 0, qs1, c1, Placement.Tag(ps5, c5));
    HoldsExtend(l4, |l1|, qs2, c2, Placement.Tag(ps5, c5));
    HoldsExtend(l4, |l2|, qs3, c3, Placement.Tag(ps5, c5));
    HoldsExtend(l4, |l3|, qs4, c4, Placement.Tag(ps5, c5));
  }

  /** Appending to the ledger keeps every block it already holds. */
  lemma HoldsExtend(l: Placement.Ledger, from: nat, ps: seq<Vec3>, category: string, extra: Placement.Ledger)
    requires LedgerHolds(l, from, ps, category)
    ensures LedgerHolds(l + extra, from, ps, category)
  {
    assert (l + extra)[from..from + |ps|] == l[from..from + |ps|];
  }

  /** A tagged block of the ledger still matches its props after they are snapped onto the terrain. */
  lemma TagHolds(a: Placement.Ledger, ps: seq<Vec3>, category: string, qs: seq<Vec3>)
    requires SameFootprint(qs, ps)
    ensures LedgerHolds(a + Placement.Tag(ps, category), |a|, qs, category)
  {
    assert (a + Placement.Tag(ps, category))[|a|..|a| + |qs|] == Placement.Tag(ps, category);
  }

  /**
   * The collision proxies of the scene: the static ones, then one per placed
   * bark, cactus and rock, in that order.
   */
  function SceneProxies(bark: seq<Vec3>, cactus: seq<Vec3>, rocks: seq<Vec3>): seq<Collision.Proxy> {
    StaticProxies(SceneModels) + InstanceProxies(Bark, bark) + InstanceProxies(Cactus1, cactus) + InstanceProxies(Rock, rocks)
  }

  /** Every proxy is of a type that has a collision entry. */
  predicate AllCollidable(ps: seq<Collision.Proxy>) {
    forall k :: 0 <= k < |ps| ==> HasCollision(ps[k].model)
  }

  /** Whatever the model list, only collidable models contribute proxies. */
  lemma {:induction false} StaticProxiesCollidable(models: seq<Model>)
    ensures AllCollidable(StaticProxies(models))
    decreases |models|
  {
    if |models| > 0 {
      StaticProxiesCollidable(models[1..]);
      CollidableAppend(StaticProxy1(models[0]), StaticProxies(models[1..]));
    }
  }

  lemma CollidableAppend(a: seq<Collision.Proxy>, b: seq<Collision.Proxy>)
    requires AllCollidable(a) && AllCollidable(b)
    ensures AllCollidable(a + b)
  {
    forall k | 0 <= k < |a + b|
      ensures HasCollision((a + b)[k].model)
    {
      if k >= |a| {
        assert (a + b)[k] == b[k - |a|];
      }
    }
  }

  /** From index `from` on, `ps` holds one proxy per position of `pos`, of type `model`. */
  predicate ProxiesAt(ps: seq<Collision.Proxy>, from: nat, model: Model, pos: seq<Vec3>) {
    from + |pos| <= |ps|
    && forall k :: 0 <= k < |pos| ==> ps[from + k] == Collision.Proxy(model, pos[k], ScaleOf(model), HeightOffsetOf(model))
  }

  lemma InstancesAt(a: seq<Collision.Proxy>, model: Model, pos: seq<Vec3>, c: seq<Collision.Proxy>)
    ensures ProxiesAt(a + InstanceProxies(model, pos) + c, |a|, model, pos)
  {
    var ps := a + InstanceProxies(model, pos) + c;
    forall k | 0 <= k < |pos|
      ensures ps[|a| + k] == Collision.Proxy(model, pos[k], ScaleOf(model), HeightOffsetOf(model))
    {
      assert ps[|a| + k] == InstanceProxies(model, pos)[k];
    }
  }

  /**
   * Balls are never obstacles: every scene proxy, static or placed, is of a
   * collidable type.
   */
  lemma SceneProxiesCollidable(bark: seq<Vec3>, cactus: seq<Vec3>, rocks: seq<Vec3>)
    ensures var ps := SceneProxies(bark, cactus, rocks);
            |ps| == 7 + |bark| + |cactus| + |rocks|
            && forall k :: 0 <= k < |ps| ==> HasCollision(ps[k].model) && ps[k].model != Ball
  {
    SceneStaticCount();
    StaticProxiesCollidable(SceneModels);
    CoverAfter(StaticProxies(SceneModels), bark, cactus, rocks);
  }

  /**
   * After the seven static proxies come the placed bark, cactus and rock
   * instances, in that order, each at its own position with its type's
   * scale and height offset.
   */
  lemma SceneProxiesLayout(bark: seq<Vec3>, cactus: seq<Vec3>, rocks: seq<Vec3>)
    ensures var ps := SceneProxies(bark, cactus, rocks);
            ProxiesAt(ps, 7, Bark, bark) && ProxiesAt(ps, 7 + |bark|, Cactus1, cactus)
            && ProxiesAt(ps, 7 + |bark| + |cactus|, Rock, rocks)
  {
    SceneStaticCount();
    StaticProxiesCollidable(SceneModels);
    CoverAfter(StaticProxies(SceneModels), bark, cactus, rocks);
  }

  /** The layout of the instance proxies after any collidable prefix `st`. */
  lemma CoverAfter(st: seq<Collision.Proxy>, bark: seq<Vec3>, cactus: seq<Vec3>, rocks: seq<Vec3>)
    requires AllCollidable(st)
    ensures var ps := st + InstanceProxies(Bark, bark) + InstanceProxies(Cactus1, cactus) + InstanceProxies(Rock, rocks);
            |ps| == |st| + |bark| + |cactus| + |rocks|
            && (forall k :: 0 <= k < |ps| ==> HasCollision(ps[k].model) && ps[k].model != Ball)
            && ProxiesAt(ps, |st|, Bark, bark)
            && ProxiesAt(ps, |st| + |bark|, Cactus1, cactus)
            && ProxiesAt(ps, |st| + |bark| + |cactus|, Rock, rocks)
  {
    var ib, ic, ir := InstanceProxies(Bark, bark), InstanceProxies(Cactus1, cactus), InstanceProxies(Rock, rocks);
    assert AllCollidable(ib) && AllCollidable(ic) && AllCollidable(ir);
    CollidableAppend(st, ib);
    CollidableAppend(st + ib, ic);
    CollidableAppend(st + ib + ic, ir);
    var ps := st + ib + ic + ir;
    assert ps == st + ib + (ic + ir);
    InstancesAt(st, Bark, bark, ic + ir);
    InstancesAt(st + ib, Cactus1, cactus, ir);
    assert ps == st + ib + ic + ir + [];
    InstancesAt(st + ib + ic, Rock, rocks, []);
  }

  lemma SceneStaticCount()
    ensures |StaticProxies(SceneModels)| == 7
  {
    SceneStaticProxies();
  }
}
