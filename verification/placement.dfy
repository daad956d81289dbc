/**
 * Procedural placement of props (init.py `generate_random_terrain_positions`
 * and the module-level `all_terrain_positions` ledger).
 *
 * One call draws candidate (x, z) points, rejects those inside an optional
 * exclusion rectangle or too close to anything already placed, and stops when
 * enough points are accepted or the attempt budget is spent. Every accepted
 * point is also appended, tagged with its category, to a ledger shared by all
 * calls of one scene build, so earlier categories repel later ones.
 *
 * `random.uniform(lo, hi)` is `lo + (hi - lo) * random()`; the `random()`
 * stream is an input: one (ux, uz) pair per attempt.
 */
module Placement {
  import opened Base

  /** One ledger record: a placed position and its category. */
  datatype Entry = Entry(pos: Vec3, category: string)

  type Ledger = seq<Entry>

  /** Closed exclusion rectangle (x_min, x_max, z_min, z_max). */
  datatype Rect = Rect(xMin: real, xMax: real, zMin: real, zMax: real)

  /** Attempts allowed per requested position. */
  const AttemptsPerPosition: int := 20

  /**
   * Minimum spacing of a category: the fixed overrides, or the calling
   * generation's own base spacing for any other category.
   */
  function TypeSpacing(category: string, minSpacing: real): real {
    if category == "rock" then 8.0
    else if category == "cactus1" then 6.0
    else if category == "bark" then 6.0
    else if category == "grass" then 2.0
    else minSpacing
  }

  /** Spacing demanded between a new point of `newType` and a ledger entry of `oldType`. */
  function Required(newType: string, oldType: string, minSpacing: real): real {
    Max(TypeSpacing(newType, minSpacing), TypeSpacing(oldType, minSpacing))
  }

  predicate InRect(r: Rect, x: real, z: real) {
    r.xMin <= x <= r.xMax && r.zMin <= z <= r.zMax
  }

  function Uniform(lo: real, hi: real, u: real): real {
    lo + (hi - lo) * u
  }

  /** A draw u in [0, 1] lands in [lo, hi]. */
  lemma UniformWithin(lo: real, hi: real, u: real)
    requires lo <= hi && 0.0 <= u <= 1.0
    ensures lo <= Uniform(lo, hi, u) <= hi
  {
    var w := hi - lo;
    assert w * u >= 0.0;
    assert w * (1.0 - u) >= 0.0;
  }

  /** p is at horizontal distance at least s from q (not rejected by `distance < s`). */
  predicate SpacedFrom(p: Vec3, q: Vec3, s: real) {
    !Within(HorizDistSq(p, q), s)
  }

  /** The same-call check: p keeps `minSpacing` from every point of this call. */
  predicate ClearOfCall(p: Vec3, ps: seq<Vec3>, minSpacing: real) {
    forall i :: 0 <= i < |ps| ==> SpacedFrom(p, ps[i], minSpacing)
  }

  /** The ledger check: p keeps the category-pair spacing from every ledger entry. */
  predicate ClearOfLedger(p: Vec3, ledger: Ledger, objType: string, minSpacing: real) {
    forall i :: 0 <= i < |ledger| ==> SpacedFrom(p, ledger[i].pos, Required(objType, ledger[i].category, minSpacing))
  }

  /** Entries from index `from` on were each checked against all entries before them. */
  predicate SpacedAfter(ledger: Ledger, from: nat, objType: string, minSpacing: real) {
    forall j, i :: from <= j < |ledger| && 0 <= i < j ==>
      SpacedFrom(ledger[j].pos, ledger[i].pos, Required(objType, ledger[i].category, minSpacing))
  }

  function Tag(ps: seq<Vec3>, category: string): (l: Ledger)
    ensures |l| == |ps|
    ensures forall i :: 0 <= i < |ps| ==> l[i] == Entry(ps[i], category)
  {
    seq(|ps|, i requires 0 <= i < |ps| => Entry(ps[i], category))
  }

  /** The candidate of attempt a. */
  function Candidate(samples: seq<(real, real)>, a: nat, lo: real, hi: real, heightOffset: real): Vec3
    requires a < |samples|
  {
    Vec3(Uniform(lo, hi, samples[a].0), heightOffset, Uniform(lo, hi, samples[a].1))
  }

  /** p is the candidate of one of the first `attempts` draws. */
  predicate DrawnFrom(p: Vec3, samples: seq<(real, real)>, attempts: nat, lo: real, hi: real, heightOffset: real)
    requires attempts <= |samples|
  {
    exists a :: 0 <= a < attempts && p == Candidate(samples, a, lo, hi, heightOffset)
  }

  predicate UnitDraws(samples: seq<(real, real)>) {
    forall a :: 0 <= a < |samples| ==> 0.0 <= samples[a].0 <= 1.0 && 0.0 <= samples[a].1 <= 1.0
  }

  function Budget(count: int): nat {
    if count <= 0 then 0 else AttemptsPerPosition * count
  }

  /** The parameters of one generation call. */
  datatype Call = Call(count: int, lo: real, hi: real, minSpacing: real, heightOffset: real,
                       exclude: Option<Rect>, objType: string)

  predicate Excluded(call: Call, pos: Vec3) {
    call.exclude.Some? && InRect(call.exclude.value, pos.x, pos.z)
  }

  /**
   * The acceptance test of a candidate: outside the exclusion rectangle,
   * clear of this call's points `ps` and of the ledger as it stands, which
   * is `ledger` followed by `ps`.
   */
  predicate Accepts(call: Call, ledger: Ledger, ps: seq<Vec3>, pos: Vec3) {
    !Excluded(call, pos) && ClearOfCall(pos, ps, call.minSpacing)
    && ClearOfLedger(pos, ledger + Tag(ps, call.objType), call.objType, call.minSpacing)
  }

  /**
   * The attempt loop from attempt `a` on, with `ps` accepted so far: it stops
   * once `count` points are accepted or the budget is spent, and otherwise
   * keeps the candidate of attempt `a` exactly when it passes `Accepts`.
   * Returns the accepted points and the attempts used.
   */
  function Run(call: Call, ledger: Ledger, samples: seq<(real, real)>, a: nat, ps: seq<Vec3>): (r: (seq<Vec3>, nat))
    requires |samples| >= Budget(call.count) && a <= Budget(call.count)
    ensures |r.0| >= |ps| && r.0[..|ps|] == ps && a <= r.1 <= Budget(call.count)
    decreases Budget(call.count) - a
  {
    if |ps| >= call.count || a >= Budget(call.count) then (ps, a)
    else
      var pos := Candidate(samples, a, call.lo, call.hi, call.heightOffset);
      var ps' := if Accepts(call, ledger, ps, pos) then ps + [pos] else ps;
      var r := Run(call, ledger, samples, a + 1, ps');
      assert r.0[..|ps|] == r.0[..|ps'|][..|ps|];
      r
  }

  /** One attempt of the loop: the candidate of attempt `a` is kept exactly when it passes `Accepts`. */
  lemma RunStep(call: Call, ledger: Ledger, samples: seq<(real, real)>, a: nat, ps: seq<Vec3>)
    requires |samples| >= Budget(call.count) && a < Budget(call.count) && |ps| < call.count
    ensures var pos := Candidate(samples, a, call.lo, call.hi, call.heightOffset);
            Run(call, ledger, samples, a, ps)
            == Run(call, ledger, samples, a + 1, if Accepts(call, ledger, ps, pos) then ps + [pos] else ps)
  {
  }

  /** An accepted candidate is appended and the run goes on from the next attempt. */
  lemma RunTake(call: Call, ledger: Ledger, samples: seq<(real, real)>, a: nat, ps: seq<Vec3>)
    requires |samples| >= Budget(call.count) && a < Budget(call.count) && |ps| < call.count
    requires Accepts(call, ledger, ps, Candidate(samples, a, call.lo, call.hi, call.heightOffset))
    ensures Run(call, ledger, samples, a, ps)
            == Run(call, ledger, samples, a + 1, ps + [Candidate(samples, a, call.lo, call.hi, call.heightOffset)])
  {
    RunStep(call, ledger, samples, a, ps);
  }

  /** A rejected candidate only spends an attempt. */
  lemma RunSkip(call: Call, ledger: Ledger, samples: seq<(real, real)>, a: nat, ps: seq<Vec3>)
    requires |samples| >= Budget(call.count) && a < Budget(call.count) && |ps| < call.count
    requires !Accepts(call, ledger, ps, Candidate(samples, a, call.lo, call.hi, call.heightOffset))
    ensures Run(call, ledger, samples, a, ps) == Run(call, ledger, samples, a + 1, ps)
  {
    RunStep(call, ledger, samples, a, ps);
  }

  /** The loop stops with what it has once enough points are accepted or the budget is spent. */
  lemma RunStops(call: Call, ledger: Ledger, samples: seq<(real, real)>, a: nat, ps: seq<Vec3>)
    requires |samples| >= Budget(call.count) && a <= Budget(call.count) && (|ps| >= call.count || a >= Budget(call.count))
    ensures Run(call, ledger, samples, a, ps) == (ps, a)
  {
  }

  /**
   * A candidate that is still wanted and passes the acceptance test is
   * accepted: it follows the points accepted before it in the result.
   */
  lemma ClearCandidateAccepted(call: Call, ledger: Ledger, samples: seq<(real, real)>, a: nat, ps: seq<Vec3>)
    requires |samples| >= Budget(call.count) && a < Budget(call.count) && |ps| < call.count
    requires Accepts(call, ledger, ps, Candidate(samples, a, call.lo, call.hi, call.heightOffset))
    ensures var r := Run(call, ledger, samples, a, ps);
            |r.0| > |ps| && r.0[..|ps| + 1] == ps + [Candidate(samples, a, call.lo, call.hi, call.heightOffset)]
  {
    var pos := Candidate(samples, a, call.lo, call.hi, call.heightOffset);
    RunStep(call, ledger, samples, a, ps);
    var r := Run(call, ledger, samples, a + 1, ps + [pos]);
    assert |(ps + [pos])| == |ps| + 1;
  }

  /** A candidate that fails the acceptance test is not taken: the loop goes on as if it was never drawn. */
  lemma RejectedCandidateDropped(call: Call, ledger: Ledger, samples: seq<(real, real)>, a: nat, ps: seq<Vec3>)
    requires |samples| >= Budget(call.count) && a < Budget(call.count) && |ps| < call.count
    requires !Accepts(call, ledger, ps, Candidate(samples, a, call.lo, call.hi, call.heightOffset))
    ensures Run(call, ledger, samples, a, ps) == Run(call, ledger, samples, a + 1, ps)
  {
    RunStep(call, ledger, samples, a, ps);
  }

  /**
   * A call that wants at least one point accepts its first draw when that
   * draw is outside the exclusion rectangle and clear of the ledger.
   */
  lemma FirstClearDrawAccepted(call: Call, ledger: Ledger, samples: seq<(real, real)>)
    requires |samples| >= Budget(call.count) && call.count > 0
    requires var pos := Candidate(samples, 0, call.lo, call.hi, call.heightOffset);
             !Excluded(call, pos) && ClearOfLedger(pos, ledger, call.objType, call.minSpacing)
    ensures var r := Run(call, ledger, samples, 0, []);
            |r.0| > 0 && r.0[0] == Candidate(samples, 0, call.lo, call.hi, call.heightOffset)
  {
    assert ledger + Tag([], call.objType) == ledger;
    ClearCandidateAccepted(call, ledger, samples, 0, []);
    var r := Run(call, ledger, samples, 0, []);
    assert r.0[0] == r.0[..1][0];
  }

  // The properties below hold of every run that starts from points having
  // them; each is proved by induction over the remaining attempts.

  lemma {:induction false} RunCounts(call: Call, ledger: Ledger, samples: seq<(real, real)>, a: nat, ps: seq<Vec3>)
    requires |samples| >= Budget(call.count) && a <= Budget(call.count)
    requires |ps| <= a && (call.count > 0 ==> |ps| <= call.count)
    ensures var r := Run(call, ledger, samples, a, ps);
            |r.0| <= r.1 && (call.count > 0 ==> |r.0| <= call.count) && (|r.0| < call.count ==> r.1 == Budget(call.count))
    decreases Budget(call.count) - a
  {
    if |ps| < call.count && a < Budget(call.count) {
      var pos := Candidate(samples, a, call.lo, call.hi, call.heightOffset);
      RunStep(call, ledger, samples, a, ps);
      RunCounts(call, ledger, samples, a + 1, if Accepts(call, ledger, ps, pos) then ps + [pos] else ps);
    }
  }

  lemma {:induction false} RunHeights(call: Call, ledger: Ledger, samples: seq<(real, real)>, a: nat, ps: seq<Vec3>)
    requires |samples| >= Budget(call.count) && a <= Budget(call.count)
    requires forall k :: 0 <= k < |ps| ==> ps[k].y == call.heightOffset
    ensures var r := Run(call, ledger, samples, a, ps);
            forall k :: 0 <= k < |r.0| ==> r.0[k].y == call.heightOffset
    decreases Budget(call.count) - a
  {
    if |ps| < call.count && a < Budget(call.count) {
      var pos := Candidate(samples, a, call.lo, call.hi, call.heightOffset);
      RunStep(call, ledger, samples, a, ps);
      RunHeights(call, ledger, samples, a + 1, if Accepts(call, ledger, ps, pos) then ps + [pos] else ps);
    }
  }

  lemma {:induction false} RunDrawn(call: Call, ledger: Ledger, samples: seq<(real, real)>, a: nat, ps: seq<Vec3>)
    requires |samples| >= Budget(call.count) && a <= Budget(call.count)
    requires forall k :: 0 <= k < |ps| ==> DrawnFrom(ps[k], samples, a, call.lo, call.hi, call.heightOffset)
    ensures var r := Run(call, ledger, samples, a, ps);
            forall k :: 0 <= k < |r.0| ==> DrawnFrom(r.0[k], samples, r.1, call.lo, call.hi, call.heightOffset)
    decreases Budget(call.count) - a
  {
    if |ps| < call.count && a < Budget(call.count) {
      var pos := Candidate(samples, a, call.lo, call.hi, call.heightOffset);
      var ps' := if Accepts(call, ledger, ps, pos) then ps + [pos] else ps;
      DrawnLater(samples, a, call.lo, call.hi, call.heightOffset, ps);
      if ps' != ps {
        DrawnSnoc(samples, a, call.lo, call.hi, call.heightOffset, ps);
      }
      RunStep(call, ledger, samples, a, ps);
      RunDrawn(call, ledger, samples, a + 1, ps');
    }
  }

  /** A point drawn within the first `a` attempts is drawn within the first `a + 1`. */
  lemma DrawnLater(samples: seq<(real, real)>, a: nat, lo: real, hi: real, heightOffset: real, ps: seq<Vec3>)
    requires a < |samples|
    requires forall k :: 0 <= k < |ps| ==> DrawnFrom(ps[k], samples, a, lo, hi, heightOffset)
    ensures forall k :: 0 <= k < |ps| ==> DrawnFrom(ps[k], samples, a + 1, lo, hi, heightOffset)
  {
    forall k | 0 <= k < |ps|
      ensures DrawnFrom(ps[k], samples, a + 1, lo, hi, heightOffset)
    {
      assert DrawnFrom(ps[k], samples, a, lo, hi, heightOffset);
      var d :| 0 <= d < a && ps[k] == Candidate(samples, d, lo, hi, heightOffset);
    }
  }

  /** Appending the candidate of attempt `a` keeps every point drawn within the first `a + 1` attempts. */
  lemma DrawnSnoc(samples: seq<(real, real)>, a: nat, lo: real, hi: real, heightOffset: real, ps: seq<Vec3>)
    requires a < |samples|
    requires forall k :: 0 <= k < |ps| ==> DrawnFrom(ps[k], samples, a + 1, lo, hi, heightOffset)
    ensures var ps' := ps + [Candidate(samples, a, lo, hi, heightOffset)];
            forall k :: 0 <= k < |ps'| ==> DrawnFrom(ps'[k], samples, a + 1, lo, hi, heightOffset)
  {
    var ps' := ps + [Candidate(samples, a, lo, hi, heightOffset)];
    forall k | 0 <= k < |ps'|
      ensures DrawnFrom(ps'[k], samples, a + 1, lo, hi, heightOffset)
    {
      if k < |ps| {
        assert ps'[k] == ps[k];
      } else {
        assert ps'[k] == Candidate(samples, a, lo, hi, heightOffset);
      }
    }
  }

  lemma {:induction false} RunOutside(call: Call, ledger: Ledger, samples: seq<(real, real)>, a: nat, ps: seq<Vec3>)
    requires |samples| >= Budget(call.count) && a <= Budget(call.count)
    requires forall k :: 0 <= k < |ps| ==> !Excluded(call, ps[k])
    ensures var r := Run(call, ledger, samples, a, ps);
            forall k :: 0 <= k < |r.0| ==> !Excluded(call, r.0[k])
    decreases Budget(call.count) - a
  {
    if |ps| < call.count && a < Budget(call.count) {
      var pos := Candidate(samples, a, call.lo, call.hi, call.heightOffset);
      RunStep(call, ledger, samples, a, ps);
      RunOutside(call, ledger, samples, a + 1, if Accepts(call, ledger, ps, pos) then ps + [pos] else ps);
    }
  }

  lemma {:induction false} RunCallSpaced(call: Call, ledger: Ledger, samples: seq<(real, real)>, a: nat, ps: seq<Vec3>)
    requires |samples| >= Budget(call.count) && a <= Budget(call.count)
    requires forall k, i :: 0 <= i < k < |ps| ==> SpacedFrom(ps[k], ps[i], call.minSpacing)
    ensures var r := Run(call, ledger, samples, a, ps);
            forall k, i :: 0 <= i < k < |r.0| ==> SpacedFrom(r.0[k], r.0[i], call.minSpacing)
    decreases Budget(call.count) - a
  {
    if |ps| < call.count && a < Budget(call.count) {
      var pos := Candidate(samples, a, call.lo, call.hi, call.heightOffset);
      RunStep(call, ledger, samples, a, ps);
      RunCallSpaced(call, ledger, samples, a + 1, if Accepts(call, ledger, ps, pos) then ps + [pos] else ps);
    }
  }

  lemma {:induction false} RunLedgerSpaced(call: Call, ledger: Ledger, samples: seq<(real, real)>, a: nat, ps: seq<Vec3>)
    requires |samples| >= Budget(call.count) && a <= Budget(call.count)
    requires SpacedAfter(ledger + Tag(ps, call.objType), |ledger|, call.objType, call.minSpacing)
    ensures var r := Run(call, ledger, samples, a, ps);
            SpacedAfter(ledger + Tag(r.0, call.objType), |ledger|, call.objType, call.minSpacing)
    decreases Budget(call.count) - a
  {
    if |ps| < call.count && a < Budget(call.count) {
      var pos := Candidate(samples, a, call.lo, call.hi, call.heightOffset);
      RunStep(call, ledger, samples, a, ps);
      if Accepts(call, ledger, ps, pos) {
        AcceptKeepsSpaced(ledger, ps, pos, call.objType, call.minSpacing);
        RunLedgerSpaced(call, ledger, samples, a + 1, ps + [pos]);
      } else {
        RunLedgerSpaced(call, ledger, samples, a + 1, ps);
      }
    }
  }

  lemma {:induction false} RunWithin(call: Call, ledger: Ledger, samples: seq<(real, real)>, a: nat, ps: seq<Vec3>)
    requires |samples| >= Budget(call.count) && a <= Budget(call.count)
    requires UnitDraws(samples) && call.lo <= call.hi
    requires forall k :: 0 <= k < |ps| ==> call.lo <= ps[k].x <= call.hi && call.lo <= ps[k].z <= call.hi
    ensures var r := Run(call, ledger, samples, a, ps);
            forall k :: 0 <= k < |r.0| ==> call.lo <= r.0[k].x <= call.hi && call.lo <= r.0[k].z <= call.hi
    decreases Budget(call.count) - a
  {
    if |ps| < call.count && a < Budget(call.count) {
      var pos := Candidate(samples, a, call.lo, call.hi, call.heightOffset);
      UniformWithin(call.lo, call.hi, samples[a].0);
      UniformWithin(call.lo, call.hi, samples[a].1);
      RunStep(call, ledger, samples, a, ps);
      RunWithin(call, ledger, samples, a + 1, if Accepts(call, ledger, ps, pos) then ps + [pos] else ps);
    }
  }

  /**
   * One generation call. Returns the accepted positions, the extended ledger
   * and the number of attempts (random draws) used.
   */
  method Generate(count: int, lo: real, hi: real, minSpacing: real, heightOffset: real,
                  exclude: Option<Rect>, objType: string, ledger: Ledger, samples: seq<(real, real)>)
    returns (positions: seq<Vec3>, ledger': Ledger, attempts: nat)
    requires |samples| >= Budget(count)
    ensures (positions, attempts) == Run(Call(count, lo, hi, minSpacing, heightOffset, exclude, objType), ledger, samples, 0, [])
    ensures |positions| <= attempts <= Budget(count)
    ensures count <= 0 ==> positions == []
    ensures count > 0 ==> |positions| <= count
    ensures |positions| < count ==> attempts == Budget(count)
    ensures forall k :: 0 <= k < |positions| ==> positions[k].y == heightOffset
    ensures forall k :: 0 <= k < |positions| ==> DrawnFrom(positions[k], samples, attempts, lo, hi, heightOffset)
    ensures exclude.Some? ==> forall k :: 0 <= k < |positions| ==> !InRect(exclude.value, positions[k].x, positions[k].z)
    ensures forall k, i :: 0 <= i < k < |positions| ==> SpacedFrom(positions[k], positions[i], minSpacing)
    ensures ledger' == ledger + Tag(positions, objType)
    ensures SpacedAfter(ledger', |ledger|, objType, minSpacing)
    ensures UnitDraws(samples) && lo <= hi ==>
              forall k :: 0 <= k < |positions| ==> lo <= positions[k].x <= hi && lo <= positions[k].z <= hi
  {
    positions, ledger', attempts := Attempts(count, lo, hi, minSpacing, heightOffset, exclude, objType, ledger, samples);
    RunFacts(Call(count, lo, hi, minSpacing, heightOffset, exclude, objType), ledger, samples);
  }

  /**
   * The attempt loop of one generation call: it computes exactly `Run` and
   * appends the accepted points, tagged, to the ledger.
   */
  method Attempts(count: int, lo: real, hi: real, minSpacing: real, heightOffset: real,
                  exclude: Option<Rect>, objType: string, ledger: Ledger, samples: seq<(real, real)>)
    returns (positions: seq<Vec3>, ledger': Ledger, attempts: nat)
    requires |samples| >= Budget(count)
    ensures (positions, attempts) == Run(Call(count, lo, hi, minSpacing, heightOffset, exclude, objType), ledger, samples, 0, [])
    ensures ledger' == ledger + Tag(positions, objType)
  {
    var call := Call(count, lo, hi, minSpacing, heightOffset, exclude, objType);
    var maxAttempts := count * AttemptsPerPosition;
    positions, ledger', attempts := [], ledger, 0;
    assert ledger' == ledger + Tag(positions, objType);
    while |positions| < count && attempts < maxAttempts
      invariant attempts <= Budget(count)
      invariant Run(call, ledger, samples, attempts, positions) == Run(call, ledger, samples, 0, [])
      invariant ledger' == ledger + Tag(positions, objType)
      decreases maxAttempts - attempts
    {
      positions, ledger' := Attempt(call, ledger, samples, attempts, positions, ledger');
      attempts := attempts + 1;
    }
    RunStops(call, ledger, samples, attempts, positions);
  }

  /**
   * One pass of the attempt loop: draw candidate `a`, skip it inside the
   * exclusion rectangle, otherwise keep it when it is clear of this call's
   * points and of the ledger, which then records it.
   */
  method Attempt(call: Call, ledger: Ledger, samples: seq<(real, real)>, a: nat,
                 positions: seq<Vec3>, current: Ledger)
    returns (positions': seq<Vec3>, current': Ledger)
    requires |samples| >= Budget(call.count) && a < Budget(call.count) && |positions| < call.count
    requires current == ledger + Tag(positions, call.objType)
    ensures Run(call, ledger, samples, a, positions) == Run(call, ledger, samples, a + 1, positions')
    ensures current' == ledger + Tag(positions', call.objType)
  {
    var pos := Candidate(samples, a, call.lo, call.hi, call.heightOffset);
    positions', current' := positions, current;
    if call.exclude.Some? && InRect(call.exclude.value, pos.x, pos.z) {
      RunSkip(call, ledger, samples, a, positions);
      return;
    }
    if ClearOfCall(pos, positions, call.minSpacing) && ClearOfLedger(pos, current, call.objType, call.minSpacing) {
      RunTake(call, ledger, samples, a, positions);
      TagSnoc(positions, pos, call.objType);
      positions' := positions + [pos];
      current' := current + [Entry(pos, call.objType)];
    } else {
      RunSkip(call, ledger, samples, a, positions);
    }
  }

  /** What a whole run guarantees, from no points at attempt 0. */
  lemma RunFacts(call: Call, ledger: Ledger, samples: seq<(real, real)>)
    requires |samples| >= Budget(call.count)
    ensures var (ps, n) := Run(call, ledger, samples, 0, []);
            && |ps| <= n
            && (call.count <= 0 ==> ps == [])
            && (call.count > 0 ==> |ps| <= call.count)
            && (|ps| < call.count ==> n == Budget(call.count))
            && (forall k :: 0 <= k < |ps| ==> ps[k].y == call.heightOffset)
            && (forall k :: 0 <= k < |ps| ==> DrawnFrom(ps[k], samples, n, call.lo, call.hi, call.heightOffset))
            && (call.exclude.Some? ==> forall k :: 0 <= k < |ps| ==> !InRect(call.exclude.value, ps[k].x, ps[k].z))
            && (forall k, i :: 0 <= i < k < |ps| ==> SpacedFrom(ps[k], ps[i], call.minSpacing))
            && SpacedAfter(ledger + Tag(ps, call.objType), |ledger|, call.objType, call.minSpacing)
            && (UnitDraws(samples) && call.lo <= call.hi ==>
                  forall k :: 0 <= k < |ps| ==> call.lo <= ps[k].x <= call.hi && call.lo <= ps[k].z <= call.hi)
  {
    assert ledger + Tag([], call.objType) == ledger;
    RunCounts(call, ledger, samples, 0, []);
    RunHeights(call, ledger, samples, 0, []);
    RunDrawn(call, ledger, samples, 0, []);
    RunOutside(call, ledger, samples, 0, []);
    RunCallSpaced(call, ledger, samples, 0, []);
    RunLedgerSpaced(call, ledger, samples, 0, []);
    if UnitDraws(samples) && call.lo <= call.hi {
      RunWithin(call, ledger, samples, 0, []);
    }
  }

  /** Tagging one more point appends one entry. */
  lemma TagSnoc(ps: seq<Vec3>, p: Vec3, category: string)
    ensures Tag(ps, category) + [Entry(p, category)] == Tag(ps + [p], category)
  {
    assert Tag(ps, category) + [Entry(p, category)] == Tag(ps + [p], category);
  }

  /**
   * Accepting a point that cleared the ledger extends the call's tagged block
   * by one entry and keeps the ledger spaced from `from` on.
   */
  lemma AcceptKeepsSpaced(ledger: Ledger, positions: seq<Vec3>, pos: Vec3, objType: string, minSpacing: real)
    requires SpacedAfter(ledger + Tag(positions, objType), |ledger|, objType, minSpacing)
    requires ClearOfLedger(pos, ledger + Tag(positions, objType), objType, minSpacing)
    ensures ledger + Tag(positions, objType) + [Entry(pos, objType)] == ledger + Tag(positions + [pos], objType)
    ensures SpacedAfter(ledger + Tag(positions + [pos], objType), |ledger|, objType, minSpacing)
  {
    TagSnoc(positions, pos, objType);
  }

  /** Extending a ledger keeps every spacing fact about its earlier entries. */
  lemma SpacedAfterPrefix(l: Ledger, extra: Ledger, from: nat, objType: string, minSpacing: real)
    requires from <= |l| && SpacedAfter(l, from, objType, minSpacing)
    ensures forall j, i :: from <= j < |l| && 0 <= i < j ==>
              SpacedFrom((l + extra)[j].pos, (l + extra)[i].pos, Required(objType, (l + extra)[i].category, minSpacing))
  {
  }

  /**
   * Two points of one call keep the larger of the call's base spacing and
   * its category's spacing: the base from the same-call check, the category
   * spacing because the earlier point is already in the ledger.
   */
  lemma CallSpacedByMax(ledger: Ledger, positions: seq<Vec3>, objType: string, minSpacing: real)
    requires SpacedAfter(ledger + Tag(positions, objType), |ledger|, objType, minSpacing)
    requires forall k, i :: 0 <= i < k < |positions| ==> SpacedFrom(positions[k], positions[i], minSpacing)
    ensures forall k, i :: 0 <= i < k < |positions| ==>
              SpacedFrom(positions[k], positions[i], Max(minSpacing, TypeSpacing(objType, minSpacing)))
  {
    var l := ledger + Tag(positions, objType);
    forall k, i | 0 <= i < k < |positions|
      ensures SpacedFrom(positions[k], positions[i], Max(minSpacing, TypeSpacing(objType, minSpacing)))
    {
      assert l[|ledger| + k] == Entry(positions[k], objType);
      assert l[|ledger| + i] == Entry(positions[i], objType);
      assert SpacedFrom(positions[k], positions[i], Required(objType, objType, minSpacing));
    }
  }
}
