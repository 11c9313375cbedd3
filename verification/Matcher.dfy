/** Object identity matching between two captures of a level (`src/identity/Matcher.cpp`). */
module Matcher {
  import opened Prelude
  import opened LevelModel
  import opened SortedIds

  const TYPE_KEY := "1"
  const X_KEY := "2"
  const Y_KEY := "3"
  const ROTATION_KEY := "6"
  const GROUPS_KEY := "57"

  const THRESHOLD := 32.0

  /** `strtod` with its fallbacks, as a function of a non-empty field text; no rounding is modelled. */
  type Coord = string -> real

  function ParseOr(coord: Coord, f: FieldMap, k: string): real {
    if k !in f || f[k] == "" then 0.0 else coord(f[k])
  }

  /** `std::lround`: to the nearest integer, halves away from zero. */
  function Round(x: real): int {
    if x >= 0.0 then (x + 0.5).Floor else -((0.5 - x).Floor)
  }

  datatype Fingerprint = Fingerprint(kind: string, rx: int, ry: int, rot: string, groups: string)

  datatype Cell = Cell(kind: string, cx: int, cy: int)

  function FingerprintOf(coord: Coord, f: FieldMap): Fingerprint {
    Fingerprint(Get(f, TYPE_KEY), Round(ParseOr(coord, f, X_KEY)), Round(ParseOr(coord, f, Y_KEY)),
                Get(f, ROTATION_KEY), Get(f, GROUPS_KEY))
  }

  function CellOf(coord: Coord, f: FieldMap): Cell {
    Cell(Get(f, TYPE_KEY), (ParseOr(coord, f, X_KEY) / THRESHOLD).Floor, (ParseOr(coord, f, Y_KEY) / THRESHOLD).Floor)
  }

  function Distance2(coord: Coord, a: FieldMap, b: FieldMap): real {
    var dx := ParseOr(coord, a, X_KEY) - ParseOr(coord, b, X_KEY);
    var dy := ParseOr(coord, a, Y_KEY) - ParseOr(coord, b, Y_KEY);
    dx * dx + dy * dy
  }

  // ---------------------------------------------------------------- what the matcher should pick

  datatype Kind = ByFingerprint | BySpace | Fresh

  datatype Pick = Pick(uuid: Uuid, kind: Kind)

  ghost predicate SameFingerprint(coord: Coord, prev: ObjectMap, f: FieldMap, u: Uuid) {
    u in prev && FingerprintOf(coord, prev[u].fields) == FingerprintOf(coord, f)
  }

  /** Same type and less than the threshold away. */
  ghost predicate Near(coord: Coord, prev: ObjectMap, f: FieldMap, u: Uuid) {
    u in prev && Get(prev[u].fields, TYPE_KEY) == Get(f, TYPE_KEY) &&
    Distance2(coord, prev[u].fields, f) < THRESHOLD * THRESHOLD
  }

  /** A full scan: the nearest unclaimed object of the type within the threshold, or 0 if there is none. */
  ghost predicate NearestOrNone(coord: Coord, prev: ObjectMap, claimed: set<Uuid>, f: FieldMap, best: Uuid) {
    if best == 0 then forall u :: u in prev && u !in claimed ==> !Near(coord, prev, f, u)
    else best !in claimed && Near(coord, prev, f, best) &&
         forall u :: u in prev && u !in claimed && Near(coord, prev, f, u) ==>
           Distance2(coord, prev[best].fields, f) <= Distance2(coord, prev[u].fields, f)
  }

  /**
   * The least unclaimed uuid of the same fingerprint; failing that the nearest unclaimed object of the type within
   * the threshold; failing that a fresh id.
   */
  ghost predicate GoodPick(coord: Coord, prev: ObjectMap, claimed: set<Uuid>, f: FieldMap, p: Pick) {
    match p.kind
    case ByFingerprint =>
      && p.uuid !in claimed && SameFingerprint(coord, prev, f, p.uuid)
      && (forall u :: u in prev && u !in claimed && SameFingerprint(coord, prev, f, u) ==> p.uuid <= u)
    case BySpace =>
      && p.uuid != 0 && NearestOrNone(coord, prev, claimed, f, p.uuid)
      && (forall u :: u in prev && u !in claimed ==> !SameFingerprint(coord, prev, f, u))
    case Fresh =>
      && p.uuid !in prev && NearestOrNone(coord, prev, claimed, f, 0)
      && (forall u :: u in prev && u !in claimed ==> !SameFingerprint(coord, prev, f, u))
  }

  // ---------------------------------------------------------------- buckets and grid

  type Buckets = map<Fingerprint, seq<Uuid>>

  type Grid = map<Cell, seq<Uuid>>

  function BucketAt(b: Buckets, fp: Fingerprint): seq<Uuid> {
    if fp in b then b[fp] else []
  }

  function CellAt(g: Grid, c: Cell): seq<Uuid> {
    if c in g then g[c] else []
  }

  /** A bucket is ascending, holds only ids of its fingerprint, and every unclaimed one of them. */
  ghost predicate BucketOk(coord: Coord, prev: ObjectMap, claimed: set<Uuid>, b: Buckets, fp: Fingerprint) {
    && Ascending(BucketAt(b, fp))
    && (forall u :: u in BucketAt(b, fp) ==> u in prev && FingerprintOf(coord, prev[u].fields) == fp)
    && (forall u :: u in prev && u !in claimed && FingerprintOf(coord, prev[u].fields) == fp ==> u in BucketAt(b, fp))
  }

  ghost predicate BucketsOk(coord: Coord, prev: ObjectMap, claimed: set<Uuid>, b: Buckets) {
    forall fp :: BucketOk(coord, prev, claimed, b, fp)
  }

  ghost predicate CellOk(coord: Coord, prev: ObjectMap, g: Grid, c: Cell) {
    forall u :: u in CellAt(g, c) <==> u in prev && CellOf(coord, prev[u].fields) == c
  }

  ghost predicate GridOk(coord: Coord, prev: ObjectMap, g: Grid) {
    forall c :: CellOk(coord, prev, g, c)
  }

  /** What holds of one bucket, and of one cell, while the index is being filled from the ids `seen`. */
  ghost predicate BucketFilled(coord: Coord, prev: ObjectMap, seen: seq<Uuid>, b: Buckets, fp: Fingerprint) {
    && Ascending(BucketAt(b, fp))
    && (forall u :: u in BucketAt(b, fp) <==> u in seen && u in prev && FingerprintOf(coord, prev[u].fields) == fp)
  }

  ghost predicate CellFilled(coord: Coord, prev: ObjectMap, seen: seq<Uuid>, g: Grid, c: Cell) {
    forall u :: u in CellAt(g, c) <==> u in seen && u in prev && CellOf(coord, prev[u].fields) == c
  }

  lemma PushBucket(coord: Coord, prev: ObjectMap, seen: seq<Uuid>, b: Buckets, u: Uuid, fp: Fingerprint)
    requires u in prev && (forall v :: v in seen ==> v < u) && BucketFilled(coord, prev, seen, b, fp)
    ensures var fu := FingerprintOf(coord, prev[u].fields);
            BucketFilled(coord, prev, seen + [u], b[fu := BucketAt(b, fu) + [u]], fp)
  {
    var fu := FingerprintOf(coord, prev[u].fields);
    if fp == fu {
      forall i | 0 <= i < |BucketAt(b, fp)| ensures BucketAt(b, fp)[i] < u {
        assert BucketAt(b, fp)[i] in BucketAt(b, fp);
      }
    }
  }

  lemma PushCell(coord: Coord, prev: ObjectMap, seen: seq<Uuid>, g: Grid, u: Uuid, c: Cell)
    requires u in prev && CellFilled(coord, prev, seen, g, c)
    ensures var cu := CellOf(coord, prev[u].fields);
            CellFilled(coord, prev, seen + [u], g[cu := CellAt(g, cu) + [u]], c)
  {
  }

  method BuildIndex(coord: Coord, prev: ObjectMap) returns (b: Buckets, g: Grid)
    ensures BucketsOk(coord, prev, {}, b) && GridOk(coord, prev, g)
  {
    var order := SortIds(prev.Keys);
    b, g := map[], map[];
    for n := 0 to |order|
      invariant forall fp :: BucketFilled(coord, prev, order[..n], b, fp)
      invariant forall c :: CellFilled(coord, prev, order[..n], g, c)
    {
      var u := order[n];
      var fu, cu := FingerprintOf(coord, prev[u].fields), CellOf(coord, prev[u].fields);
      ghost var more := order[..n + 1];
      assert more == order[..n] + [u];
      EarlierSmaller(order, n);
      ghost var b2, g2 := b[fu := BucketAt(b, fu) + [u]], g[cu := CellAt(g, cu) + [u]];
      forall fp ensures BucketFilled(coord, prev, more, b2, fp) {
        PushBucket(coord, prev, order[..n], b, u, fp);
      }
      forall c ensures CellFilled(coord, prev, more, g2, c) {
        PushCell(coord, prev, order[..n], g, u, c);
      }
      b := b[fu := BucketAt(b, fu) + [u]];
      g := g[cu := CellAt(g, cu) + [u]];
    }
    IndexFilled(coord, prev, order, b, g);
  }

  lemma EarlierSmaller(order: seq<Uuid>, n: nat)
    requires Ascending(order) && n < |order|
    ensures forall v :: v in order[..n] ==> v < order[n]
  {
  }

  lemma IndexFilled(coord: Coord, prev: ObjectMap, order: seq<Uuid>, b: Buckets, g: Grid)
    requires Enumerates(order, prev.Keys)
    requires forall fp :: BucketFilled(coord, prev, order[..|order|], b, fp)
    requires forall c :: CellFilled(coord, prev, order[..|order|], g, c)
    ensures BucketsOk(coord, prev, {}, b) && GridOk(coord, prev, g)
  {
    assert order[..|order|] == order;
    forall fp ensures BucketOk(coord, prev, {}, b, fp) {
      assert BucketFilled(coord, prev, order, b, fp);
    }
    forall c ensures CellOk(coord, prev, g, c) {
      assert CellFilled(coord, prev, order, g, c);
    }
  }

  // ---------------------------------------------------------------- fingerprint buckets

  /** Pop the front until an unclaimed id comes up; 0 if none does. */
  method PopUnclaimed(bucket: seq<Uuid>, claimed: set<Uuid>) returns (matched: Uuid, rest: seq<Uuid>)
    requires Ascending(bucket)
    ensures Ascending(rest) && |rest| <= |bucket| && (forall u :: u in rest ==> u in bucket)
    ensures forall u :: u in bucket && u !in rest ==> u in claimed || u == matched
    ensures matched != 0 ==> matched in bucket && matched !in claimed
    ensures matched != 0 ==> forall u :: u in bucket && u !in claimed ==> matched <= u
    ensures matched == 0 && 0 !in bucket ==> forall u :: u in bucket ==> u in claimed
  {
    matched, rest := 0, bucket;
    while rest != []
      invariant Ascending(rest) && |rest| <= |bucket| && (forall u :: u in rest ==> u in bucket)
      invariant forall u :: u in bucket && u !in rest ==> u in claimed
      decreases |rest|
    {
      var cand := rest[0];
      ghost var whole := rest;
      rest := rest[1..];
      assert whole == [cand] + rest;
      if cand !in claimed {
        matched := cand;
        forall u | u in bucket && u !in claimed ensures matched <= u {
          assert u in whole;
        }
        break;
      }
    }
  }

  // ---------------------------------------------------------------- the 3x3 grid search

  /** Coordinates less than a cell apart lie in the same or in neighbouring cells. */
  lemma NeighbourFloors(x: real, y: real)
    requires -THRESHOLD < x - y < THRESHOLD
    ensures -1 <= (y / THRESHOLD).Floor - (x / THRESHOLD).Floor <= 1
  {
    var a, b := x / THRESHOLD, y / THRESHOLD;
    assert a - b == (x - y) / THRESHOLD;
    assert -1.0 < a - b < 1.0;
  }

  lemma SquareGrows(a: real, b: real)
    requires 0.0 <= b <= a
    ensures b * b <= a * a
  {
    assert b * b <= a * b <= a * a;
  }

  lemma SmallSquare(d: real)
    requires d * d < THRESHOLD * THRESHOLD
    ensures -THRESHOLD < d < THRESHOLD
  {
    if d >= THRESHOLD { SquareGrows(d, THRESHOLD); }
    if -d >= THRESHOLD { SquareGrows(-d, THRESHOLD); }
  }

  /** Everything near lies in the nine cells around the object's own. */
  lemma NearInNineCells(coord: Coord, prev: ObjectMap, f: FieldMap, u: Uuid)
    requires Near(coord, prev, f, u)
    ensures var c, center := CellOf(coord, prev[u].fields), CellOf(coord, f);
            c.kind == center.kind && -1 <= c.cx - center.cx <= 1 && -1 <= c.cy - center.cy <= 1
  {
    var dx := ParseOr(coord, prev[u].fields, X_KEY) - ParseOr(coord, f, X_KEY);
    var dy := ParseOr(coord, prev[u].fields, Y_KEY) - ParseOr(coord, f, Y_KEY);
    assert dx * dx >= 0.0 && dy * dy >= 0.0;
    SmallSquare(dx);
    SmallSquare(dy);
    NeighbourFloors(ParseOr(coord, prev[u].fields, X_KEY), ParseOr(coord, f, X_KEY));
    NeighbourFloors(ParseOr(coord, prev[u].fields, Y_KEY), ParseOr(coord, f, Y_KEY));
  }

  /** The best so far, against the objects in `seen`. */
  ghost predicate BestOf(coord: Coord, prev: ObjectMap, claimed: set<Uuid>, f: FieldMap, seen: set<Uuid>,
                         best: Uuid, bestD2: real)
  {
    && bestD2 <= THRESHOLD * THRESHOLD
    && (best != 0 ==> best in prev && best !in claimed && Get(prev[best].fields, TYPE_KEY) == Get(f, TYPE_KEY) &&
                      bestD2 == Distance2(coord, prev[best].fields, f) && bestD2 < THRESHOLD * THRESHOLD)
    && (best == 0 && 0 !in prev ==> bestD2 == THRESHOLD * THRESHOLD)
    && (forall u :: u in seen && u in prev && u !in claimed ==> bestD2 <= Distance2(coord, prev[u].fields, f))
  }

  method ScanCell(coord: Coord, prev: ObjectMap, claimed: set<Uuid>, f: FieldMap, cell: seq<Uuid>,
                  best0: Uuid, bestD20: real, ghost seen: set<Uuid>) returns (best: Uuid, bestD2: real)
    requires forall u :: u in cell ==> u in prev && Get(prev[u].fields, TYPE_KEY) == Get(f, TYPE_KEY)
    requires BestOf(coord, prev, claimed, f, seen, best0, bestD20)
    ensures BestOf(coord, prev, claimed, f, seen + Elements(cell), best, bestD2)
  {
    best, bestD2 := best0, bestD20;
    for n := 0 to |cell|
      invariant BestOf(coord, prev, claimed, f, seen + Elements(cell[..n]), best, bestD2)
    {
      var cand := cell[n];
      assert cell[..n + 1] == cell[..n] + [cand];
      assert Elements(cell[..n + 1]) == Elements(cell[..n]) + {cand};
      if cand in claimed { continue; }
      var d2 := Distance2(coord, prev[cand].fields, f);
      if d2 < bestD2 {
        bestD2, best := d2, cand;
      }
    }
    assert cell[..|cell|] == cell;
  }

  /** The ids in the row of three cells at `cx`, and in all nine cells. */
  ghost function ThreeCells(g: Grid, center: Cell, dx: int): set<Uuid> {
    Elements(CellAt(g, Cell(center.kind, center.cx + dx, center.cy - 1))) +
    Elements(CellAt(g, Cell(center.kind, center.cx + dx, center.cy))) +
    Elements(CellAt(g, Cell(center.kind, center.cx + dx, center.cy + 1)))
  }

  ghost function NineCells(g: Grid, center: Cell): set<Uuid> {
    ThreeCells(g, center, -1) + ThreeCells(g, center, 0) + ThreeCells(g, center, 1)
  }

  method ScanThree(coord: Coord, prev: ObjectMap, g: Grid, claimed: set<Uuid>, f: FieldMap, center: Cell, dx: int,
                   best0: Uuid, bestD20: real, ghost seen: set<Uuid>) returns (best: Uuid, bestD2: real)
    requires GridOk(coord, prev, g) && center.kind == Get(f, TYPE_KEY)
    requires BestOf(coord, prev, claimed, f, seen, best0, bestD20)
    ensures BestOf(coord, prev, claimed, f, seen + ThreeCells(g, center, dx), best, bestD2)
  {
    best, bestD2 := best0, bestD20;
    ghost var now := seen;
    for dy := -1 to 2
      invariant BestOf(coord, prev, claimed, f, now, best, bestD2)
      invariant now == seen +
                       (if dy > -1 then Elements(CellAt(g, Cell(center.kind, center.cx + dx, center.cy - 1))) else {}) +
                       (if dy > 0 then Elements(CellAt(g, Cell(center.kind, center.cx + dx, center.cy))) else {}) +
                       (if dy > 1 then Elements(CellAt(g, Cell(center.kind, center.cx + dx, center.cy + 1))) else {})
    {
      var probe := Cell(center.kind, center.cx + dx, center.cy + dy);
      assert CellOk(coord, prev, g, probe);
      best, bestD2 := ScanCell(coord, prev, claimed, f, CellAt(g, probe), best, bestD2, now);
      now := now + Elements(CellAt(g, probe));
    }
    assert now == seen + ThreeCells(g, center, dx);
  }

  /** The 3x3 search picks what a full scan would. */
  method SearchGrid(coord: Coord, prev: ObjectMap, g: Grid, claimed: set<Uuid>, f: FieldMap) returns (best: Uuid)
    requires GridOk(coord, prev, g)
    ensures best != 0 ==> best in prev && best !in claimed
    ensures 0 !in prev ==> NearestOrNone(coord, prev, claimed, f, best)
  {
    var center := CellOf(coord, f);
    best := 0;
    var bestD2 := THRESHOLD * THRESHOLD;
    ghost var seen: set<Uuid> := {};
    for dx := -1 to 2
      invariant BestOf(coord, prev, claimed, f, seen, best, bestD2)
      invariant seen == (if dx > -1 then ThreeCells(g, center, -1) else {}) +
                        (if dx > 0 then ThreeCells(g, center, 0) else {}) +
                        (if dx > 1 then ThreeCells(g, center, 1) else {})
    {
      best, bestD2 := ScanThree(coord, prev, g, claimed, f, center, dx, best, bestD2, seen);
      seen := seen + ThreeCells(g, center, dx);
    }
    assert seen == NineCells(g, center);
    if 0 !in prev {
      GridIsFullScan(coord, prev, g, claimed, f, best, bestD2);
    }
  }

  lemma NearIsScanned(coord: Coord, prev: ObjectMap, g: Grid, f: FieldMap, u: Uuid)
    requires GridOk(coord, prev, g) && Near(coord, prev, f, u)
    ensures u in NineCells(g, CellOf(coord, f))
  {
    var c, center := CellOf(coord, prev[u].fields), CellOf(coord, f);
    NearInNineCells(coord, prev, f, u);
    assert CellOk(coord, prev, g, c);
    assert u in Elements(CellAt(g, c));
    var dx := c.cx - center.cx;
    assert c == Cell(center.kind, center.cx + dx, c.cy);
    assert u in ThreeCells(g, center, dx) by {
      assert c.cy == center.cy - 1 || c.cy == center.cy || c.cy == center.cy + 1;
    }
    assert dx == -1 || dx == 0 || dx == 1;
  }

  /** Being the best of the nine cells is being the best of all objects. */
  lemma GridIsFullScan(coord: Coord, prev: ObjectMap, g: Grid, claimed: set<Uuid>, f: FieldMap, best: Uuid,
                       bestD2: real)
    requires GridOk(coord, prev, g) && 0 !in prev
    requires BestOf(coord, prev, claimed, f, NineCells(g, CellOf(coord, f)), best, bestD2)
    ensures NearestOrNone(coord, prev, claimed, f, best)
  {
    forall u | u in prev && u !in claimed && Near(coord, prev, f, u)
      ensures bestD2 <= Distance2(coord, prev[u].fields, f)
    {
      NearIsScanned(coord, prev, g, f, u);
    }
  }

  // ---------------------------------------------------------------- assigning ids

  datatype AssignUuidStats = AssignUuidStats(fingerprintHits: nat, spatialFallbacks: nat, freshUuids: nat)

  function CountKind(picks: seq<Pick>, kind: Kind): nat {
    if picks == [] then 0
    else CountKind(picks[..|picks| - 1], kind) + if picks[|picks| - 1].kind == kind then 1 else 0
  }

  function StatsOf(picks: seq<Pick>): AssignUuidStats {
    AssignUuidStats(CountKind(picks, ByFingerprint), CountKind(picks, BySpace), CountKind(picks, Fresh))
  }

  lemma {:induction false} StatsSum(picks: seq<Pick>)
    ensures var s := StatsOf(picks); s.fingerprintHits + s.spatialFallbacks + s.freshUuids == |picks|
  {
    if picks != [] {
      StatsSum(picks[..|picks| - 1]);
    }
  }

  /** The ids handed out by `picks`. */
  ghost function Claimed(picks: seq<Pick>): set<Uuid> {
    if picks == [] then {} else Claimed(picks[..|picks| - 1]) + {picks[|picks| - 1].uuid}
  }

  lemma {:induction false} ClaimedHas(picks: seq<Pick>, i: nat)
    requires i < |picks|
    ensures picks[i].uuid in Claimed(picks)
  {
    if i < |picks| - 1 {
      ClaimedHas(picks[..|picks| - 1], i);
    }
  }

  lemma {:induction false} ClaimedBy(picks: seq<Pick>, u: Uuid) returns (i: nat)
    requires u in Claimed(picks)
    ensures i < |picks| && picks[i].uuid == u
  {
    if picks[|picks| - 1].uuid == u {
      i := |picks| - 1;
    } else {
      i := ClaimedBy(picks[..|picks| - 1], u);
    }
  }

  ghost predicate PicksDistinct(picks: seq<Pick>) {
    forall i, j :: 0 <= i < j < |picks| ==> picks[i].uuid != picks[j].uuid
  }

  ghost predicate MovedTo(incoming: ObjectMap, u: Uuid, result: ObjectMap, v: Uuid) {
    u in incoming && v in result && result[v].fields == incoming[u].fields
  }

  /** The first `|picks|` objects of `order` have moved to the ids of `picks`, with their fields unaltered. */
  ghost predicate Placed(incoming: ObjectMap, order: seq<Uuid>, picks: seq<Pick>, rebuilt: ObjectMap)
    requires |picks| <= |order|
  {
    && PicksDistinct(picks) && rebuilt.Keys == Claimed(picks)
    && forall i :: 0 <= i < |picks| ==> MovedTo(incoming, order[i], rebuilt, picks[i].uuid)
  }

  /** `order` lists the incoming objects once each; the i-th one moves to `picks[i].uuid`. */
  ghost predicate Relabelled(incoming: ObjectMap, order: seq<Uuid>, picks: seq<Pick>, result: ObjectMap) {
    |picks| == |order| && Distinct(order) && Elements(order) == incoming.Keys && Placed(incoming, order, picks, result)
  }

  /** Every pick is the right one, given the ids claimed before it. */
  ghost predicate GoodPickAt(coord: Coord, prev: ObjectMap, incoming: ObjectMap, order: seq<Uuid>, picks: seq<Pick>,
                             i: nat)
    requires i < |picks| && i < |order|
  {
    order[i] in incoming && GoodPick(coord, prev, Claimed(picks[..i]), incoming[order[i]].fields, picks[i])
  }

  ghost predicate GoodPicks(coord: Coord, prev: ObjectMap, incoming: ObjectMap, order: seq<Uuid>, picks: seq<Pick>)
    requires |picks| <= |order|
  {
    forall i :: 0 <= i < |picks| ==> GoodPickAt(coord, prev, incoming, order, picks, i)
  }

  /** Successive draws of the random generator: never 0, never repeated, never an id already in use. */
  ghost predicate FreshDraws(draws: seq<Uuid>, prev: ObjectMap, n: nat) {
    n <= |draws| && Distinct(draws) && 0 !in draws && forall u :: u in draws ==> u !in prev
  }

  /** What is left when one bucket gives up its ids up to `u`. */
  lemma ClaimKeepsBuckets(coord: Coord, prev: ObjectMap, claimed: set<Uuid>, b: Buckets, fp: Fingerprint,
                          rest: seq<Uuid>, u: Uuid)
    requires BucketsOk(coord, prev, claimed, b) && Ascending(rest) && (forall v :: v in rest ==> v in BucketAt(b, fp))
    requires forall v :: v in BucketAt(b, fp) && v !in rest ==> v in claimed + {u}
    ensures BucketsOk(coord, prev, claimed + {u}, b[fp := rest])
  {
    var b' := b[fp := rest];
    forall q ensures BucketOk(coord, prev, claimed + {u}, b', q) {
      assert BucketOk(coord, prev, claimed, b, q);
    }
  }

  /** What a step keeps of the buckets without looking into them: they stay ascending and hold known ids. */
  ghost predicate BucketsSane(coord: Coord, prev: ObjectMap, b: Buckets) {
    forall fp :: Ascending(BucketAt(b, fp)) &&
                 forall u :: u in BucketAt(b, fp) ==> u in prev && FingerprintOf(coord, prev[u].fields) == fp
  }

  lemma SameBuckets(coord: Coord, prev: ObjectMap, claimed: set<Uuid>, b: Buckets, b': Buckets)
    requires BucketsOk(coord, prev, claimed, b) && forall q :: BucketAt(b', q) == BucketAt(b, q)
    ensures BucketsOk(coord, prev, claimed, b')
  {
    forall q ensures BucketOk(coord, prev, claimed, b', q) {
      assert BucketOk(coord, prev, claimed, b, q);
    }
  }

  /** One turn of the matching loop. */
  method MatchOne(coord: Coord, prev: ObjectMap, b: Buckets, g: Grid, claimed: set<Uuid>, f: FieldMap, draw: Uuid)
    returns (pick: Pick, b': Buckets)
    requires BucketsSane(coord, prev, b) && GridOk(coord, prev, g)
    requires 0 !in prev ==> BucketsOk(coord, prev, claimed, b)
    requires draw !in claimed && draw !in prev && draw != 0
    ensures BucketsSane(coord, prev, b')
    ensures pick.uuid !in claimed && (pick.uuid in prev || pick.uuid == draw)
    ensures pick.uuid == draw <==> pick.kind == Fresh
    ensures 0 !in prev ==> GoodPick(coord, prev, claimed, f, pick)
    ensures 0 !in prev ==> BucketsOk(coord, prev, claimed + {pick.uuid}, b')
  {
    var fp := FingerprintOf(coord, f);
    var matched, rest := PopUnclaimed(BucketAt(b, fp), claimed);
    b' := if fp in b then b[fp := rest] else b;
    forall q ensures BucketAt(b', q) == if q == fp then rest else BucketAt(b, q) {
    }
    if matched != 0 {
      pick := Pick(matched, ByFingerprint);
      if 0 !in prev {
        assert BucketOk(coord, prev, claimed, b, fp);
        ClaimKeepsBuckets(coord, prev, claimed, b, fp, rest, matched);
        SameBuckets(coord, prev, claimed + {matched}, b[fp := rest], b');
      }
      return;
    }
    if 0 !in prev {
      assert BucketOk(coord, prev, claimed, b, fp);
      assert forall u :: u in prev && u !in claimed ==> !SameFingerprint(coord, prev, f, u);
    }
    var best := SearchGrid(coord, prev, g, claimed, f);
    pick := if best != 0 then Pick(best, BySpace) else Pick(draw, Fresh);
    if 0 !in prev {
      ClaimKeepsBuckets(coord, prev, claimed, b, fp, rest, pick.uuid);
      SameBuckets(coord, prev, claimed + {pick.uuid}, b[fp := rest], b');
    }
  }

  lemma PushPick(picks: seq<Pick>, p: Pick)
    ensures Claimed(picks + [p]) == Claimed(picks) + {p.uuid}
    ensures StatsOf(picks + [p]) == Count(StatsOf(picks), p.kind)
  {
    assert (picks + [p])[..|picks|] == picks;
  }

  function Count(stats: AssignUuidStats, kind: Kind): AssignUuidStats {
    match kind
    case ByFingerprint => stats.(fingerprintHits := stats.fingerprintHits + 1)
    case BySpace => stats.(spatialFallbacks := stats.spatialFallbacks + 1)
    case Fresh => stats.(freshUuids := stats.freshUuids + 1)
  }

  /** `rebuilt.emplace`: the object under its new id. */
  function Emplace(rebuilt: ObjectMap, u: Uuid, f: FieldMap): ObjectMap {
    rebuilt[u := Object(u, f)]
  }

  lemma PlaceNext(incoming: ObjectMap, order: seq<Uuid>, picks: seq<Pick>, rebuilt: ObjectMap, p: Pick)
    requires |picks| < |order| && order[|picks|] in incoming
    requires Placed(incoming, order, picks, rebuilt) && p.uuid !in Claimed(picks)
    ensures Placed(incoming, order, picks + [p], Emplace(rebuilt, p.uuid, incoming[order[|picks|]].fields))
  {
    PushPick(picks, p);
    var after := Emplace(rebuilt, p.uuid, incoming[order[|picks|]].fields);
    assert after.Keys == rebuilt.Keys + {p.uuid};
    forall i | 0 <= i < |picks| ensures picks[i].uuid != p.uuid {
      ClaimedHas(picks, i);
    }
    forall i | 0 <= i <= |picks| ensures MovedTo(incoming, order[i], after, (picks + [p])[i].uuid) {
      if i < |picks| {
        assert MovedTo(incoming, order[i], rebuilt, picks[i].uuid);
      }
    }
  }

  lemma GoodNext(coord: Coord, prev: ObjectMap, incoming: ObjectMap, order: seq<Uuid>, picks: seq<Pick>, p: Pick)
    requires |picks| < |order| && order[|picks|] in incoming && GoodPicks(coord, prev, incoming, order, picks)
    requires GoodPick(coord, prev, Claimed(picks), incoming[order[|picks|]].fields, p)
    ensures GoodPicks(coord, prev, incoming, order, picks + [p])
  {
    var longer := picks + [p];
    forall i | 0 <= i < |longer| ensures GoodPickAt(coord, prev, incoming, order, longer, i) {
      if i < |picks| {
        assert longer[..i] == picks[..i];
        assert GoodPickAt(coord, prev, incoming, order, picks, i);
      } else {
        assert longer[..i] == picks;
      }
    }
  }

  ghost predicate AllDrawn(picks: seq<Pick>, draws: seq<Uuid>) {
    |picks| <= |draws| && forall i :: 0 <= i < |picks| ==> picks[i] == Pick(draws[i], Fresh)
  }

  /** The objects not in `todo` have moved to the first draws. */
  ghost predicate FreshSoFar(incoming: ObjectMap, todo: set<Uuid>, draws: seq<Uuid>, order: seq<Uuid>, picks: seq<Pick>,
                             rebuilt: ObjectMap)
  {
    && |picks| == |order| && Distinct(order) && Elements(order) == incoming.Keys - todo
    && Placed(incoming, order, picks, rebuilt) && AllDrawn(picks, draws)
  }

  lemma FreshStep(incoming: ObjectMap, todo: set<Uuid>, draws: seq<Uuid>, order: seq<Uuid>, picks: seq<Pick>,
                  rebuilt: ObjectMap, u: Uuid)
    requires FreshSoFar(incoming, todo, draws, order, picks, rebuilt) && u in todo && u in incoming
    requires |picks| < |draws| && Distinct(draws)
    ensures var draw := draws[|picks|];
            FreshSoFar(incoming, todo - {u}, draws, order + [u], picks + [Pick(draw, Fresh)],
                       Emplace(rebuilt, draw, incoming[u].fields))
  {
    var draw := draws[|picks|];
    NotDrawnYet(draws, picks);
    DistinctPush(order, u);
    assert Placed(incoming, order + [u], picks, rebuilt);
    PlaceNext(incoming, order + [u], picks, rebuilt, Pick(draw, Fresh));
    assert incoming.Keys - (todo - {u}) == incoming.Keys - todo + {u};
  }

  /** A fresh id for every object, in whatever order the hash map yields them. */
  method AssignFreshUuids(incoming: LevelState, draws: seq<Uuid>)
    returns (result: LevelState, ghost order: seq<Uuid>, ghost picks: seq<Pick>)
    requires FreshDraws(draws, map[], |incoming.objects|)
    ensures result.rawHeader == incoming.rawHeader && result.header == incoming.header
    ensures |picks| == |incoming.objects| && Relabelled(incoming.objects, order, picks, result.objects)
    ensures AllDrawn(picks, draws)
  {
    var rebuilt: ObjectMap := map[];
    var todo := incoming.objects.Keys;
    var n := 0;
    order, picks := [], [];
    while todo != {}
      invariant todo <= incoming.objects.Keys && n == |picks| && n + |todo| == |incoming.objects|
      invariant FreshSoFar(incoming.objects, todo, draws, order, picks, rebuilt)
      decreases todo
    {
      ghost var _ := SomeElement(todo);
      var u :| u in todo;
      var draw := draws[n];
      FreshStep(incoming.objects, todo, draws, order, picks, rebuilt, u);
      todo := todo - {u};
      rebuilt := Emplace(rebuilt, draw, incoming.objects[u].fields);
      order, picks := order + [u], picks + [Pick(draw, Fresh)];
      n := n + 1;
    }
    result := incoming.(objects := rebuilt);
  }

  lemma DistinctPush(s: seq<Uuid>, u: Uuid)
    requires Distinct(s) && u !in Elements(s)
    ensures Distinct(s + [u]) && Elements(s + [u]) == Elements(s) + {u}
  {
  }

  lemma NotDrawnYet(draws: seq<Uuid>, picks: seq<Pick>)
    requires Distinct(draws) && |picks| < |draws| && AllDrawn(picks, draws)
    ensures draws[|picks|] !in Claimed(picks)
    ensures AllDrawn(picks + [Pick(draws[|picks|], Fresh)], draws)
  {
    if draws[|picks|] in Claimed(picks) {
      var i := ClaimedBy(picks, draws[|picks|]);
      assert false;
    }
  }

  /** What `assignUuids` promises; `picks[i]` is the id given to the `i`-th incoming object in placeholder order. */
  ghost predicate Assigned(coord: Coord, prev: ObjectMap, incoming: LevelState, result: LevelState,
                           order: seq<Uuid>, picks: seq<Pick>, stats: AssignUuidStats)
  {
    && result.rawHeader == incoming.rawHeader && result.header == incoming.header
    && Relabelled(incoming.objects, order, picks, result.objects)
    && (prev != map[] ==> Ascending(order))
    && (0 !in prev ==> GoodPicks(coord, prev, incoming.objects, order, picks))
    && stats == StatsOf(picks)
  }

  lemma {:induction false} AllFresh(picks: seq<Pick>)
    requires forall i :: 0 <= i < |picks| ==> picks[i].kind == Fresh
    ensures StatsOf(picks) == AssignUuidStats(0, 0, |picks|)
  {
    if picks != [] {
      AllFresh(picks[..|picks| - 1]);
    }
  }

  /** With nothing to match against, fresh ids are the right picks. */
  lemma FreshIsGood(coord: Coord, incoming: ObjectMap, order: seq<Uuid>, picks: seq<Pick>)
    requires |picks| == |order| && Elements(order) == incoming.Keys
    requires forall i :: 0 <= i < |picks| ==> picks[i].kind == Fresh
    ensures GoodPicks(coord, map[], incoming, order, picks)
  {
    forall i | 0 <= i < |picks| ensures GoodPickAt(coord, map[], incoming, order, picks, i) {
      var u: Uuid := order[i];
      assert u in Elements(order);
    }
  }

  /** Every claimed id is a previous one or one of the first `drawn` draws. */
  ghost predicate ClaimedKnown(prev: ObjectMap, claimed: set<Uuid>, draws: seq<Uuid>, drawn: nat)
    requires drawn <= |draws|
  {
    forall u :: u in claimed ==> u in prev || u in draws[..drawn]
  }

  lemma DrawIsNew(prev: ObjectMap, claimed: set<Uuid>, draws: seq<Uuid>, drawn: nat)
    requires drawn < |draws| && FreshDraws(draws, prev, 0) && ClaimedKnown(prev, claimed, draws, drawn)
    ensures draws[drawn] !in claimed && draws[drawn] !in prev && draws[drawn] != 0
  {
    var u: Uuid := draws[drawn];
    assert u in draws;
    assert u !in draws[..drawn];
  }

  method AssignUuids(coord: Coord, prev: ObjectMap, incoming: LevelState, draws: seq<Uuid>)
    returns (result: LevelState, stats: AssignUuidStats, ghost order: seq<Uuid>, ghost picks: seq<Pick>)
    requires FreshDraws(draws, prev, |incoming.objects|)
    ensures Assigned(coord, prev, incoming, result, order, picks, stats)
    ensures stats.fingerprintHits + stats.spatialFallbacks + stats.freshUuids == |incoming.objects|
  {
    stats := AssignUuidStats(0, 0, 0);
    if prev == map[] {
      result, order, picks := AssignFreshUuids(incoming, draws);
      stats := stats.(freshUuids := |incoming.objects|);
      AllFresh(picks);
      FreshIsGood(coord, incoming.objects, order, picks);
      return;
    }
    var b, g := BuildIndex(coord, prev);
    var claimed: set<Uuid> := {};
    var rebuilt: ObjectMap := map[];
    var ordered := SortIds(incoming.objects.Keys);
    AscendingLength(ordered, incoming.objects.Keys);
    order, picks := ordered, [];
    IndexSane(coord, prev, b);
    for n := 0 to |ordered|
      invariant |picks| == n && claimed == Claimed(picks) && Placed(incoming.objects, ordered, picks, rebuilt)
      invariant BucketsSane(coord, prev, b) && (0 !in prev ==> BucketsOk(coord, prev, claimed, b))
      invariant stats == StatsOf(picks) && stats.freshUuids <= n && ClaimedKnown(prev, claimed, draws, stats.freshUuids)
      invariant 0 !in prev ==> GoodPicks(coord, prev, incoming.objects, ordered, picks)
    {
      var placeholder: Uuid := ordered[n];
      assert placeholder in ordered;
      var obj := incoming.objects[placeholder];
      var draw := draws[stats.freshUuids];
      DrawIsNew(prev, claimed, draws, stats.freshUuids);
      var pick;
      pick, b := MatchOne(coord, prev, b, g, claimed, obj.fields, draw);
      PushPick(picks, pick);
      PlaceNext(incoming.objects, ordered, picks, rebuilt, pick);
      if 0 !in prev {
        GoodNext(coord, prev, incoming.objects, ordered, picks, pick);
      }
      ClaimKnown(prev, claimed, draws, stats.freshUuids, pick);
      stats := Count(stats, pick.kind);
      claimed := claimed + {pick.uuid};
      rebuilt := Emplace(rebuilt, pick.uuid, obj.fields);
      picks := picks + [pick];
    }
    StatsSum(picks);
    result := incoming.(objects := rebuilt);
  }

  lemma ClaimKnown(prev: ObjectMap, claimed: set<Uuid>, draws: seq<Uuid>, drawn: nat, pick: Pick)
    requires drawn < |draws| && ClaimedKnown(prev, claimed, draws, drawn)
    requires pick.uuid in prev || pick.uuid == draws[drawn]
    requires pick.uuid == draws[drawn] <==> pick.kind == Fresh
    ensures var more := if pick.kind == Fresh then drawn + 1 else drawn;
            ClaimedKnown(prev, claimed + {pick.uuid}, draws, more)
  {
    assert draws[..drawn + 1] == draws[..drawn] + [draws[drawn]];
  }

  lemma IndexSane(coord: Coord, prev: ObjectMap, b: Buckets)
    requires BucketsOk(coord, prev, {}, b)
    ensures BucketsSane(coord, prev, b)
  {
    forall fp ensures Ascending(BucketAt(b, fp)) &&
                 forall u :: u in BucketAt(b, fp) ==> u in prev && FingerprintOf(coord, prev[u].fields) == fp {
      assert BucketOk(coord, prev, {}, b, fp);
    }
  }

  // ---------------------------------------------------------------- recapturing a level

  ghost predicate SameAt(prev: ObjectMap, u: Uuid, incoming: ObjectMap, v: Uuid) {
    u in prev && v in incoming && incoming[v].fields == prev[u].fields
  }

  /** `prev` holds the incoming field maps one for one: the one listed at place `i` of `order` under the id `ids[i]`. */
  ghost predicate PairsUp(prev: ObjectMap, ids: seq<Uuid>, incoming: ObjectMap, order: seq<Uuid>) {
    && |ids| == |order| && Distinct(ids) && Elements(ids) == prev.Keys && Distinct(order) &&
      Elements(order) == incoming.Keys
    && forall i :: 0 <= i < |order| ==> SameAt(prev, ids[i], incoming, order[i])
  }

  ghost predicate InClass(coord: Coord, objs: ObjectMap, fp: Fingerprint, u: Uuid) {
    u in objs && FingerprintOf(coord, objs[u].fields) == fp
  }

  /** The ids of one fingerprint, ascending. */
  ghost function ClassIds(coord: Coord, objs: ObjectMap, fp: Fingerprint): seq<Uuid> {
    InOrder(set u | u in objs && InClass(coord, objs, fp, u))
  }

  /** The places of `order` that hold an object of the fingerprint. */
  ghost function Places(coord: Coord, objs: ObjectMap, order: seq<Uuid>, fp: Fingerprint): (p: seq<nat>)
    ensures forall k :: 0 <= k < |p| ==> p[k] < |order| && InClass(coord, objs, fp, order[p[k]])
  {
    if order == [] then []
    else
      var front, last := order[..|order| - 1], order[|order| - 1];
      Places(coord, objs, front, fp) + if InClass(coord, objs, fp, last) then [|order| - 1] else []
  }

  lemma PlacesMore(coord: Coord, objs: ObjectMap, order: seq<Uuid>, n: nat, fp: Fingerprint)
    requires n < |order|
    ensures Places(coord, objs, order[..n + 1], fp) ==
            Places(coord, objs, order[..n], fp) + if InClass(coord, objs, fp, order[n]) then [n] else []
  {
    assert order[..n + 1][..n] == order[..n];
  }

  lemma {:induction false} PlacesGrow(coord: Coord, objs: ObjectMap, order: seq<Uuid>, n: nat, fp: Fingerprint)
    requires n <= |order|
    ensures Places(coord, objs, order[..n], fp) <= Places(coord, objs, order, fp)
    decreases |order| - n
  {
    if n < |order| {
      PlacesMore(coord, objs, order, n, fp);
      PlacesGrow(coord, objs, order, n + 1, fp);
    } else {
      assert order[..n] == order;
    }
  }

  lemma {:induction false} PlaceListed(coord: Coord, objs: ObjectMap, order: seq<Uuid>, fp: Fingerprint, i: nat)
    returns (k: nat)
    requires i < |order| && InClass(coord, objs, fp, order[i])
    ensures k < |Places(coord, objs, order, fp)| && Places(coord, objs, order, fp)[k] == i
  {
    var front := order[..|order| - 1];
    if i == |order| - 1 {
      k := |Places(coord, objs, front, fp)|;
    } else {
      k := PlaceListed(coord, objs, front, fp, i);
    }
  }

  lemma {:induction false} PlacesAscend(coord: Coord, objs: ObjectMap, order: seq<Uuid>, fp: Fingerprint, j: nat,
                                        k: nat)
    requires j < k < |Places(coord, objs, order, fp)|
    ensures Places(coord, objs, order, fp)[j] < Places(coord, objs, order, fp)[k]
  {
    var front := order[..|order| - 1];
    if k < |Places(coord, objs, front, fp)| {
      PlacesAscend(coord, objs, front, fp, j, k);
    }
  }

  lemma {:induction false} PlacesMatch(coord: Coord, prev: ObjectMap, ids: seq<Uuid>, incoming: ObjectMap,
                                       order: seq<Uuid>, fp: Fingerprint)
    requires |ids| == |order| && forall i :: 0 <= i < |order| ==> SameAt(prev, ids[i], incoming, order[i])
    ensures Places(coord, prev, ids, fp) == Places(coord, incoming, order, fp)
  {
    if order != [] {
      var n := |order| - 1;
      assert SameAt(prev, ids[n], incoming, order[n]);
      PlacesMatch(coord, prev, ids[..n], incoming, order[..n], fp);
    }
  }

  /** The ids that `order` lists with this fingerprint. */
  ghost function ClassIn(coord: Coord, objs: ObjectMap, order: seq<Uuid>, fp: Fingerprint): set<Uuid> {
    set u | u in order && InClass(coord, objs, fp, u)
  }

  lemma {:induction false} PlacesCount(coord: Coord, objs: ObjectMap, order: seq<Uuid>, fp: Fingerprint)
    requires Distinct(order)
    ensures |Places(coord, objs, order, fp)| == |ClassIn(coord, objs, order, fp)|
  {
    if order != [] {
      var front, last := order[..|order| - 1], order[|order| - 1];
      PlacesCount(coord, objs, front, fp);
      assert order == front + [last] && last !in front;
      var was, now := ClassIn(coord, objs, front, fp), ClassIn(coord, objs, order, fp);
      if InClass(coord, objs, fp, last) {
        assert now == was + {last};
      } else {
        assert now == was;
      }
    }
  }

  /** As many places in a full listing as ids of the class. */
  lemma ListedClass(coord: Coord, objs: ObjectMap, order: seq<Uuid>, fp: Fingerprint)
    requires Distinct(order) && Elements(order) == objs.Keys
    ensures |Places(coord, objs, order, fp)| == |ClassIds(coord, objs, fp)|
  {
    PlacesCount(coord, objs, order, fp);
    var ids := set u | u in objs && InClass(coord, objs, fp, u);
    forall u: Uuid ensures u in ids <==> u in ClassIn(coord, objs, order, fp) {
      assert u in order <==> u in Elements(order);
    }
    assert ids == ClassIn(coord, objs, order, fp);
    AscendingLength(ClassIds(coord, objs, fp), ids);
  }

  lemma SameClassSize(coord: Coord, prev: ObjectMap, ids: seq<Uuid>, incoming: ObjectMap, order0: seq<Uuid>,
                      order: seq<Uuid>, fp: Fingerprint)
    requires PairsUp(prev, ids, incoming, order0) && Distinct(order) && Elements(order) == incoming.Keys
    ensures |Places(coord, incoming, order, fp)| == |ClassIds(coord, prev, fp)|
  {
    ListedClass(coord, prev, ids, fp);
    PlacesMatch(coord, prev, ids, incoming, order0, fp);
    ListedClass(coord, incoming, order0, fp);
    ListedClass(coord, incoming, order, fp);
  }

  /** Every incoming object finds an id of its fingerprint left. */
  ghost predicate ClassesFit(coord: Coord, prev: ObjectMap, incoming: ObjectMap, order: seq<Uuid>) {
    forall fp :: ClassFits(coord, prev, incoming, order, fp)
  }

  ghost predicate ClassFits(coord: Coord, prev: ObjectMap, incoming: ObjectMap, order: seq<Uuid>, fp: Fingerprint) {
    |Places(coord, incoming, order, fp)| <= |ClassIds(coord, prev, fp)|
  }

  /** The objects of one fingerprint among the first `n` have taken the least ids of that fingerprint, in order. */
  ghost predicate TakenInOrder(coord: Coord, prev: ObjectMap, incoming: ObjectMap, order: seq<Uuid>, picks: seq<Pick>,
                               n: nat, fp: Fingerprint)
    requires n <= |order| && n <= |picks|
  {
    var p, ids := Places(coord, incoming, order[..n], fp), ClassIds(coord, prev, fp);
    && |p| <= |ids|
    && (forall k :: 0 <= k < |p| ==> picks[p[k]].uuid == ids[k])
    && (forall u :: InClass(coord, prev, fp, u) ==> (u in Claimed(picks[..n]) <==> u in ids[..|p|]))
  }

  /** With the first ids of its class taken, an object takes the next one. */
  lemma NextOfClass(coord: Coord, prev: ObjectMap, claimed: set<Uuid>, f: FieldMap, p: Pick, c: nat)
    requires GoodPick(coord, prev, claimed, f, p)
    requires c < |ClassIds(coord, prev, FingerprintOf(coord, f))|
    requires forall u :: InClass(coord, prev, FingerprintOf(coord, f), u) ==>
               (u in claimed <==> u in ClassIds(coord, prev, FingerprintOf(coord, f))[..c])
    ensures p.uuid == ClassIds(coord, prev, FingerprintOf(coord, f))[c]
    ensures InClass(coord, prev, FingerprintOf(coord, f), p.uuid)
  {
    var ids := ClassIds(coord, prev, FingerprintOf(coord, f));
    var own: Uuid := ids[c];
    assert own in ids;
    AscendingPrefix(ids, c);
    assert own !in claimed && SameFingerprint(coord, prev, f, own);
    assert p.kind == ByFingerprint && p.uuid <= own;
    var picked: Uuid := p.uuid;
    assert InClass(coord, prev, FingerprintOf(coord, f), picked);
    assert picked in ids && picked !in ids[..c];
  }

  lemma ClaimOne(picks: seq<Pick>, n: nat)
    requires n < |picks|
    ensures Claimed(picks[..n + 1]) == Claimed(picks[..n]) + {picks[n].uuid}
  {
    assert picks[..n + 1][..n] == picks[..n];
  }

  lemma {:induction false} ClassTaken(coord: Coord, prev: ObjectMap, incoming: ObjectMap, order: seq<Uuid>,
                                      picks: seq<Pick>, n: nat, fp: Fingerprint)
    requires |picks| == |order| && n <= |order| && GoodPicks(coord, prev, incoming, order, picks)
    requires ClassesFit(coord, prev, incoming, order)
    ensures TakenInOrder(coord, prev, incoming, order, picks, n, fp)
    decreases n
  {
    if n > 0 {
      var i := n - 1;
      assert GoodPickAt(coord, prev, incoming, order, picks, i);
      var own := FingerprintOf(coord, incoming[order[i]].fields);
      ClassTaken(coord, prev, incoming, order, picks, i, fp);
      ClassTaken(coord, prev, incoming, order, picks, i, own);
      PlacesMore(coord, incoming, order, i, own);
      PlacesMore(coord, incoming, order, i, fp);
      PlacesGrow(coord, incoming, order, n, own);
      assert ClassFits(coord, prev, incoming, order, own);
      NextOfClass(coord, prev, Claimed(picks[..i]), incoming[order[i]].fields, picks[i],
                  |Places(coord, incoming, order[..i], own)|);
      OneMoreTaken(coord, prev, incoming, order, picks, i, fp);
    }
  }

  lemma OneMoreTaken(coord: Coord, prev: ObjectMap, incoming: ObjectMap, order: seq<Uuid>, picks: seq<Pick>, i: nat,
                     fp: Fingerprint)
    requires i < |order| && i < |picks| && order[i] in incoming &&
             TakenInOrder(coord, prev, incoming, order, picks, i, fp)
    requires InClass(coord, prev, FingerprintOf(coord, incoming[order[i]].fields), picks[i].uuid)
    requires var c := |Places(coord, incoming, order[..i], fp)|;
             FingerprintOf(coord, incoming[order[i]].fields) == fp ==>
               c < |ClassIds(coord, prev, fp)| && picks[i].uuid == ClassIds(coord, prev, fp)[c]
    ensures TakenInOrder(coord, prev, incoming, order, picks, i + 1, fp)
  {
    PlacesMore(coord, incoming, order, i, fp);
    ClaimOne(picks, i);
    if InClass(coord, incoming, fp, order[i]) {
      TakesPlace(Places(coord, incoming, order[..i], fp), ClassIds(coord, prev, fp), picks, i);
    }
  }

  /** One more place, one more id. */
  lemma TakesPlace(p: seq<nat>, ids: seq<Uuid>, picks: seq<Pick>, i: nat)
    requires |p| < |ids| && i < |picks| && picks[i].uuid == ids[|p|]
    requires forall k :: 0 <= k < |p| ==> p[k] < |picks| && picks[p[k]].uuid == ids[k]
    ensures forall k :: 0 <= k < |p + [i]| ==> (p + [i])[k] < |picks| && picks[(p + [i])[k]].uuid == ids[k]
    ensures forall u: Uuid :: u in ids[..|p| + 1] <==> u in ids[..|p|] || u == ids[|p|]
  {
    assert ids[..|p| + 1] == ids[..|p|] + [ids[|p|]];
  }

  /**
   * Recapturing the field maps of `prev`, whatever ids they had: of each fingerprint, the k-th object in text order
   * takes the k-th smallest id.
   */
  lemma KthTakesKth(coord: Coord, prev: ObjectMap, ids: seq<Uuid>, order0: seq<Uuid>, incoming: LevelState,
                    result: LevelState, order: seq<Uuid>, picks: seq<Pick>, stats: AssignUuidStats, fp: Fingerprint)
    requires Assigned(coord, prev, incoming, result, order, picks, stats) && 0 !in prev
    requires PairsUp(prev, ids, incoming.objects, order0)
    ensures var p, q := Places(coord, incoming.objects, order, fp), ClassIds(coord, prev, fp);
            |p| == |q| && forall k :: 0 <= k < |p| ==> picks[p[k]].uuid == q[k]
  {
    forall f ensures ClassFits(coord, prev, incoming.objects, order, f) {
      SameClassSize(coord, prev, ids, incoming.objects, order0, order, f);
    }
    SameClassSize(coord, prev, ids, incoming.objects, order0, order, fp);
    ClassTaken(coord, prev, incoming.objects, order, picks, |order|, fp);
    assert order[..|order|] == order;
  }

  /** The k-th object in text order of a fingerprint has the fields of the k-th smallest id. */
  ghost predicate ClassAgrees(coord: Coord, prev: ObjectMap, incoming: ObjectMap, order: seq<Uuid>, fp: Fingerprint,
                              k: nat)
  {
    var p, ids := Places(coord, incoming, order, fp), ClassIds(coord, prev, fp);
    k < |p| && k < |ids| ==> SameAt(prev, ids[k], incoming, order[p[k]])
  }

  /** Of every fingerprint, the field maps come in the same order by id as in the text. */
  ghost predicate SameClassOrder(coord: Coord, prev: ObjectMap, incoming: ObjectMap, order: seq<Uuid>) {
    forall fp, k :: ClassAgrees(coord, prev, incoming, order, fp, k)
  }

  /** The id at a place of the class, and what is stored under it. */
  lemma TakenAt(coord: Coord, prev: ObjectMap, ids: seq<Uuid>, order0: seq<Uuid>, incoming: LevelState,
                result: LevelState, order: seq<Uuid>, picks: seq<Pick>, stats: AssignUuidStats, fp: Fingerprint, k: nat)
    requires Assigned(coord, prev, incoming, result, order, picks, stats) && 0 !in prev
    requires PairsUp(prev, ids, incoming.objects, order0) && k < |ClassIds(coord, prev, fp)|
    ensures var p, u := Places(coord, incoming.objects, order, fp), ClassIds(coord, prev, fp)[k];
            k < |p| && u in prev && SameAt(result.objects, u, incoming.objects, order[p[k]])
  {
    KthTakesKth(coord, prev, ids, order0, incoming, result, order, picks, stats, fp);
    var p, q := Places(coord, incoming.objects, order, fp), ClassIds(coord, prev, fp);
    var u: Uuid := q[k];
    assert u in q;
    assert MovedTo(incoming.objects, order[p[k]], result.objects, picks[p[k]].uuid);
  }

  /** The recapture uses the same ids, all found by fingerprint. */
  lemma SameIdsAgain(coord: Coord, prev: ObjectMap, ids: seq<Uuid>, order0: seq<Uuid>, incoming: LevelState,
                     result: LevelState, order: seq<Uuid>, picks: seq<Pick>, stats: AssignUuidStats)
    requires Assigned(coord, prev, incoming, result, order, picks, stats) && 0 !in prev
    requires PairsUp(prev, ids, incoming.objects, order0)
    ensures result.objects.Keys == prev.Keys
  {
    forall u | u in prev ensures u in result.objects {
      var fp, k := ClassPlace(coord, prev, u);
      TakenAt(coord, prev, ids, order0, incoming, result, order, picks, stats, fp, k);
    }
    SameCount(prev, ids, incoming.objects, order0, result.objects, order, picks);
    SubsetLength(prev.Keys, result.objects.Keys);
  }

  lemma SameCount(prev: ObjectMap, ids: seq<Uuid>, incoming: ObjectMap, order0: seq<Uuid>, after: ObjectMap,
                  order: seq<Uuid>, picks: seq<Pick>)
    requires PairsUp(prev, ids, incoming, order0) && Relabelled(incoming, order, picks, after)
    ensures |prev.Keys| == |after.Keys|
  {
    DistinctLength(ids);
    DistinctLength(order0);
    DistinctLength(order);
    PicksCount(picks);
  }

  lemma {:induction false} PicksCount(picks: seq<Pick>)
    requires PicksDistinct(picks)
    ensures |Claimed(picks)| == |picks|
  {
    if picks != [] {
      var front := picks[..|picks| - 1];
      PicksCount(front);
      if picks[|picks| - 1].uuid in Claimed(front) {
        var i := ClaimedBy(front, picks[|picks| - 1].uuid);
      }
    }
  }

  lemma ClassPlace(coord: Coord, prev: ObjectMap, u: Uuid) returns (fp: Fingerprint, k: nat)
    requires u in prev
    ensures fp == FingerprintOf(coord, prev[u].fields)
    ensures k < |ClassIds(coord, prev, fp)| && ClassIds(coord, prev, fp)[k] == u
  {
    fp := FingerprintOf(coord, prev[u].fields);
    assert InClass(coord, prev, fp, u);
    var ids := ClassIds(coord, prev, fp);
    assert u in ids;
    k :| 0 <= k < |ids| && ids[k] == u;
  }

  /**
   * Every object gets its own id back if and only if, of every fingerprint, the field maps come in the same order by id
   * as in the text.
   */
  lemma RecaptureKeepsIdsIff(coord: Coord, prev: ObjectMap, ids: seq<Uuid>, order0: seq<Uuid>, incoming: LevelState,
                             result: LevelState, order: seq<Uuid>, picks: seq<Pick>, stats: AssignUuidStats)
    requires Assigned(coord, prev, incoming, result, order, picks, stats) && 0 !in prev
    requires PairsUp(prev, ids, incoming.objects, order0)
    ensures result.objects == prev <==> SameClassOrder(coord, prev, incoming.objects, order)
  {
    SameIdsAgain(coord, prev, ids, order0, incoming, result, order, picks, stats);
    if SameClassOrder(coord, prev, incoming.objects, order) {
      forall u | u in prev ensures result.objects[u] == prev[u] {
        var fp, k := ClassPlace(coord, prev, u);
        TakenAt(coord, prev, ids, order0, incoming, result, order, picks, stats, fp, k);
        assert ClassAgrees(coord, prev, incoming.objects, order, fp, k);
      }
      SameMaps(result.objects, prev);
    }
    if result.objects == prev {
      forall fp, k: nat ensures ClassAgrees(coord, prev, incoming.objects, order, fp, k) {
        if k < |ClassIds(coord, prev, fp)| {
          TakenAt(coord, prev, ids, order0, incoming, result, order, picks, stats, fp, k);
        }
      }
    }
  }

  lemma SameMaps(a: ObjectMap, b: ObjectMap)
    requires a.Keys == b.Keys && forall u :: u in a ==> a[u] == b[u]
    ensures a == b
  {
  }

  // ---------------------------------------------------------------- a text in the order of the ids

  /** Both maps hold the same field maps, in the same order of ids. */
  ghost predicate SameInOrder(prev: ObjectMap, prevOrder: seq<Uuid>, incoming: ObjectMap, order: seq<Uuid>) {
    && Enumerates(prevOrder, prev.Keys) && Enumerates(order, incoming.Keys) && |order| == |prevOrder|
    && forall i :: 0 <= i < |order| ==> SameAt(prev, prevOrder[i], incoming, order[i])
  }

  lemma InOrderPairsUp(prev: ObjectMap, prevOrder: seq<Uuid>, incoming: ObjectMap, order: seq<Uuid>)
    requires SameInOrder(prev, prevOrder, incoming, order)
    ensures PairsUp(prev, prevOrder, incoming, order)
  {
    AscendingLength(prevOrder, prev.Keys);
    AscendingLength(order, incoming.Keys);
  }

  /** Of a text in the order of the ids, the places of a class list its ids in order. */
  lemma ClassByPlaces(coord: Coord, prev: ObjectMap, prevOrder: seq<Uuid>, fp: Fingerprint)
    requires Enumerates(prevOrder, prev.Keys)
    ensures var p := Places(coord, prev, prevOrder, fp);
            |p| == |ClassIds(coord, prev, fp)| &&
            forall k :: 0 <= k < |p| ==> ClassIds(coord, prev, fp)[k] == prevOrder[p[k]]
  {
    var p := Places(coord, prev, prevOrder, fp);
    var s := seq(|p|, k requires 0 <= k < |p| => prevOrder[p[k]]);
    var ids := set u | u in prev && InClass(coord, prev, fp, u);
    forall j, k | 0 <= j < k < |s| ensures s[j] < s[k] {
      PlacesAscend(coord, prev, prevOrder, fp, j, k);
    }
    forall u: Uuid ensures u in s <==> u in ids {
      if u in ids {
        assert u in prevOrder;
        var i :| 0 <= i < |prevOrder| && prevOrder[i] == u;
        var k := PlaceListed(coord, prev, prevOrder, fp, i);
        assert s[k] == u;
      }
    }
    EnumerationUnique(s, ClassIds(coord, prev, fp), ids);
  }

  lemma InOrderAgrees(coord: Coord, prev: ObjectMap, prevOrder: seq<Uuid>, incoming: ObjectMap, order: seq<Uuid>)
    requires SameInOrder(prev, prevOrder, incoming, order)
    ensures SameClassOrder(coord, prev, incoming, order)
  {
    forall fp, k: nat ensures ClassAgrees(coord, prev, incoming, order, fp, k) {
      ClassByPlaces(coord, prev, prevOrder, fp);
      PlacesMatch(coord, prev, prevOrder, incoming, order, fp);
    }
  }
}
