/** What the matcher's picks mean for the field maps, and what a capture that only drops objects gives. */
module Identity {
  import opened Prelude
  import opened LevelModel
  import opened SortedIds
  import opened Differ
  import opened DifferLaws
  import opened Matcher

  // ---------------------------------------------------------------- rounding

  /** `n` is the integer nearest to `x`; halfway it is the one further from zero. */
  predicate Nearest(x: real, n: int) {
    var r := n as real;
    if n > 0 then r - 0.5 <= x < r + 0.5
    else if n == 0 then -0.5 < x < 0.5
    else r - 0.5 < x <= r + 0.5
  }

  lemma RoundIsNearest(x: real, n: int)
    ensures Round(x) == n <==> Nearest(x, n)
  {
    var up, down := (x + 0.5).Floor, (0.5 - x).Floor;
    assert up as real <= x + 0.5 < up as real + 1.0;
    assert down as real <= 0.5 - x < down as real + 1.0;
  }

  lemma NearestClose(x: real, y: real, n: int)
    requires Nearest(x, n) && Nearest(y, n)
    ensures -1.0 < x - y < 1.0
  {
  }

  // ---------------------------------------------------------------- positions

  /** The number a field holds; 0 if it is missing or empty. */
  function Number(coord: Coord, f: FieldMap, k: string): real {
    if k in f && f[k] != "" then coord(f[k]) else 0.0
  }

  /** Same type, rotation and groups. */
  predicate SameLooks(a: FieldMap, b: FieldMap) {
    Get(a, "1") == Get(b, "1") && Get(a, "6") == Get(b, "6") && Get(a, "57") == Get(b, "57")
  }

  /** Both coordinates have the same nearest integers. */
  ghost predicate SamePlace(coord: Coord, a: FieldMap, b: FieldMap) {
    exists nx: int, ny: int ::
      Nearest(Number(coord, a, "2"), nx) && Nearest(Number(coord, b, "2"), nx) &&
      Nearest(Number(coord, a, "3"), ny) && Nearest(Number(coord, b, "3"), ny)
  }

  /** Both coordinates are at most 1 apart. */
  predicate WithinOne(coord: Coord, a: FieldMap, b: FieldMap) {
    && -1.0 <= Number(coord, a, "2") - Number(coord, b, "2") <= 1.0
    && -1.0 <= Number(coord, a, "3") - Number(coord, b, "3") <= 1.0
  }

  function SquareDistance(coord: Coord, a: FieldMap, b: FieldMap): real {
    var dx, dy := Number(coord, a, "2") - Number(coord, b, "2"), Number(coord, a, "3") - Number(coord, b, "3");
    dx * dx + dy * dy
  }

  lemma FingerprintMeans(coord: Coord, a: FieldMap, b: FieldMap)
    ensures FingerprintOf(coord, a) == FingerprintOf(coord, b) <==> SameLooks(a, b) && SamePlace(coord, a, b)
  {
    var ax, ay, bx, by_ := Number(coord, a, "2"), Number(coord, a, "3"), Number(coord, b, "2"), Number(coord, b, "3");
    RoundIsNearest(ax, Round(ax));
    RoundIsNearest(ay, Round(ay));
    RoundIsNearest(bx, Round(ax));
    RoundIsNearest(by_, Round(ay));
    if nx: int, ny: int :| Nearest(ax, nx) && Nearest(bx, nx) && Nearest(ay, ny) && Nearest(by_, ny) {
      RoundIsNearest(ax, nx);
      RoundIsNearest(ay, ny);
      RoundIsNearest(bx, nx);
      RoundIsNearest(by_, ny);
    }
  }

  lemma SamePlaceClose(coord: Coord, a: FieldMap, b: FieldMap)
    requires SamePlace(coord, a, b)
    ensures -1.0 < Number(coord, a, "2") - Number(coord, b, "2") < 1.0
    ensures -1.0 < Number(coord, a, "3") - Number(coord, b, "3") < 1.0
  {
    var nx: int, ny: int :| Nearest(Number(coord, a, "2"), nx) && Nearest(Number(coord, b, "2"), nx) &&
      Nearest(Number(coord, a, "3"), ny) && Nearest(Number(coord, b, "3"), ny);
    NearestClose(Number(coord, a, "2"), Number(coord, b, "2"), nx);
    NearestClose(Number(coord, a, "3"), Number(coord, b, "3"), ny);
  }

  lemma EqualFieldsSamePlace(coord: Coord, a: FieldMap, b: FieldMap)
    requires Get(a, "2") == Get(b, "2") && Get(a, "3") == Get(b, "3")
    ensures SamePlace(coord, a, b)
  {
    var x, y := Number(coord, a, "2"), Number(coord, a, "3");
    RoundIsNearest(x, Round(x));
    RoundIsNearest(y, Round(y));
  }

  // ---------------------------------------------------------------- what each pick means

  /** An object not yet claimed that looks the same at the same place. */
  ghost predicate Twin(coord: Coord, prev: ObjectMap, claimed: set<Uuid>, f: FieldMap, u: Uuid) {
    u in prev && u !in claimed && SameLooks(prev[u].fields, f) && SamePlace(coord, prev[u].fields, f)
  }

  /** An object not yet claimed of the same type, less than 32 away. */
  ghost predicate Neighbour(coord: Coord, prev: ObjectMap, claimed: set<Uuid>, f: FieldMap, u: Uuid) {
    u in prev && u !in claimed && Get(prev[u].fields, "1") == Get(f, "1") &&
    SquareDistance(coord, prev[u].fields, f) < 1024.0
  }

  /**
   * A pick without index and fingerprint: the least id of a twin; without twins the id of a nearest neighbour; without
   * neighbours an id that is new.
   */
  ghost predicate PickMeans(coord: Coord, prev: ObjectMap, claimed: set<Uuid>, f: FieldMap, p: Pick) {
    && (p.kind == ByFingerprint ==>
          Twin(coord, prev, claimed, f, p.uuid) && forall u :: Twin(coord, prev, claimed, f, u) ==> p.uuid <= u)
    && (p.kind != ByFingerprint ==> forall u :: !Twin(coord, prev, claimed, f, u))
    && (p.kind == BySpace ==>
          Neighbour(coord, prev, claimed, f, p.uuid) && forall u :: Neighbour(coord, prev, claimed, f, u) ==>
            SquareDistance(coord, prev[p.uuid].fields, f) <= SquareDistance(coord, prev[u].fields, f))
    && (p.kind == Fresh ==> p.uuid !in prev && forall u :: !Neighbour(coord, prev, claimed, f, u))
  }

  lemma TwinIs(coord: Coord, prev: ObjectMap, claimed: set<Uuid>, f: FieldMap, u: Uuid)
    ensures Twin(coord, prev, claimed, f, u) <==> u !in claimed && SameFingerprint(coord, prev, f, u)
  {
    if u in prev {
      FingerprintMeans(coord, prev[u].fields, f);
    }
  }

  lemma NeighbourIs(coord: Coord, prev: ObjectMap, claimed: set<Uuid>, f: FieldMap, u: Uuid)
    ensures Neighbour(coord, prev, claimed, f, u) <==> u !in claimed && Near(coord, prev, f, u)
    ensures u in prev ==> Distance2(coord, prev[u].fields, f) == SquareDistance(coord, prev[u].fields, f)
  {
    assert THRESHOLD * THRESHOLD == 1024.0;
  }

  lemma GoodPickMeans(coord: Coord, prev: ObjectMap, claimed: set<Uuid>, f: FieldMap, p: Pick)
    requires GoodPick(coord, prev, claimed, f, p)
    ensures PickMeans(coord, prev, claimed, f, p)
  {
    forall u
      ensures Twin(coord, prev, claimed, f, u) <==> u !in claimed && SameFingerprint(coord, prev, f, u)
      ensures Neighbour(coord, prev, claimed, f, u) <==> u !in claimed && Near(coord, prev, f, u)
      ensures u in prev ==> Distance2(coord, prev[u].fields, f) == SquareDistance(coord, prev[u].fields, f)
    {
      TwinIs(coord, prev, claimed, f, u);
      NeighbourIs(coord, prev, claimed, f, u);
    }
  }

  /** Every pick of a capture, in terms of the objects still unclaimed before it. */
  lemma PicksMean(coord: Coord, prev: ObjectMap, incoming: LevelState, result: LevelState, order: seq<Uuid>,
                  picks: seq<Pick>, stats: AssignUuidStats, i: nat)
    requires Assigned(coord, prev, incoming, result, order, picks, stats) && 0 !in prev && i < |picks|
    ensures order[i] in incoming.objects
    ensures PickMeans(coord, prev, Claimed(picks[..i]), incoming.objects[order[i]].fields, picks[i])
  {
    assert GoodPickAt(coord, prev, incoming.objects, order, picks, i);
    GoodPickMeans(coord, prev, Claimed(picks[..i]), incoming.objects[order[i]].fields, picks[i]);
  }

  /** A pick by fingerprint has the previous object's looks, and is less than 1 away in each coordinate. */
  lemma FingerprintPickClose(coord: Coord, prev: ObjectMap, claimed: set<Uuid>, f: FieldMap, p: Pick)
    requires PickMeans(coord, prev, claimed, f, p) && p.kind == ByFingerprint
    ensures p.uuid in prev && SameLooks(prev[p.uuid].fields, f) && WithinOne(coord, prev[p.uuid].fields, f)
  {
    SamePlaceClose(coord, prev[p.uuid].fields, f);
  }

  /** An unclaimed object with the same type, position, rotation and groups forces a pick by fingerprint. */
  lemma EqualFieldsPick(coord: Coord, prev: ObjectMap, claimed: set<Uuid>, f: FieldMap, p: Pick, u: Uuid)
    requires PickMeans(coord, prev, claimed, f, p) && u in prev && u !in claimed && SameLooks(prev[u].fields, f)
    requires Get(prev[u].fields, "2") == Get(f, "2") && Get(prev[u].fields, "3") == Get(f, "3")
    ensures p.kind == ByFingerprint && p.uuid <= u
  {
    EqualFieldsSamePlace(coord, prev[u].fields, f);
    assert Twin(coord, prev, claimed, f, u);
  }

  // ---------------------------------------------------------------- the statistics

  ghost function PicksOf(picks: seq<Pick>, kind: Kind): set<nat> {
    set i: nat | i < |picks| && picks[i].kind == kind
  }

  lemma {:induction false} CountIs(picks: seq<Pick>, kind: Kind)
    ensures CountKind(picks, kind) == |PicksOf(picks, kind)|
  {
    if picks != [] {
      var last, front := |picks| - 1, picks[..|picks| - 1];
      CountIs(front, kind);
      if picks[last].kind == kind {
        assert PicksOf(picks, kind) == PicksOf(front, kind) + {last};
      } else {
        assert PicksOf(picks, kind) == PicksOf(front, kind);
      }
    }
  }

  /** The three statistics count the picks of their kind. */
  lemma StatsMean(picks: seq<Pick>)
    ensures StatsOf(picks).fingerprintHits == |PicksOf(picks, ByFingerprint)|
    ensures StatsOf(picks).spatialFallbacks == |PicksOf(picks, BySpace)|
    ensures StatsOf(picks).freshUuids == |PicksOf(picks, Fresh)|
  {
    CountIs(picks, ByFingerprint);
    CountIs(picks, BySpace);
    CountIs(picks, Fresh);
  }

  // ---------------------------------------------------------------- a capture that only drops objects

  /** No two objects look the same within 1 of each other. */
  ghost predicate Separate(coord: Coord, prev: ObjectMap) {
    forall u, v :: u in prev && v in prev && u != v ==>
      !(SameLooks(prev[u].fields, prev[v].fields) && WithinOne(coord, prev[u].fields, prev[v].fields))
  }

  /** Every incoming object is a previous one, unaltered: the one with the id `from` gives, each at most once. */
  ghost predicate OnlyDrops(prev: ObjectMap, incoming: ObjectMap, from: map<Uuid, Uuid>) {
    && from.Keys == incoming.Keys
    && (forall p, q :: p in from && q in from && p != q ==> from[p] != from[q])
    && (forall p :: p in from ==> SameAt(prev, from[p], incoming, p))
  }

  /** The `i`-th object keeps its id. */
  ghost predicate KeptAt(order: seq<Uuid>, picks: seq<Pick>, from: map<Uuid, Uuid>, i: nat) {
    i < |order| && i < |picks| && order[i] in from && picks[i] == Pick(from[order[i]], ByFingerprint)
  }

  lemma ClaimedFrom(order: seq<Uuid>, picks: seq<Pick>, from: map<Uuid, Uuid>, n: nat)
    requires n < |order| == |picks| && Distinct(order) && order[n] in from
    requires forall p, q :: p in from && q in from && p != q ==> from[p] != from[q]
    requires forall i :: 0 <= i < n ==> KeptAt(order, picks, from, i)
    ensures from[order[n]] !in Claimed(picks[..n])
  {
    forall v | v in Claimed(picks[..n]) ensures v != from[order[n]] {
      var j := ClaimedBy(picks[..n], v);
      assert KeptAt(order, picks, from, j) && order[j] != order[n];
    }
  }

  lemma DropKeepsNext(coord: Coord, prev: ObjectMap, incoming: LevelState, result: LevelState, order: seq<Uuid>,
                      picks: seq<Pick>, stats: AssignUuidStats, from: map<Uuid, Uuid>, k: nat)
    requires Assigned(coord, prev, incoming, result, order, picks, stats) && 0 !in prev && Separate(coord, prev)
    requires OnlyDrops(prev, incoming.objects, from) && k < |picks|
    requires forall i :: 0 <= i < k ==> KeptAt(order, picks, from, i)
    ensures KeptAt(order, picks, from, k)
  {
    PicksMean(coord, prev, incoming, result, order, picks, stats, k);
    ClaimedFrom(order, picks, from, k);
    var u: Uuid := from[order[k]];
    assert SameAt(prev, u, incoming.objects, order[k]);
    KeptPick(coord, prev, Claimed(picks[..k]), incoming.objects[order[k]].fields, picks[k], u);
  }

  /** Its objects keep their ids. */
  lemma {:induction false} DropKeeps(coord: Coord, prev: ObjectMap, incoming: LevelState, result: LevelState,
                                     order: seq<Uuid>, picks: seq<Pick>, stats: AssignUuidStats, from: map<Uuid, Uuid>,
                                     k: nat)
    requires Assigned(coord, prev, incoming, result, order, picks, stats) && 0 !in prev && Separate(coord, prev)
    requires OnlyDrops(prev, incoming.objects, from) && k < |picks|
    ensures KeptAt(order, picks, from, k)
  {
    forall i: nat | i < k ensures KeptAt(order, picks, from, i) {
      DropKeeps(coord, prev, incoming, result, order, picks, stats, from, i);
    }
    DropKeepsNext(coord, prev, incoming, result, order, picks, stats, from, k);
  }

  lemma KeptPick(coord: Coord, prev: ObjectMap, claimed: set<Uuid>, f: FieldMap, p: Pick, u: Uuid)
    requires PickMeans(coord, prev, claimed, f, p) && Separate(coord, prev)
    requires u in prev && u !in claimed && prev[u].fields == f
    ensures p == Pick(u, ByFingerprint)
  {
    EqualFieldsPick(coord, prev, claimed, f, p, u);
    FingerprintPickClose(coord, prev, claimed, f, p);
    if p.uuid != u {
      assert false;
    }
  }

  /** The result holds exactly the objects that were not dropped, under their ids. */
  ghost predicate KeptOnly(prev: ObjectMap, result: ObjectMap, from: map<Uuid, Uuid>) {
    && (forall u :: u in result <==> u in from.Values)
    && (forall u :: u in result ==> u in prev && result[u].fields == prev[u].fields)
  }

  lemma DropResult(coord: Coord, prev: ObjectMap, incoming: LevelState, result: LevelState, order: seq<Uuid>,
                   picks: seq<Pick>, stats: AssignUuidStats, from: map<Uuid, Uuid>)
    requires Assigned(coord, prev, incoming, result, order, picks, stats) && 0 !in prev && Separate(coord, prev)
    requires OnlyDrops(prev, incoming.objects, from)
    ensures KeptOnly(prev, result.objects, from)
  {
    forall i: nat | i < |picks| ensures KeptAt(order, picks, from, i) {
      DropKeeps(coord, prev, incoming, result, order, picks, stats, from, i);
    }
    forall u ensures u in result.objects <==> u in from.Values {
      if u in result.objects {
        var i := ClaimedBy(picks, u);
        assert KeptAt(order, picks, from, i);
      }
      if u in from.Values {
        var p: Uuid := SomeKeyOf(from, u);
        assert p in Elements(order);
        var i :| 0 <= i < |order| && order[i] == p;
        assert KeptAt(order, picks, from, i);
        ClaimedHas(picks, i);
      }
    }
    forall u | u in result.objects ensures u in prev && result.objects[u].fields == prev[u].fields {
      var i := ClaimedBy(picks, u);
      assert KeptAt(order, picks, from, i);
      assert MovedTo(incoming.objects, order[i], result.objects, picks[i].uuid);
      assert SameAt(prev, from[order[i]], incoming.objects, order[i]);
    }
  }

  /** The delta removes exactly the dropped objects, each once, and does nothing else. */
  ghost predicate OnlyRemoves(prev: ObjectMap, d: Delta, from: map<Uuid, Uuid>) {
    && d.headerChanges == map[] && d.rawHeaderChange.None? && d.adds == [] && d.changed == []
    && (forall i, j :: 0 <= i < j < |d.removes| ==> d.removes[i].uuid != d.removes[j].uuid)
    && (forall o :: o in d.removes <==> o.uuid in prev && o.uuid !in from.Values && o == prev[o.uuid])
  }

  lemma DropDelta(prev: LevelState, next: LevelState, d: Delta, from: map<Uuid, Uuid>)
    requires IsDiff(prev, next, d) && KeptOnly(prev.objects, next.objects, from)
    requires next.header == prev.header && next.rawHeader == prev.rawHeader
    ensures OnlyRemoves(prev.objects, d, from)
  {
    DiffFieldsEmpty(prev.header, next.header);
    SomeMember(d.adds);
    forall m: Modify ensures !IsModifyOf(prev.objects, next.objects, m) {
      if m.uuid in prev.objects && m.uuid in next.objects {
        DiffFieldsEmpty(prev.objects[m.uuid].fields, next.objects[m.uuid].fields);
      }
    }
    SomeMember(d.changed);
  }

  lemma SomeMember<T>(s: seq<T>)
    ensures s != [] ==> exists x :: x in s
  {
    if s != [] {
      assert s[0] in s;
    }
  }

  /**
   * If no two objects of the base look the same within 1 of each other, a capture that only drops objects keeps every
   * other id, and its delta removes exactly the dropped ones.
   */
  lemma DropsAreRemoves(coord: Coord, base: LevelState, parsed: LevelState, incoming: LevelState, order: seq<Uuid>,
                        picks: seq<Pick>, stats: AssignUuidStats, d: Delta, from: map<Uuid, Uuid>)
    requires Assigned(coord, base.objects, parsed, incoming, order, picks, stats) && IsDiff(base, incoming, d)
    requires 0 !in base.objects && Separate(coord, base.objects) && OnlyDrops(base.objects, parsed.objects, from)
    requires parsed.header == base.header && parsed.rawHeader == base.rawHeader
    ensures forall p :: p in from ==> from[p] in incoming.objects &&
                                      incoming.objects[from[p]].fields == parsed.objects[p].fields
    ensures incoming.objects.Keys == from.Values && OnlyRemoves(base.objects, d, from)
  {
    DropResult(coord, base.objects, parsed, incoming, order, picks, stats, from);
    DropDelta(base, incoming, d, from);
    forall p | p in from
      ensures from[p] in incoming.objects && incoming.objects[from[p]].fields == parsed.objects[p].fields
    {
      assert from[p] in from.Values;
      assert SameAt(base.objects, from[p], parsed.objects, p);
    }
  }
}
