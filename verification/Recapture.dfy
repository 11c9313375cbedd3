/** Committing a level again: parsing, matching and diffing (`LevelParser.cpp`, `Matcher.cpp`, `Differ.cpp`). */
module Recapture {
  import opened Prelude
  import opened LevelModel
  import opened SortedIds
  import opened LevelParser
  import Matcher
  import Differ
  import DifferLaws

  /** Every object has a field and no empty value. */
  ghost predicate SolidObjects(objs: ObjectMap) {
    forall u :: u in objs ==> objs[u].fields != map[] && NoEmptyField(objs[u].fields)
  }

  /** The placeholders of `n` printed objects. */
  ghost function Placeholders(n: nat): seq<Uuid>
    requires n < UUID_LIMIT
  {
    seq(n, i requires 0 <= i < n => i + 1)
  }

  lemma PlaceholdersAre(n: nat)
    requires n < UUID_LIMIT
    ensures Ascending(Placeholders(n)) && |Placeholders(n)| == n
    ensures forall u: Uuid :: u in Placeholders(n) <==> 1 <= u <= n
  {
    forall u: Uuid ensures u in Placeholders(n) <==> 1 <= u <= n {
      if 1 <= u <= n {
        assert Placeholders(n)[u - 1] == u;
      }
    }
  }

  lemma SolidAt(objs: ObjectMap, u: Uuid)
    requires SolidObjects(objs) && u in objs
    ensures Reread(FieldsAt(objs, u)) == FieldsAt(objs, u) != map[]
  {
    RereadSame(objs[u].fields);
  }

  lemma FitsInText(s: LevelState, ids: seq<Uuid>, out: string)
    requires TextOf(s, ids, out) && CleanObjects(s.objects) && ';' !in HeaderChunk(s) && |out| < UUID_LIMIT
    ensures |ids| < UUID_LIMIT
  {
    SplitLevel(s, ids, out);
    SplitLength(out, ';');
    ChunkEnds(s, ids);
  }

  ghost predicate AllKnown(ids: seq<Uuid>, objs: ObjectMap) {
    forall i :: 0 <= i < |ids| ==> ids[i] in objs
  }

  lemma ListedKnown(ids: seq<Uuid>, objs: ObjectMap)
    requires Enumerates(ids, objs.Keys)
    ensures AllKnown(ids, objs)
  {
    forall i | 0 <= i < |ids| ensures ids[i] in objs {
      var id: Uuid := ids[i];
      assert id in ids;
    }
  }

  lemma KeysBack(s: LevelState, chunk: string, ids: seq<Uuid>, out: string)
    requires HeaderFrom(s, chunk) && CleanObjects(s.objects) && SolidObjects(s.objects)
    requires TextOf(s, ids, out) && |ids| < UUID_LIMIT && |out| < UUID_LIMIT && AllKnown(ids, s.objects)
    ensures Enumerates(Placeholders(|ids|), LevelOf(out).objects.Keys)
  {
    PlaceholdersAre(|ids|);
    forall u: Uuid ensures u in Placeholders(|ids|) <==> u in LevelOf(out).objects.Keys {
      BackAt(s, chunk, ids, out, u);
    }
  }

  lemma PairsBack(s: LevelState, chunk: string, ids: seq<Uuid>, out: string)
    requires HeaderFrom(s, chunk) && CleanObjects(s.objects) && SolidObjects(s.objects)
    requires TextOf(s, ids, out) && |ids| < UUID_LIMIT && |out| < UUID_LIMIT && AllKnown(ids, s.objects)
    ensures forall i :: 0 <= i < |ids| ==>
              Matcher.SameAt(s.objects, ids[i], LevelOf(out).objects, Placeholders(|ids|)[i])
  {
    forall i | 0 <= i < |ids| ensures Matcher.SameAt(s.objects, ids[i], LevelOf(out).objects, Placeholders(|ids|)[i]) {
      SameBack(s, chunk, ids, out, i);
    }
  }

  /** Solid objects come back one for one, in the same order, under the placeholders 1, 2, ... */
  lemma ReparsedAll(s: LevelState, chunk: string, ids: seq<Uuid>, out: string)
    requires HeaderFrom(s, chunk) && CleanObjects(s.objects) && SolidObjects(s.objects)
    requires PrintedAs(s, ids, out) && |out| < UUID_LIMIT
    ensures |ids| < UUID_LIMIT
    ensures Matcher.SameInOrder(s.objects, ids, LevelOf(out).objects, Placeholders(|ids|))
  {
    HeaderPrints(s, chunk);
    FitsInText(s, ids, out);
    ListedKnown(ids, s.objects);
    KeysBack(s, chunk, ids, out);
    PairsBack(s, chunk, ids, out);
  }

  lemma SameBack(s: LevelState, chunk: string, ids: seq<Uuid>, out: string, i: nat)
    requires HeaderFrom(s, chunk) && CleanObjects(s.objects) && SolidObjects(s.objects)
    requires TextOf(s, ids, out) && |ids| < UUID_LIMIT && |out| < UUID_LIMIT && i < |ids| && ids[i] in s.objects
    ensures Matcher.SameAt(s.objects, ids[i], LevelOf(out).objects, Placeholders(|ids|)[i])
  {
    var u: Uuid := i + 1;
    assert ids[u - 1] == ids[i];
    BackAt(s, chunk, ids, out, u);
    assert Placeholders(|ids|)[i] == u;
  }

  lemma BackAt(s: LevelState, chunk: string, ids: seq<Uuid>, out: string, u: Uuid)
    requires HeaderFrom(s, chunk) && CleanObjects(s.objects) && SolidObjects(s.objects)
    requires TextOf(s, ids, out) && |out| < UUID_LIMIT && (1 <= u <= |ids| ==> ids[u - 1] in s.objects)
    ensures u in LevelOf(out).objects <==> 1 <= u <= |ids|
    ensures 1 <= u <= |ids| ==> LevelOf(out).objects[u].fields == FieldsAt(s.objects, ids[u - 1])
  {
    ReparsedObject(s, chunk, ids, out, u);
    if 1 <= u <= |ids| {
      SolidAt(s.objects, ids[u - 1]);
    }
  }

  const NOTHING := Differ.Delta(map[], None, [], [], [])

  /** The incoming objects in text order: parsing numbers them by the place of their chunk. */
  ghost function TextOrder(s: LevelState): seq<Uuid> {
    InOrder(s.objects.Keys)
  }

  /** `prev` is what an earlier capture made of the parsed level: same header, same field maps, under any ids. */
  ghost predicate CaptureOf(parsed: LevelState, prev: LevelState, ids: seq<Uuid>, order: seq<Uuid>) {
    && prev.rawHeader == parsed.rawHeader && prev.header == parsed.header
    && Matcher.PairsUp(prev.objects, ids, parsed.objects, order)
  }

  lemma OrderIsTextOrder(coord: Matcher.Coord, prev: ObjectMap, incoming: LevelState, result: LevelState,
                         order: seq<Uuid>, picks: seq<Matcher.Pick>, stats: Matcher.AssignUuidStats)
    requires Matcher.Assigned(coord, prev, incoming, result, order, picks, stats)
    requires prev != map[] || incoming.objects == map[]
    ensures order == TextOrder(incoming)
  {
    forall u: Uuid ensures u in order <==> u in incoming.objects {
      assert u in Elements(order) <==> u in order;
    }
    EmptyOrder(order, incoming.objects);
    EnumerationUnique(order, TextOrder(incoming), incoming.objects.Keys);
  }

  lemma EmptyOrder(order: seq<Uuid>, objs: ObjectMap)
    requires Elements(order) == objs.Keys
    ensures objs == map[] ==> order == []
  {
    if order != [] {
      assert order[0] in Elements(order);
    }
  }

  /** A pairing of both maps, so one is empty if the other is. */
  lemma BothEmpty(prev: ObjectMap, ids: seq<Uuid>, incoming: ObjectMap, order: seq<Uuid>)
    requires Matcher.PairsUp(prev, ids, incoming, order)
    ensures prev == map[] ==> incoming == map[]
  {
    if prev == map[] && incoming != map[] {
      DistinctLength(ids);
      DistinctLength(order);
    }
  }

  /**
   * Committing a text again: the ids stay the same set, and the delta is empty if and only if, of every fingerprint,
   * the field maps come in the same order by id as in the text.
   */
  lemma RecommitEmptyIff(coord: Matcher.Coord, parsed: LevelState, prev: LevelState, ids: seq<Uuid>, order0: seq<Uuid>,
                         result: LevelState, order: seq<Uuid>, picks: seq<Matcher.Pick>, stats: Matcher.AssignUuidStats,
                         d: Differ.Delta)
    requires CaptureOf(parsed, prev, ids, order0) && 0 !in prev.objects
    requires Matcher.Assigned(coord, prev.objects, parsed, result, order, picks, stats)
    requires Differ.IsDiff(prev, result, d)
    ensures result.objects.Keys == prev.objects.Keys
    ensures d == NOTHING <==> Matcher.SameClassOrder(coord, prev.objects, parsed.objects, TextOrder(parsed))
  {
    BothEmpty(prev.objects, ids, parsed.objects, order0);
    OrderIsTextOrder(coord, prev.objects, parsed, result, order, picks, stats);
    Matcher.SameIdsAgain(coord, prev.objects, ids, order0, parsed, result, order, picks, stats);
    Matcher.RecaptureKeepsIdsIff(coord, prev.objects, ids, order0, parsed, result, order, picks, stats);
    EmptyDiffIff(prev, result, d);
  }

  lemma EmptyDiffIff(s: LevelState, t: LevelState, d: Differ.Delta)
    requires Differ.IsDiff(s, t, d)
    ensures d == NOTHING <==> s == t
  {
    if s == t {
      SelfDiffEmpty(s, d);
    }
    if d == NOTHING {
      SameHeaders(s.header, t.header);
      forall u: Uuid
        ensures u in s.objects <==> u in t.objects
        ensures u in s.objects && u in t.objects ==> s.objects[u] == t.objects[u]
      {
        ListedIfDifferent(s, t, d, u);
      }
      Matcher.SameMaps(s.objects, t.objects);
    }
  }

  lemma ListedIfDifferent(s: LevelState, t: LevelState, d: Differ.Delta, u: Uuid)
    requires Differ.IsDiff(s, t, d)
    ensures u in s.objects && u !in t.objects ==> d.removes != []
    ensures u in t.objects && u !in s.objects ==> d.adds != []
    ensures u in s.objects && u in t.objects && s.objects[u] != t.objects[u] ==> d.changed != []
  {
    if u in s.objects && u !in t.objects {
      assert s.objects[u] in d.removes;
    } else if u in t.objects && u !in s.objects {
      assert t.objects[u] in d.adds;
    } else if u in s.objects && s.objects[u] != t.objects[u] {
      var fields := Differ.DiffFields(s.objects[u].fields, t.objects[u].fields);
      SameHeaders(s.objects[u].fields, t.objects[u].fields);
      assert Differ.IsModifyOf(s.objects, t.objects, Differ.Modify(u, fields));
      assert Differ.Modify(u, fields) in d.changed;
    }
  }

  lemma SameHeaders(a: FieldMap, b: FieldMap)
    ensures Differ.DiffFields(a, b) == map[] <==> a == b
  {
    DifferLaws.DiffFieldsEmpty(a, b);
  }

  /** A text printed from `prev` has its objects in the order of their ids, so recommitting it gives an empty delta. */
  lemma RecommitIsEmpty(coord: Matcher.Coord, prev: LevelState, chunk: string, ids: seq<Uuid>, out: string,
                        result: LevelState, order: seq<Uuid>, picks: seq<Matcher.Pick>, stats: Matcher.AssignUuidStats,
                        d: Differ.Delta)
    requires HeaderFrom(prev, chunk) && CleanObjects(prev.objects) && SolidObjects(prev.objects) && 0 !in prev.objects
    requires PrintedAs(prev, ids, out) && |out| < UUID_LIMIT
    requires Matcher.Assigned(coord, prev.objects, LevelOf(out), result, order, picks, stats)
    requires Differ.IsDiff(prev, result, d)
    ensures result == prev && d == NOTHING
  {
    ReparsedAll(prev, chunk, ids, out);
    ReparsedObject(prev, chunk, ids, out, 1);
    var parsed, order0 := LevelOf(out), Placeholders(|ids|);
    Matcher.InOrderPairsUp(prev.objects, ids, parsed.objects, order0);
    Matcher.InOrderAgrees(coord, prev.objects, ids, parsed.objects, order0);
    EnumerationUnique(order0, TextOrder(parsed), parsed.objects.Keys);
    RecommitEmptyIff(coord, parsed, prev, ids, order0, result, order, picks, stats, d);
    EmptyDiffIff(prev, result, d);
  }

  // ---------------------------------------------------------------- a text committed twice with a delta

  /** Exactly two objects, under these ids and with these fields. */
  ghost predicate TwoObjects(objs: ObjectMap, one: Uuid, f: FieldMap, two: Uuid, g: FieldMap) {
    one != two && objs.Keys == {one, two} && objs[one].fields == f && objs[two].fields == g
  }

  /** Two objects of one fingerprint as parsed, and as first captured: the draws gave the first one the larger id. */
  ghost predicate Twins(coord: Matcher.Coord, parsed: ObjectMap, prev: ObjectMap, f: FieldMap, g: FieldMap, hi: Uuid,
                        lo: Uuid)
  {
    && TwoObjects(parsed, 1, f, 2, g) && TwoObjects(prev, hi, f, lo, g) && 0 < lo < hi
    && f != g && Matcher.FingerprintOf(coord, f) == Matcher.FingerprintOf(coord, g)
  }

  /** Such a first capture may happen. */
  lemma FirstCapture(coord: Matcher.Coord, parsed: LevelState, prev: LevelState, f: FieldMap, g: FieldMap, hi: Uuid,
                     lo: Uuid)
    requires Twins(coord, parsed.objects, prev.objects, f, g, hi, lo)
    requires prev.rawHeader == parsed.rawHeader && prev.header == parsed.header
    ensures Matcher.Assigned(coord, map[], parsed, prev, [1, 2],
                             [Matcher.Pick(hi, Matcher.Fresh), Matcher.Pick(lo, Matcher.Fresh)],
                             Matcher.AssignUuidStats(0, 0, 2))
  {
    var one, two := Matcher.Pick(hi, Matcher.Fresh), Matcher.Pick(lo, Matcher.Fresh);
    var picks, order: seq<Uuid> := [one, two], [1, 2];
    Matcher.AllFresh(picks);
    var none: seq<Matcher.Pick> := [];
    assert picks[..1] == [one] && [one][..0] == none;
    assert Matcher.Claimed(none) == {};
    assert Matcher.Claimed([one]) == Matcher.Claimed(none) + {hi};
    assert Matcher.Claimed(picks) == Matcher.Claimed([one]) + {lo};
    assert Elements(order) == {1, 2};
    Matcher.FreshIsGood(coord, parsed.objects, order, picks);
  }

  lemma TwinsPair(coord: Matcher.Coord, parsed: ObjectMap, prev: ObjectMap, f: FieldMap, g: FieldMap, hi: Uuid,
                  lo: Uuid)
    requires Twins(coord, parsed, prev, f, g, hi, lo)
    ensures Matcher.PairsUp(prev, [hi, lo], parsed, [1, 2])
  {
    var ids: seq<Uuid>, order: seq<Uuid> := [hi, lo], [1, 2];
    assert Elements(ids) == {hi, lo} && Elements(order) == {1, 2};
  }

  lemma TwinsOrder(parsed: LevelState)
    requires parsed.objects.Keys == {1, 2}
    ensures TextOrder(parsed) == [1, 2]
  {
    EnumerationUnique([1, 2], TextOrder(parsed), parsed.objects.Keys);
  }

  lemma TwinsClass(coord: Matcher.Coord, parsed: ObjectMap, prev: ObjectMap, f: FieldMap, g: FieldMap, hi: Uuid,
                   lo: Uuid)
    requires Twins(coord, parsed, prev, f, g, hi, lo)
    ensures Matcher.ClassIds(coord, prev, Matcher.FingerprintOf(coord, f)) == [lo, hi]
    ensures Matcher.Places(coord, parsed, [1, 2], Matcher.FingerprintOf(coord, f)) == [0, 1]
  {
    var fp := Matcher.FingerprintOf(coord, f);
    var ids := set u | u in prev && Matcher.InClass(coord, prev, fp, u);
    assert ids == {hi, lo};
    EnumerationUnique([lo, hi], Matcher.ClassIds(coord, prev, fp), ids);
    var one: seq<Uuid>, both: seq<Uuid> := [1], [1, 2];
    assert both[..1] == one && one[..0] == [];
    assert Matcher.Places(coord, parsed, one, fp) == [0];
  }

  /** A class of two ids and two places: each place goes to its id. */
  lemma TwoOfClass(coord: Matcher.Coord, prev: ObjectMap, ids: seq<Uuid>, order0: seq<Uuid>, incoming: LevelState,
                   result: LevelState, order: seq<Uuid>, picks: seq<Matcher.Pick>, stats: Matcher.AssignUuidStats,
                   fp: Matcher.Fingerprint, lo: Uuid, hi: Uuid)
    requires Matcher.Assigned(coord, prev, incoming, result, order, picks, stats) && 0 !in prev
    requires Matcher.PairsUp(prev, ids, incoming.objects, order0) && order == [1, 2]
    requires Matcher.ClassIds(coord, prev, fp) == [lo, hi] &&
             Matcher.Places(coord, incoming.objects, [1, 2], fp) == [0, 1]
    ensures result.objects.Keys == prev.Keys
    ensures Matcher.SameAt(result.objects, lo, incoming.objects, 1)
    ensures Matcher.SameAt(result.objects, hi, incoming.objects, 2)
  {
    Matcher.SameIdsAgain(coord, prev, ids, order0, incoming, result, order, picks, stats);
    Matcher.TakenAt(coord, prev, ids, order0, incoming, result, order, picks, stats, fp, 0);
    Matcher.TakenAt(coord, prev, ids, order0, incoming, result, order, picks, stats, fp, 1);
  }

  lemma TwinsRetaken(coord: Matcher.Coord, parsed: LevelState, prev: ObjectMap, f: FieldMap, g: FieldMap, hi: Uuid,
                     lo: Uuid, result: LevelState, order: seq<Uuid>, picks: seq<Matcher.Pick>,
                     stats: Matcher.AssignUuidStats)
    requires Twins(coord, parsed.objects, prev, f, g, hi, lo) && order == [1, 2]
    requires Matcher.Assigned(coord, prev, parsed, result, order, picks, stats)
    ensures TwoObjects(result.objects, hi, g, lo, f) && result.objects != prev
  {
    TwinsPair(coord, parsed.objects, prev, f, g, hi, lo);
    TwinsClass(coord, parsed.objects, prev, f, g, hi, lo);
    TwoOfClass(coord, prev, [hi, lo], [1, 2], parsed, result, order, picks, stats, Matcher.FingerprintOf(coord, f), lo,
               hi);
    Swapped(parsed.objects, prev, f, g, hi, lo, result.objects);
  }

  /**
   * Capturing the same two objects again gives the first one the smaller id: the ids are swapped, and the delta is not
   * empty although the text did not change.
   */
  lemma TwinsSwap(coord: Matcher.Coord, parsed: LevelState, prev: LevelState, f: FieldMap, g: FieldMap, hi: Uuid,
                  lo: Uuid, result: LevelState, order: seq<Uuid>, picks: seq<Matcher.Pick>,
                  stats: Matcher.AssignUuidStats, d: Differ.Delta)
    requires Twins(coord, parsed.objects, prev.objects, f, g, hi, lo)
    requires Matcher.Assigned(coord, prev.objects, parsed, result, order, picks, stats) &&
             Differ.IsDiff(prev, result, d)
    ensures TwoObjects(result.objects, hi, g, lo, f) && d != NOTHING
  {
    TwinsInOrder(coord, prev.objects, hi, parsed, result, order, picks, stats);
    TwinsRetaken(coord, parsed, prev.objects, f, g, hi, lo, result, order, picks, stats);
    EmptyDiffIff(prev, result, d);
  }

  lemma TwinsInOrder(coord: Matcher.Coord, prev: ObjectMap, hi: Uuid, parsed: LevelState, result: LevelState,
                     order: seq<Uuid>, picks: seq<Matcher.Pick>, stats: Matcher.AssignUuidStats)
    requires hi in prev && parsed.objects.Keys == {1, 2}
    requires Matcher.Assigned(coord, prev, parsed, result, order, picks, stats)
    ensures order == [1, 2]
  {
    OrderIsTextOrder(coord, prev, parsed, result, order, picks, stats);
    TwinsOrder(parsed);
  }

  lemma Swapped(parsed: ObjectMap, prev: ObjectMap, f: FieldMap, g: FieldMap, hi: Uuid, lo: Uuid, after: ObjectMap)
    requires TwoObjects(parsed, 1, f, 2, g) && TwoObjects(prev, hi, f, lo, g) && f != g && after.Keys == prev.Keys
    requires Matcher.SameAt(after, lo, parsed, 1) && Matcher.SameAt(after, hi, parsed, 2)
    ensures TwoObjects(after, hi, g, lo, f) && after != prev
  {
  }

  lemma SelfDiffEmpty(s: LevelState, d: Differ.Delta)
    requires Differ.IsDiff(s, s, d)
    ensures d == NOTHING
  {
    assert Differ.DiffFields(s.header, s.header) == map[];
    forall m: Differ.Modify ensures m !in d.changed {
      if m.uuid in s.objects {
        assert Differ.DiffFields(s.objects[m.uuid].fields, s.objects[m.uuid].fields) == map[];
      }
      assert !Differ.IsModifyOf(s.objects, s.objects, m);
    }
    NoMembers(d.adds);
    NoMembers(d.removes);
    NoMembers(d.changed);
  }

  lemma HeadIn<T>(s: seq<T>)
    requires s != []
    ensures s[0] in s
  {
  }

  lemma NoMembers<T(!new)>(s: seq<T>)
    requires forall x :: x !in s
    ensures s == []
  {
    if s != [] {
      HeadIn(s);
      assert false;
    }
  }
}
