/** Three-way merge of level states (`src/service/MergeService.cpp`). */
module MergeService {
  import opened Prelude
  import opened LevelModel
  import opened SortedIds
  import opened HeaderMerge

  // ---------------------------------------------------------------- field maps

  /** Three different values, an absent key reading as the empty string. */
  predicate FieldClash(b: FieldMap, o: FieldMap, t: FieldMap, k: string) {
    Clash3(Get(b, k), Get(o, k), Get(t, k))
  }

  function FieldPick(b: FieldMap, o: FieldMap, t: FieldMap, k: string): string {
    Pick3(Get(b, k), Get(o, k), Get(t, k))
  }

  /** Merging into a copy of ours: a clashing key keeps ours' entry as it is, any other key drops an empty value. */
  function MergeFields(b: FieldMap, o: FieldMap, t: FieldMap): FieldMap {
    map k | k in b.Keys + o.Keys + t.Keys && (if FieldClash(b, o, t, k) then k in o else FieldPick(b, o, t, k) != "")
      :: FieldPick(b, o, t, k)
  }

  function FieldClashes(b: FieldMap, o: FieldMap, t: FieldMap): set<string> {
    set k | k in b.Keys + o.Keys + t.Keys && FieldClash(b, o, t, k)
  }

  /** One key of the merge, on the map being built. */
  function MergeKey(target: FieldMap, b: FieldMap, o: FieldMap, t: FieldMap, k: string): FieldMap {
    if FieldClash(b, o, t, k) then target
    else if FieldPick(b, o, t, k) == "" then target - {k}
    else target[k := FieldPick(b, o, t, k)]
  }

  /** Keys in `todo` still hold ours' entry. */
  ghost function PartlyMerged(b: FieldMap, o: FieldMap, t: FieldMap, todo: set<string>): FieldMap {
    var merged := MergeFields(b, o, t);
    map k | k in b.Keys + o.Keys + t.Keys && (if k in todo then k in o else k in merged)
      :: if k in todo then o[k] else merged[k]
  }

  lemma MergeKeyStep(b: FieldMap, o: FieldMap, t: FieldMap, todo: set<string>, k: string)
    requires k in todo && todo <= b.Keys + o.Keys + t.Keys
    ensures MergeKey(PartlyMerged(b, o, t, todo), b, o, t, k) == PartlyMerged(b, o, t, todo - {k})
  {
  }

  method MergeOneKey(target: FieldMap, b: FieldMap, o: FieldMap, t: FieldMap, k: string)
    returns (r: FieldMap, conflict: bool)
    ensures r == MergeKey(target, b, o, t, k) && conflict == FieldClash(b, o, t, k)
  {
    var vb, vo, vt := Get(b, k), Get(o, k), Get(t, k);
    r, conflict := target, false;
    if vo == vt {
      r := if vo == "" then target - {k} else target[k := vo];
    } else if vo == vb {
      r := if vt == "" then target - {k} else target[k := vt];
    } else if vt == vb {
      r := if vo == "" then target - {k} else target[k := vo];
    } else {
      conflict := true;
    }
  }

  method MergeFieldMap(b: FieldMap, o: FieldMap, t: FieldMap) returns (target: FieldMap, conflicts: nat)
    ensures target == MergeFields(b, o, t) && conflicts == |FieldClashes(b, o, t)|
  {
    target, conflicts := o, 0;
    var keys := b.Keys + o.Keys + t.Keys;
    var todo := keys;
    NothingMergedYet(b, o, t);
    while todo != {}
      invariant todo <= keys && target == PartlyMerged(b, o, t, todo) && conflicts == ClashesDone(b, o, t, todo)
      decreases todo
    {
      var k :| k in todo;
      MergeKeyStep(b, o, t, todo, k);
      ClashStep(b, o, t, todo, k);
      var conflict;
      target, conflict := MergeOneKey(target, b, o, t, k);
      if conflict {
        conflicts := conflicts + 1;
      }
      todo := todo - {k};
    }
  }

  ghost function ClashesDone(b: FieldMap, o: FieldMap, t: FieldMap, todo: set<string>): nat {
    |FieldClashes(b, o, t) - todo|
  }

  lemma ClashStep(b: FieldMap, o: FieldMap, t: FieldMap, todo: set<string>, k: string)
    requires k in todo && todo <= b.Keys + o.Keys + t.Keys
    ensures ClashesDone(b, o, t, todo - {k}) == ClashesDone(b, o, t, todo) + if FieldClash(b, o, t, k) then 1 else 0
  {
    var was, now := FieldClashes(b, o, t) - todo, FieldClashes(b, o, t) - (todo - {k});
    if FieldClash(b, o, t, k) {
      assert now == was + {k};
    } else {
      assert now == was;
    }
  }

  lemma NothingMergedYet(b: FieldMap, o: FieldMap, t: FieldMap)
    ensures PartlyMerged(b, o, t, b.Keys + o.Keys + t.Keys) == o
    ensures PartlyMerged(b, o, t, {}) == MergeFields(b, o, t)
    ensures ClashesDone(b, o, t, b.Keys + o.Keys + t.Keys) == 0
    ensures ClashesDone(b, o, t, {}) == |FieldClashes(b, o, t)|
  {
    assert FieldClashes(b, o, t) - (b.Keys + o.Keys + t.Keys) == {};
    assert FieldClashes(b, o, t) - {} == FieldClashes(b, o, t);
  }

  lemma MergedFieldAt(b: FieldMap, o: FieldMap, t: FieldMap, k: string)
    ensures Get(MergeFields(b, o, t), k) == FieldPick(b, o, t, k)
  {
    if k !in b.Keys + o.Keys + t.Keys {
      assert Get(b, k) == Get(o, k) == Get(t, k) == "";
    } else if FieldClash(b, o, t, k) {
      assert FieldPick(b, o, t, k) == Get(o, k);
      assert k in MergeFields(b, o, t) <==> k in o;
    } else {
      assert k in MergeFields(b, o, t) <==> FieldPick(b, o, t, k) != "";
    }
  }

  /** A merged value that is empty is not stored, unless the sides all differ and ours holds it as empty. */
  lemma MergedFieldStored(b: FieldMap, o: FieldMap, t: FieldMap, k: string)
    requires k in MergeFields(b, o, t) && MergeFields(b, o, t)[k] == ""
    ensures k in o && o[k] == "" && Get(b, k) != "" && Get(t, k) != "" && Get(b, k) != Get(t, k)
  {
    MergedFieldAt(b, o, t, k);
  }

  // ---------------------------------------------------------------- raw header

  ghost function RawMerge(b: string, o: string, t: string): MergedHeader {
    var structured := MergeOf(b, o, t);
    if structured.Some? then structured.value
    else MergedHeader(Pick3(b, o, t), if Clash3(b, o, t) then 1 else 0)
  }

  method MergeRawHeader(b: string, o: string, t: string) returns (text: string, conflicts: nat)
    ensures MergedHeader(text, conflicts) == RawMerge(b, o, t)
  {
    var structured := MergeHeaders3Way(b, o, t);
    conflicts := 0;
    if structured.Some? {
      text, conflicts := structured.value.text, structured.value.conflicts;
    } else if o == t {
      text := o;
    } else if o == b {
      text := t;
    } else if t == b {
      text := o;
    } else {
      text, conflicts := o, 1;
    }
  }

  // ---------------------------------------------------------------- objects

  datatype Three = Three(b: ObjectMap, o: ObjectMap, t: ObjectMap)

  /** The map being built and the next id to mint. */
  datatype Acc = Acc(objects: ObjectMap, nextUuid: Uuid)

  /** Both sides added the id, with different fields. */
  predicate AddAdd(s: Three, id: Uuid) {
    id !in s.b && id in s.o && id in s.t && s.o[id].fields != s.t[id].fields
  }

  function Bump(u: Uuid): Uuid {
    (u + 1) % UUID_LIMIT
  }

  /** One id of the merge. */
  function MergeId(s: Three, acc: Acc, id: Uuid): Acc {
    if id !in s.o && id !in s.t then acc.(objects := acc.objects - {id})
    else if id !in s.b then
      if id !in s.o then acc.(objects := acc.objects[id := s.t[id]])
      else if id !in s.t then acc
      else if s.o[id].fields == s.t[id].fields then acc.(objects := acc.objects[id := s.o[id]])
      else Acc(acc.objects[acc.nextUuid := Object(acc.nextUuid, s.t[id].fields)], Bump(acc.nextUuid))
    else if id !in s.o then
      if s.t[id].fields == s.b[id].fields then acc.(objects := acc.objects - {id}) else acc
    else if id !in s.t then
      if s.o[id].fields == s.b[id].fields then acc.(objects := acc.objects - {id}) else acc
    else acc.(objects := acc.objects[id := Object(id, MergeFields(s.b[id].fields, s.o[id].fields, s.t[id].fields))])
  }

  function IdClashes(s: Three, id: Uuid): nat {
    if id !in s.b then 0
    else if id !in s.o then if id in s.t && s.t[id].fields != s.b[id].fields then 1 else 0
    else if id !in s.t then if s.o[id].fields != s.b[id].fields then 1 else 0
    else |FieldClashes(s.b[id].fields, s.o[id].fields, s.t[id].fields)|
  }

  function MergeIds(s: Three, ids: seq<Uuid>, next: Uuid): Acc {
    if ids == [] then Acc(s.o, next)
    else MergeId(s, MergeIds(s, ids[..|ids| - 1], next), ids[|ids| - 1])
  }

  function SumClashes(s: Three, ids: seq<Uuid>): nat {
    if ids == [] then 0 else SumClashes(s, ids[..|ids| - 1]) + IdClashes(s, ids[|ids| - 1])
  }

  function AllIds(s: Three): set<Uuid> {
    s.b.Keys + s.o.Keys + s.t.Keys
  }

  /** The counter after seeing the ids in this order. */
  function Counter(order: seq<Uuid>): Uuid {
    if order == [] then 1
    else
      var before, id := Counter(order[..|order| - 1]), order[|order| - 1];
      if id >= before then Bump(id) else before
  }

  /** The counter's value for some order of the hash map. */
  ghost predicate FirstFree(o: ObjectMap, next: Uuid) {
    exists order :: Distinct(order) && Elements(order) == o.Keys && next == Counter(order)
  }

  lemma {:induction false} CounterAbove(order: seq<Uuid>)
    requires UUID_LIMIT - 1 !in order
    ensures forall u :: u in order ==> u < Counter(order)
    ensures Counter(order) == 1 || Counter(order) - 1 in order
  {
    if order != [] {
      var front, id := order[..|order| - 1], order[|order| - 1];
      assert order == front + [id];
      CounterAbove(front);
    }
  }

  /** Unless ours holds the largest id there is, whose successor wraps, that is one above ours' largest id. */
  lemma FirstFreeAbove(o: ObjectMap, next: Uuid)
    requires FirstFree(o, next) && UUID_LIMIT - 1 !in o.Keys
    ensures (forall u :: u in o ==> u < next) && (next == 1 || next - 1 in o.Keys)
  {
    var order :| Distinct(order) && Elements(order) == o.Keys && next == Counter(order);
    forall u: Uuid ensures u in order <==> u in o {
      assert u in order <==> u in Elements(order);
    }
    CounterAbove(order);
  }

  method FindFirstFree(o: ObjectMap) returns (next: Uuid)
    ensures FirstFree(o, next)
  {
    next := 1;
    var todo := o.Keys;
    ghost var order: seq<Uuid> := [];
    while todo != {}
      invariant todo <= o.Keys && Distinct(order) && Elements(order) == o.Keys - todo && next == Counter(order)
      decreases todo
    {
      ghost var _ := SomeElement(todo);
      var id: Uuid :| id in todo;
      assert id !in Elements(order);
      assert (order + [id])[..|order|] == order && Elements(order + [id]) == Elements(order) + {id};
      order := order + [id];
      todo := todo - {id};
      if id >= next {
        next := Bump(id);
      }
    }
    assert Elements(order) == o.Keys;
  }

  method MergeOneId(s: Three, acc: Acc, id: Uuid) returns (r: Acc, conflicts: nat)
    ensures r == MergeId(s, acc, id) && conflicts == IdClashes(s, id)
  {
    conflicts := 0;
    r := acc;
    var hasB, hasO, hasT := id in s.b, id in s.o, id in s.t;
    if !hasO && !hasT {
      r := r.(objects := r.objects - {id});
      return;
    }
    if !hasB {
      if !hasO && hasT {
        r := r.(objects := r.objects[id := s.t[id]]);
        return;
      }
      if hasO && !hasT {
        return;
      }
      if s.o[id].fields == s.t[id].fields {
        r := r.(objects := r.objects[id := s.o[id]]);
        return;
      }
      var importedObj := Object(r.nextUuid, s.t[id].fields);
      r := Acc(r.objects[importedObj.uuid := importedObj], Bump(r.nextUuid));
      return;
    }
    if !hasO && hasT {
      if s.t[id].fields == s.b[id].fields {
        r := r.(objects := r.objects - {id});
      } else {
        conflicts := 1;
      }
      return;
    }
    if hasO && !hasT {
      if s.o[id].fields == s.b[id].fields {
        r := r.(objects := r.objects - {id});
      } else {
        conflicts := 1;
      }
      return;
    }
    var fields;
    fields, conflicts := MergeFieldMap(s.b[id].fields, s.o[id].fields, s.t[id].fields);
    r := r.(objects := r.objects[id := Object(id, fields)]);
  }

  // ---------------------------------------------------------------- the whole merge

  ghost function Sides3(base: LevelState, ours: LevelState, theirs: LevelState): Three {
    Three(base.objects, ours.objects, theirs.objects)
  }

  /** `merged` and `conflictCount` are what merging the ids in the order `ids` gives, minting from `next`. */
  ghost predicate MergedFrom3(base: LevelState, ours: LevelState, theirs: LevelState, ids: seq<Uuid>, next: Uuid,
                              merged: LevelState, conflictCount: nat)
  {
    var s := Sides3(base, ours, theirs);
    && Enumerates(ids, AllIds(s)) && FirstFree(ours.objects, next)
    && merged.header == MergeFields(base.header, ours.header, theirs.header)
    && merged.rawHeader == RawMerge(base.rawHeader, ours.rawHeader, theirs.rawHeader).text
    && merged.objects == MergeIds(s, ids, next).objects
    && conflictCount == |FieldClashes(base.header, ours.header, theirs.header)|
                        + RawMerge(base.rawHeader, ours.rawHeader, theirs.rawHeader).conflicts + SumClashes(s, ids)
  }

  ghost predicate IsMerge(base: LevelState, ours: LevelState, theirs: LevelState, merged: LevelState,
                          conflictCount: nat)
  {
    exists ids, next :: MergedFrom3(base, ours, theirs, ids, next, merged, conflictCount)
  }

  method MergeStates3Way(base: LevelState, ours: LevelState, theirs: LevelState)
    returns (merged: LevelState, conflictCount: nat)
    ensures IsMerge(base, ours, theirs, merged, conflictCount)
  {
    var header;
    header, conflictCount := MergeFieldMap(base.header, ours.header, theirs.header);
    var rawHeader, headerConflicts := MergeRawHeader(base.rawHeader, ours.rawHeader, theirs.rawHeader);
    conflictCount := conflictCount + headerConflicts;
    var next := FindFirstFree(ours.objects);
    var objects, n, ids := MergeObjects(Three(base.objects, ours.objects, theirs.objects), next);
    conflictCount := conflictCount + n;
    merged := LevelState(rawHeader, header, objects);
    assert MergedFrom3(base, ours, theirs, ids, next, merged, conflictCount);
  }

  method MergeObjects(s: Three, next: Uuid) returns (objects: ObjectMap, conflicts: nat, ghost order: seq<Uuid>)
    ensures Enumerates(order, AllIds(s))
    ensures objects == MergeIds(s, order, next).objects && conflicts == SumClashes(s, order)
  {
    var ids := SortIds(AllIds(s));
    var acc := Acc(s.o, next);
    conflicts := 0;
    for i := 0 to |ids|
      invariant acc == MergeIds(s, ids[..i], next) && conflicts == SumClashes(s, ids[..i])
    {
      assert ids[..i + 1][..i] == ids[..i];
      var n;
      acc, n := MergeOneId(s, acc, ids[i]);
      conflicts := conflicts + n;
    }
    assert ids[..|ids|] == ids;
    objects, order := acc.objects, ids;
  }
}
