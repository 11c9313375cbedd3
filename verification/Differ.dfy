/** Field-level deltas between level states (`src/diff/Differ.cpp`). */
module Differ {
  import opened Prelude
  import opened LevelModel

  datatype FieldChange = FieldChange(before: string, after: string)

  type ChangeMap = map<string, FieldChange>

  datatype Modify = Modify(uuid: Uuid, fields: ChangeMap)

  datatype Delta = Delta(
    headerChanges: ChangeMap,
    rawHeaderChange: Option<FieldChange>,
    adds: seq<Object>,
    removes: seq<Object>,
    changed: seq<Modify>)

  datatype Conflict = AddAlreadyExists | Missing | ModifyStale

  // ---------------------------------------------------------------- diff

  /** A change for every key the two maps disagree on; a key on one side only always counts. */
  function DiffFields(a: FieldMap, b: FieldMap): ChangeMap {
    map k | k in a.Keys + b.Keys && !(k in a && k in b && a[k] == b[k]) :: FieldChange(Get(a, k), Get(b, k))
  }

  method ComputeDiffFields(a: FieldMap, b: FieldMap) returns (out: ChangeMap)
    ensures out == DiffFields(a, b)
  {
    out := map[];
    ghost var all := DiffFields(a, b);
    var todo := a.Keys;
    while todo != {}
      invariant todo <= a.Keys
      invariant forall k :: k in out <==> k in all && k in a && k !in todo
      invariant forall k :: k in out ==> out[k] == all[k]
      decreases todo
    {
      var k :| k in todo;
      todo := todo - {k};
      if k !in b {
        out := out[k := FieldChange(a[k], "")];
      } else if a[k] != b[k] {
        out := out[k := FieldChange(a[k], b[k])];
      }
    }
    todo := b.Keys;
    while todo != {}
      invariant todo <= b.Keys
      invariant forall k :: k in out <==> k in all && (k in a || k !in todo)
      invariant forall k :: k in out ==> out[k] == all[k]
      decreases todo
    {
      var k :| k in todo;
      todo := todo - {k};
      if k !in a {
        out := out[k := FieldChange("", b[k])];
      }
    }
  }

  ghost predicate DistinctIds(s: seq<Object>) {
    forall i, j :: 0 <= i < j < |s| ==> s[i].uuid != s[j].uuid
  }

  ghost predicate DistinctModifies(s: seq<Modify>) {
    forall i, j :: 0 <= i < j < |s| ==> s[i].uuid != s[j].uuid
  }

  /** The entry `diff` records for an object present on both sides, if any. */
  ghost predicate IsModifyOf(prev: ObjectMap, next: ObjectMap, m: Modify) {
    m.uuid in prev && m.uuid in next &&
    m.fields == DiffFields(prev[m.uuid].fields, next[m.uuid].fields) && m.fields != map[]
  }

  /** `s` lists, in some order and once each, the objects of `here` whose id is not in `there`. */
  ghost predicate ListsOnlyIn(s: seq<Object>, here: ObjectMap, there: ObjectMap) {
    DistinctIds(s) &&
    forall o :: o in s <==> o.uuid in here && o.uuid !in there && o == here[o.uuid]
  }

  /** `d` is a result `diff(prev, next)` may give: hash maps fix no order for the three lists. */
  ghost predicate IsDiff(prev: LevelState, next: LevelState, d: Delta) {
    && d.headerChanges == DiffFields(prev.header, next.header)
    && d.rawHeaderChange == (if prev.rawHeader != next.rawHeader
                             then Some(FieldChange(prev.rawHeader, next.rawHeader)) else None)
    && ListsOnlyIn(d.adds, next.objects, prev.objects)
    && ListsOnlyIn(d.removes, prev.objects, next.objects)
    && DistinctModifies(d.changed)
    && forall m :: m in d.changed <==> IsModifyOf(prev.objects, next.objects, m)
  }

  method Diff(prev: LevelState, next: LevelState) returns (d: Delta)
    ensures IsDiff(prev, next, d)
  {
    var headerChanges := ComputeDiffFields(prev.header, next.header);
    var rawHeaderChange := None;
    if prev.rawHeader != next.rawHeader {
      rawHeaderChange := Some(FieldChange(prev.rawHeader, next.rawHeader));
    }
    var removes, changed := RemovedAndChanged(prev.objects, next.objects);
    var adds := Added(prev.objects, next.objects);
    d := Delta(headerChanges, rawHeaderChange, adds, removes, changed);
  }

  method RemovedAndChanged(prev: ObjectMap, next: ObjectMap) returns (removes: seq<Object>, changed: seq<Modify>)
    ensures ListsOnlyIn(removes, prev, next)
    ensures DistinctModifies(changed) && forall m :: m in changed <==> IsModifyOf(prev, next, m)
  {
    removes, changed := [], [];
    var todo := prev.Keys;
    while todo != {}
      invariant todo <= prev.Keys
      invariant DistinctIds(removes) && DistinctModifies(changed)
      invariant forall o :: o in removes <==>
                  o.uuid in prev && o.uuid !in todo && o.uuid !in next && o == prev[o.uuid]
      invariant forall m :: m in changed <==> m.uuid !in todo && IsModifyOf(prev, next, m)
      decreases todo
    {
      var u :| u in todo;
      assert forall o :: o in removes ==> o.uuid != u;
      assert forall m :: m in changed ==> m.uuid != u;
      todo := todo - {u};
      if u !in next {
        removes := removes + [prev[u]];
      } else {
        var fieldChanges := ComputeDiffFields(prev[u].fields, next[u].fields);
        if fieldChanges != map[] {
          changed := changed + [Modify(u, fieldChanges)];
        }
      }
    }
  }

  method Added(prev: ObjectMap, next: ObjectMap) returns (adds: seq<Object>)
    ensures ListsOnlyIn(adds, next, prev)
  {
    adds := [];
    var todo := next.Keys;
    while todo != {}
      invariant todo <= next.Keys
      invariant DistinctIds(adds)
      invariant forall o :: o in adds <==> o.uuid in next && o.uuid !in todo && o.uuid !in prev && o == next[o.uuid]
      decreases todo
    {
      var u :| u in todo;
      assert forall o :: o in adds ==> o.uuid != u;
      todo := todo - {u};
      if u !in prev {
        adds := adds + [next[u]];
      }
    }
  }

  // ---------------------------------------------------------------- apply

  /** Header changes are forced through even when `before` does not match. */
  function ForceFields(f: FieldMap, ch: ChangeMap): FieldMap {
    map k | k in f.Keys + ch.Keys && (k in ch ==> ch[k].after != "") :: if k in ch then ch[k].after else f[k]
  }

  /** The changes that still find the value they expect. */
  function Matching(f: FieldMap, ch: ChangeMap): ChangeMap {
    map k | k in ch && Get(f, k) == ch[k].before :: ch[k]
  }

  /** Object field changes are skipped when `before` does not match. */
  function PatchFields(f: FieldMap, ch: ChangeMap): FieldMap {
    ForceFields(f, Matching(f, ch))
  }

  function StaleKeys(f: FieldMap, ch: ChangeMap): set<string> {
    set k | k in ch && Get(f, k) != ch[k].before
  }

  function Stales(n: nat): (s: seq<Conflict>)
    ensures |s| == n
  {
    if n == 0 then [] else Stales(n - 1) + [ModifyStale]
  }

  /** One entry of the add, remove and modify lists. */
  datatype Op = AddOp(o: Object) | RemoveOp(o: Object) | ModifyOp(m: Modify) {
    function Id(): Uuid {
      match this
      case AddOp(o) => o.uuid
      case RemoveOp(o) => o.uuid
      case ModifyOp(m) => m.uuid
    }

    /** What the entry makes of the object now stored under its id. */
    function Effect(cur: Option<Object>): (r: Option<Object>)
      requires cur.Some? ==> cur.value.uuid == Id()
      ensures r.Some? ==> r.value.uuid == Id()
    {
      match this
      case AddOp(o) => if cur.Some? then cur else Some(o)
      case RemoveOp(_) => None
      case ModifyOp(m) => if cur.None? then None else Some(Object(m.uuid, PatchFields(cur.value.fields, m.fields)))
    }

    /** The conflicts it reports. */
    function Reports(cur: Option<Object>): seq<Conflict> {
      match this
      case AddOp(_) => if cur.Some? then [AddAlreadyExists] else []
      case RemoveOp(_) => if cur.None? then [Missing] else []
      case ModifyOp(m) => if cur.None? then [Missing] else Stales(|StaleKeys(cur.value.fields, m.fields)|)
    }
  }

  function Put(objs: ObjectMap, u: Uuid, v: Option<Object>): ObjectMap
    requires v.Some? ==> v.value.uuid == u
  {
    if v.Some? then objs[u := v.value] else objs - {u}
  }

  function AddOps(adds: seq<Object>): seq<Op> {
    seq(|adds|, i requires 0 <= i < |adds| => AddOp(adds[i]))
  }

  function RemoveOps(removes: seq<Object>): seq<Op> {
    seq(|removes|, i requires 0 <= i < |removes| => RemoveOp(removes[i]))
  }

  function ModifyOps(changed: seq<Modify>): seq<Op> {
    seq(|changed|, i requires 0 <= i < |changed| => ModifyOp(changed[i]))
  }

  /** The entries in the order `apply` handles them. */
  function Ops(d: Delta): seq<Op> {
    AddOps(d.adds) + (RemoveOps(d.removes) + ModifyOps(d.changed))
  }

  function ApplyOp(objs: ObjectMap, op: Op): ObjectMap {
    Put(objs, op.Id(), op.Effect(Lookup(objs, op.Id())))
  }

  function OpReports(objs: ObjectMap, op: Op): seq<Conflict> {
    op.Reports(Lookup(objs, op.Id()))
  }

  function RunOps(objs: ObjectMap, ops: seq<Op>): ObjectMap
    decreases |ops|
  {
    if ops == [] then objs else RunOps(ApplyOp(objs, ops[0]), ops[1..])
  }

  function OpConflicts(objs: ObjectMap, ops: seq<Op>): seq<Conflict>
    decreases |ops|
  {
    if ops == [] then [] else OpReports(objs, ops[0]) + OpConflicts(ApplyOp(objs, ops[0]), ops[1..])
  }

  function Apply(base: LevelState, d: Delta): LevelState {
    LevelState(
      if d.rawHeaderChange.Some? then d.rawHeaderChange.value.after else base.rawHeader,
      ForceFields(base.header, d.headerChanges),
      RunOps(base.objects, Ops(d)))
  }

  function HeaderConflicts(base: LevelState, d: Delta): seq<Conflict> {
    Stales(|StaleKeys(base.header, d.headerChanges)|) +
    (if d.rawHeaderChange.Some? && base.rawHeader != d.rawHeaderChange.value.before then [ModifyStale] else [])
  }

  function Conflicts(base: LevelState, d: Delta): seq<Conflict> {
    HeaderConflicts(base, d) + OpConflicts(base.objects, Ops(d))
  }

  /** Handling one more key of a change map, of which the part `done` is already handled. */
  lemma ForceMore(f: FieldMap, done: ChangeMap, k: string, c: FieldChange)
    requires k !in done
    ensures Get(ForceFields(f, done), k) == Get(f, k)
    ensures ForceFields(f, done[k := c]) ==
            if c.after == "" then ForceFields(f, done) - {k} else ForceFields(f, done)[k := c.after]
  {
  }

  lemma PatchMore(f: FieldMap, done: ChangeMap, k: string, c: FieldChange)
    requires k !in done
    ensures Get(PatchFields(f, done), k) == Get(f, k)
    ensures PatchFields(f, done[k := c]) ==
            if Get(f, k) != c.before then PatchFields(f, done)
            else if c.after == "" then PatchFields(f, done) - {k}
            else PatchFields(f, done)[k := c.after]
  {
    ForceMore(f, Matching(f, done), k, c);
    if Get(f, k) != c.before {
      assert Matching(f, done[k := c]) == Matching(f, done);
    } else {
      assert Matching(f, done[k := c]) == Matching(f, done)[k := c];
    }
  }

  lemma StaleMore(f: FieldMap, done: ChangeMap, k: string, c: FieldChange)
    requires k !in done
    ensures Stales(|StaleKeys(f, done[k := c])|) ==
            Stales(|StaleKeys(f, done)|) + (if Get(f, k) != c.before then [ModifyStale] else [])
  {
    var was, now := StaleKeys(f, done), StaleKeys(f, done[k := c]);
    if Get(f, k) != c.before {
      assert now == was + {k} && |now| == |was| + 1;
    } else {
      assert now == was;
    }
  }

  lemma NextKey(ch: ChangeMap, todo: set<string>, k: string)
    requires k in todo && todo <= ch.Keys
    ensures ch - (todo - {k}) == (ch - todo)[k := ch[k]] && k !in ch - todo
  {
  }

  lemma NoKeysYet(f: FieldMap, ch: ChangeMap)
    ensures ch - ch.Keys == map[] && ch - {} == ch
    ensures ForceFields(f, map[]) == f == PatchFields(f, map[])
    ensures StaleKeys(f, map[]) == {}
  {
  }

  method ForceHeader(base: FieldMap, ch: ChangeMap) returns (header: FieldMap, out: seq<Conflict>)
    ensures header == ForceFields(base, ch)
    ensures out == Stales(|StaleKeys(base, ch)|)
  {
    header, out := base, [];
    var todo := ch.Keys;
    NoKeysYet(base, ch);
    while todo != {}
      invariant todo <= ch.Keys
      invariant header == ForceFields(base, ch - todo)
      invariant out == Stales(|StaleKeys(base, ch - todo)|)
      decreases todo
    {
      var k :| k in todo;
      NextKey(ch, todo, k);
      ForceMore(base, ch - todo, k, ch[k]);
      StaleMore(base, ch - todo, k, ch[k]);
      if Get(header, k) != ch[k].before {
        out := out + [ModifyStale];
      }
      if ch[k].after == "" {
        header := header - {k};
      } else {
        header := header[k := ch[k].after];
      }
      todo := todo - {k};
    }
  }

  method PatchObject(base: FieldMap, ch: ChangeMap) returns (fields: FieldMap, out: seq<Conflict>)
    ensures fields == PatchFields(base, ch)
    ensures out == Stales(|StaleKeys(base, ch)|)
  {
    fields, out := base, [];
    var todo := ch.Keys;
    NoKeysYet(base, ch);
    while todo != {}
      invariant todo <= ch.Keys
      invariant fields == PatchFields(base, ch - todo)
      invariant out == Stales(|StaleKeys(base, ch - todo)|)
      decreases todo
    {
      var k :| k in todo;
      NextKey(ch, todo, k);
      PatchMore(base, ch - todo, k, ch[k]);
      StaleMore(base, ch - todo, k, ch[k]);
      todo := todo - {k};
      if Get(fields, k) != ch[k].before {
        out := out + [ModifyStale];
        continue;
      }
      if ch[k].after == "" {
        fields := fields - {k};
      } else {
        fields := fields[k := ch[k].after];
      }
    }
  }

  lemma ApplyAdd(objs: ObjectMap, o: Object)
    ensures ApplyOp(objs, AddOp(o)) == if o.uuid in objs then objs else objs[o.uuid := o]
  {
    if o.uuid in objs {
      assert objs[o.uuid := objs[o.uuid]] == objs;
    }
  }

  lemma ApplyRemove(objs: ObjectMap, o: Object)
    ensures ApplyOp(objs, RemoveOp(o)) == if o.uuid in objs then objs - {o.uuid} else objs
  {
    if o.uuid !in objs {
      assert objs - {o.uuid} == objs;
    }
  }

  lemma ApplyModify(objs: ObjectMap, m: Modify)
    ensures ApplyOp(objs, ModifyOp(m)) ==
            if m.uuid in objs then objs[m.uuid := Object(m.uuid, PatchFields(objs[m.uuid].fields, m.fields))] else objs
  {
    if m.uuid !in objs {
      assert objs - {m.uuid} == objs;
    }
  }

  method ApplyDelta(base: LevelState, d: Delta) returns (r: LevelState, out: seq<Conflict>)
    ensures r == Apply(base, d) && out == Conflicts(base, d)
  {
    var header, rawHeader;
    header, rawHeader, out := ApplyHeader(base, d);
    var objects, c1 := RunAdds(base.objects, d.adds);
    var c2, c3;
    objects, c2 := RunRemoves(objects, d.removes);
    objects, c3 := RunModifies(objects, d.changed);
    OpsInParts(base.objects, d);
    r, out := LevelState(rawHeader, header, objects), out + (c1 + (c2 + c3));
  }

  /** The header map and the raw header, which a change replaces as a whole. */
  method ApplyHeader(base: LevelState, d: Delta) returns (header: FieldMap, rawHeader: string, out: seq<Conflict>)
    ensures header == ForceFields(base.header, d.headerChanges)
    ensures rawHeader == if d.rawHeaderChange.Some? then d.rawHeaderChange.value.after else base.rawHeader
    ensures out == HeaderConflicts(base, d)
  {
    header, out := ForceHeader(base.header, d.headerChanges);
    rawHeader := base.rawHeader;
    if d.rawHeaderChange.Some? {
      if rawHeader != d.rawHeaderChange.value.before {
        out := out + [ModifyStale];
      }
      rawHeader := d.rawHeaderChange.value.after;
    }
  }

  /** Adds, then removes, then modifies. */
  lemma OpsInParts(objs: ObjectMap, d: Delta)
    ensures var adds, removes, changes := AddOps(d.adds), RemoveOps(d.removes), ModifyOps(d.changed);
            var added := RunOps(objs, adds);
            var left := RunOps(added, removes);
            && RunOps(objs, Ops(d)) == RunOps(left, changes)
            && OpConflicts(objs, Ops(d)) ==
               OpConflicts(objs, adds) + (OpConflicts(added, removes) + OpConflicts(left, changes))
  {
    var adds, removes, changes := AddOps(d.adds), RemoveOps(d.removes), ModifyOps(d.changed);
    RunOpsConcat(objs, adds, removes + changes);
    OpConflictsConcat(objs, adds, removes + changes);
    RunOpsConcat(RunOps(objs, adds), removes, changes);
    OpConflictsConcat(RunOps(objs, adds), removes, changes);
  }

  lemma {:induction false} RunOpsConcat(objs: ObjectMap, a: seq<Op>, b: seq<Op>)
    ensures RunOps(objs, a + b) == RunOps(RunOps(objs, a), b)
    decreases |a|
  {
    if a == [] {
      assert a + b == b;
    } else {
      assert (a + b)[0] == a[0] && (a + b)[1..] == a[1..] + b;
      RunOpsConcat(ApplyOp(objs, a[0]), a[1..], b);
    }
  }

  lemma {:induction false} OpConflictsConcat(objs: ObjectMap, a: seq<Op>, b: seq<Op>)
    ensures OpConflicts(objs, a + b) == OpConflicts(objs, a) + OpConflicts(RunOps(objs, a), b)
    decreases |a|
  {
    if a == [] {
      assert a + b == b;
    } else {
      var next, rest := ApplyOp(objs, a[0]), a[1..];
      assert (a + b)[0] == a[0] && (a + b)[1..] == rest + b;
      OpConflictsConcat(next, rest, b);
      var r, x, y := OpReports(objs, a[0]), OpConflicts(next, rest), OpConflicts(RunOps(next, rest), b);
      assert OpConflicts(objs, a + b) == r + (x + y);
      assert OpConflicts(objs, a) == r + x;
      assert r + (x + y) == (r + x) + y;
    }
  }

  /** Where a loop over the entries stands: `objs` and `out` so far, entries `i..` still to come. */
  ghost predicate AtOp(base: ObjectMap, ops: seq<Op>, i: nat, objs: ObjectMap, out: seq<Conflict>)
    requires i <= |ops|
  {
    RunOps(objs, ops[i..]) == RunOps(base, ops) && out + OpConflicts(objs, ops[i..]) == OpConflicts(base, ops)
  }

  lemma NextOp(base: ObjectMap, ops: seq<Op>, i: nat, objs: ObjectMap, out: seq<Conflict>)
    requires i < |ops| && AtOp(base, ops, i, objs, out)
    ensures AtOp(base, ops, i + 1, ApplyOp(objs, ops[i]), out + OpReports(objs, ops[i]))
  {
    var rest, next := ops[i..], ApplyOp(objs, ops[i]);
    assert rest[0] == ops[i] && rest[1..] == ops[i + 1..];
    assert OpConflicts(objs, rest) == OpReports(objs, ops[i]) + OpConflicts(next, ops[i + 1..]);
    assert out + (OpReports(objs, ops[i]) + OpConflicts(next, ops[i + 1..])) ==
           (out + OpReports(objs, ops[i])) + OpConflicts(next, ops[i + 1..]);
  }

  method RunAdds(base: ObjectMap, adds: seq<Object>) returns (objects: ObjectMap, out: seq<Conflict>)
    ensures objects == RunOps(base, AddOps(adds)) && out == OpConflicts(base, AddOps(adds))
  {
    objects, out := base, [];
    ghost var ops := AddOps(adds);
    for i := 0 to |adds|
      invariant AtOp(base, ops, i, objects, out)
    {
      var o := adds[i];
      ApplyAdd(objects, o);
      NextOp(base, ops, i, objects, out);
      assert out + [] == out;
      if o.uuid in objects {
        out := out + [AddAlreadyExists];
      } else {
        objects := objects[o.uuid := o];
      }
    }
  }

  method RunRemoves(base: ObjectMap, removes: seq<Object>) returns (objects: ObjectMap, out: seq<Conflict>)
    ensures objects == RunOps(base, RemoveOps(removes)) && out == OpConflicts(base, RemoveOps(removes))
  {
    objects, out := base, [];
    ghost var ops := RemoveOps(removes);
    for i := 0 to |removes|
      invariant AtOp(base, ops, i, objects, out)
    {
      var o := removes[i];
      ApplyRemove(objects, o);
      NextOp(base, ops, i, objects, out);
      assert out + [] == out;
      if o.uuid !in objects {
        out := out + [Missing];
      } else {
        objects := objects - {o.uuid};
      }
    }
  }

  method RunModifies(base: ObjectMap, changed: seq<Modify>) returns (objects: ObjectMap, out: seq<Conflict>)
    ensures objects == RunOps(base, ModifyOps(changed)) && out == OpConflicts(base, ModifyOps(changed))
  {
    objects, out := base, [];
    ghost var ops := ModifyOps(changed);
    for i := 0 to |changed|
      invariant AtOp(base, ops, i, objects, out)
    {
      var o := changed[i];
      ApplyModify(objects, o);
      NextOp(base, ops, i, objects, out);
      assert out + [] == out;
      if o.uuid !in objects {
        out := out + [Missing];
      } else {
        var fields, stale := PatchObject(objects[o.uuid].fields, o.fields);
        out := out + stale;
        objects := objects[o.uuid := Object(o.uuid, fields)];
      }
    }
  }
}
