/** Laws of `diff` and `apply`: round trip, congruence, and what an undo delta does to another state. */
module DifferLaws {
  import opened Prelude
  import opened LevelModel
  import opened Differ

  // ---------------------------------------------------------------- fields

  lemma GetForce(f: FieldMap, ch: ChangeMap, k: string)
    ensures Get(ForceFields(f, ch), k) == if k in ch then ch[k].after else Get(f, k)
  {
  }

  lemma GetPatch(f: FieldMap, ch: ChangeMap, k: string)
    ensures Get(PatchFields(f, ch), k) == if k in ch && Get(f, k) == ch[k].before then ch[k].after else Get(f, k)
  {
    GetForce(f, Matching(f, ch), k);
  }

  lemma ForceCongruent(a: FieldMap, b: FieldMap, ch: ChangeMap)
    requires SameFields(a, b)
    ensures SameFields(ForceFields(a, ch), ForceFields(b, ch))
  {
    SameFieldsIff(a, b);
    forall k ensures Get(ForceFields(a, ch), k) == Get(ForceFields(b, ch), k) {
      GetForce(a, ch, k);
      GetForce(b, ch, k);
    }
    SameFieldsIff(ForceFields(a, ch), ForceFields(b, ch));
  }

  /** Forcing or patching cannot tell an empty value from a missing one. */
  lemma FieldsCongruent(a: FieldMap, b: FieldMap, ch: ChangeMap)
    requires SameFields(a, b)
    ensures SameFields(ForceFields(a, ch), ForceFields(b, ch))
    ensures SameFields(PatchFields(a, ch), PatchFields(b, ch))
    ensures StaleKeys(a, ch) == StaleKeys(b, ch)
  {
    SameFieldsIff(a, b);
    assert Matching(a, ch) == Matching(b, ch);
    ForceCongruent(a, b, ch);
    ForceCongruent(a, b, Matching(a, ch));
  }

  lemma DiffFieldsApply(a: FieldMap, b: FieldMap)
    ensures SameFields(ForceFields(a, DiffFields(a, b)), b)
    ensures PatchFields(a, DiffFields(a, b)) == ForceFields(a, DiffFields(a, b))
    ensures StaleKeys(a, DiffFields(a, b)) == {}
    ensures NoEmptyField(b) ==> ForceFields(a, DiffFields(a, b)) == b
  {
    var ch := DiffFields(a, b);
    forall k ensures Get(ForceFields(a, ch), k) == Get(b, k) {
      GetForce(a, ch, k);
    }
    SameFieldsIff(ForceFields(a, ch), b);
    assert Matching(a, ch) == ch;
    if NoEmptyField(b) {
      forall k ensures k in ForceFields(a, ch) <==> k in b {
        GetForce(a, ch, k);
      }
      forall k | k in b ensures ForceFields(a, ch)[k] == b[k] {
        GetForce(a, ch, k);
      }
    }
  }

  lemma DiffFieldsEmpty(a: FieldMap, b: FieldMap)
    ensures DiffFields(a, b) == map[] <==> a == b
  {
    if DiffFields(a, b) == map[] {
      forall k ensures k in a <==> k in b {
        assert k !in DiffFields(a, b);
      }
      forall k | k in a ensures a[k] == b[k] {
        assert k !in DiffFields(a, b);
      }
    }
  }

  // ---------------------------------------------------------------- congruence of apply

  /** "Same up to empty fields" for what is stored under one id. */
  ghost predicate SameSlot(a: Option<Object>, b: Option<Object>) {
    (a.Some? <==> b.Some?) && (a.Some? ==> a.value.uuid == b.value.uuid && SameFields(a.value.fields, b.value.fields))
  }

  lemma OpCongruent(op: Op, a: Option<Object>, b: Option<Object>)
    requires SameSlot(a, b) && (a.Some? ==> a.value.uuid == op.Id())
    ensures SameSlot(op.Effect(a), op.Effect(b)) && op.Reports(a) == op.Reports(b)
  {
    if op.ModifyOp? && a.Some? {
      FieldsCongruent(a.value.fields, b.value.fields, op.m.fields);
    }
  }

  lemma ApplyOpCongruent(a: ObjectMap, b: ObjectMap, op: Op)
    requires SameObjects(a, b)
    ensures SameObjects(ApplyOp(a, op), ApplyOp(b, op)) && OpReports(a, op) == OpReports(b, op)
  {
    OpCongruent(op, Lookup(a, op.Id()), Lookup(b, op.Id()));
  }

  lemma {:induction false} RunOpsCongruent(a: ObjectMap, b: ObjectMap, ops: seq<Op>)
    requires SameObjects(a, b)
    ensures SameObjects(RunOps(a, ops), RunOps(b, ops))
    ensures OpConflicts(a, ops) == OpConflicts(b, ops)
    decreases |ops|
  {
    if ops != [] {
      ApplyOpCongruent(a, b, ops[0]);
      RunOpsCongruent(ApplyOp(a, ops[0]), ApplyOp(b, ops[0]), ops[1..]);
    }
  }

  /** Any delta at all maps states equal up to empty fields to such states, with the same conflicts. */
  lemma ApplyCongruent(a: LevelState, b: LevelState, d: Delta)
    requires SameState(a, b)
    ensures SameState(Apply(a, d), Apply(b, d)) && Conflicts(a, d) == Conflicts(b, d)
  {
    SameStateIff(a, b);
    FieldsCongruent(a.header, b.header, d.headerChanges);
    RunOpsCongruent(a.objects, b.objects, Ops(d));
    SameStateIff(Apply(a, d), Apply(b, d));
  }

  // ---------------------------------------------------------------- entries with distinct ids

  ghost predicate DistinctOps(ops: seq<Op>) {
    forall i, j :: 0 <= i < j < |ops| ==> ops[i].Id() != ops[j].Id()
  }

  lemma {:induction false} Untouched(objs: ObjectMap, ops: seq<Op>, u: Uuid)
    requires forall op :: op in ops ==> op.Id() != u
    ensures Lookup(RunOps(objs, ops), u) == Lookup(objs, u)
    decreases |ops|
  {
    if ops != [] {
      Untouched(ApplyOp(objs, ops[0]), ops[1..], u);
    }
  }

  lemma {:induction false} TouchedOnce(objs: ObjectMap, ops: seq<Op>, i: nat)
    requires DistinctOps(ops) && i < |ops|
    ensures Lookup(RunOps(objs, ops), ops[i].Id()) == ops[i].Effect(Lookup(objs, ops[i].Id()))
    decreases |ops|
  {
    if i == 0 {
      Untouched(ApplyOp(objs, ops[0]), ops[1..], ops[0].Id());
    } else {
      assert ops[0].Id() != ops[i].Id();
      TouchedOnce(ApplyOp(objs, ops[0]), ops[1..], i - 1);
    }
  }

  lemma {:induction false} QuietIff(objs: ObjectMap, ops: seq<Op>)
    requires DistinctOps(ops)
    ensures OpConflicts(objs, ops) == [] <==> forall i :: 0 <= i < |ops| ==> OpReports(objs, ops[i]) == []
    decreases |ops|
  {
    if ops != [] {
      var next, rest := ApplyOp(objs, ops[0]), ops[1..];
      QuietIff(next, rest);
      forall i | 1 <= i < |ops| ensures OpReports(objs, ops[i]) == OpReports(next, rest[i - 1]) {
        assert ops[0].Id() != ops[i].Id();
        assert Lookup(next, ops[i].Id()) == Lookup(objs, ops[i].Id());
      }
      if OpConflicts(objs, ops) == [] {
        assert OpReports(objs, ops[0]) == [] && OpConflicts(next, rest) == [];
        forall i | 0 <= i < |ops| ensures OpReports(objs, ops[i]) == [] {
          if i > 0 { assert OpReports(next, rest[i - 1]) == []; }
        }
      }
    }
  }

  /** The entry a diff holds for an id, if any. */
  function EntryFor(prev: ObjectMap, next: ObjectMap, u: Uuid): Option<Op> {
    if u !in prev && u in next then Some(AddOp(next[u]))
    else if u in prev && u !in next then Some(RemoveOp(prev[u]))
    else if u in prev && u in next && prev[u].fields != next[u].fields
    then Some(ModifyOp(Modify(u, DiffFields(prev[u].fields, next[u].fields))))
    else None
  }

  lemma DiffOps(prev: LevelState, next: LevelState, d: Delta)
    requires IsDiff(prev, next, d)
    ensures forall op :: op in Ops(d) <==> EntryFor(prev.objects, next.objects, op.Id()) == Some(op)
  {
    forall op | op in Ops(d) ensures EntryFor(prev.objects, next.objects, op.Id()) == Some(op) {
      DiffOpsSound(prev, next, d, op);
    }
    forall op: Op | EntryFor(prev.objects, next.objects, op.Id()) == Some(op) ensures op in Ops(d) {
      DiffOpsComplete(prev, next, d, op);
    }
  }

  lemma OpsMembers(d: Delta, op: Op)
    ensures op in Ops(d) <==> op in AddOps(d.adds) || op in RemoveOps(d.removes) || op in ModifyOps(d.changed)
    ensures op in AddOps(d.adds) <==> op.AddOp? && op.o in d.adds
    ensures op in RemoveOps(d.removes) <==> op.RemoveOp? && op.o in d.removes
    ensures op in ModifyOps(d.changed) <==> op.ModifyOp? && op.m in d.changed
  {
    if op.AddOp? && op.o in d.adds {
      var i :| 0 <= i < |d.adds| && d.adds[i] == op.o;
      assert AddOps(d.adds)[i] == op;
    }
    if op.RemoveOp? && op.o in d.removes {
      var i :| 0 <= i < |d.removes| && d.removes[i] == op.o;
      assert RemoveOps(d.removes)[i] == op;
    }
    if op.ModifyOp? && op.m in d.changed {
      var i :| 0 <= i < |d.changed| && d.changed[i] == op.m;
      assert ModifyOps(d.changed)[i] == op;
    }
  }

  lemma DiffOpsSound(prev: LevelState, next: LevelState, d: Delta, op: Op)
    requires IsDiff(prev, next, d) && op in Ops(d)
    ensures EntryFor(prev.objects, next.objects, op.Id()) == Some(op)
  {
    OpsMembers(d, op);
    if op.ModifyOp? {
      assert IsModifyOf(prev.objects, next.objects, op.m);
      DiffFieldsEmpty(prev.objects[op.Id()].fields, next.objects[op.Id()].fields);
    }
  }

  lemma DiffOpsComplete(prev: LevelState, next: LevelState, d: Delta, op: Op)
    requires IsDiff(prev, next, d) && EntryFor(prev.objects, next.objects, op.Id()) == Some(op)
    ensures op in Ops(d)
  {
    OpsMembers(d, op);
    if op.ModifyOp? {
      DiffFieldsEmpty(prev.objects[op.Id()].fields, next.objects[op.Id()].fields);
      assert IsModifyOf(prev.objects, next.objects, op.m);
    }
  }

  lemma DiffOpsDistinct(prev: LevelState, next: LevelState, d: Delta)
    requires IsDiff(prev, next, d)
    ensures DistinctOps(Ops(d))
  {
    var ops := Ops(d);
    forall i, j | 0 <= i < j < |ops| ensures ops[i].Id() != ops[j].Id() {
      DiffOpsSound(prev, next, d, ops[i]);
      DiffOpsSound(prev, next, d, ops[j]);
    }
  }

  /** What a diff made elsewhere does to one id of any state. */
  lemma DiffSlot(prev: LevelState, next: LevelState, d: Delta, objs: ObjectMap, u: Uuid)
    requires IsDiff(prev, next, d)
    ensures var e := EntryFor(prev.objects, next.objects, u);
            Lookup(RunOps(objs, Ops(d)), u) == if e.None? then Lookup(objs, u) else e.value.Effect(Lookup(objs, u))
  {
    DiffOps(prev, next, d);
    DiffOpsDistinct(prev, next, d);
    var e := EntryFor(prev.objects, next.objects, u);
    if e.None? {
      Untouched(objs, Ops(d), u);
    } else {
      var i :| 0 <= i < |Ops(d)| && Ops(d)[i] == e.value;
      TouchedOnce(objs, Ops(d), i);
    }
  }

  /** The diff's entry for this id, if any, reports nothing against `objs`. */
  ghost predicate QuietAt(prev: ObjectMap, next: ObjectMap, objs: ObjectMap, u: Uuid) {
    var e := EntryFor(prev, next, u);
    e.Some? ==> OpReports(objs, e.value) == []
  }

  lemma DiffQuiet(prev: LevelState, next: LevelState, d: Delta, objs: ObjectMap)
    requires IsDiff(prev, next, d)
    ensures OpConflicts(objs, Ops(d)) == [] <==> forall u :: QuietAt(prev.objects, next.objects, objs, u)
  {
    DiffOps(prev, next, d);
    DiffOpsDistinct(prev, next, d);
    QuietIff(objs, Ops(d));
    QuietEntries(prev.objects, next.objects, objs, Ops(d));
  }

  lemma QuietEntries(prev: ObjectMap, next: ObjectMap, objs: ObjectMap, ops: seq<Op>)
    requires forall op :: op in ops <==> EntryFor(prev, next, op.Id()) == Some(op)
    ensures (forall i :: 0 <= i < |ops| ==> OpReports(objs, ops[i]) == []) <==> forall u :: QuietAt(prev, next, objs, u)
  {
    if forall i :: 0 <= i < |ops| ==> OpReports(objs, ops[i]) == [] {
      forall u ensures QuietAt(prev, next, objs, u) {
        var e := EntryFor(prev, next, u);
        if e.Some? {
          assert e.value in ops;
        }
      }
    }
    if forall u :: QuietAt(prev, next, objs, u) {
      forall i | 0 <= i < |ops| ensures OpReports(objs, ops[i]) == [] {
        assert ops[i] in ops;
        assert QuietAt(prev, next, objs, ops[i].Id());
      }
    }
  }

  // ---------------------------------------------------------------- diff then apply

  lemma DiffApplySlot(prev: LevelState, next: LevelState, d: Delta, u: Uuid)
    requires IsDiff(prev, next, d)
    ensures SameSlot(Lookup(RunOps(prev.objects, Ops(d)), u), Lookup(next.objects, u))
    ensures NoEmpty(next) ==> Lookup(RunOps(prev.objects, Ops(d)), u) == Lookup(next.objects, u)
  {
    DiffSlot(prev, next, d, prev.objects, u);
    if u in prev.objects && u in next.objects {
      DiffFieldsApply(prev.objects[u].fields, next.objects[u].fields);
    }
  }

  lemma OwnEntryQuiet(prev: ObjectMap, next: ObjectMap, u: Uuid)
    ensures QuietAt(prev, next, prev, u)
  {
    if u in prev && u in next {
      DiffFieldsApply(prev[u].fields, next[u].fields);
    }
  }

  /** Replaying a diff gives the target back up to empty fields, and silently. */
  lemma DiffApply(prev: LevelState, next: LevelState, d: Delta)
    requires IsDiff(prev, next, d)
    ensures SameState(Apply(prev, d), next) && Conflicts(prev, d) == []
    ensures NoEmpty(next) ==> Apply(prev, d) == next
  {
    var objs := RunOps(prev.objects, Ops(d));
    DiffFieldsApply(prev.header, next.header);
    forall u
      ensures SameSlot(Lookup(objs, u), Lookup(next.objects, u))
      ensures NoEmpty(next) ==> Lookup(objs, u) == Lookup(next.objects, u)
      ensures QuietAt(prev.objects, next.objects, prev.objects, u)
    {
      DiffApplySlot(prev, next, d, u);
      OwnEntryQuiet(prev.objects, next.objects, u);
    }
    SlotsMakeObjects(objs, next.objects);
    SameStateIff(Apply(prev, d), next);
    DiffQuiet(prev, next, d, prev.objects);
    if NoEmpty(next) {
      SlotsMakeEqual(objs, next.objects);
    }
  }

  lemma SlotsMakeObjects(a: ObjectMap, b: ObjectMap)
    requires forall u :: SameSlot(Lookup(a, u), Lookup(b, u))
    ensures SameObjects(a, b)
  {
    forall u: Uuid ensures u in a <==> u in b {
      assert SameSlot(Lookup(a, u), Lookup(b, u));
    }
    forall u | u in a ensures SameFields(a[u].fields, b[u].fields) {
      assert SameSlot(Lookup(a, u), Lookup(b, u));
    }
  }

  lemma SlotsMakeEqual(a: ObjectMap, b: ObjectMap)
    requires forall u :: Lookup(a, u) == Lookup(b, u)
    ensures a == b
  {
    forall u: Uuid ensures u in a <==> u in b {
      assert Lookup(a, u) == Lookup(b, u);
    }
    forall u | u in a ensures a[u] == b[u] {
      assert Lookup(a, u) == Lookup(b, u);
    }
  }

  /** The same, from a start that only agrees up to empty fields: what replaying a stored delta relies on. */
  lemma DiffReplay(start: LevelState, prev: LevelState, next: LevelState, d: Delta)
    requires IsDiff(prev, next, d) && SameState(start, prev)
    ensures SameState(Apply(start, d), next)
  {
    DiffApply(prev, next, d);
    ApplyCongruent(start, prev, d);
  }

  // ---------------------------------------------------------------- no empty values

  ghost predicate DeltaNoEmpty(d: Delta) {
    forall o :: o in d.adds ==> NoEmptyField(o.fields)
  }

  lemma {:induction false} RunOpsNoEmpty(objs: ObjectMap, ops: seq<Op>)
    requires forall u :: u in objs ==> NoEmptyField(objs[u].fields)
    requires forall op :: op in ops && op.AddOp? ==> NoEmptyField(op.o.fields)
    ensures forall u :: u in RunOps(objs, ops) ==> NoEmptyField(RunOps(objs, ops)[u].fields)
    decreases |ops|
  {
    if ops != [] {
      assert ops[0] in ops;
      RunOpsNoEmpty(ApplyOp(objs, ops[0]), ops[1..]);
    }
  }

  lemma ApplyNoEmpty(base: LevelState, d: Delta)
    requires NoEmpty(base) && DeltaNoEmpty(d)
    ensures NoEmpty(Apply(base, d))
  {
    forall op | op in Ops(d) && op.AddOp? ensures NoEmptyField(op.o.fields) {
      OpsMembers(d, op);
    }
    RunOpsNoEmpty(base.objects, Ops(d));
  }

  lemma DiffNoEmpty(prev: LevelState, next: LevelState, d: Delta)
    requires IsDiff(prev, next, d) && NoEmpty(next)
    ensures DeltaNoEmpty(d)
  {
  }

  // ---------------------------------------------------------------- an undo delta applied to another state

  /** The parent's value where the target changed the field and HEAD still has the target's value; else HEAD's. */
  function UndoneValue(t: FieldMap, p: FieldMap, h: FieldMap, k: string): string {
    if Get(t, k) != Get(p, k) && Get(h, k) == Get(t, k) then Get(p, k) else Get(h, k)
  }

  /**
   * Applying diff(target, parent) to HEAD, object by object: what target created goes, what it removed comes
   * back unless HEAD has it again, and a changed object gets the parent's value in exactly the fields that
   * still hold the target's value; everything else is HEAD's.
   */
  lemma RevertObjects(target: LevelState, parent: LevelState, head: LevelState, d: Delta, u: Uuid)
    requires IsDiff(target, parent, d)
    ensures var t, p, h, r := target.objects, parent.objects, head.objects, Apply(head, d).objects;
            && (u in t && u !in p ==> u !in r)
            && (u !in t && u in p ==> Lookup(r, u) == if u in h then Some(h[u]) else Some(p[u]))
            && (u !in t && u !in p ==> Lookup(r, u) == Lookup(h, u))
            && (u in t && u in p ==> (u in r <==> u in h))
            && (u in t && u in p && t[u].fields == p[u].fields ==> Lookup(r, u) == Lookup(h, u))
            && (u in t && u in p && u in h ==>
                  forall k :: Get(r[u].fields, k) == UndoneValue(t[u].fields, p[u].fields, h[u].fields, k))
  {
    DiffSlot(target, parent, d, head.objects, u);
    var t, p, h, r := target.objects, parent.objects, head.objects, Apply(head, d).objects;
    if u in t && u in p && t[u].fields != p[u].fields && u in h {
      assert r[u].fields == PatchFields(h[u].fields, DiffFields(t[u].fields, p[u].fields));
      UndoneFields(t[u].fields, p[u].fields, h[u].fields);
    }
  }

  lemma UndoneFields(t: FieldMap, p: FieldMap, h: FieldMap)
    ensures forall k :: Get(PatchFields(h, DiffFields(t, p)), k) == UndoneValue(t, p, h, k)
  {
    forall k ensures Get(PatchFields(h, DiffFields(t, p)), k) == UndoneValue(t, p, h, k) {
      GetPatch(h, DiffFields(t, p), k);
    }
  }

  /** A header key that one side lacks and the other holds with an empty value. */
  ghost predicate PhantomKey(a: FieldMap, b: FieldMap, k: string) {
    Get(a, k) == Get(b, k) && !(k in a <==> k in b)
  }

  /** "Parent's value where target changed it, HEAD's value elsewhere", for one header key. */
  ghost predicate UndoneAt(target: FieldMap, parent: FieldMap, head: FieldMap, result: FieldMap, k: string) {
    Get(result, k) == if Get(target, k) != Get(parent, k) then Get(parent, k) else Get(head, k)
  }

  ghost predicate PhantomHit(target: FieldMap, parent: FieldMap, head: FieldMap, k: string) {
    PhantomKey(target, parent, k) && Get(head, k) != ""
  }

  lemma RevertHeaderAt(target: FieldMap, parent: FieldMap, head: FieldMap, k: string)
    ensures UndoneAt(target, parent, head, ForceFields(head, DiffFields(target, parent)), k)
            <==> !PhantomHit(target, parent, head, k)
  {
    GetForce(head, DiffFields(target, parent), k);
  }

  /**
   * In the header map every change is forced. The result is "parent's value where target changed it, HEAD's value
   * elsewhere" exactly when no phantom key carries a value in HEAD: such a key counts as changed, so HEAD loses it.
   */
  lemma RevertHeader(target: LevelState, parent: LevelState, head: LevelState, d: Delta)
    requires IsDiff(target, parent, d)
    ensures (forall k :: UndoneAt(target.header, parent.header, head.header, Apply(head, d).header, k))
            <==> (forall k :: !PhantomHit(target.header, parent.header, head.header, k))
  {
    forall k
      ensures UndoneAt(target.header, parent.header, head.header, Apply(head, d).header, k)
              <==> !PhantomHit(target.header, parent.header, head.header, k)
    {
      RevertHeaderAt(target.header, parent.header, head.header, k);
    }
  }

  /** A header that loses a value nobody changed. */
  lemma RevertHeaderCounterexample() returns (target: LevelState, parent: LevelState, head: LevelState, d: Delta)
    ensures IsDiff(target, parent, d)
    ensures SameState(target, parent)
    ensures Get(head.header, "kA1") == "5" && Get(Apply(head, d).header, "kA1") == ""
  {
    target := LevelState("", map["kA1" := ""], map[]);
    parent := EMPTY_STATE;
    head := LevelState("", map["kA1" := "5"], map[]);
    d := Delta(map["kA1" := FieldChange("", "")], None, [], [], []);
    assert DiffFields(target.header, parent.header) == d.headerChanges;
    SameFieldsIff(target.header, parent.header);
    SameStateIff(target, parent);
    assert "kA1" in d.headerChanges;
    GetForce(head.header, d.headerChanges, "kA1");
  }

  /** Does HEAD still hold the target's value in every field the undo touches? */
  ghost predicate FieldsStill(t: FieldMap, p: FieldMap, h: FieldMap) {
    forall k :: k in DiffFields(t, p) ==> Get(h, k) == Get(t, k)
  }

  /** What the undo expects to find in HEAD under one id. */
  ghost predicate SlotStill(t: ObjectMap, p: ObjectMap, h: ObjectMap, u: Uuid) {
    && (u in p && u !in t ==> u !in h)
    && (u in t && u !in p ==> u in h)
    && (u in t && u in p && t[u].fields != p[u].fields ==>
          u in h && FieldsStill(t[u].fields, p[u].fields, h[u].fields))
  }

  lemma SlotStillIff(t: ObjectMap, p: ObjectMap, h: ObjectMap, u: Uuid)
    ensures QuietAt(t, p, h, u) <==> SlotStill(t, p, h, u)
  {
    if u in t && u in p && t[u].fields != p[u].fields && u in h {
      StaleEmpty(h[u].fields, DiffFields(t[u].fields, p[u].fields));
    }
  }

  lemma ObjectsSilentIff(target: LevelState, parent: LevelState, objs: ObjectMap, d: Delta)
    requires IsDiff(target, parent, d)
    ensures OpConflicts(objs, Ops(d)) == [] <==> forall u :: SlotStill(target.objects, parent.objects, objs, u)
  {
    forall u
      ensures QuietAt(target.objects, parent.objects, objs, u) <==> SlotStill(target.objects, parent.objects, objs, u)
    {
      SlotStillIff(target.objects, parent.objects, objs, u);
    }
    DiffQuiet(target, parent, d, objs);
  }

  lemma HeaderSilentIff(target: LevelState, parent: LevelState, head: LevelState, d: Delta)
    requires d.headerChanges == DiffFields(target.header, parent.header)
    requires d.rawHeaderChange == if target.rawHeader != parent.rawHeader
                                  then Some(FieldChange(target.rawHeader, parent.rawHeader)) else None
    ensures HeaderConflicts(head, d) == [] <==>
            && FieldsStill(target.header, parent.header, head.header)
            && (target.rawHeader != parent.rawHeader ==> head.rawHeader == target.rawHeader)
  {
    StaleEmpty(head.header, d.headerChanges);
  }

  /** Conflicts are reported exactly when HEAD differs, somewhere the undo looks, from what the target left. */
  lemma RevertSilentIff(target: LevelState, parent: LevelState, head: LevelState, d: Delta)
    requires IsDiff(target, parent, d)
    ensures Conflicts(head, d) == [] <==>
            && FieldsStill(target.header, parent.header, head.header)
            && (target.rawHeader != parent.rawHeader ==> head.rawHeader == target.rawHeader)
            && (forall u :: SlotStill(target.objects, parent.objects, head.objects, u))
  {
    HeaderSilentIff(target, parent, head, d);
    ObjectsSilentIff(target, parent, head.objects, d);
    BothEmpty(HeaderConflicts(head, d), OpConflicts(head.objects, Ops(d)));
  }

  // ---------------------------------------------------------------- the kinds of conflict

  lemma {:induction false} ReportedBy(objs: ObjectMap, ops: seq<Op>, c: Conflict)
    requires DistinctOps(ops)
    ensures c in OpConflicts(objs, ops) <==> exists i :: 0 <= i < |ops| && c in OpReports(objs, ops[i])
    decreases |ops|
  {
    if ops != [] {
      var next, rest := ApplyOp(objs, ops[0]), ops[1..];
      ReportedBy(next, rest, c);
      forall i | 1 <= i < |ops| ensures OpReports(objs, ops[i]) == OpReports(next, rest[i - 1]) {
        assert ops[0].Id() != ops[i].Id();
        assert Lookup(next, ops[i].Id()) == Lookup(objs, ops[i].Id());
      }
      if i :| 0 <= i < |ops| && c in OpReports(objs, ops[i]) {
        assert i > 0 ==> c in OpReports(next, rest[i - 1]);
      }
      if c in OpConflicts(next, rest) {
        var i :| 0 <= i < |rest| && c in OpReports(next, rest[i]);
        assert c in OpReports(objs, ops[i + 1]);
      }
    }
  }

  /** A diff's report of one kind comes from its entry for some id. */
  lemma ReportedAt(prev: LevelState, next: LevelState, d: Delta, objs: ObjectMap, c: Conflict)
    requires IsDiff(prev, next, d)
    ensures c in OpConflicts(objs, Ops(d)) <==>
              exists u :: EntryReports(prev.objects, next.objects, objs, u, c)
  {
    DiffOps(prev, next, d);
    DiffOpsDistinct(prev, next, d);
    ReportedBy(objs, Ops(d), c);
    ReportEntries(prev.objects, next.objects, objs, Ops(d), c);
  }

  lemma ReportEntries(prev: ObjectMap, next: ObjectMap, objs: ObjectMap, ops: seq<Op>, c: Conflict)
    requires forall op :: op in ops <==> EntryFor(prev, next, op.Id()) == Some(op)
    ensures (exists i :: 0 <= i < |ops| && c in OpReports(objs, ops[i])) <==>
              exists u :: EntryReports(prev, next, objs, u, c)
  {
    if i :| 0 <= i < |ops| && c in OpReports(objs, ops[i]) {
      assert ops[i] in ops;
      assert EntryReports(prev, next, objs, ops[i].Id(), c);
    }
    if u :| EntryReports(prev, next, objs, u, c) {
      var op := EntryFor(prev, next, u).value;
      assert op.Id() == u && op in ops;
      var i :| 0 <= i < |ops| && ops[i] == op;
    }
  }

  ghost predicate EntryReports(prev: ObjectMap, next: ObjectMap, objs: ObjectMap, u: Uuid, c: Conflict) {
    var e := EntryFor(prev, next, u);
    e.Some? && c in OpReports(objs, e.value)
  }

  lemma {:induction false} OnlyStales(n: nat, c: Conflict)
    ensures c in Stales(n) <==> c == ModifyStale && n > 0
  {
    if n > 0 {
      OnlyStales(n - 1, c);
    }
  }

  lemma StaleReported(f: FieldMap, ch: ChangeMap, c: Conflict)
    ensures c in Stales(|StaleKeys(f, ch)|) <==> c == ModifyStale && exists k :: k in ch && Get(f, k) != ch[k].before
  {
    OnlyStales(|StaleKeys(f, ch)|, c);
    StaleEmpty(f, ch);
    if |StaleKeys(f, ch)| == 0 {
      assert Stales(0) == [];
    }
  }

  /** Which kind the undo of `t` towards `p` reports for one id of HEAD. */
  lemma SlotReports(t: ObjectMap, p: ObjectMap, h: ObjectMap, u: Uuid)
    ensures EntryReports(t, p, h, u, AddAlreadyExists) <==> u in p && u !in t && u in h
    ensures EntryReports(t, p, h, u, Missing) <==> u in t && u !in h && (u !in p || t[u].fields != p[u].fields)
    ensures EntryReports(t, p, h, u, ModifyStale) <==>
              u in t && u in p && u in h && !FieldsStill(t[u].fields, p[u].fields, h[u].fields)
  {
    if u in t && u in p {
      DiffFieldsEmpty(t[u].fields, p[u].fields);
      if u in h {
        forall c: Conflict
          ensures c in Stales(|StaleKeys(h[u].fields, DiffFields(t[u].fields, p[u].fields))|) <==>
                    c == ModifyStale && !FieldsStill(t[u].fields, p[u].fields, h[u].fields)
        {
          StaleReported(h[u].fields, DiffFields(t[u].fields, p[u].fields), c);
        }
      }
    }
  }

  /**
   * The kinds of conflict a revert reports: an object to bring back that HEAD has again, one to remove or to change
   * that HEAD lacks, and a value that is not the one the target left.
   */
  lemma RevertReports(target: LevelState, parent: LevelState, head: LevelState, d: Delta)
    requires IsDiff(target, parent, d)
    ensures var t, p, h := target.objects, parent.objects, head.objects;
            && (AddAlreadyExists in Conflicts(head, d) <==> exists u :: u in p && u !in t && u in h)
            && (Missing in Conflicts(head, d) <==>
                  exists u :: u in t && u !in h && (u !in p || t[u].fields != p[u].fields))
            && (ModifyStale in Conflicts(head, d) <==>
                  || !FieldsStill(target.header, parent.header, head.header)
                  || (target.rawHeader != parent.rawHeader && head.rawHeader != target.rawHeader)
                  || exists u :: StaleAt(t, p, h, u))
  {
    AddReports(target, parent, d, head.objects);
    MissingReports(target, parent, d, head.objects);
    StaleReports(target, parent, d, head.objects);
    HeaderReports(target, parent, head, d);
  }

  lemma AddReports(target: LevelState, parent: LevelState, d: Delta, h: ObjectMap)
    requires IsDiff(target, parent, d)
    ensures var t, p := target.objects, parent.objects;
            AddAlreadyExists in OpConflicts(h, Ops(d)) <==> exists u :: u in p && u !in t && u in h
  {
    var t, p := target.objects, parent.objects;
    ReportedAt(target, parent, d, h, AddAlreadyExists);
    forall u ensures EntryReports(t, p, h, u, AddAlreadyExists) <==> u in p && u !in t && u in h {
      SlotReports(t, p, h, u);
    }
  }

  lemma MissingReports(target: LevelState, parent: LevelState, d: Delta, h: ObjectMap)
    requires IsDiff(target, parent, d)
    ensures var t, p := target.objects, parent.objects;
            Missing in OpConflicts(h, Ops(d)) <==>
              exists u :: u in t && u !in h && (u !in p || t[u].fields != p[u].fields)
  {
    var t, p := target.objects, parent.objects;
    ReportedAt(target, parent, d, h, Missing);
    forall u
      ensures EntryReports(t, p, h, u, Missing) <==> u in t && u !in h && (u !in p || t[u].fields != p[u].fields)
    {
      SlotReports(t, p, h, u);
    }
  }

  ghost predicate StaleAt(t: ObjectMap, p: ObjectMap, h: ObjectMap, u: Uuid) {
    u in t && u in p && u in h && !FieldsStill(t[u].fields, p[u].fields, h[u].fields)
  }

  lemma StaleReports(target: LevelState, parent: LevelState, d: Delta, h: ObjectMap)
    requires IsDiff(target, parent, d)
    ensures var t, p := target.objects, parent.objects;
            ModifyStale in OpConflicts(h, Ops(d)) <==> exists u :: StaleAt(t, p, h, u)
  {
    var t, p := target.objects, parent.objects;
    ReportedAt(target, parent, d, h, ModifyStale);
    forall u ensures EntryReports(t, p, h, u, ModifyStale) <==> StaleAt(t, p, h, u) {
      SlotReports(t, p, h, u);
    }
  }

  lemma HeaderReports(target: LevelState, parent: LevelState, head: LevelState, d: Delta)
    requires IsDiff(target, parent, d)
    ensures AddAlreadyExists !in HeaderConflicts(head, d) && Missing !in HeaderConflicts(head, d)
    ensures ModifyStale in HeaderConflicts(head, d) <==>
            || !FieldsStill(target.header, parent.header, head.header)
            || (target.rawHeader != parent.rawHeader && head.rawHeader != target.rawHeader)
  {
    StaleReported(head.header, d.headerChanges, AddAlreadyExists);
    StaleReported(head.header, d.headerChanges, Missing);
    StaleReported(head.header, d.headerChanges, ModifyStale);
  }

  // ---------------------------------------------------------------- a removed id is gone

  lemma {:induction false} RemovesWin(objs: ObjectMap, ops: seq<Op>, u: Uuid)
    requires forall i :: 0 <= i < |ops| ==> !ops[i].AddOp?
    requires u !in objs || exists i :: 0 <= i < |ops| && ops[i].RemoveOp? && ops[i].o.uuid == u
    ensures u !in RunOps(objs, ops)
    decreases |ops|
  {
    if ops != [] {
      if i :| 0 <= i < |ops| && ops[i].RemoveOp? && ops[i].o.uuid == u && i > 0 {
        assert ops[1..][i - 1] == ops[i];
      }
      RemovesWin(ApplyOp(objs, ops[0]), ops[1..], u);
    }
  }

  /** Whatever a delta adds or changes, an id it removes is gone. */
  lemma RemovedIsGone(base: LevelState, d: Delta, i: nat)
    requires i < |d.removes|
    ensures d.removes[i].uuid !in Apply(base, d).objects
  {
    var rest := RemoveOps(d.removes) + ModifyOps(d.changed);
    RunOpsConcat(base.objects, AddOps(d.adds), rest);
    assert rest[i] == RemoveOp(d.removes[i]);
    RemovesWin(RunOps(base.objects, AddOps(d.adds)), rest, d.removes[i].uuid);
  }

  lemma BothEmpty(a: seq<Conflict>, b: seq<Conflict>)
    ensures a + b == [] <==> a == [] && b == []
  {
    assert |a + b| == |a| + |b|;
  }

  lemma StaleEmpty(f: FieldMap, ch: ChangeMap)
    ensures Stales(|StaleKeys(f, ch)|) == [] <==> forall k :: k in ch ==> Get(f, k) == ch[k].before
  {
    if Stales(|StaleKeys(f, ch)|) == [] {
      assert StaleKeys(f, ch) == {};
      forall k | k in ch ensures Get(f, k) == ch[k].before {
        assert k !in StaleKeys(f, ch);
      }
    }
    if forall k :: k in ch ==> Get(f, k) == ch[k].before {
      assert StaleKeys(f, ch) == {};
    }
  }
}
