/** Laws of the three-way merge (`src/service/MergeService.cpp`). */
module MergeLaws {
  import opened Prelude
  import opened LevelModel
  import opened SortedIds
  import opened KeyValues
  import opened GdHeader
  import opened HeaderMerge
  import opened MergeService
  import opened DifferLaws

  // ---------------------------------------------------------------- the merge, id by id

  /** What a merge leaves under one id, minted objects aside; an add/add clash leaves ours. */
  function MergedSlot(s: Three, id: Uuid): Option<Object> {
    if id !in s.o && id !in s.t then None
    else if id !in s.b then if id in s.o then Some(s.o[id]) else Some(s.t[id])
    else if id !in s.o then None
    else if id !in s.t then if s.o[id].fields == s.b[id].fields then None else Some(s.o[id])
    else Some(Object(id, MergeFields(s.b[id].fields, s.o[id].fields, s.t[id].fields)))
  }

  ghost predicate NoAddAdd(s: Three) {
    forall id :: !AddAdd(s, id)
  }

  /** One id writes its own slot, and a clash also the next minted one. */
  lemma MergeIdSlots(s: Three, acc: Acc, id: Uuid, u: Uuid)
    requires AddAdd(s, id) ==> acc.nextUuid != id
    ensures u == id && Lookup(acc.objects, id) == Lookup(s.o, id) ==>
              Lookup(MergeId(s, acc, id).objects, id) == MergedSlot(s, id)
    ensures u != id && !(AddAdd(s, id) && u == acc.nextUuid) ==>
              Lookup(MergeId(s, acc, id).objects, u) == Lookup(acc.objects, u)
    ensures AddAdd(s, id) && u == acc.nextUuid ==>
              Lookup(MergeId(s, acc, id).objects, u) == Some(Object(u, s.t[id].fields))
    ensures MergeId(s, acc, id).nextUuid == if AddAdd(s, id) then Bump(acc.nextUuid) else acc.nextUuid
  {
  }

  function CountAddAdd(s: Three, ids: seq<Uuid>): nat {
    if ids == [] then 0 else CountAddAdd(s, ids[..|ids| - 1]) + if AddAdd(s, ids[|ids| - 1]) then 1 else 0
  }

  /** Minting stays below 2^64 and above every id of ours: what a caller can check beforehand. */
  ghost predicate RoomToMint(s: Three, ids: seq<Uuid>, next: Uuid) {
    next + CountAddAdd(s, ids) <= UUID_LIMIT && forall u :: u in s.o && AddAdd(s, u) ==> u < next
  }

  lemma MintMore(s: Three, ids: seq<Uuid>, n: nat)
    requires n < |ids|
    ensures CountAddAdd(s, ids[..n + 1]) == CountAddAdd(s, ids[..n]) + if AddAdd(s, ids[n]) then 1 else 0
  {
    assert ids[..n + 1][..n] == ids[..n];
  }

  lemma {:induction false} MintMonotone(s: Three, ids: seq<Uuid>, i: nat, n: nat)
    requires i <= n <= |ids|
    ensures CountAddAdd(s, ids[..i]) <= CountAddAdd(s, ids[..n])
    decreases n - i
  {
    if i < n {
      MintMore(s, ids, n - 1);
      MintMonotone(s, ids, i, n - 1);
    }
  }

  lemma MergeMore(s: Three, ids: seq<Uuid>, n: nat, next: Uuid)
    requires n < |ids|
    ensures MergeIds(s, ids[..n + 1], next) == MergeId(s, MergeIds(s, ids[..n], next), ids[n])
  {
    assert ids[..n + 1][..n] == ids[..n];
  }

  lemma BumpIs(u: Uuid)
    ensures u + 1 < UUID_LIMIT ==> Bump(u) == u + 1
  {
  }

  /** The counter after the first `n` ids. */
  lemma {:induction false} NextMinted(s: Three, ids: seq<Uuid>, n: nat, next: Uuid)
    requires n <= |ids| && next + CountAddAdd(s, ids[..n]) < UUID_LIMIT
    ensures MergeIds(s, ids[..n], next).nextUuid == next + CountAddAdd(s, ids[..n])
  {
    if n > 0 {
      MintMore(s, ids, n - 1);
      NextMinted(s, ids, n - 1, next);
      MergeMore(s, ids, n - 1, next);
      MintStep(s, MergeIds(s, ids[..n - 1], next), ids[n - 1]);
    }
  }

  lemma MintStep(s: Three, acc: Acc, id: Uuid)
    ensures AddAdd(s, id) && acc.nextUuid + 1 < UUID_LIMIT ==> MergeId(s, acc, id).nextUuid == acc.nextUuid + 1
    ensures !AddAdd(s, id) ==> MergeId(s, acc, id).nextUuid == acc.nextUuid
  {
    BumpIs(acc.nextUuid);
  }

  /** The id minted for the clash at place `i`. */
  function MintedFor(s: Three, ids: seq<Uuid>, i: nat, next: Uuid): nat
    requires i < |ids|
  {
    next + CountAddAdd(s, ids[..i])
  }

  ghost predicate MintedId(s: Three, ids: seq<Uuid>, next: Uuid, u: Uuid) {
    next <= u < next + CountAddAdd(s, ids)
  }

  /** With room to mint, the counter stands at the next clash's minted id, above ours and below 2^64. */
  lemma ClashMints(s: Three, ids: seq<Uuid>, n: nat, next: Uuid)
    requires n < |ids| && RoomToMint(s, ids, next) && AddAdd(s, ids[n])
    ensures MergeIds(s, ids[..n], next).nextUuid == MintedFor(s, ids, n, next)
    ensures ids[n] < next && MintedId(s, ids, next, MintedFor(s, ids, n, next))
  {
    MintMore(s, ids, n);
    MintMonotone(s, ids, n + 1, |ids|);
    assert ids[..|ids|] == ids;
    NextMinted(s, ids, n, next);
  }

  /** Every id that is not minted ends as its slot, whichever objects are minted elsewhere. */
  lemma {:induction false} UnmintedSlot(s: Three, ids: seq<Uuid>, n: nat, next: Uuid, u: Uuid)
    requires Ascending(ids) && n <= |ids| && (NoAddAdd(s) || (RoomToMint(s, ids, next) && !MintedId(s, ids, next, u)))
    ensures Lookup(MergeIds(s, ids[..n], next).objects, u) == if u in ids[..n] then MergedSlot(s, u) else Lookup(s.o, u)
  {
    if n > 0 {
      var k := n - 1;
      UnmintedSlot(s, ids, k, next, u);
      MergeMore(s, ids, k, next);
      AscendingPrefix(ids, k);
      assert ids[..n] == ids[..k] + [ids[k]];
      if AddAdd(s, ids[k]) {
        ClashMints(s, ids, k, next);
      }
      MergeIdSlots(s, MergeIds(s, ids[..k], next), ids[k], u);
    }
  }

  // ---------------------------------------------------------------- minted objects

  /** What is left under a minted id once that id itself has been merged. */
  function AfterOwnTurn(s: Three, m: Uuid, obj: Object): Option<Object> {
    if m in s.t && m !in s.b then Some(s.t[m])
    else if m in s.t && s.t[m].fields != s.b[m].fields then Some(obj)
    else None
  }

  lemma OwnTurn(s: Three, acc: Acc, m: Uuid, obj: Object)
    requires m !in s.o && (m in s.b || m in s.t) && Lookup(acc.objects, m) == Some(obj)
    ensures Lookup(MergeId(s, acc, m).objects, m) == AfterOwnTurn(s, m, obj)
  {
  }

  /** After `n` ids, slot `m` holds the minted object, or what its own turn made of it. */
  ghost predicate HoldsMinted(s: Three, ids: seq<Uuid>, n: nat, next: Uuid, m: Uuid, obj: Object)
    requires n <= |ids|
  {
    Lookup(MergeIds(s, ids[..n], next).objects, m) == if m in ids[..n] then AfterOwnTurn(s, m, obj) else Some(obj)
  }

  lemma JustMinted(s: Three, ids: seq<Uuid>, i: nat, next: Uuid)
    requires Ascending(ids) && i < |ids| && RoomToMint(s, ids, next) && AddAdd(s, ids[i])
    ensures MintedFor(s, ids, i, next) < UUID_LIMIT
    ensures var m: Uuid := MintedFor(s, ids, i, next);
            HoldsMinted(s, ids, i + 1, next, m, Object(m, s.t[ids[i]].fields))
  {
    ClashMints(s, ids, i, next);
    var m: Uuid := MintedFor(s, ids, i, next);
    MergeMore(s, ids, i, next);
    MergeIdSlots(s, MergeIds(s, ids[..i], next), ids[i], m);
    NotYet(ids, i + 1, m);
  }

  lemma StillMinted(s: Three, ids: seq<Uuid>, k: nat, next: Uuid, m: Uuid, obj: Object)
    requires Ascending(ids) && k < |ids| && m !in s.o && HoldsMinted(s, ids, k, next, m, obj)
    requires AddAdd(s, ids[k]) ==> MergeIds(s, ids[..k], next).nextUuid > m && ids[k] != m && ids[k] < next
    requires AddAdd(s, ids[k]) ==> MergeIds(s, ids[..k], next).nextUuid >= next
    requires ids[k] == m ==> m in s.b || m in s.t
    ensures HoldsMinted(s, ids, k + 1, next, m, obj)
  {
    MergeMore(s, ids, k, next);
    AscendingPrefix(ids, k);
    assert ids[..k + 1] == ids[..k] + [ids[k]];
    var acc := MergeIds(s, ids[..k], next);
    if ids[k] == m {
      OwnTurn(s, acc, m, obj);
    } else {
      MergeIdSlots(s, acc, ids[k], m);
    }
  }

  /** Ours' ids are all below the counter's start, and the merge visits ids of the three maps only. */
  ghost predicate MintsAbove(s: Three, ids: seq<Uuid>, next: Uuid) {
    && RoomToMint(s, ids, next) && (forall u :: u in s.o ==> u < next)
    && (forall u :: u in ids ==> u in s.b || u in s.o || u in s.t)
  }

  lemma LaterTurn(s: Three, ids: seq<Uuid>, i: nat, k: nat, next: Uuid, m: Uuid, obj: Object)
    requires Ascending(ids) && i < k < |ids| && MintsAbove(s, ids, next) && AddAdd(s, ids[i])
    requires m == MintedFor(s, ids, i, next) && HoldsMinted(s, ids, k, next, m, obj)
    ensures HoldsMinted(s, ids, k + 1, next, m, obj)
  {
    if AddAdd(s, ids[k]) {
      ClashMints(s, ids, k, next);
      MintMore(s, ids, i);
      MintMonotone(s, ids, i + 1, k);
    }
    assert m !in s.o;
    var id: Uuid := ids[k];
    assert id in ids;
    StillMinted(s, ids, k, next, m, obj);
  }

  /** A minted object stays put until the merge reaches its id, which it does only if base or theirs has the id. */
  lemma {:induction false} MintedSlot(s: Three, ids: seq<Uuid>, i: nat, n: nat, next: Uuid, m: Uuid)
    requires Ascending(ids) && i < n <= |ids| && MintsAbove(s, ids, next) && AddAdd(s, ids[i])
    requires m == MintedFor(s, ids, i, next)
    ensures HoldsMinted(s, ids, n, next, m, Object(m, s.t[ids[i]].fields))
    decreases n
  {
    if i == n - 1 {
      JustMinted(s, ids, i, next);
    } else {
      MintedSlot(s, ids, i, n - 1, next, m);
      LaterTurn(s, ids, i, n - 1, next, m, Object(m, s.t[ids[i]].fields));
    }
  }

  /** The ids up to a smaller one do not include `m`. */
  lemma NotYet(ids: seq<Uuid>, n: nat, m: Uuid)
    requires Ascending(ids) && 0 < n <= |ids| && ids[n - 1] < m
    ensures m !in ids[..n]
  {
  }

  // ---------------------------------------------------------------- laws of the whole merge

  ghost function Count3(base: LevelState, ours: LevelState, theirs: LevelState): nat {
    RawMerge(base.rawHeader, ours.rawHeader, theirs.rawHeader).conflicts
  }

  /** Without add/add clashes every object is the merge of its three versions. */
  lemma MergedObjects(base: LevelState, ours: LevelState, theirs: LevelState, merged: LevelState, n: nat, u: Uuid)
    requires IsMerge(base, ours, theirs, merged, n) && NoAddAdd(Sides3(base, ours, theirs))
    ensures Lookup(merged.objects, u) == MergedSlot(Sides3(base, ours, theirs), u)
  {
    var ids, next :| MergedFrom3(base, ours, theirs, ids, next, merged, n);
    var s := Sides3(base, ours, theirs);
    UnmintedSlot(s, ids, |ids|, next, u);
    assert ids[..|ids|] == ids;
    assert u in ids <==> u in AllIds(s);
  }

  lemma {:induction false} NoClashes(s: Three, ids: seq<Uuid>)
    requires forall u :: IdClashes(s, u) == 0
    ensures SumClashes(s, ids) == 0
  {
    if ids != [] {
      NoClashes(s, ids[..|ids| - 1]);
    }
  }

  /** The merge agrees with `x` on header map and objects, and reports only what the raw header does. */
  ghost predicate GivesBack(merged: LevelState, n: nat, x: LevelState, rawConflicts: nat) {
    SameFields(merged.header, x.header) && SameObjects(merged.objects, x.objects) && n == rawConflicts
  }

  lemma GivesBackBySlots(base: LevelState, ours: LevelState, theirs: LevelState, merged: LevelState, n: nat,
                         x: LevelState)
    requires IsMerge(base, ours, theirs, merged, n) && NoAddAdd(Sides3(base, ours, theirs))
    requires forall k :: !FieldClash(base.header, ours.header, theirs.header, k) &&
                         FieldPick(base.header, ours.header, theirs.header, k) == Get(x.header, k)
    requires forall u :: SameSlot(MergedSlot(Sides3(base, ours, theirs), u), Lookup(x.objects, u))
    requires forall u :: IdClashes(Sides3(base, ours, theirs), u) == 0
    ensures GivesBack(merged, n, x, Count3(base, ours, theirs))
  {
    var ids, next :| MergedFrom3(base, ours, theirs, ids, next, merged, n);
    NoClashes(Sides3(base, ours, theirs), ids);
    assert FieldClashes(base.header, ours.header, theirs.header) == {};
    forall k ensures Get(merged.header, k) == Get(x.header, k) {
      MergedFieldAt(base.header, ours.header, theirs.header, k);
    }
    SameFieldsIff(merged.header, x.header);
    forall u ensures SameSlot(Lookup(merged.objects, u), Lookup(x.objects, u)) {
      MergedObjects(base, ours, theirs, merged, n, u);
    }
    SlotsMakeObjects(merged.objects, x.objects);
  }

  lemma PickedFields(b: FieldMap, o: FieldMap, t: FieldMap, x: FieldMap)
    requires (o == b && x == t) || (t == b && x == o) || (o == t && x == o)
    ensures SameFields(MergeFields(b, o, t), x) && |FieldClashes(b, o, t)| == 0
    ensures forall k :: !FieldClash(b, o, t, k) && FieldPick(b, o, t, k) == Get(x, k)
  {
    forall k ensures Get(MergeFields(b, o, t), k) == Get(x, k) {
      MergedFieldAt(b, o, t, k);
    }
    SameFieldsIff(MergeFields(b, o, t), x);
    assert FieldClashes(b, o, t) == {};
  }

  /** Three states of which two agree, and the one the merge should give. */
  ghost predicate TwoAgree(base: LevelState, ours: LevelState, theirs: LevelState, x: LevelState) {
    (ours == base && x == theirs) || (theirs == base && x == ours) || (ours == theirs && x == ours)
  }

  /**
   * merge(b, b, t) = t, merge(b, o, b) = o and merge(b, x, x) = x, up to empty values, with no conflict in the header
   * map or the objects.
   */
  lemma MergeIdentities(base: LevelState, ours: LevelState, theirs: LevelState, merged: LevelState, n: nat,
                        x: LevelState)
    requires IsMerge(base, ours, theirs, merged, n) && TwoAgree(base, ours, theirs, x)
    ensures GivesBack(merged, n, x, Count3(base, ours, theirs))
  {
    var s := Sides3(base, ours, theirs);
    PickedFields(base.header, ours.header, theirs.header, x.header);
    forall u
      ensures SameSlot(MergedSlot(s, u), Lookup(x.objects, u)) && IdClashes(s, u) == 0 && !AddAdd(s, u)
    {
      IdentitySlot(s, x.objects, u);
    }
    GivesBackBySlots(base, ours, theirs, merged, n, x);
  }

  /** Two of three values agree, and the merge should give `x`. */
  ghost predicate TwoSame<T>(b: T, o: T, t: T, x: T) {
    (o == b && x == t) || (t == b && x == o) || (o == t && x == o)
  }

  /** The channel text of some side does not parse. */
  ghost predicate BadChannels(b: string, o: string, t: string)
    requires Structured(b, o, t)
  {
    var s := HeaderSides(b, o, t);
    Malformed(ValueAt(s.b, CHANNELS_KEY), ValueAt(s.o, CHANNELS_KEY), ValueAt(s.t, CHANNELS_KEY))
  }

  lemma SameValueKept(key: string, b: Option<string>, o: Option<string>, t: Option<string>, x: Option<string>)
    requires TwoSame(b, o, t, x) && (key == CHANNELS_KEY ==> !Malformed(b, o, t))
    ensures SameValue(key, MergedValue(key, b, o, t), x) && ValueClashes(key, b, o, t) == 0
  {
    if key == CHANNELS_KEY {
      MergedChannelTextParses(b, o, t);
    }
  }

  lemma {:induction false} QuietInOrder(s: Sides, order: seq<string>, i: nat)
    requires i <= |order| && forall j :: i <= j < |order| ==> s.Clashes(order[j]) == 0
    ensures ClashesFrom(s, order, i) == 0
    decreases |order| - i
  {
    if i < |order| {
      QuietInOrder(s, order, i + 1);
    }
  }

  /**
   * The same identities for the raw header: texts that are no lists are kept whole; of lists every value is the
   * expected one (the channel text up to its printed form), without conflict, if and only if the channel texts parse.
   */
  lemma RawHeaderIdentities(b: string, o: string, t: string, x: string, key: string)
    requires TwoSame(b, o, t, x)
    ensures !Structured(b, o, t) ==> RawMerge(b, o, t) == MergedHeader(x, 0)
    ensures Structured(b, o, t) ==> (RawMerge(b, o, t).conflicts == 0 <==> !BadChannels(b, o, t))
    ensures Structured(b, o, t) && (key == CHANNELS_KEY ==> !BadChannels(b, o, t)) ==>
              HeaderOf(x).Some? &&
              SameValue(key, ValueAt(ToMap(MergedKv(b, o, t)), key), ValueAt(ToMap(HeaderOf(x).value), key))
  {
    if Structured(b, o, t) {
      var s := HeaderSides(b, o, t);
      MergedHeaderValue(b, o, t, key);
      if key != CHANNELS_KEY || !BadChannels(b, o, t) {
        SameValueKept(key, ValueAt(s.b, key), ValueAt(s.o, key), ValueAt(s.t, key),
                      ValueAt(ToMap(HeaderOf(x).value), key));
      }
      RawQuietIff(b, o, t, x);
    }
  }

  /** A header text without the delimiter that parsing drops at the end. */
  function WithoutLastComma(s: string): string {
    if s != "" && s[|s| - 1] == ',' then s[..|s| - 1] else s
  }

  /**
   * merge(b, o, b) and merge(b, o, o) keep ours' raw header as it is, order included: as whole text if one of them is
   * no list, and else less a delimiter at its end, unless it has a channel text (which is printed anew).
   */
  lemma OursTextKept(b: string, o: string, t: string)
    requires t == b || t == o
    ensures !Structured(b, o, t) ==> RawMerge(b, o, t).text == o
    ensures Structured(b, o, t) && CHANNELS_KEY !in ToMap(HeaderOf(o).value) ==>
              RawMerge(b, o, t).text == WithoutLastComma(o)
  {
    if Structured(b, o, t) && CHANNELS_KEY !in ToMap(HeaderOf(o).value) {
      OursListKept(b, o, t);
      ParsedPrints(o);
    }
  }

  lemma RawQuietIff(b: string, o: string, t: string, x: string)
    requires TwoSame(b, o, t, x) && Structured(b, o, t)
    ensures HeaderConflictCount(b, o, t) == 0 <==> !BadChannels(b, o, t)
  {
    var s, order, v := HeaderSides(b, o, t), HeaderKeys(b, o, t), ToMap(HeaderOf(x).value);
    KeysListed(b, o, t);
    if BadChannels(b, o, t) {
      assert CHANNELS_KEY in Elements(order);
      var j :| 0 <= j < |order| && order[j] == CHANNELS_KEY;
      if HeaderConflictCount(b, o, t) == 0 {
        NoClashInOrder(s, order, 0, j);
      }
    } else {
      forall j | 0 <= j < |order| ensures s.Clashes(order[j]) == 0 {
        var k := order[j];
        SameValueKept(k, ValueAt(s.b, k), ValueAt(s.o, k), ValueAt(s.t, k), ValueAt(v, k));
      }
      QuietInOrder(s, order, 0);
    }
  }

  lemma IdentitySlot(s: Three, x: ObjectMap, u: Uuid)
    requires (s.o == s.b && x == s.t) || (s.t == s.b && x == s.o) || (s.o == s.t && x == s.o)
    ensures SameSlot(MergedSlot(s, u), Lookup(x, u)) && IdClashes(s, u) == 0 && !AddAdd(s, u)
  {
    if u in s.b && u in s.o && u in s.t {
      PickedFields(s.b[u].fields, s.o[u].fields, s.t[u].fields, x[u].fields);
    }
  }

  // ---------------------------------------------------------------- symmetry

  lemma FieldClashesSymmetric(b: FieldMap, o: FieldMap, t: FieldMap)
    ensures FieldClashes(b, o, t) == FieldClashes(b, t, o)
  {
    forall k ensures k in FieldClashes(b, o, t) <==> k in FieldClashes(b, t, o) {
    }
  }

  lemma {:induction false} SumSymmetric(s: Three, z: Three, ids: seq<Uuid>)
    requires z == Three(s.b, s.t, s.o)
    ensures SumClashes(s, ids) == SumClashes(z, ids)
  {
    if ids != [] {
      SumSymmetric(s, z, ids[..|ids| - 1]);
      var id := ids[|ids| - 1];
      if id in s.b && id in s.o && id in s.t {
        FieldClashesSymmetric(s.b[id].fields, s.o[id].fields, s.t[id].fields);
      }
    }
  }

  lemma RawConflictsSymmetric(b: string, o: string, t: string)
    ensures RawMerge(b, o, t).conflicts == RawMerge(b, t, o).conflicts
  {
    if Structured(b, o, t) {
      HeaderConflictsSymmetric(b, o, t);
    }
  }

  lemma CountIs(base: LevelState, ours: LevelState, theirs: LevelState, merged: LevelState, n: nat)
    returns (ids: seq<Uuid>)
    requires IsMerge(base, ours, theirs, merged, n)
    ensures Enumerates(ids, AllIds(Sides3(base, ours, theirs)))
    ensures n == |FieldClashes(base.header, ours.header, theirs.header)| + Count3(base, ours, theirs)
                 + SumClashes(Sides3(base, ours, theirs), ids)
  {
    var order, next :| MergedFrom3(base, ours, theirs, order, next, merged, n);
    ids := order;
  }

  // ---------------------------------------------------------------- what the count counts

  /** Three values of which no two agree. */
  predicate AllDiffer(b: string, o: string, t: string) {
    b != o && b != t && o != t
  }

  /** The fields, of objects that all three sides hold, on which they all differ. */
  ghost function FieldConflicts(s: Three, ids: set<Uuid>): set<(Uuid, string)> {
    set u, k | u in ids && u in s.b && u in s.o && u in s.t && k in ClashingKeys(s, u) :: (u, k)
  }

  ghost function ClashingKeys(s: Three, u: Uuid): set<string>
    requires u in s.b && u in s.o && u in s.t
  {
    DifferingKeys(s.b[u].fields, s.o[u].fields, s.t[u].fields)
  }

  ghost function DifferingKeys(b: FieldMap, o: FieldMap, t: FieldMap): set<string> {
    set k | k in b.Keys + o.Keys + t.Keys && AllDiffer(Get(b, k), Get(o, k), Get(t, k))
  }

  lemma DifferingAre(b: FieldMap, o: FieldMap, t: FieldMap)
    ensures DifferingKeys(b, o, t) == FieldClashes(b, o, t)
  {
  }

  /** The objects of base that one side changed and the other deleted. */
  ghost function EditDeletes(s: Three, ids: set<Uuid>): set<Uuid> {
    set u | u in ids && u in s.b && ((u in s.o && u !in s.t && s.o[u].fields != s.b[u].fields) ||
                                     (u in s.t && u !in s.o && s.t[u].fields != s.b[u].fields))
  }

  lemma {:induction false} PairCount(u: Uuid, ks: set<string>)
    ensures |set k | k in ks :: (u, k)| == |ks|
    decreases |ks|
  {
    if ks != {} {
      var x: string :| x in ks;
      PairCount(u, ks - {x});
      assert (set k | k in ks :: (u, k)) == (set k | k in ks - {x} :: (u, k)) + {(u, x)};
    }
  }

  lemma OneMoreId(s: Three, ids: set<Uuid>, u: Uuid)
    requires u !in ids
    ensures |FieldConflicts(s, ids + {u})| + |EditDeletes(s, ids + {u})| ==
            |FieldConflicts(s, ids)| + |EditDeletes(s, ids)| + IdClashes(s, u)
  {
    FieldsOfOne(s, ids, u);
    if u in EditDeletes(s, {u}) {
      assert EditDeletes(s, ids + {u}) == EditDeletes(s, ids) + {u};
    } else {
      assert EditDeletes(s, ids + {u}) == EditDeletes(s, ids);
    }
  }

  lemma FieldsOfOne(s: Three, ids: set<Uuid>, u: Uuid)
    requires u !in ids
    ensures |FieldConflicts(s, ids + {u})| ==
            |FieldConflicts(s, ids)| + if u in s.b && u in s.o && u in s.t then
              |FieldClashes(s.b[u].fields, s.o[u].fields, s.t[u].fields)| else 0
  {
    if u in s.b && u in s.o && u in s.t {
      var mine := set k | k in ClashingKeys(s, u) :: (u, k);
      PairCount(u, ClashingKeys(s, u));
      DifferingAre(s.b[u].fields, s.o[u].fields, s.t[u].fields);
      MoreFields(s, ids, u, mine);
    } else {
      assert FieldConflicts(s, ids + {u}) == FieldConflicts(s, ids);
    }
  }

  lemma MoreFields(s: Three, ids: set<Uuid>, u: Uuid, mine: set<(Uuid, string)>)
    requires u !in ids && u in s.b && u in s.o && u in s.t && mine == set k | k in ClashingKeys(s, u) :: (u, k)
    ensures FieldConflicts(s, ids + {u}) == FieldConflicts(s, ids) + mine && FieldConflicts(s, ids) !! mine
  {
    forall p: (Uuid, string)
      ensures p in FieldConflicts(s, ids + {u}) <==> p in FieldConflicts(s, ids) || p in mine
    {
    }
  }

  lemma OnlyOfBase(s: Three, ids: set<Uuid>)
    requires s.b.Keys <= ids
    ensures FieldConflicts(s, ids) == FieldConflicts(s, s.b.Keys) && EditDeletes(s, ids) == EditDeletes(s, s.b.Keys)
  {
  }

  lemma {:induction false} SumIs(s: Three, ids: seq<Uuid>)
    requires Ascending(ids)
    ensures SumClashes(s, ids) == |FieldConflicts(s, Elements(ids))| + |EditDeletes(s, Elements(ids))|
  {
    if ids == [] {
      assert FieldConflicts(s, Elements(ids)) == {} && EditDeletes(s, Elements(ids)) == {};
    } else {
      var front, last := ids[..|ids| - 1], ids[|ids| - 1];
      assert ids == front + [last];
      SumIs(s, front);
      assert Elements(ids) == Elements(front) + {last};
      OneMoreId(s, Elements(front), last);
    }
  }

  /**
   * The conflicts counted, apart from those of the raw header: the header keys and the object fields on which all three
   * sides differ, and the objects one side changed and the other deleted.
   */
  lemma ConflictsCounted(base: LevelState, ours: LevelState, theirs: LevelState, merged: LevelState, n: nat)
    requires IsMerge(base, ours, theirs, merged, n)
    ensures var s := Sides3(base, ours, theirs);
            n == Count3(base, ours, theirs) + |DifferingKeys(base.header, ours.header, theirs.header)|
                 + |FieldConflicts(s, s.b.Keys)| + |EditDeletes(s, s.b.Keys)|
  {
    var s := Sides3(base, ours, theirs);
    var ids := CountIs(base, ours, theirs, merged, n);
    SumIs(s, ids);
    forall u: Uuid | u in s.b.Keys ensures u in Elements(ids) {
      assert u in AllIds(s);
    }
    OnlyOfBase(s, Elements(ids));
    DifferingAre(base.header, ours.header, theirs.header);
  }

  lemma SameVisits(s: Three, z: Three, p: seq<Uuid>, q: seq<Uuid>)
    requires z == Three(s.b, s.t, s.o) && Enumerates(p, AllIds(s)) && Enumerates(q, AllIds(z))
    ensures SumClashes(s, p) == SumClashes(z, q)
  {
    assert AllIds(s) == AllIds(z);
    EnumerationUnique(p, q, AllIds(s));
    SumSymmetric(s, z, p);
  }

  /** Swapping ours and theirs keeps the number of conflicts. */
  lemma ConflictCountSymmetric(base: LevelState, ours: LevelState, theirs: LevelState,
                               m1: LevelState, n1: nat, m2: LevelState, n2: nat)
    requires IsMerge(base, ours, theirs, m1, n1) && IsMerge(base, theirs, ours, m2, n2)
    ensures n1 == n2
  {
    var ids1 := CountIs(base, ours, theirs, m1, n1);
    var ids2 := CountIs(base, theirs, ours, m2, n2);
    SameVisits(Sides3(base, ours, theirs), Sides3(base, theirs, ours), ids1, ids2);
    FieldClashesSymmetric(base.header, ours.header, theirs.header);
    RawConflictsSymmetric(base.rawHeader, ours.rawHeader, theirs.rawHeader);
  }

  lemma QuietFields(b: FieldMap, o: FieldMap, t: FieldMap)
    requires FieldClashes(b, o, t) == {}
    ensures SameFields(MergeFields(b, o, t), MergeFields(b, t, o))
  {
    forall k ensures Get(MergeFields(b, o, t), k) == Get(MergeFields(b, t, o), k) {
      MergedFieldAt(b, o, t, k);
      MergedFieldAt(b, t, o, k);
      if FieldClash(b, o, t, k) {
        NoFieldClash(b, o, t, k);
      }
    }
    SameFieldsIff(MergeFields(b, o, t), MergeFields(b, t, o));
  }

  lemma NoFieldClash(b: FieldMap, o: FieldMap, t: FieldMap, k: string)
    ensures FieldClash(b, o, t, k) ==> k in FieldClashes(b, o, t)
  {
  }

  lemma {:induction false} ClashCounted(s: Three, ids: seq<Uuid>, u: Uuid)
    requires u in ids && SumClashes(s, ids) == 0
    ensures IdClashes(s, u) == 0
  {
    if u != ids[|ids| - 1] {
      ClashCounted(s, ids[..|ids| - 1], u);
    }
  }

  lemma QuietSlot(s: Three, u: Uuid)
    requires IdClashes(s, u) == 0 && !AddAdd(s, u)
    ensures SameSlot(MergedSlot(s, u), MergedSlot(Three(s.b, s.t, s.o), u))
  {
    if u in s.b && u in s.o && u in s.t {
      QuietFields(s.b[u].fields, s.o[u].fields, s.t[u].fields);
    } else if u !in s.b && u in s.o && u in s.t {
      assert s.o[u].fields == s.t[u].fields;
    }
  }

  /** Without conflicts and add/add clashes it does not matter which side is ours. */
  lemma QuietMergeCommutes(base: LevelState, ours: LevelState, theirs: LevelState, m1: LevelState, m2: LevelState,
                           n2: nat)
    requires IsMerge(base, ours, theirs, m1, 0) && IsMerge(base, theirs, ours, m2, n2)
    requires NoAddAdd(Sides3(base, ours, theirs))
    ensures SameFields(m1.header, m2.header) && SameObjects(m1.objects, m2.objects)
  {
    var ids, next :| MergedFrom3(base, ours, theirs, ids, next, m1, 0);
    var s, z := Sides3(base, ours, theirs), Sides3(base, theirs, ours);
    QuietFields(base.header, ours.header, theirs.header);
    forall u: Uuid ensures !AddAdd(z, u) {
      assert !AddAdd(s, u);
    }
    forall u ensures SameSlot(Lookup(m1.objects, u), Lookup(m2.objects, u)) {
      MergedObjects(base, ours, theirs, m1, 0, u);
      MergedObjects(base, theirs, ours, m2, n2, u);
      if u in ids {
        ClashCounted(s, ids, u);
      } else {
        assert u !in AllIds(s);
      }
      QuietSlot(s, u);
    }
    SlotsMakeObjects(m1.objects, m2.objects);
  }

  /** The raw header text of such a merge holds the same values whichever side is ours. */
  lemma QuietRawHeaderCommutes(b: string, o: string, t: string, key: string)
    requires RawMerge(b, o, t).conflicts == 0
    ensures !Structured(b, o, t) ==> RawMerge(b, o, t).text == RawMerge(b, t, o).text
    ensures Structured(b, o, t) ==> ValueAt(ToMap(MergedKv(b, o, t)), key) == ValueAt(ToMap(MergedKv(b, t, o)), key)
  {
    if Structured(b, o, t) {
      HeaderMergeCommutes(b, o, t, key);
    }
  }

  // ---------------------------------------------------------------- conflicts

  /** If any id is minted at all, that does not wrap past 2^64. */
  ghost predicate CanMint(ours: LevelState, s: Three, ids: seq<Uuid>, next: Uuid) {
    CountAddAdd(s, ids) > 0 ==> UUID_LIMIT - 1 !in ours.objects.Keys && next + CountAddAdd(s, ids) <= UUID_LIMIT
  }

  lemma {:induction false} ClashIsCounted(s: Three, ids: seq<Uuid>, u: Uuid)
    requires u in ids && AddAdd(s, u)
    ensures CountAddAdd(s, ids) > 0
  {
    if u != ids[|ids| - 1] {
      ClashIsCounted(s, ids[..|ids| - 1], u);
    }
  }

  lemma NoneCounted(s: Three, ids: seq<Uuid>)
    requires Enumerates(ids, AllIds(s)) && CountAddAdd(s, ids) == 0
    ensures NoAddAdd(s)
  {
    forall u ensures !AddAdd(s, u) {
      if AddAdd(s, u) {
        assert u in AllIds(s);
        ClashIsCounted(s, ids, u);
      }
    }
  }

  lemma MintsFrom(base: LevelState, ours: LevelState, theirs: LevelState, ids: seq<Uuid>, next: Uuid,
                  merged: LevelState, n: nat)
    requires MergedFrom3(base, ours, theirs, ids, next, merged, n) &&
             CanMint(ours, Sides3(base, ours, theirs), ids, next) && CountAddAdd(Sides3(base, ours, theirs), ids) > 0
    ensures MintsAbove(Sides3(base, ours, theirs), ids, next)
  {
    var s := Sides3(base, ours, theirs);
    FirstFreeAbove(ours.objects, next);
    forall u | u in ids ensures u in s.b || u in s.o || u in s.t {
      assert u in AllIds(s);
    }
  }

  lemma SlotWhenMinting(base: LevelState, ours: LevelState, theirs: LevelState, ids: seq<Uuid>, next: Uuid,
                        merged: LevelState, n: nat, u: Uuid)
    requires MergedFrom3(base, ours, theirs, ids, next, merged, n) &&
             CanMint(ours, Sides3(base, ours, theirs), ids, next)
    requires !MintedId(Sides3(base, ours, theirs), ids, next, u)
    ensures Lookup(merged.objects, u) == MergedSlot(Sides3(base, ours, theirs), u)
  {
    var s := Sides3(base, ours, theirs);
    if CountAddAdd(s, ids) == 0 {
      NoneCounted(s, ids);
    } else {
      MintsFrom(base, ours, theirs, ids, next, merged, n);
    }
    UnmintedSlot(s, ids, |ids|, next, u);
    assert ids[..|ids|] == ids;
    assert u in ids <==> u in AllIds(s);
  }

  lemma OursNotMinted(base: LevelState, ours: LevelState, theirs: LevelState, ids: seq<Uuid>, next: Uuid,
                      merged: LevelState, n: nat, u: Uuid)
    requires MergedFrom3(base, ours, theirs, ids, next, merged, n) &&
             CanMint(ours, Sides3(base, ours, theirs), ids, next)
    ensures MintedId(Sides3(base, ours, theirs), ids, next, u) ==> u !in ours.objects
  {
    if CountAddAdd(Sides3(base, ours, theirs), ids) > 0 {
      MintsFrom(base, ours, theirs, ids, next, merged, n);
    }
  }

  /** One side changed an object that the other deleted. */
  ghost predicate EditDelete(b: ObjectMap, edit: ObjectMap, other: ObjectMap, u: Uuid) {
    u in b && u in edit && u !in other && edit[u].fields != b[u].fields
  }

  /** Ours stands under every id it holds: unchanged where theirs deleted or re-added it, field by field otherwise. */
  lemma OursWinsConflicts(base: LevelState, ours: LevelState, theirs: LevelState, ids: seq<Uuid>, next: Uuid,
                          merged: LevelState, n: nat, u: Uuid, k: string)
    requires MergedFrom3(base, ours, theirs, ids, next, merged, n) &&
             CanMint(ours, Sides3(base, ours, theirs), ids, next)
    ensures FieldClash(base.header, ours.header, theirs.header, k) ==> Get(merged.header, k) == Get(ours.header, k)
    ensures AddAdd(Sides3(base, ours, theirs), u) ==> Lookup(merged.objects, u) == Some(ours.objects[u])
    ensures EditDelete(base.objects, ours.objects, theirs.objects, u) ==>
            Lookup(merged.objects, u) == Some(ours.objects[u])
    ensures u in base.objects && u in ours.objects && u in theirs.objects ==>
              u in merged.objects &&
              Get(merged.objects[u].fields, k) ==
              FieldPick(base.objects[u].fields, ours.objects[u].fields, theirs.objects[u].fields, k)
    ensures EditDelete(base.objects, theirs.objects, ours.objects, u) &&
            !MintedId(Sides3(base, ours, theirs), ids, next, u)
            ==> u !in merged.objects
  {
    var s := Sides3(base, ours, theirs);
    OursNotMinted(base, ours, theirs, ids, next, merged, n, u);
    MergedFieldAt(base.header, ours.header, theirs.header, k);
    if !MintedId(s, ids, next, u) {
      SlotWhenMinting(base, ours, theirs, ids, next, merged, n, u);
      if u in s.b && u in s.o && u in s.t {
        MergedFieldAt(s.b[u].fields, s.o[u].fields, s.t[u].fields, k);
      }
    }
  }

  /** What decides whether theirs' object survives under the id minted for it. */
  ghost predicate SurvivesAt(s: Three, c: Uuid, m: Uuid)
    requires c in s.t
  {
    if m !in s.t then m !in s.b
    else if m !in s.b then s.t[m].fields == s.t[c].fields
    else s.t[m].fields != s.b[m].fields
  }

  /**
   * An add/add clash keeps ours under the id; theirs is under the minted id after the merge if and only if base and
   * theirs leave that id alone, in the sense of `SurvivesAt`.
   */
  lemma AddAddSurvival(base: LevelState, ours: LevelState, theirs: LevelState, ids: seq<Uuid>, next: Uuid,
                       merged: LevelState, n: nat, i: nat)
    requires MergedFrom3(base, ours, theirs, ids, next, merged, n) &&
             CanMint(ours, Sides3(base, ours, theirs), ids, next)
    requires i < |ids| && AddAdd(Sides3(base, ours, theirs), ids[i])
    ensures Lookup(merged.objects, ids[i]) == Some(ours.objects[ids[i]])
    ensures MintedFor(Sides3(base, ours, theirs), ids, i, next) < UUID_LIMIT
    ensures var m: Uuid := MintedFor(Sides3(base, ours, theirs), ids, i, next);
            (m in merged.objects && merged.objects[m].fields == theirs.objects[ids[i]].fields)
            <==> SurvivesAt(Sides3(base, ours, theirs), ids[i], m)
  {
    var s, c := Sides3(base, ours, theirs), ids[i];
    ClashIsCounted(s, ids, c);
    MintsFrom(base, ours, theirs, ids, next, merged, n);
    ClashMints(s, ids, i, next);
    SlotWhenMinting(base, ours, theirs, ids, next, merged, n, c);
    var m: Uuid := MintedFor(s, ids, i, next);
    MintedSlot(s, ids, i, |ids|, next, m);
    assert ids[..|ids|] == ids;
    assert m in ids <==> m in AllIds(s);
    SurvivalIff(s, c, m, merged.objects);
  }

  lemma SurvivalIff(s: Three, c: Uuid, m: Uuid, objs: ObjectMap)
    requires c in s.t && m !in s.o
    requires var obj := Object(m, s.t[c].fields);
             Lookup(objs, m) == if m in AllIds(s) then AfterOwnTurn(s, m, obj) else Some(obj)
    ensures (m in objs && objs[m].fields == s.t[c].fields) <==> SurvivesAt(s, c, m)
  {
  }

  /** Minted ids outside all three inputs: both objects survive, whichever clash it is. */
  lemma BothSurvive(base: LevelState, ours: LevelState, theirs: LevelState, ids: seq<Uuid>, next: Uuid,
                    merged: LevelState, n: nat, c: Uuid) returns (m: Uuid)
    requires MergedFrom3(base, ours, theirs, ids, next, merged, n) &&
             CanMint(ours, Sides3(base, ours, theirs), ids, next)
    requires AddAdd(Sides3(base, ours, theirs), c)
    requires forall u :: MintedId(Sides3(base, ours, theirs), ids, next, u) ==> u !in AllIds(Sides3(base, ours, theirs))
    ensures Lookup(merged.objects, c) == Some(ours.objects[c])
    ensures m != c && Lookup(merged.objects, m) == Some(Object(m, theirs.objects[c].fields))
  {
    var s := Sides3(base, ours, theirs);
    assert c in AllIds(s);
    var i :| 0 <= i < |ids| && ids[i] == c;
    ClashIsCounted(s, ids, c);
    MintsFrom(base, ours, theirs, ids, next, merged, n);
    ClashMints(s, ids, i, next);
    AddAddSurvival(base, ours, theirs, ids, next, merged, n, i);
    m := MintedFor(s, ids, i, next);
    assert m !in AllIds(s);
  }

  /**
   * Ours added A under id 1, theirs B under 1 and C under 2: B moves to the minted id 2, where C then overwrites it.
   * B is lost without a conflict being counted.
   */
  lemma MintedIdCollision(a: FieldMap, b: FieldMap, c: FieldMap)
    returns (ours: LevelState, theirs: LevelState, merged: LevelState)
    requires a != b && b != c && a != c
    ensures ours == LevelState("", map[], map[1 := Object(1, a)])
    ensures theirs == LevelState("", map[], map[1 := Object(1, b), 2 := Object(2, c)])
    ensures IsMerge(EMPTY_STATE, ours, theirs, merged, Count3(EMPTY_STATE, ours, theirs))
    ensures merged.objects == map[1 := Object(1, a), 2 := Object(2, c)]
    ensures forall u :: u in merged.objects ==> merged.objects[u].fields != b
  {
    ours := LevelState("", map[], map[1 := Object(1, a)]);
    theirs := LevelState("", map[], map[1 := Object(1, b), 2 := Object(2, c)]);
    var s := Sides3(EMPTY_STATE, ours, theirs);
    var ids: seq<Uuid> := [1, 2];
    CollisionObjects(a, b, c, s, ids);
    merged := LevelState(RawMerge("", "", "").text, MergeFields(map[], map[], map[]), MergeIds(s, ids, 2).objects);
    assert FieldClashes(map[], map[], map[]) == {};
    assert MergedFrom3(EMPTY_STATE, ours, theirs, ids, 2, merged, Count3(EMPTY_STATE, ours, theirs));
  }

  lemma CollisionObjects(a: FieldMap, b: FieldMap, c: FieldMap, s: Three, ids: seq<Uuid>)
    requires a != b && ids == [1, 2]
    requires s == Three(map[], map[1 := Object(1, a)], map[1 := Object(1, b), 2 := Object(2, c)])
    ensures MergeIds(s, ids, 2).objects == map[1 := Object(1, a), 2 := Object(2, c)]
    ensures SumClashes(s, ids) == 0
    ensures Enumerates(ids, AllIds(s)) && FirstFree(s.o, 2)
  {
    assert AllIds(s) == {1, 2};
    var order: seq<Uuid> := [1];
    assert Elements(order) == s.o.Keys && order[..0] == [] && Counter(order) == 2;
    var one: seq<Uuid> := [1];
    assert ids[..1] == one && one[..0] == [];
    var start := Acc(s.o, 2);
    assert MergeIds(s, [], 2) == start;
    var first := MergeId(s, start, 1);
    assert MergeIds(s, one, 2) == first;
    assert first.objects == s.o[2 := Object(2, b)];
    assert MergeIds(s, ids, 2) == MergeId(s, first, 2);
    assert SumClashes(s, one) == SumClashes(s, []) + IdClashes(s, 1);
  }
}
