/**
 * Three-way merge of header texts, key by key and channel by channel (`mergeHeaders3Way` in
 * `src/model/GdHeader.cpp`).
 */
module HeaderMerge {
  import opened Prelude
  import opened Parsing
  import opened Sorting
  import opened KeyValues
  import opened GdHeader

  // ---------------------------------------------------------------- one value

  /** Ours unless only theirs changed. */
  function Pick3<T(==)>(b: T, o: T, t: T): T {
    if o == t then o else if o == b then t else o
  }

  /** Both sides changed the value, and differently. */
  predicate Clash3<T(==)>(b: T, o: T, t: T) {
    o != t && o != b && t != b
  }

  // ---------------------------------------------------------------- channels

  function ChannelAt(ch: ChannelMap, id: int): Option<ChannelRecord> {
    if id in ch then Some(ch[id]) else None
  }

  function OrEmpty(ch: Option<ChannelMap>): ChannelMap {
    if ch.Some? then ch.value else map[]
  }

  function MergedAt(b: ChannelMap, o: ChannelMap, t: ChannelMap, id: int): Option<ChannelRecord> {
    Pick3(ChannelAt(b, id), ChannelAt(o, id), ChannelAt(t, id))
  }

  predicate ClashAt(b: ChannelMap, o: ChannelMap, t: ChannelMap, id: int) {
    Clash3(ChannelAt(b, id), ChannelAt(o, id), ChannelAt(t, id))
  }

  /** Channel by channel, an absent channel being a value like any other. */
  function MergedChannels(b: ChannelMap, o: ChannelMap, t: ChannelMap): ChannelMap {
    map id | id in b.Keys + o.Keys + t.Keys && MergedAt(b, o, t, id).Some? :: MergedAt(b, o, t, id).value
  }

  function ClashIds(b: ChannelMap, o: ChannelMap, t: ChannelMap): set<int> {
    set id | id in b.Keys + o.Keys + t.Keys && ClashAt(b, o, t, id)
  }

  /** What the code computes: three whole-map shortcuts first. */
  function WholeMerge(b: Option<ChannelMap>, o: Option<ChannelMap>, t: Option<ChannelMap>): Option<ChannelMap> {
    if o == t then o else if o == b then t else if t == b then o
    else Some(MergedChannels(OrEmpty(b), OrEmpty(o), OrEmpty(t)))
  }

  function WholeClashes(b: Option<ChannelMap>, o: Option<ChannelMap>, t: Option<ChannelMap>): nat {
    if o == t || o == b || t == b then 0 else |ClashIds(OrEmpty(b), OrEmpty(o), OrEmpty(t))|
  }

  lemma MergedChannelAt(b: ChannelMap, o: ChannelMap, t: ChannelMap, id: int)
    ensures ChannelAt(MergedChannels(b, o, t), id) == MergedAt(b, o, t, id)
  {
  }

  lemma SameChannels(a: ChannelMap, b: ChannelMap)
    requires forall id :: ChannelAt(a, id) == ChannelAt(b, id)
    ensures a == b
  {
    forall id: int ensures id in a <==> id in b {
      assert ChannelAt(a, id) == ChannelAt(b, id);
    }
    forall id: int | id in a ensures a[id] == b[id] {
      assert ChannelAt(a, id) == ChannelAt(b, id);
    }
  }

  /** The shortcuts change nothing: same channels, same number of conflicts, reading an absent text as no channels. */
  lemma ShortcutsAreExact(b: Option<ChannelMap>, o: Option<ChannelMap>, t: Option<ChannelMap>)
    ensures OrEmpty(WholeMerge(b, o, t)) == MergedChannels(OrEmpty(b), OrEmpty(o), OrEmpty(t))
    ensures WholeClashes(b, o, t) == |ClashIds(OrEmpty(b), OrEmpty(o), OrEmpty(t))|
  {
    var all := MergedChannels(OrEmpty(b), OrEmpty(o), OrEmpty(t));
    if o == t || o == b || t == b {
      var picked := OrEmpty(WholeMerge(b, o, t));
      forall id: int ensures ChannelAt(all, id) == ChannelAt(picked, id) {
        MergedChannelAt(OrEmpty(b), OrEmpty(o), OrEmpty(t), id);
      }
      SameChannels(all, picked);
      assert ClashIds(OrEmpty(b), OrEmpty(o), OrEmpty(t)) == {};
    }
  }

  method MergeChannelMaps(b: ChannelMap, o: ChannelMap, t: ChannelMap) returns (outMap: ChannelMap, conflicts: nat)
    ensures outMap == MergedChannels(b, o, t) && conflicts == |ClashIds(b, o, t)|
  {
    outMap, conflicts := map[], 0;
    var all := b.Keys + o.Keys + t.Keys;
    var todo := all;
    ghost var clashes: set<int> := {};
    while todo != {}
      invariant todo <= all && conflicts == |clashes|
      invariant forall id: int :: id in clashes <==> id in all && id !in todo && ClashAt(b, o, t, id)
      invariant forall id: int :: ChannelAt(outMap, id) ==
                                  if id in all && id !in todo then MergedAt(b, o, t, id) else None
      decreases todo
    {
      ghost var _ := SomeElement(todo);
      var id: int :| id in todo;
      todo := todo - {id};
      var bRec, oRec, tRec := ChannelAt(b, id), ChannelAt(o, id), ChannelAt(t, id);
      var mergedRec;
      if oRec == tRec {
        mergedRec := oRec;
      } else if oRec == bRec {
        mergedRec := tRec;
      } else if tRec == bRec {
        mergedRec := oRec;
      } else {
        clashes := clashes + {id};
        conflicts := conflicts + 1;
        mergedRec := oRec;
      }
      if mergedRec.Some? {
        outMap := outMap[id := mergedRec.value];
      }
    }
    forall id: int ensures ChannelAt(outMap, id) == ChannelAt(MergedChannels(b, o, t), id) {
      MergedChannelAt(b, o, t, id);
    }
    SameChannels(outMap, MergedChannels(b, o, t));
    forall id: int ensures id in clashes <==> id in ClashIds(b, o, t) {
    }
    assert clashes == ClashIds(b, o, t);
  }

  method MergeWhole(b: Option<ChannelMap>, o: Option<ChannelMap>, t: Option<ChannelMap>)
    returns (merged: Option<ChannelMap>, conflicts: nat)
    ensures merged == WholeMerge(b, o, t) && conflicts == WholeClashes(b, o, t)
  {
    conflicts := 0;
    if o == t {
      merged := o;
    } else if o == b {
      merged := t;
    } else if t == b {
      merged := o;
    } else {
      var outMap;
      outMap, conflicts := MergeChannelMaps(OrEmpty(b), OrEmpty(o), OrEmpty(t));
      merged := Some(outMap);
    }
  }

  // ---------------------------------------------------------------- one header value

  /** A text that is absent, or its channels; none if it does not parse. */
  function ParseOpt(v: Option<string>): Option<Option<ChannelMap>> {
    if v.None? then Some(None)
    else if ChannelsOf(v.value).None? then None
    else Some(ChannelsOf(v.value))
  }

  predicate Malformed(b: Option<string>, o: Option<string>, t: Option<string>) {
    ParseOpt(b).None? || ParseOpt(o).None? || ParseOpt(t).None?
  }

  ghost function PrintOpt(ch: Option<ChannelMap>): Option<string> {
    if ch.Some? then Some(ChannelsText(ch.value)) else None
  }

  ghost function MergedValue(key: string, b: Option<string>, o: Option<string>, t: Option<string>): Option<string> {
    if key != CHANNELS_KEY then Pick3(b, o, t)
    else if Malformed(b, o, t) then o
    else PrintOpt(WholeMerge(ParseOpt(b).value, ParseOpt(o).value, ParseOpt(t).value))
  }

  ghost function ValueClashes(key: string, b: Option<string>, o: Option<string>, t: Option<string>): nat {
    if key != CHANNELS_KEY then if Clash3(b, o, t) then 1 else 0
    else if Malformed(b, o, t) then 1
    else WholeClashes(ParseOpt(b).value, ParseOpt(o).value, ParseOpt(t).value)
  }

  method ReadOpt(v: Option<string>) returns (r: Option<Option<ChannelMap>>)
    ensures r == ParseOpt(v)
  {
    if v.None? {
      return Some(None);
    }
    var parsed := ParseChannels(v.value);
    r := if parsed.None? then None else Some(parsed);
  }

  method MergeChannelText(b: Option<string>, o: Option<string>, t: Option<string>)
    returns (merged: Option<string>, conflicts: nat)
    ensures merged == MergedValue(CHANNELS_KEY, b, o, t) && conflicts == ValueClashes(CHANNELS_KEY, b, o, t)
  {
    var bCh := ReadOpt(b);
    var oCh := ReadOpt(o);
    var tCh := ReadOpt(t);
    conflicts := 0;
    if bCh.None? || oCh.None? || tCh.None? {
      return o, 1;
    }
    var mergedChannels;
    mergedChannels, conflicts := MergeWhole(bCh.value, oCh.value, tCh.value);
    merged := None;
    if mergedChannels.Some? {
      var text := SerializeChannels(mergedChannels.value);
      merged := Some(text);
    }
  }

  method MergePlain(b: Option<string>, o: Option<string>, t: Option<string>)
    returns (merged: Option<string>, conflicts: nat)
    ensures merged == Pick3(b, o, t) && conflicts == if Clash3(b, o, t) then 1 else 0
  {
    conflicts := 0;
    if o == t {
      merged := o;
    } else if o == b {
      merged := t;
    } else if t == b {
      merged := o;
    } else {
      conflicts := 1;
      merged := o;
    }
  }

  // ---------------------------------------------------------------- whole headers

  function PushKey(order: seq<string>, key: string): seq<string> {
    if key in order then order else order + [key]
  }

  function PushKeys(order: seq<string>, kv: seq<Kv>): seq<string>
    decreases |kv|
  {
    if kv == [] then order else PushKeys(PushKey(order, kv[0].key), kv[1..])
  }

  /** Ours' keys, then theirs' new ones, then base's. */
  function KeyOrder(b: seq<Kv>, o: seq<Kv>, t: seq<Kv>): seq<string> {
    PushKeys(PushKeys(PushKeys([], o), t), b)
  }

  datatype Sides = Sides(b: Values, o: Values, t: Values) {
    ghost function Merged(key: string): Option<string> {
      MergedValue(key, ValueAt(b, key), ValueAt(o, key), ValueAt(t, key))
    }

    ghost function Clashes(key: string): nat {
      ValueClashes(key, ValueAt(b, key), ValueAt(o, key), ValueAt(t, key))
    }
  }

  ghost function MergedFrom(s: Sides, order: seq<string>, i: nat): seq<Kv>
    decreases |order| - i
  {
    if i >= |order| then []
    else
      (if s.Merged(order[i]).Some? then [Kv(order[i], s.Merged(order[i]).value)] else []) + MergedFrom(s, order, i + 1)
  }

  ghost function ClashesFrom(s: Sides, order: seq<string>, i: nat): nat
    decreases |order| - i
  {
    if i >= |order| then 0 else s.Clashes(order[i]) + ClashesFrom(s, order, i + 1)
  }

  datatype MergedHeader = MergedHeader(text: string, conflicts: nat)

  ghost function HeaderSides(base: string, ours: string, theirs: string): Sides
    requires HeaderOf(base).Some? && HeaderOf(ours).Some? && HeaderOf(theirs).Some?
  {
    Sides(ToMap(HeaderOf(base).value), ToMap(HeaderOf(ours).value), ToMap(HeaderOf(theirs).value))
  }

  ghost predicate Structured(base: string, ours: string, theirs: string) {
    HeaderOf(base).Some? && HeaderOf(ours).Some? && HeaderOf(theirs).Some?
  }

  ghost function HeaderKeys(base: string, ours: string, theirs: string): seq<string>
    requires Structured(base, ours, theirs)
  {
    KeyOrder(HeaderOf(base).value, HeaderOf(ours).value, HeaderOf(theirs).value)
  }

  /** The merged list, in key order. */
  ghost function MergedKv(base: string, ours: string, theirs: string): seq<Kv>
    requires Structured(base, ours, theirs)
  {
    MergedFrom(HeaderSides(base, ours, theirs), HeaderKeys(base, ours, theirs), 0)
  }

  ghost function HeaderConflictCount(base: string, ours: string, theirs: string): nat
    requires Structured(base, ours, theirs)
  {
    ClashesFrom(HeaderSides(base, ours, theirs), HeaderKeys(base, ours, theirs), 0)
  }

  ghost function MergeOf(base: string, ours: string, theirs: string): Option<MergedHeader> {
    if !Structured(base, ours, theirs) then None
    else Some(MergedHeader(HeaderText(MergedKv(base, ours, theirs)), HeaderConflictCount(base, ours, theirs)))
  }

  method BuildMap(kv: seq<Kv>) returns (m: Values)
    ensures m == ToMap(kv)
  {
    m := map[];
    for i := 0 to |kv|
      invariant m == ToMap(kv[..i])
    {
      m := m[kv[i].key := kv[i].value];
      assert kv[..i + 1][..i] == kv[..i];
    }
    assert kv[..|kv|] == kv;
  }

  method PushAll(order0: seq<string>, kv: seq<Kv>) returns (order: seq<string>)
    ensures order == PushKeys(order0, kv)
  {
    order := order0;
    for i := 0 to |kv|
      invariant PushKeys(order, kv[i..]) == PushKeys(order0, kv)
    {
      assert kv[i..][1..] == kv[i + 1..];
      if kv[i].key !in order {
        order := order + [kv[i].key];
      }
    }
  }

  method MergeHeaders3Way(base: string, ours: string, theirs: string) returns (r: Option<MergedHeader>)
    ensures r == MergeOf(base, ours, theirs)
  {
    var bParsed := ParseHeader(base);
    var oParsed := ParseHeader(ours);
    var tParsed := ParseHeader(theirs);
    if bParsed.None? || oParsed.None? || tParsed.None? {
      return None;
    }
    var bMap := BuildMap(bParsed.value);
    var oMap := BuildMap(oParsed.value);
    var tMap := BuildMap(tParsed.value);
    var keyOrder := PushAll([], oParsed.value);
    keyOrder := PushAll(keyOrder, tParsed.value);
    keyOrder := PushAll(keyOrder, bParsed.value);
    var mergedKv, conflicts := MergeKeys(bMap, oMap, tMap, keyOrder);
    var text := SerializeHeader(mergedKv);
    r := Some(MergedHeader(text, conflicts));
  }

  method MergeKeys(bMap: Values, oMap: Values, tMap: Values, keyOrder: seq<string>)
    returns (mergedKv: seq<Kv>, conflicts: nat)
    ensures mergedKv == MergedFrom(Sides(bMap, oMap, tMap), keyOrder, 0)
    ensures conflicts == ClashesFrom(Sides(bMap, oMap, tMap), keyOrder, 0)
  {
    mergedKv, conflicts := [], 0;
    ghost var s := Sides(bMap, oMap, tMap);
    for i := 0 to |keyOrder|
      invariant mergedKv + MergedFrom(s, keyOrder, i) == MergedFrom(s, keyOrder, 0)
      invariant conflicts + ClashesFrom(s, keyOrder, i) == ClashesFrom(s, keyOrder, 0)
    {
      var key := keyOrder[i];
      var b, o, t := ValueAt(bMap, key), ValueAt(oMap, key), ValueAt(tMap, key);
      var v, n;
      if key == CHANNELS_KEY {
        v, n := MergeChannelText(b, o, t);
      } else {
        v, n := MergePlain(b, o, t);
      }
      assert v == s.Merged(key) && n == s.Clashes(key);
      conflicts := conflicts + n;
      ghost var rest := MergedFrom(s, keyOrder, i + 1);
      if v.Some? {
        assert mergedKv + ([Kv(key, v.value)] + rest) == mergedKv + [Kv(key, v.value)] + rest;
        mergedKv := mergedKv + [Kv(key, v.value)];
      } else {
        assert [] + rest == rest;
      }
    }
    assert mergedKv + [] == mergedKv;
  }

  // ---------------------------------------------------------------- what the merge guarantees

  lemma {:induction false} PushKeysHas(order: seq<string>, kv: seq<Kv>)
    requires Distinct(order)
    ensures Distinct(PushKeys(order, kv))
    ensures forall k :: k in PushKeys(order, kv) <==> k in order || HasKey(kv, k)
    decreases |kv|
  {
    if kv != [] {
      PushKeysHas(PushKey(order, kv[0].key), kv[1..]);
      forall k ensures HasKey(kv, k) <==> k == kv[0].key || HasKey(kv[1..], k) {
        HasKeyFirst(kv, k);
      }
    }
  }

  /** The key order lists every key of the three headers, once. */
  lemma KeysListed(base: string, ours: string, theirs: string)
    requires Structured(base, ours, theirs)
    ensures Distinct(HeaderKeys(base, ours, theirs))
    ensures var s := HeaderSides(base, ours, theirs);
            Elements(HeaderKeys(base, ours, theirs)) == s.b.Keys + s.o.Keys + s.t.Keys
  {
    var b, o, t := HeaderOf(base).value, HeaderOf(ours).value, HeaderOf(theirs).value;
    var o1 := PushKeys([], o);
    var o2 := PushKeys(o1, t);
    PushKeysHas([], o);
    PushKeysHas(o1, t);
    PushKeysHas(o2, b);
    forall k ensures k in Elements(PushKeys(o2, b)) <==> k in ToMap(b).Keys + ToMap(o).Keys + ToMap(t).Keys {
      ToMapKeys(b, k);
      ToMapKeys(o, k);
      ToMapKeys(t, k);
    }
  }

  lemma {:induction false} MergedFromKeys(s: Sides, order: seq<string>, i: nat)
    requires Distinct(order) && i <= |order|
    ensures DistinctKeys(MergedFrom(s, order, i))
    ensures forall j :: 0 <= j < |MergedFrom(s, order, i)| ==>
              var e := MergedFrom(s, order, i)[j]; e.key in order[i..] && s.Merged(e.key) == Some(e.value)
    ensures forall j :: i <= j < |order| && s.Merged(order[j]).Some? ==>
              Kv(order[j], s.Merged(order[j]).value) in MergedFrom(s, order, i)
    decreases |order| - i
  {
    if i < |order| {
      MergedFromKeys(s, order, i + 1);
      assert order[i..] == [order[i]] + order[i + 1..];
      assert order[i] !in order[i + 1..];
    }
  }

  lemma NothingMerged(key: string)
    ensures MergedValue(key, None, None, None) == None
  {
  }

  /** Reading the merged list back as a map gives, at every key, the merge of the three values. */
  lemma MergedHeaderValue(base: string, ours: string, theirs: string, key: string)
    requires Structured(base, ours, theirs)
    ensures DistinctKeys(MergedKv(base, ours, theirs))
    ensures ValueAt(ToMap(MergedKv(base, ours, theirs)), key) == HeaderSides(base, ours, theirs).Merged(key)
  {
    var s, order := HeaderSides(base, ours, theirs), HeaderKeys(base, ours, theirs);
    var kv := MergedFrom(s, order, 0);
    KeysListed(base, ours, theirs);
    MergedFromKeys(s, order, 0);
    assert order[0..] == order;
    ToMapKeys(kv, key);
    if key in order {
      var j :| 0 <= j < |order| && order[j] == key;
      if s.Merged(key).Some? {
        var e := Kv(key, s.Merged(key).value);
        assert e in kv;
        var i :| 0 <= i < |kv| && kv[i] == e;
        ToMapAt(kv, i);
      }
    } else {
      assert key !in Elements(order);
      NothingMerged(key);
    }
  }

  // ---------------------------------------------------------------- symmetry

  lemma ClashIdsSymmetric(b: ChannelMap, o: ChannelMap, t: ChannelMap)
    ensures ClashIds(b, o, t) == ClashIds(b, t, o)
  {
    forall id: int ensures id in ClashIds(b, o, t) <==> id in ClashIds(b, t, o) {
    }
  }

  lemma ClashesSymmetric(key: string, b: Option<string>, o: Option<string>, t: Option<string>)
    ensures ValueClashes(key, b, o, t) == ValueClashes(key, b, t, o)
  {
    if key == CHANNELS_KEY && !Malformed(b, o, t) {
      ClashIdsSymmetric(OrEmpty(ParseOpt(b).value), OrEmpty(ParseOpt(o).value), OrEmpty(ParseOpt(t).value));
    }
  }

  /** A conflict-free value does not depend on which side is ours. */
  lemma ValueCommutes(key: string, b: Option<string>, o: Option<string>, t: Option<string>)
    requires ValueClashes(key, b, o, t) == 0
    ensures MergedValue(key, b, o, t) == MergedValue(key, b, t, o)
  {
    if key == CHANNELS_KEY {
      var bc, oc, tc := ParseOpt(b).value, ParseOpt(o).value, ParseOpt(t).value;
      if oc != tc && oc != bc && tc != bc {
        var x, y := MergedChannels(OrEmpty(bc), OrEmpty(oc), OrEmpty(tc)),
          MergedChannels(OrEmpty(bc), OrEmpty(tc), OrEmpty(oc));
        assert ClashIds(OrEmpty(bc), OrEmpty(oc), OrEmpty(tc)) == {};
        forall id: int ensures ChannelAt(x, id) == ChannelAt(y, id) {
          MergedChannelAt(OrEmpty(bc), OrEmpty(oc), OrEmpty(tc), id);
          MergedChannelAt(OrEmpty(bc), OrEmpty(tc), OrEmpty(oc), id);
          NoClashAt(OrEmpty(bc), OrEmpty(oc), OrEmpty(tc), id);
        }
        SameChannels(x, y);
      }
    }
  }

  lemma NoClashAt(b: ChannelMap, o: ChannelMap, t: ChannelMap, id: int)
    requires ClashIds(b, o, t) == {}
    ensures !ClashAt(b, o, t, id)
  {
    assert id !in ClashIds(b, o, t);
  }

  /** The keys other than the channel text that clash. */
  ghost function PlainClashKeys(s: Sides, keys: set<string>): set<string> {
    set k | k in keys && k != CHANNELS_KEY && Clash3(ValueAt(s.b, k), ValueAt(s.o, k), ValueAt(s.t, k))
  }

  lemma {:induction false} CountByKeys(s: Sides, order: seq<string>, i: nat)
    requires Distinct(order) && i <= |order|
    ensures ClashesFrom(s, order, i) == |PlainClashKeys(s, Elements(order[i..]))| +
                                        if CHANNELS_KEY in order[i..] then s.Clashes(CHANNELS_KEY) else 0
    decreases |order| - i
  {
    if i < |order| {
      CountByKeys(s, order, i + 1);
      var key, rest := order[i], order[i + 1..];
      assert order[i..] == [key] + rest;
      var was, now := PlainClashKeys(s, Elements(rest)), PlainClashKeys(s, Elements(order[i..]));
      assert key !in rest;
      if key != CHANNELS_KEY && Clash3(ValueAt(s.b, key), ValueAt(s.o, key), ValueAt(s.t, key)) {
        assert now == was + {key};
      } else {
        assert now == was;
      }
    } else {
      assert order[i..] == [];
      assert PlainClashKeys(s, Elements(order[i..])) == {};
    }
  }

  /** Swapping the sides keeps the number of conflicts, though not the order of the keys. */
  lemma HeaderConflictsSymmetric(base: string, ours: string, theirs: string)
    requires Structured(base, ours, theirs)
    ensures HeaderConflictCount(base, ours, theirs) == HeaderConflictCount(base, theirs, ours)
  {
    var s, z := HeaderSides(base, ours, theirs), HeaderSides(base, theirs, ours);
    var p, q := HeaderKeys(base, ours, theirs), HeaderKeys(base, theirs, ours);
    KeysListed(base, ours, theirs);
    KeysListed(base, theirs, ours);
    assert Elements(p) == Elements(q);
    assert p[0..] == p && q[0..] == q;
    CountByKeys(s, p, 0);
    CountByKeys(z, q, 0);
    assert PlainClashKeys(s, Elements(p)) == PlainClashKeys(z, Elements(q));
    assert CHANNELS_KEY in Elements(p) <==> CHANNELS_KEY in Elements(q);
    ClashesSymmetric(CHANNELS_KEY, ValueAt(s.b, CHANNELS_KEY), ValueAt(s.o, CHANNELS_KEY), ValueAt(s.t, CHANNELS_KEY));
  }

  lemma {:induction false} NoClashInOrder(s: Sides, order: seq<string>, i: nat, j: nat)
    requires i <= j < |order| && ClashesFrom(s, order, i) == 0
    ensures s.Clashes(order[j]) == 0
    decreases j - i
  {
    if i < j {
      NoClashInOrder(s, order, i + 1, j);
    }
  }

  /** A merge without conflicts gives the same values whichever side is ours. */
  lemma HeaderMergeCommutes(base: string, ours: string, theirs: string, key: string)
    requires Structured(base, ours, theirs) && HeaderConflictCount(base, ours, theirs) == 0
    ensures ValueAt(ToMap(MergedKv(base, ours, theirs)), key) == ValueAt(ToMap(MergedKv(base, theirs, ours)), key)
  {
    var s, order := HeaderSides(base, ours, theirs), HeaderKeys(base, ours, theirs);
    MergedHeaderValue(base, ours, theirs, key);
    MergedHeaderValue(base, theirs, ours, key);
    KeysListed(base, ours, theirs);
    if key in order {
      var j :| 0 <= j < |order| && order[j] == key;
      NoClashInOrder(s, order, 0, j);
      ValueCommutes(key, ValueAt(s.b, key), ValueAt(s.o, key), ValueAt(s.t, key));
    } else {
      assert key !in Elements(order);
      NothingMerged(key);
    }
  }

  // ---------------------------------------------------------------- the untouched side, conflicts, channel text

  /** The same text, or the same channels. */
  ghost predicate SameValue(key: string, x: Option<string>, y: Option<string>) {
    x == y || (key == CHANNELS_KEY && x.Some? && y.Some? && ParseOpt(x) == ParseOpt(y))
  }

  lemma PrintedParses(ch: Option<ChannelMap>)
    requires ch.Some? ==> GoodChannels(ch.value)
    ensures ParseOpt(PrintOpt(ch)) == Some(ch)
  {
    if ch.Some? {
      ChannelsRoundTrip(ch.value);
    }
  }

  lemma ParsedGood(v: Option<string>)
    requires ParseOpt(v).Some?
    ensures ParseOpt(v).value.Some? ==> GoodChannels(ParseOpt(v).value.value)
  {
    if v.Some? {
      ParsedChannelsGood(v.value);
    }
  }

  lemma MergedGood(b: ChannelMap, o: ChannelMap, t: ChannelMap)
    requires GoodChannels(b) && GoodChannels(o) && GoodChannels(t)
    ensures GoodChannels(MergedChannels(b, o, t))
  {
  }

  /** The merged channel text parses back to the merged channels. */
  lemma MergedChannelTextParses(b: Option<string>, o: Option<string>, t: Option<string>)
    requires !Malformed(b, o, t)
    ensures ParseOpt(MergedValue(CHANNELS_KEY, b, o, t)) ==
            Some(WholeMerge(ParseOpt(b).value, ParseOpt(o).value, ParseOpt(t).value))
  {
    ParsedGood(b);
    ParsedGood(o);
    ParsedGood(t);
    MergedGood(OrEmpty(ParseOpt(b).value), OrEmpty(ParseOpt(o).value), OrEmpty(ParseOpt(t).value));
    PrintedParses(WholeMerge(ParseOpt(b).value, ParseOpt(o).value, ParseOpt(t).value));
  }

  /**
   * When ours did not touch a value the merge gives theirs, and when theirs did not it gives ours: always for plain
   * values; for the channel text without conflict and up to its printed form, provided the texts parse.
   */
  lemma UntouchedSide(key: string, b: Option<string>, t: Option<string>)
    ensures var quiet := key == CHANNELS_KEY ==> !Malformed(b, b, t);
            && (ValueClashes(key, b, b, t) == 0 <==> quiet)
            && (ValueClashes(key, b, t, b) == 0 <==> quiet)
            && (quiet ==> SameValue(key, MergedValue(key, b, b, t), t) && SameValue(key, MergedValue(key, b, t, b), t))
  {
    if key == CHANNELS_KEY && !Malformed(b, b, t) {
      MergedChannelTextParses(b, b, t);
      MergedChannelTextParses(b, t, b);
    }
  }

  /** Read back, the merged text holds each channel as ours has it, or as theirs if only theirs changed it. */
  lemma ChannelPicked(b: Option<string>, o: Option<string>, t: Option<string>, id: int)
    requires !Malformed(b, o, t)
    ensures var merged := ParseOpt(MergedValue(CHANNELS_KEY, b, o, t));
            var bc, oc, tc := ChannelAt(OrEmpty(ParseOpt(b).value), id), ChannelAt(OrEmpty(ParseOpt(o).value), id),
              ChannelAt(OrEmpty(ParseOpt(t).value), id);
            merged.Some? && ChannelAt(OrEmpty(merged.value), id) == if oc == bc then tc else oc
  {
    MergedChannelTextParses(b, o, t);
    WholePicked(ParseOpt(b).value, ParseOpt(o).value, ParseOpt(t).value, id);
  }

  lemma WholePicked(b: Option<ChannelMap>, o: Option<ChannelMap>, t: Option<ChannelMap>, id: int)
    ensures var bc, oc, tc := ChannelAt(OrEmpty(b), id), ChannelAt(OrEmpty(o), id), ChannelAt(OrEmpty(t), id);
            ChannelAt(OrEmpty(WholeMerge(b, o, t)), id) == if oc == bc then tc else oc
  {
    ShortcutsAreExact(b, o, t);
    MergedChannelAt(OrEmpty(b), OrEmpty(o), OrEmpty(t), id);
  }

  /** In a conflict ours stays: the whole text, or the channels in conflict. */
  lemma OursWinsInHeader(key: string, b: Option<string>, o: Option<string>, t: Option<string>, id: int)
    ensures ValueClashes(key, b, o, t) > 0 && (key != CHANNELS_KEY || Malformed(b, o, t)) ==>
            MergedValue(key, b, o, t) == o
    ensures key == CHANNELS_KEY && !Malformed(b, o, t) ==>
              var bc, oc, tc := OrEmpty(ParseOpt(b).value), OrEmpty(ParseOpt(o).value), OrEmpty(ParseOpt(t).value);
              var merged := ParseOpt(MergedValue(key, b, o, t));
              merged.Some? && (ClashAt(bc, oc, tc, id) ==> ChannelAt(OrEmpty(merged.value), id) == ChannelAt(oc, id))
  {
    if key == CHANNELS_KEY && !Malformed(b, o, t) {
      MergedChannelTextParses(b, o, t);
      ShortcutsAreExact(ParseOpt(b).value, ParseOpt(o).value, ParseOpt(t).value);
      MergedChannelAt(OrEmpty(ParseOpt(b).value), OrEmpty(ParseOpt(o).value), OrEmpty(ParseOpt(t).value), id);
    }
  }

  // ---------------------------------------------------------------- the order of the merged list

  function KeysOf(kv: seq<Kv>): seq<string> {
    seq(|kv|, i requires 0 <= i < |kv| => kv[i].key)
  }

  /** The entries whose keys are not among `known`, in order. */
  function NewKeys(kv: seq<Kv>, known: seq<string>): seq<Kv>
    decreases |kv|
  {
    if kv == [] then [] else (if kv[0].key in known then [] else [kv[0]]) + NewKeys(kv[1..], known)
  }

  /** What the merge leaves of the entries of a list, in the order of the list. */
  ghost function Survivors(s: Sides, kv: seq<Kv>): seq<Kv>
    decreases |kv|
  {
    if kv == [] then []
    else
      (if s.Merged(kv[0].key).Some? then [Kv(kv[0].key, s.Merged(kv[0].key).value)] else []) + Survivors(s, kv[1..])
  }

  lemma {:induction false} NewKeysMore(kv: seq<Kv>, known: seq<string>, k: string)
    requires !HasKey(kv, k)
    ensures NewKeys(kv, known + [k]) == NewKeys(kv, known)
    decreases |kv|
  {
    if kv != [] {
      HasKeyFirst(kv, k);
      NewKeysMore(kv[1..], known, k);
    }
  }

  lemma {:induction false} PushedKeys(order: seq<string>, kv: seq<Kv>)
    requires DistinctKeys(kv)
    ensures PushKeys(order, kv) == order + KeysOf(NewKeys(kv, order))
    decreases |kv|
  {
    if kv != [] {
      var k, rest := kv[0].key, kv[1..];
      PushedKeys(PushKey(order, k), rest);
      if k !in order {
        assert !HasKey(rest, k);
        NewKeysMore(rest, order, k);
        assert KeysOf([kv[0]] + NewKeys(rest, order)) == [k] + KeysOf(NewKeys(rest, order));
      } else {
        assert [] + NewKeys(rest, order) == NewKeys(rest, order);
      }
    }
  }

  lemma {:induction false} AllNew(kv: seq<Kv>)
    ensures NewKeys(kv, []) == kv
    decreases |kv|
  {
    if kv != [] {
      AllNew(kv[1..]);
    }
  }

  lemma {:induction false} MergedShift(s: Sides, a: seq<string>, b: seq<string>, j: nat)
    requires j <= |b|
    ensures MergedFrom(s, a + b, |a| + j) == MergedFrom(s, b, j)
    decreases |b| - j
  {
    if j < |b| {
      MergedShift(s, a, b, j + 1);
      assert (a + b)[|a| + j] == b[j];
    }
  }

  lemma {:induction false} MergedSplit(s: Sides, a: seq<string>, b: seq<string>, i: nat)
    requires i <= |a|
    ensures MergedFrom(s, a + b, i) == MergedFrom(s, a, i) + MergedFrom(s, b, 0)
    decreases |a| - i
  {
    if i < |a| {
      MergedSplit(s, a, b, i + 1);
      assert (a + b)[i] == a[i];
      var first := if s.Merged(a[i]).Some? then [Kv(a[i], s.Merged(a[i]).value)] else [];
      var x, y := MergedFrom(s, a, i + 1), MergedFrom(s, b, 0);
      assert MergedFrom(s, a, i) == first + x && MergedFrom(s, a + b, i) == first + (x + y);
      assert first + (x + y) == first + x + y;
    } else {
      MergedShift(s, a, b, 0);
      assert [] + MergedFrom(s, b, 0) == MergedFrom(s, b, 0);
    }
  }

  lemma {:induction false} MergedSurvivors(s: Sides, kv: seq<Kv>, i: nat)
    requires i <= |kv|
    ensures MergedFrom(s, KeysOf(kv), i) == Survivors(s, kv[i..])
    decreases |kv| - i
  {
    if i < |kv| {
      MergedSurvivors(s, kv, i + 1);
      assert kv[i..][0] == kv[i] && kv[i..][1..] == kv[i + 1..];
    }
  }

  lemma {:induction false} NoneSurvive(s: Sides, kv: seq<Kv>)
    requires forall i :: 0 <= i < |kv| ==> s.Merged(kv[i].key).None?
    ensures Survivors(s, kv) == []
    decreases |kv|
  {
    if kv != [] {
      NoneSurvive(s, kv[1..]);
    }
  }

  lemma {:induction false} AllSurvive(s: Sides, kv: seq<Kv>)
    requires forall i :: 0 <= i < |kv| ==> s.Merged(kv[i].key) == Some(kv[i].value)
    ensures Survivors(s, kv) == kv
    decreases |kv|
  {
    if kv != [] {
      AllSurvive(s, kv[1..]);
      assert kv == [kv[0]] + kv[1..];
    }
  }

  lemma {:induction false} NewKeysFrom(kv: seq<Kv>, known: seq<string>, i: nat)
    requires i < |NewKeys(kv, known)|
    ensures NewKeys(kv, known)[i] in kv && NewKeys(kv, known)[i].key !in known
    decreases |kv|
  {
    if kv[0].key in known {
      NewKeysFrom(kv[1..], known, i);
    } else if i > 0 {
      NewKeysFrom(kv[1..], known, i - 1);
    }
  }

  lemma KeyListed(kv: seq<Kv>, k: string)
    ensures k in KeysOf(kv) <==> k in ToMap(kv)
  {
    ToMapKeys(kv, k);
    if i :| 0 <= i < |kv| && kv[i].key == k {
      assert KeysOf(kv)[i] == k;
    }
  }

  /** A key that only base has is dropped. */
  lemma BaseOnly(key: string, b: Option<string>)
    ensures MergedValue(key, b, None, None) == None
  {
  }

  /** The keys that are pushed last survive nowhere. */
  lemma BaseKeysDrop(s: Sides, b: seq<Kv>, o: seq<Kv>, t: seq<Kv>)
    requires s == Sides(ToMap(b), ToMap(o), ToMap(t))
    ensures Survivors(s, NewKeys(b, KeysOf(o) + KeysOf(NewKeys(t, KeysOf(o))))) == []
  {
    var known := KeysOf(o) + KeysOf(NewKeys(t, KeysOf(o)));
    var rest := NewKeys(b, known);
    forall i | 0 <= i < |rest| ensures s.Merged(rest[i].key).None? {
      var k := rest[i].key;
      NewKeysFrom(b, known, i);
      assert k !in KeysOf(o) && k !in KeysOf(NewKeys(t, KeysOf(o)));
      NewKeyListed(t, KeysOf(o), k);
      KeyListed(o, k);
      KeyListed(t, k);
      BaseOnly(k, ValueAt(s.b, k));
    }
    NoneSurvive(s, rest);
  }

  lemma {:induction false} NewKeyListed(kv: seq<Kv>, known: seq<string>, k: string)
    ensures k in KeysOf(NewKeys(kv, known)) <==> k in KeysOf(kv) && k !in known
    decreases |kv|
  {
    if kv != [] {
      var rest := NewKeys(kv[1..], known);
      NewKeyListed(kv[1..], known, k);
      assert KeysOf(kv) == [kv[0].key] + KeysOf(kv[1..]);
      if kv[0].key in known {
        assert [] + rest == rest;
      } else {
        assert KeysOf([kv[0]] + rest) == [kv[0].key] + KeysOf(rest);
      }
    }
  }

  /** The merged list: what is left of ours, in ours' order, then what is left of theirs' new keys, in theirs' order. */
  lemma MergedOrder(base: string, ours: string, theirs: string)
    requires Structured(base, ours, theirs)
    ensures var s, o, t := HeaderSides(base, ours, theirs), HeaderOf(ours).value, HeaderOf(theirs).value;
            MergedKv(base, ours, theirs) == Survivors(s, o) + Survivors(s, NewKeys(t, KeysOf(o)))
  {
    var s := HeaderSides(base, ours, theirs);
    var b, o, t := HeaderOf(base).value, HeaderOf(ours).value, HeaderOf(theirs).value;
    ParsedHeaderClean(base);
    ParsedHeaderClean(ours);
    ParsedHeaderClean(theirs);
    PushedKeys([], o);
    AllNew(o);
    var mine := KeysOf(o);
    assert [] + mine == mine;
    PushedKeys(mine, t);
    var added := NewKeys(t, mine);
    var known := mine + KeysOf(added);
    PushedKeys(known, b);
    var last := NewKeys(b, known);
    BaseKeysDrop(s, b, o, t);
    MergedSplit(s, known, KeysOf(last), 0);
    MergedSplit(s, mine, KeysOf(added), 0);
    MergedSurvivors(s, o, 0);
    MergedSurvivors(s, added, 0);
    MergedSurvivors(s, last, 0);
    assert o[0..] == o && added[0..] == added && last[0..] == last;
    assert Survivors(s, o) + Survivors(s, added) + [] == Survivors(s, o) + Survivors(s, added);
  }

  /** If theirs is base, or is ours, the merged list is ours' list, order included; channels are merged as channels. */
  lemma OursListKept(base: string, ours: string, theirs: string)
    requires Structured(base, ours, theirs) && (theirs == base || theirs == ours)
    requires CHANNELS_KEY !in ToMap(HeaderOf(ours).value)
    ensures MergedKv(base, ours, theirs) == HeaderOf(ours).value
  {
    var s, o, t := HeaderSides(base, ours, theirs), HeaderOf(ours).value, HeaderOf(theirs).value;
    MergedOrder(base, ours, theirs);
    ParsedHeaderClean(ours);
    forall i | 0 <= i < |o| ensures s.Merged(o[i].key) == Some(o[i].value) {
      ToMapAt(o, i);
    }
    AllSurvive(s, o);
    var added := NewKeys(t, KeysOf(o));
    forall i | 0 <= i < |added| ensures s.Merged(added[i].key).None? {
      var k := added[i].key;
      NewKeysFrom(t, KeysOf(o), i);
      KeyListed(o, k);
      GoneFromOurs(k, ValueAt(s.b, k), ValueAt(s.t, k));
    }
    NoneSurvive(s, added);
    assert o + [] == o;
  }

  lemma GoneFromOurs(key: string, b: Option<string>, t: Option<string>)
    requires t == b || t.None?
    ensures MergedValue(key, b, None, t) == None
  {
  }

  // ---------------------------------------------------------------- when nothing is left

  /** The same entry; for the channels, the same channels. */
  ghost predicate SameEntry(key: string, x: Option<string>, y: Option<string>) {
    if key != CHANNELS_KEY then x == y else ParseOpt(x).Some? && ParseOpt(x) == ParseOpt(y)
  }

  /**
   * Ours' entry is base's and theirs deleted it, or ours lacks an entry of theirs that base has (of channels, one that
   * is base's or cannot be compared).
   */
  ghost predicate Dropped(key: string, b: Option<string>, o: Option<string>, t: Option<string>) {
    if o.Some? then t.None? && SameEntry(key, o, b)
    else if t.None? then true
    else if key != CHANNELS_KEY then b.Some?
    else ParseOpt(b).None? || ParseOpt(t).None? || ParseOpt(b) == ParseOpt(t)
  }

  lemma DroppedIff(key: string, b: Option<string>, o: Option<string>, t: Option<string>)
    ensures MergedValue(key, b, o, t).None? <==> Dropped(key, b, o, t)
  {
  }

  /** Every entry of ours and of theirs is dropped. */
  ghost predicate NothingLeft(base: string, ours: string, theirs: string)
    requires Structured(base, ours, theirs)
  {
    var s := HeaderSides(base, ours, theirs);
    forall key :: key in s.o || key in s.t ==> Dropped(key, ValueAt(s.b, key), ValueAt(s.o, key), ValueAt(s.t, key))
  }

  lemma NotBlank(kv: seq<Kv>)
    requires kv != []
    ensures HeaderText(kv) != ""
  {
    FlattenAt(kv, 0);
    var flat := Flatten(kv);
    assert Join(flat, ',') == flat[0] + [','] + Join(flat[1..], ',');
  }

  /** The merged text is empty if and only if every entry is dropped. */
  lemma MergedTextEmptyIff(base: string, ours: string, theirs: string)
    requires Structured(base, ours, theirs)
    ensures MergeOf(base, ours, theirs).value.text == "" <==> NothingLeft(base, ours, theirs)
  {
    var s, kv := HeaderSides(base, ours, theirs), MergedKv(base, ours, theirs);
    forall key ensures s.Merged(key).None? <==> Dropped(key, ValueAt(s.b, key), ValueAt(s.o, key), ValueAt(s.t, key)) {
      DroppedIff(key, ValueAt(s.b, key), ValueAt(s.o, key), ValueAt(s.t, key));
    }
    if kv != [] {
      NotBlank(kv);
      MergedHeaderValue(base, ours, theirs, kv[0].key);
      ToMapAt(kv, 0);
      assert s.Merged(kv[0].key).Some?;
    } else {
      forall key | key in s.o || key in s.t
        ensures Dropped(key, ValueAt(s.b, key), ValueAt(s.o, key), ValueAt(s.t, key))
      {
        MergedHeaderValue(base, ours, theirs, key);
      }
    }
  }

  // ---------------------------------------------------------------- the merged text as input of the next merge

  ghost predicate RecordFree(record: ChannelRecord, c: char) {
    forall k :: k in record ==> c !in record[k]
  }

  ghost predicate ChannelsFree(ch: ChannelMap, c: char) {
    forall id :: id in ch ==> RecordFree(ch[id], c)
  }

  lemma {:induction false} ChannelsFromFree(records: seq<string>, n: nat, sofar: ChannelMap, c: char)
    requires Free(records, c) && ChannelsFree(sofar, c)
    ensures var r := ChannelsFrom(records, n, sofar); r.Some? ==> ChannelsFree(r.value, c)
    decreases |records| - n
  {
    if n < |records| {
      if records[n] == "" {
        ChannelsFromFree(records, n + 1, sofar, c);
      } else {
        var id := RecordId(records[n]);
        if id.Some? && id.value !in sofar {
          RecordOfGood(records[n], c);
          ChannelsFromFree(records, n + 1, sofar[id.value := RecordOf(records[n]).value], c);
        }
      }
    }
  }

  lemma ParsedFree(v: Option<string>, c: char)
    requires (v.Some? ==> c !in v.value) && ParseOpt(v).Some?
    ensures ChannelsFree(OrEmpty(ParseOpt(v).value), c)
  {
    if v.Some? {
      SplitWithin(v.value, '|', c);
      ChannelsFromFree(Split(v.value, '|'), 0, map[], c);
    }
  }

  lemma {:induction false} RecordTextsWithin(todo: set<int>, ch: ChannelMap, c: char)
    requires todo <= ch.Keys && ChannelsFree(ch, c) && !IsDigit(c) && c != '-' && c != '_'
    ensures Free(RecordTexts(todo, ch), c)
    decreases |todo|
  {
    if todo != {} {
      var id := LeastInt(todo);
      EntriesFree(ch[id].Keys, ch[id], c);
      FlattenFree(EntriesOf(ch[id].Keys, ch[id]), c);
      JoinFree(Flatten(EntriesOf(ch[id].Keys, ch[id])), '_', c);
      RecordTextsWithin(todo - {id}, ch, c);
    }
  }

  lemma PrintedFree(ch: Option<ChannelMap>, c: char)
    requires ChannelsFree(OrEmpty(ch), c) && !IsDigit(c) && c != '-' && c != '_' && c != '|'
    ensures PrintOpt(ch).Some? ==> c !in PrintOpt(ch).value
  {
    if ch.Some? {
      RecordTextsWithin(ch.value.Keys, ch.value, c);
      JoinFree(RecordTexts(ch.value.Keys, ch.value), '|', c);
    }
  }

  ghost predicate TextFree(v: Option<string>, c: char) {
    v.Some? ==> c !in v.value
  }

  lemma MergedValueFree(key: string, b: Option<string>, o: Option<string>, t: Option<string>)
    requires TextFree(b, ',') && TextFree(o, ',') && TextFree(t, ',')
    ensures TextFree(MergedValue(key, b, o, t), ',')
  {
    if key == CHANNELS_KEY && !Malformed(b, o, t) {
      ParsedFree(b, ',');
      ParsedFree(o, ',');
      ParsedFree(t, ',');
      PrintedFree(WholeMerge(ParseOpt(b).value, ParseOpt(o).value, ParseOpt(t).value), ',');
    }
  }

  lemma HeaderValueFree(chunk: string, key: string)
    requires HeaderOf(chunk).Some?
    ensures TextFree(ValueAt(ToMap(HeaderOf(chunk).value), key), ',')
    ensures key in ToMap(HeaderOf(chunk).value) ==> ',' !in key
  {
    ParsedHeaderClean(chunk);
    if key in ToMap(HeaderOf(chunk).value) {
      ToMapClean(HeaderOf(chunk).value, key, ',');
    }
  }

  lemma MergedKvFree(base: string, ours: string, theirs: string)
    requires Structured(base, ours, theirs)
    ensures DistinctKeys(MergedKv(base, ours, theirs)) && KvFree(MergedKv(base, ours, theirs), ',')
  {
    var s, order := HeaderSides(base, ours, theirs), HeaderKeys(base, ours, theirs);
    var kv := MergedKv(base, ours, theirs);
    KeysListed(base, ours, theirs);
    MergedFromKeys(s, order, 0);
    assert order[0..] == order;
    forall i | 0 <= i < |kv| ensures ',' !in kv[i].key && ',' !in kv[i].value {
      assert kv[i].key in Elements(order);
      HeaderValueFree(base, kv[i].key);
      HeaderValueFree(ours, kv[i].key);
      HeaderValueFree(theirs, kv[i].key);
      MergedValueFree(kv[i].key, ValueAt(s.b, kv[i].key), ValueAt(s.o, kv[i].key), ValueAt(s.t, kv[i].key));
    }
  }

  /**
   * The merged text parses back to the merged list, so it can be merged again, exactly when it is empty or its last
   * value is not; otherwise it no longer parses.
   */
  lemma MergedTextReparses(base: string, ours: string, theirs: string)
    requires Structured(base, ours, theirs)
    ensures var kv := MergedKv(base, ours, theirs);
            HeaderOf(MergeOf(base, ours, theirs).value.text) ==
            if kv == [] || kv[|kv| - 1].value != "" then Some(kv) else None
  {
    MergedKvFree(base, ours, theirs);
    HeaderRoundTrip(MergedKv(base, ours, theirs));
  }
}
