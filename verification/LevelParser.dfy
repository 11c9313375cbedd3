/** Level strings: `;`-separated chunks of key/value pairs (`src/model/LevelParser.cpp`). */
module LevelParser {
  import opened Parsing
  import opened Sorting
  import opened KeyValues
  import opened LevelModel
  import opened SortedIds

  // ---------------------------------------------------------------- one chunk

  /**
   * The pairs from token `i` on: an empty key is skipped, the first of two equal keys wins, an odd token is ignored.
   */
  function FieldsFrom(tokens: seq<string>, i: nat, sofar: FieldMap): FieldMap
    decreases |tokens| - i
  {
    if i + 1 >= |tokens| then sofar
    else if tokens[i] == "" || tokens[i] in sofar then FieldsFrom(tokens, i + 2, sofar)
    else FieldsFrom(tokens, i + 2, sofar[tokens[i] := tokens[i + 1]])
  }

  function ChunkOf(chunk: string): FieldMap {
    if chunk == "" then map[] else FieldsFrom(Trimmed(Split(chunk, ',')), 0, map[])
  }

  method ReadKvChunk(chunk: string) returns (out: FieldMap)
    ensures out == ChunkOf(chunk)
  {
    out := map[];
    if chunk == "" {
      return;
    }
    var tokens := SplitView(chunk, ',');
    if tokens != [] && tokens[|tokens| - 1] == "" {
      tokens := tokens[..|tokens| - 1];
    }
    var i := 0;
    while i + 1 < |tokens|
      invariant i >= 0 && FieldsFrom(tokens, i, out) == FieldsFrom(tokens, 0, map[])
      decreases |tokens| - i
    {
      if tokens[i] != "" && tokens[i] !in out {
        out := out[tokens[i] := tokens[i + 1]];
      }
      i := i + 2;
    }
  }

  /** The fields in ascending key order. */
  ghost function EntriesOf(todo: set<string>, m: FieldMap): (kv: seq<Kv>)
    requires todo <= m.Keys
    ensures |kv| == |todo|
    decreases |todo|
  {
    if todo == {} then []
    else var k := LeastString(todo); [Kv(k, m[k])] + EntriesOf(todo - {k}, m)
  }

  ghost function FieldsText(m: FieldMap): string {
    KvText(EntriesOf(m.Keys, m), ',')
  }

  lemma NextEntry(m: FieldMap, all: seq<Kv>, i: nat, todo: set<string>)
    requires todo <= m.Keys && todo != {} && i <= |all| && EntriesOf(todo, m) == all[i..]
    ensures var k := LeastString(todo);
            i < |all| && all[i] == Kv(k, m[k]) && EntriesOf(todo - {k}, m) == all[i + 1..]
  {
    assert all[i] == all[i..][0] && all[i + 1..] == all[i..][1..];
  }

  method SerializeFields(m: FieldMap) returns (out: string)
    ensures out == FieldsText(m)
  {
    out := "";
    var todo := m.Keys;
    ghost var all := EntriesOf(m.Keys, m);
    ghost var i := 0;
    LengthIs(all);
    var first := true;
    while todo != {}
      invariant todo <= m.Keys && 0 <= i <= |all| && EntriesOf(todo, m) == all[i..]
      invariant first <==> i == 0
      invariant out + JoinFrom(Flatten(all), 2 * i, ',') == JoinFrom(Flatten(all), 0, ',')
      decreases todo
    {
      var k := TakeLeastString(todo);
      NextEntry(m, all, i, todo);
      KvStep(all, i, ',', out);
      if !first {
        out := out + ",";
      }
      first := false;
      out := out + k;
      out := out + ",";
      out := out + m[k];
      todo := todo - {k};
      i := i + 1;
    }
    JoinFromAll(Flatten(all), ',');
  }

  // ---------------------------------------------------------------- equal keys

  ghost function PairKey(tokens: seq<string>, i: nat): string
    requires 2 * i + 1 < |tokens|
  {
    tokens[2 * i]
  }

  /** The pair at place `i` is the first one from place `n` on that has the key. */
  ghost predicate FirstPair(tokens: seq<string>, n: nat, k: string, i: nat) {
    && n <= i && 2 * i + 1 < |tokens| && PairKey(tokens, i) == k
    && forall j: nat :: n <= j < i ==> PairKey(tokens, j) != k
  }

  /** What is read at a key from place `n` on: the first pair's value. */
  ghost predicate ReadsFirst(tokens: seq<string>, n: nat, k: string, r: FieldMap) {
    && (k in r <==> k != "" && exists i :: FirstPair(tokens, n, k, i))
    && (k in r ==> forall i :: FirstPair(tokens, n, k, i) ==> r[k] == tokens[2 * i + 1])
  }

  lemma {:induction false} FirstPairWins(tokens: seq<string>, n: nat, sofar: FieldMap, k: string)
    ensures var r := FieldsFrom(tokens, 2 * n, sofar);
            if k in sofar then k in r && r[k] == sofar[k] else ReadsFirst(tokens, n, k, r)
    decreases |tokens| - 2 * n
  {
    if 2 * n + 1 < |tokens| {
      var key := PairKey(tokens, n);
      var more := if key == "" || key in sofar then sofar else sofar[key := tokens[2 * n + 1]];
      FirstPairWins(tokens, n + 1, more, k);
      if key == k {
        assert FirstPair(tokens, n, k, n);
      } else if k !in sofar {
        LaterPair(tokens, n, k, FieldsFrom(tokens, 2 * n, sofar));
      }
    }
  }

  lemma LaterPair(tokens: seq<string>, n: nat, k: string, r: FieldMap)
    requires 2 * n + 1 < |tokens| && PairKey(tokens, n) != k
    requires ReadsFirst(tokens, n + 1, k, r)
    ensures ReadsFirst(tokens, n, k, r)
  {
    forall i: nat | FirstPair(tokens, n, k, i) ensures FirstPair(tokens, n + 1, k, i) {
      if i == n {
        assert false;
      }
    }
    var next := n + 1;
    if i: nat :| FirstPair(tokens, next, k, i) {
      assert FirstPair(tokens, n, k, i);
    }
  }

  /** Of equal keys in a chunk the first pair counts; pairs with an empty key do not. */
  lemma FirstKeyWins(chunk: string, k: string)
    ensures ReadsFirst(Trimmed(Split(chunk, ',')), 0, k, ChunkOf(chunk))
  {
    assert Split("", ',') == [""] && Trimmed([""]) == [];
    FirstPairWins(Trimmed(Split(chunk, ',')), 0, map[], k);
  }

  // ---------------------------------------------------------------- a chunk printed and read again

  /** Fields as parsing leaves them: no empty key and no delimiter anywhere. */
  ghost predicate Clean(m: FieldMap) {
    forall k :: k in m ==> k != "" && CleanText(k) && CleanText(m[k])
  }

  ghost predicate CleanText(s: string) {
    ',' !in s && ';' !in s
  }

  lemma {:induction false} EntriesHold(todo: set<string>, m: FieldMap)
    requires todo <= m.Keys
    ensures DistinctKeys(EntriesOf(todo, m))
    ensures forall i :: 0 <= i < |EntriesOf(todo, m)| ==>
              var e := EntriesOf(todo, m)[i]; e.key in todo && e.value == m[e.key]
    ensures forall k :: k in todo ==> HasKey(EntriesOf(todo, m), k)
    decreases |todo|
  {
    if todo != {} {
      var least := LeastString(todo);
      var rest, kv := EntriesOf(todo - {least}, m), EntriesOf(todo, m);
      EntriesHold(todo - {least}, m);
      FirstEntryHolds(todo, m, least, rest, kv);
    }
  }

  lemma FirstEntryHolds(todo: set<string>, m: FieldMap, least: string, rest: seq<Kv>, kv: seq<Kv>)
    requires todo <= m.Keys && least in todo && DistinctKeys(rest)
    requires forall i :: 0 <= i < |rest| ==> rest[i].key in todo - {least} && rest[i].value == m[rest[i].key]
    requires forall k :: k in todo - {least} ==> HasKey(rest, k)
    requires kv == [Kv(least, m[least])] + rest
    ensures DistinctKeys(kv)
    ensures forall i :: 0 <= i < |kv| ==> kv[i].key in todo && kv[i].value == m[kv[i].key]
    ensures forall k :: k in todo ==> HasKey(kv, k)
  {
    assert kv[1..] == rest;
    forall i, j | 0 <= i < j < |kv| ensures kv[i].key != kv[j].key {
      assert kv[j] == rest[j - 1] && (i > 0 ==> kv[i] == rest[i - 1]);
    }
    forall k | k in todo ensures HasKey(kv, k) {
      HasKeyFirst(kv, k);
    }
  }

  lemma EntriesMap(m: FieldMap)
    ensures DistinctKeys(EntriesOf(m.Keys, m)) && ToMap(EntriesOf(m.Keys, m)) == m
  {
    var kv := EntriesOf(m.Keys, m);
    EntriesHold(m.Keys, m);
    forall k ensures ValueAt(ToMap(kv), k) == ValueAt(m, k) {
      ToMapKeys(kv, k);
      if HasKey(kv, k) {
        var i :| 0 <= i < |kv| && kv[i].key == k;
        ToMapAt(kv, i);
      }
    }
    SameValues(ToMap(kv), m);
  }

  lemma SameValues(a: FieldMap, b: FieldMap)
    requires forall k :: ValueAt(a, k) == ValueAt(b, k)
    ensures a == b
  {
    forall k ensures k in a <==> k in b {
      assert ValueAt(a, k) == ValueAt(b, k);
    }
    forall k | k in a ensures a[k] == b[k] {
      assert ValueAt(a, k) == ValueAt(b, k);
    }
  }

  /** Reading the printed tokens, with or without one more token at the end. */
  lemma {:induction false} FieldsFromFlat(kv: seq<Kv>, tokens: seq<string>, i: nat)
    requires DistinctKeys(kv) && (forall j :: 0 <= j < |kv| ==> kv[j].key != "") && i <= |kv|
    requires Flatten(kv) <= tokens && 2 * |kv| <= |tokens| <= 2 * |kv| + 1
    ensures FieldsFrom(tokens, 2 * i, ToMap(kv[..i])) == ToMap(kv)
    decreases |kv| - i
  {
    if i < |kv| {
      FlattenAt(kv, i);
      FieldsFromFlat(kv, tokens, i + 1);
      assert kv[..i + 1][..i] == kv[..i];
      ToMapKeys(kv[..i], kv[i].key);
      assert !HasKey(kv[..i], kv[i].key);
    } else {
      assert kv[..i] == kv;
    }
  }

  /** The key of the last printed pair. */
  ghost function LastKey(m: FieldMap): (k: string)
    requires m != map[]
    ensures k in m
  {
    EntriesHold(m.Keys, m);
    EntriesOf(m.Keys, m)[|m| - 1].key
  }

  /** What is read back: all of it, unless the last printed value is empty; then that one pair is lost. */
  ghost function Reread(m: FieldMap): FieldMap {
    if m == map[] || m[LastKey(m)] != "" then m else m - {LastKey(m)}
  }

  lemma CleanEntries(m: FieldMap, c: char)
    requires Clean(m) && (c == ',' || c == ';')
    ensures KvFree(EntriesOf(m.Keys, m), c)
    ensures forall i :: 0 <= i < |m| ==> EntriesOf(m.Keys, m)[i].key != ""
  {
    EntriesHold(m.Keys, m);
  }

  lemma ToMapFront(kv: seq<Kv>)
    requires kv != [] && DistinctKeys(kv)
    ensures ToMap(kv[..|kv| - 1]) == ToMap(kv) - {kv[|kv| - 1].key}
  {
    var front, last := kv[..|kv| - 1], kv[|kv| - 1];
    ToMapKeys(front, last.key);
    assert !HasKey(front, last.key);
    var m := ToMap(front);
    assert ToMap(kv) == m[last.key := last.value];
    assert m[last.key := last.value] - {last.key} == m;
  }

  lemma FlattenFront(kv: seq<Kv>)
    requires kv != []
    ensures Flatten(kv) == Flatten(kv[..|kv| - 1]) + [kv[|kv| - 1].key, kv[|kv| - 1].value]
  {
    var front, last := kv[..|kv| - 1], kv[|kv| - 1];
    assert kv == front + [last];
    FlattenPush(front, last);
  }

  lemma TextNotEmpty(m: FieldMap)
    requires m != map[] && Clean(m)
    ensures FieldsText(m) != ""
  {
    var all := EntriesOf(m.Keys, m);
    CleanEntries(m, ',');
    SplitKvText(all, ',');
    FlattenAt(all, 0);
    assert Split("", ',') == [""];
  }

  lemma RereadWhole(m: FieldMap, all: seq<Kv>)
    requires m != map[] && Clean(m) && all == EntriesOf(m.Keys, m) && all[|all| - 1].value != ""
    ensures FieldsFrom(Trimmed(Flatten(all)), 0, map[]) == m
  {
    var flat := Flatten(all);
    CleanEntries(m, ',');
    EntriesMap(m);
    FlattenAt(all, |all| - 1);
    assert Trimmed(flat) == flat;
    FieldsFromFlat(all, flat, 0);
    assert all[..0] == [];
  }

  lemma RereadCut(m: FieldMap, all: seq<Kv>)
    requires m != map[] && Clean(m) && all == EntriesOf(m.Keys, m) && all[|all| - 1].value == ""
    ensures FieldsFrom(Trimmed(Flatten(all)), 0, map[]) == m - {all[|all| - 1].key}
  {
    var front, last := all[..|all| - 1], all[|all| - 1];
    FrontOf(m, all);
    FlattenFront(all);
    TrimCut(Flatten(front), last.key);
    CutTokens(front, last.key);
  }

  lemma FrontOf(m: FieldMap, all: seq<Kv>)
    requires m != map[] && Clean(m) && all == EntriesOf(m.Keys, m)
    ensures var front := all[..|all| - 1];
            && ToMap(front) == m - {all[|all| - 1].key} && DistinctKeys(front)
            && forall j :: 0 <= j < |front| ==> front[j].key != ""
  {
    CleanEntries(m, ',');
    EntriesMap(m);
    ToMapFront(all);
  }

  lemma TrimCut(front: seq<string>, k: string)
    ensures Trimmed(front + [k, ""]) == front + [k]
  {
  }

  lemma CutTokens(front: seq<Kv>, k: string)
    requires DistinctKeys(front) && forall j :: 0 <= j < |front| ==> front[j].key != ""
    ensures FieldsFrom(Flatten(front) + [k], 0, map[]) == ToMap(front)
  {
    LengthIs(front);
    FieldsFromFlat(front, Flatten(front) + [k], 0);
    assert front[..0] == [];
  }

  lemma LastEntry(m: FieldMap)
    requires m != map[]
    ensures EntriesOf(m.Keys, m)[|m| - 1] == Kv(LastKey(m), m[LastKey(m)])
  {
    EntriesHold(m.Keys, m);
  }

  lemma ChunkOfTokens(text: string, tokens: seq<string>)
    requires text != "" && Split(text, ',') == tokens
    ensures ChunkOf(text) == FieldsFrom(Trimmed(tokens), 0, map[])
  {
  }

  /** Printing clean fields and reading them back. */
  lemma RereadFields(m: FieldMap)
    requires Clean(m)
    ensures ChunkOf(FieldsText(m)) == Reread(m)
  {
    var all := EntriesOf(m.Keys, m);
    if m == map[] {
      assert all == [];
    } else {
      TextNotEmpty(m);
      CleanEntries(m, ',');
      SplitKvText(all, ',');
      ChunkOfTokens(FieldsText(m), Flatten(all));
      LastEntry(m);
      if all[|all| - 1].value != "" {
        RereadWhole(m, all);
      } else {
        RereadCut(m, all);
      }
    }
  }

  /** Nothing but an empty value can get lost. */
  lemma RereadSame(m: FieldMap)
    ensures SameFields(Reread(m), m)
    ensures NoEmptyField(m) ==> Reread(m) == m
    ensures Reread(m) == map[] <==> m == map[] || (|m| == 1 && forall k :: k in m ==> m[k] == "")
  {
    if m != map[] && m[LastKey(m)] == "" {
      assert m.Keys == Reread(m).Keys + {LastKey(m)};
      assert |m| == |m.Keys| && |Reread(m)| == |Reread(m).Keys|;
    }
  }

  lemma {:induction false} FieldsFromClean(tokens: seq<string>, i: nat, sofar: FieldMap)
    requires Free(tokens, ',') && Free(tokens, ';') && Clean(sofar)
    ensures Clean(FieldsFrom(tokens, i, sofar))
    decreases |tokens| - i
  {
    if i + 1 < |tokens| {
      if tokens[i] == "" || tokens[i] in sofar {
        FieldsFromClean(tokens, i + 2, sofar);
      } else {
        FieldsFromClean(tokens, i + 2, sofar[tokens[i] := tokens[i + 1]]);
      }
    }
  }

  lemma ParsedFieldsClean(chunk: string)
    requires ';' !in chunk
    ensures Clean(ChunkOf(chunk))
  {
    SplitFree(chunk, ',');
    SplitWithin(chunk, ',', ';');
    FieldsFromClean(Trimmed(Split(chunk, ',')), 0, map[]);
  }

  // ---------------------------------------------------------------- whole levels

  /** A chunk without fields is no object; the placeholder of an object is the place of its chunk. */
  function ObjectsUpTo(chunks: seq<string>, n: nat): ObjectMap
    requires n <= |chunks| && n <= UUID_LIMIT
  {
    if n <= 1 then map[] else AddChunk(ObjectsUpTo(chunks, n - 1), n - 1, chunks[n - 1])
  }

  function AddChunk(objs: ObjectMap, u: Uuid, chunk: string): ObjectMap {
    if ChunkOf(chunk) == map[] then objs else PutObject(objs, u, ChunkOf(chunk))
  }

  function PutObject(objs: ObjectMap, u: Uuid, fields: FieldMap): ObjectMap {
    objs[u := Object(u, fields)]
  }

  lemma {:induction false} ObjectAt(chunks: seq<string>, n: nat, u: Uuid)
    requires n <= |chunks| && n <= UUID_LIMIT
    ensures u in ObjectsUpTo(chunks, n) <==> 1 <= u < n && ChunkOf(chunks[u]) != map[]
    ensures u in ObjectsUpTo(chunks, n) ==> ObjectsUpTo(chunks, n)[u].fields == ChunkOf(chunks[u])
  {
    if n > 1 {
      ObjectAt(chunks, n - 1, u);
    }
  }

  /** The header text is kept only if printing its fields would not give it back. */
  ghost function LevelOf(raw: string): LevelState
    requires |raw| < UUID_LIMIT
  {
    SplitLength(raw, ';');
    var chunks := Split(raw, ';');
    var header := ChunkOf(chunks[0]);
    LevelState(if FieldsText(header) == chunks[0] then "" else chunks[0], header, ObjectsUpTo(chunks, |chunks|))
  }

  lemma {:induction false} SplitLength(s: string, d: char)
    ensures |Split(s, d)| <= |s| + 1
  {
    if s != [] {
      SplitLength(s[1..], d);
    }
  }

  /** The length of a string fits its 64-bit size type. */
  method ParseLevelString(raw: string) returns (state: LevelState)
    requires |raw| < UUID_LIMIT
    ensures state == LevelOf(raw)
  {
    var chunks := SplitView(raw, ';');
    SplitLength(raw, ';');
    var header := ReadKvChunk(chunks[0]);
    var printed := SerializeFields(header);
    var rawHeader := if printed == chunks[0] then "" else chunks[0];
    var objects := ParseObjects(chunks);
    state := LevelState(rawHeader, header, objects);
  }

  method ParseObjects(chunks: seq<string>) returns (objects: ObjectMap)
    requires 1 <= |chunks| <= UUID_LIMIT
    ensures objects == ObjectsUpTo(chunks, |chunks|)
  {
    objects := map[];
    for i := 1 to |chunks|
      invariant objects == ObjectsUpTo(chunks, i)
    {
      if chunks[i] == "" { continue; }
      var fields := ReadKvChunk(chunks[i]);
      if fields == map[] { continue; }
      objects := PutObject(objects, i, fields);
    }
  }

  ghost function HeaderChunk(s: LevelState): string {
    if s.rawHeader != "" then s.rawHeader else FieldsText(s.header)
  }

  ghost function FieldsAt(objs: ObjectMap, u: Uuid): FieldMap {
    if u in objs then objs[u].fields else map[]
  }

  ghost function ObjectTexts(objs: ObjectMap, ids: seq<Uuid>): seq<string> {
    seq(|ids|, i requires 0 <= i < |ids| => FieldsText(FieldsAt(objs, ids[i])))
  }

  /** The header chunk, then every object in ascending id order, each chunk ended by `;`. */
  ghost function Chunks(s: LevelState, ids: seq<Uuid>): seq<string> {
    [HeaderChunk(s)] + ObjectTexts(s.objects, ids) + [""]
  }

  ghost predicate TextOf(s: LevelState, ids: seq<Uuid>, out: string) {
    out == Join(Chunks(s, ids), ';')
  }

  ghost predicate PrintedAs(s: LevelState, ids: seq<Uuid>, out: string) {
    Enumerates(ids, s.objects.Keys) && TextOf(s, ids, out)
  }

  method SerializeLevelString(s: LevelState) returns (out: string)
    ensures exists ids :: PrintedAs(s, ids, out)
  {
    if s.rawHeader != "" {
      out := s.rawHeader;
    } else {
      out := SerializeFields(s.header);
    }
    var ids := SortIds(s.objects.Keys);
    ghost var chunks := Chunks(s, ids);
    ghost var ended := out;
    StartChunk(chunks);
    out := out + ";";
    for i := 0 to |ids|
      invariant out == ended + ";" && ended + JoinFrom(chunks, i + 1, ';') == JoinFrom(chunks, 0, ';')
    {
      var id: Uuid := ids[i];
      assert id in ids;
      var text := SerializeFields(s.objects[id].fields);
      ChunkAt(s, ids, i);
      JoinFromStep(chunks, i + 1, ';', ended);
      out := out + text;
      ended := out;
      out := out + ";";
    }
    LastChunk(chunks, ended);
    JoinFromAll(chunks, ';');
    assert PrintedAs(s, ids, out);
  }

  lemma ChunkAt(s: LevelState, ids: seq<Uuid>, i: nat)
    requires i < |ids|
    ensures Chunks(s, ids)[i + 1] == FieldsText(FieldsAt(s.objects, ids[i]))
  {
  }

  lemma StartChunk(chunks: seq<string>)
    requires |chunks| >= 2
    ensures chunks[0] + JoinFrom(chunks, 1, ';') == JoinFrom(chunks, 0, ';')
  {
  }

  lemma LastChunk(chunks: seq<string>, ended: string)
    requires |chunks| >= 2 && chunks[|chunks| - 1] == ""
    ensures ended + JoinFrom(chunks, |chunks| - 1, ';') == ended + ";"
  {
    var n := |chunks| - 1;
    assert JoinFrom(chunks, n + 1, ';') == "";
    assert JoinFrom(chunks, n, ';') == [';'] + ("" + "");
  }

  // ---------------------------------------------------------------- a level printed and read again

  /** Whatever was parsed, printing starts with the original header chunk, byte for byte. */
  /** A header that is as the printer prints it is kept as map alone, unless its last value is empty. */
  lemma PrintedHeaderIsMap(m: FieldMap, rest: string)
    requires Clean(m) && Reread(m) == m && |FieldsText(m) + [';'] + rest| < UUID_LIMIT
    ensures LevelOf(FieldsText(m) + [';'] + rest).header == m && LevelOf(FieldsText(m) + [';'] + rest).rawHeader == ""
  {
    var raw := FieldsText(m) + [';'] + rest;
    CleanEntries(m, ';');
    FlattenFree(EntriesOf(m.Keys, m), ';');
    JoinFree(Flatten(EntriesOf(m.Keys, m)), ',', ';');
    SplitFirst(FieldsText(m), ';', rest);
    RereadFields(m);
    SplitLength(raw, ';');
  }

  lemma HeaderChunkKept(raw: string)
    requires |raw| < UUID_LIMIT
    ensures HeaderChunk(LevelOf(raw)) == Split(raw, ';')[0]
  {
    SplitLength(raw, ';');
    assert FieldsText(ChunkOf("")) == "" by {
      assert EntriesOf({}, map[]) == [];
    }
  }

  ghost predicate StartsWith(s: string, prefix: string) {
    |prefix| <= |s| && s[..|prefix|] == prefix
  }

  lemma PrintStartsWithHeader(raw: string, ids: seq<Uuid>, out: string)
    requires |raw| < UUID_LIMIT && PrintedAs(LevelOf(raw), ids, out)
    ensures StartsWith(out, Split(raw, ';')[0] + ";")
  {
    HeaderChunkKept(raw);
    FirstChunk(Chunks(LevelOf(raw), ids));
  }

  lemma FirstChunk(chunks: seq<string>)
    requires |chunks| >= 2
    ensures StartsWith(Join(chunks, ';'), chunks[0] + ";")
  {
    assert Join(chunks, ';') == chunks[0] + [';'] + Join(chunks[1..], ';');
  }

  lemma EntriesFree(m: FieldMap)
    requires Clean(m)
    ensures ';' !in FieldsText(m)
  {
    CleanEntries(m, ';');
    FlattenFree(EntriesOf(m.Keys, m), ';');
    JoinFree(Flatten(EntriesOf(m.Keys, m)), ',', ';');
  }

  ghost predicate CleanObjects(objs: ObjectMap) {
    forall u :: u in objs ==> Clean(objs[u].fields)
  }

  /** Splitting a printed level gives its chunks back. */
  lemma SplitLevel(s: LevelState, ids: seq<Uuid>, out: string)
    requires TextOf(s, ids, out) && CleanObjects(s.objects) && ';' !in HeaderChunk(s)
    ensures Split(out, ';') == Chunks(s, ids)
  {
    var chunks := Chunks(s, ids);
    forall i | 0 <= i < |chunks| ensures ';' !in chunks[i] {
      if 0 < i < |chunks| - 1 {
        EntriesFree(FieldsAt(s.objects, ids[i - 1]));
        assert chunks[i] == FieldsText(FieldsAt(s.objects, ids[i - 1]));
      }
    }
    SplitJoin(chunks, ';');
  }

  /** The header of `s` is what parsing the chunk gives. */
  ghost predicate HeaderFrom(s: LevelState, chunk: string) {
    && ';' !in chunk && s.header == ChunkOf(chunk)
    && s.rawHeader == if FieldsText(s.header) == chunk then "" else chunk
  }

  lemma HeaderPrints(s: LevelState, chunk: string)
    requires HeaderFrom(s, chunk)
    ensures HeaderChunk(s) == chunk
  {
    assert FieldsText(ChunkOf("")) == "" by {
      assert EntriesOf({}, map[]) == [];
    }
  }

  lemma ParsedHeader(raw: string)
    requires |raw| < UUID_LIMIT
    ensures HeaderFrom(LevelOf(raw), Split(raw, ';')[0]) && CleanObjects(LevelOf(raw).objects)
  {
    SplitLength(raw, ';');
    SplitFree(raw, ';');
    var chunks, objs := Split(raw, ';'), LevelOf(raw).objects;
    forall u | u in objs ensures Clean(objs[u].fields) {
      ObjectAt(chunks, |chunks|, u);
      ParsedFieldsClean(chunks[u]);
    }
  }

  lemma HeaderOfChunks(raw: string, chunks: seq<string>)
    requires |raw| < UUID_LIMIT && Split(raw, ';') == chunks
    ensures |chunks| <= UUID_LIMIT
    ensures LevelOf(raw).header == ChunkOf(chunks[0]) && LevelOf(raw).objects == ObjectsUpTo(chunks, |chunks|)
    ensures LevelOf(raw).rawHeader == if FieldsText(ChunkOf(chunks[0])) == chunks[0] then "" else chunks[0]
  {
    SplitLength(raw, ';');
  }

  lemma FieldsOfChunks(chunks: seq<string>, objs: ObjectMap, u: Uuid)
    requires 0 < |chunks| <= UUID_LIMIT && objs == ObjectsUpTo(chunks, |chunks|)
    ensures FieldsAt(objs, u) == if 1 <= u < |chunks| then ChunkOf(chunks[u]) else map[]
    ensures u in objs <==> FieldsAt(objs, u) != map[]
  {
    ObjectAt(chunks, |chunks|, u);
  }

  lemma ObjectChunk(s: LevelState, ids: seq<Uuid>, u: int)
    requires CleanObjects(s.objects) && 1 <= u <= |ids|
    ensures ChunkOf(Chunks(s, ids)[u]) == Reread(FieldsAt(s.objects, ids[u - 1]))
  {
    var m := FieldsAt(s.objects, ids[u - 1]);
    ChunkAt(s, ids, u - 1);
    assert Chunks(s, ids)[u] == FieldsText(m);
    RereadFields(m);
  }

  lemma ChunkEnds(s: LevelState, ids: seq<Uuid>)
    ensures var chunks := Chunks(s, ids);
            |chunks| == |ids| + 2 && chunks[0] == HeaderChunk(s) && chunks[|ids| + 1] == ""
  {
  }

  /** The chunks of a printed parsed state, and what one of them reads as. */
  lemma PrintedChunks(s: LevelState, chunk: string, ids: seq<Uuid>, out: string, u: Uuid) returns (chunks: seq<string>)
    requires HeaderFrom(s, chunk) && CleanObjects(s.objects) && TextOf(s, ids, out)
    ensures Split(out, ';') == chunks && |chunks| == |ids| + 2 && chunks[0] == chunk && chunks[|ids| + 1] == ""
    ensures 1 <= u <= |ids| ==> ChunkOf(chunks[u]) == Reread(FieldsAt(s.objects, ids[u - 1]))
  {
    HeaderPrints(s, chunk);
    SplitLevel(s, ids, out);
    ChunkEnds(s, ids);
    chunks := Chunks(s, ids);
    if 1 <= u <= |ids| {
      ObjectChunk(s, ids, u);
    }
  }

  /**
   * Printing a parsed state and parsing it again: the header comes back exactly; the object printed at place `i` comes
   * back under the placeholder `i + 1` with its fields reread, unless nothing of it is left.
   */
  lemma ReparsedObject(s: LevelState, chunk: string, ids: seq<Uuid>, out: string, u: Uuid)
    requires HeaderFrom(s, chunk) && CleanObjects(s.objects) && TextOf(s, ids, out) && |out| < UUID_LIMIT
    ensures LevelOf(out).header == s.header && LevelOf(out).rawHeader == s.rawHeader
    ensures FieldsAt(LevelOf(out).objects, u) ==
            if 1 <= u <= |ids| then Reread(FieldsAt(s.objects, ids[u - 1])) else map[]
    ensures u in LevelOf(out).objects <==> FieldsAt(LevelOf(out).objects, u) != map[]
  {
    var chunks := PrintedChunks(s, chunk, ids, out, u);
    HeaderOfChunks(out, chunks);
    FieldsOfChunks(chunks, LevelOf(out).objects, u);
    var last := |ids| + 1;
    assert u == last ==> ChunkOf(chunks[u]) == map[];
  }

  lemma ExampleChunk()
    ensures ChunkOf("a,,") == map["a" := ""]
  {
    SplitFirst("a", ',', ",");
    SplitFirst("", ',', "");
    SplitOne("", ',');
    assert "a" + [','] + "," == "a,," && "" + [','] + "" == ",";
    var tokens := ["a", "", ""];
    assert Split("a,,", ',') == tokens;
    assert Trimmed(tokens) == ["a", ""];
    assert FieldsFrom(["a", ""], 0, map[]) == map["a" := ""];
  }

  lemma ExampleLevel()
    ensures Split(";a,,", ';') == ["", "a,,"]
    ensures LevelOf(";a,,").objects == map[1 := Object(1, map["a" := ""])]
  {
    SplitFirst("", ';', "a,,");
    SplitOne("a,,", ';');
    assert "" + [';'] + "a,," == ";a,,";
    ExampleChunk();
    var parts := ["", "a,,"];
    assert ObjectsUpTo(parts, 1) == map[];
    assert ObjectsUpTo(parts, 2) == AddChunk(map[], 1, "a,,");
  }

  /** An object parsing accepts and printing loses: its only field is empty. */
  lemma EmptyObjectLost(ids: seq<Uuid>, out: string)
    requires PrintedAs(LevelOf(";a,,"), ids, out) && |out| < UUID_LIMIT
    ensures LevelOf(";a,,").objects == map[1 := Object(1, map["a" := ""])]
    ensures LevelOf(out).objects == map[]
  {
    ExampleLevel();
    ParsedHeader(";a,,");
    var s := LevelOf(";a,,");
    forall u: Uuid ensures u !in LevelOf(out).objects {
      ReparsedObject(s, "", ids, out, u);
      if 1 <= u <= |ids| {
        var id: Uuid := ids[u - 1];
        assert id in ids;
        assert FieldsAt(s.objects, id) == map["a" := ""];
        RereadSame(map["a" := ""]);
      }
    }
  }
}
