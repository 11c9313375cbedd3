/**
 * The header a state prints (`src/model/LevelParser.cpp:83-93`): the raw header text if there is one, else the header
 * map. A revert and a merge change the two separately, so the text may read differently from the map.
 */
module HeaderText {
  import opened Prelude
  import opened LevelModel
  import opened Differ
  import opened DifferLaws
  import opened Parsing
  import opened KeyValues
  import opened Sorting
  import opened GdHeader
  import opened HeaderMerge
  import opened MergeService
  import opened LevelParser

  /** What is read at a key when the printed header is parsed again. */
  ghost function Shown(s: LevelState, k: string): string {
    Get(ChunkOf(HeaderChunk(s)), k)
  }

  ghost predicate ReadsAlike(s: LevelState, k: string) {
    Get(s.header, k) == Shown(s, k)
  }

  /** A raw header is printed as it is; a map prints to its own text only if it holds no empty key and no delimiter. */
  ghost predicate Printable(s: LevelState) {
    s.rawHeader == "" ==> Clean(s.header)
  }

  /** Without a raw header the map is what is printed. */
  lemma MapShown(s: LevelState, k: string)
    requires s.rawHeader == "" && Clean(s.header)
    ensures ReadsAlike(s, k)
  {
    RereadFields(s.header);
    RereadSame(s.header);
    SameFieldsIff(Reread(s.header), s.header);
  }

  /** Every parsed level reads alike. */
  lemma ParsedReadsAlike(raw: string, k: string)
    requires |raw| < UUID_LIMIT
    ensures ReadsAlike(LevelOf(raw), k)
  {
    HeaderChunkKept(raw);
    SplitLength(raw, ';');
  }

  /** Equality up to empty values cannot tell the printed headers apart. */
  lemma SameShown(a: LevelState, b: LevelState, k: string)
    requires SameState(a, b) && Printable(a) && Printable(b)
    ensures Shown(a, k) == Shown(b, k) && (ReadsAlike(a, k) <==> ReadsAlike(b, k))
  {
    SameStateIff(a, b);
    SameFieldsIff(a.header, b.header);
    if a.rawHeader == "" {
      MapShown(a, k);
      MapShown(b, k);
    }
  }

  // ---------------------------------------------------------------- the printed header after a revert

  /** The raw header of HEAD after undoing the change from parent to target. */
  function RawAfter(target: LevelState, parent: LevelState, head: LevelState): string {
    if target.rawHeader != parent.rawHeader then parent.rawHeader else head.rawHeader
  }

  /** The undo replaces a raw header as a whole, and in the map the keys that target changed. */
  predicate Replaced(target: LevelState, parent: LevelState, head: LevelState, k: string) {
    if RawAfter(target, parent, head) != "" then target.rawHeader != parent.rawHeader
    else k in DiffFields(target.header, parent.header)
  }

  lemma ForceClean(f: FieldMap, a: FieldMap, b: FieldMap)
    requires Clean(f) && Clean(b)
    ensures Clean(ForceFields(f, DiffFields(a, b)))
  {
    var ch := DiffFields(a, b);
    forall k | k in ForceFields(f, ch) ensures k != "" && CleanText(k) && CleanText(ForceFields(f, ch)[k]) {
      assert k in ch && ch[k].after != "" ==> k in b;
    }
  }

  /**
   * What a state passes on at a key: what its text reads as if the result has a raw header, else what its map holds.
   */
  ghost function Gives(s: LevelState, raw: string, k: string): string {
    if raw != "" then Shown(s, k) else Get(s.header, k)
  }

  /** What a revert prints reads, at every key, as what parent gives or as what HEAD gives. */
  lemma RevertShows(target: LevelState, parent: LevelState, head: LevelState, d: Delta, k: string)
    requires IsDiff(target, parent, d)
    requires RawAfter(target, parent, head) == "" ==> Clean(parent.header) && Clean(head.header)
    ensures Shown(Apply(head, d), k) ==
            Gives(if Replaced(target, parent, head, k) then parent else head, RawAfter(target, parent, head), k)
  {
    var result := Apply(head, d);
    if result.rawHeader == "" {
      ForceClean(head.header, target.header, parent.header);
      MapShown(result, k);
      GetForce(head.header, d.headerChanges, k);
    }
  }

  /** "Parent's value where target changed it, HEAD's value elsewhere", on the printed headers. */
  ghost predicate UndoneShown(target: LevelState, parent: LevelState, head: LevelState, result: LevelState, k: string) {
    Shown(result, k) == if Shown(target, k) != Shown(parent, k) then Shown(parent, k) else Shown(head, k)
  }

  /**
   * Target left the key alone, and the undo replaces it although HEAD reads differently by now: a later edit is lost.
   */
  ghost predicate LaterEditLost(target: LevelState, parent: LevelState, head: LevelState, k: string) {
    Replaced(target, parent, head, k) && Shown(target, k) == Shown(parent, k) &&
    Gives(parent, RawAfter(target, parent, head), k) != Shown(head, k)
  }

  /** Target changed the key, and the undo does not reach it although HEAD does not read as parent does. */
  ghost predicate UndoUnseen(target: LevelState, parent: LevelState, head: LevelState, k: string) {
    !Replaced(target, parent, head, k) && Shown(target, k) != Shown(parent, k) &&
    Gives(head, RawAfter(target, parent, head), k) != Shown(parent, k)
  }

  /** The state whose value is right gives another one than it shows, because its map and its text differ. */
  ghost predicate MapDrifted(target: LevelState, parent: LevelState, head: LevelState, k: string) {
    var from := if Replaced(target, parent, head, k) then parent else head;
    (Replaced(target, parent, head, k) <==> Shown(target, k) != Shown(parent, k)) &&
    Gives(from, RawAfter(target, parent, head), k) != Shown(from, k)
  }

  lemma NoDrift(target: LevelState, parent: LevelState, head: LevelState, k: string)
    requires ReadsAlike(parent, k) && ReadsAlike(head, k)
    ensures !MapDrifted(target, parent, head, k)
  {
  }

  /**
   * A revert prints "parent's value where target changed it, HEAD's value elsewhere" at a key if and only if it neither
   * loses a later edit nor goes unseen there. (Maps drift from texts only in states made by a revert or a merge, never
   * in a captured one.)
   */
  lemma RevertShownIff(target: LevelState, parent: LevelState, head: LevelState, d: Delta, k: string)
    requires IsDiff(target, parent, d)
    requires RawAfter(target, parent, head) == "" ==> Clean(parent.header) && Clean(head.header)
    ensures UndoneShown(target, parent, head, Apply(head, d), k) <==>
            && !LaterEditLost(target, parent, head, k) && !UndoUnseen(target, parent, head, k)
            && !MapDrifted(target, parent, head, k)
  {
    RevertShows(target, parent, head, d, k);
  }

  /** The reverted state prints too. */
  lemma RevertPrintable(target: LevelState, parent: LevelState, head: LevelState, d: Delta)
    requires IsDiff(target, parent, d)
    requires RawAfter(target, parent, head) == "" ==> Clean(parent.header) && Clean(head.header)
    ensures Printable(Apply(head, d))
  {
    if RawAfter(target, parent, head) == "" {
      ForceClean(head.header, target.header, parent.header);
    }
  }

  /**
   * The same of any states equal to these up to empty values: the condition, on the states the undo was computed from,
   * decides what is printed of the replayed ones.
   */
  lemma RevertShownAcross(target: LevelState, parent: LevelState, head: LevelState, d: Delta, k: string,
                          target2: LevelState, parent2: LevelState, head2: LevelState, result2: LevelState)
    requires IsDiff(target, parent, d)
    requires RawAfter(target, parent, head) == "" ==> Clean(parent.header) && Clean(head.header)
    requires Printable(target) && Printable(parent) && Printable(head)
    requires Printable(target2) && Printable(parent2) && Printable(head2) && Printable(result2)
    requires SameState(target, target2) && SameState(parent, parent2) && SameState(head, head2)
    requires SameState(Apply(head, d), result2)
    ensures UndoneShown(target2, parent2, head2, result2, k) <==>
            && !LaterEditLost(target, parent, head, k) && !UndoUnseen(target, parent, head, k)
            && !MapDrifted(target, parent, head, k)
  {
    RevertPrintable(target, parent, head, d);
    SameShown(target, target2, k);
    SameShown(parent, parent2, k);
    SameShown(head, head2, k);
    SameShown(Apply(head, d), result2, k);
    RevertShownIff(target, parent, head, d, k);
  }

  /** The reverted state still reads alike, unless text and map were undone differently. */
  lemma RevertReadsAlikeIff(target: LevelState, parent: LevelState, head: LevelState, d: Delta, k: string)
    requires IsDiff(target, parent, d)
    requires RawAfter(target, parent, head) == "" ==> Clean(parent.header) && Clean(head.header)
    requires ReadsAlike(parent, k) && ReadsAlike(head, k)
    ensures ReadsAlike(Apply(head, d), k) <==>
            || RawAfter(target, parent, head) == "" || Shown(parent, k) == Shown(head, k)
            || (target.rawHeader != parent.rawHeader <==> k in DiffFields(target.header, parent.header))
  {
    RevertShows(target, parent, head, d, k);
    GetForce(head.header, d.headerChanges, k);
  }

  /** Without raw headers all that can happen is the loss of a value at a phantom key. */
  lemma PlainRevertIff(target: LevelState, parent: LevelState, head: LevelState, d: Delta, k: string)
    requires IsDiff(target, parent, d) && Clean(target.header) && Clean(parent.header) && Clean(head.header)
    requires target.rawHeader == "" && parent.rawHeader == "" && head.rawHeader == ""
    ensures UndoneShown(target, parent, head, Apply(head, d), k) <==>
            !PhantomHit(target.header, parent.header, head.header, k)
  {
    MapShown(target, k);
    MapShown(parent, k);
    MapShown(head, k);
    NoDrift(target, parent, head, k);
    RevertShownIff(target, parent, head, d, k);
  }

  // ---------------------------------------------------------------- both failures happen

  lemma FourTokens(a: string, b: string, c: string, d: string, text: string)
    requires ',' !in a && ',' !in b && ',' !in c && ',' !in d && d != "" && a != "" && c != "" && a != c
    requires text == a + [','] + (b + [','] + (c + [','] + d))
    ensures ChunkOf(text) == map[a := b, c := d] && Split(text, ',') == [a, b, c, d]
  {
    SplitFirst(a, ',', b + [','] + (c + [','] + d));
    SplitFirst(b, ',', c + [','] + d);
    SplitFirst(c, ',', d);
    SplitOne(d, ',');
    var tokens := [a, b, c, d];
    assert text != "" && Split(text, ',') == tokens && Trimmed(tokens) == tokens;
    assert FieldsFrom(tokens, 2, map[a := b]) == map[a := b, c := d];
  }

  /** The printer sorts keys, so a text that starts with a later one is kept as raw header. */
  lemma Unsorted(m: FieldMap, text: string)
    requires Clean(m) && "kA1" in m && |Split(text, ',')| > 0 && Split(text, ',')[0] == "kA2"
    ensures FieldsText(m) != text
  {
    var all := LevelParser.EntriesOf(m.Keys, m);
    CleanEntries(m, ',');
    SplitKvText(all, ',');
    FlattenAt(all, 0);
    LeastStringFirst(m.Keys, "kA1");
    assert !StringLess("kA2", "kA1") by {
      assert "kA2"[1..] == "A2" && "kA1"[1..] == "A1" && "A2"[1..] == "2" && "A1"[1..] == "1";
    }
  }

  /** A header whose text is not in the printer's order, as parsing leaves it. */
  function Header(one: string, two: string): LevelState {
    LevelState("kA2," + one + ",kA1," + two, map["kA2" := one, "kA1" := two], map[])
  }

  lemma HeaderTokens(one: string, two: string)
    requires CleanText(one) && CleanText(two) && two != ""
    ensures ChunkOf(Header(one, two).rawHeader) == Header(one, two).header
    ensures Split(Header(one, two).rawHeader, ',')[0] == "kA2"
  {
    var text := Header(one, two).rawHeader;
    assert text == "kA2" + [','] + (one + [','] + ("kA1" + [','] + two));
    FourTokens("kA2", one, "kA1", two, text);
  }

  lemma NotSplit(one: string, two: string)
    requires CleanText(one) && CleanText(two)
    ensures Clean(Header(one, two).header) && ';' !in Header(one, two).rawHeader
  {
  }

  lemma HeaderParses(one: string, two: string)
    requires CleanText(one) && CleanText(two) && two != ""
    ensures LevelParser.HeaderFrom(Header(one, two), Header(one, two).rawHeader) && Clean(Header(one, two).header)
    ensures Header(one, two).rawHeader != "" && forall k :: ReadsAlike(Header(one, two), k)
    ensures Shown(Header(one, two), "kA2") == one && Shown(Header(one, two), "kA1") == two
  {
    HeaderTokens(one, two);
    NotSplit(one, two);
    Unsorted(Header(one, two).header, Header(one, two).rawHeader);
  }

  lemma OtherText(a: string, b: string, c: string)
    requires CleanText(a) && CleanText(b) && CleanText(c) && c != "" && a != b
    ensures Header(a, c).rawHeader != Header(b, c).rawHeader
  {
    HeaderParses(a, c);
    HeaderParses(b, c);
  }

  /** Target changed kA2 from `b` to `a`, a later commit kA1 from `c` to `e`: undoing the target takes both back. */
  lemma LaterEditIsLost(a: string, b: string, c: string, e: string, d: Delta)
    requires CleanText(a) && CleanText(b) && CleanText(c) && CleanText(e) && c != "" && e != "" && a != b && e != c
    requires IsDiff(Header(a, c), Header(b, c), d)
    ensures LaterEditLost(Header(a, c), Header(b, c), Header(a, e), "kA1")
    ensures forall k :: !PhantomHit(Header(a, c).header, Header(b, c).header, Header(a, e).header, k)
    ensures Get(Apply(Header(a, e), d).header, "kA1") == e == Shown(Header(a, e), "kA1")
    ensures Shown(Apply(Header(a, e), d), "kA1") == c
  {
    HeaderParses(a, c);
    HeaderParses(b, c);
    HeaderParses(a, e);
    OtherText(a, b, c);
    RevertShows(Header(a, c), Header(b, c), Header(a, e), d, "kA1");
    GetForce(Header(a, e).header, d.headerChanges, "kA1");
  }

  /** A state with the one header key kA1. */
  function OneKey(v: string): LevelState {
    LevelState("", map["kA1" := v], map[])
  }

  lemma OneKeyShows(v: string)
    requires CleanText(v)
    ensures Clean(OneKey(v).header) && Shown(OneKey(v), "kA1") == v && ReadsAlike(OneKey(v), "kA1")
  {
    MapShown(OneKey(v), "kA1");
  }

  /**
   * Target changed kA1 from `b` to `a`, and HEAD has a raw header since: a silent revert that changes nothing one
   * sees.
   */
  lemma UndoIsUnseen(a: string, b: string, c: string, d: Delta)
    requires CleanText(a) && CleanText(b) && CleanText(c) && a != "" && a != b
    requires IsDiff(OneKey(a), OneKey(b), d)
    ensures UndoUnseen(OneKey(a), OneKey(b), Header(c, a), "kA1") && Conflicts(Header(c, a), d) == []
    ensures Shown(Apply(Header(c, a), d), "kA1") == Shown(Header(c, a), "kA1") == a
  {
    HeaderParses(c, a);
    OneKeyShows(a);
    OneKeyShows(b);
    RevertShows(OneKey(a), OneKey(b), Header(c, a), d, "kA1");
    OneKeyStill(a, b, c);
    RevertSilentIff(OneKey(a), OneKey(b), Header(c, a), d);
  }

  lemma OneKeyStill(a: string, b: string, c: string)
    ensures FieldsStill(OneKey(a).header, OneKey(b).header, Header(c, a).header)
  {
  }

  // ---------------------------------------------------------------- a header list read as a field map

  /** The value the list holds for a key from place `i` on. */
  function ValueFrom(kv: seq<Kv>, i: nat, k: string): string
    decreases |kv| - i
  {
    if i >= |kv| then "" else if kv[i].key == k then kv[i].value else ValueFrom(kv, i + 1, k)
  }

  lemma {:induction false} ValueFound(kv: seq<Kv>, i: nat, j: nat, k: string)
    requires DistinctKeys(kv) && i <= j < |kv| && kv[j].key == k
    ensures ValueFrom(kv, i, k) == kv[j].value
    decreases j - i
  {
    if i < j {
      ValueFound(kv, i + 1, j, k);
    }
  }

  lemma {:induction false} ValueMissing(kv: seq<Kv>, i: nat, k: string)
    requires !HasKey(kv, k)
    ensures ValueFrom(kv, i, k) == ""
    decreases |kv| - i
  {
    if i < |kv| {
      assert kv[i].key != k;
      ValueMissing(kv, i + 1, k);
    }
  }

  lemma ValueOfMap(kv: seq<Kv>, k: string)
    requires DistinctKeys(kv)
    ensures ValueFrom(kv, 0, k) == Get(ToMap(kv), k)
  {
    ToMapKeys(kv, k);
    if HasKey(kv, k) {
      var j :| 0 <= j < |kv| && kv[j].key == k;
      ValueFound(kv, 0, j, k);
      ToMapAt(kv, j);
    } else {
      ValueMissing(kv, 0, k);
    }
  }

  /** Reading the tokens of a list pair by pair: empty keys are skipped, all others come through. */
  lemma {:induction false} ReadFlat(kv: seq<Kv>, tokens: seq<string>, i: nat, sofar: FieldMap, k: string)
    requires DistinctKeys(kv) && i <= |kv| && Flatten(kv) <= tokens && 2 * |kv| <= |tokens| <= 2 * |kv| + 1
    requires k != "" && forall j :: i <= j < |kv| ==> kv[j].key !in sofar
    ensures Get(FieldsFrom(tokens, 2 * i, sofar), k) == if k in sofar then sofar[k] else ValueFrom(kv, i, k)
    decreases |kv| - i
  {
    if i < |kv| {
      FlattenAt(kv, i);
      var e := kv[i];
      if e.key == "" {
        ReadFlat(kv, tokens, i + 1, sofar, k);
      } else {
        ReadFlat(kv, tokens, i + 1, sofar[e.key := e.value], k);
      }
    }
  }

  lemma ReadTokens(kv: seq<Kv>, tokens: seq<string>, k: string)
    requires DistinctKeys(kv) && Flatten(kv) <= tokens && 2 * |kv| <= |tokens| <= 2 * |kv| + 1 && k != ""
    ensures Get(FieldsFrom(tokens, 0, map[]), k) == Get(ToMap(kv), k)
  {
    ReadFlat(kv, tokens, 0, map[], k);
    ValueOfMap(kv, k);
  }

  /** Reading a header text as fields, and as a list. */
  lemma TextReads(text: string, k: string)
    requires HeaderOf(text).Some? && k != ""
    ensures Get(ChunkOf(text), k) == Get(ToMap(HeaderOf(text).value), k)
  {
    GdHeader.HeaderTokens(text);
    ParsedHeaderClean(text);
    LengthIs(HeaderOf(text).value);
    ReadTokens(HeaderOf(text).value, Trimmed(Split(text, ',')), k);
    assert Split("", ',') == [""];
  }

  /** Printing a list and reading the text as fields; an empty value at the end is lost and reads the same. */
  lemma ListReads(kv: seq<Kv>, k: string)
    requires DistinctKeys(kv) && KvFree(kv, ',') && k != ""
    ensures Get(ChunkOf(HeaderText(kv)), k) == Get(ToMap(kv), k)
  {
    if kv != [] {
      var text, front, last := HeaderText(kv), kv[..|kv| - 1], kv[|kv| - 1];
      SplitKvText(kv, ',');
      LengthIs(kv);
      FlattenAt(kv, |kv| - 1);
      assert Split("", ',') == [""];
      if last.value != "" {
        ReadTokens(kv, Flatten(kv), k);
      } else {
        FlattenFront(kv);
        TrimCut(Flatten(front), last.key);
        LengthIs(front);
        ReadTokens(front, Flatten(front) + [last.key], k);
        ToMapFront(kv);
        ToMapAt(kv, |kv| - 1);
      }
    }
  }

  // ---------------------------------------------------------------- the printed header after a merge

  /** The merged text reads, key by key, as the merge of the three texts. */
  lemma MergeShows(base: LevelState, ours: LevelState, theirs: LevelState, merged: LevelState, n: nat, k: string)
    requires IsMerge(base, ours, theirs, merged, n) && Structured(base.rawHeader, ours.rawHeader, theirs.rawHeader)
    requires merged.rawHeader != "" && k != ""
    ensures Shown(merged, k) ==
            OrBlank(HeaderSides(base.rawHeader, ours.rawHeader, theirs.rawHeader).Merged(k))
  {
    var ids, next :| MergedFrom3(base, ours, theirs, ids, next, merged, n);
    MergedHeaderValue(base.rawHeader, ours.rawHeader, theirs.rawHeader, k);
    MergedKvFree(base.rawHeader, ours.rawHeader, theirs.rawHeader);
    ListReads(MergedKv(base.rawHeader, ours.rawHeader, theirs.rawHeader), k);
  }

  function OrBlank(v: Option<string>): string {
    if v.Some? then v.value else ""
  }

  /** A header key with a value, or no such key. */
  ghost predicate PlainAt(s: LevelState, k: string)
    requires HeaderOf(s.rawHeader).Some?
  {
    var m := ToMap(HeaderOf(s.rawHeader).value);
    s.rawHeader != "" && ReadsAlike(s, k) && (k in m ==> m[k] != "")
  }

  lemma PlainReads(s: LevelState, k: string)
    requires HeaderOf(s.rawHeader).Some? && PlainAt(s, k) && k != ""
    ensures var v := ValueAt(ToMap(HeaderOf(s.rawHeader).value), k);
            OrBlank(v) == Get(s.header, k) && (v.Some? ==> v.value != "")
  {
    TextReads(s.rawHeader, k);
  }

  lemma MergeClean(b: FieldMap, o: FieldMap, t: FieldMap)
    requires Clean(b) && Clean(o) && Clean(t)
    ensures Clean(MergeFields(b, o, t))
  {
    var m := MergeFields(b, o, t);
    forall k | k in m ensures k != "" && CleanText(k) && CleanText(m[k]) {
      assert m[k] == Get(b, k) || m[k] == Get(o, k) || m[k] == Get(t, k);
    }
  }

  /** The text of theirs or ours that an unstructured merge keeps whole is empty; a structured one has no entry left. */
  ghost predicate TextGone(base: LevelState, ours: LevelState, theirs: LevelState) {
    if Structured(base.rawHeader, ours.rawHeader, theirs.rawHeader) then
      NothingLeft(base.rawHeader, ours.rawHeader, theirs.rawHeader)
    else if ours.rawHeader == base.rawHeader then theirs.rawHeader == ""
    else ours.rawHeader == ""
  }

  /** Ours has base's entry for the key in its raw header, or has none there like base; else, base's whole text. */
  ghost predicate OursLeftText(base: LevelState, ours: LevelState, theirs: LevelState, k: string) {
    if Structured(base.rawHeader, ours.rawHeader, theirs.rawHeader) then
      EntryIn(ours.rawHeader, k) == EntryIn(base.rawHeader, k)
    else ours.rawHeader == base.rawHeader
  }

  ghost function EntryIn(raw: string, k: string): Option<string>
    requires HeaderOf(raw).Some?
  {
    ValueAt(ToMap(HeaderOf(raw).value), k)
  }

  /** The side the merged text and the merged map take a key from. */
  ghost function TextSide(base: LevelState, ours: LevelState, theirs: LevelState, k: string): LevelState {
    if OursLeftText(base, ours, theirs, k) then theirs else ours
  }

  function MapSide(base: LevelState, ours: LevelState, theirs: LevelState, k: string): LevelState {
    if Get(ours.header, k) == Get(base.header, k) then theirs else ours
  }

  lemma TextGoneIff(base: LevelState, ours: LevelState, theirs: LevelState, merged: LevelState, n: nat)
    requires IsMerge(base, ours, theirs, merged, n)
    ensures merged.rawHeader == "" <==> TextGone(base, ours, theirs)
  {
    MergedHeaders(base, ours, theirs, merged, n);
    if Structured(base.rawHeader, ours.rawHeader, theirs.rawHeader) {
      MergedTextEmptyIff(base.rawHeader, ours.rawHeader, theirs.rawHeader);
    }
  }

  /** A key other than the channels reads in the merged text as in the raw header of the side it is taken from. */
  lemma MergedTextReads(base: LevelState, ours: LevelState, theirs: LevelState, merged: LevelState, n: nat, k: string)
    requires IsMerge(base, ours, theirs, merged, n) && k != "" && !TextGone(base, ours, theirs)
    requires k == CHANNELS_KEY ==> !Structured(base.rawHeader, ours.rawHeader, theirs.rawHeader)
    ensures var from := TextSide(base, ours, theirs, k);
            Shown(merged, k) == if from.rawHeader == "" then "" else Shown(from, k)
  {
    TextGoneIff(base, ours, theirs, merged, n);
    MergedHeaders(base, ours, theirs, merged, n);
    if Structured(base.rawHeader, ours.rawHeader, theirs.rawHeader) {
      MergeShows(base, ours, theirs, merged, n, k);
      var from := TextSide(base, ours, theirs, k);
      TextReads(from.rawHeader, k);
      EmptyList();
    }
  }

  /**
   * Text and map of a merge read alike at a key if and only if no text is left, or both take the key from the same
   * side (ours changed its entry in the text exactly if it changed the value in the map), or both sides agree on it; if
   * the side the text takes it from has no raw header, only if the value is empty.
   */
  lemma MergeReadsAlikeIff(base: LevelState, ours: LevelState, theirs: LevelState, merged: LevelState, n: nat,
                           k: string)
    requires IsMerge(base, ours, theirs, merged, n) && k != ""
    requires k == CHANNELS_KEY ==> !Structured(base.rawHeader, ours.rawHeader, theirs.rawHeader)
    requires ReadsAlike(ours, k) && ReadsAlike(theirs, k)
    requires TextGone(base, ours, theirs) ==> Clean(base.header) && Clean(ours.header) && Clean(theirs.header)
    ensures ReadsAlike(merged, k) <==>
            || TextGone(base, ours, theirs)
            || (if TextSide(base, ours, theirs, k).rawHeader == "" then
                  Get(MapSide(base, ours, theirs, k).header, k) == ""
                else || Get(ours.header, k) == Get(theirs.header, k)
                     || (OursLeftText(base, ours, theirs, k) <==> Get(ours.header, k) == Get(base.header, k)))
  {
    TextGoneIff(base, ours, theirs, merged, n);
    MergedHeaders(base, ours, theirs, merged, n);
    MergedFieldAt(base.header, ours.header, theirs.header, k);
    if TextGone(base, ours, theirs) {
      MergeClean(base.header, ours.header, theirs.header);
      MapShown(merged, k);
    } else {
      MergedTextReads(base, ours, theirs, merged, n, k);
    }
  }

  /** Theirs' text holds nothing but a channel text that does not parse. */
  ghost predicate OnlyBadChannels(raw: string)
    requires HeaderOf(raw).Some?
  {
    forall key :: EntryIn(raw, key).Some? ==> key == CHANNELS_KEY && ParseOpt(EntryIn(raw, key)).None?
  }

  /** If only theirs has a raw header, a change of ours is unseen unless theirs made it too. */
  lemma OnlyTheirsIff(base: LevelState, ours: LevelState, theirs: LevelState, merged: LevelState, n: nat, k: string)
    requires IsMerge(base, ours, theirs, merged, n) && k != "" && k != CHANNELS_KEY
    requires base.rawHeader == "" && ours.rawHeader == "" && theirs.rawHeader != "" && HeaderOf(theirs.rawHeader).Some?
    requires !OnlyBadChannels(theirs.rawHeader) && ReadsAlike(ours, k) && ReadsAlike(theirs, k)
    ensures ReadsAlike(merged, k) <==>
            Get(ours.header, k) == Get(base.header, k) || Get(ours.header, k) == Get(theirs.header, k)
  {
    EmptyList();
    TheirsStays(base, ours, theirs);
    MergeReadsAlikeIff(base, ours, theirs, merged, n, k);
  }

  lemma TheirsStays(base: LevelState, ours: LevelState, theirs: LevelState)
    requires base.rawHeader == "" && ours.rawHeader == "" && theirs.rawHeader != "" && HeaderOf(theirs.rawHeader).Some?
    requires !OnlyBadChannels(theirs.rawHeader)
    ensures !TextGone(base, ours, theirs)
  {
    EmptyList();
    var key :| EntryIn(theirs.rawHeader, key).Some? &&
      !(key == CHANNELS_KEY && ParseOpt(EntryIn(theirs.rawHeader, key)).None?);
    var s := HeaderSides(base.rawHeader, ours.rawHeader, theirs.rawHeader);
    assert key in s.t && !Dropped(key, ValueAt(s.b, key), ValueAt(s.o, key), ValueAt(s.t, key));
  }

  /** If only ours has one, a change of theirs is unseen unless ours changed the key as well. */
  lemma OnlyOursIff(base: LevelState, ours: LevelState, theirs: LevelState, merged: LevelState, n: nat, k: string)
    requires IsMerge(base, ours, theirs, merged, n) && k != "" && k != CHANNELS_KEY
    requires base.rawHeader == "" && ours.rawHeader != "" && theirs.rawHeader == "" && HeaderOf(ours.rawHeader).Some?
    requires ReadsAlike(ours, k) && ReadsAlike(theirs, k)
    ensures ReadsAlike(merged, k) <==>
            Get(ours.header, k) != Get(base.header, k) || Get(ours.header, k) == Get(theirs.header, k)
  {
    EmptyList();
    OursStays(base, ours, theirs);
    TextReads(ours.rawHeader, k);
    MergeReadsAlikeIff(base, ours, theirs, merged, n, k);
  }

  lemma OursStays(base: LevelState, ours: LevelState, theirs: LevelState)
    requires base.rawHeader == "" && ours.rawHeader != "" && theirs.rawHeader == "" && HeaderOf(ours.rawHeader).Some?
    ensures !TextGone(base, ours, theirs)
  {
    EmptyList();
    var key := SomeEntry(ours.rawHeader);
    var s := HeaderSides(base.rawHeader, ours.rawHeader, theirs.rawHeader);
    assert key in s.o && !Dropped(key, ValueAt(s.b, key), ValueAt(s.o, key), ValueAt(s.t, key));
  }

  /** If all three have a raw header, text and map of the merge read alike outside the channels. */
  lemma MergeReadsAlike(base: LevelState, ours: LevelState, theirs: LevelState, merged: LevelState, n: nat, k: string)
    requires IsMerge(base, ours, theirs, merged, n) && Structured(base.rawHeader, ours.rawHeader, theirs.rawHeader)
    requires PlainAt(base, k) && PlainAt(ours, k) && PlainAt(theirs, k) && k != "" && k != CHANNELS_KEY
    requires TextGone(base, ours, theirs) ==> Clean(base.header) && Clean(ours.header) && Clean(theirs.header)
    ensures ReadsAlike(merged, k)
  {
    PlainReads(base, k);
    PlainReads(ours, k);
    PlainReads(theirs, k);
    MergeReadsAlikeIff(base, ours, theirs, merged, n, k);
  }

  /** A text that is a list and not empty has an entry. */
  lemma SomeEntry(raw: string) returns (key: string)
    requires raw != "" && HeaderOf(raw).Some?
    ensures EntryIn(raw, key).Some?
  {
    var kv := HeaderOf(raw).value;
    GdHeader.HeaderTokens(raw);
    if kv == [] {
      JoinSplit(raw, ',');
      assert false;
    }
    key := kv[0].key;
    ParsedHeaderClean(raw);
    ToMapAt(kv, 0);
  }

  lemma ListOfFour(a: string, b: string, c: string, d: string, text: string)
    requires Split(text, ',') == [a, b, c, d] && d != "" && a != c
    ensures HeaderOf(text) == Some([Kv(a, b), Kv(c, d)])
  {
    var kv := [Kv(a, b), Kv(c, d)];
    FlattenAt(kv, 0);
    FlattenAt(kv, 1);
    assert Flatten(kv) == [a, b, c, d] && Trimmed([a, b, c, d]) == [a, b, c, d];
    HeaderFromFlat(kv, 0, {});
    assert kv[0..] == kv;
  }

  lemma OnlyTheirs(a: string, c: string)
    requires CleanText(a) && CleanText(c) && c != ""
    ensures Structured("", "", Header(a, c).rawHeader)
    ensures HeaderSides("", "", Header(a, c).rawHeader).Merged("kA1") == Some(c)
    ensures RawMerge("", "", Header(a, c).rawHeader).text != ""
  {
    var raw := Header(a, c).rawHeader;
    assert raw == "kA2" + [','] + (a + [','] + ("kA1" + [','] + c));
    FourTokens("kA2", a, "kA1", c, raw);
    ListOfFour("kA2", a, "kA1", c, raw);
    EmptyList();
    ToMapAt(HeaderOf(raw).value, 1);
    MergedHeaderValue("", "", raw, "kA1");
    NotBlank(MergedKv("", "", raw));
  }

  lemma EmptyList()
    ensures HeaderOf("") == Some([])
  {
    assert Split("", ',') == [""] && Trimmed([""]) == [];
  }

  /**
   * If only theirs has a raw header, ours' change of kA1 from `c` to `e` is in the merged map, but the merged text
   * reads as theirs does.
   */
  lemma OursIsUnseen(a: string, c: string, e: string, merged: LevelState, n: nat)
    requires CleanText(a) && CleanText(c) && CleanText(e) && c != "" && e != c
    requires IsMerge(OneKey(c), OneKey(e), Header(a, c), merged, n)
    ensures Get(merged.header, "kA1") == e && Shown(merged, "kA1") == c
  {
    OnlyTheirs(a, c);
    MergedHeaders(OneKey(c), OneKey(e), Header(a, c), merged, n);
    MergeShows(OneKey(c), OneKey(e), Header(a, c), merged, n, "kA1");
    MergedFieldAt(OneKey(c).header, OneKey(e).header, Header(a, c).header, "kA1");
    OursPicked(a, c, e);
  }

  lemma MergedHeaders(base: LevelState, ours: LevelState, theirs: LevelState, merged: LevelState, n: nat)
    requires IsMerge(base, ours, theirs, merged, n)
    ensures merged.rawHeader == RawMerge(base.rawHeader, ours.rawHeader, theirs.rawHeader).text
    ensures merged.header == MergeFields(base.header, ours.header, theirs.header)
  {
  }

  lemma OursPicked(a: string, c: string, e: string)
    requires e != c
    ensures FieldPick(OneKey(c).header, OneKey(e).header, Header(a, c).header, "kA1") == e
  {
  }
}
