/** The commit store as an object over its tables (`src/store/CommitStore.cpp`, `src/store/CommitSchema.cpp`). */
module CommitStore {
  import opened Prelude
  import opened Tables
  import opened TableLaws
  import opened Kahn

  /** A row together with its id, as `get` and `list` return it. */
  datatype CommitRow = CommitRow(id: Id, row: Row)

  /** `list` order: newest `created_at` first, then largest id. */
  predicate NewerFirst(a: CommitRow, b: CommitRow) {
    a.row.createdAt > b.row.createdAt || (a.row.createdAt == b.row.createdAt && a.id > b.id)
  }

  /** `rows` lists the level's commits, each once. */
  ghost predicate Lists(t: Db, key: LevelKey, rows: seq<CommitRow>) {
    && (forall r :: r in rows <==> r.id in t.rows && t.rows[r.id] == r.row && r.row.level == key)
    && (forall i, j :: 0 <= i < j < |rows| ==> rows[i].id != rows[j].id)
  }

  // The UPDATE and DELETE statements of `squash`.

  function UpdateParents(rows: map<Id, Row>, a: SquashArgs, newId: Id): map<Id, Row>
    requires a.WellFormed()
  {
    map i | i in rows :: if rows[i].parent == Some(a.Newest()) && rows[i].level == a.key && i != newId
                         then rows[i].(parent := Some(newId)) else rows[i]
  }

  function DropReverts(rows: map<Id, Row>, ids: seq<Id>): map<Id, Row> {
    map i | i in rows :: if rows[i].reverts.Some? && rows[i].reverts.value in ids
                         then rows[i].(reverts := None) else rows[i]
  }

  function DeleteRows(rows: map<Id, Row>, ids: seq<Id>): map<Id, Row> {
    map i | i in rows && i !in ids :: rows[i]
  }

  lemma SquashStatements(rows: map<Id, Row>, a: SquashArgs, newId: Id)
    requires a.WellFormed()
    ensures DeleteRows(DropReverts(UpdateParents(rows, a, newId), a.ids), a.ids) ==
            map i | i in rows && i !in a.ids :: Reparent(a, newId, i, rows[i])
  {
    var u := UpdateParents(rows, a, newId);
    var d := DropReverts(u, a.ids);
    forall i | i in rows ensures i in d && d[i] == Reparent(a, newId, i, rows[i]) {
    }
  }

  // ---------------------------------------------------------------- the copy loop of replaceLevelHistoryFrom

  function DepMap(rows: map<Id, Row>): map<Id, set<Id>> {
    map i | i in rows :: Deps(rows[i])
  }

  /** After `n` inserts: the first `n` commits of `order` have the ids `first`, `first + 1`, ... */
  ghost predicate Numbered(order: seq<Id>, n: nat, first: Id, idMap: map<Id, Id>)
    requires n <= |order|
  {
    && (forall i :: i in idMap <==> i in order[..n])
    && (forall j :: 0 <= j < n ==> order[j] in idMap && idMap[order[j]] == first + j)
  }

  /** ... and their rows are copies; the rows in `base` are as they were. */
  ghost predicate CopiedSoFar(base: map<Id, Row>, byId: map<Id, Row>, order: seq<Id>, n: nat, first: Id,
                              dest: LevelKey, idMap: map<Id, Id>, rows: map<Id, Row>)
    requires n <= |order| && Known(byId, order)
  {
    && (forall i :: i in rows <==> i in base || first <= i < first + n)
    && (forall i :: i in base ==> rows[i] == base[i])
    && (forall j :: 0 <= j < n ==> IsCopy(byId[order[j]], dest, idMap, rows, first + j))
  }

  /** What the insert loop keeps. */
  ghost predicate CopyInvariant(base: map<Id, Row>, byId: map<Id, Row>, order: seq<Id>, n: nat, first: Id,
                                dest: LevelKey, idMap: map<Id, Id>, rows: map<Id, Row>)
  {
    n <= |order| && Known(byId, order) && Numbered(order, n, first, idMap) &&
    CopiedSoFar(base, byId, order, n, first, dest, idMap, rows)
  }

  ghost predicate Known(byId: map<Id, Row>, order: seq<Id>) {
    forall j :: 0 <= j < |order| ==> order[j] in byId
  }

  ghost predicate IsCopy(row: Row, dest: LevelKey, idMap: map<Id, Id>, rows: map<Id, Row>, newId: Id) {
    Refs(row, idMap) && newId in rows && rows[newId] == CopyRow(row, dest, idMap)
  }

  ghost predicate Refs(row: Row, idMap: map<Id, Id>) {
    (row.parent.Some? ==> row.parent.value in idMap) && (row.reverts.Some? ==> row.reverts.value in idMap)
  }

  lemma DepsRefs(row: Row, sorted: seq<Id>, idMap: map<Id, Id>)
    requires AllIn(Deps(row), sorted) && forall i :: i in sorted ==> i in idMap
    ensures Refs(row, idMap)
  {
    if row.parent.Some? {
      var p := row.parent.value;
      assert p in Deps(row);
    }
    if row.reverts.Some? {
      var r := row.reverts.value;
      assert r in Deps(row);
    }
  }

  lemma PrefixRefs(byId: map<Id, Row>, order: seq<Id>, n: nat, first: Id, idMap: map<Id, Id>)
    requires DepsFirst(DepMap(byId), order) && n < |order| && Numbered(order, n, first, idMap)
    ensures order[n] in byId && Refs(byId[order[n]], idMap)
  {
    DepsRefs(byId[order[n]], order[..n], idMap);
  }

  lemma NotYet(order: seq<Id>, n: nat)
    requires n < |order| && Distinct(order)
    ensures order[n] !in order[..n]
    ensures forall i :: i in order[..n + 1] <==> i in order[..n] || i == order[n]
  {
    assert order[..n + 1] == order[..n] + [order[n]];
    forall j | 0 <= j < n ensures order[..n][j] != order[n] {
    }
  }

  lemma NextNumber(order: seq<Id>, n: nat, first: Id, idMap: map<Id, Id>)
    requires n < |order| && Distinct(order) && Numbered(order, n, first, idMap)
    ensures order[n] !in idMap && Numbered(order, n + 1, first, idMap[order[n] := first + n])
  {
    NotYet(order, n);
  }

  lemma CopyRowStable(row: Row, dest: LevelKey, idMap: map<Id, Id>, k: Id, v: Id)
    requires Refs(row, idMap) && k !in idMap
    ensures Refs(row, idMap[k := v]) && CopyRow(row, dest, idMap[k := v]) == CopyRow(row, dest, idMap)
  {
  }

  lemma NextCopy(base: map<Id, Row>, byId: map<Id, Row>, order: seq<Id>, n: nat, first: Id,
                 dest: LevelKey, idMap: map<Id, Id>, rows: map<Id, Row>)
    requires n < |order| && Known(byId, order) && order[n] !in idMap
    requires CopiedSoFar(base, byId, order, n, first, dest, idMap, rows)
    requires forall i :: i in base ==> i < first
    requires Refs(byId[order[n]], idMap)
    ensures CopiedSoFar(base, byId, order, n + 1, first, dest, idMap[order[n] := first + n],
                        rows[first + n := CopyRow(byId[order[n]], dest, idMap)])
  {
    var m2, r2 := idMap[order[n] := first + n], rows[first + n := CopyRow(byId[order[n]], dest, idMap)];
    forall j | 0 <= j < n + 1 ensures IsCopy(byId[order[j]], dest, m2, r2, first + j) {
      if j < n {
        assert IsCopy(byId[order[j]], dest, idMap, rows, first + j);
      }
      CopyStays(byId[order[j]], dest, idMap, rows, first + j, order[n], first + n, r2);
    }
    assert forall i :: i in r2 <==> i in base || first <= i < first + (n + 1);
    assert forall i :: i in base ==> r2[i] == base[i];
  }

  lemma CopyStays(row: Row, dest: LevelKey, idMap: map<Id, Id>, rows: map<Id, Row>, id: Id, k: Id, v: Id,
                  r2: map<Id, Row>)
    requires k !in idMap && Refs(row, idMap)
    requires id == v || IsCopy(row, dest, idMap, rows, id)
    requires v in r2 && (id == v ==> r2[v] == CopyRow(row, dest, idMap))
    requires forall i :: i in rows && i != v ==> i in r2 && r2[i] == rows[i]
    ensures IsCopy(row, dest, idMap[k := v], r2, id)
  {
    CopyRowStable(row, dest, idMap, k, v);
  }

  /** `Numbered` read the other way: every mapped commit has its place in the order. */
  lemma PlaceOf(order: seq<Id>, first: Id, idMap: map<Id, Id>, i: Id) returns (j: nat)
    requires Numbered(order, |order|, first, idMap) && i in idMap
    ensures j < |order| && order[j] == i && idMap[i] == first + j
  {
    assert order[..|order|] == order;
    j :| 0 <= j < |order| && order[j] == i;
  }

  /** Copies are numbered after the copies of what they refer to. */
  ghost predicate CopiesInOrder(rows: map<Id, Row>, m: map<Id, Id>) {
    forall i, d :: i in m && i in rows && d in Deps(rows[i]) ==> d in m && m[d] < m[i]
  }

  lemma CopiesAreNewer(before: Db, src: LevelKey, order: seq<Id>, first: Id, m: map<Id, Id>)
    requires DepsFirst(DepMap(LevelRows(before, src)), order) && Numbered(order, |order|, first, m)
    requires m.Keys == LevelIds(before, src)
    ensures CopiesInOrder(before.rows, m)
  {
    forall i, d | i in m && i in before.rows && d in Deps(before.rows[i]) ensures d in m && m[d] < m[i] {
      var j := PlaceOf(order, first, m, i);
      assert DepMap(LevelRows(before, src))[i] == Deps(before.rows[i]);
      assert d in order[..j];
      var k :| 0 <= k < j && order[k] == d;
      assert order[k] in m;
    }
  }

  lemma MapIsInjective(order: seq<Id>, first: Id, idMap: map<Id, Id>)
    requires Distinct(order) && Numbered(order, |order|, first, idMap)
    ensures forall i :: i in idMap ==> first <= idMap[i] < first + |order|
    ensures forall i, j :: i in idMap && j in idMap && idMap[i] == idMap[j] ==> i == j
    ensures forall x :: x in idMap.Values <==> first <= x < first + |order|
  {
    forall i | i in idMap ensures first <= idMap[i] < first + |order| {
      var _ := PlaceOf(order, first, idMap, i);
    }
    forall i, j | i in idMap && j in idMap && idMap[i] == idMap[j] ensures i == j {
      var a := PlaceOf(order, first, idMap, i);
      var b := PlaceOf(order, first, idMap, j);
    }
    forall x | first <= x < first + |order| ensures x in idMap.Values {
      assert idMap[order[x - first]] == x;
    }
  }

  lemma LoopFresh(order: seq<Id>, first: Id, idMap: map<Id, Id>)
    requires Distinct(order) && Numbered(order, |order|, first, idMap)
    ensures FreshIds(first, first + |order|, idMap) && |idMap| == |order|
    ensures forall i :: i in idMap <==> i in order
  {
    assert order[..|order|] == order;
    DistinctLength(order);
    forall i: Id ensures i in idMap.Keys <==> i in Elements(order) {
    }
    assert idMap.Keys == Elements(order);
    assert |idMap| == |idMap.Keys|;
    MapIsInjective(order, first, idMap);
  }

  lemma LoopRows(before: Db, byId: map<Id, Row>, order: seq<Id>, dest: LevelKey, src: LevelKey, idMap: map<Id, Id>,
                 rows: map<Id, Row>)
    requires byId == LevelRows(before, src) && Known(byId, order)
    requires Distinct(order) && Numbered(order, |order|, before.nextId, idMap)
    requires CopiedSoFar(before.rows - LevelIds(before, dest), byId, order, |order|, before.nextId, dest, idMap, rows)
    ensures RowsCopied(before, rows, dest, idMap)
  {
    MapIsInjective(order, before.nextId, idMap);
    CopiesInPlace(byId, order, before.nextId, dest, idMap, rows);
    CopiedKeys(before, order, dest, idMap, rows);
  }

  lemma CopiesInPlace(byId: map<Id, Row>, order: seq<Id>, first: Id, dest: LevelKey, idMap: map<Id, Id>,
                      rows: map<Id, Row>)
    requires Numbered(order, |order|, first, idMap) && forall j :: 0 <= j < |order| ==> order[j] in byId
    requires forall j :: 0 <= j < |order| ==> IsCopy(byId[order[j]], dest, idMap, rows, first + j)
    ensures forall i :: i in idMap ==> i in byId && idMap[i] in rows && rows[idMap[i]] == CopyRow(byId[i], dest, idMap)
  {
    forall i | i in idMap ensures i in byId && idMap[i] in rows && rows[idMap[i]] == CopyRow(byId[i], dest, idMap) {
      var j := PlaceOf(order, first, idMap, i);
      assert IsCopy(byId[order[j]], dest, idMap, rows, first + j);
    }
  }

  lemma CopiedKeys(before: Db, order: seq<Id>, dest: LevelKey, idMap: map<Id, Id>, rows: map<Id, Row>)
    requires forall i :: i in rows <==>
               i in before.rows - LevelIds(before, dest) || before.nextId <= i < before.nextId + |order|
    requires forall x :: x in idMap.Values <==> before.nextId <= x < before.nextId + |order|
    ensures rows.Keys == (before.rows.Keys - LevelIds(before, dest)) + idMap.Values
  {
    forall x: Id ensures x in rows.Keys <==> x in (before.rows.Keys - LevelIds(before, dest)) + idMap.Values {
    }
  }

  lemma LoopKeys(before: Db, src: LevelKey, order: seq<Id>, idMap: map<Id, Id>)
    requires Distinct(order) && Numbered(order, |order|, before.nextId, idMap)
    requires Known(LevelRows(before, src), order) && AllIn(LevelRows(before, src).Keys, order)
    ensures idMap.Keys == LevelIds(before, src)
  {
    LoopFresh(order, before.nextId, idMap);
    forall i: Id ensures i in idMap.Keys <==> i in LevelIds(before, src) {
      assert i in LevelRows(before, src).Keys <==> i in LevelIds(before, src);
    }
  }

  lemma LoopMakesCopies(before: Db, byId: map<Id, Row>, order: seq<Id>, dest: LevelKey, src: LevelKey,
                        idMap: map<Id, Id>, rows: map<Id, Row>, nextId: Id)
    requires byId == LevelRows(before, src) && Known(byId, order) && AllIn(byId.Keys, order)
    requires Distinct(order) && DepsFirst(DepMap(byId), order) && Numbered(order, |order|, before.nextId, idMap)
    requires CopiedSoFar(before.rows - LevelIds(before, dest), byId, order, |order|, before.nextId, dest, idMap, rows)
    requires nextId == before.nextId + |order|
    ensures CopiesMade(before, rows, nextId, dest, src, idMap)
  {
    LoopRows(before, byId, order, dest, src, idMap, rows);
    LoopFresh(order, before.nextId, idMap);
    LoopKeys(before, src, order, idMap);
    CopiesAreNewer(before, src, order, before.nextId, idMap);
  }

  function LevelRows(t: Db, key: LevelKey): map<Id, Row> {
    map i | i in LevelIds(t, key) :: t.rows[i]
  }

  lemma ClosedDeps(t: Db, src: LevelKey)
    requires Closed(t, LevelIds(t, src))
    ensures SelfContained(DepMap(LevelRows(t, src)))
  {
  }

  lemma HeadsAfter(heads: map<LevelKey, Id>, dest: LevelKey, head: Id)
    ensures (heads - {dest})[dest := head] == heads[dest := head]
  {
  }

  lemma LevelAcyclic(t: Db, src: LevelKey)
    requires Acyclic(t.rows)
    ensures Rankable(DepMap(LevelRows(t, src)))
  {
    var rank :| Ranks(t.rows, rank);
    var deps := DepMap(LevelRows(t, src));
    forall i | i in deps ensures RankedAt(rank, i, deps[i]) {
      assert RankedAt(rank, i, Deps(t.rows[i]));
    }
    assert RanksDeps(deps, rank);
  }

  /** The copy passes the foreign-key check unless something outside `dest` referred into `dest`. */
  lemma CopyKeepsFk(before: Db, after: Db, dest: LevelKey, src: LevelKey, m: map<Id, Id>)
    requires SqlOk(before) && Copied(before, after, dest, src, m)
    ensures CrossReferenced(before, dest) || FkOk(after)
    ensures FkOk(after) ==> SqlOk(after)
  {
    if !CrossReferenced(before, dest) {
      CopyFk(before, after, dest, src, m);
    }
    CopyIds(before, after, dest, src, m);
  }

  lemma CopyIds(before: Db, after: Db, dest: LevelKey, src: LevelKey, m: map<Id, Id>)
    requires SqlOk(before) && Copied(before, after, dest, src, m)
    ensures 0 < after.nextId && forall i :: i in after.rows ==> 0 < i < after.nextId
  {
    forall i | i in after.rows ensures 0 < i < after.nextId {
      if i !in before.rows {
        assert i in after.rows.Keys;
        var o := KeyOf(m, i);
      }
    }
  }

  lemma CopyFk(before: Db, after: Db, dest: LevelKey, src: LevelKey, m: map<Id, Id>)
    requires FkOk(before) && Copied(before, after, dest, src, m) && !CrossReferenced(before, dest)
    ensures FkOk(after)
  {
    forall i | i in after.rows
      ensures RefOk(after.rows, after.rows[i].parent) && RefOk(after.rows, after.rows[i].reverts)
    {
      if i in before.rows && i !in LevelIds(before, dest) {
        KeptRowRefs(before, after, dest, src, m, i);
      } else {
        CopiedRowRefs(before, after, dest, src, m, i);
      }
    }
    forall k | k in after.heads ensures after.heads[k] in after.rows {
      CopiedHeads(before, after, dest, src, m, k);
    }
  }

  lemma CopiedHeads(before: Db, after: Db, dest: LevelKey, src: LevelKey, m: map<Id, Id>, k: LevelKey)
    requires FkOk(before) && Copied(before, after, dest, src, m) && !CrossReferenced(before, dest)
    requires k in after.heads
    ensures after.heads[k] in after.rows
  {
    if k != dest {
      assert before.heads[k] in before.rows && before.heads[k] !in LevelIds(before, dest);
      assert before.heads[k] in after.rows.Keys;
    } else {
      assert m[before.heads[src]] in m.Values;
      assert m[before.heads[src]] in after.rows.Keys;
    }
  }

  lemma KeptRowRefs(before: Db, after: Db, dest: LevelKey, src: LevelKey, m: map<Id, Id>, i: Id)
    requires FkOk(before) && Copied(before, after, dest, src, m) && !CrossReferenced(before, dest)
    requires i in before.rows && i !in LevelIds(before, dest)
    ensures i in after.rows
    ensures RefOk(after.rows, after.rows[i].parent) && RefOk(after.rows, after.rows[i].reverts)
  {
    assert RefOk(before.rows, before.rows[i].parent) && RefOk(before.rows, before.rows[i].reverts);
    assert !RefersTo(before.rows[i], LevelIds(before, dest));
  }

  lemma CopiedRowRefs(before: Db, after: Db, dest: LevelKey, src: LevelKey, m: map<Id, Id>, i: Id)
    requires Copied(before, after, dest, src, m) && i in after.rows
    requires i !in before.rows || i in LevelIds(before, dest)
    ensures RefOk(after.rows, after.rows[i].parent) && RefOk(after.rows, after.rows[i].reverts)
  {
    assert i in after.rows.Keys;
    var o := KeyOf(m, i);
    assert after.rows[i] == CopyRow(before.rows[o], dest, m);
    CopiedRef(before, after, dest, src, m, before.rows[o].parent);
    CopiedRef(before, after, dest, src, m, before.rows[o].reverts);
  }

  lemma CopiedRef(before: Db, after: Db, dest: LevelKey, src: LevelKey, m: map<Id, Id>, ref: Option<Id>)
    requires Copied(before, after, dest, src, m) && (ref.Some? ==> ref.value in m)
    ensures RefOk(after.rows, MapRef(ref, m))
  {
    if ref.Some? {
      var d: Id := ref.value;
      assert m[d] in m.Values;
    }
  }

  /** What the insert loop of the copy leaves behind. */
  ghost predicate CopiesMade(before: Db, rows: map<Id, Row>, nextId: Id, dest: LevelKey, src: LevelKey,
                             m: map<Id, Id>)
  {
    && m.Keys == LevelIds(before, src) && FreshIds(before.nextId, nextId, m)
    && RowsCopied(before, rows, dest, m) && CopiesInOrder(before.rows, m)
    && nextId == before.nextId + |m|
  }

  /** The tables at the end of the copy transaction. */
  lemma CopyDone(before: Db, after: Db, dest: LevelKey, src: LevelKey, m: map<Id, Id>)
    requires SqlOk(before) && dest != src && src in before.heads && before.heads[src] in m
    requires Closed(before, LevelIds(before, src)) && CopiesMade(before, after.rows, after.nextId, dest, src, m)
    requires after.heads == (before.heads - {dest})[dest := m[before.heads[src]]]
    ensures Copied(before, after, dest, src, m)
    ensures CrossReferenced(before, dest) || FkOk(after)
    ensures FkOk(after) ==> SqlOk(after)
  {
    HeadsAfter(before.heads, dest, m[before.heads[src]]);
    CopyKeepsFk(before, after, dest, src, m);
  }

  /** What COMMIT makes of the copies: nothing without a copy of HEAD, else all of it if the foreign keys hold. */
  ghost predicate CopyResult(before: Db, dest: LevelKey, src: LevelKey, m: map<Id, Id>, rows: map<Id, Row>, end: Id,
                             ok: bool, result: Db)
    requires src in before.heads
  {
    if before.heads[src] in m then
      var after := Db(rows, (before.heads - {dest})[dest := m[before.heads[src]]], end);
      result == Settle(before, after) && ok == FkOk(after)
    else result == before && !ok
  }

  lemma CopyOutcome(before: Db, dest: LevelKey, src: LevelKey, m: map<Id, Id>, rows: map<Id, Row>, end: Id,
                    ok: bool, result: Db)
    requires SqlOk(before) && dest != src && src in before.heads && Closed(before, LevelIds(before, src))
    requires CopiesMade(before, rows, end, dest, src, m) && CopyResult(before, dest, src, m, rows, end, ok, result)
    ensures SqlOk(result) && CopiesInOrder(before.rows, m)
    ensures if ok then Copied(before, result, dest, src, m)
            else result == before && (before.heads[src] !in LevelIds(before, src) || CrossReferenced(before, dest))
  {
    if before.heads[src] in m {
      CopyDone(before, Db(rows, (before.heads - {dest})[dest := m[before.heads[src]]], end), dest, src, m);
    }
  }

  class CommitStore {
    var rows: map<Id, Row>
    var heads: map<LevelKey, Id>
    var nextId: Id
    var open: bool
    var saved: Db

    function Now(): Db
      reads this
    {
      Db(rows, heads, nextId)
    }

    ghost predicate Valid()
      reads this
    {
      !open && SqlOk(Now())
    }

    constructor ()
      ensures Valid() && Now() == Db(map[], map[], 1)
    {
      rows, heads, nextId := map[], map[], 1;
      open, saved := false, Db(map[], map[], 1);
    }

    // -------------------------------------------------------------- transactions

    method Begin()
      requires !open
      modifies this`open, this`saved
      ensures open && saved == Now()
    {
      open, saved := true, Now();
    }

    method Rollback()
      modifies this
      ensures !open && Now() == if old(open) then old(saved) else old(Now())
    {
      if !open { return; }
      rows, heads, nextId := saved.rows, saved.heads, saved.nextId;
      open := false;
    }

    method CommitTx() returns (ok: bool)
      modifies this
      ensures !open
      ensures old(open) ==> Now() == Settle(old(saved), old(Now())) && ok == FkOk(old(Now()))
      ensures !old(open) ==> !ok && Now() == old(Now())
    {
      if !open { return false; }
      if !FkOk(Now()) {
        Rollback();
        return false;
      }
      open := false;
      return true;
    }

    // -------------------------------------------------------------- statements

    method InsertAt(row: Row) returns (id: Id)
      requires open
      modifies this`rows, this`nextId
      ensures id == old(nextId) && nextId == old(nextId) + 1 && rows == old(rows)[id := row]
    {
      id := nextId;
      rows := rows[id := row];
      nextId := nextId + 1;
    }

    method SetHead(key: LevelKey, head: Id)
      requires open
      modifies this`heads
      ensures heads == old(heads)[key := head]
    {
      heads := heads[key := head];
    }

    function GetHead(key: LevelKey): Option<Id>
      reads this
    {
      if key in heads then Some(heads[key]) else None
    }

    function GetRow(id: Id): Option<Row>
      reads this
    {
      if id in rows then Some(rows[id]) else None
    }

    method DeleteCommitsAndRefs(key: LevelKey)
      requires open
      modifies this`rows, this`heads
      ensures Now() == Deleted(old(Now()), key)
    {
      heads := heads - {key};
      rows := rows - LevelIds(Now(), key);
    }

    // -------------------------------------------------------------- operations

    method InsertAndSetHead(row: Row) returns (r: Result<Id>)
      requires Valid()
      modifies this
      ensures Valid() && Now() == Settle(old(Now()), InsertHead(old(Now()), row))
      ensures r.Ok? <==> FkOk(InsertHead(old(Now()), row))
      ensures r.Ok? ==> r.value == old(nextId) && OnTop(old(Now()), Now(), r.value, row)
      ensures r.Err? ==> Now() == old(Now())
    {
      InsertedTables(Now(), row);
      Begin();
      var id := InsertAt(row);
      SetHead(row.level, id);
      var ok := CommitTx();
      if !ok { return Err("commit transaction failed"); }
      return Ok(id);
    }

    method Squash(a: SquashArgs, now: int) returns (r: Option<Id>)
      requires Valid()
      modifies this
      ensures Valid()
      ensures !a.WellFormed() ==> r.None?
      ensures a.WellFormed() ==> Now() == Settle(old(Now()), Squashed(old(Now()), a, now))
      ensures a.WellFormed() ==> r == if FkOk(Squashed(old(Now()), a, now)) then Some(old(nextId)) else None
      ensures r.Some? ==> SquashedInto(old(Now()), Now(), a.key, a.ids, r.value)
      ensures r.Some? && r.value !in a.ids ==>
                ReplacesRange(old(Now()), a.key, a.ids, a.parentOfOldest, a.message, a.delta, now, rows[r.value])
      ensures r.None? ==> Now() == old(Now())
    {
      if |a.ids| < 2 { return None; }
      SquashedTables(Now(), a, now);
      r := SquashInTransaction(a, now);
    }

    method SquashInTransaction(a: SquashArgs, now: int) returns (r: Option<Id>)
      requires Valid() && a.WellFormed()
      modifies this
      ensures Valid() && Now() == Settle(old(Now()), Squashed(old(Now()), a, now))
      ensures r == if FkOk(Squashed(old(Now()), a, now)) then Some(old(nextId)) else None
    {
      var newest := a.ids[|a.ids| - 1];
      var createdAt := now;
      if newest in rows {
        createdAt := rows[newest].createdAt;
      }
      Begin();
      var newId := InsertAt(Row(a.key, a.parentOfOldest, None, a.message, createdAt, a.delta));
      RunStatements(old(Now()), a, newId, now);
      var ok := CommitTx();
      return if ok then Some(newId) else None;
    }

    /** The statements after the insert: reparent, clear reverts, move HEAD, delete. */
    method RunStatements(ghost before: Db, a: SquashArgs, newId: Id, ghost now: int)
      requires open && a.WellFormed() && newId == before.nextId
      requires Now() == Db(before.rows[newId := SquashRow(before, a, now)], before.heads, newId + 1)
      modifies this`rows, this`heads
      ensures Now() == Squashed(before, a, now)
    {
      SquashStatements(rows, a, newId);
      rows := UpdateParents(rows, a, newId);
      rows := DropReverts(rows, a.ids);
      heads := map k | k in heads :: if k == a.key && heads[k] in a.ids then newId else heads[k];
      rows := DeleteRows(rows, a.ids);
    }

    method DeleteLevel(key: LevelKey) returns (ok: bool)
      requires Valid()
      modifies this
      ensures Valid() && Now() == Settle(old(Now()), Deleted(old(Now()), key))
      ensures ok <==> FkOk(Deleted(old(Now()), key))
      ensures if ok then WithoutLevel(old(Now()), Now(), key) else Now() == old(Now())
    {
      DeletedTables(Now(), key);
      Begin();
      DeleteCommitsAndRefs(key);
      ok := CommitTx();
    }

    /**
     * Give `dest` a copy of `src`'s history. The reasons to refuse: same level, no HEAD or no commits, a
     * reference that leaves the level, a cycle, or (at COMMIT) a reference into the deleted `dest` history.
     */
    method ReplaceLevelHistoryFrom(dest: LevelKey, src: LevelKey) returns (ok: bool, ghost m: map<Id, Id>)
      requires Valid()
      modifies this
      ensures Valid()
      ensures ok ==> Copied(old(Now()), Now(), dest, src, m) && LevelCopied(old(Now()), Now(), dest, src, m)
      ensures ok ==> CopiesInOrder(old(rows), m)
      ensures !ok ==> Now() == old(Now())
      ensures !ok ==> CopyRefused(old(Now()), dest, src)
    {
      ghost var before := Now();
      m := map[];
      if dest == src { return false, m; }
      var head := GetHead(src);
      if head.None? { return false, m; }
      var byId := LevelRows(Now(), src);
      if byId == map[] {
        assert heads[src] !in byId;
        return false, m;
      }
      if !Closed(Now(), LevelIds(Now(), src)) { return false, m; }
      ClosedDeps(Now(), src);
      var order := TopoOrder(DepMap(byId));
      if |order| != |byId| {
        assert DepMap(byId).Keys == byId.Keys;
        assert |DepMap(byId)| == |byId|;
        if Acyclic(rows) { LevelAcyclic(Now(), src); }
        return false, m;
      }
      ok, m := CopyInTransaction(dest, src, head.value, byId, order);
      if ok {
        CopiedTables(before, Now(), dest, src, m);
      }
    }

    method CopyInTransaction(dest: LevelKey, src: LevelKey, head: Id, byId: map<Id, Row>, order: seq<Id>)
      returns (ok: bool, m: map<Id, Id>)
      requires Valid() && dest != src && src in heads && head == heads[src]
      requires byId == LevelRows(Now(), src) && Closed(Now(), LevelIds(Now(), src))
      requires Distinct(order) && DepsFirst(DepMap(byId), order) && AllIn(byId.Keys, order)
      modifies this
      ensures Valid()
      ensures ok ==> Copied(old(Now()), Now(), dest, src, m)
      ensures ok ==> CopiesInOrder(old(rows), m)
      ensures !ok ==> Now() == old(Now())
      ensures !ok ==> head !in LevelIds(old(Now()), src) || CrossReferenced(old(Now()), dest)
    {
      ghost var before := Now();
      Begin();
      DeleteCommitsAndRefs(dest);
      m := InsertCopies(before, dest, src, byId, order);
      ghost var copied, end := rows, nextId;
      ok := CommitCopies(before, dest, src, head, m);
      CopyOutcome(before, dest, src, m, copied, end, ok, Now());
    }

    /** HEAD goes to its copy, if there is one, and COMMIT decides. */
    method CommitCopies(ghost before: Db, dest: LevelKey, ghost src: LevelKey, head: Id, m: map<Id, Id>)
      returns (ok: bool)
      requires open && saved == before && heads == before.heads - {dest}
      requires src in before.heads && head == before.heads[src]
      modifies this
      ensures !open
      ensures CopyResult(before, dest, src, m, old(rows), old(nextId), ok, Now())
    {
      if head !in m {
        Rollback();
        return false;
      }
      ok := CommitHead(dest, m[head]);
    }

    /** HEAD goes to its copy, and COMMIT decides. */
    method CommitHead(key: LevelKey, head: Id) returns (ok: bool)
      requires open
      modifies this
      ensures !open && Now() == Settle(old(saved), Db(old(rows), old(heads)[key := head], old(nextId)))
      ensures ok == FkOk(Db(old(rows), old(heads)[key := head], old(nextId)))
    {
      SetHead(key, head);
      ok := CommitTx();
    }

    method InsertCopies(ghost before: Db, dest: LevelKey, src: LevelKey, byId: map<Id, Row>, order: seq<Id>)
      returns (idMap: map<Id, Id>)
      requires open && SqlOk(before) && rows == before.rows - LevelIds(before, dest) && nextId == before.nextId
      requires byId == LevelRows(before, src)
      requires Distinct(order) && DepsFirst(DepMap(byId), order) && AllIn(byId.Keys, order)
      modifies this`rows, this`nextId
      ensures CopiesMade(before, rows, nextId, dest, src, idMap)
    {
      idMap := CopyLoop(dest, byId, order);
      LoopMakesCopies(before, byId, order, dest, src, idMap, rows, nextId);
    }

    method CopyLoop(dest: LevelKey, byId: map<Id, Row>, order: seq<Id>) returns (idMap: map<Id, Id>)
      requires open && Distinct(order) && DepsFirst(DepMap(byId), order)
      requires forall i :: i in rows ==> i < nextId
      modifies this`rows, this`nextId
      ensures Known(byId, order) && Numbered(order, |order|, old(nextId), idMap)
      ensures CopiedSoFar(old(rows), byId, order, |order|, old(nextId), dest, idMap, rows)
      ensures nextId == old(nextId) + |order|
    {
      idMap := map[];
      ghost var base, first := rows, nextId;
      assert order[..0] == [];
      for n := 0 to |order|
        invariant open && nextId == first + n
        invariant CopyInvariant(base, byId, order, n, first, dest, idMap, rows)
      {
        idMap := CopyNext(base, byId, order, n, first, dest, idMap);
      }
    }

    /** One turn of the loop: the next commit of the order is copied below the copies of what it refers to. */
    method CopyNext(ghost base: map<Id, Row>, byId: map<Id, Row>, order: seq<Id>, n: nat, ghost first: Id,
                    dest: LevelKey, idMap: map<Id, Id>)
      returns (m2: map<Id, Id>)
      requires open && n < |order| && Distinct(order) && DepsFirst(DepMap(byId), order)
      requires (forall i :: i in base ==> i < first) && nextId == first + n
      requires CopyInvariant(base, byId, order, n, first, dest, idMap, rows)
      modifies this`rows, this`nextId
      ensures nextId == first + (n + 1)
      ensures CopyInvariant(base, byId, order, n + 1, first, dest, m2, rows)
    {
      var oldId := order[n];
      PrefixRefs(byId, order, n, first, idMap);
      NextNumber(order, n, first, idMap);
      NextCopy(base, byId, order, n, first, dest, idMap, rows);
      var newId := InsertCopy(dest, byId[oldId], idMap);
      m2 := idMap[oldId := newId];
    }

    method InsertCopy(dest: LevelKey, row: Row, idMap: map<Id, Id>) returns (newId: Id)
      requires open && Refs(row, idMap)
      modifies this`rows, this`nextId
      ensures newId == old(nextId) && nextId == old(nextId) + 1
      ensures rows == old(rows)[newId := CopyRow(row, dest, idMap)]
    {
      var newParent, newReverts := None, None;
      if row.parent.Some? { newParent := Some(idMap[row.parent.value]); }
      if row.reverts.Some? { newReverts := Some(idMap[row.reverts.value]); }
      newId := InsertAt(Row(dest, newParent, newReverts, row.message, row.createdAt, row.delta));
    }

    method List(key: LevelKey) returns (out: seq<CommitRow>)
      ensures Lists(Now(), key, out)
      ensures forall i, j :: 0 <= i < j < |out| ==>
                out[i].row.createdAt > out[j].row.createdAt ||
                (out[i].row.createdAt == out[j].row.createdAt && out[i].id > out[j].id)
    {
      out := [];
      var todo := LevelIds(Now(), key);
      while todo != {}
        invariant todo <= LevelIds(Now(), key)
        invariant forall r :: r in out <==> r.id in LevelIds(Now(), key) - todo && rows[r.id] == r.row
        invariant forall i, j :: 0 <= i < j < |out| ==> NewerFirst(out[i], out[j])
        invariant forall r, i :: r in out && i in todo ==> NewerFirst(r, CommitRow(i, rows[i]))
        decreases todo
      {
        var best := Newest(todo);
        out := out + [CommitRow(best, rows[best])];
        todo := todo - {best};
      }
    }

    method Newest(ids: set<Id>) returns (best: Id)
      requires ids != {} && ids <= rows.Keys
      ensures best in ids
      ensures forall i :: i in ids && i != best ==> NewerFirst(CommitRow(best, rows[best]), CommitRow(i, rows[i]))
    {
      ghost var _ := SomeElement(ids);
      var first :| first in ids;
      best := first;
      var todo := ids - {best};
      while todo != {}
        invariant todo <= ids && best in ids
        invariant forall i :: i in ids - todo && i != best ==>
                    NewerFirst(CommitRow(best, rows[best]), CommitRow(i, rows[i]))
        decreases todo
      {
        ghost var _ := SomeElement(todo);
        var i :| i in todo;
        todo := todo - {i};
        if i != best && NewerFirst(CommitRow(i, rows[i]), CommitRow(best, rows[best])) {
          best := i;
        }
      }
    }
  }
}
