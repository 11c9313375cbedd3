/** What each store operation does to the tables, column by column (`src/store/CommitStore.cpp`). */
module TableLaws {
  import opened Prelude
  import opened Differ
  import opened Tables

  // ---------------------------------------------------------------- insert

  /** One more commit, and HEAD of its level on it. */
  ghost predicate OnTop(before: Db, after: Db, id: Id, row: Row) {
    && id == before.nextId && after.nextId == id + 1
    && (forall i :: i in after.rows <==> i in before.rows || i == id)
    && (forall i :: i in before.rows && i != id ==> after.rows[i] == before.rows[i])
    && (forall k :: k in after.heads <==> k in before.heads || k == row.level)
    && (forall k :: k in before.heads && k != row.level ==> after.heads[k] == before.heads[k])
    && after.heads[row.level] == id && after.rows[id] == row
  }

  lemma InsertedTables(t: Db, row: Row)
    ensures OnTop(t, InsertHead(t, row), t.nextId, row)
  {
  }

  // ---------------------------------------------------------------- squash

  /** A commit that survives a squash of `ids` into `newId`: only references into the range change. */
  ghost predicate SurvivesAs(key: LevelKey, ids: seq<Id>, newId: Id, row: Row, kept: Row)
    requires ids != []
  {
    && kept.level == row.level && kept.message == row.message && kept.createdAt == row.createdAt
    && kept.delta == row.delta
    && kept.reverts == (if row.reverts.Some? && row.reverts.value in ids then None else row.reverts)
    && kept.parent == (if row.parent == Some(ids[|ids| - 1]) && row.level == key then Some(newId) else row.parent)
  }

  /** The squashed commit: it has the time of the newest commit it replaces, if that exists, and no reverts mark. */
  ghost predicate ReplacesRange(before: Db, key: LevelKey, ids: seq<Id>, base: Option<Id>, message: string,
                                delta: Delta, now: int, row: Row)
    requires ids != []
  {
    var newest := ids[|ids| - 1];
    && row.level == key && row.parent == base && row.reverts == None && row.message == message && row.delta == delta
    && row.createdAt == if newest in before.rows then before.rows[newest].createdAt else now
  }

  /** The range is gone, everything else survives, and a HEAD in the range is on the new commit. */
  ghost predicate SquashedInto(before: Db, after: Db, key: LevelKey, ids: seq<Id>, newId: Id)
    requires ids != []
  {
    && (forall i :: i in after.rows <==> (i in before.rows || i == newId) && i !in ids)
    && (forall i :: i in before.rows && i !in ids && i != newId ==>
          SurvivesAs(key, ids, newId, before.rows[i], after.rows[i]))
    && after.heads.Keys == before.heads.Keys
    && (forall k :: k in before.heads ==>
          after.heads[k] == if k == key && before.heads[k] in ids then newId else before.heads[k])
    && after.nextId == newId + 1 && newId == before.nextId
  }

  lemma SquashedTables(t: Db, a: SquashArgs, now: int)
    requires a.WellFormed()
    ensures SquashedInto(t, Squashed(t, a, now), a.key, a.ids, t.nextId)
    ensures t.nextId !in a.ids ==>
              ReplacesRange(t, a.key, a.ids, a.parentOfOldest, a.message, a.delta, now,
                            Squashed(t, a, now).rows[t.nextId])
  {
  }

  // ---------------------------------------------------------------- delete

  /** The level is gone, and nothing else is touched. */
  ghost predicate WithoutLevel(before: Db, after: Db, key: LevelKey) {
    && (forall i :: i in after.rows <==> i in before.rows && before.rows[i].level != key)
    && (forall i :: i in after.rows ==> after.rows[i] == before.rows[i])
    && (forall k :: k in after.heads <==> k in before.heads && k != key)
    && (forall k :: k in after.heads ==> after.heads[k] == before.heads[k])
    && after.nextId == before.nextId
  }

  lemma DeletedTables(t: Db, key: LevelKey)
    ensures WithoutLevel(t, Deleted(t, key), key)
  {
  }

  // ---------------------------------------------------------------- load-level

  /** A reference of a copy: none where the original has none, else to the copy of what the original refers to. */
  ghost predicate RefFollows(ref: Option<Id>, copy: Option<Id>, m: map<Id, Id>) {
    if ref.None? then copy.None? else ref.value in m && copy == Some(m[ref.value])
  }

  /** A copy has every column of its original, with the new level and the references to copies. */
  ghost predicate CopyOf(row: Row, copy: Row, dest: LevelKey, m: map<Id, Id>) {
    && copy.level == dest && copy.message == row.message && copy.createdAt == row.createdAt
    && copy.delta == row.delta
    && RefFollows(row.parent, copy.parent, m) && RefFollows(row.reverts, copy.reverts, m)
  }

  /** `dest` holds a copy of every commit of `src`, under distinct new ids. */
  ghost predicate HoldsCopies(before: Db, after: Db, dest: LevelKey, src: LevelKey, m: map<Id, Id>) {
    && (forall i :: i in m <==> i in before.rows && before.rows[i].level == src)
    && (forall i :: i in m ==> before.nextId <= m[i] < after.nextId)
    && (forall i, j :: i in m && j in m && i != j ==> m[i] != m[j])
    && (forall i :: i in m ==> m[i] in after.rows && CopyOf(before.rows[i], after.rows[m[i]], dest, m))
  }

  /** Commits of other levels are as they were, and no other rows exist. */
  ghost predicate OthersKept(before: Db, after: Db, dest: LevelKey, m: map<Id, Id>) {
    && (forall i :: i in after.rows <==> (i in before.rows && before.rows[i].level != dest) || i in m.Values)
    && (forall i :: i in before.rows && before.rows[i].level != dest && i in after.rows ==>
          after.rows[i] == before.rows[i])
  }

  /** Only the HEAD of `dest` moves, to the copy of the HEAD of `src`. */
  ghost predicate HeadCopied(before: Db, after: Db, dest: LevelKey, src: LevelKey, m: map<Id, Id>) {
    && (forall k :: k in after.heads <==> k in before.heads || k == dest)
    && (forall k :: k in before.heads && k != dest ==> after.heads[k] == before.heads[k])
    && src in before.heads && before.heads[src] in m && after.heads[dest] == m[before.heads[src]]
  }

  ghost predicate LevelCopied(before: Db, after: Db, dest: LevelKey, src: LevelKey, m: map<Id, Id>) {
    HoldsCopies(before, after, dest, src, m) && OthersKept(before, after, dest, m) &&
    HeadCopied(before, after, dest, src, m)
  }

  lemma FollowedRef(before: Db, src: LevelKey, m: map<Id, Id>, i: Id, ref: Option<Id>)
    requires Closed(before, LevelIds(before, src)) && m.Keys == LevelIds(before, src) && i in m
    requires ref == before.rows[i].parent || ref == before.rows[i].reverts
    ensures RefFollows(ref, MapRef(ref, m), m)
  {
    assert Deps(before.rows[i]) <= m.Keys;
    if ref.Some? {
      var d: Id := ref.value;
      assert d in Deps(before.rows[i]);
    }
  }

  lemma CopiedRow(before: Db, after: Db, dest: LevelKey, src: LevelKey, m: map<Id, Id>, i: Id)
    requires Copied(before, after, dest, src, m) && i in m
    ensures i in before.rows && m[i] in after.rows && CopyOf(before.rows[i], after.rows[m[i]], dest, m)
  {
    assert i in LevelIds(before, src);
    FollowedRef(before, src, m, i, before.rows[i].parent);
    FollowedRef(before, src, m, i, before.rows[i].reverts);
  }

  lemma OtherRows(before: Db, rows: map<Id, Row>, dest: LevelKey, m: map<Id, Id>)
    requires RowsCopied(before, rows, dest, m)
    ensures forall i :: i in rows <==> (i in before.rows && before.rows[i].level != dest) || i in m.Values
    ensures forall i :: i in before.rows && before.rows[i].level != dest && i in rows ==> rows[i] == before.rows[i]
  {
    forall i: Id ensures i in rows <==> (i in before.rows && before.rows[i].level != dest) || i in m.Values {
      assert i in rows.Keys <==> i in (before.rows.Keys - LevelIds(before, dest)) + m.Values;
    }
  }

  lemma CopiedTables(before: Db, after: Db, dest: LevelKey, src: LevelKey, m: map<Id, Id>)
    requires Copied(before, after, dest, src, m)
    ensures LevelCopied(before, after, dest, src, m)
  {
    forall i | i in m ensures m[i] in after.rows && CopyOf(before.rows[i], after.rows[m[i]], dest, m) {
      CopiedRow(before, after, dest, src, m, i);
    }
    forall i: Id ensures i in m <==> i in before.rows && before.rows[i].level == src {
      assert i in m.Keys <==> i in LevelIds(before, src);
    }
    OtherRows(before, after.rows, dest, m);
  }
}
