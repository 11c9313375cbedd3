/** The two SQLite tables and what each store operation makes of them (`src/store/CommitStore.cpp`). */
module Tables {
  import opened Prelude
  import opened Differ

  type Id = int
  type LevelKey = string

  datatype Row = Row(
    level: LevelKey,
    parent: Option<Id>,
    reverts: Option<Id>,
    message: string,
    createdAt: int,
    delta: Delta)

  /** Table `commits` by id, table `refs` by level, and the AUTOINCREMENT counter. */
  datatype Db = Db(rows: map<Id, Row>, heads: map<LevelKey, Id>, nextId: Id)

  predicate RefOk(rows: map<Id, Row>, ref: Option<Id>) {
    ref.Some? ==> ref.value in rows
  }

  /** The declared foreign keys, as checked at COMMIT. */
  predicate FkOk(t: Db) {
    && (forall i :: i in t.rows ==> RefOk(t.rows, t.rows[i].parent) && RefOk(t.rows, t.rows[i].reverts))
    && (forall k :: k in t.heads ==> t.heads[k] in t.rows)
  }

  /** What SQLite itself guarantees between transactions. */
  ghost predicate SqlOk(t: Db) {
    FkOk(t) && 0 < t.nextId && forall i :: i in t.rows ==> 0 < i < t.nextId
  }

  /** COMMIT keeps `after` if the foreign keys hold and otherwise rolls back to `before`. */
  function Settle(before: Db, after: Db): Db {
    if FkOk(after) then after else before
  }

  function LevelIds(t: Db, key: LevelKey): set<Id> {
    set i | i in t.rows && t.rows[i].level == key
  }

  function InsertHead(t: Db, row: Row): Db {
    Db(t.rows[t.nextId := row], t.heads[row.level := t.nextId], t.nextId + 1)
  }

  // ---------------------------------------------------------------- squash

  datatype SquashArgs = SquashArgs(
    key: LevelKey,
    ids: seq<Id>,
    parentOfOldest: Option<Id>,
    message: string,
    delta: Delta)
  {
    predicate WellFormed() { |ids| >= 2 }

    function Newest(): Id
      requires WellFormed()
    {
      ids[|ids| - 1]
    }
  }

  function SquashRow(t: Db, a: SquashArgs, now: int): Row
    requires a.WellFormed()
  {
    var createdAt := if a.Newest() in t.rows then t.rows[a.Newest()].createdAt else now;
    Row(a.key, a.parentOfOldest, None, a.message, createdAt, a.delta)
  }

  /** Children of the newest squashed commit move to the new one; reverts marks into the range are dropped. */
  function Reparent(a: SquashArgs, newId: Id, i: Id, row: Row): Row
    requires a.WellFormed()
  {
    row.(parent := if row.parent == Some(a.Newest()) && row.level == a.key && i != newId then Some(newId)
                   else row.parent,
         reverts := if row.reverts.Some? && row.reverts.value in a.ids then None else row.reverts)
  }

  /** The tables at the end of the squash transaction, before the foreign-key check. */
  function Squashed(t: Db, a: SquashArgs, now: int): Db
    requires a.WellFormed()
  {
    var newId := t.nextId;
    var all := t.rows[newId := SquashRow(t, a, now)];
    Db(map i | i in all && i !in a.ids :: Reparent(a, newId, i, all[i]),
       map k | k in t.heads :: if k == a.key && t.heads[k] in a.ids then newId else t.heads[k],
       newId + 1)
  }

  // ---------------------------------------------------------------- delete

  function Deleted(t: Db, key: LevelKey): Db {
    Db(t.rows - LevelIds(t, key), t.heads - {key}, t.nextId)
  }

  // ---------------------------------------------------------------- copying a level's history

  function MapRef(ref: Option<Id>, m: map<Id, Id>): Option<Id> {
    if ref.Some? && ref.value in m then Some(m[ref.value]) else None
  }

  /** The rows of a level refer only to rows of the level. */
  predicate Closed(t: Db, ids: set<Id>)
    requires ids <= t.rows.Keys
  {
    forall i :: i in ids ==> Deps(t.rows[i]) <= ids
  }

  /** The copies get distinct new ids, in `[first, end)`. */
  ghost predicate FreshIds(first: Id, end: Id, m: map<Id, Id>) {
    && (forall i :: i in m ==> first <= m[i] < end)
    && (forall i, j :: i in m && j in m && m[i] == m[j] ==> i == j)
  }

  /** dest's rows are gone, the copies are there, and nothing else changed. */
  ghost predicate RowsCopied(before: Db, rows: map<Id, Row>, dest: LevelKey, m: map<Id, Id>) {
    && rows.Keys == (before.rows.Keys - LevelIds(before, dest)) + m.Values
    && (forall i :: i in before.rows && i !in LevelIds(before, dest) ==> i in rows && rows[i] == before.rows[i])
    && (forall i :: i in m ==> i in before.rows && m[i] in rows && rows[m[i]] == CopyRow(before.rows[i], dest, m))
  }

  /** `after` is `before` with dest's history replaced by a copy of src's, old ids mapped by `m`. */
  ghost predicate Copied(before: Db, after: Db, dest: LevelKey, src: LevelKey, m: map<Id, Id>) {
    && dest != src && src in before.heads
    && Closed(before, LevelIds(before, src))
    && m.Keys == LevelIds(before, src) && before.heads[src] in m
    && FreshIds(before.nextId, after.nextId, m)
    && RowsCopied(before, after.rows, dest, m)
    && after.heads == before.heads[dest := m[before.heads[src]]]
    && after.nextId == before.nextId + |m|
  }

  function CopyRow(row: Row, dest: LevelKey, m: map<Id, Id>): Row {
    row.(level := dest, parent := MapRef(row.parent, m), reverts := MapRef(row.reverts, m))
  }

  /** A reference into a level's rows from outside the level: what deleting the level would leave dangling. */
  ghost predicate CrossReferenced(t: Db, key: LevelKey) {
    || (exists i :: i in t.rows && t.rows[i].level != key && RefersTo(t.rows[i], LevelIds(t, key)))
    || (exists k :: k in t.heads && k != key && t.heads[k] in LevelIds(t, key))
  }

  ghost predicate RefersTo(row: Row, ids: set<Id>) {
    (row.parent.Some? && row.parent.value in ids) || (row.reverts.Some? && row.reverts.value in ids)
  }

  // ---------------------------------------------------------------- acyclic histories

  function RefSet(ref: Option<Id>): set<Id> {
    if ref.Some? then {ref.value} else {}
  }

  /** The commits a row needs first. */
  function Deps(row: Row): set<Id> {
    RefSet(row.parent) + RefSet(row.reverts)
  }

  ghost predicate RankedAt(rank: map<Id, nat>, i: Id, deps: set<Id>) {
    forall d :: d in deps ==> i in rank && d in rank && rank[d] < rank[i]
  }

  ghost predicate Ranks(rows: map<Id, Row>, rank: map<Id, nat>) {
    forall i :: i in rows ==> RankedAt(rank, i, Deps(rows[i]))
  }

  ghost predicate Acyclic(rows: map<Id, Row>) {
    exists rank :: Ranks(rows, rank)
  }

  /** The reasons for which a history copy is refused. */
  ghost predicate CopyRefused(t: Db, dest: LevelKey, src: LevelKey) {
    || dest == src || src !in t.heads
    || !Closed(t, LevelIds(t, src))
    || !Acyclic(t.rows)
    || t.heads[src] !in LevelIds(t, src)
    || CrossReferenced(t, dest)
  }
}
