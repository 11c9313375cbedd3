/** One straight timeline for each level (`docs/known-issues.md:10`): which jobs keep it, and in which runs it holds. */
module Timeline {
  import opened Prelude
  import opened LevelModel
  import opened Differ
  import opened Tables
  import opened History
  import opened SquashHistory
  import opened ServiceModel
  import opened StoreInvariants
  import opened ServiceSteps
  import opened ImportSteps
  import opened Runs

  /** `path` runs through all commits of the level from a single root to HEAD. */
  ghost predicate IsTimeline(db: Db, key: LevelKey, path: seq<Id>) {
    && path != [] && Distinct(path)
    && (forall j :: 0 <= j < |path| ==> OnLevel(db, key, path[j]))
    && (forall i :: i in db.rows && db.rows[i].level == key ==> i in path)
    && db.rows[path[0]].parent == None
    && (forall j :: 1 <= j < |path| ==> db.rows[path[j]].parent == Some(path[j - 1]))
    && key in db.heads && db.heads[key] == path[|path| - 1]
  }

  ghost predicate OnLevel(db: Db, key: LevelKey, i: Id) {
    i in db.rows && db.rows[i].level == key
  }

  ghost predicate HasTimeline(db: Db, key: LevelKey) {
    exists path :: IsTimeline(db, key, path)
  }

  ghost predicate Straight(db: Db) {
    HeadIffCommits(db) && forall k :: k in db.heads ==> HasTimeline(db, k)
  }

  /** A level whose rows and HEAD are as before keeps its timeline. */
  lemma SameLevelKeeps(db: Db, db2: Db, key: LevelKey)
    requires HasTimeline(db, key) && key in db.heads && key in db2.heads && db2.heads[key] == db.heads[key]
    requires forall i :: (i in db2.rows && db2.rows[i].level == key) <==> (i in db.rows && db.rows[i].level == key)
    requires forall i :: i in db.rows && db.rows[i].level == key ==>
               i in db2.rows && db2.rows[i].parent == db.rows[i].parent
    ensures HasTimeline(db2, key)
  {
    var path :| IsTimeline(db, key, path);
    forall j | 0 <= j < |path|
      ensures OnLevel(db2, key, path[j]) && db2.rows[path[j]].parent == db.rows[path[j]].parent
    {
      assert OnLevel(db, key, path[j]);
    }
    assert IsTimeline(db2, key, path);
  }

  // ---------------------------------------------------------------- insert

  /** The parent a straight timeline expects: HEAD, or none for the first commit. */
  function HeadRef(db: Db, key: LevelKey): Option<Id> {
    if key in db.heads then Some(db.heads[key]) else None
  }

  lemma InsertStraight(h: Ranked, row: Row)
    requires StoreInv(h) && Straight(h.db) && row.parent == HeadRef(h.db, row.level)
    ensures Straight(InsertHead(h.db, row))
  {
    var db2, n := InsertHead(h.db, row), h.db.nextId;
    InsertKeepsHeads(h.db, row);
    assert n !in h.rank && n !in h.db.rows;
    forall k | k in db2.heads ensures HasTimeline(db2, k) {
      if k != row.level {
        SameLevelKeeps(h.db, db2, k);
      } else if k in h.db.heads {
        var path :| IsTimeline(h.db, k, path);
        Extended(h.db, row, path);
        assert IsTimeline(db2, k, path + [n]);
      } else {
        forall i | i in h.db.rows ensures h.db.rows[i].level != k {
        }
        assert IsTimeline(db2, k, [n]);
      }
    }
  }

  lemma Extended(db: Db, row: Row, path: seq<Id>)
    requires db.nextId !in db.rows && IsTimeline(db, row.level, path) && row.parent == Some(db.heads[row.level])
    ensures IsTimeline(InsertHead(db, row), row.level, path + [db.nextId])
  {
    var db2, p2 := InsertHead(db, row), path + [db.nextId];
    forall j | 0 <= j < |path| ensures p2[j] == path[j] && OnLevel(db, row.level, path[j]) && path[j] != db.nextId {
    }
    assert OnLevel(db2, row.level, db.nextId);
    forall i | i in db2.rows && db2.rows[i].level == row.level ensures i in p2 {
      assert i in path || p2[|path|] == i;
    }
  }

  // ---------------------------------------------------------------- delete and load-level

  lemma DeleteStraight(h: Ranked, key: LevelKey)
    requires Straight(h.db)
    ensures Straight(Deleted(h.db, key))
  {
    DeleteKeepsHeads(h.db, key);
    forall k | k in Deleted(h.db, key).heads ensures HasTimeline(Deleted(h.db, key), k) {
      SameLevelKeeps(h.db, Deleted(h.db, key), k);
    }
  }

  lemma CopyStraight(h: Ranked, after: Db, dest: LevelKey, src: LevelKey, m: map<Id, Id>)
    requires StoreInv(h) && Straight(h.db) && Copied(h.db, after, dest, src, m)
    ensures Straight(after)
  {
    CopyKeepsHeads(h.db, after, dest, src, m);
    forall k | k in after.heads ensures HasTimeline(after, k) {
      if k == dest {
        var path :| IsTimeline(h.db, src, path);
        CopiedTimeline(h, after, dest, src, m, path);
      } else {
        CopyOtherLevel(h, after, dest, src, m, k);
        SameLevelKeeps(h.db, after, k);
      }
    }
  }

  lemma CopyOtherLevel(h: Ranked, after: Db, dest: LevelKey, src: LevelKey, m: map<Id, Id>, k: LevelKey)
    requires StoreInv(h) && Copied(h.db, after, dest, src, m) && k != dest
    ensures forall i :: (i in after.rows && after.rows[i].level == k) <==> (i in h.db.rows && h.db.rows[i].level == k)
    ensures forall i :: i in h.db.rows && h.db.rows[i].level == k ==> i in after.rows && after.rows[i] == h.db.rows[i]
  {
    forall i: Id
      ensures (i in after.rows && after.rows[i].level == k) <==> (i in h.db.rows && h.db.rows[i].level == k)
    {
      if i in m.Values {
        var o: Id := SomeKeyOf(m, i);
        assert o in m && after.rows[i] == CopyRow(h.db.rows[o], dest, m) && i >= h.db.nextId;
        assert i !in h.rank;
      } else if i in after.rows {
        assert i in after.rows.Keys;
      }
    }
  }

  lemma CopiedTimeline(h: Ranked, after: Db, dest: LevelKey, src: LevelKey, m: map<Id, Id>, path: seq<Id>)
    requires StoreInv(h) && Copied(h.db, after, dest, src, m) && IsTimeline(h.db, src, path)
    ensures HasTimeline(after, dest)
  {
    var p2 := Mapped(path, m);
    MappedLinks(h, after, dest, src, m, path);
    MappedCovers(h, after, dest, src, m, path);
    MappedEnds(h, after, dest, src, m, path);
    LinkedTimeline(after, dest, p2);
  }

  /** Position `j` of a timeline: on the level, with the commit before it as parent. */
  ghost predicate Link(db: Db, key: LevelKey, path: seq<Id>, j: nat)
    requires j < |path|
  {
    OnLevel(db, key, path[j]) && db.rows[path[j]].parent == if j == 0 then None else Some(path[j - 1])
  }

  lemma LinkedTimeline(db: Db, key: LevelKey, path: seq<Id>)
    requires path != [] && Distinct(path) && forall j :: 0 <= j < |path| ==> Link(db, key, path, j)
    requires forall i :: OnLevel(db, key, i) ==> i in path
    requires key in db.heads && db.heads[key] == path[|path| - 1]
    ensures IsTimeline(db, key, path)
  {
    assert Link(db, key, path, 0);
    forall j | 0 <= j < |path| ensures OnLevel(db, key, path[j]) {
      assert Link(db, key, path, j);
    }
    forall j | 1 <= j < |path| ensures db.rows[path[j]].parent == Some(path[j - 1]) {
      assert Link(db, key, path, j);
    }
    forall i | i in db.rows && db.rows[i].level == key ensures i in path {
      assert OnLevel(db, key, i);
    }
  }

  lemma MappedLinks(h: Ranked, after: Db, dest: LevelKey, src: LevelKey, m: map<Id, Id>, path: seq<Id>)
    requires Copied(h.db, after, dest, src, m) && IsTimeline(h.db, src, path)
    ensures forall j :: 0 <= j < |path| ==> Link(after, dest, Mapped(path, m), j)
  {
    forall j | 0 <= j < |path| ensures Link(after, dest, Mapped(path, m), j) {
      MappedAt(h, after, dest, src, m, path, j);
      if j > 0 {
        MappedAt(h, after, dest, src, m, path, j - 1);
      }
    }
  }

  lemma MappedCovers(h: Ranked, after: Db, dest: LevelKey, src: LevelKey, m: map<Id, Id>, path: seq<Id>)
    requires StoreInv(h) && Copied(h.db, after, dest, src, m) && IsTimeline(h.db, src, path)
    ensures forall i :: OnLevel(after, dest, i) ==> i in Mapped(path, m)
  {
    forall i | OnLevel(after, dest, i) ensures i in Mapped(path, m) {
      var j := CopiedPlace(h, after, dest, src, m, path, i);
      assert Mapped(path, m)[j] == i;
    }
  }

  /** The copies of the commits on a path. */
  function Mapped(path: seq<Id>, m: map<Id, Id>): seq<Id> {
    seq(|path|, j requires 0 <= j < |path| => if path[j] in m then m[path[j]] else path[j])
  }

  lemma MappedAt(h: Ranked, after: Db, dest: LevelKey, src: LevelKey, m: map<Id, Id>, path: seq<Id>, j: nat)
    requires Copied(h.db, after, dest, src, m) && IsTimeline(h.db, src, path) && j < |path|
    ensures path[j] in m && m[path[j]] == Mapped(path, m)[j] && OnLevel(after, dest, Mapped(path, m)[j])
    ensures after.rows[Mapped(path, m)[j]].parent == MapRef(if j == 0 then None else Some(path[j - 1]), m)
  {
    var o: Id := path[j];
    assert OnLevel(h.db, src, o) && o in LevelIds(h.db, src);
    assert after.rows[m[o]] == CopyRow(h.db.rows[o], dest, m);
  }

  lemma MappedEnds(h: Ranked, after: Db, dest: LevelKey, src: LevelKey, m: map<Id, Id>, path: seq<Id>)
    requires Copied(h.db, after, dest, src, m) && IsTimeline(h.db, src, path)
    ensures Distinct(Mapped(path, m))
    ensures dest in after.heads && after.heads[dest] == Mapped(path, m)[|path| - 1]
  {
    var p2 := Mapped(path, m);
    forall i, j | 0 <= i < j < |p2| ensures p2[i] != p2[j] {
      MappedAt(h, after, dest, src, m, path, i);
      MappedAt(h, after, dest, src, m, path, j);
    }
    MappedAt(h, after, dest, src, m, path, |path| - 1);
  }

  lemma DestAreCopies(h: Ranked, after: Db, dest: LevelKey, src: LevelKey, m: map<Id, Id>, i: Id)
    requires Copied(h.db, after, dest, src, m) && i in after.rows && after.rows[i].level == dest
    ensures i in m.Values
  {
    assert i in after.rows.Keys;
  }

  lemma CopiedPlace(h: Ranked, after: Db, dest: LevelKey, src: LevelKey, m: map<Id, Id>, path: seq<Id>, i: Id)
    returns (j: nat)
    requires StoreInv(h) && Copied(h.db, after, dest, src, m) && IsTimeline(h.db, src, path)
    requires i in after.rows && after.rows[i].level == dest
    ensures j < |path| && path[j] in m && m[path[j]] == i
  {
    DestAreCopies(h, after, dest, src, m, i);
    var o: Id := SomeKeyOf(m, i);
    assert o in LevelIds(h.db, src) && o in path;
    j :| 0 <= j < |path| && path[j] == o;
  }

  // ---------------------------------------------------------------- squash

  /** A contiguous range sits in the timeline as one block. */
  lemma {:induction false} RangeInPath(db: Db, a: SquashArgs, path: seq<Id>, start: nat, j: nat)
    requires IsTimeline(db, a.key, path) && Contiguous(db, a) && start < |path| && path[start] == a.ids[0] &&
             j < |a.ids|
    ensures start + j < |path| && path[start + j] == a.ids[j]
  {
    if j > 0 {
      RangeInPath(db, a, path, start, j - 1);
      var id: Id := a.ids[j];
      assert id in db.rows && id in path;
      var b :| 0 <= b < |path| && path[b] == id;
      assert b > 0;
      assert path[b - 1] == a.ids[j - 1] == path[start + j - 1];
      assert b - 1 == start + j - 1;
    }
  }

  lemma SquashStraight(h: Ranked, a: SquashArgs, now: int)
    requires StoreInv(h) && Straight(h.db) && Contiguous(h.db, a) && FkOk(Squashed(h.db, a, now))
    requires forall k :: k in h.db.heads ==> HeadOutside(a, h.db.heads[k])
    ensures Straight(Squashed(h.db, a, now))
  {
    SquashedHeads(h, a, now);
    forall k | k in Squashed(h.db, a, now).heads ensures HasTimeline(Squashed(h.db, a, now), k) {
      SquashedLevel(h, a, now, k);
    }
  }

  lemma SquashedHeads(h: Ranked, a: SquashArgs, now: int)
    requires StoreInv(h) && HeadIffCommits(h.db) && Contiguous(h.db, a) && FkOk(Squashed(h.db, a, now))
    ensures HeadIffCommits(Squashed(h.db, a, now))
  {
    var db2 := Squashed(h.db, a, now);
    var first: Id := a.ids[0];
    assert first in h.db.rows && a.key in h.db.heads;
    SquashFresh(h, a);
    NewRow(h, a, now);
    forall i | i in db2.rows ensures db2.rows[i].level in db2.heads {
      if i != h.db.nextId { SurvivorRow(h, a, now, i); }
    }
  }

  lemma SquashedLevel(h: Ranked, a: SquashArgs, now: int, k: LevelKey)
    requires StoreInv(h) && Straight(h.db) && Contiguous(h.db, a) && FkOk(Squashed(h.db, a, now))
    requires k in h.db.heads && HeadOutside(a, h.db.heads[k])
    ensures HasTimeline(Squashed(h.db, a, now), k)
  {
    if k == a.key {
      SquashedOwnLevel(h, a, now);
    } else {
      SquashOtherLevel(h, a, now, k);
      SameLevelKeeps(h.db, Squashed(h.db, a, now), k);
    }
  }

  lemma SquashedOwnLevel(h: Ranked, a: SquashArgs, now: int)
    requires StoreInv(h) && Contiguous(h.db, a) && FkOk(Squashed(h.db, a, now)) && a.key in h.db.heads
    requires HasTimeline(h.db, a.key) && HeadOutside(a, h.db.heads[a.key])
    ensures HasTimeline(Squashed(h.db, a, now), a.key)
  {
    var path :| IsTimeline(h.db, a.key, path);
    var first: Id := a.ids[0];
    assert first in h.db.rows && first in path;
    var start :| 0 <= start < |path| && path[start] == first;
    SquashedTimeline(h, a, now, path, start);
  }

  lemma SquashFresh(h: Ranked, a: SquashArgs)
    requires StoreInv(h) && Contiguous(h.db, a)
    ensures SqlFresh(h, a)
  {
    forall i | i in a.ids ensures i in h.rank && i in h.db.rows && h.db.rows[i].level == a.key {
      var j :| 0 <= j < |a.ids| && a.ids[j] == i;
    }
  }

  lemma SquashOtherLevel(h: Ranked, a: SquashArgs, now: int, k: LevelKey)
    requires StoreInv(h) && Contiguous(h.db, a) && k != a.key
    ensures var r2 := Squashed(h.db, a, now).rows;
            && (forall i :: (i in r2 && r2[i].level == k) <==> (i in h.db.rows && h.db.rows[i].level == k))
            && (forall i :: i in h.db.rows && h.db.rows[i].level == k ==>
                  i in r2 && r2[i].parent == h.db.rows[i].parent)
  {
    SquashFresh(h, a);
    NewRow(h, a, now);
    forall i | i in h.db.rows && h.db.rows[i].level == k
      ensures i in Squashed(h.db, a, now).rows && Squashed(h.db, a, now).rows[i].level == k
      ensures Squashed(h.db, a, now).rows[i].parent == h.db.rows[i].parent
    {
      forall j | 0 <= j < |a.ids| ensures a.ids[j] != i {
      }
      SurvivorRow(h, a, now, i);
    }
  }

  /** The timeline with the block replaced by the new commit. */
  function Spliced(path: seq<Id>, start: nat, n: nat, newId: Id): seq<Id>
    requires start + n <= |path|
  {
    path[..start] + [newId] + path[start + n..]
  }

  lemma SquashedTimeline(h: Ranked, a: SquashArgs, now: int, path: seq<Id>, start: nat)
    requires StoreInv(h) && Contiguous(h.db, a) && FkOk(Squashed(h.db, a, now)) && IsTimeline(h.db, a.key, path)
    requires HeadOutside(a, h.db.heads[a.key])
    requires start < |path| && path[start] == a.ids[0]
    ensures HasTimeline(Squashed(h.db, a, now), a.key)
  {
    RangeInPath(h.db, a, path, start, |a.ids| - 1);
    SquashFresh(h, a);
    SplicedLinks(h, a, now, path, start);
    SplicedDistinct(h, a, path, start);
    SplicedHead(h, a, now, path, start);
    LinkedTimeline(Squashed(h.db, a, now), a.key, Spliced(path, start, |a.ids|, h.db.nextId));
  }

  lemma SplicedLinks(h: Ranked, a: SquashArgs, now: int, path: seq<Id>, start: nat)
    requires StoreInv(h) && Contiguous(h.db, a) && SqlFresh(h, a) && IsTimeline(h.db, a.key, path)
    requires start + |a.ids| <= |path| && path[start] == a.ids[0]
    ensures var p2, db2 := Spliced(path, start, |a.ids|, h.db.nextId), Squashed(h.db, a, now);
            && (forall j :: 0 <= j < |p2| ==> Link(db2, a.key, p2, j))
            && (forall i :: OnLevel(db2, a.key, i) ==> i in p2)
  {
    SplicedMembers(h, a, now, path, start);
    SplicedParents(h, a, now, path, start);
  }

  lemma SplicedHead(h: Ranked, a: SquashArgs, now: int, path: seq<Id>, start: nat)
    requires StoreInv(h) && Contiguous(h.db, a) && IsTimeline(h.db, a.key, path)
    requires start + |a.ids| <= |path| && path[start] == a.ids[0]
    ensures var p2, heads := Spliced(path, start, |a.ids|, h.db.nextId), Squashed(h.db, a, now).heads;
            p2 != [] && a.key in heads && heads[a.key] == p2[|p2| - 1]
  {
    var head: Id := h.db.heads[a.key];
    assert head == path[|path| - 1];
    if start + |a.ids| == |path| {
      RangeInPath(h.db, a, path, start, |a.ids| - 1);
      assert head == a.Newest() && head in a.ids;
    } else {
      SplicedHeadOutside(h, a, path, start);
    }
  }

  lemma SplicedHeadOutside(h: Ranked, a: SquashArgs, path: seq<Id>, start: nat)
    requires IsTimeline(h.db, a.key, path) && Contiguous(h.db, a) && start + |a.ids| < |path| && path[start] == a.ids[0]
    ensures path[|path| - 1] !in a.ids
  {
    forall j | 0 <= j < |a.ids| ensures a.ids[j] != path[|path| - 1] {
      RangeInPath(h.db, a, path, start, j);
    }
  }

  /** An element of the path is in the squashed block exactly if its place is. */
  lemma BlockPlaces(h: Ranked, a: SquashArgs, path: seq<Id>, start: nat, b: nat)
    requires IsTimeline(h.db, a.key, path) && Contiguous(h.db, a) && start < |path| && path[start] == a.ids[0] &&
             b < |path|
    ensures path[b] in a.ids <==> start <= b < start + |a.ids|
  {
    if path[b] in a.ids {
      var j :| 0 <= j < |a.ids| && a.ids[j] == path[b];
      RangeInPath(h.db, a, path, start, j);
    }
    if start <= b < start + |a.ids| {
      RangeInPath(h.db, a, path, start, b - start);
    }
  }

  lemma SplicedMembers(h: Ranked, a: SquashArgs, now: int, path: seq<Id>, start: nat)
    requires StoreInv(h) && Contiguous(h.db, a) && SqlFresh(h, a) && IsTimeline(h.db, a.key, path)
    requires start + |a.ids| <= |path| && path[start] == a.ids[0]
    ensures var db2 := Squashed(h.db, a, now);
            forall i :: i in Spliced(path, start, |a.ids|, h.db.nextId) <==> i in db2.rows && db2.rows[i].level == a.key
  {
    var p2, db2, n := Spliced(path, start, |a.ids|, h.db.nextId), Squashed(h.db, a, now), |a.ids|;
    NewRow(h, a, now);
    forall i: Id ensures i in p2 <==> i in db2.rows && db2.rows[i].level == a.key {
      SplicedIn(path, start, n, h.db.nextId, i);
      if i in db2.rows && db2.rows[i].level == a.key && i != h.db.nextId {
        SurvivorRow(h, a, now, i);
        assert i in path;
        var b :| 0 <= b < |path| && path[b] == i;
        BlockPlaces(h, a, path, start, b);
      }
      if b :| 0 <= b < |path| && path[b] == i && (b < start || start + n <= b) {
        assert OnLevel(h.db, a.key, path[b]);
        BlockPlaces(h, a, path, start, b);
        SurvivorRow(h, a, now, i);
      }
    }
  }

  lemma SplicedIn(path: seq<Id>, start: nat, n: nat, newId: Id, i: Id)
    requires start + n <= |path|
    ensures i in Spliced(path, start, n, newId) <==>
            i == newId || exists b :: 0 <= b < |path| && path[b] == i && (b < start || start + n <= b)
  {
    var p2 := Spliced(path, start, n, newId);
    if i in p2 && i != newId {
      var j :| 0 <= j < |p2| && p2[j] == i;
      var b := if j < start then j else j - 1 + n;
      assert path[b] == i;
    }
    if b :| 0 <= b < |path| && path[b] == i && (b < start || start + n <= b) {
      assert p2[if b < start then b else b - n + 1] == i;
    }
    assert p2[start] == newId;
  }

  lemma SplicedParents(h: Ranked, a: SquashArgs, now: int, path: seq<Id>, start: nat)
    requires StoreInv(h) && Contiguous(h.db, a) && SqlFresh(h, a) && IsTimeline(h.db, a.key, path)
    requires start + |a.ids| <= |path| && path[start] == a.ids[0]
    ensures var p2, r2 := Spliced(path, start, |a.ids|, h.db.nextId), Squashed(h.db, a, now).rows;
            forall j :: 0 <= j < |p2| ==> p2[j] in r2 && r2[p2[j]].parent == (if j == 0 then None else Some(p2[j - 1]))
  {
    var p2, r2 := Spliced(path, start, |a.ids|, h.db.nextId), Squashed(h.db, a, now).rows;
    NewRow(h, a, now);
    forall j | 0 <= j < |p2| ensures p2[j] in r2 && r2[p2[j]].parent == (if j == 0 then None else Some(p2[j - 1])) {
      if j == start {
        BlockParent(h.db, a, path, start);
      } else {
        SplicedKept(h, a, now, path, start, j);
      }
    }
  }

  lemma SplicedKept(h: Ranked, a: SquashArgs, now: int, path: seq<Id>, start: nat, j: nat)
    requires StoreInv(h) && Contiguous(h.db, a) && SqlFresh(h, a) && IsTimeline(h.db, a.key, path)
    requires start + |a.ids| <= |path| && path[start] == a.ids[0] && j != start
    requires j < |Spliced(path, start, |a.ids|, h.db.nextId)|
    ensures var p2, r2 := Spliced(path, start, |a.ids|, h.db.nextId), Squashed(h.db, a, now).rows;
            p2[j] in r2 && r2[p2[j]].parent == if j == 0 then None else Some(p2[j - 1])
  {
    var p2, b := Spliced(path, start, |a.ids|, h.db.nextId), if j < start then j else j - 1 + |a.ids|;
    SplicedParentAt(h, a, now, path, start, b);
    assert p2[j] == path[b];
    assert j > 0 ==> p2[j - 1] == if j == start + 1 then h.db.nextId else path[b - 1];
  }

  /** The block hangs on the commit before it. */
  lemma BlockParent(db: Db, a: SquashArgs, path: seq<Id>, start: nat)
    requires IsTimeline(db, a.key, path) && Contiguous(db, a) && start < |path| && path[start] == a.ids[0]
    ensures a.parentOfOldest == if start == 0 then None else Some(path[start - 1])
  {
    assert start > 0 ==> db.rows[path[start]].parent == Some(path[start - 1]);
  }

  /** A kept commit of the path hangs on its old predecessor, or on the new commit right after the block. */
  lemma SplicedParentAt(h: Ranked, a: SquashArgs, now: int, path: seq<Id>, start: nat, b: nat)
    requires StoreInv(h) && Contiguous(h.db, a) && SqlFresh(h, a) && IsTimeline(h.db, a.key, path)
    requires start + |a.ids| <= |path| && path[start] == a.ids[0] && b < |path|
    requires b < start || start + |a.ids| <= b
    ensures var r2 := Squashed(h.db, a, now).rows;
            path[b] in r2 && r2[path[b]].parent == (if b == 0 then None
                                                    else if b == start + |a.ids| then Some(h.db.nextId)
                                                    else Some(path[b - 1]))
  {
    var id: Id := path[b];
    assert OnLevel(h.db, a.key, id);
    BlockPlaces(h, a, path, start, b);
    SurvivorRow(h, a, now, id);
    RangeInPath(h.db, a, path, start, |a.ids| - 1);
    if b > 0 {
      assert h.db.rows[path[b]].parent == Some(path[b - 1]);
      if path[b - 1] == a.Newest() {
        assert b - 1 == start + |a.ids| - 1;
      }
    }
  }

  lemma SplicedDistinct(h: Ranked, a: SquashArgs, path: seq<Id>, start: nat)
    requires StoreInv(h) && IsTimeline(h.db, a.key, path) && start + |a.ids| <= |path|
    ensures Distinct(Spliced(path, start, |a.ids|, h.db.nextId))
  {
    var p2, n := Spliced(path, start, |a.ids|, h.db.nextId), |a.ids|;
    forall j | 0 <= j < |path| ensures path[j] != h.db.nextId {
      var id: Id := path[j];
      assert OnLevel(h.db, a.key, id) && id in h.rank;
    }
    forall i, j | 0 <= i < j < |p2| ensures p2[i] != p2[j] {
    }
  }

  // ---------------------------------------------------------------- two commits on one parent

  /** On a straight timeline no two commits share a parent. */
  lemma SingleChild(db: Db, key: LevelKey, i: Id, j: Id)
    requires HasTimeline(db, key) && OnLevel(db, key, i) && OnLevel(db, key, j) && i != j
    ensures db.rows[i].parent != db.rows[j].parent
  {
    var path :| IsTimeline(db, key, path);
    var a :| 0 <= a < |path| && path[a] == i;
    var b :| 0 <= b < |path| && path[b] == j;
    assert a > 0 ==> db.rows[path[a]].parent == Some(path[a - 1]);
    assert b > 0 ==> db.rows[path[b]].parent == Some(path[b - 1]);
  }

  /** Every commit of a straight timeline but HEAD has a child. */
  lemma ChildOf(db: Db, key: LevelKey, q: Id) returns (c: Id)
    requires HasTimeline(db, key) && OnLevel(db, key, q) && HeadRef(db, key) != Some(q)
    ensures OnLevel(db, key, c) && db.rows[c].parent == Some(q)
  {
    var path :| IsTimeline(db, key, path);
    var j :| 0 <= j < |path| && path[j] == q;
    var k := j + 1;
    assert db.rows[path[k]].parent == Some(path[k - 1]);
    assert OnLevel(db, key, path[k]);
    c := path[k];
  }

  lemma TwoChildrenFork(db: Db, key: LevelKey, i: Id, j: Id)
    requires OnLevel(db, key, i) && OnLevel(db, key, j) && i != j && db.rows[i].parent == db.rows[j].parent
    ensures !HasTimeline(db, key)
  {
    if HasTimeline(db, key) {
      SingleChild(db, key, i, j);
      assert false;
    }
  }

  lemma TwinsBend(db: Db, i: Id, j: Id)
    requires i in db.rows && OnLevel(db, db.rows[i].level, j) && i != j && db.rows[i].parent == db.rows[j].parent
    ensures !Straight(db)
  {
    var key := db.rows[i].level;
    assert OnLevel(db, key, i);
    TwoChildrenFork(db, key, i, j);
  }

  /** A new commit would continue an existing commit that is not HEAD, or be a second root. */
  ghost predicate LandsBeside(db: Db, key: LevelKey, parent: Option<Id>) {
    RefOk(db.rows, parent) && parent != HeadRef(db, key)
  }

  /** Then a commit of the level already has that parent. */
  lemma OlderTwin(h: Ranked, key: LevelKey, parent: Option<Id>) returns (c: Id)
    requires Sound(h) && Straight(h.db) && LandsBeside(h.db, key, parent) && RefLevel(h, parent, key)
    ensures OnLevel(h.db, key, c) && h.db.rows[c].parent == parent && c < h.db.nextId
  {
    if parent.None? {
      var path :| IsTimeline(h.db, key, path);
      assert OnLevel(h.db, key, path[0]);
      c := path[0];
    } else {
      var q: Id := parent.value;
      assert HasTimeline(h.db, h.db.rows[q].level);
      c := ChildOf(h.db, key, q);
    }
    assert c in h.rank;
  }

  /** An insert keeps the timelines straight if and only if its parent is HEAD. */
  lemma InsertStraightIff(h: Ranked, row: Row)
    requires StoreInv(h) && Straight(h.db) && RefOk(h.db.rows, row.parent) && RefLevel(h, row.parent, row.level)
    ensures Straight(InsertHead(h.db, row)) <==> row.parent == HeadRef(h.db, row.level)
  {
    if row.parent == HeadRef(h.db, row.level) {
      InsertStraight(h, row);
    } else {
      var c := OlderTwin(h, row.level, row.parent);
      TwinsBend(InsertHead(h.db, row), c, h.db.nextId);
    }
  }

  // ---------------------------------------------------------------- a squash whose range changed since it was prepared

  /** A commit whose parent the squash deletes, other than the newest one, goes with it. */
  lemma ChildGoes(h: Ranked, a: SquashArgs, now: int, c: Id)
    requires SqlFresh(h, a) && FkOk(Squashed(h.db, a, now)) && c in h.db.rows && h.db.rows[c].parent.Some?
    requires h.db.rows[c].parent.value in a.ids && h.db.rows[c].parent.value != a.Newest()
    ensures c in a.ids
  {
    if c !in a.ids {
      SurvivorRow(h, a, now, c);
    }
  }

  /** On a level that stays straight, a commit with the base as its parent is the oldest one of the range. */
  lemma OnlyOldest(h: Ranked, a: SquashArgs, now: int, c: Id)
    requires SqlFresh(h, a) && Straight(Squashed(h.db, a, now)) && RangeKept(h.db.rows, a)
    requires OnLevel(h.db, a.key, c) && h.db.rows[c].parent == a.parentOfOldest
    requires a.parentOfOldest.Some? ==> a.parentOfOldest.value !in a.ids
    ensures c == a.ids[0]
  {
    if c !in a.ids {
      SurvivorRow(h, a, now, c);
      NewRow(h, a, now);
      assert a.Newest() in a.ids;
      TwinsBend(Squashed(h.db, a, now), c, h.db.nextId);
    } else {
      var j :| 0 <= j < |a.ids| && a.ids[j] == c;
      assert ParentInRange(h.db.rows, a, j);
    }
  }

  /** There is such a commit: the root, or the child of the base. */
  lemma AfterBase(h: Ranked, key: LevelKey, base: Option<Id>) returns (c: Id)
    requires HasTimeline(h.db, key) && (base.Some? ==> OnLevel(h.db, key, base.value) && HeadRef(h.db, key) != base)
    ensures OnLevel(h.db, key, c) && h.db.rows[c].parent == base
  {
    if base.None? {
      var path :| IsTimeline(h.db, key, path);
      assert OnLevel(h.db, key, path[0]);
      c := path[0];
    } else {
      c := ChildOf(h.db, key, base.value);
    }
  }

  /** What matters of a squash that goes through on a level with a timeline. */
  ghost predicate GoesThrough(h: Ranked, a: SquashArgs, now: int) {
    && SqlFresh(h, a) && Distinct(a.ids) && RangeKept(h.db.rows, a) && FkOk(Squashed(h.db, a, now))
    && HasTimeline(h.db, a.key) && a.key in h.db.heads && HeadOutside(a, h.db.heads[a.key])
    && (a.parentOfOldest.Some? ==> a.parentOfOldest.value !in a.ids && OnLevel(h.db, a.key, a.parentOfOldest.value))
  }

  lemma BaseSurvives(h: Ranked, a: SquashArgs, now: int)
    requires SqlFresh(h, a) && FkOk(Squashed(h.db, a, now))
    requires a.parentOfOldest.Some? ==>
               a.parentOfOldest.value in h.rank && LevelIfThere(h.db, a.parentOfOldest.value, a.key)
    ensures a.parentOfOldest.Some? ==> a.parentOfOldest.value !in a.ids && OnLevel(h.db, a.key, a.parentOfOldest.value)
  {
    NewRow(h, a, now);
    if a.parentOfOldest.Some? {
      var r2 := Squashed(h.db, a, now).rows;
      assert RefOk(r2, r2[h.db.nextId].parent);
    }
  }

  lemma PromiseGoesThrough(h: Ranked, a: SquashArgs, now: int, applied: LevelState)
    requires StoreInv(h) && Straight(h.db) && SquashPromise(h, a, applied) && FkOk(Squashed(h.db, a, now))
    requires HeadIffCommits(Squashed(h.db, a, now))
    ensures GoesThrough(h, a, now)
  {
    BaseSurvives(h, a, now);
    NewRow(h, a, now);
    assert a.key in Squashed(h.db, a, now).heads;
  }

  /** If the timelines stay straight, the oldest commit of the range is there and still continues the base. */
  lemma OldestStays(h: Ranked, a: SquashArgs, now: int)
    requires GoesThrough(h, a, now) && Straight(Squashed(h.db, a, now))
    ensures OnLevel(h.db, a.key, a.ids[0]) && h.db.rows[a.ids[0]].parent == a.parentOfOldest
  {
    var c := AfterBase(h, a.key, a.parentOfOldest);
    OnlyOldest(h, a, now, c);
  }

  /** Each further commit of the range is there too: the one before it is deleted, so its child must be as well. */
  lemma NextStays(h: Ranked, a: SquashArgs, now: int, j: nat)
    requires GoesThrough(h, a, now) && 0 < j < |a.ids| && OnLevel(h.db, a.key, a.ids[j - 1])
    ensures OnLevel(h.db, a.key, a.ids[j]) && h.db.rows[a.ids[j]].parent == Some(a.ids[j - 1])
  {
    var before: Id := a.ids[j - 1];
    assert before in a.ids && before != a.Newest();
    var c := ChildOf(h.db, a.key, before);
    ChildGoes(h, a, now, c);
    OnlyNext(h.db.rows, a, j, c);
  }

  lemma OnlyNext(rows: map<Id, Row>, a: SquashArgs, j: nat, c: Id)
    requires Distinct(a.ids) && RangeKept(rows, a) && 0 < j < |a.ids| && c in a.ids && c in rows
    requires a.parentOfOldest.Some? ==> a.parentOfOldest.value !in a.ids
    requires rows[c].parent == Some(a.ids[j - 1])
    ensures c == a.ids[j]
  {
    var i :| 0 <= i < |a.ids| && a.ids[i] == c;
    assert ParentInRange(rows, a, i);
    assert a.ids[j - 1] in a.ids;
  }

  lemma {:induction false} RangeStays(h: Ranked, a: SquashArgs, now: int, j: nat)
    requires GoesThrough(h, a, now) && Straight(Squashed(h.db, a, now)) && j < |a.ids|
    ensures OnLevel(h.db, a.key, a.ids[j]) && h.db.rows[a.ids[j]].parent == BeforeInRange(a, j)
  {
    if j == 0 {
      OldestStays(h, a, now);
    } else {
      RangeStays(h, a, now, j - 1);
      NextStays(h, a, now, j);
    }
  }

  lemma RangeWhole(h: Ranked, a: SquashArgs, now: int)
    requires GoesThrough(h, a, now) && Straight(Squashed(h.db, a, now))
    ensures Contiguous(h.db, a)
  {
    forall j | 0 <= j < |a.ids|
      ensures OnLevel(h.db, a.key, a.ids[j]) && h.db.rows[a.ids[j]].parent == BeforeInRange(a, j)
    {
      RangeStays(h, a, now, j);
    }
  }

  /** A squash that goes through keeps the timelines straight if and only if its range is still whole. */
  lemma SquashStraightIff(h: Ranked, a: SquashArgs, now: int, applied: LevelState)
    requires StoreInv(h) && Straight(h.db) && SquashPromise(h, a, applied) && FkOk(Squashed(h.db, a, now))
    ensures Straight(Squashed(h.db, a, now)) <==> Contiguous(h.db, a)
  {
    if Contiguous(h.db, a) {
      SquashStraight(h, a, now);
    } else if Straight(Squashed(h.db, a, now)) {
      PromiseGoesThrough(h, a, now, applied);
      RangeWhole(h, a, now);
    }
  }

  // ---------------------------------------------------------------- an import whose base is no longer HEAD

  /** Where the insert loop is, with every timeline still straight. */
  ghost predicate StraightSoFar(w0: World, commits: seq<PendingHeadUpdate>, w: World, i: nat, minted: seq<Id>) {
    && Inv(w0) && commits != [] && i <= |commits| && ImportAt(w0, w, commits, i, minted)
    && Straight(w.h.db)
  }

  lemma StartStraight(w0: World, commits: seq<PendingHeadUpdate>)
    requires Inv(w0) && Straight(w0.h.db) && ImportPromise(w0.h, commits)
    ensures StraightSoFar(w0, commits, w0, 0, [])
  {
    EvolvesRefl(w0.h);
  }

  /** An import on top of the level's HEAD. */
  ghost predicate OnHead(w0: World, commits: seq<PendingHeadUpdate>) {
    Inv(w0) && ImportPromise(w0.h, commits) && commits[0].parent == HeadRef(w0.h.db, commits[0].levelKey)
  }

  lemma EntryStraight(w0: World, w: World, commits: seq<PendingHeadUpdate>, i: nat, minted: seq<Id>, now: int)
    requires OnHead(w0, commits) && i < |commits| && StraightSoFar(w0, commits, w, i, minted)
    ensures EntryParentKnown(commits, i, minted)
    ensures var ins := InsertThen(w, EntryRow(commits, i, minted, now), commits[i].cacheState);
            if ins.r.Ok? then StraightSoFar(w0, commits, ins.w, i + 1, minted + [ins.r.value]) else ins.w == w
  {
    ImportOne(w0, w, commits, i, minted, now);
    EntryOnHead(w0, w, commits, i, minted, now);
    InsertStraight(w.h, EntryRow(commits, i, minted, now));
  }

  ghost function SoFar(w0: World, commits: seq<PendingHeadUpdate>): (World, nat, seq<Id>) -> bool {
    (w: World, i: nat, minted: seq<Id>) => StraightSoFar(w0, commits, w, i, minted)
  }

  lemma TurnStraight(w0: World, commits: seq<PendingHeadUpdate>, clock: nat -> int, w: World, i: nat, minted: seq<Id>)
    requires OnHead(w0, commits) && i < |commits| && SoFar(w0, commits)(w, i, minted)
    ensures TurnKeeps(SoFar(w0, commits), w, commits, clock, i, minted)
  {
    EntryStraight(w0, w, commits, i, minted, clock(i));
  }

  lemma ImportStraight(w0: World, commits: seq<PendingHeadUpdate>, clock: nat -> int)
    requires OnHead(w0, commits) && StraightSoFar(w0, commits, w0, 0, [])
    ensures Straight(ImportRun(w0, commits, clock, 0, []).w.h.db)
  {
    var inv := SoFar(w0, commits);
    forall w: World, i: nat, minted: seq<Id> | inv(w, i, minted) && i < |commits|
      ensures TurnKeeps(inv, w, commits, clock, i, minted)
    {
      TurnStraight(w0, commits, clock, w, i, minted);
    }
    var j, mj := RunInvariant(inv, w0, commits, clock, 0, []);
    EndsStraight(w0, commits, ImportRun(w0, commits, clock, 0, []).w, j, mj);
  }

  lemma EndsStraight(w0: World, commits: seq<PendingHeadUpdate>, w: World, j: nat, mj: seq<Id>)
    requires SoFar(w0, commits)(w, j, mj)
    ensures Straight(w.h.db)
  {
  }

  /** Each entry is inserted on top of the level's HEAD. */
  lemma EntryOnHead(w0: World, w: World, commits: seq<PendingHeadUpdate>, i: nat, minted: seq<Id>, now: int)
    requires Inv(w0) && i < |commits| && ImportPromise(w0.h, commits) && ImportAt(w0, w, commits, i, minted)
    requires commits[0].parent == HeadRef(w0.h.db, commits[0].levelKey)
    ensures EntryParentKnown(commits, i, minted)
    ensures var row := EntryRow(commits, i, minted, now); row.parent == HeadRef(w.h.db, row.level)
  {
    assert ChainEntry(commits, i);
    if i > 0 {
      LastIsHead(w0, w, commits, i, minted);
    }
    RowOnHead(w.h.db, commits, i, minted, now);
  }

  lemma RowOnHead(db: Db, commits: seq<PendingHeadUpdate>, i: nat, minted: seq<Id>, now: int)
    requires i < |commits| && ChainEntry(commits, i) && |minted| == i
    requires HeadRef(db, commits[0].levelKey) == if i > 0 then Some(minted[i - 1]) else commits[0].parent
    ensures EntryParentKnown(commits, i, minted)
    ensures var row := EntryRow(commits, i, minted, now); row.parent == HeadRef(db, row.level)
  {
  }

  lemma LastIsHead(w0: World, w: World, commits: seq<PendingHeadUpdate>, i: nat, minted: seq<Id>)
    requires Inv(w0) && 0 < i < |commits| && ImportAt(w0, w, commits, i, minted)
    ensures |minted| == i && HeadRef(w.h.db, commits[0].levelKey) == Some(minted[i - 1])
  {
    var last: Id, key := minted[i - 1], commits[0].levelKey;
    assert LastMinted(w, last, key, ReplayAll(StateAt(w0.h.db.rows, w0.h.rank, commits[0].parent), commits, i));
  }

  ghost predicate RowsKept(a: Db, b: Db) {
    forall i :: i in a.rows ==> i in b.rows && b.rows[i] == a.rows[i]
  }

  /** The insert loop only adds rows. */
  lemma {:induction false} ImportKeepsRows(w: World, commits: seq<PendingHeadUpdate>, clock: nat -> int, i: nat,
                                           minted: seq<Id>)
    requires i <= |commits| && forall j :: j in w.h.db.rows ==> j < w.h.db.nextId
    ensures RowsKept(w.h.db, ImportRun(w, commits, clock, i, minted).w.h.db)
    decreases |commits| - i
  {
    if i < |commits| && EntryParentKnown(commits, i, minted) {
      var ins := InsertThen(w, EntryRow(commits, i, minted, clock(i)), commits[i].cacheState);
      if ins.r.Ok? {
        ImportKeepsRows(ins.w, commits, clock, i + 1, minted + [ins.r.value]);
      }
    }
  }

  lemma FirstEntry(w: World, commits: seq<PendingHeadUpdate>, clock: nat -> int) returns (row: Row)
    requires Inv(w) && ImportPromise(w.h, commits) && RefOk(w.h.db.rows, commits[0].parent)
    ensures row.level == commits[0].levelKey && row.parent == commits[0].parent
    ensures RowsKept(InsertHead(w.h.db, row), ImportRun(w, commits, clock, 0, []).w.h.db)
  {
    assert ChainEntry(commits, 0);
    row := EntryRow(commits, 0, [], clock(0));
    InsertFk(w.h, row);
    var ins := InsertThen(w, row, commits[0].cacheState);
    forall j | j in ins.w.h.db.rows ensures j < ins.w.h.db.nextId {
      assert j in w.h.rank || j == w.h.db.nextId;
    }
    ImportUnroll(w, commits, clock, 0, []);
    ImportKeepsRows(ins.w, commits, clock, 1, [] + [ins.r.value]);
  }

  /** Its first commit then lands beside another one, and stays there. */
  lemma ImportBends(w: World, commits: seq<PendingHeadUpdate>, clock: nat -> int)
    requires Inv(w) && Straight(w.h.db) && ImportPromise(w.h, commits)
    requires LandsBeside(w.h.db, commits[0].levelKey, commits[0].parent)
    ensures !Straight(ImportRun(w, commits, clock, 0, []).w.h.db)
  {
    var c := OlderTwin(w.h, commits[0].levelKey, commits[0].parent);
    var row := FirstEntry(w, commits, clock);
    TwinsStay(InsertHead(w.h.db, row), ImportRun(w, commits, clock, 0, []).w.h.db, c, w.h.db.nextId);
  }

  lemma TwinsStay(a: Db, b: Db, i: Id, j: Id)
    requires i in a.rows && OnLevel(a, a.rows[i].level, j) && i != j && a.rows[i].parent == a.rows[j].parent
    requires RowsKept(a, b)
    ensures !Straight(b)
  {
    TwinsBend(b, i, j);
  }

  // ---------------------------------------------------------------- which jobs keep the timelines straight

  /**
   * The jobs that bend a straight timeline: a checkout, revert or import finalized beside HEAD, and a squash finalized
   * after its range changed.
   */
  ghost predicate Bends(w: World, l: Label) {
    match l
    case DoFinalizeHead(used, _, _) =>
      used.HeadToken? && LandsBeside(w.h.db, used.p.levelKey, used.p.parent) && RefOk(w.h.db.rows, used.p.reverts)
    case DoFinalizeSquash(used, now, _) =>
      used.SquashToken? && used.a.WellFormed() && FkOk(Squashed(w.h.db, used.a, now)) && !Contiguous(w.h.db, used.a)
    case DoFinalizeImport(used, _, _) =>
      used.ImportToken? && used.commits != [] &&
      LandsBeside(w.h.db, used.commits[0].levelKey, used.commits[0].parent)
    case _ => false
  }

  lemma CommitStraight(w: World, l: Label, w2: World)
    requires Inv(w) && l.DoCommit? && Job(w, l, w2) && Straight(w.h.db)
    ensures Straight(w2.h.db)
  {
    CommitKeeps(w, l.key, l.message, l.now, l.base, l.incoming, l.delta, l.commitResult, w2);
    var row := Row(l.key, HeadRef(w.h.db, l.key), None, l.message, l.now, l.delta);
    if l.key in w.h.db.heads {
      FetchOk(w, w.h.db.heads[l.key]);
    }
    InsertStraight(w.h, row);
  }

  lemma HeadJobIff(w: World, l: Label, w2: World)
    requires Inv(w) && Straight(w.h.db) && l.DoFinalizeHead? && Job(w, l, w2) && Promise(w.h, l.used)
    ensures Straight(w2.h.db) <==> !Bends(w, l)
  {
    var p := l.used.p;
    FinalizeHeadKeeps(w, p, l.used.applied, l.now, l.headResult, w2);
    if l.headResult.Ok? {
      InsertStraightIff(w.h, Row(p.levelKey, p.parent, p.reverts, p.message, l.now, p.delta));
    }
  }

  lemma SquashJobIff(w: World, l: Label, w2: World)
    requires Inv(w) && Straight(w.h.db) && l.DoFinalizeSquash? && Job(w, l, w2) && Promise(w.h, l.used)
    ensures Straight(w2.h.db) <==> !Bends(w, l)
  {
    if FkOk(Squashed(w.h.db, l.used.a, l.now)) {
      SquashStraightIff(w.h, l.used.a, l.now, l.used.applied);
    }
  }

  lemma ImportJobIff(w: World, l: Label, w2: World)
    requires Inv(w) && Straight(w.h.db) && l.DoFinalizeImport? && Job(w, l, w2) && Promise(w.h, l.used)
    ensures Straight(w2.h.db) <==> !Bends(w, l)
  {
    var commits := l.used.commits;
    FinalizeImportKeeps(w, commits, l.clock, l.ok, w2);
    if l.ok {
      if commits[0].parent == HeadRef(w.h.db, commits[0].levelKey) {
        StartStraight(w, commits);
        ImportStraight(w, commits, l.clock);
      } else {
        ImportBends(w, commits, l.clock);
      }
    }
  }

  /** A job keeps every timeline straight if and only if it is none of these. */
  lemma JobStraightIff(w: World, l: Label, w2: World)
    requires Inv(w) && Straight(w.h.db) && Job(w, l, w2)
    requires UsedToken(l).Some? ==> Promise(w.h, UsedToken(l).value)
    ensures Straight(w2.h.db) <==> !Bends(w, l)
  {
    match l
    case DoCommit(_, _, _, _, _, _, _) => CommitStraight(w, l, w2);
    case DoFinalizeHead(_, _, _) => HeadJobIff(w, l, w2);
    case DoFinalizeSquash(_, _, _) => SquashJobIff(w, l, w2);
    case DoFinalizeReplace(used, ok, m) =>
      if ok {
        CopyStraight(w.h, w2.h.db, used.dest, used.src, m);
      }
    case DoFinalizeImport(_, _, _) => ImportJobIff(w, l, w2);
    case DoDelete(key, _) => DeleteStraight(w.h, key);
    case _ => ReadersKeepTables(w, l, w2);
  }

  function UsedToken(l: Label): Option<Token> {
    match l
    case DoFinalizeHead(used, _, _) => Some(used)
    case DoFinalizeSquash(used, _, _) => Some(used)
    case DoFinalizeReplace(used, _, _) => Some(used)
    case DoFinalizeImport(used, _, _) => Some(used)
    case _ => None
  }

  lemma StraightKeptIff(s: Sys, l: Label, s2: Sys)
    requires Good(s) && Next(s, l, s2) && Straight(s.w.h.db)
    ensures Straight(s2.w.h.db) <==> !Bends(s.w, l)
  {
    JobStraightIff(s.w, l, s2.w);
  }

  /** One straight timeline per level, in every state of every run without such a job. */
  lemma {:induction false} ReachableStraight(cap: nat, states: seq<Sys>, labels: seq<Label>, n: nat)
    requires IsRun(cap, states, labels) && n < |states|
    requires forall k :: 0 <= k < n ==> !Bends(states[k].w, labels[k])
    ensures Straight(states[n].w.h.db)
  {
    if n == 0 {
      EmptyGood(cap);
    } else {
      ReachableStraight(cap, states, labels, n - 1);
      ReachableGood(cap, states, labels, n - 1);
      assert RunStep(states, labels, n - 1) && !Bends(states[n - 1].w, labels[n - 1]);
      StraightKeptIff(states[n - 1], labels[n - 1], states[n]);
    }
  }

  // ---------------------------------------------------------------- runs without interruption

  /** A job that needs no token, or a prepare followed at once by the finalize of its token. */
  datatype Serial = Alone(l: Label) | Pair(prep: Label, mid: World, fin: Label)

  ghost predicate SerialJob(w: World, op: Serial, w2: World)
    requires Inv(w)
  {
    match op
    case Alone(l) => UsedToken(l).None? && Job(w, l, w2)
    case Pair(prep, mid, fin) =>
      Inv(mid) && Job(w, prep, mid) && UsedToken(fin).Some? && HandedOut(prep) == {UsedToken(fin).value} &&
        Job(mid, fin, w2)
  }

  /** A token used right after it was handed out sees the tables it was made for. */
  lemma FreshTokenFits(w: World, prep: Label, mid: World, fin: Label, w2: World)
    requires Inv(w) && SerialJob(w, Pair(prep, mid, fin), w2) && mid.h == w.h
    ensures !Bends(mid, fin)
  {
    assert UsedToken(fin).value in HandedOut(prep);
    match fin
    case DoFinalizeHead(used, _, _) => HeadTokenFits(w, prep, mid, used);
    case DoFinalizeSquash(used, _, _) => SquashTokenFits(w, prep, mid, used);
    case DoFinalizeImport(used, _, _) => ImportTokenFits(w, prep, mid, used);
    case _ =>
  }

  lemma HeadTokenFits(w: World, prep: Label, mid: World, tok: Token)
    requires Inv(w) && Job(w, prep, mid) && tok in HandedOut(prep)
    ensures tok.HeadToken? ==> tok.p.parent == HeadRef(w.h.db, tok.p.levelKey)
  {
  }

  lemma SquashTokenFits(w: World, prep: Label, mid: World, tok: Token)
    requires Inv(w) && Job(w, prep, mid) && tok in HandedOut(prep)
    ensures tok.SquashToken? ==> Contiguous(w.h.db, tok.a)
  {
  }

  lemma ImportTokenFits(w: World, prep: Label, mid: World, tok: Token)
    requires Inv(w) && Job(w, prep, mid) && tok in HandedOut(prep)
    ensures tok.ImportToken? ==> tok.commits != [] && tok.commits[0].parent == HeadRef(w.h.db, tok.commits[0].levelKey)
  {
  }

  lemma SerialStraight(w: World, op: Serial, w2: World)
    requires Inv(w) && Straight(w.h.db) && SerialJob(w, op, w2)
    ensures Inv(w2) && Straight(w2.h.db)
  {
    match op
    case Alone(l) =>
      JobKeeps(w, l, w2);
      JobStraightIff(w, l, w2);
    case Pair(prep, mid, fin) =>
      JobKeeps(w, prep, mid);
      ReadersKeepTables(w, prep, mid);
      assert UsedToken(fin).value in HandedOut(prep);
      FreshTokenFits(w, prep, mid, fin, w2);
      JobKeeps(mid, fin, w2);
      JobStraightIff(mid, fin, w2);
  }

  ghost predicate IsSerialRun(cap: nat, states: seq<World>, ops: seq<Serial>) {
    && |states| == |ops| + 1 && states[0] == EmptyWorld(cap)
    && (forall n :: 0 <= n < |ops| ==> SerialRunStep(states, ops, n))
  }

  ghost predicate SerialRunStep(states: seq<World>, ops: seq<Serial>, n: nat)
    requires n < |ops| && |states| == |ops| + 1
  {
    Inv(states[n]) ==> SerialJob(states[n], ops[n], states[n + 1])
  }

  /** One straight timeline per level, in every state of every uninterrupted run. */
  lemma {:induction false} OneTimelinePerLevel(cap: nat, states: seq<World>, ops: seq<Serial>, n: nat)
    requires IsSerialRun(cap, states, ops) && n < |states|
    ensures Inv(states[n]) && Straight(states[n].h.db)
  {
    if n == 0 {
      EmptyGood(cap);
    } else {
      OneTimelinePerLevel(cap, states, ops, n - 1);
      assert SerialRunStep(states, ops, n - 1);
      SerialStraight(states[n - 1], ops[n - 1], states[n]);
    }
  }
}
