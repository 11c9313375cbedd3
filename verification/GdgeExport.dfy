/** Exporting a level's commits as a package (`src/store/GdgeExport.cpp`). */
module GdgeExport {
  import opened Prelude
  import opened LevelModel
  import opened Differ
  import opened Tables
  import opened History
  import opened CommitStore
  import opened Package

  const FORMAT_VERSION := "1"

  type Numbering = map<Id, int>

  /** The `i`-th row counted from the oldest end of the list. */
  function FromOldest(rows: seq<CommitRow>, i: nat): CommitRow
    requires i < |rows|
  {
    rows[|rows| - 1 - i]
  }

  /** Indexes given to the first `n` rows. */
  function NumberUpTo(rows: seq<CommitRow>, n: nat): Numbering
    requires n <= |rows|
  {
    if n == 0 then map[] else NumberUpTo(rows, n - 1)[FromOldest(rows, n - 1).id := n - 1]
  }

  function NumberOf(rows: seq<CommitRow>): Numbering {
    NumberUpTo(rows, |rows|)
  }

  /** The row only refers to listed rows. */
  predicate RefsListed(idx: Numbering, row: Row) {
    (row.parent.Some? ==> row.parent.value in idx) && (row.reverts.Some? ==> row.reverts.value in idx)
  }

  function IndexRef(idx: Numbering, ref: Option<Id>): Option<int> {
    if ref.Some? && ref.value in idx then Some(idx[ref.value]) else None
  }

  function PackedRow(idx: Numbering, i: nat, row: Row): PackageCommit {
    PackageCommit(i, IndexRef(idx, row.parent), IndexRef(idx, row.reverts), row.message, row.createdAt, Some(row.delta))
  }

  /** Every row renumbered, with its references, oldest end first. */
  ghost predicate IsExport(pkg: Package, key: LevelKey, head: Id, rootHash: string, rows: seq<CommitRow>) {
    var idx := NumberOf(rows);
    && pkg.formatVersion == FORMAT_VERSION && pkg.rootHash == rootHash && pkg.sourceLevelKey == key
    && head in idx && pkg.headIndex == Some(idx[head])
    && |pkg.commits| == |rows|
    && forall i :: 0 <= i < |rows| ==> PackedAt(pkg, idx, rows, i)
  }

  ghost predicate PackedAt(pkg: Package, idx: Numbering, rows: seq<CommitRow>, i: nat)
    requires i < |rows| == |pkg.commits|
  {
    RefsListed(idx, FromOldest(rows, i).row) && pkg.commits[i] == PackedRow(idx, i, FromOldest(rows, i).row)
  }

  method BuildGdgePackageFromCommits(key: LevelKey, head: Id, rootHash: string, rows: seq<CommitRow>)
    returns (r: Result<Package>)
    requires head in NumberOf(rows)
    ensures r.Ok? ==> IsExport(r.value, key, head, rootHash, rows)
    ensures r.Err? ==> exists i :: 0 <= i < |rows| && !RefsListed(NumberOf(rows), FromOldest(rows, i).row)
  {
    var indexById: Numbering := map[];
    for i := 0 to |rows|
      invariant indexById == NumberUpTo(rows, i)
    {
      indexById := indexById[rows[|rows| - 1 - i].id := i];
    }
    var commits: seq<PackageCommit> := [];
    for i := 0 to |rows|
      invariant |commits| == i
      invariant forall j :: 0 <= j < i ==> RefsListed(indexById, FromOldest(rows, j).row) &&
                                           commits[j] == PackedRow(indexById, j, FromOldest(rows, j).row)
    {
      var row := rows[|rows| - 1 - i].row;
      assert row == FromOldest(rows, i).row;
      var parentIndex, revertsIndex := None, None;
      if row.parent.Some? {
        var p: Id := row.parent.value;
        if p !in indexById {
          assert !RefsListed(NumberOf(rows), FromOldest(rows, i).row);
          return Err("parent reference missing during export");
        }
        parentIndex := Some(indexById[p]);
      }
      if row.reverts.Some? {
        var v: Id := row.reverts.value;
        if v !in indexById {
          assert !RefsListed(NumberOf(rows), FromOldest(rows, i).row);
          return Err("reverts reference missing during export");
        }
        revertsIndex := Some(indexById[v]);
      }
      commits := commits + [PackageCommit(i, parentIndex, revertsIndex, row.message, row.createdAt, Some(row.delta))];
    }
    var pkg := Package(FORMAT_VERSION, rootHash, Some(indexById[head]), key, commits);
    r := Ok(pkg);
    forall i | 0 <= i < |rows| ensures PackedAt(pkg, indexById, rows, i) {
    }
  }

  // ---------------------------------------------------------------- numbering

  /** Without repeated ids the numbering inverts the list. */
  lemma {:induction false} NumberAt(rows: seq<CommitRow>, n: nat, i: nat)
    requires i < n <= |rows| && forall a, b :: 0 <= a < b < |rows| ==> rows[a].id != rows[b].id
    ensures var id := FromOldest(rows, i).id; id in NumberUpTo(rows, n) && NumberUpTo(rows, n)[id] == i
  {
    if i < n - 1 {
      NumberAt(rows, n - 1, i);
    }
  }

  lemma {:induction false} NumberedRow(rows: seq<CommitRow>, n: nat, id: Id) returns (i: nat)
    requires n <= |rows| && id in NumberUpTo(rows, n)
    ensures i < n && FromOldest(rows, i).id == id && NumberUpTo(rows, n)[id] == i
  {
    if FromOldest(rows, n - 1).id == id {
      i := n - 1;
    } else {
      i := NumberedRow(rows, n - 1, id);
    }
  }

  /** Commits numbered by their place are found under it. */
  lemma {:induction false} PlacedIndex(commits: seq<PackageCommit>, n: nat)
    requires n <= |commits| && forall i :: 0 <= i < |commits| ==> commits[i].commitIndex == i
    ensures forall i: int :: i in IndexOf(commits[..n]) <==> 0 <= i < n
    ensures forall i: int :: 0 <= i < n ==> IndexOf(commits[..n])[i] == commits[i]
  {
    if n > 0 {
      PlacedIndex(commits, n - 1);
      assert commits[..n][..n - 1] == commits[..n - 1];
    }
  }

  // ---------------------------------------------------------------- export, then reconstruct

  /** The list covers a level whose commits refer only to the level, in whatever order. */
  ghost predicate CoversLevel(h: Ranked, key: LevelKey, rows: seq<CommitRow>) {
    Sound(h) && OneLevel(h.db) && FkOk(h.db) && key in h.db.heads && Lists(h.db, key, rows)
  }

  lemma ListedRow(h: Ranked, key: LevelKey, rows: seq<CommitRow>, id: Id) returns (i: nat)
    requires CoversLevel(h, key, rows) && id in h.db.rows && h.db.rows[id].level == key
    ensures i < |rows| && FromOldest(rows, i) == CommitRow(id, h.db.rows[id])
    ensures id in NumberOf(rows) && NumberOf(rows)[id] == i
  {
    var r := CommitRow(id, h.db.rows[id]);
    assert r in rows;
    var k :| 0 <= k < |rows| && rows[k] == r;
    i := |rows| - 1 - k;
    NumberAt(rows, |rows|, i);
  }

  /** Listing a whole level never fails to export, and its HEAD is listed. */
  lemma ExportSucceeds(h: Ranked, key: LevelKey, rows: seq<CommitRow>, i: nat)
    requires CoversLevel(h, key, rows) && i < |rows|
    ensures RefsListed(NumberOf(rows), FromOldest(rows, i).row)
    ensures h.db.heads[key] in NumberOf(rows)
  {
    var head: Id := h.db.heads[key];
    assert head in h.db.rows && h.db.rows[head].level == key;
    var _ := ListedRow(h, key, rows, head);
    var r := FromOldest(rows, i);
    assert r in rows;
    var id: Id := r.id;
    assert id in h.db.rows && StaysInLevel(h.db.rows, id) && RefOk(h.db.rows, r.row.parent) &&
           RefOk(h.db.rows, r.row.reverts);
    if r.row.parent.Some? {
      var _ := ListedRow(h, key, rows, r.row.parent.value);
    }
    if r.row.reverts.Some? {
      var _ := ListedRow(h, key, rows, r.row.reverts.value);
    }
  }

  lemma PackedIndex(pkg: Package, key: LevelKey, head: Id, rootHash: string, rows: seq<CommitRow>)
    requires IsExport(pkg, key, head, rootHash, rows)
    ensures forall i: int :: i in IndexOf(pkg.commits) <==> 0 <= i < |rows|
    ensures forall i: int :: 0 <= i < |rows| ==>
              IndexOf(pkg.commits)[i] == PackedRow(NumberOf(rows), i, FromOldest(rows, i).row)
  {
    forall i | 0 <= i < |rows| ensures pkg.commits[i] == PackedRow(NumberOf(rows), i, FromOldest(rows, i).row) {
      assert PackedAt(pkg, NumberOf(rows), rows, i);
    }
    PlacedIndex(pkg.commits, |rows|);
    assert pkg.commits[..|rows|] == pkg.commits;
  }

  lemma {:induction false} PlacedRange(commits: seq<PackageCommit>, n: nat)
    requires n <= |commits| && forall i :: 0 <= i < |commits| ==> commits[i].commitIndex == i
    ensures Indexes(commits[..n]) == Range(n)
  {
    if n > 0 {
      PlacedRange(commits, n - 1);
      assert commits[..n][..n - 1] == commits[..n - 1];
    }
  }

  lemma NumberInRange(rows: seq<CommitRow>, ref: Option<Id>)
    ensures ValidRef(|rows|, IndexRef(NumberOf(rows), ref))
  {
    if ref.Some? && ref.value in NumberOf(rows) {
      var _ := NumberedRow(rows, |rows|, ref.value);
    }
  }

  /** An exported package passes the index checks. */
  lemma ExportIsValid(pkg: Package, key: LevelKey, head: Id, rootHash: string, rows: seq<CommitRow>)
    requires IsExport(pkg, key, head, rootHash, rows)
    ensures IndexesOk(pkg)
    ensures rootHash != "" && key != "" ==> Valid(pkg)
  {
    forall i | 0 <= i < |rows| ensures pkg.commits[i].commitIndex == i && RefsValid(|rows|, pkg.commits[i]) {
      assert PackedAt(pkg, NumberOf(rows), rows, i);
      NumberInRange(rows, FromOldest(rows, i).row.parent);
      NumberInRange(rows, FromOldest(rows, i).row.reverts);
    }
    PlacedRange(pkg.commits, |rows|);
    assert pkg.commits[..|rows|] == pkg.commits;
    NumberInRange(rows, Some(head));
  }

  // ---------------------------------------------------------------- what the package says of the level

  ghost predicate RefPacked(ref: Option<Id>, packed: Option<int>, num: map<Id, int>) {
    if ref.None? then packed.None? else ref.value in num && packed == Some(num[ref.value])
  }

  /** A packed commit has every column of its row, with indexes for references. */
  ghost predicate PacksRow(row: Row, c: PackageCommit, num: map<Id, int>) {
    && c.message == row.message && c.createdAt == row.createdAt && c.delta == Some(row.delta)
    && RefPacked(row.parent, c.parentIndex, num) && RefPacked(row.reverts, c.revertsIndex, num)
  }

  ghost predicate OlderFirst(rows: map<Id, Row>, i: Id, j: Id)
    requires i in rows && j in rows
  {
    rows[i].createdAt < rows[j].createdAt || (rows[i].createdAt == rows[j].createdAt && i < j)
  }

  /** Every commit of the level once, oldest first, under the number that others refer to it by. */
  ghost predicate HoldsLevel(db: Db, key: LevelKey, pkg: Package, num: map<Id, int>) {
    && pkg.formatVersion == "1" && pkg.sourceLevelKey == key && |pkg.commits| == |LevelIds(db, key)|
    && (forall i :: i in num <==> i in db.rows && db.rows[i].level == key)
    && (forall i :: i in num ==> 0 <= num[i] < |pkg.commits|)
    && (forall i :: i in num ==>
          pkg.commits[num[i]].commitIndex == num[i] && PacksRow(db.rows[i], pkg.commits[num[i]], num))
    && (forall i, j :: i in num && j in num && i != j ==> (num[i] < num[j] <==> OlderFirst(db.rows, i, j)))
    && key in db.heads && db.heads[key] in num && pkg.headIndex == Some(num[db.heads[key]])
  }

  /** As `list` gives them. */
  ghost predicate NewestFirst(rows: seq<CommitRow>) {
    forall i, j :: 0 <= i < j < |rows| ==>
      rows[i].row.createdAt > rows[j].row.createdAt ||
      (rows[i].row.createdAt == rows[j].row.createdAt && rows[i].id > rows[j].id)
  }

  lemma RowPacked(h: Ranked, key: LevelKey, rootHash: string, rows: seq<CommitRow>, pkg: Package, i: Id)
    requires CoversLevel(h, key, rows) && IsExport(pkg, key, h.db.heads[key], rootHash, rows)
    requires i in h.db.rows && h.db.rows[i].level == key
    ensures var num := NumberOf(rows);
            i in num && 0 <= num[i] < |pkg.commits| && pkg.commits[num[i]].commitIndex == num[i] &&
              PacksRow(h.db.rows[i], pkg.commits[num[i]], num)
  {
    var n := ListedRow(h, key, rows, i);
    assert PackedAt(pkg, NumberOf(rows), rows, n);
  }

  lemma NumbersLevel(h: Ranked, key: LevelKey, rows: seq<CommitRow>, i: Id)
    requires CoversLevel(h, key, rows)
    ensures i in NumberOf(rows) <==> i in h.db.rows && h.db.rows[i].level == key
  {
    if i in NumberOf(rows) {
      var n := NumberedRow(rows, |rows|, i);
      assert FromOldest(rows, n) in rows;
    }
    if i in h.db.rows && h.db.rows[i].level == key {
      var _ := ListedRow(h, key, rows, i);
    }
  }

  lemma NumberedInOrder(h: Ranked, key: LevelKey, rows: seq<CommitRow>, i: Id, j: Id)
    requires CoversLevel(h, key, rows) && NewestFirst(rows) && i != j
    requires i in h.db.rows && h.db.rows[i].level == key && j in h.db.rows && h.db.rows[j].level == key
    ensures i in NumberOf(rows) && j in NumberOf(rows)
    ensures NumberOf(rows)[i] < NumberOf(rows)[j] <==> OlderFirst(h.db.rows, i, j)
  {
    var a := ListedRow(h, key, rows, i);
    var b := ListedRow(h, key, rows, j);
    assert rows[|rows| - 1 - a] == CommitRow(i, h.db.rows[i]) && rows[|rows| - 1 - b] == CommitRow(j, h.db.rows[j]);
  }

  lemma {:induction false} NumberCount(rows: seq<CommitRow>, n: nat)
    requires n <= |rows| && forall a, b :: 0 <= a < b < |rows| ==> rows[a].id != rows[b].id
    ensures |NumberUpTo(rows, n)| == n
  {
    if n > 0 {
      NumberCount(rows, n - 1);
      var id := FromOldest(rows, n - 1).id;
      if id in NumberUpTo(rows, n - 1) {
        var i := NumberedRow(rows, n - 1, id);
        assert false;
      }
    }
  }

  lemma LevelCount(h: Ranked, key: LevelKey, rows: seq<CommitRow>)
    requires CoversLevel(h, key, rows)
    ensures |rows| == |LevelIds(h.db, key)|
  {
    NumberCount(rows, |rows|);
    forall i: Id ensures i in NumberOf(rows).Keys <==> i in LevelIds(h.db, key) {
      NumbersLevel(h, key, rows, i);
    }
    assert NumberOf(rows).Keys == LevelIds(h.db, key);
    assert |NumberOf(rows).Keys| == |NumberOf(rows)|;
  }

  /** An exported package holds the whole level. */
  lemma ExportHolds(h: Ranked, key: LevelKey, rootHash: string, rows: seq<CommitRow>, pkg: Package)
    requires CoversLevel(h, key, rows) && NewestFirst(rows)
    requires IsExport(pkg, key, h.db.heads[key], rootHash, rows)
    ensures HoldsLevel(h.db, key, pkg, NumberOf(rows))
  {
    LevelCount(h, key, rows);
    forall i ensures i in NumberOf(rows) <==> i in h.db.rows && h.db.rows[i].level == key {
      NumbersLevel(h, key, rows, i);
    }
    forall i | i in NumberOf(rows)
      ensures 0 <= NumberOf(rows)[i] < |pkg.commits| && pkg.commits[NumberOf(rows)[i]].commitIndex == NumberOf(rows)[i]
      ensures PacksRow(h.db.rows[i], pkg.commits[NumberOf(rows)[i]], NumberOf(rows))
    {
      RowPacked(h, key, rootHash, rows, pkg, i);
    }
    forall i, j | i in NumberOf(rows) && j in NumberOf(rows) && i != j
      ensures NumberOf(rows)[i] < NumberOf(rows)[j] <==> OlderFirst(h.db.rows, i, j)
    {
      NumberedInOrder(h, key, rows, i, j);
    }
    var head: Id := h.db.heads[key];
    assert head in h.db.rows && h.db.rows[head].level == key;
  }

  /** One more commit in front of a chain. */
  lemma PrependPath(m: Index, i: int, path: seq<int>)
    requires path != [] && Link(m, i, path[0]) && Rooted(m, path[0], path) && AllParse(m, path) && m[i].delta.Some?
    ensures Rooted(m, i, [i] + path) && AllParse(m, [i] + path)
    ensures ReplayPath(m, [i] + path) == Apply(ReplayPath(m, path), m[i].delta.value)
  {
    var longer := [i] + path;
    forall a | 0 <= a < |longer| ensures InIndex(m, longer[a]) && m[longer[a]].delta.Some? {
      if a > 0 {
        assert longer[a] == path[a - 1] && InIndex(m, path[a - 1]);
      }
    }
    forall a, b | 0 <= a && b == a + 1 && b < |longer| ensures Link(m, longer[a], longer[b]) {
      if a > 0 {
        LinkAt(m, path[0], path, a - 1);
      }
    }
    assert longer[1..] == path;
    assert longer[|longer| - 1] == path[|path| - 1];
  }

  /** The chain of a commit in the package, and what it replays to. */
  lemma {:induction false} ExportedChain(h: Ranked, key: LevelKey, head: Id, rootHash: string, rows: seq<CommitRow>,
                                         pkg: Package, id: Id) returns (path: seq<int>)
    requires CoversLevel(h, key, rows) && IsExport(pkg, key, head, rootHash, rows)
    requires id in h.db.rows && h.db.rows[id].level == key
    ensures id in NumberOf(rows)
    ensures ChainGives(IndexOf(pkg.commits), NumberOf(rows)[id], path, Replay(h.db.rows, h.rank, id))
    decreases h.rank[id]
  {
    var m, idx := IndexOf(pkg.commits), NumberOf(rows);
    var i := ListedRow(h, key, rows, id);
    PackedIndex(pkg, key, head, rootHash, rows);
    var row := h.db.rows[id];
    assert m[i] == PackedRow(idx, i, row);
    if row.parent.None? {
      path := [i];
      assert path[1..] == [];
      assert InIndex(m, path[0]);
    } else {
      var p: Id := row.parent.value;
      assert StaysInLevel(h.db.rows, id) && RefBelow(h.db.rows, h.rank, row.parent, id);
      var rest := ExportedChain(h, key, head, rootHash, rows, pkg, p);
      assert Link(m, i, idx[p]);
      PrependPath(m, i, rest);
      path := [i] + rest;
    }
  }

  /** Export followed by reconstruction gives the replay of HEAD, whatever order the rows were listed in. */
  lemma ExportReconstructs(h: Ranked, key: LevelKey, rootHash: string, rows: seq<CommitRow>, pkg: Package,
                           st: LevelState)
    requires CoversLevel(h, key, rows) && IsExport(pkg, key, h.db.heads[key], rootHash, rows)
    ensures h.db.heads[key] in h.db.rows
    ensures HeadIs(pkg, st) <==> st == Replay(h.db.rows, h.rank, h.db.heads[key])
  {
    var head: Id := h.db.heads[key];
    assert head in h.db.rows && h.db.rows[head].level == key;
    var path := ExportedChain(h, key, head, rootHash, rows, pkg, head);
    assert HeadIs(pkg, Replay(h.db.rows, h.rank, head));
    if HeadIs(pkg, st) {
      HeadUnique(pkg, st, Replay(h.db.rows, h.rank, head));
    }
  }
}
