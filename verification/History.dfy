/** Replaying stored history, and what it means for a store to evolve without changing it. */
module History {
  import opened Prelude
  import opened LevelModel
  import opened Differ
  import opened DifferLaws
  import opened Tables

  /** A reference to an existing row of smaller rank. */
  ghost predicate RefBelow(rows: map<Id, Row>, rank: map<Id, nat>, ref: Option<Id>, i: Id)
    requires i in rank
  {
    ref.Some? ==> ref.value in rows && ref.value in rank && rank[ref.value] < rank[i]
  }

  /** Parent and reverts edges go down in rank; squash breaks "down in id" but not this. */
  ghost predicate Grounded(rows: map<Id, Row>, rank: map<Id, nat>) {
    forall i :: i in rows ==>
      i in rank && RefBelow(rows, rank, rows[i].parent, i) && RefBelow(rows, rank, rows[i].reverts, i)
  }

  lemma GroundedIsAcyclic(rows: map<Id, Row>, rank: map<Id, nat>)
    requires Grounded(rows, rank)
    ensures Acyclic(rows)
  {
    forall i | i in rows ensures RankedAt(rank, i, Deps(rows[i])) {
    }
    assert Ranks(rows, rank);
  }

  /** The state of a commit: its whole chain of deltas replayed on the empty state. */
  ghost function Replay(rows: map<Id, Row>, rank: map<Id, nat>, i: Id): LevelState
    requires Grounded(rows, rank) && i in rows
    decreases rank[i], 1
  {
    Apply(ReplayRef(rows, rank, rows[i].parent, i), rows[i].delta)
  }

  /** The state a delta starts from; `i` only bounds the recursion. */
  ghost function ReplayRef(rows: map<Id, Row>, rank: map<Id, nat>, ref: Option<Id>, i: Id): LevelState
    requires Grounded(rows, rank) && i in rank && RefBelow(rows, rank, ref, i)
    decreases rank[i], 0
  {
    if ref.None? then EMPTY_STATE else Replay(rows, rank, ref.value)
  }

  /** The state at an optional commit. */
  ghost function StateAt(rows: map<Id, Row>, rank: map<Id, nat>, ref: Option<Id>): LevelState
    requires Grounded(rows, rank) && (ref.Some? ==> ref.value in rows)
  {
    if ref.None? then EMPTY_STATE else Replay(rows, rank, ref.value)
  }

  // ---------------------------------------------------------------- simulation

  ghost predicate MapsRef(a: Option<Id>, b: Option<Id>, m: map<Id, Id>) {
    if a.None? then b.None? else a.value in m && b == Some(m[a.value])
  }

  /** `m` sends commits of `r1` to commits of `r2` with the same delta and the corresponding parent. */
  ghost predicate Simulates(r1: map<Id, Row>, r2: map<Id, Row>, m: map<Id, Id>) {
    forall i :: i in m ==>
      i in r1 && m[i] in r2 && r2[m[i]].delta == r1[i].delta && MapsRef(r1[i].parent, r2[m[i]].parent, m)
  }

  lemma {:induction false} SimulationReplays(r1: map<Id, Row>, k1: map<Id, nat>, r2: map<Id, Row>, k2: map<Id, nat>,
                                             m: map<Id, Id>, i: Id)
    requires Grounded(r1, k1) && Grounded(r2, k2) && Simulates(r1, r2, m) && i in m
    ensures Replay(r2, k2, m[i]) == Replay(r1, k1, i)
    decreases k1[i]
  {
    if r1[i].parent.Some? {
      SimulationReplays(r1, k1, r2, k2, m, r1[i].parent.value);
    }
  }

  // ---------------------------------------------------------------- evolution

  /**
   * Tables with two history variables: the rank given to every id ever issued, deleted ones included, and whether
   * every load so far was finalized while its source still showed the prepared state. A load that was not leaves a
   * wrong state in the cache; from then on only the shape of the history is certain.
   */
  datatype Ranked = Ranked(db: Db, rank: map<Id, nat>, intact: bool)

  /** Equal up to empty fields, while the history is intact. */
  ghost predicate Agree(intact: bool, a: LevelState, b: LevelState) {
    intact ==> SameState(a, b)
  }

  lemma AgreeApply(intact: bool, a: LevelState, b: LevelState, d: Delta)
    requires Agree(intact, a, b)
    ensures Agree(intact, Apply(a, d), Apply(b, d))
  {
    if intact {
      ApplyCongruent(a, b, d);
    }
  }

  lemma AgreeDiff(intact: bool, start: LevelState, prev: LevelState, next: LevelState, d: Delta)
    requires IsDiff(prev, next, d) && Agree(intact, start, prev)
    ensures Agree(intact, Apply(start, d), next)
  {
    if intact {
      DiffReplay(start, prev, next, d);
    }
  }

  ghost predicate Sound(h: Ranked) {
    && Grounded(h.db.rows, h.rank)
    && (forall i :: i in h.rank <==> 0 < i < h.db.nextId)
    && (forall k :: k in h.db.heads ==> h.db.heads[k] in h.db.rows)
  }

  /** Commit `i` replays, up to empty fields, to the same state in both stores (while intact). */
  ghost predicate SameReplay(a: Ranked, b: Ranked, i: Id)
    requires Grounded(a.db.rows, a.rank) && Grounded(b.db.rows, b.rank) && i in a.db.rows && i in b.db.rows
  {
    Agree(b.intact, Replay(b.db.rows, b.rank, i), Replay(a.db.rows, a.rank, i))
  }

  /**
   * `b` may follow `a`: ids and ranks are never reissued, a commit that is still there kept its level, its replayed
   * state and its parent (unless a squash put a new commit in the parent's place), and a HEAD either stayed or moved to
   * a new commit.
   */
  ghost predicate Evolves(a: Ranked, b: Ranked) {
    && Sound(a) && Sound(b)
    && a.db.nextId <= b.db.nextId && (b.intact ==> a.intact)
    && (forall i :: i in a.rank ==> i in b.rank && b.rank[i] == a.rank[i])
    && (forall i :: i in b.db.rows && i < a.db.nextId ==>
          i in a.db.rows && b.db.rows[i].level == a.db.rows[i].level && ParentKept(a.db, b.db, i) &&
            SameReplay(a, b, i))
    && (forall k :: k in b.db.heads && b.db.heads[k] < a.db.nextId ==>
          k in a.db.heads && b.db.heads[k] == a.db.heads[k])
  }

  /** The parent is as it was, or a commit issued since has taken its place. */
  ghost predicate ParentKept(a: Db, b: Db, i: Id)
    requires i in a.rows && i in b.rows
  {
    || b.rows[i].parent == a.rows[i].parent
    || (a.rows[i].parent.Some? && b.rows[i].parent.Some? && b.rows[i].parent.value >= a.nextId)
  }

  lemma EvolvesRefl(a: Ranked)
    requires Sound(a)
    ensures Evolves(a, a)
  {
  }

  lemma EvolvesTrans(a: Ranked, b: Ranked, c: Ranked)
    requires Evolves(a, b) && Evolves(b, c)
    ensures Evolves(a, c)
  {
    forall i | i in c.db.rows && i < a.db.nextId
      ensures i in a.db.rows && c.db.rows[i].level == a.db.rows[i].level && ParentKept(a.db, c.db, i) &&
              SameReplay(a, c, i)
    {
      assert SameReplay(b, c, i) && SameReplay(a, b, i);
      assert ParentKept(b.db, c.db, i) && ParentKept(a.db, b.db, i);
    }
  }

  /** Rows that all kept parent and delta replay as before. */
  lemma KeptRowsReplay(a: Ranked, b: Ranked, kept: set<Id>, i: Id)
    requires Grounded(a.db.rows, a.rank) && Grounded(b.db.rows, b.rank) && i in kept
    requires forall j :: j in kept ==> KeepsRow(a.db.rows, b.db.rows, kept, j)
    ensures i in a.db.rows && i in b.db.rows && Replay(b.db.rows, b.rank, i) == Replay(a.db.rows, a.rank, i)
  {
    var m := map j | j in kept :: j;
    forall j | j in m
      ensures j in a.db.rows && m[j] in b.db.rows && b.db.rows[m[j]].delta == a.db.rows[j].delta &&
              MapsRef(a.db.rows[j].parent, b.db.rows[m[j]].parent, m)
    {
      assert KeepsRow(a.db.rows, b.db.rows, kept, j);
    }
    SimulationReplays(a.db.rows, a.rank, b.db.rows, b.rank, m, i);
  }

  ghost predicate KeepsRow(r1: map<Id, Row>, r2: map<Id, Row>, kept: set<Id>, j: Id) {
    && j in r1 && j in r2
    && r2[j].level == r1[j].level && r2[j].delta == r1[j].delta && r2[j].parent == r1[j].parent
    && (r1[j].parent.Some? ==> r1[j].parent.value in kept)
  }

  // ---------------------------------------------------------------- insert

  /** A rank above the references of a new row. */
  function NewRank(rank: map<Id, nat>, parent: Option<Id>, reverts: Option<Id>): nat {
    RefRank(rank, parent) + RefRank(rank, reverts)
  }

  function RefRank(rank: map<Id, nat>, ref: Option<Id>): nat {
    if ref.Some? && ref.value in rank then rank[ref.value] + 1 else 0
  }

  function Inserted(h: Ranked, row: Row): Ranked {
    Ranked(InsertHead(h.db, row), h.rank[h.db.nextId := NewRank(h.rank, row.parent, row.reverts)], h.intact)
  }

  lemma InsertEvolves(h: Ranked, row: Row)
    requires Sound(h) && 0 < h.db.nextId
    requires RefOk(h.db.rows, row.parent) && RefOk(h.db.rows, row.reverts)
    ensures Evolves(h, Inserted(h, row))
    ensures Replay(Inserted(h, row).db.rows, Inserted(h, row).rank, h.db.nextId) ==
            Apply(StateAt(h.db.rows, h.rank, row.parent), row.delta)
  {
    var g, n := Inserted(h, row), h.db.nextId;
    InsertSound(h, row);
    forall i | i in h.db.rows
      ensures SameReplay(h, g, i) && Replay(g.db.rows, g.rank, i) == Replay(h.db.rows, h.rank, i)
    {
      forall j | j in h.db.rows.Keys ensures KeepsRow(h.db.rows, g.db.rows, h.db.rows.Keys, j) {
      }
      KeptRowsReplay(h, g, h.db.rows.Keys, i);
    }
  }

  lemma RefMinted(h: Ranked, ref: Option<Id>)
    requires Sound(h) && RefOk(h.db.rows, ref)
    ensures ref.Some? ==> ref.value in h.rank && 0 < ref.value < h.db.nextId
  {
    if ref.Some? {
      var p: Id := ref.value;
      assert p in h.db.rows && p in h.rank;
    }
  }

  lemma InsertSound(h: Ranked, row: Row)
    requires Sound(h) && 0 < h.db.nextId
    requires RefOk(h.db.rows, row.parent) && RefOk(h.db.rows, row.reverts)
    ensures Sound(Inserted(h, row))
  {
    var g, n := Inserted(h, row), h.db.nextId;
    forall i | i in g.db.rows
      ensures i in g.rank && RefBelow(g.db.rows, g.rank, g.db.rows[i].parent, i) &&
              RefBelow(g.db.rows, g.rank, g.db.rows[i].reverts, i)
    {
      if i == n {
        RefMinted(h, row.parent);
        RefMinted(h, row.reverts);
      } else {
        assert i in h.db.rows && i in h.rank && i < n;
        assert RefBelow(h.db.rows, h.rank, h.db.rows[i].parent, i) &&
               RefBelow(h.db.rows, h.rank, h.db.rows[i].reverts, i);
      }
    }
  }

  // ---------------------------------------------------------------- delete

  lemma DeleteEvolves(h: Ranked, key: LevelKey)
    requires Sound(h) && OneLevel(h.db)
    ensures FkOk(Deleted(h.db, key))
    ensures Evolves(h, h.(db := Deleted(h.db, key)))
  {
    var g := h.(db := Deleted(h.db, key));
    DeleteSound(h, key);
    var kept := g.db.rows.Keys;
    forall j | j in kept ensures KeepsRow(h.db.rows, g.db.rows, kept, j) {
      assert StaysInLevel(h.db.rows, j);
    }
    forall i | i in g.db.rows ensures SameReplay(h, g, i) {
      KeptRowsReplay(h, g, kept, i);
    }
  }

  lemma DeleteSound(h: Ranked, key: LevelKey)
    requires Sound(h) && OneLevel(h.db)
    ensures Sound(h.(db := Deleted(h.db, key))) && FkOk(Deleted(h.db, key))
  {
    var g := Deleted(h.db, key);
    forall i | i in g.rows
      ensures i in h.rank && RefBelow(g.rows, h.rank, g.rows[i].parent, i) &&
              RefBelow(g.rows, h.rank, g.rows[i].reverts, i)
    {
      assert StaysInLevel(h.db.rows, i);
    }
    forall k | k in g.heads ensures g.heads[k] in g.rows {
    }
  }

  /** References and HEADs stay inside their level. */
  ghost predicate OneLevel(db: Db) {
    && (forall i :: i in db.rows ==> StaysInLevel(db.rows, i))
    && (forall k :: k in db.heads ==> db.heads[k] in db.rows && db.rows[db.heads[k]].level == k)
  }

  ghost predicate StaysInLevel(rows: map<Id, Row>, i: Id)
    requires i in rows
  {
    RefInLevel(rows, rows[i].parent, rows[i].level) && RefInLevel(rows, rows[i].reverts, rows[i].level)
  }

  ghost predicate RefInLevel(rows: map<Id, Row>, ref: Option<Id>, key: LevelKey) {
    ref.Some? && ref.value in rows ==> rows[ref.value].level == key
  }

  // ---------------------------------------------------------------- copying a level

  /** The rank of the original of a copy. */
  ghost function OriginRank(rank: map<Id, nat>, m: map<Id, Id>, copy: Id): nat {
    if copy in m.Values then
      var o: Id := SomeKeyOf(m, copy);
      if o in rank then rank[o] else 0
    else 0
  }

  /** Copies get the ranks of their originals. */
  ghost function CopiedRank(h: Ranked, after: Db, m: map<Id, Id>): map<Id, nat> {
    (map i | h.db.nextId <= i < after.nextId :: OriginRank(h.rank, m, i)) + h.rank
  }

  ghost function CopiedStore(h: Ranked, after: Db, m: map<Id, Id>): Ranked {
    Ranked(after, CopiedRank(h, after, m), h.intact)
  }

  lemma CopyRanks(h: Ranked, after: Db, dest: LevelKey, src: LevelKey, m: map<Id, Id>, i: Id)
    requires Sound(h) && 0 < h.db.nextId && Copied(h.db, after, dest, src, m) && i in m
    ensures i in h.rank && m[i] in CopiedRank(h, after, m) && CopiedRank(h, after, m)[m[i]] == h.rank[i]
  {
    var v: Id := m[i];
    assert v in m.Values;
    var o: Id := SomeKeyOf(m, v);
    assert o in m && m[o] == v && o == i;
    assert i in LevelIds(h.db, src);
    assert i in h.db.rows;
    assert v !in h.rank;
  }

  lemma CopySound(h: Ranked, after: Db, dest: LevelKey, src: LevelKey, m: map<Id, Id>)
    requires Sound(h) && 0 < h.db.nextId && OneLevel(h.db) && Copied(h.db, after, dest, src, m)
    ensures Sound(CopiedStore(h, after, m))
  {
    var rank := CopiedRank(h, after, m);
    forall i | i in after.rows
      ensures i in rank && RefBelow(after.rows, rank, after.rows[i].parent, i) &&
              RefBelow(after.rows, rank, after.rows[i].reverts, i)
    {
      if i in h.db.rows && i !in LevelIds(h.db, dest) {
        assert StaysInLevel(h.db.rows, i);
      } else {
        CopyGrounded(h, after, dest, src, m, i);
      }
    }
    HeadsThere(h, after, dest, src, m);
    CopyMinted(h, after, dest, src, m);
  }

  lemma HeadsThere(h: Ranked, after: Db, dest: LevelKey, src: LevelKey, m: map<Id, Id>)
    requires Sound(h) && OneLevel(h.db) && Copied(h.db, after, dest, src, m)
    ensures forall k :: k in after.heads ==> after.heads[k] in after.rows
  {
    forall k | k in after.heads ensures after.heads[k] in after.rows {
      if k != dest {
        assert h.db.heads[k] in h.db.rows;
      }
    }
  }

  lemma CopyMinted(h: Ranked, after: Db, dest: LevelKey, src: LevelKey, m: map<Id, Id>)
    requires Sound(h) && 0 < h.db.nextId && Copied(h.db, after, dest, src, m)
    ensures forall i: Id :: i in CopiedRank(h, after, m) <==> 0 < i < after.nextId
  {
  }

  lemma CopyGrounded(h: Ranked, after: Db, dest: LevelKey, src: LevelKey, m: map<Id, Id>, i: Id)
    requires Sound(h) && 0 < h.db.nextId && OneLevel(h.db) && Copied(h.db, after, dest, src, m)
    requires i in after.rows && i in m.Values
    ensures var rank := CopiedRank(h, after, m);
            i in rank && RefBelow(after.rows, rank, after.rows[i].parent, i) &&
              RefBelow(after.rows, rank, after.rows[i].reverts, i)
  {
    var o: Id := SomeKeyOf(m, i);
    CopyRanks(h, after, dest, src, m, o);
    assert o in LevelIds(h.db, src);
    var row := h.db.rows[o];
    assert after.rows[i] == CopyRow(row, dest, m);
    CopyRefGrounded(h, after, dest, src, m, row.parent, o);
    CopyRefGrounded(h, after, dest, src, m, row.reverts, o);
  }

  lemma CopyRefGrounded(h: Ranked, after: Db, dest: LevelKey, src: LevelKey, m: map<Id, Id>, ref: Option<Id>, o: Id)
    requires Sound(h) && 0 < h.db.nextId && Copied(h.db, after, dest, src, m)
    requires o in m && RefBelow(h.db.rows, h.rank, ref, o) && (ref.Some? ==> ref.value in LevelIds(h.db, src))
    ensures m[o] in CopiedRank(h, after, m)
    ensures RefBelow(after.rows, CopiedRank(h, after, m), MapRef(ref, m), m[o])
  {
    CopyRanks(h, after, dest, src, m, o);
    if ref.Some? {
      var p: Id := ref.value;
      CopyRanks(h, after, dest, src, m, p);
    }
  }

  /** Load-level: every copy replays to its original's state, and no other commit changes. */
  lemma CopyEvolves(h: Ranked, after: Db, dest: LevelKey, src: LevelKey, m: map<Id, Id>)
    requires Sound(h) && 0 < h.db.nextId && OneLevel(h.db) && Copied(h.db, after, dest, src, m)
    ensures Evolves(h, CopiedStore(h, after, m))
    ensures forall i :: i in m ==> CopyReplays(h, CopiedStore(h, after, m), m, i)
  {
    CopySound(h, after, dest, src, m);
    var g := CopiedStore(h, after, m);
    forall i | i in after.rows && i < h.db.nextId
      ensures i in h.db.rows && after.rows[i].level == h.db.rows[i].level && ParentKept(h.db, after, i) &&
              SameReplay(h, g, i)
    {
      CopyKeeps(h, after, dest, src, m, i);
    }
    CopyHeads(h, after, dest, src, m);
    CopySimulates(h.db, after, dest, src, m);
    forall i | i in m ensures CopyReplays(h, g, m, i) {
      SimulationReplays(h.db.rows, h.rank, after.rows, g.rank, m, i);
    }
  }

  ghost predicate CopyReplays(h: Ranked, g: Ranked, m: map<Id, Id>, i: Id)
    requires Sound(h) && Sound(g) && i in m
  {
    i in h.db.rows && m[i] in g.db.rows && Replay(g.db.rows, g.rank, m[i]) == Replay(h.db.rows, h.rank, i)
  }

  lemma CopyHeads(h: Ranked, after: Db, dest: LevelKey, src: LevelKey, m: map<Id, Id>)
    requires Copied(h.db, after, dest, src, m)
    ensures forall k :: k in after.heads && after.heads[k] < h.db.nextId ==>
              k in h.db.heads && after.heads[k] == h.db.heads[k]
  {
    var head: Id := h.db.heads[src];
    assert head in m && m[head] >= h.db.nextId;
  }

  lemma CopyKeeps(h: Ranked, after: Db, dest: LevelKey, src: LevelKey, m: map<Id, Id>, i: Id)
    requires Sound(h) && 0 < h.db.nextId && OneLevel(h.db) && Copied(h.db, after, dest, src, m)
    requires Sound(CopiedStore(h, after, m))
    requires i in after.rows && i < h.db.nextId
    ensures i in h.db.rows && after.rows[i].level == h.db.rows[i].level && ParentKept(h.db, after, i)
    ensures SameReplay(h, CopiedStore(h, after, m), i)
  {
    var kept := h.db.rows.Keys - LevelIds(h.db, dest);
    CopyOldIds(h, after, dest, src, m, i);
    forall j | j in kept ensures KeepsRow(h.db.rows, after.rows, kept, j) {
      assert StaysInLevel(h.db.rows, j);
    }
    KeptRowsReplay(h, CopiedStore(h, after, m), kept, i);
  }

  lemma CopyOldIds(h: Ranked, after: Db, dest: LevelKey, src: LevelKey, m: map<Id, Id>, i: Id)
    requires Copied(h.db, after, dest, src, m) && i in after.rows && i < h.db.nextId
    ensures i in h.db.rows && i !in LevelIds(h.db, dest)
  {
    if i in m.Values {
      ValuesFresh(h.db.nextId, after.nextId, m, i);
    }
    assert i in after.rows.Keys;
  }

  lemma ValuesFresh(first: Id, end: Id, m: map<Id, Id>, v: Id)
    requires FreshIds(first, end, m) && v in m.Values
    ensures first <= v < end
  {
    var o: Id := SomeKeyOf(m, v);
    assert o in m && m[o] == v;
  }

  lemma CopySimulates(before: Db, after: Db, dest: LevelKey, src: LevelKey, m: map<Id, Id>)
    requires Copied(before, after, dest, src, m)
    ensures Simulates(before.rows, after.rows, m)
  {
    forall i | i in m
      ensures i in before.rows && m[i] in after.rows && after.rows[m[i]].delta == before.rows[i].delta &&
              MapsRef(before.rows[i].parent, after.rows[m[i]].parent, m)
    {
      assert i in LevelIds(before, src);
    }
  }
}
