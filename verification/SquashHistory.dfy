/** Squash: replacing a range of commits by one leaves every surviving state as it was. */
module SquashHistory {
  import opened Prelude
  import opened LevelModel
  import opened Differ
  import opened DifferLaws
  import opened Tables
  import opened History

  /**
   * What a prepared squash may rely on when it is finalized, whatever ran in between: facts about ids that were issued
   * and about commits that still exist, not that the range is still whole.
   */
  ghost predicate SquashPromise(h: Ranked, a: SquashArgs, applied: LevelState) {
    && Sound(h) && a.WellFormed()
    && (forall i :: i in a.ids ==> i in h.rank && LevelIfThere(h.db, i, a.key))
    && (a.parentOfOldest.Some? ==> BaseBelow(h, a.parentOfOldest.value, a.Newest()) &&
                                   LevelIfThere(h.db, a.parentOfOldest.value, a.key))
    && (forall k :: k in h.db.heads ==> HeadOutside(a, h.db.heads[k]))
    && (RefOk(h.db.rows, a.parentOfOldest) ==>
          Agree(h.intact, Apply(StateAt(h.db.rows, h.rank, a.parentOfOldest), a.delta), applied))
    && (a.Newest() in h.db.rows ==> Agree(h.intact, Replay(h.db.rows, h.rank, a.Newest()), applied))
    && Distinct(a.ids) && RangeKept(h.db.rows, a)
  }

  /** What the commit at place `j` of the range continued when the squash was prepared. */
  function BeforeInRange(a: SquashArgs, j: nat): Option<Id>
    requires j < |a.ids|
  {
    if j == 0 then a.parentOfOldest else Some(a.ids[j - 1])
  }

  ghost predicate NewerThanRange(a: SquashArgs, q: Id) {
    (forall i :: i in a.ids ==> i < q) && (a.parentOfOldest.Some? ==> a.parentOfOldest.value < q)
  }

  ghost predicate ParentInRange(rows: map<Id, Row>, a: SquashArgs, j: nat)
    requires j < |a.ids| && a.ids[j] in rows
  {
    var p := rows[a.ids[j]].parent;
    p == BeforeInRange(a, j) || (p.Some? && NewerThanRange(a, p.value))
  }

  /** A commit of the range that still exists has its old parent, or one issued after the whole range. */
  ghost predicate RangeKept(rows: map<Id, Row>, a: SquashArgs) {
    forall j :: 0 <= j < |a.ids| && a.ids[j] in rows ==> ParentInRange(rows, a, j)
  }

  ghost predicate LevelIfThere(db: Db, i: Id, key: LevelKey) {
    i in db.rows ==> db.rows[i].level == key
  }

  /** The base and the newest squashed commit were issued, the base below. */
  ghost predicate BaseBelow(h: Ranked, p: Id, newest: Id) {
    p in h.rank && newest in h.rank && h.rank[p] < h.rank[newest]
  }

  /** A HEAD inside the range is its newest commit; the base is no HEAD. */
  ghost predicate HeadOutside(a: SquashArgs, head: Id)
    requires a.WellFormed()
  {
    (head in a.ids ==> head == a.Newest()) && a.parentOfOldest != Some(head)
  }

  /** The tables after the transaction; the new commit takes the rank of the newest one it replaces. */
  ghost function AfterSquash(h: Ranked, a: SquashArgs, now: int): Ranked
    requires a.WellFormed()
  {
    var rank := h.rank[h.db.nextId := if a.Newest() in h.rank then h.rank[a.Newest()] else 0];
    Ranked(Squashed(h.db, a, now), rank, h.intact)
  }

  /** One old row that survives: what the statements make of it. */
  lemma SurvivorRow(h: Ranked, a: SquashArgs, now: int, i: Id)
    requires Sound(h) && a.WellFormed() && i in h.db.rows && i !in a.ids
    ensures i < h.db.nextId
    ensures var r2 := Squashed(h.db, a, now).rows;
            i in r2 && r2[i].level == h.db.rows[i].level && r2[i].delta == h.db.rows[i].delta &&
            r2[i].parent == (if h.db.rows[i].parent == Some(a.Newest()) && h.db.rows[i].level == a.key
                             then Some(h.db.nextId) else h.db.rows[i].parent) &&
            (r2[i].reverts == h.db.rows[i].reverts || r2[i].reverts == None)
  {
    assert i in h.rank;
  }

  lemma NewRow(h: Ranked, a: SquashArgs, now: int)
    requires SqlFresh(h, a)
    ensures var r2 := Squashed(h.db, a, now).rows;
            h.db.nextId in r2 && r2[h.db.nextId].level == a.key && r2[h.db.nextId].delta == a.delta &&
            r2[h.db.nextId].parent == a.parentOfOldest && r2[h.db.nextId].reverts == None
  {
  }

  /** The range holds only issued ids, so not the one about to be issued. */
  ghost predicate SqlFresh(h: Ranked, a: SquashArgs) {
    Sound(h) && a.WellFormed() && forall i :: i in a.ids ==> i in h.rank
  }

  lemma SquashSoundRow(h: Ranked, a: SquashArgs, now: int, i: Id)
    requires SqlFresh(h, a) && FkOk(Squashed(h.db, a, now)) && 0 < h.db.nextId
    requires a.parentOfOldest.Some? ==> BaseBelow(h, a.parentOfOldest.value, a.Newest())
    requires i in Squashed(h.db, a, now).rows
    ensures var g := AfterSquash(h, a, now);
            i in g.rank && RefBelow(g.db.rows, g.rank, g.db.rows[i].parent, i) &&
            RefBelow(g.db.rows, g.rank, g.db.rows[i].reverts, i)
  {
    var g, n := AfterSquash(h, a, now), h.db.nextId;
    assert RefOk(g.db.rows, g.db.rows[i].parent) && RefOk(g.db.rows, g.db.rows[i].reverts);
    if i == n {
      NewRow(h, a, now);
    } else {
      assert i in h.db.rows;
      SurvivorRow(h, a, now, i);
      assert RefBelow(h.db.rows, h.rank, h.db.rows[i].parent, i) &&
             RefBelow(h.db.rows, h.rank, h.db.rows[i].reverts, i);
      RefMinted(h, h.db.rows[i].parent);
      RefMinted(h, h.db.rows[i].reverts);
    }
  }

  lemma SquashSound(h: Ranked, a: SquashArgs, now: int)
    requires SqlFresh(h, a) && FkOk(Squashed(h.db, a, now)) && 0 < h.db.nextId
    requires a.parentOfOldest.Some? ==> BaseBelow(h, a.parentOfOldest.value, a.Newest())
    ensures Sound(AfterSquash(h, a, now))
  {
    var g := AfterSquash(h, a, now);
    forall i | i in g.db.rows
      ensures i in g.rank && RefBelow(g.db.rows, g.rank, g.db.rows[i].parent, i) &&
              RefBelow(g.db.rows, g.rank, g.db.rows[i].reverts, i)
    {
      SquashSoundRow(h, a, now, i);
    }
  }

  /** Every surviving commit replays to the state it had, although its chain now runs through the new commit. */
  lemma {:induction false} SquashReplay(h: Ranked, a: SquashArgs, now: int, applied: LevelState, i: Id)
    requires SquashPromise(h, a, applied) && 0 < h.db.nextId && FkOk(h.db) && FkOk(Squashed(h.db, a, now))
    requires Sound(AfterSquash(h, a, now))
    requires i in h.db.rows && i in Squashed(h.db, a, now).rows
    ensures SameReplay(h, AfterSquash(h, a, now), i)
    decreases h.rank[i], 1
  {
    var g := AfterSquash(h, a, now);
    SurvivorRow(h, a, now, i);
    var row := h.db.rows[i];
    if row.parent.Some? {
      var q: Id := row.parent.value;
      assert RefOk(h.db.rows, row.parent) && q in h.db.rows;
      assert RefBelow(h.db.rows, h.rank, row.parent, i);
      if q == a.Newest() && row.level == a.key {
        NewReplay(h, a, now, applied);
        AgreeApply(h.intact, Replay(g.db.rows, g.rank, h.db.nextId), Replay(h.db.rows, h.rank, q), row.delta);
      } else {
        assert RefOk(g.db.rows, g.db.rows[i].parent) && q in g.db.rows;
        SquashReplay(h, a, now, applied, q);
        AgreeApply(h.intact, Replay(g.db.rows, g.rank, q), Replay(h.db.rows, h.rank, q), row.delta);
      }
    }
  }

  /** The new commit replays to the state the newest squashed commit had. */
  lemma {:induction false} NewReplay(h: Ranked, a: SquashArgs, now: int, applied: LevelState)
    requires SquashPromise(h, a, applied) && 0 < h.db.nextId && FkOk(h.db) && FkOk(Squashed(h.db, a, now))
    requires Sound(AfterSquash(h, a, now))
    ensures var g := AfterSquash(h, a, now);
            h.db.nextId in g.db.rows && Agree(h.intact, Replay(g.db.rows, g.rank, h.db.nextId), applied)
    decreases h.rank[a.Newest()], 0
  {
    var g, n := AfterSquash(h, a, now), h.db.nextId;
    NewRow(h, a, now);
    assert RefOk(g.db.rows, g.db.rows[n].parent);
    if a.parentOfOldest.Some? {
      var p: Id := a.parentOfOldest.value;
      assert p in g.db.rows && p in h.rank && p < n;
      assert p in h.db.rows;
      SquashReplay(h, a, now, applied, p);
      AgreeApply(h.intact, Replay(g.db.rows, g.rank, p), Replay(h.db.rows, h.rank, p), a.delta);
    }
  }

  lemma SquashEvolves(h: Ranked, a: SquashArgs, now: int, applied: LevelState)
    requires SquashPromise(h, a, applied) && 0 < h.db.nextId && FkOk(h.db) && FkOk(Squashed(h.db, a, now))
    ensures Evolves(h, AfterSquash(h, a, now))
    ensures var g := AfterSquash(h, a, now);
            h.db.nextId in g.db.rows && Agree(h.intact, Replay(g.db.rows, g.rank, h.db.nextId), applied)
  {
    var g := AfterSquash(h, a, now);
    SquashSound(h, a, now);
    NewReplay(h, a, now, applied);
    forall i | i in g.db.rows && i < h.db.nextId
      ensures i in h.db.rows && g.db.rows[i].level == h.db.rows[i].level && ParentKept(h.db, g.db, i) &&
              SameReplay(h, g, i)
    {
      assert i in h.db.rows;
      SurvivorRow(h, a, now, i);
      SquashReplay(h, a, now, applied, i);
    }
  }

  /** Every level's HEAD, moved or not, replays to the same state as before. */
  lemma SquashHeads(h: Ranked, a: SquashArgs, now: int, applied: LevelState, k: LevelKey)
    requires SquashPromise(h, a, applied) && 0 < h.db.nextId && FkOk(h.db) && FkOk(Squashed(h.db, a, now))
    requires k in h.db.heads
    ensures Sound(AfterSquash(h, a, now)) && k in AfterSquash(h, a, now).db.heads
    ensures var g := AfterSquash(h, a, now);
            Agree(h.intact, Replay(g.db.rows, g.rank, g.db.heads[k]), Replay(h.db.rows, h.rank, h.db.heads[k]))
  {
    SquashEvolves(h, a, now, applied);
    var head: Id := h.db.heads[k];
    assert HeadOutside(a, head);
    assert head in h.db.rows && head in h.rank;
    var g := AfterSquash(h, a, now);
    if !(k == a.key && head in a.ids) {
      assert g.db.heads[k] == head && head in g.db.rows;
      assert SameReplay(h, g, head);
    }
  }

  // ---------------------------------------------------------------- when the foreign keys let a squash through

  /** The check of `prepareSquash`: existing commits of the level, each the parent of the next. */
  ghost predicate Contiguous(db: Db, a: SquashArgs) {
    && a.WellFormed()
    && (forall j :: 0 <= j < |a.ids| ==> a.ids[j] in db.rows && db.rows[a.ids[j]].level == a.key)
    && (forall j :: 1 <= j < |a.ids| ==> db.rows[a.ids[j]].parent == Some(a.ids[j - 1]))
    && db.rows[a.ids[0]].parent == a.parentOfOldest
  }

  /** A commit outside the range whose parent is inside it but is not its newest commit. */
  ghost predicate OutsideChild(db: Db, ids: seq<Id>, c: Id)
    requires ids != []
  {
    c in db.rows && c !in ids && db.rows[c].parent.Some? && db.rows[c].parent.value in ids[..|ids| - 1]
  }

  lemma {:induction false} RangeRanks(h: Ranked, a: SquashArgs, i: nat, j: nat)
    requires Sound(h) && Contiguous(h.db, a) && i < j < |a.ids|
    ensures BaseBelow(h, a.ids[i], a.ids[j])
    decreases j
  {
    var id: Id, before: Id := a.ids[j], a.ids[i];
    assert before in h.db.rows && id in h.db.rows;
    assert RefBelow(h.db.rows, h.rank, h.db.rows[id].parent, id);
    if i < j - 1 {
      RangeRanks(h, a, i, j - 1);
    }
  }

  lemma RangeDistinct(h: Ranked, a: SquashArgs)
    requires Sound(h) && Contiguous(h.db, a)
    ensures forall i :: i in a.ids ==> (i == a.Newest() || i in a.ids[..|a.ids| - 1])
    ensures a.Newest() !in a.ids[..|a.ids| - 1] && Distinct(a.ids)
    ensures a.parentOfOldest.Some? ==>
              a.parentOfOldest.value !in a.ids && BaseBelow(h, a.parentOfOldest.value, a.Newest())
  {
    var last := |a.ids| - 1;
    assert a.ids == a.ids[..last] + [a.ids[last]];
    forall i | 0 <= i < last ensures a.ids[i] != a.ids[last] {
      RangeRanks(h, a, i, last);
    }
    forall i, j | 0 <= i < j < |a.ids| ensures a.ids[i] != a.ids[j] {
      RangeRanks(h, a, i, j);
    }
    if a.parentOfOldest.Some? {
      var p: Id := a.parentOfOldest.value;
      var oldest: Id := a.ids[0];
      assert oldest in h.db.rows && RefBelow(h.db.rows, h.rank, h.db.rows[oldest].parent, oldest);
      assert BaseBelow(h, p, oldest);
      forall j | 0 <= j < |a.ids| ensures p != a.ids[j] && BaseBelow(h, p, a.ids[j]) {
        if j > 0 {
          RangeRanks(h, a, 0, j);
        }
      }
    }
  }

  /** A commit branching off inside the range makes the check at COMMIT fail, and the store stays as it was. */
  lemma BranchBlocksSquash(h: Ranked, a: SquashArgs, now: int, c: Id)
    requires Sound(h) && Contiguous(h.db, a) && OutsideChild(h.db, a.ids, c)
    ensures !FkOk(Squashed(h.db, a, now)) && Settle(h.db, Squashed(h.db, a, now)) == h.db
  {
    RangeDistinct(h, a);
    SurvivorRow(h, a, now, c);
    var db2, q := Squashed(h.db, a, now), h.db.rows[c].parent.value;
    assert db2.rows[c].parent == Some(q) && q in a.ids && q !in db2.rows;
    assert !RefOk(db2.rows, db2.rows[c].parent);
  }

  lemma SquashFkRow(h: Ranked, a: SquashArgs, now: int, i: Id)
    requires Sound(h) && FkOk(h.db) && OneLevel(h.db) && Contiguous(h.db, a) && !OutsideChild(h.db, a.ids, i)
    requires i in h.db.rows && i !in a.ids
    ensures var r2 := Squashed(h.db, a, now).rows; i in r2 && RefOk(r2, r2[i].parent) && RefOk(r2, r2[i].reverts)
  {
    RangeDistinct(h, a);
    SurvivorRow(h, a, now, i);
    NewRow(h, a, now);
    var row := h.db.rows[i];
    assert RefOk(h.db.rows, row.parent) && RefOk(h.db.rows, row.reverts) && StaysInLevel(h.db.rows, i);
    if row.parent.Some? {
      var q: Id := row.parent.value;
      if q == a.Newest() {
        assert row.level == a.key;
      } else {
        assert q !in a.ids;
        SurvivorRow(h, a, now, q);
      }
    }
    if row.reverts.Some? {
      var r: Id := row.reverts.value;
      if r !in a.ids {
        SurvivorRow(h, a, now, r);
      }
    }
  }

  /** For a contiguous range the squash goes through exactly when nothing branches off inside it. */
  lemma SquashSucceedsIff(h: Ranked, a: SquashArgs, now: int)
    requires Sound(h) && FkOk(h.db) && OneLevel(h.db) && Contiguous(h.db, a)
    ensures FkOk(Squashed(h.db, a, now)) <==> forall c :: !OutsideChild(h.db, a.ids, c)
  {
    var db2, n := Squashed(h.db, a, now), h.db.nextId;
    if c :| OutsideChild(h.db, a.ids, c) {
      BranchBlocksSquash(h, a, now, c);
    } else {
      RangeDistinct(h, a);
      NewRow(h, a, now);
      forall i | i in db2.rows ensures RefOk(db2.rows, db2.rows[i].parent) && RefOk(db2.rows, db2.rows[i].reverts) {
        if i != n {
          SquashFkRow(h, a, now, i);
        } else if a.parentOfOldest.Some? {
          var p: Id := a.parentOfOldest.value;
          var oldest: Id := a.ids[0];
          assert RefOk(h.db.rows, h.db.rows[oldest].parent);
          SurvivorRow(h, a, now, p);
        }
      }
      forall k | k in db2.heads ensures db2.heads[k] in db2.rows {
        var head: Id := h.db.heads[k];
        assert h.db.rows[head].level == k;
        if head !in a.ids {
          SurvivorRow(h, a, now, head);
        }
      }
    }
  }
}
