/** Every store operation of a service run keeps the shape of the commit graph. */
module StoreInvariants {
  import opened Prelude
  import opened LevelModel
  import opened Differ
  import opened Tables
  import opened History
  import opened SquashHistory
  import opened ServiceModel

  // ---------------------------------------------------------------- insert

  /** References of a row that the foreign keys accept and that were issued before it exist already. */
  lemma InsertRefs(h: Ranked, row: Row, ref: Option<Id>)
    requires Sound(h) && Minted(h, ref) && RefOk(InsertHead(h.db, row).rows, ref)
    ensures RefOk(h.db.rows, ref)
  {
    if ref.Some? {
      var p: Id := ref.value;
      assert p in h.rank && p < h.db.nextId;
      assert p in InsertHead(h.db, row).rows;
    }
  }

  lemma InsertFk(h: Ranked, row: Row)
    requires Sound(h) && 0 < h.db.nextId && FkOk(h.db)
    requires RefOk(h.db.rows, row.parent) && RefOk(h.db.rows, row.reverts)
    ensures FkOk(InsertHead(h.db, row))
  {
    var db := InsertHead(h.db, row);
    forall i | i in db.rows ensures RefOk(db.rows, db.rows[i].parent) && RefOk(db.rows, db.rows[i].reverts) {
      if i != h.db.nextId {
        assert RefOk(h.db.rows, h.db.rows[i].parent) && RefOk(h.db.rows, h.db.rows[i].reverts);
      }
    }
  }

  lemma InsertKeepsLevels(h: Ranked, row: Row)
    requires StoreInv(h) && RefOk(h.db.rows, row.parent) && RefOk(h.db.rows, row.reverts)
    requires RefLevel(h, row.parent, row.level) && RefLevel(h, row.reverts, row.level)
    ensures OneLevel(InsertHead(h.db, row))
  {
    var db, n := InsertHead(h.db, row), h.db.nextId;
    assert n !in h.rank;
    forall i | i in db.rows ensures StaysInLevel(db.rows, i) {
      if i == n {
        RefMinted(h, row.parent);
        RefMinted(h, row.reverts);
      } else {
        assert StaysInLevel(h.db.rows, i);
        assert RefOk(h.db.rows, h.db.rows[i].parent) && RefOk(h.db.rows, h.db.rows[i].reverts);
        RefMinted(h, h.db.rows[i].parent);
        RefMinted(h, h.db.rows[i].reverts);
      }
    }
    forall k | k in db.heads ensures db.heads[k] in db.rows && db.rows[db.heads[k]].level == k {
      if k != row.level {
        var head: Id := h.db.heads[k];
        assert head in h.db.rows && head in h.rank;
      }
    }
  }

  lemma InsertKeepsLeaf(h: Ranked, row: Row)
    requires StoreInv(h) && RefOk(h.db.rows, row.parent) && RefLevel(h, row.parent, row.level)
    ensures HeadLeaf(InsertHead(h.db, row))
  {
    var db, n := InsertHead(h.db, row), h.db.nextId;
    forall k, i | k in db.heads && i in db.rows ensures db.rows[i].parent != Some(db.heads[k]) {
      RefMinted(h, row.parent);
      if i != n {
        assert RefOk(h.db.rows, h.db.rows[i].parent);
        RefMinted(h, h.db.rows[i].parent);
      }
      if k != row.level {
        var head: Id := h.db.heads[k];
        assert head in h.db.rows && h.db.rows[head].level == k;
        if i != n {
          assert h.db.rows[i].parent != Some(head);
        }
      }
    }
  }

  lemma InsertKeepsInv(h: Ranked, row: Row)
    requires StoreInv(h) && RefOk(h.db.rows, row.parent) && RefOk(h.db.rows, row.reverts)
    requires RefLevel(h, row.parent, row.level) && RefLevel(h, row.reverts, row.level)
    ensures FkOk(InsertHead(h.db, row)) && StoreInv(Inserted(h, row))
  {
    InsertFk(h, row);
    InsertSound(h, row);
    InsertKeepsLevels(h, row);
    InsertKeepsLeaf(h, row);
  }

  // ---------------------------------------------------------------- delete

  lemma DeleteKeepsInv(h: Ranked, key: LevelKey)
    requires StoreInv(h)
    ensures FkOk(Deleted(h.db, key)) && StoreInv(h.(db := Deleted(h.db, key)))
  {
    var db := Deleted(h.db, key);
    DeleteSound(h, key);
    forall i | i in db.rows ensures StaysInLevel(db.rows, i) {
      assert StaysInLevel(h.db.rows, i);
    }
    forall k | k in db.heads ensures db.heads[k] in db.rows && db.rows[db.heads[k]].level == k {
      var head: Id := h.db.heads[k];
      assert head in h.db.rows && h.db.rows[head].level == k;
    }
    forall k, i | k in db.heads && i in db.rows ensures db.rows[i].parent != Some(db.heads[k]) {
      assert h.db.rows[i].parent != Some(h.db.heads[k]);
    }
  }

  // ---------------------------------------------------------------- squash

  lemma SquashLevelRow(h: Ranked, a: SquashArgs, now: int, applied: LevelState, i: Id)
    requires StoreInv(h) && SquashPromise(h, a, applied) && FkOk(Squashed(h.db, a, now))
    requires i in Squashed(h.db, a, now).rows
    ensures StaysInLevel(Squashed(h.db, a, now).rows, i)
  {
    var r2, n := Squashed(h.db, a, now).rows, h.db.nextId;
    NewRow(h, a, now);
    assert RefOk(r2, r2[i].parent) && RefOk(r2, r2[i].reverts);
    if i == n {
      if a.parentOfOldest.Some? {
        var p: Id := a.parentOfOldest.value;
        assert BaseBelow(h, p, a.Newest()) && LevelIfThere(h.db, p, a.key);
        assert p != n && p in r2;
        assert p in h.db.rows;
        SurvivorRow(h, a, now, p);
      }
    } else {
      assert StaysInLevel(h.db.rows, i);
      SurvivorRow(h, a, now, i);
      assert RefOk(h.db.rows, h.db.rows[i].parent) && RefOk(h.db.rows, h.db.rows[i].reverts);
      SquashLevelRef(h, a, now, h.db.rows[i].parent, r2[i].level);
      SquashLevelRef(h, a, now, h.db.rows[i].reverts, r2[i].level);
    }
  }

  lemma SquashLevelRef(h: Ranked, a: SquashArgs, now: int, ref: Option<Id>, key: LevelKey)
    requires SqlFresh(h, a) && RefOk(h.db.rows, ref) && RefInLevel(h.db.rows, ref, key)
    ensures RefInLevel(Squashed(h.db, a, now).rows, ref, key)
  {
    if ref.Some? {
      var q: Id := ref.value;
      assert q in h.db.rows;
      if q !in a.ids {
        SurvivorRow(h, a, now, q);
      } else {
        assert q in h.rank && q !in Squashed(h.db, a, now).rows;
      }
    }
  }

  lemma SquashKeepsLevels(h: Ranked, a: SquashArgs, now: int, applied: LevelState)
    requires StoreInv(h) && SquashPromise(h, a, applied) && FkOk(Squashed(h.db, a, now))
    ensures OneLevel(Squashed(h.db, a, now))
  {
    var db := Squashed(h.db, a, now);
    NewRow(h, a, now);
    forall i | i in db.rows ensures StaysInLevel(db.rows, i) {
      SquashLevelRow(h, a, now, applied, i);
    }
    forall k | k in db.heads ensures db.heads[k] in db.rows && db.rows[db.heads[k]].level == k {
      var head: Id := h.db.heads[k];
      assert head in h.db.rows && h.db.rows[head].level == k;
      assert db.heads[k] in db.rows;
      if !(k == a.key && head in a.ids) {
        assert db.heads[k] == head;
        SquashLevelRef(h, a, now, Some(head), k);
      }
    }
  }

  lemma SquashKeepsLeaf(h: Ranked, a: SquashArgs, now: int, applied: LevelState, k: LevelKey, i: Id)
    requires StoreInv(h) && SquashPromise(h, a, applied) && FkOk(Squashed(h.db, a, now))
    requires k in h.db.heads && i in Squashed(h.db, a, now).rows
    ensures Squashed(h.db, a, now).rows[i].parent != Some(Squashed(h.db, a, now).heads[k])
  {
    var head: Id, n := h.db.heads[k], h.db.nextId;
    assert HeadOutside(a, head) && head in h.db.rows && head in h.rank;
    NewRow(h, a, now);
    if i == n {
      if a.parentOfOldest.Some? {
        assert BaseBelow(h, a.parentOfOldest.value, a.Newest());
      }
    } else {
      SurvivorRow(h, a, now, i);
      assert h.db.rows[i].parent != Some(head);
      assert RefOk(h.db.rows, h.db.rows[i].parent);
      RefMinted(h, h.db.rows[i].parent);
    }
  }

  lemma SquashKeepsInv(h: Ranked, a: SquashArgs, now: int, applied: LevelState)
    requires StoreInv(h) && SquashPromise(h, a, applied) && FkOk(Squashed(h.db, a, now))
    ensures StoreInv(AfterSquash(h, a, now))
  {
    var db := Squashed(h.db, a, now);
    SquashSound(h, a, now);
    SquashKeepsLevels(h, a, now, applied);
    forall k, i | k in db.heads && i in db.rows ensures db.rows[i].parent != Some(db.heads[k]) {
      SquashKeepsLeaf(h, a, now, applied, k, i);
    }
  }

  // ---------------------------------------------------------------- load-level

  lemma CopyNotCrossed(h: Ranked, dest: LevelKey)
    requires StoreInv(h)
    ensures !CrossReferenced(h.db, dest)
  {
    forall i | i in h.db.rows && h.db.rows[i].level != dest ensures !RefersTo(h.db.rows[i], LevelIds(h.db, dest)) {
      assert StaysInLevel(h.db.rows, i);
    }
  }

  /** None of the reasons to refuse a history copy applies to a level with a HEAD. */
  lemma CopySucceeds(h: Ranked, dest: LevelKey, src: LevelKey)
    requires StoreInv(h) && src in h.db.heads
    ensures Closed(h.db, LevelIds(h.db, src)) && Acyclic(h.db.rows) && h.db.heads[src] in LevelIds(h.db, src)
    ensures !CrossReferenced(h.db, dest)
  {
    GroundedIsAcyclic(h.db.rows, h.rank);
    CopyNotCrossed(h, dest);
    var ids := LevelIds(h.db, src);
    forall i | i in ids
      ensures h.db.rows[i].parent.Some? ==> h.db.rows[i].parent.value in ids
      ensures h.db.rows[i].reverts.Some? ==> h.db.rows[i].reverts.value in ids
    {
      assert StaysInLevel(h.db.rows, i) && RefOk(h.db.rows, h.db.rows[i].parent) &&
             RefOk(h.db.rows, h.db.rows[i].reverts);
      RefStays(h.db, h.db.rows[i].parent, src);
      RefStays(h.db, h.db.rows[i].reverts, src);
    }
  }

  lemma RefStays(db: Db, ref: Option<Id>, key: LevelKey)
    requires RefOk(db.rows, ref) && RefInLevel(db.rows, ref, key)
    ensures ref.Some? ==> ref.value in LevelIds(db, key)
  {
    if ref.Some? {
      var p: Id := ref.value;
      assert p in db.rows;
    }
  }

  lemma CopyLevelRow(h: Ranked, after: Db, dest: LevelKey, src: LevelKey, m: map<Id, Id>, i: Id)
    requires StoreInv(h) && Copied(h.db, after, dest, src, m) && FkOk(after) && i in after.rows
    ensures StaysInLevel(after.rows, i)
  {
    if i in m.Values {
      var o: Id := SomeKeyOf(m, i);
      assert o in m && after.rows[i] == CopyRow(h.db.rows[o], dest, m);
      CopyLevelRef(h, after, dest, src, m, h.db.rows[o].parent);
      CopyLevelRef(h, after, dest, src, m, h.db.rows[o].reverts);
    } else {
      assert i in after.rows.Keys;
      assert i in h.db.rows && i !in LevelIds(h.db, dest);
      assert StaysInLevel(h.db.rows, i);
      assert RefOk(h.db.rows, h.db.rows[i].parent) && RefOk(h.db.rows, h.db.rows[i].reverts);
      KeptLevelRef(h, after, dest, src, m, h.db.rows[i].parent, h.db.rows[i].level);
      KeptLevelRef(h, after, dest, src, m, h.db.rows[i].reverts, h.db.rows[i].level);
    }
  }

  lemma KeptLevelRef(h: Ranked, after: Db, dest: LevelKey, src: LevelKey, m: map<Id, Id>, ref: Option<Id>,
                     key: LevelKey)
    requires StoreInv(h) && Copied(h.db, after, dest, src, m) && RefOk(h.db.rows, ref) &&
             RefInLevel(h.db.rows, ref, key)
    ensures RefInLevel(after.rows, ref, key)
  {
    if ref.Some? && ref.value in after.rows {
      var p: Id := ref.value;
      assert p in h.db.rows && p in h.rank;
      CopyOldIds(h, after, dest, src, m, p);
    }
  }

  lemma CopyLevelRef(h: Ranked, after: Db, dest: LevelKey, src: LevelKey, m: map<Id, Id>, ref: Option<Id>)
    requires StoreInv(h) && Copied(h.db, after, dest, src, m)
    ensures RefInLevel(after.rows, MapRef(ref, m), dest)
  {
    if ref.Some? && ref.value in m {
      var p: Id := ref.value;
      assert after.rows[m[p]] == CopyRow(h.db.rows[p], dest, m);
    }
  }

  lemma CopyKeepsLevels(h: Ranked, after: Db, dest: LevelKey, src: LevelKey, m: map<Id, Id>)
    requires StoreInv(h) && Copied(h.db, after, dest, src, m) && FkOk(after)
    ensures OneLevel(after)
  {
    forall i | i in after.rows ensures StaysInLevel(after.rows, i) {
      CopyLevelRow(h, after, dest, src, m, i);
    }
    forall k | k in after.heads ensures after.heads[k] in after.rows && after.rows[after.heads[k]].level == k {
      if k == dest {
        var head: Id := h.db.heads[src];
        assert head in m && after.rows[m[head]] == CopyRow(h.db.rows[head], dest, m);
      } else {
        var head: Id := h.db.heads[k];
        assert head in h.db.rows && h.db.rows[head].level == k;
      }
    }
  }

  lemma CopyKeepsLeaf(h: Ranked, after: Db, dest: LevelKey, src: LevelKey, m: map<Id, Id>, k: LevelKey, i: Id)
    requires StoreInv(h) && Copied(h.db, after, dest, src, m)
    requires k in after.heads && i in after.rows
    ensures after.rows[i].parent != Some(after.heads[k])
  {
    var srcHead: Id := h.db.heads[src];
    assert srcHead in m && m[srcHead] >= h.db.nextId;
    if i in m.Values {
      var o: Id := SomeKeyOf(m, i);
      assert o in m && o in LevelIds(h.db, src) && after.rows[i] == CopyRow(h.db.rows[o], dest, m);
      if h.db.rows[o].parent.Some? {
        var p: Id := h.db.rows[o].parent.value;
        assert h.db.rows[o].parent != Some(srcHead);
        assert p in m && m[p] >= h.db.nextId;
        if k != dest {
          var head: Id := h.db.heads[k];
          assert head in h.db.rows && head in h.rank;
        }
      }
    } else {
      assert i in after.rows.Keys;
      assert i in h.db.rows && after.rows[i] == h.db.rows[i];
      assert RefOk(h.db.rows, h.db.rows[i].parent);
      RefMinted(h, h.db.rows[i].parent);
      if k != dest {
        assert k in h.db.heads;
        assert h.db.rows[i].parent != Some(h.db.heads[k]);
      }
    }
  }

  lemma CopyKeepsInv(h: Ranked, after: Db, dest: LevelKey, src: LevelKey, m: map<Id, Id>)
    requires StoreInv(h) && Copied(h.db, after, dest, src, m) && FkOk(after)
    ensures StoreInv(CopiedStore(h, after, m))
  {
    CopySound(h, after, dest, src, m);
    CopyKeepsLevels(h, after, dest, src, m);
    forall k, i | k in after.heads && i in after.rows ensures after.rows[i].parent != Some(after.heads[k]) {
      CopyKeepsLeaf(h, after, dest, src, m, k, i);
    }
  }

  // ---------------------------------------------------------------- HEAD exactly when there are commits

  /** A level with commits has a HEAD (the converse is a foreign key). */
  ghost predicate HeadIffCommits(db: Db) {
    forall i :: i in db.rows ==> db.rows[i].level in db.heads
  }

  lemma InsertKeepsHeads(db: Db, row: Row)
    requires HeadIffCommits(db)
    ensures HeadIffCommits(InsertHead(db, row))
  {
  }

  lemma DeleteKeepsHeads(db: Db, key: LevelKey)
    requires HeadIffCommits(db)
    ensures HeadIffCommits(Deleted(db, key))
  {
  }

  lemma CopyKeepsHeads(before: Db, after: Db, dest: LevelKey, src: LevelKey, m: map<Id, Id>)
    requires HeadIffCommits(before) && Copied(before, after, dest, src, m)
    ensures HeadIffCommits(after)
  {
    forall i | i in after.rows ensures after.rows[i].level in after.heads {
      if i in m.Values {
        var o: Id := SomeKeyOf(m, i);
        assert o in m && after.rows[i] == CopyRow(before.rows[o], dest, m);
      } else {
        assert i in after.rows.Keys;
      }
    }
  }

  /**
   * A squash keeps "a level with commits has a HEAD" exactly when its level has a HEAD at that moment: it always
   * inserts a commit but only ever moves an existing HEAD.
   */
  lemma SquashKeepsHeadsIff(h: Ranked, a: SquashArgs, now: int, applied: LevelState)
    requires StoreInv(h) && SquashPromise(h, a, applied) && FkOk(Squashed(h.db, a, now)) && HeadIffCommits(h.db)
    ensures HeadIffCommits(Squashed(h.db, a, now)) <==> a.key in h.db.heads
  {
    var db := Squashed(h.db, a, now);
    NewRow(h, a, now);
    assert db.heads.Keys == h.db.heads.Keys;
    if a.key in h.db.heads {
      forall i | i in db.rows ensures db.rows[i].level in db.heads {
        if i != h.db.nextId {
          SurvivorRow(h, a, now, i);
        }
      }
    } else {
      assert db.rows[h.db.nextId].level !in db.heads;
    }
  }
}
