/** The reconstruct cache never outgrows its capacity (`src/service/GitService.cpp:601-609`). */
module CacheRuns {
  import opened Prelude
  import opened LevelModel
  import opened Differ
  import opened Tables
  import opened History
  import opened ServiceModel
  import opened ServiceSteps
  import opened ImportSteps
  import opened Runs

  /** One entry is always kept, whatever the capacity. */
  ghost predicate Within(cache: map<Id, LevelState>, cap: nat) {
    |cache| <= if cap == 0 then 1 else cap
  }

  ghost predicate Fits(w: World) {
    Within(w.cache, w.cap)
  }

  lemma PutFits(cache: map<Id, LevelState>, cap: nat, id: Id, s: LevelState)
    requires Within(cache, cap)
    ensures Within(CachePut(cache, cap, id, s), cap)
  {
    assert |map[id := s].Keys| == 1;
    var more := cache[id := s];
    assert more.Keys == cache.Keys + {id};
    assert |cache.Keys| == |cache| && |more.Keys| == |more|;
    if id in cache {
      assert cache.Keys + {id} == cache.Keys;
    }
  }

  lemma PutInWorld(w: World, id: Id, s: LevelState, h: Ranked)
    requires Fits(w)
    ensures Fits(World(h, CachePut(w.cache, w.cap, id, s), w.cap))
  {
    PutFits(w.cache, w.cap, id, s);
  }

  lemma {:induction false} ReconFits(w: World, id: Id)
    requires Sound(w.h) && Fits(w) && id in w.h.db.rows
    ensures Fits(w.(cache := Recon(w.h.db.rows, w.h.rank, w.cap, w.cache, id).cache))
    decreases w.h.rank[id]
  {
    if id !in w.cache {
      var row := w.h.db.rows[id];
      if row.parent.Some? {
        ReconFits(w, row.parent.value);
      }
      var base := ReconRef(w.h.db.rows, w.h.rank, w.cap, w.cache, row.parent, id);
      PutInWorld(w.(cache := base.cache), id, Apply(base.state, row.delta), w.h);
    }
  }

  lemma FetchFits(w: World, id: Id)
    requires Inv(w) && Fits(w)
    ensures Inv(Fetch(w, id).w) && Fits(Fetch(w, id).w)
  {
    FetchOk(w, id);
    if id !in w.cache && id in w.h.db.rows {
      ReconFits(w, id);
    }
  }

  lemma {:induction false} FetchAllFits(w: World, ids: seq<Id>)
    requires Inv(w) && Fits(w)
    ensures Fits(FetchAll(w, ids))
    decreases |ids|
  {
    if ids != [] {
      FetchFits(w, ids[0]);
      FetchAllFits(Fetch(w, ids[0]).w, ids[1..]);
    }
  }

  lemma InsertFits(w: World, row: Row, cacheState: Option<LevelState>)
    requires Fits(w)
    ensures Fits(InsertThen(w, row, cacheState).w)
  {
    if cacheState.Some? {
      PutInWorld(w, w.h.db.nextId, cacheState.value, Inserted(w.h, row));
    }
  }

  lemma {:induction false} ImportFits(w: World, commits: seq<PendingHeadUpdate>, clock: nat -> int, i: nat,
                                      minted: seq<Id>)
    requires i <= |commits| && Fits(w)
    ensures Fits(ImportRun(w, commits, clock, i, minted).w)
    decreases |commits| - i
  {
    if i < |commits| && EntryParentKnown(commits, i, minted) {
      var row := EntryRow(commits, i, minted, clock(i));
      InsertFits(w, row, commits[i].cacheState);
      var ins := InsertThen(w, row, commits[i].cacheState);
      if ins.r.Ok? {
        ImportFits(ins.w, commits, clock, i + 1, minted + [ins.r.value]);
      }
    }
  }

  /** A cache with one entry. */
  lemma OneFits(h: Ranked, cap: nat, id: Id, s: LevelState)
    ensures Fits(World(h, map[], cap)) && Fits(World(h, CachePut(map[], cap, id, s), cap))
  {
    PutInWorld(World(h, map[], cap), id, s, h);
  }

  lemma CommitFits(w: World, l: Label, w2: World)
    requires Inv(w) && l.DoCommit? && Job(w, l, w2) && Fits(w)
    ensures Fits(w2)
  {
    if l.key in w.h.db.heads {
      var f := Fetch(w, w.h.db.heads[l.key]);
      FetchFits(w, w.h.db.heads[l.key]);
      InsertFits(f.w, Row(l.key, Some(w.h.db.heads[l.key]), None, l.message, l.now, l.delta), Some(l.incoming));
    } else {
      InsertFits(w, Row(l.key, None, None, l.message, l.now, l.delta), Some(l.incoming));
    }
  }

  lemma RevertFits(w: World, key: LevelKey, target: Id, r: Result<RevertPayload>, tok: Option<Token>, w2: World)
    requires Inv(w) && Fits(w) && PrepareRevertStep(w, key, target, r, tok, w2)
    ensures Fits(w2)
  {
    if CanRevert(w.h.db, key, target) {
      var parent: Id, head: Id := w.h.db.rows[target].parent.value, w.h.db.heads[key];
      RevertRefs(w, key, target);
      FetchOk(w, parent);
      FetchFits(w, parent);
      var p := Fetch(w, parent);
      FetchOk(p.w, target);
      FetchFits(p.w, target);
      FetchFits(Fetch(p.w, target).w, head);
    }
  }

  lemma SquashFits(w: World, key: LevelKey, ids: seq<Id>, message: string, r: Result<LevelState>, tok: Option<Token>,
                   w2: World)
    requires Inv(w) && Fits(w) && PrepareSquashStep(w, key, ids, message, r, tok, w2)
    ensures Fits(w2)
  {
    if CanSquash(w.h.db, key, ids) {
      SquashRefs(w, key, ids);
      var base := w.h.db.rows[ids[0]].parent;
      var b := if base.None? then Fetched(Some(EMPTY_STATE), w) else Fetch(w, base.value);
      if base.Some? {
        FetchFits(w, base.value);
      }
      FetchFits(b.w, ids[|ids| - 1]);
    }
  }

  lemma PrepareFits(w: World, l: Label, w2: World)
    requires Inv(w) && Fits(w) && Job(w, l, w2)
    requires l.DoPrepareCheckout? || l.DoPrepareRevert? || l.DoPrepareSquash? || l.DoPrepareReplace? ||
             l.DoPrepareImport? || l.DoReconstruct?
    ensures Fits(w2)
  {
    match l
    case DoReconstruct(id) => FetchFits(w, id);
    case DoPrepareCheckout(key, target, r, tok) =>
      if key in w.h.db.heads {
        FetchFits(w, w.h.db.heads[key]);
        FetchFits(Fetch(w, w.h.db.heads[key]).w, target);
      }
    case DoPrepareRevert(key, target, r, tok) => RevertFits(w, key, target, r, tok, w2);
    case DoPrepareSquash(key, ids, message, r, tok) => SquashFits(w, key, ids, message, r, tok, w2);
    case DoPrepareReplace(dest, src, r, tok) =>
      if src in w.h.db.heads {
        FetchFits(w, w.h.db.heads[src]);
      }
    case DoPrepareImport(key, earlier, commits, states, tok) =>
      FetchAllFits(w, earlier);
      if key in w.h.db.heads {
        FetchFits(FetchAll(w, earlier), w.h.db.heads[key]);
      }
    case _ =>
  }

  lemma JobFits(w: World, l: Label, w2: World)
    requires Inv(w) && Fits(w) && Job(w, l, w2)
    ensures Fits(w2)
  {
    match l
    case DoCommit(_, _, _, _, _, _, _) => CommitFits(w, l, w2);
    case DoFinalizeHead(used, now, _) =>
      var p := used.p;
      InsertFits(w, Row(p.levelKey, p.parent, p.reverts, p.message, now, p.delta), Some(used.applied));
    case DoFinalizeSquash(used, now, _) => OneFits(w2.h, w.cap, w.h.db.nextId, used.applied);
    case DoFinalizeReplace(used, ok, m) =>
      if ok {
        OneFits(w2.h, w.cap, w2.h.db.heads[used.dest], used.applied);
      }
    case DoFinalizeImport(used, clock, _) => ImportFits(w, used.commits, clock, 0, []);
    case DoDelete(_, _) => OneFits(w2.h, w.cap, 0, EMPTY_STATE);
    case _ => PrepareFits(w, l, w2);
  }

  lemma NextFits(s: Sys, l: Label, s2: Sys)
    requires Good(s) && Next(s, l, s2) && Fits(s.w)
    ensures Fits(s2.w)
  {
    JobFits(s.w, l, s2.w);
  }

  lemma {:induction false} ReachableFits(cap: nat, states: seq<Sys>, labels: seq<Label>, n: nat)
    requires IsRun(cap, states, labels) && n < |states|
    ensures Fits(states[n].w)
  {
    if n > 0 {
      ReachableFits(cap, states, labels, n - 1);
      ReachableGood(cap, states, labels, n - 1);
      assert RunStep(states, labels, n - 1);
      NextFits(states[n - 1], labels[n - 1], states[n]);
    }
  }

  /** In every reachable state the cache holds at most its capacity, or one entry. */
  lemma CacheBounded(cap: nat, states: seq<Sys>, labels: seq<Label>, n: nat)
    requires IsRun(cap, states, labels) && n < |states|
    ensures |states[n].w.cache| <= if cap == 0 then 1 else cap
  {
    ReachableGood(cap, states, labels, n);
    ReachableFits(cap, states, labels, n);
  }
}
