/**
 * The history service as a state machine (`src/service/GitService.cpp`): what each worker job does to the
 * store and the reconstruct cache, and what a prepared job hands to its finalize.
 */
module ServiceModel {
  import opened Prelude
  import opened LevelModel
  import opened Differ
  import opened DifferLaws
  import opened Tables
  import opened History
  import opened SquashHistory

  /** Store (with ranks), reconstruct cache and its capacity. */
  datatype World = World(h: Ranked, cache: map<Id, LevelState>, cap: nat)

  // ---------------------------------------------------------------- cache and reconstruct

  /** `cachePut`: replace an entry, or clear a full cache before inserting. */
  function CachePut(cache: map<Id, LevelState>, cap: nat, id: Id, s: LevelState): map<Id, LevelState> {
    if id in cache then cache[id := s]
    else if |cache| >= cap then map[id := s]
    else cache[id := s]
  }

  datatype Rebuilt = Rebuilt(state: LevelState, cache: map<Id, LevelState>)

  /** `reconstruct` of an existing commit: down to a cached ancestor or the root, then up, caching every step. */
  ghost function Recon(rows: map<Id, Row>, rank: map<Id, nat>, cap: nat, cache: map<Id, LevelState>, id: Id): Rebuilt
    requires Grounded(rows, rank) && id in rows
    decreases rank[id], 1
  {
    if id in cache then Rebuilt(cache[id], cache)
    else ReplayOn(cap, ReconRef(rows, rank, cap, cache, rows[id].parent, id), id, rows[id].delta)
  }

  ghost function ReconRef(rows: map<Id, Row>, rank: map<Id, nat>, cap: nat, cache: map<Id, LevelState>,
                          ref: Option<Id>, id: Id): Rebuilt
    requires Grounded(rows, rank) && id in rank && RefBelow(rows, rank, ref, id)
    decreases rank[id], 0
  {
    if ref.None? then Rebuilt(EMPTY_STATE, cache) else Recon(rows, rank, cap, cache, ref.value)
  }

  /** One replayed commit of the chain. */
  function ReplayOn(cap: nat, r: Rebuilt, id: Id, delta: Delta): Rebuilt {
    var s := Apply(r.state, delta);
    Rebuilt(s, CachePut(r.cache, cap, id, s))
  }

  datatype Fetched = Fetched(state: Option<LevelState>, w: World)

  /** `reconstruct` of any id: a cached entry wins even if the commit is gone. */
  ghost function Fetch(w: World, id: Id): Fetched
    requires Sound(w.h)
  {
    if id in w.cache then Fetched(Some(w.cache[id]), w)
    else if id in w.h.db.rows then
      var r := Recon(w.h.db.rows, w.h.rank, w.cap, w.cache, id);
      Fetched(Some(r.state), w.(cache := r.cache))
    else Fetched(None, w)
  }

  // ---------------------------------------------------------------- invariants

  /** HEAD commits have no children. */
  ghost predicate HeadLeaf(db: Db) {
    forall k, i :: k in db.heads && i in db.rows ==> db.rows[i].parent != Some(db.heads[k])
  }

  /** The tables of every reachable service state. */
  ghost predicate StoreInv(h: Ranked) {
    Sound(h) && 0 < h.db.nextId && FkOk(h.db) && OneLevel(h.db) && HeadLeaf(h.db)
  }

  /** A cached commit that still exists holds its full replay, up to empty fields (while intact). */
  ghost predicate EntryOk(h: Ranked, id: Id, s: LevelState)
    requires Sound(h)
  {
    id in h.rank && (id in h.db.rows ==> Agree(h.intact, s, Replay(h.db.rows, h.rank, id)))
  }

  ghost predicate Coherent(h: Ranked, cache: map<Id, LevelState>)
    requires Sound(h)
  {
    forall i :: i in cache ==> EntryOk(h, i, cache[i])
  }

  ghost predicate Inv(w: World) {
    StoreInv(w.h) && Coherent(w.h, w.cache)
  }

  lemma CachePutCoherent(h: Ranked, cache: map<Id, LevelState>, cap: nat, id: Id, s: LevelState)
    requires Sound(h) && Coherent(h, cache) && EntryOk(h, id, s)
    ensures Coherent(h, CachePut(cache, cap, id, s))
  {
  }

  /** Reconstruct refines the uncached replay and keeps the cache coherent, whatever gets flushed on the way. */
  lemma {:induction false} ReconRefines(h: Ranked, cap: nat, cache: map<Id, LevelState>, id: Id)
    requires Sound(h) && Coherent(h, cache) && id in h.db.rows
    ensures var r := Recon(h.db.rows, h.rank, cap, cache, id);
            Agree(h.intact, r.state, Replay(h.db.rows, h.rank, id)) && Coherent(h, r.cache)
    decreases h.rank[id]
  {
    if id in cache {
      assert EntryOk(h, id, cache[id]);
    } else {
      var row := h.db.rows[id];
      var base := ReconRef(h.db.rows, h.rank, cap, cache, row.parent, id);
      if row.parent.Some? {
        ReconRefines(h, cap, cache, row.parent.value);
      }
      AgreeApply(h.intact, base.state, ReplayRef(h.db.rows, h.rank, row.parent, id), row.delta);
      CachePutCoherent(h, base.cache, cap, id, Apply(base.state, row.delta));
    }
  }

  /** What a fetch keeps and returns. */
  lemma FetchOk(w: World, id: Id)
    requires Inv(w)
    ensures var f := Fetch(w, id);
            && Inv(f.w) && f.w.h == w.h && f.w.cap == w.cap
            && (id in w.h.db.rows ==>
                  f.state.Some? && Agree(w.h.intact, f.state.value, Replay(w.h.db.rows, w.h.rank, id)))
            && (f.state.Some? ==> id in w.h.rank)
  {
    if id in w.cache {
      assert EntryOk(w.h, id, w.cache[id]);
    } else if id in w.h.db.rows {
      ReconRefines(w.h, w.cap, w.cache, id);
    }
  }

  /** What was fetched of an existing commit is in the cache afterwards. */
  lemma FetchCaches(w: World, id: Id)
    requires Sound(w.h) && id in w.h.db.rows
    ensures var f := Fetch(w, id); f.state.Some? && id in f.w.cache && f.w.cache[id] == f.state.value
  {
    if id !in w.cache {
      var r := Recon(w.h.db.rows, w.h.rank, w.cap, w.cache, id);
      assert id in r.cache && r.cache[id] == r.state;
    }
  }

  // ---------------------------------------------------------------- without empty values

  ghost predicate RowsNoEmpty(rows: map<Id, Row>) {
    forall i :: i in rows ==> DeltaNoEmpty(rows[i].delta)
  }

  ghost predicate CacheNoEmpty(cache: map<Id, LevelState>) {
    forall i :: i in cache ==> NoEmpty(cache[i])
  }

  /** No stored delta adds an object with an empty value, and no cached state holds one. */
  ghost predicate NoEmptyValues(w: World) {
    RowsNoEmpty(w.h.db.rows) && CacheNoEmpty(w.cache)
  }

  lemma {:induction false} ReplayNoEmpty(rows: map<Id, Row>, rank: map<Id, nat>, id: Id)
    requires Grounded(rows, rank) && id in rows && RowsNoEmpty(rows)
    ensures NoEmpty(Replay(rows, rank, id))
    decreases rank[id]
  {
    if rows[id].parent.Some? {
      ReplayNoEmpty(rows, rank, rows[id].parent.value);
    }
    ApplyNoEmpty(ReplayRef(rows, rank, rows[id].parent, id), rows[id].delta);
  }

  lemma ReplayOnNoEmpty(cap: nat, r: Rebuilt, id: Id, delta: Delta)
    requires NoEmpty(r.state) && CacheNoEmpty(r.cache) && DeltaNoEmpty(delta)
    ensures NoEmpty(ReplayOn(cap, r, id, delta).state) && CacheNoEmpty(ReplayOn(cap, r, id, delta).cache)
  {
    ApplyNoEmpty(r.state, delta);
  }

  lemma {:induction false} ReconNoEmpty(w: World, id: Id)
    requires Sound(w.h) && NoEmptyValues(w) && id in w.h.db.rows
    ensures var r := Recon(w.h.db.rows, w.h.rank, w.cap, w.cache, id); NoEmpty(r.state) && CacheNoEmpty(r.cache)
    decreases w.h.rank[id]
  {
    if id !in w.cache {
      var row := w.h.db.rows[id];
      if row.parent.Some? {
        ReconNoEmpty(w, row.parent.value);
      }
      ReplayOnNoEmpty(w.cap, ReconRef(w.h.db.rows, w.h.rank, w.cap, w.cache, row.parent, id), id, row.delta);
    }
  }

  /** Then reconstruct gives exactly the replay. */
  lemma FetchExact(w: World, id: Id)
    requires Inv(w) && w.h.intact && NoEmptyValues(w) && id in w.h.db.rows
    ensures Fetch(w, id).state == Some(Replay(w.h.db.rows, w.h.rank, id))
  {
    FetchOk(w, id);
    ReplayNoEmpty(w.h.db.rows, w.h.rank, id);
    ReconNoEmpty(w, id);
    SameStateExact(Fetch(w, id).state.value, Replay(w.h.db.rows, w.h.rank, id));
  }

  // ---------------------------------------------------------------- tokens: prepared work

  datatype PendingHeadUpdate = PendingHeadUpdate(
    levelKey: LevelKey,
    parent: Option<Id>,
    parentPendingIx: Option<nat>,
    reverts: Option<Id>,
    message: string,
    delta: Delta,
    cacheState: Option<LevelState>)

  /** What a prepare hands to its finalize, together with the state the editor was given. */
  datatype Token =
    | HeadToken(p: PendingHeadUpdate, applied: LevelState)
    | SquashToken(a: SquashArgs, applied: LevelState)
    | ReplaceToken(dest: LevelKey, src: LevelKey, applied: LevelState, srcHead: Id)  // srcHead: history variable
    | ImportToken(commits: seq<PendingHeadUpdate>)

  ghost predicate Minted(h: Ranked, ref: Option<Id>) {
    ref.Some? ==> ref.value in h.rank
  }

  ghost predicate RefLevel(h: Ranked, ref: Option<Id>, key: LevelKey) {
    ref.Some? ==> LevelIfThere(h.db, ref.value, key)
  }

  ghost predicate HeadPromise(h: Ranked, p: PendingHeadUpdate, applied: LevelState)
    requires Sound(h)
  {
    && p.parent.Some? && p.parentPendingIx.None? && p.cacheState.None?
    && Minted(h, p.parent) && Minted(h, p.reverts)
    && RefLevel(h, p.parent, p.levelKey) && RefLevel(h, p.reverts, p.levelKey)
    && (RefOk(h.db.rows, p.parent) ==> Agree(h.intact, Apply(StateAt(h.db.rows, h.rank, p.parent), p.delta), applied))
  }

  ghost predicate ReplacePromise(h: Ranked, dest: LevelKey, src: LevelKey, applied: LevelState, srcHead: Id)
    requires Sound(h)
  {
    && dest != src && srcHead in h.rank
    && (srcHead in h.db.rows ==> Agree(h.intact, Replay(h.db.rows, h.rank, srcHead), applied))
  }

  /** The shape of a pending import chain: each entry continues the one before it. */
  ghost predicate ChainShape(commits: seq<PendingHeadUpdate>) {
    && commits != []
    && (forall i :: 0 <= i < |commits| ==> ChainEntry(commits, i))
    && commits[|commits| - 1].cacheState.Some?
  }

  ghost predicate ChainEntry(commits: seq<PendingHeadUpdate>, i: nat)
    requires i < |commits|
  {
    var p := commits[i];
    && p.levelKey == commits[0].levelKey && p.reverts.None?
    && (if i == 0 then p.parentPendingIx.None? else p.parentPendingIx == Some(i - 1))
    && (p.cacheState.Some? ==> i == |commits| - 1)
  }

  /** The deltas of the first `n` entries replayed in order. */
  function ReplayAll(s: LevelState, commits: seq<PendingHeadUpdate>, n: nat): LevelState
    requires n <= |commits|
  {
    if n == 0 then s else Apply(ReplayAll(s, commits, n - 1), commits[n - 1].delta)
  }

  ghost predicate ImportPromise(h: Ranked, commits: seq<PendingHeadUpdate>)
    requires Sound(h)
  {
    && ChainShape(commits)
    && Minted(h, commits[0].parent) && RefLevel(h, commits[0].parent, commits[0].levelKey)
    && (RefOk(h.db.rows, commits[0].parent) ==>
          Agree(h.intact, ReplayAll(StateAt(h.db.rows, h.rank, commits[0].parent), commits, |commits|),
                commits[|commits| - 1].cacheState.value))
  }

  /** What a token guarantees from its prepare on, whatever runs before its finalize. */
  ghost predicate Promise(h: Ranked, tok: Token) {
    Sound(h) &&
    match tok
    case HeadToken(p, applied) => HeadPromise(h, p, applied)
    case SquashToken(a, applied) => SquashPromise(h, a, applied)
    case ReplaceToken(dest, src, applied, srcHead) => ReplacePromise(h, dest, src, applied, srcHead)
    case ImportToken(commits) => ImportPromise(h, commits)
  }

  lemma EvolvedState(a: Ranked, b: Ranked, i: Id)
    requires Evolves(a, b) && i in a.rank && i in b.db.rows
    ensures i in a.db.rows && b.db.rows[i].level == a.db.rows[i].level && ParentKept(a.db, b.db, i)
    ensures Agree(b.intact, Replay(b.db.rows, b.rank, i), Replay(a.db.rows, a.rank, i))
  {
    assert i < a.db.nextId;
    assert SameReplay(a, b, i);
  }

  /** A state at an issued reference is kept while the reference exists. */
  lemma EvolvedStateAt(a: Ranked, b: Ranked, ref: Option<Id>)
    requires Evolves(a, b) && Minted(a, ref) && RefOk(b.db.rows, ref)
    ensures RefOk(a.db.rows, ref)
    ensures Agree(b.intact, StateAt(b.db.rows, b.rank, ref), StateAt(a.db.rows, a.rank, ref))
  {
    if ref.Some? {
      var i: Id := ref.value;
      EvolvedState(a, b, i);
    }
  }

  lemma EvolvedLevel(a: Ranked, b: Ranked, ref: Option<Id>, key: LevelKey)
    requires Evolves(a, b) && Minted(a, ref) && RefLevel(a, ref, key)
    ensures Minted(b, ref) && RefLevel(b, ref, key)
  {
    if ref.Some? {
      var i: Id := ref.value;
      assert i in a.rank && i in b.rank;
      if i in b.db.rows {
        EvolvedState(a, b, i);
      }
    }
  }

  lemma {:induction false} ReplayAllAgrees(intact: bool, s: LevelState, t: LevelState, commits: seq<PendingHeadUpdate>,
                                           n: nat)
    requires n <= |commits| && Agree(intact, s, t)
    ensures Agree(intact, ReplayAll(s, commits, n), ReplayAll(t, commits, n))
  {
    if n > 0 {
      ReplayAllAgrees(intact, s, t, commits, n - 1);
      var s1, t1, d := ReplayAll(s, commits, n - 1), ReplayAll(t, commits, n - 1), commits[n - 1].delta;
      assert ReplayAll(s, commits, n) == Apply(s1, d) && ReplayAll(t, commits, n) == Apply(t1, d);
      AgreeApply(intact, s1, t1, d);
    }
  }

  lemma HeadsStayOutside(a: Ranked, b: Ranked, args: SquashArgs, applied: LevelState, k: LevelKey)
    requires Evolves(a, b) && SquashPromise(a, args, applied) && k in b.db.heads
    ensures HeadOutside(args, b.db.heads[k])
  {
    var head: Id := b.db.heads[k];
    if head >= a.db.nextId {
      forall i | i in args.ids ensures i != head {
        assert i in a.rank;
      }
      if args.parentOfOldest.Some? {
        assert BaseBelow(a, args.parentOfOldest.value, args.Newest());
      }
    }
  }

  lemma SquashStatesStable(a: Ranked, b: Ranked, args: SquashArgs, applied: LevelState)
    requires Evolves(a, b) && SquashPromise(a, args, applied)
    ensures RefOk(b.db.rows, args.parentOfOldest) ==>
              Agree(b.intact, Apply(StateAt(b.db.rows, b.rank, args.parentOfOldest), args.delta), applied)
    ensures args.Newest() in b.db.rows ==> Agree(b.intact, Replay(b.db.rows, b.rank, args.Newest()), applied)
  {
    if RefOk(b.db.rows, args.parentOfOldest) {
      if args.parentOfOldest.Some? {
        assert BaseBelow(a, args.parentOfOldest.value, args.Newest());
      }
      EvolvedStateAt(a, b, args.parentOfOldest);
      AgreeApply(b.intact, StateAt(b.db.rows, b.rank, args.parentOfOldest),
                 StateAt(a.db.rows, a.rank, args.parentOfOldest), args.delta);
    }
    var newest: Id := args.Newest();
    assert newest in args.ids && newest in a.rank;
    if newest in b.db.rows {
      EvolvedState(a, b, newest);
    }
  }

  lemma SquashPromiseStable(a: Ranked, b: Ranked, args: SquashArgs, applied: LevelState)
    requires Evolves(a, b) && SquashPromise(a, args, applied)
    ensures SquashPromise(b, args, applied)
  {
    forall i | i in args.ids ensures i in b.rank && LevelIfThere(b.db, i, args.key) {
      EvolvedLevel(a, b, Some(i), args.key);
    }
    forall k | k in b.db.heads ensures HeadOutside(args, b.db.heads[k]) {
      HeadsStayOutside(a, b, args, applied, k);
    }
    if args.parentOfOldest.Some? {
      var p: Id := args.parentOfOldest.value;
      assert BaseBelow(a, p, args.Newest());
      assert BaseBelow(b, p, args.Newest());
      EvolvedLevel(a, b, Some(p), args.key);
    }
    RangeStaysKept(a, b, args);
    SquashStatesStable(a, b, args, applied);
  }

  lemma RangeStaysKept(a: Ranked, b: Ranked, args: SquashArgs)
    requires Evolves(a, b) && RangeKept(a.db.rows, args) && forall i :: i in args.ids ==> i in a.rank
    requires args.parentOfOldest.Some? ==> args.parentOfOldest.value in a.rank
    ensures RangeKept(b.db.rows, args)
  {
    forall j | 0 <= j < |args.ids| && args.ids[j] in b.db.rows ensures ParentInRange(b.db.rows, args, j) {
      var i: Id := args.ids[j];
      EvolvedState(a, b, i);
      assert ParentInRange(a.db.rows, args, j) && ParentKept(a.db, b.db, i);
    }
  }

  lemma HeadPromiseStable(a: Ranked, b: Ranked, p: PendingHeadUpdate, applied: LevelState)
    requires Evolves(a, b) && HeadPromise(a, p, applied)
    ensures HeadPromise(b, p, applied)
  {
    EvolvedLevel(a, b, p.parent, p.levelKey);
    EvolvedLevel(a, b, p.reverts, p.levelKey);
    if RefOk(b.db.rows, p.parent) {
      EvolvedStateAt(a, b, p.parent);
      AgreeApply(b.intact, StateAt(b.db.rows, b.rank, p.parent), StateAt(a.db.rows, a.rank, p.parent), p.delta);
    }
  }

  lemma ReplacePromiseStable(a: Ranked, b: Ranked, dest: LevelKey, src: LevelKey, applied: LevelState, srcHead: Id)
    requires Evolves(a, b) && ReplacePromise(a, dest, src, applied, srcHead)
    ensures ReplacePromise(b, dest, src, applied, srcHead)
  {
    if srcHead in b.db.rows {
      EvolvedState(a, b, srcHead);
    }
  }

  lemma ImportPromiseStable(a: Ranked, b: Ranked, commits: seq<PendingHeadUpdate>)
    requires Evolves(a, b) && ImportPromise(a, commits)
    ensures ImportPromise(b, commits)
  {
    EvolvedLevel(a, b, commits[0].parent, commits[0].levelKey);
    if RefOk(b.db.rows, commits[0].parent) {
      EvolvedStateAt(a, b, commits[0].parent);
      ReplayAllAgrees(b.intact, StateAt(b.db.rows, b.rank, commits[0].parent),
                      StateAt(a.db.rows, a.rank, commits[0].parent), commits, |commits|);
    }
  }

  /** No step can break a token's promise. */
  lemma PromiseStable(a: Ranked, b: Ranked, tok: Token)
    requires Evolves(a, b) && Promise(a, tok)
    ensures Promise(b, tok)
  {
    match tok
    case HeadToken(p, applied) => HeadPromiseStable(a, b, p, applied);
    case SquashToken(args, applied) => SquashPromiseStable(a, b, args, applied);
    case ReplaceToken(dest, src, applied, srcHead) => ReplacePromiseStable(a, b, dest, src, applied, srcHead);
    case ImportToken(commits) => ImportPromiseStable(a, b, commits);
  }
}
