/** One worker job at a time: the steps of the history service and what each of them keeps. */
module ServiceSteps {
  import opened Prelude
  import opened LevelModel
  import opened Differ
  import opened DifferLaws
  import opened Tables
  import opened History
  import opened SquashHistory
  import opened ServiceModel
  import opened StoreInvariants

  const INSERT_FAILED := "commit transaction failed"

  /** `w2` may follow `w`: history kept, graph shape kept, cache coherent. */
  ghost predicate Keeps(w: World, w2: World) {
    Inv(w2) && Evolves(w.h, w2.h) && w2.cap == w.cap
  }

  lemma KeepsTrans(a: World, b: World, c: World)
    requires Keeps(a, b) && Keeps(b, c)
    ensures Keeps(a, c)
  {
    EvolvesTrans(a.h, b.h, c.h);
  }

  lemma CoherentEvolves(a: Ranked, b: Ranked, cache: map<Id, LevelState>)
    requires Evolves(a, b) && Coherent(a, cache)
    ensures Coherent(b, cache)
  {
    forall i | i in cache ensures EntryOk(b, i, cache[i]) {
      assert EntryOk(a, i, cache[i]);
      if i in b.db.rows {
        EvolvedState(a, b, i);
      }
    }
  }

  lemma FetchKeeps(w: World, id: Id)
    requires Inv(w)
    ensures Keeps(w, Fetch(w, id).w)
  {
    FetchOk(w, id);
    EvolvesRefl(w.h);
  }

  // ---------------------------------------------------------------- inserting a commit as the new HEAD

  datatype Insertion = Insertion(r: Result<Id>, w: World)

  /** `insertAndSetHead`, then `cachePut` if there is a state to cache. */
  ghost function InsertThen(w: World, row: Row, cacheState: Option<LevelState>): Insertion {
    if FkOk(InsertHead(w.h.db, row)) then
      var id := w.h.db.nextId;
      Insertion(Ok(id), World(Inserted(w.h, row),
                              if cacheState.Some? then CachePut(w.cache, w.cap, id, cacheState.value) else w.cache,
                              w.cap))
    else Insertion(Err(INSERT_FAILED), w)
  }

  /** References of the row were issued, and stay in the row's level. */
  ghost predicate RowFits(h: Ranked, row: Row) {
    && Minted(h, row.parent) && Minted(h, row.reverts)
    && RefLevel(h, row.parent, row.level) && RefLevel(h, row.reverts, row.level)
  }

  lemma InsertThenKeeps(w: World, row: Row, cacheState: Option<LevelState>)
    requires Inv(w) && RowFits(w.h, row)
    requires cacheState.Some? && RefOk(w.h.db.rows, row.parent) ==>
               Agree(w.h.intact, Apply(StateAt(w.h.db.rows, w.h.rank, row.parent), row.delta), cacheState.value)
    ensures var ins := InsertThen(w, row, cacheState);
            && Keeps(w, ins.w)
            && (ins.r.Ok? <==> RefOk(w.h.db.rows, row.parent) && RefOk(w.h.db.rows, row.reverts))
            && (ins.r.Ok? ==> ins.r.value == w.h.db.nextId && ins.w.h == Inserted(w.h, row) && NewState(w, ins.w, row))
  {
    if FkOk(InsertHead(w.h.db, row)) {
      var db2 := InsertHead(w.h.db, row);
      assert db2.rows[w.h.db.nextId] == row;
      assert RefOk(db2.rows, row.parent) && RefOk(db2.rows, row.reverts);
      InsertRefs(w.h, row, row.parent);
      InsertRefs(w.h, row, row.reverts);
      InsertKeepsInv(w.h, row);
      InsertEvolves(w.h, row);
      CoherentEvolves(w.h, Inserted(w.h, row), w.cache);
      if cacheState.Some? {
        CachePutCoherent(Inserted(w.h, row), w.cache, w.cap, w.h.db.nextId, cacheState.value);
      }
    } else {
      EvolvesRefl(w.h);
      if RefOk(w.h.db.rows, row.parent) && RefOk(w.h.db.rows, row.reverts) {
        InsertFk(w.h, row);
      }
    }
  }

  /** The inserted commit replays to its delta applied to the parent's state. */
  ghost predicate NewState(w: World, w2: World, row: Row)
    requires Sound(w.h) && Sound(w2.h)
  {
    var id := w.h.db.nextId;
    id in w2.h.db.rows && RefOk(w.h.db.rows, row.parent) &&
    Replay(w2.h.db.rows, w2.h.rank, id) == Apply(StateAt(w.h.db.rows, w.h.rank, row.parent), row.delta)
  }

  // ---------------------------------------------------------------- commit

  /** `commit`, given the captured state: `base` is the reconstructed HEAD, or the empty state without one. */
  ghost predicate CommitStep(w: World, key: LevelKey, message: string, now: int, base: LevelState,
                             incoming: LevelState, delta: Delta, r: Result<Id>, w2: World)
    requires Sound(w.h)
  {
    if key in w.h.db.heads then
      var f := Fetch(w, w.h.db.heads[key]);
      f.state == Some(base) && IsDiff(base, incoming, delta) &&
      Insertion(r, w2) == InsertThen(f.w, Row(key, Some(w.h.db.heads[key]), None, message, now, delta), Some(incoming))
    else
      base == EMPTY_STATE && IsDiff(base, incoming, delta) &&
      Insertion(r, w2) == InsertThen(w, Row(key, None, None, message, now, delta), Some(incoming))
  }

  /** A commit always goes through, and the new HEAD replays to what was captured. */
  lemma CommitKeeps(w: World, key: LevelKey, message: string, now: int, base: LevelState,
                    incoming: LevelState, delta: Delta, r: Result<Id>, w2: World)
    requires Inv(w) && CommitStep(w, key, message, now, base, incoming, delta, r, w2)
    ensures Keeps(w, w2) && r.Ok? && r.value in w2.h.db.rows && key in w2.h.db.heads && w2.h.db.heads[key] == r.value
    ensures w2.h.intact == w.h.intact && Agree(w.h.intact, Replay(w2.h.db.rows, w2.h.rank, r.value), incoming)
  {
    if key in w.h.db.heads {
      var head: Id := w.h.db.heads[key];
      assert head in w.h.db.rows && w.h.db.rows[head].level == key;
      FetchOk(w, head);
      FetchKeeps(w, head);
      var f := Fetch(w, head);
      AgreeDiff(w.h.intact, Replay(w.h.db.rows, w.h.rank, head), base, incoming, delta);
      InsertThenKeeps(f.w, Row(key, Some(head), None, message, now, delta), Some(incoming));
      KeepsTrans(w, f.w, w2);
    } else {
      DiffApply(EMPTY_STATE, incoming, delta);
      InsertThenKeeps(w, Row(key, None, None, message, now, delta), Some(incoming));
    }
  }

  // ---------------------------------------------------------------- checkout and revert

  ghost predicate PrepareCheckoutStep(w: World, key: LevelKey, target: Id, r: Result<LevelState>,
                                      tok: Option<Token>, w2: World)
    requires Inv(w)
  {
    if key !in w.h.db.heads then r.Err? && tok.None? && w2 == w
    else if w.h.db.heads[key] == target then
      var f := Fetch(w, target);
      w2 == f.w && tok.None? && (if f.state.Some? then r == Ok(f.state.value) else r.Err?)
    else
      FetchOk(w, w.h.db.heads[key]);
      var f := Fetch(w, w.h.db.heads[key]);
      var g := Fetch(f.w, target);
      w2 == g.w &&
      if f.state.None? || g.state.None? || !LevelIfThere(w.h.db, target, key) then r.Err? && tok.None?
      else r == Ok(g.state.value) && tok.Some? &&
           IsHeadToken(tok.value, key, w.h.db.heads[key], target, f.state.value, g.state.value)
  }

  /** A pending HEAD update on `head` whose delta leads from `from` to `to`. */
  ghost predicate IsHeadToken(tok: Token, key: LevelKey, head: Id, target: Id, from: LevelState, to: LevelState) {
    tok.HeadToken? && tok.applied == to &&
    tok.p == PendingHeadUpdate(key, Some(head), None, Some(target), tok.p.message, tok.p.delta, None) &&
    IsDiff(from, to, tok.p.delta)
  }

  lemma HeadTokenPromised(h: Ranked, tok: Token, key: LevelKey, head: Id, target: Id, from: LevelState, to: LevelState)
    requires StoreInv(h) && IsHeadToken(tok, key, head, target, from, to)
    requires head in h.db.rows && h.db.rows[head].level == key && Agree(h.intact, from, Replay(h.db.rows, h.rank, head))
    requires target in h.rank && LevelIfThere(h.db, target, key)
    ensures Promise(h, tok)
  {
    AgreeDiff(h.intact, Replay(h.db.rows, h.rank, head), from, to, tok.p.delta);
  }

  lemma PrepareCheckoutKeeps(w: World, key: LevelKey, target: Id, r: Result<LevelState>, tok: Option<Token>, w2: World)
    requires Inv(w) && PrepareCheckoutStep(w, key, target, r, tok, w2)
    ensures Keeps(w, w2) && (tok.Some? ==> Promise(w2.h, tok.value))
  {
    if key !in w.h.db.heads {
      EvolvesRefl(w.h);
    } else {
      var head: Id := w.h.db.heads[key];
      assert head in w.h.db.rows && w.h.db.rows[head].level == key;
      FetchOk(w, head);
      FetchKeeps(w, head);
      if head != target {
        var f := Fetch(w, head);
        FetchOk(f.w, target);
        FetchKeeps(f.w, target);
        KeepsTrans(w, f.w, w2);
        if tok.Some? {
          HeadTokenPromised(w2.h, tok.value, key, head, target, f.state.value, Fetch(f.w, target).state.value);
        }
      }
    }
  }

  datatype RevertPayload = RevertPayload(state: LevelState, conflicts: seq<Conflict>)

  /** Parent, target and HEAD states as `prepareRevert` reconstructs them. */
  datatype RevertStates = RevertStates(parent: LevelState, target: LevelState, head: LevelState, w: World)

  ghost function RevertFetch(w: World, parent: Id, target: Id, head: Id): (s: RevertStates)
    requires Inv(w) && parent in w.h.db.rows && target in w.h.db.rows && head in w.h.db.rows
    ensures Keeps(w, s.w) && s.w.h == w.h
    ensures Agree(w.h.intact, s.parent, Replay(w.h.db.rows, w.h.rank, parent))
    ensures Agree(w.h.intact, s.target, Replay(w.h.db.rows, w.h.rank, target))
    ensures Agree(w.h.intact, s.head, Replay(w.h.db.rows, w.h.rank, head))
  {
    FetchOk(w, parent); FetchKeeps(w, parent);
    var p := Fetch(w, parent);
    FetchOk(p.w, target); FetchKeeps(p.w, target);
    var t := Fetch(p.w, target);
    FetchOk(t.w, head); FetchKeeps(t.w, head);
    var h := Fetch(t.w, head);
    KeepsTrans(w, p.w, t.w);
    KeepsTrans(w, t.w, h.w);
    RevertStates(p.state.value, t.state.value, h.state.value, h.w)
  }

  ghost predicate CanRevert(db: Db, key: LevelKey, target: Id) {
    key in db.heads && target in db.rows && db.rows[target].level == key && db.rows[target].parent.Some?
  }

  ghost predicate PrepareRevertStep(w: World, key: LevelKey, target: Id, r: Result<RevertPayload>,
                                    tok: Option<Token>, w2: World)
    requires Inv(w)
  {
    if !CanRevert(w.h.db, key, target) then r.Err? && tok.None? && w2 == w
    else
      var parent: Id := w.h.db.rows[target].parent.value;
      RevertRefs(w, key, target);
      var s := RevertFetch(w, parent, target, w.h.db.heads[key]);
      w2 == s.w && r.Ok? && tok.Some? &&
      Undoes(s, r.value) &&
      IsHeadToken(tok.value, key, w.h.db.heads[key], target, s.head, r.value.state)
  }

  /** The payload is diff(target, parent) applied to HEAD, with the conflicts it met. */
  ghost predicate Undoes(s: RevertStates, r: RevertPayload) {
    exists undo :: IsDiff(s.target, s.parent, undo) && r == RevertPayload(Apply(s.head, undo), Conflicts(s.head, undo))
  }

  lemma RevertRefs(w: World, key: LevelKey, target: Id)
    requires Inv(w) && CanRevert(w.h.db, key, target)
    ensures w.h.db.rows[target].parent.value in w.h.db.rows
    ensures w.h.db.heads[key] in w.h.db.rows && w.h.db.rows[w.h.db.heads[key]].level == key
  {
    assert RefOk(w.h.db.rows, w.h.db.rows[target].parent);
  }

  lemma PrepareRevertKeeps(w: World, key: LevelKey, target: Id, r: Result<RevertPayload>, tok: Option<Token>, w2: World)
    requires Inv(w) && PrepareRevertStep(w, key, target, r, tok, w2)
    ensures Keeps(w, w2) && (tok.Some? ==> Promise(w2.h, tok.value))
  {
    if !CanRevert(w.h.db, key, target) {
      EvolvesRefl(w.h);
    } else {
      var parent: Id, head: Id := w.h.db.rows[target].parent.value, w.h.db.heads[key];
      RevertRefs(w, key, target);
      var s := RevertFetch(w, parent, target, head);
      HeadTokenPromised(w2.h, tok.value, key, head, target, s.head, r.value.state);
    }
  }

  ghost predicate FinalizeHeadStep(w: World, p: PendingHeadUpdate, applied: LevelState, now: int, r: Result<Id>,
                                   w2: World)
  {
    Insertion(r, w2) == InsertThen(w, Row(p.levelKey, p.parent, p.reverts, p.message, now, p.delta), Some(applied))
  }

  /** Finalizing a checkout or revert puts exactly the previewed state on top, or changes nothing. */
  lemma FinalizeHeadKeeps(w: World, p: PendingHeadUpdate, applied: LevelState, now: int, r: Result<Id>, w2: World)
    requires Inv(w) && Promise(w.h, HeadToken(p, applied)) && FinalizeHeadStep(w, p, applied, now, r, w2)
    ensures Keeps(w, w2) && w2.h.intact == w.h.intact
    ensures r.Ok? <==> RefOk(w.h.db.rows, p.parent) && RefOk(w.h.db.rows, p.reverts)
    ensures r.Ok? ==> r.value in w2.h.db.rows && Agree(w.h.intact, Replay(w2.h.db.rows, w2.h.rank, r.value), applied)
    ensures r.Err? ==> w2 == w
  {
    InsertThenKeeps(w, Row(p.levelKey, p.parent, p.reverts, p.message, now, p.delta), Some(applied));
  }

  // ---------------------------------------------------------------- squash

  ghost predicate CanSquash(db: Db, key: LevelKey, ids: seq<Id>) {
    && |ids| >= 2
    && (forall j :: 0 <= j < |ids| ==> ids[j] in db.rows && db.rows[ids[j]].level == key)
    && (forall j :: 1 <= j < |ids| ==> db.rows[ids[j]].parent == Some(ids[j - 1]))
  }

  /** Base and target states as `prepareSquash` reconstructs them. */
  datatype SquashStates = SquashStates(base: LevelState, target: LevelState, w: World)

  ghost function SquashFetch(w: World, base: Option<Id>, target: Id): (s: SquashStates)
    requires Sound(w.h) && RefOk(w.h.db.rows, base) && target in w.h.db.rows
    ensures s.w.h == w.h
  {
    var b := if base.None? then Fetched(Some(EMPTY_STATE), w) else Fetch(w, base.value);
    var t := Fetch(b.w, target);
    SquashStates(b.state.value, t.state.value, t.w)
  }

  lemma SquashFetchOk(w: World, base: Option<Id>, target: Id)
    requires Inv(w) && RefOk(w.h.db.rows, base) && target in w.h.db.rows
    ensures var s := SquashFetch(w, base, target);
            && Keeps(w, s.w)
            && Agree(w.h.intact, s.base, StateAt(w.h.db.rows, w.h.rank, base))
            && Agree(w.h.intact, s.target, Replay(w.h.db.rows, w.h.rank, target))
  {
    EvolvesRefl(w.h);
    var b := if base.None? then Fetched(Some(EMPTY_STATE), w) else Fetch(w, base.value);
    if base.Some? {
      FetchOk(w, base.value);
      FetchKeeps(w, base.value);
    }
    FetchOk(b.w, target);
    FetchKeeps(b.w, target);
    KeepsTrans(w, b.w, Fetch(b.w, target).w);
  }

  ghost predicate PrepareSquashStep(w: World, key: LevelKey, ids: seq<Id>, message: string, r: Result<LevelState>,
                                    tok: Option<Token>, w2: World)
    requires StoreInv(w.h)
  {
    if !CanSquash(w.h.db, key, ids) then r.Err? && tok.None? && w2 == w
    else
      SquashRefs(w, key, ids);
      var base := w.h.db.rows[ids[0]].parent;
      var s := SquashFetch(w, base, ids[|ids| - 1]);
      w2 == s.w && r == Ok(s.target) && tok.Some? && tok.value.SquashToken? && tok.value.applied == s.target &&
      tok.value.a == SquashArgs(key, ids, base, message, tok.value.a.delta) &&
      IsDiff(s.base, s.target, tok.value.a.delta)
  }

  lemma SquashRefs(w: World, key: LevelKey, ids: seq<Id>)
    requires StoreInv(w.h) && CanSquash(w.h.db, key, ids)
    ensures RefOk(w.h.db.rows, w.h.db.rows[ids[0]].parent)
  {
    var oldest: Id := ids[0];
    assert oldest in w.h.db.rows && RefOk(w.h.db.rows, w.h.db.rows[oldest].parent);
  }

  lemma SquashTokenPromised(h: Ranked, a: SquashArgs, base: LevelState, target: LevelState)
    requires StoreInv(h) && Contiguous(h.db, a) && IsDiff(base, target, a.delta) && RefOk(h.db.rows, a.parentOfOldest)
    requires Agree(h.intact, base, StateAt(h.db.rows, h.rank, a.parentOfOldest))
    requires Agree(h.intact, target, Replay(h.db.rows, h.rank, a.Newest()))
    ensures SquashPromise(h, a, target)
  {
    RangeDistinct(h, a);
    forall i | i in a.ids ensures i in h.rank && LevelIfThere(h.db, i, a.key) {
      var j :| 0 <= j < |a.ids| && a.ids[j] == i;
    }
    forall k | k in h.db.heads ensures HeadOutside(a, h.db.heads[k]) {
      RangeHeads(h, a, k);
    }
    if a.parentOfOldest.Some? {
      var oldest: Id := a.ids[0];
      assert oldest in h.db.rows && StaysInLevel(h.db.rows, oldest);
    }
    AgreeDiff(h.intact, StateAt(h.db.rows, h.rank, a.parentOfOldest), base, target, a.delta);
  }

  lemma RangeHeads(h: Ranked, a: SquashArgs, k: LevelKey)
    requires StoreInv(h) && Contiguous(h.db, a) && k in h.db.heads
    ensures HeadOutside(a, h.db.heads[k])
  {
    var oldest: Id := a.ids[0];
    assert oldest in h.db.rows && h.db.rows[oldest].parent != Some(h.db.heads[k]);
    forall j | 0 <= j < |a.ids| - 1 ensures a.ids[j] != h.db.heads[k] {
      var child: Id := a.ids[j + 1];
      assert child in h.db.rows && h.db.rows[child].parent == Some(a.ids[j]);
      assert h.db.rows[child].parent != Some(h.db.heads[k]);
    }
  }

  lemma PrepareSquashKeeps(w: World, key: LevelKey, ids: seq<Id>, message: string, r: Result<LevelState>,
                           tok: Option<Token>, w2: World)
    requires Inv(w) && PrepareSquashStep(w, key, ids, message, r, tok, w2)
    ensures Keeps(w, w2) && (tok.Some? ==> Promise(w2.h, tok.value))
  {
    if !CanSquash(w.h.db, key, ids) {
      EvolvesRefl(w.h);
    } else {
      SquashRefs(w, key, ids);
      var base := w.h.db.rows[ids[0]].parent;
      var s := SquashFetch(w, base, ids[|ids| - 1]);
      SquashFetchOk(w, base, ids[|ids| - 1]);
      SquashTokenPromised(w2.h, tok.value.a, s.base, s.target);
    }
  }

  ghost predicate FinalizeSquashStep(w: World, a: SquashArgs, applied: LevelState, now: int, r: Option<Id>, w2: World) {
    if a.WellFormed() && FkOk(Squashed(w.h.db, a, now)) then
      r == Some(w.h.db.nextId) &&
      w2 == World(AfterSquash(w.h, a, now), CachePut(map[], w.cap, w.h.db.nextId, applied), w.cap)
    else r.None? && w2 == w
  }

  /** Finalizing a squash gives a commit with the previewed state, or changes nothing. */
  lemma FinalizeSquashKeeps(w: World, a: SquashArgs, applied: LevelState, now: int, r: Option<Id>, w2: World)
    requires Inv(w) && Promise(w.h, SquashToken(a, applied)) && FinalizeSquashStep(w, a, applied, now, r, w2)
    ensures Keeps(w, w2) && w2.h.intact == w.h.intact
    ensures r.Some? <==> FkOk(Squashed(w.h.db, a, now))
    ensures r.Some? ==> r.value in w2.h.db.rows && Agree(w.h.intact, Replay(w2.h.db.rows, w2.h.rank, r.value), applied)
    ensures r.None? ==> w2 == w
  {
    assert a.Newest() in a.ids && a.Newest() in w.h.rank;
    if r.Some? {
      SquashKeepsInv(w.h, a, now, applied);
      SquashEvolves(w.h, a, now, applied);
      CachePutCoherent(w2.h, map[], w.cap, w.h.db.nextId, applied);
    } else {
      EvolvesRefl(w.h);
    }
  }

  // ---------------------------------------------------------------- load-level

  ghost predicate PrepareReplaceStep(w: World, dest: LevelKey, src: LevelKey, r: Result<LevelState>,
                                     tok: Option<Token>, w2: World)
    requires Inv(w)
  {
    if dest == src || src !in w.h.db.heads then r.Err? && tok.None? && w2 == w
    else
      var head: Id := w.h.db.heads[src];
      var f := Fetch(w, head);
      w2 == f.w && f.state.Some? && r == Ok(f.state.value) &&
      tok == Some(ReplaceToken(dest, src, f.state.value, head))
  }

  lemma PrepareReplaceKeeps(w: World, dest: LevelKey, src: LevelKey, r: Result<LevelState>, tok: Option<Token>,
                            w2: World)
    requires Inv(w) && PrepareReplaceStep(w, dest, src, r, tok, w2)
    ensures Keeps(w, w2) && (tok.Some? ==> Promise(w2.h, tok.value))
  {
    if dest == src || src !in w.h.db.heads {
      EvolvesRefl(w.h);
    } else {
      var head: Id := w.h.db.heads[src];
      assert head in w.h.db.rows;
      FetchOk(w, head);
      FetchKeeps(w, head);
    }
  }

  /** HEAD of the source replays to the prepared state. */
  ghost predicate SourceShows(h: Ranked, src: LevelKey, applied: LevelState)
    requires Sound(h)
  {
    src in h.db.heads && SameState(applied, Replay(h.db.rows, h.rank, h.db.heads[src]))
  }

  ghost predicate FinalizeReplaceStep(w: World, dest: LevelKey, src: LevelKey, applied: LevelState, ok: bool,
                                      m: map<Id, Id>, w2: World)
    requires Sound(w.h)
  {
    LoadStep(w, dest, src, applied, SourceShows(w.h, src, applied), ok, m, w2)
  }

  /** `shows`: the source shows the prepared state. */
  ghost predicate LoadStep(w: World, dest: LevelKey, src: LevelKey, applied: LevelState, shows: bool, ok: bool,
                           m: map<Id, Id>, w2: World)
  {
    if ok then
      && Copied(w.h.db, w2.h.db, dest, src, m) && FkOk(w2.h.db)
      && w2 == LoadedWorld(w, w2.h.db, m, shows, w2.h.db.heads[dest], applied)
    else w2 == w
  }

  /** The service after its tables have become `after`; `head` is the copied HEAD. */
  ghost function LoadedWorld(w: World, after: Db, m: map<Id, Id>, shows: bool, head: Id, applied: LevelState): World {
    World(Ranked(after, CopiedRank(w.h, after, m), w.h.intact && shows), CachePut(map[], w.cap, head, applied), w.cap)
  }

  /** HEAD of the source is the one the prepared state was taken from. */
  ghost predicate SourceUnmoved(db: Db, src: LevelKey, srcHead: Id) {
    src in db.heads && db.heads[src] == srcHead
  }

  /** It still shows it if it is the HEAD the prepare saw; a squash in between moves HEAD and keeps its state. */
  lemma UnmovedShows(h: Ranked, dest: LevelKey, src: LevelKey, applied: LevelState, srcHead: Id)
    requires Promise(h, ReplaceToken(dest, src, applied, srcHead)) && h.intact && SourceUnmoved(h.db, src, srcHead)
    ensures SourceShows(h, src, applied)
  {
    assert h.db.heads[src] in h.db.rows;
  }

  lemma SquashKeepsShowing(h: Ranked, a: SquashArgs, now: int, squashed: LevelState, src: LevelKey, applied: LevelState)
    requires SquashPromise(h, a, squashed) && 0 < h.db.nextId && FkOk(h.db) && FkOk(Squashed(h.db, a, now))
    requires h.intact && SourceShows(h, src, applied)
    ensures Sound(AfterSquash(h, a, now)) && SourceShows(AfterSquash(h, a, now), src, applied)
  {
    SquashHeads(h, a, now, squashed, src);
  }

  /** Every cached commit that exists holds its full replay. */
  ghost predicate CacheRight(h: Ranked, cache: map<Id, LevelState>)
    requires Sound(h)
  {
    forall i :: i in cache && i in h.db.rows ==> SameState(cache[i], Replay(h.db.rows, h.rank, i))
  }

  /** The same store, no longer intact. */
  lemma SpoiltEvolves(a: Ranked, b: Ranked)
    requires Evolves(a, b)
    ensures Evolves(a, b.(intact := false))
  {
    var c := b.(intact := false);
    forall i | i in c.db.rows && i < a.db.nextId
      ensures i in a.db.rows && c.db.rows[i].level == a.db.rows[i].level && ParentKept(a.db, c.db, i) &&
              SameReplay(a, c, i)
    {
      assert SameReplay(a, b, i);
    }
  }

  /** The load's effect on the store: it may follow, and the copied HEAD replays to the source HEAD's state. */
  lemma LoadEvolves(h: Ranked, dest: LevelKey, src: LevelKey, m: map<Id, Id>, h2: Ranked)
    requires StoreInv(h) && Copied(h.db, h2.db, dest, src, m) && FkOk(h2.db) && h2.rank == CopiedRank(h, h2.db, m)
    requires h2.intact ==> h.intact
    ensures StoreInv(h2) && Evolves(h, h2) && src in h.db.heads && h.db.heads[src] in h.db.rows
    ensures dest in h2.db.heads && h2.db.heads[dest] in h2.db.rows
    ensures Replay(h2.db.rows, h2.rank, h2.db.heads[dest]) == Replay(h.db.rows, h.rank, h.db.heads[src])
  {
    var g := CopiedStore(h, h2.db, m);
    CopyKeepsInv(h, h2.db, dest, src, m);
    CopyEvolves(h, h2.db, dest, src, m);
    var srcHead: Id := h.db.heads[src];
    assert srcHead in m && CopyReplays(h, g, m, srcHead);
    assert h2 == g || h2 == g.(intact := false);
    SpoiltEvolves(h, g);
  }

  /** A cache with the one entry `head`. */
  lemma OneEntry(h: Ranked, head: Id, applied: LevelState)
    requires Sound(h) && head in h.db.rows
    requires h.intact ==> SameState(applied, Replay(h.db.rows, h.rank, head))
    ensures Coherent(h, map[head := applied])
    ensures CacheRight(h, map[head := applied]) <==> SameState(applied, Replay(h.db.rows, h.rank, head))
  {
    assert head in h.rank;
    assert head in map[head := applied];
    assert EntryOk(h, head, applied);
  }

  /**
   * A load keeps the shape of the store, and its history while it is intact. The copied HEAD replays to the source
   * HEAD's state, so the one cache entry is right exactly if the source shows the prepared state.
   */
  lemma FinalizeReplaceKeeps(w: World, dest: LevelKey, src: LevelKey, applied: LevelState, ok: bool, m: map<Id, Id>,
                             w2: World)
    requires Inv(w) && FinalizeReplaceStep(w, dest, src, applied, ok, m, w2)
    ensures Keeps(w, w2)
    ensures ok ==> src in w.h.db.heads && (CacheRight(w2.h, w2.cache) <==> SourceShows(w.h, src, applied))
    ensures ok ==> dest in w2.h.db.heads && w2.h.db.heads[dest] in w2.h.db.rows &&
                   Replay(w2.h.db.rows, w2.h.rank, w2.h.db.heads[dest]) ==
                   StateAt(w.h.db.rows, w.h.rank, Some(w.h.db.heads[src]))
  {
    if ok {
      LoadEvolves(w.h, dest, src, m, w2.h);
      OneEntry(w2.h, w2.h.db.heads[dest], applied);
    } else {
      EvolvesRefl(w.h);
    }
  }

  // ---------------------------------------------------------------- delete

  ghost predicate DeleteStep(w: World, key: LevelKey, ok: bool, w2: World) {
    if FkOk(Deleted(w.h.db, key)) then ok && w2 == World(w.h.(db := Deleted(w.h.db, key)), map[], w.cap)
    else !ok && w2 == w
  }

  lemma DeleteKeeps(w: World, key: LevelKey, ok: bool, w2: World)
    requires Inv(w) && DeleteStep(w, key, ok, w2)
    ensures ok && Keeps(w, w2)
    ensures key !in w2.h.db.heads && LevelIds(w2.h.db, key) == {}
  {
    DeleteKeepsInv(w.h, key);
    DeleteEvolves(w.h, key);
  }
}
