/** The history service as an object over the store and its reconstruct cache (`src/service/GitService.cpp`). */
module GitService {
  import opened Prelude
  import opened LevelModel
  import opened Differ
  import opened Tables
  import opened TableLaws
  import opened History
  import opened SquashHistory
  import opened ServiceModel
  import opened StoreInvariants
  import opened ServiceSteps
  import opened ImportSteps
  import C = CommitStore
  import LevelParser
  import Matcher
  import I = GdgeImport
  import P = Package
  import E = GdgeExport
  import MS = MergeService

  // ---------------------------------------------------------------- the two loops of `reconstruct`

  /** Replaying the pushed rows, the last one first, on top of `base`. */
  ghost function Up(cap: nat, base: Rebuilt, chain: seq<C.CommitRow>): Rebuilt {
    if chain == [] then base else ReplayOn(cap, Up(cap, base, chain[1..]), chain[0].id, chain[0].row.delta)
  }

  lemma {:induction false} UpPush(cap: nat, base: Rebuilt, chain: seq<C.CommitRow>, r: C.CommitRow)
    ensures Up(cap, base, chain + [r]) == Up(cap, ReplayOn(cap, base, r.id, r.row.delta), chain)
  {
    if chain == [] {
      assert (chain + [r])[1..] == [];
    } else {
      UpPush(cap, base, chain[1..], r);
      assert (chain + [r])[1..] == chain[1..] + [r];
    }
  }

  // ---------------------------------------------------------------- reads in a row

  lemma {:induction false} FetchAllConcat(w: World, a: seq<Id>, b: seq<Id>)
    requires Inv(w)
    ensures FetchAll(FetchAll(w, a), b) == FetchAll(w, a + b)
    decreases |a|
  {
    if a == [] {
      assert a + b == b;
    } else {
      FetchOk(w, a[0]);
      FetchAllConcat(Fetch(w, a[0]).w, a[1..], b);
      assert (a + b)[1..] == a[1..] + b;
    }
  }

  lemma FetchOne(w: World, id: Id)
    requires Inv(w)
    ensures FetchAll(w, [id]) == Fetch(w, id).w
  {
    FetchOk(w, id);
    assert [id][1..] == [];
  }

  // ---------------------------------------------------------------- what a commit captured

  /**
   * HEAD's state, the parsed level, the level with its ids assigned, and the delta; the rest says how ids were
   * assigned.
   */
  datatype Capture = Capture(
    base: LevelState,
    parsed: LevelState,
    incoming: LevelState,
    delta: Delta,
    order: seq<Uuid>,
    picks: seq<Matcher.Pick>,
    stats: Matcher.AssignUuidStats)

  ghost predicate Captures(coord: Matcher.Coord, c: Capture) {
    Matcher.Assigned(coord, c.base.objects, c.parsed, c.incoming, c.order, c.picks, c.stats) &&
      IsDiff(c.base, c.incoming, c.delta)
  }

  // ---------------------------------------------------------------- what an import captured

  /**
   * The commits read first, the root the files are sorted by, the merge root, the running states and their origin, and
   * the pending commits.
   */
  datatype ImportCapture = ImportCapture(
    read: seq<Id>,
    planRoot: LevelState,
    root: LevelState,
    states: seq<LevelState>,
    trace: I.Trace,
    commits: seq<PendingHeadUpdate>)

  ghost predicate HeadFetched(w: World, key: LevelKey, s: LevelState, w2: World)
    requires Inv(w)
  {
    key in w.h.db.heads && Fetch(w, w.h.db.heads[key]) == Fetched(Some(s), w2)
  }

  /** The state of a commit of the level without parent; the empty state only if the level has no commits. */
  ghost predicate IsRootState(h: Ranked, key: LevelKey, s: LevelState)
    requires Sound(h)
  {
    if LevelIds(h.db, key) == {} then s == EMPTY_STATE else exists id :: IsRootOf(h, key, id, s)
  }

  /** What reading some commit of the level without parent gives; the empty state for a level without commits. */
  ghost predicate ReadsRoot(w: World, key: LevelKey, s: LevelState)
    requires Sound(w.h)
  {
    if LevelIds(w.h.db, key) == {} then s == EMPTY_STATE
    else exists id :: id in w.h.db.rows && w.h.db.rows[id].level == key && w.h.db.rows[id].parent.None? &&
           Fetch(w, id).state == Some(s)
  }

  /** What an import merges against: the empty state without a HEAD. */
  ghost predicate IsMergeRoot(h: Ranked, key: LevelKey, s: LevelState)
    requires Sound(h)
  {
    if key in h.db.heads then IsRootState(h, key, s) else s == EMPTY_STATE
  }

  /** HEAD's state, or the empty state without a HEAD. */
  ghost predicate StartsAt(h: Ranked, key: LevelKey, s: LevelState)
    requires Sound(h)
  {
    if key in h.db.heads then HeadShows(h, key, s) else s == EMPTY_STATE
  }

  /**
   * The payload is HEAD's state with the heads of the planned files merged in: those of the smart files first, if they
   * all load, then those of the sequential files that load, all against the level's root; and every file is counted.
   */
  ghost predicate MergesPlan(h: Ranked, key: LevelKey, smart: seq<I.ImportFile>, sequential: seq<I.ImportFile>,
                             files: nat, c: ImportCapture, p: I.ImportManyPayload)
    requires Sound(h)
  {
    var head := if key in h.db.heads then Some(h.db.heads[key]) else None;
    && IsMergeRoot(h, key, c.root) && I.TraceOf(smart, sequential, c.trace)
    && I.Faithful(MS.IsMerge, head, c.root, c.states, c.trace)
    && StartsAt(h, key, c.states[0]) && p.state == c.states[|c.states| - 1]
    && I.Counted(p, c.trace, files)
  }

  /** The plan sorts the files by the level's root. */
  ghost predicate ImportsFiles(h: Ranked, key: LevelKey, hash: I.Hash, files: seq<I.ImportFile>, c: ImportCapture,
                               p: I.ImportManyPayload)
    requires Sound(h)
  {
    var root := Some(c.planRoot);
    IsRootState(h, key, c.planRoot) &&
    MergesPlan(h, key, I.SmartOf(root, hash, files), I.SequentialOf(root, hash, files), |files|, c, p)
  }

  ghost predicate IsRootOf(h: Ranked, key: LevelKey, id: Id, s: LevelState)
    requires Sound(h)
  {
    id in h.db.rows && h.db.rows[id].level == key && h.db.rows[id].parent.None? &&
    Agree(h.intact, s, Replay(h.db.rows, h.rank, id))
  }

  /** The level's HEAD replays to `s` (while the history is intact). */
  ghost predicate HeadShows(h: Ranked, key: LevelKey, s: LevelState)
    requires Sound(h)
  {
    key in h.db.heads && Agree(h.intact, Replay(h.db.rows, h.rank, h.db.heads[key]), s)
  }

  ghost predicate CanCheckout(db: Db, key: LevelKey, target: Id) {
    key in db.heads && target in db.rows && db.rows[target].level == key
  }

  /** A pending update of the level's HEAD that refers to `target`. */
  ghost predicate PendingOn(db: Db, key: LevelKey, target: Id, p: PendingHeadUpdate) {
    && p.levelKey == key && p.reverts == Some(target)
    && key in db.heads && db.heads[key] in db.rows && p.parent == Some(db.heads[key]) && db.heads[key] != target
  }

  /** The new HEAD of the level: on top of the old one, with a reverts mark on `target`. */
  ghost predicate NewHead(before: Db, after: Db, key: LevelKey, target: Id, message: string, now: int) {
    key in before.heads && exists delta ::
      OnTop(before, after, before.nextId, Row(key, Some(before.heads[key]), Some(target), message, now, delta))
  }

  /** What a checkout previews is the target's state, and HEAD's own if HEAD is the target. */
  lemma CheckoutStates(w: World, key: LevelKey, target: Id, r: Result<LevelState>, tok: Option<Token>, w2: World)
    requires Inv(w) && PrepareCheckoutStep(w, key, target, r, tok, w2)
    ensures w2.h == w.h && (CanCheckout(w.h.db, key, target) ==> r.Ok?)
    ensures r.Ok? && target in w.h.db.rows ==>
              CanCheckout(w.h.db, key, target) && Agree(w.h.intact, r.value, Replay(w.h.db.rows, w.h.rank, target))
    ensures r.Ok? && tok.None? ==> CanCheckout(w.h.db, key, target) && HeadShows(w.h, key, r.value)
    ensures tok.Some? ==> tok.value.HeadToken? && PendingOn(w.h.db, key, target, tok.value.p)
    ensures tok.None? && r.Ok? ==> key in w.h.db.heads && w.h.db.heads[key] == target
  {
    if key in w.h.db.heads {
      var head: Id := w.h.db.heads[key];
      assert head in w.h.db.rows && w.h.db.rows[head].level == key;
      FetchOk(w, head);
      FetchOk(Fetch(w, head).w, target);
    }
  }

  /** Parent, target and HEAD as they replay (while the history is intact). */
  ghost predicate ReadFor(h: Ranked, key: LevelKey, target: Id, s: RevertStates)
    requires Sound(h) && CanRevert(h.db, key, target) && h.db.rows[target].parent.value in h.db.rows
  {
    && Agree(h.intact, s.parent, Replay(h.db.rows, h.rank, h.db.rows[target].parent.value))
    && Agree(h.intact, s.target, Replay(h.db.rows, h.rank, target))
    && HeadShows(h, key, s.head)
  }

  /** The payload is HEAD with the change from parent to target undone, and the conflicts that met. */
  ghost predicate UndoesOnHead(h: Ranked, key: LevelKey, target: Id, p: RevertPayload)
    requires Sound(h)
  {
    && CanRevert(h.db, key, target) && h.db.rows[target].parent.value in h.db.rows
    && exists s :: ReadFor(h, key, target, s) && Undoes(s, p)
  }

  ghost predicate CachedAt(w: World, id: Id, s: LevelState) {
    id in w.cache && w.cache[id] == s
  }

  /** Two or more commits of the level, each on top of the one before. */
  ghost predicate Range(rows: map<Id, Row>, key: LevelKey, ids: seq<Id>) {
    && |ids| >= 2
    && (forall j :: 0 <= j < |ids| ==> ids[j] in rows && rows[ids[j]].level == key)
    && (forall j :: 1 <= j < |ids| ==> rows[ids[j]].parent == Some(ids[j - 1]))
  }

  /** Some commit outside of `ids` continues one of them that is not the last. */
  ghost predicate Branch(rows: map<Id, Row>, ids: seq<Id>) {
    exists c, j :: c in rows && c !in ids && 0 <= j < |ids| - 1 && rows[c].parent == Some(ids[j])
  }

  lemma RangeIs(db: Db, key: LevelKey, ids: seq<Id>)
    ensures CanSquash(db, key, ids) <==> Range(db.rows, key, ids)
    ensures CanSquash(db, key, ids) ==> (BranchesOff(db, ids) <==> Branch(db.rows, ids))
  {
    if CanSquash(db, key, ids) && BranchesOff(db, ids) {
      var c :| OutsideChild(db, ids, c);
      var p: Id := db.rows[c].parent.value;
      assert p in ids[..|ids| - 1];
      var j :| 0 <= j < |ids| - 1 && ids[..|ids| - 1][j] == p;
      assert db.rows[c].parent == Some(ids[j]);
    }
    if c, j :| c in db.rows && c !in ids && 0 <= j < |ids| - 1 && db.rows[c].parent == Some(ids[j]) {
      assert ids[j] == ids[..|ids| - 1][j];
      assert OutsideChild(db, ids, c);
    }
  }

  /** A commit outside the range continues one inside it, other than the newest. */
  ghost predicate BranchesOff(db: Db, ids: seq<Id>) {
    ids != [] && exists c :: OutsideChild(db, ids, c)
  }

  lemma SquashGoesThrough(w: World, key: LevelKey, ids: seq<Id>, message: string, r: Result<LevelState>,
                          tok: Option<Token>, w2: World, now: int)
    requires Inv(w) && PrepareSquashStep(w, key, ids, message, r, tok, w2) && tok.Some?
    ensures CanSquash(w.h.db, key, ids) && w2.h == w.h && tok.value.SquashToken?
    ensures FkOk(Squashed(w2.h.db, tok.value.a, now)) <==> !BranchesOff(w.h.db, ids)
  {
    SquashRefs(w, key, ids);
    var a := tok.value.a;
    assert Contiguous(w.h.db, a);
    SquashSucceedsIff(w.h, a, now);
  }

  /** The range is replaced by one commit with its base as parent, the given message and the newest commit's time. */
  ghost predicate RangeReplaced(before: Db, after: Db, key: LevelKey, ids: seq<Id>, message: string, now: int) {
    && CanSquash(before, key, ids) && SquashedInto(before, after, key, ids, before.nextId)
    && before.nextId in after.rows && exists delta ::
         ReplacesRange(before, key, ids, before.rows[ids[0]].parent, message, delta, now, after.rows[before.nextId])
  }

  lemma SquashStored(w: World, key: LevelKey, ids: seq<Id>, message: string, r: Result<LevelState>,
                     tok: Option<Token>, w2: World, now: int)
    requires Inv(w) && PrepareSquashStep(w, key, ids, message, r, tok, w2) && tok.Some?
    ensures w2.h == w.h && tok.value.SquashToken?
    ensures RangeReplaced(w2.h.db, Squashed(w2.h.db, tok.value.a, now), key, ids, message, now)
  {
    SquashRefs(w, key, ids);
    var a, db := tok.value.a, w.h.db;
    SquashedTables(db, a, now);
    assert db.nextId !in a.ids;
    assert ReplacesRange(db, key, ids, db.rows[ids[0]].parent, message, a.delta, now,
                         Squashed(db, a, now).rows[db.nextId]);
  }

  /** A squash finalized in the same job as its prepare. */
  lemma SquashDone(w0: World, key: LevelKey, ids: seq<Id>, message: string, r: Result<LevelState>, tok: Option<Token>,
                   w1: World, now: int, fin: Option<Id>, w2: World)
    requires Inv(w0) && PrepareSquashStep(w0, key, ids, message, r, tok, w1) && r.Ok? && Keeps(w0, w1)
    requires tok.Some? && Promise(w1.h, tok.value)
    requires tok.value.SquashToken? && FinalizeSquashStep(w1, tok.value.a, r.value, now, fin, w2)
    ensures Keeps(w0, w2) && w2.h.intact == w0.h.intact
    ensures CanSquash(w0.h.db, key, ids) && (fin.Some? <==> !BranchesOff(w0.h.db, ids))
    ensures fin.None? ==> w2.h == w0.h
    ensures fin.Some? ==> w0.h.db.nextId in w2.h.db.rows &&
                          Agree(w2.h.intact, Replay(w2.h.db.rows, w2.h.rank, w0.h.db.nextId), r.value)
    ensures fin.Some? ==> RangeReplaced(w0.h.db, w2.h.db, key, ids, message, now) &&
                          w2.cache == map[w0.h.db.nextId := r.value]
  {
    SquashGoesThrough(w0, key, ids, message, r, tok, w1, now);
    FinalizeSquashKeeps(w1, tok.value.a, r.value, now, fin, w2);
    KeepsTrans(w0, w1, w2);
    SquashStored(w0, key, ids, message, r, tok, w1, now);
    if fin.Some? {
      SquashEntry(w1, tok.value.a, r.value, now, fin, w2);
    }
  }

  lemma SquashEntry(w: World, a: SquashArgs, applied: LevelState, now: int, fin: Option<Id>, w2: World)
    requires FinalizeSquashStep(w, a, applied, now, fin, w2) && fin.Some?
    ensures w2.h.db == Squashed(w.h.db, a, now) && w2.cache == map[w.h.db.nextId := applied]
  {
  }

  lemma RevertTokenOf(w: World, key: LevelKey, target: Id, r: Result<RevertPayload>, tok: Option<Token>, w2: World)
    requires Inv(w) && PrepareRevertStep(w, key, target, r, tok, w2) && tok.Some?
    ensures CanRevert(w.h.db, key, target) && w2.h == w.h && tok.value.HeadToken?
    ensures tok.value.p.levelKey == key && RefOk(w.h.db.rows, tok.value.p.parent) &&
            RefOk(w.h.db.rows, tok.value.p.reverts)
    ensures tok.value.p.parent == Some(w.h.db.heads[key]) && tok.value.p.reverts == Some(target)
    ensures r.Ok? && UndoesOnHead(w.h, key, target, r.value)
  {
    RevertRefs(w, key, target);
    var s := RevertFetch(w, w.h.db.rows[target].parent.value, target, w.h.db.heads[key]);
    assert ReadFor(w.h, key, target, s);
  }

  /** A finalized head update in the same job as its prepare. */
  lemma HeadUpdateDone(w0: World, w1: World, p: PendingHeadUpdate, applied: LevelState, now: int, fin: Result<Id>,
                       w2: World)
    requires Inv(w0) && Keeps(w0, w1) && Promise(w1.h, HeadToken(p, applied)) &&
             FinalizeHeadStep(w1, p, applied, now, fin, w2)
    ensures Keeps(w0, w2) && w2.h.intact == w1.h.intact
    ensures fin.Ok? <==> RefOk(w1.h.db.rows, p.parent) && RefOk(w1.h.db.rows, p.reverts)
    ensures fin.Ok? ==> HeadShows(w2.h, p.levelKey, applied)
    ensures fin.Ok? ==> OnTop(w1.h.db, w2.h.db, w1.h.db.nextId,
                              Row(p.levelKey, p.parent, p.reverts, p.message, now, p.delta)) &&
                        CachedAt(w2, w1.h.db.nextId, applied)
    ensures fin.Err? ==> w2 == w1
  {
    InsertedTables(w1.h.db, Row(p.levelKey, p.parent, p.reverts, p.message, now, p.delta));
    FinalizeHeadKeeps(w1, p, applied, now, fin, w2);
    KeepsTrans(w0, w1, w2);
  }

  lemma ReplaceDone(w0: World, w1: World, dest: LevelKey, src: LevelKey, r: Result<LevelState>, tok: Option<Token>,
                    ok: bool, m: map<Id, Id>, w2: World)
    requires Inv(w0) && PrepareReplaceStep(w0, dest, src, r, tok, w1) && tok.Some? && r.Ok?
    requires Inv(w1) && FinalizeReplaceStep(w1, dest, src, r.value, ok, m, w2)
    ensures Keeps(w0, w2) && w2.h.intact == w0.h.intact
    ensures src in w0.h.db.heads && HeadShows(w0.h, src, r.value)
    ensures ok ==> HeadShows(w2.h, dest, r.value) && LevelCopied(w0.h.db, w2.h.db, dest, src, m)
    ensures ok ==> dest in w2.h.db.heads && w2.cache == map[w2.h.db.heads[dest] := r.value]
    ensures !ok ==> w2 == w1
  {
    var head: Id := w0.h.db.heads[src];
    assert head in w0.h.db.rows;
    FetchOk(w0, head);
    PrepareReplaceKeeps(w0, dest, src, r, tok, w1);
    if w1.h.intact {
      UnmovedShows(w1.h, dest, src, r.value, head);
    }
    FinalizeReplaceKeeps(w1, dest, src, r.value, ok, m, w2);
    KeepsTrans(w0, w1, w2);
    if ok {
      CopiedHeadShows(w1, dest, src, r.value, m, w2);
      CopiedTables(w1.h.db, w2.h.db, dest, src, m);
    }
  }

  lemma CopiedHeadShows(w: World, dest: LevelKey, src: LevelKey, applied: LevelState, m: map<Id, Id>, w2: World)
    requires Inv(w) && Inv(w2) && FinalizeReplaceStep(w, dest, src, applied, true, m, w2)
    ensures HeadShows(w2.h, dest, applied)
  {
    var head: Id := w2.h.db.heads[dest];
    assert head in w2.cache && w2.cache[head] == applied;
    assert EntryOk(w2.h, head, w2.cache[head]);
    assert head in w2.h.db.rows;
  }

  /** Reads before the reads of an import are reads before it. */
  lemma ReadsBefore(w: World, before: seq<Id>, w1: World, key: LevelKey, read: seq<Id>, commits: seq<PendingHeadUpdate>,
                    states: seq<LevelState>, tok: Option<Token>, w2: World)
    requires Inv(w) && w1 == FetchAll(w, before) && PrepareImportStep(w1, key, read, commits, states, tok, w2)
    ensures PrepareImportStep(w, key, before + read, commits, states, tok, w2)
  {
    FetchAllConcat(w, before, read);
  }

  lemma LocalStart(w0: World, w1: World, key: LevelKey, read: seq<Id>, s: LevelState, w2: World)
    requires Inv(w1) && w1.h == w0.h
    requires if key in w1.h.db.heads then HeadFetched(FetchAll(w1, read), key, s, w2) else s == EMPTY_STATE && w2 == w1
    ensures w2.h == w0.h && StartsAt(w0.h, key, s)
  {
    if key in w1.h.db.heads {
      var head: Id := w1.h.db.heads[key];
      assert head in w1.h.db.rows;
      FetchOk(FetchAll(w1, read), head);
    }
  }

  lemma ImportTokenOf(w: World, key: LevelKey, read: seq<Id>, pending: seq<PendingHeadUpdate>, states: seq<LevelState>,
                      tok: Option<Token>, w2: World)
    requires Inv(w) && PrepareImportStep(w, key, read, pending, states, tok, w2) && tok.Some?
    ensures tok == Some(ImportToken(pending)) && ChainShape(pending) && pending[0].levelKey == key
    ensures pending[0].parent == if key in w.h.db.heads then Some(w.h.db.heads[key]) else None
    ensures pending[|pending| - 1].cacheState == Some(states[|pending|])
    ensures w2.h == w.h && RefOk(w.h.db.rows, pending[0].parent)
  {
    var w1 := FetchAll(w, read);
    if key in w.h.db.heads {
      FetchOk(w1, w.h.db.heads[key]);
      var head: Id := w.h.db.heads[key];
      assert head in w.h.db.rows;
    }
  }

  /** An import finalized in the same job as its prepare. */
  lemma ImportDone(w0: World, key: LevelKey, read: seq<Id>, pending: seq<PendingHeadUpdate>, states: seq<LevelState>,
                   tok: Option<Token>, w1: World, clock: nat -> int, ok: bool, w2: World)
    requires Inv(w0) && PrepareImportStep(w0, key, read, pending, states, tok, w1) && tok.Some? && Keeps(w0, w1)
    requires Promise(w1.h, ImportToken(pending)) && FinalizeImportStep(w1, pending, clock, ok, w2)
    ensures pending != [] && |states| == |pending| + 1
    ensures ok && Keeps(w0, w2) && w2.h.intact == w0.h.intact && HeadShows(w2.h, key, states[|pending|])
  {
    ImportTokenOf(w0, key, read, pending, states, tok, w1);
    FinalizeImportKeeps(w1, pending, clock, ok, w2);
    KeepsTrans(w0, w1, w2);
  }

  /** Below every commit of a level there is one without parent. */
  lemma {:induction false} RootExists(h: Ranked, key: LevelKey, id: Id) returns (root: Id)
    requires Sound(h) && OneLevel(h.db) && id in h.db.rows && h.db.rows[id].level == key
    ensures root in h.db.rows && h.db.rows[root].level == key && h.db.rows[root].parent.None?
    decreases h.rank[id]
  {
    assert StaysInLevel(h.db.rows, id) && RefBelow(h.db.rows, h.rank, h.db.rows[id].parent, id);
    if h.db.rows[id].parent.None? {
      root := id;
    } else {
      root := RootExists(h, key, h.db.rows[id].parent.value);
    }
  }

  lemma RootListed(h: Ranked, key: LevelKey, rows: seq<C.CommitRow>)
    requires Sound(h) && OneLevel(h.db) && rows != [] && C.Lists(h.db, key, rows)
    ensures exists i :: 0 <= i < |rows| && rows[i].row.parent.None?
  {
    assert rows[0] in rows;
    var id := RootExists(h, key, rows[0].id);
    assert C.CommitRow(id, h.db.rows[id]) in rows;
  }

  lemma NoneListed(db: Db, key: LevelKey, rows: seq<C.CommitRow>)
    requires C.Lists(db, key, rows)
    ensures rows == [] ==> LevelIds(db, key) == {}
  {
    if LevelIds(db, key) != {} {
      var i: Id := SomeElement(LevelIds(db, key));
      assert C.CommitRow(i, db.rows[i]) in rows;
    }
  }

  lemma RootOfListed(h: Ranked, key: LevelKey, id: Id, s: LevelState)
    requires Sound(h) && IsRootOf(h, key, id, s)
    ensures IsRootState(h, key, s)
  {
    assert id in LevelIds(h.db, key);
  }

  /** The random ids drawn are new to HEAD's state. */
  ghost predicate DrawsFor(w: World, key: LevelKey, parsed: LevelState, draws: seq<Uuid>)
    requires Inv(w)
  {
    if key in w.h.db.heads then
      FetchOk(w, w.h.db.heads[key]);
      var f := Fetch(w, w.h.db.heads[key]);
      f.state.Some? && Matcher.FreshDraws(draws, f.state.value.objects, |parsed.objects|)
    else Matcher.FreshDraws(draws, map[], |parsed.objects|)
  }

  class GitService {
    const store: C.CommitStore
    const cap: nat
    var cache: map<Id, LevelState>
    ghost var rank: map<Id, nat>
    ghost var intact: bool

    /** The state of the service as the step predicates see it. */
    ghost function W(): World
      reads this, store
    {
      World(Ranked(store.Now(), rank, intact), cache, cap)
    }

    ghost predicate Valid()
      reads this, store
    {
      store.Valid() && Inv(W())
    }

    constructor (capacity: nat)
      ensures Valid() && fresh(store) && W() == World(Ranked(Db(map[], map[], 1), map[], true), map[], capacity)
    {
      store := new C.CommitStore();
      cap, cache, rank, intact := capacity, map[], map[], true;
    }

    method Put(id: Id, s: LevelState)
      modifies this`cache
      ensures cache == CachePut(old(cache), cap, id, s)
      ensures id in old(cache) || |old(cache)| < cap ==> cache == old(cache)[id := s]
      ensures id !in old(cache) && |old(cache)| >= cap ==> cache == map[id := s]
    {
      if id in cache {
        cache := cache[id := s];
        return;
      }
      if |cache| >= cap {
        cache := map[];
      }
      cache := cache[id := s];
    }

    /** Walk down to a cached ancestor or the root, then replay upwards, caching every step. */
    method Reconstruct(id: Id) returns (r: Option<LevelState>)
      requires Valid()
      modifies this`cache
      ensures Valid() && Fetched(r, W()) == Fetch(old(W()), id)
      ensures id in store.rows ==> r.Some?
    {
      FetchOk(W(), id);
      if id in cache {
        return Some(cache[id]);
      }
      if store.GetRow(id).None? {
        return None;
      }
      ghost var goal := Recon(store.rows, rank, cap, cache, id);
      var chain, current := WalkDown(id);
      current := ReplayUp(chain, current);
      r := Some(current);
    }

    /** The pushed rows replayed, the last one first. */
    method ReplayUp(chain: seq<C.CommitRow>, start: LevelState) returns (current: LevelState)
      modifies this`cache
      ensures Rebuilt(current, cache) == Up(cap, Rebuilt(start, old(cache)), chain)
    {
      current := start;
      ghost var base := Rebuilt(current, cache);
      var n := |chain|;
      while n > 0
        invariant 0 <= n <= |chain| && Rebuilt(current, cache) == Up(cap, base, chain[n..])
        modifies this`cache
      {
        n := n - 1;
        assert chain[n..][0] == chain[n] && chain[n..][1..] == chain[n + 1..];
        var conflicts;
        current, conflicts := ApplyDelta(current, chain[n].row.delta);
        Put(chain[n].id, current);
      }
      assert chain[0..] == chain;
    }

    method WalkDown(id: Id) returns (chain: seq<C.CommitRow>, current: LevelState)
      requires Valid() && id !in cache && id in store.rows
      ensures Up(cap, Rebuilt(current, cache), chain) == Recon(store.rows, rank, cap, cache, id)
    {
      chain, current := [], EMPTY_STATE;
      var cur := id;
      while true
        invariant cur in store.rows
        invariant Up(cap, Recon(store.rows, rank, cap, cache, cur), chain) == Recon(store.rows, rank, cap, cache, id)
        decreases rank[cur]
      {
        if cur in cache {
          current := cache[cur];
          return;
        }
        var row := store.rows[cur];
        var ref := row.parent;
        UpPush(cap, ReconRef(store.rows, rank, cap, cache, ref, cur), chain, C.CommitRow(cur, row));
        chain := chain + [C.CommitRow(cur, row)];
        if ref.None? {
          return;
        }
        cur := ref.value;
      }
    }

    // -------------------------------------------------------------- commit

    method Commit(coord: Matcher.Coord, key: LevelKey, message: string, text: string, now: int, draws: seq<Uuid>)
      returns (r: Result<Id>, ghost c: Capture)
      requires Valid() && |text| < UUID_LIMIT && DrawsFor(W(), key, LevelParser.LevelOf(text), draws)
      modifies this, store
      ensures Valid() && c.parsed == LevelParser.LevelOf(text) && Captures(coord, c)
      ensures CommitStep(old(W()), key, message, now, c.base, c.incoming, c.delta, r, W())
      ensures r.Ok? && OnTop(old(store.Now()), store.Now(), r.value,
                             Row(key, old(store.GetHead(key)), None, message, now, c.delta))
    {
      ghost var w0 := W();
      var head := store.GetHead(key);
      var base := EMPTY_STATE;
      if head.Some? {
        var headState := Reconstruct(head.value);
        base := headState.value;
      }
      var parsed := LevelParser.ParseLevelString(text);
      var incoming, stats;
      ghost var order, picks;
      if head.Some? {
        incoming, stats, order, picks := Matcher.AssignUuids(coord, base.objects, parsed, draws);
      } else {
        incoming, order, picks := Matcher.AssignFreshUuids(parsed, draws);
        stats := Matcher.AssignUuidStats(0, 0, |parsed.objects|);
        Matcher.AllFresh(picks);
        Matcher.FreshIsGood(coord, parsed.objects, order, picks);
      }
      var delta := Diff(base, incoming);
      c := Capture(base, parsed, incoming, delta, order, picks, stats);
      r := InsertAndCache(Row(key, head, None, message, now, delta), Some(incoming));
      CommitKeeps(w0, key, message, now, base, incoming, delta, r, W());
    }

    /** `insertAndSetHead`, then `cachePut`. */
    method InsertAndCache(row: Row, cacheState: Option<LevelState>) returns (r: Result<Id>)
      requires store.Valid()
      modifies this, store
      ensures store.Valid() && Insertion(r, W()) == InsertThen(old(W()), row, cacheState)
      ensures r.Ok? ==> OnTop(old(store.Now()), store.Now(), r.value, row)
    {
      ghost var h := Ranked(store.Now(), rank, intact);
      r := store.InsertAndSetHead(row);
      if r.Err? {
        return Err(INSERT_FAILED);
      }
      rank := Inserted(h, row).rank;
      if cacheState.Some? {
        Put(r.value, cacheState.value);
      }
    }

    // -------------------------------------------------------------- checkout and revert

    method PrepareCheckout(key: LevelKey, target: Id)
      returns (r: Result<LevelState>, pending: Option<PendingHeadUpdate>, ghost tok: Option<Token>)
      requires Valid()
      modifies this`cache
      ensures Valid() && PrepareCheckoutStep(old(W()), key, target, r, tok, W())
      ensures pending.Some? ==> r.Ok? && tok == Some(HeadToken(pending.value, r.value))
      ensures pending.Some? ==> pending.value.message == "Checkout"
      ensures pending.None? ==> tok.None?
    {
      pending, tok := None, None;
      var head := store.GetHead(key);
      if head.None? {
        return Err("no HEAD for this level"), None, None;
      }
      if head.value == target {
        var recon := Reconstruct(target);
        r := if recon.None? then Err("reconstruct HEAD failed") else Ok(recon.value);
        return;
      }
      var headState := Reconstruct(head.value);
      var targetState := Reconstruct(target);
      if headState.None? || targetState.None? {
        return Err("checkout reconstruct failed"), None, None;
      }
      var delta := Diff(headState.value, targetState.value);
      var targetRow := store.GetRow(target);
      if targetRow.Some? && targetRow.value.level != key {
        return Err("target commit belongs to a different level"), None, None;
      }
      pending := Some(PendingHeadUpdate(key, head, None, Some(target), "Checkout", delta, None));
      r := Ok(targetState.value);
      tok := Some(HeadToken(pending.value, targetState.value));
    }

    method PrepareRevert(key: LevelKey, target: Id)
      returns (r: Result<RevertPayload>, pending: Option<PendingHeadUpdate>, ghost tok: Option<Token>)
      requires Valid()
      modifies this`cache
      ensures Valid() && PrepareRevertStep(old(W()), key, target, r, tok, W())
      ensures pending.Some? ==> r.Ok? && tok == Some(HeadToken(pending.value, r.value.state))
      ensures pending.Some? ==> pending.value.message == "Revert"
      ensures pending.None? ==> tok.None?
    {
      pending, tok := None, None;
      var head := store.GetHead(key);
      if head.None? {
        return Err("no HEAD for this level"), None, None;
      }
      var targetRow := store.GetRow(target);
      if targetRow.None? {
        return Err("target commit not found"), None, None;
      }
      if targetRow.value.level != key {
        return Err("target commit belongs to a different level"), None, None;
      }
      if targetRow.value.parent.None? {
        return Err("can't revert the initial commit (it has no parent)"), None, None;
      }
      RevertRefs(W(), key, target);
      var parentState, targetState, headState := ReconstructThree(targetRow.value.parent.value, target, head.value);
      var undo := Diff(targetState, parentState);
      var state, conflicts := ApplyDelta(headState, undo);
      var delta := Diff(headState, state);
      pending := Some(PendingHeadUpdate(key, head, None, Some(target), "Revert", delta, None));
      r := Ok(RevertPayload(state, conflicts));
      tok := Some(HeadToken(pending.value, state));
    }

    method ReconstructThree(parent: Id, target: Id, head: Id) returns (p: LevelState, t: LevelState, h: LevelState)
      requires Valid() && parent in store.rows && target in store.rows && head in store.rows
      modifies this`cache
      ensures Valid() && RevertStates(p, t, h, W()) == RevertFetch(old(W()), parent, target, head)
    {
      var parentState := Reconstruct(parent);
      var targetState := Reconstruct(target);
      var headState := Reconstruct(head);
      p, t, h := parentState.value, targetState.value, headState.value;
    }

    /** `finalizeCheckout`, which also finalizes a revert. */
    method FinalizeCheckout(pending: PendingHeadUpdate, applied: LevelState, now: int) returns (r: Result<Id>)
      requires Valid()
      modifies this, store
      ensures store.Valid() && FinalizeHeadStep(old(W()), pending, applied, now, r, W())
      ensures Promise(old(W()).h, HeadToken(pending, applied)) ==> Valid()
    {
      ghost var w0 := W();
      r := InsertAndCache(Row(pending.levelKey, pending.parent, pending.reverts, pending.message, now, pending.delta),
                          Some(applied));
      if Promise(w0.h, HeadToken(pending, applied)) {
        FinalizeHeadKeeps(w0, pending, applied, now, r, W());
      }
    }

    // -------------------------------------------------------------- squash

    method PrepareSquash(key: LevelKey, ids: seq<Id>, message: string)
      returns (r: Result<LevelState>, pending: Option<SquashArgs>, ghost tok: Option<Token>)
      requires Valid()
      modifies this`cache
      ensures Valid() && PrepareSquashStep(old(W()), key, ids, message, r, tok, W())
      ensures pending.Some? ==> r.Ok? && tok == Some(SquashToken(pending.value, r.value))
      ensures pending.None? ==> tok.None?
    {
      pending, tok := None, None;
      if |ids| < 2 {
        return Err("Squash needs at least 2 commits"), None, None;
      }
      for i := 0 to |ids|
        invariant forall j :: 0 <= j < i ==> ids[j] in store.rows && store.rows[ids[j]].level == key
      {
        var row := store.GetRow(ids[i]);
        if row.None? {
          return Err("Commit not found"), None, None;
        }
        if row.value.level != key {
          return Err("Commit belongs to a different level"), None, None;
        }
      }
      for i := 1 to |ids|
        invariant forall j :: 1 <= j < i ==> store.rows[ids[j]].parent == Some(ids[j - 1])
      {
        if store.rows[ids[i]].parent != Some(ids[i - 1]) {
          return Err("Selected commits are not contiguous"), None, None;
        }
      }
      SquashRefs(W(), key, ids);
      var parentOfOldest := store.rows[ids[0]].parent;
      var base := EMPTY_STATE;
      if parentOfOldest.Some? {
        var recon := Reconstruct(parentOfOldest.value);
        base := recon.value;
      }
      var target := Reconstruct(ids[|ids| - 1]);
      var combined := Diff(base, target.value);
      pending := Some(SquashArgs(key, ids, parentOfOldest, message, combined));
      r := Ok(target.value);
      tok := Some(SquashToken(pending.value, target.value));
    }

    method FinalizeSquash(pending: SquashArgs, applied: LevelState, now: int) returns (r: Result<Id>)
      requires Valid()
      modifies this, store
      ensures store.Valid()
      ensures FinalizeSquashStep(old(W()), pending, applied, now, if r.Ok? then Some(r.value) else None, W())
      ensures Promise(old(W()).h, SquashToken(pending, applied)) ==> Valid()
    {
      ghost var w0 := W();
      r := SquashAndCache(pending, applied, now);
      if Promise(w0.h, SquashToken(pending, applied)) {
        FinalizeSquashKeeps(w0, pending, applied, now, if r.Ok? then Some(r.value) else None, W());
      }
    }

    method SquashAndCache(a: SquashArgs, applied: LevelState, now: int) returns (r: Result<Id>)
      requires store.Valid()
      modifies this, store
      ensures store.Valid()
      ensures FinalizeSquashStep(old(W()), a, applied, now, if r.Ok? then Some(r.value) else None, W())
    {
      ghost var h := W().h;
      var newId := store.Squash(a, now);
      if newId.None? {
        return Err("DB squash failed");
      }
      rank := AfterSquash(h, a, now).rank;
      ClearReconstructCache();
      Put(newId.value, applied);
      r := Ok(newId.value);
    }

    method ClearReconstructCache()
      modifies this`cache
      ensures cache == map[]
    {
      cache := map[];
    }

    // -------------------------------------------------------------- load-level

    method PrepareImportLevelFrom(dest: LevelKey, src: LevelKey)
      returns (r: Result<LevelState>, pending: bool, ghost tok: Option<Token>)
      requires Valid()
      modifies this`cache
      ensures Valid() && PrepareReplaceStep(old(W()), dest, src, r, tok, W()) && pending == r.Ok?
    {
      pending, tok := false, None;
      if dest == src {
        return Err("source and destination are the same"), false, None;
      }
      var srcHead := store.GetHead(src);
      if srcHead.None? {
        return Err("source has no HEAD"), false, None;
      }
      var srcState := Reconstruct(srcHead.value);
      if srcState.None? {
        return Err("reconstruct source HEAD failed"), false, None;
      }
      pending, r := true, Ok(srcState.value);
      tok := Some(ReplaceToken(dest, src, srcState.value, srcHead.value));
    }

    /** Only the two keys are kept between the phases, so a source that moved leaves a stale cache entry behind. */
    method FinalizeImportLevelFrom(dest: LevelKey, src: LevelKey, applied: LevelState)
      returns (r: Result<()>, ghost m: map<Id, Id>)
      requires Valid()
      modifies this, store
      ensures Valid() && FinalizeReplaceStep(old(W()), dest, src, applied, r.Ok?, m, W())
      ensures r.Ok? ==> (CacheRight(W().h, cache) <==> SourceShows(old(W()).h, src, applied))
      ensures r.Ok? <==> dest != src && src in old(store.heads)
      ensures r.Ok? ==> LevelCopied(old(store.Now()), store.Now(), dest, src, m)
    {
      ghost var w0 := W();
      if src in store.heads {
        CopySucceeds(w0.h, dest, src);
      }
      ghost var after;
      r, m, after := CopyAndCache(w0, dest, src, applied, SourceShows(w0.h, src, applied));
      FinalizeReplaceKeeps(w0, dest, src, applied, r.Ok?, m, W());
      if r.Ok? {
        CopiedTables(w0.h.db, after, dest, src, m);
      }
    }

    method CopyAndCache(ghost w0: World, dest: LevelKey, src: LevelKey, applied: LevelState, ghost shows: bool)
      returns (r: Result<()>, ghost m: map<Id, Id>, ghost after: Db)
      requires store.Valid() && w0 == W()
      modifies this, store
      ensures store.Valid() && store.Now() == after
      ensures r.Ok? ==> Copied(w0.h.db, after, dest, src, m)
      ensures r.Ok? && dest in after.heads ==> W() == LoadedWorld(w0, after, m, shows, after.heads[dest], applied)
      ensures r.Err? ==> W() == w0 && CopyRefused(w0.h.db, dest, src)
    {
      var ok;
      ok, m := store.ReplaceLevelHistoryFrom(dest, src);
      after := store.Now();
      r := if ok then Ok(()) else Err("failed to copy level history");
      if ok {
        CacheCopiedHead(w0, dest, applied, m, shows);
      }
    }

    /** The cache after a load holds the copied HEAD alone. */
    method CacheCopiedHead(ghost w0: World, dest: LevelKey, applied: LevelState, ghost m: map<Id, Id>,
                           ghost shows: bool)
      requires w0.h.rank == rank && w0.h.intact == intact && w0.cap == cap
      modifies this
      ensures store.Now() == old(store.Now())
      ensures dest in store.heads ==> W() == LoadedWorld(w0, store.Now(), m, shows, store.heads[dest], applied)
    {
      rank, intact := CopiedRank(w0.h, store.Now(), m), intact && shows;
      ClearReconstructCache();
      var head := store.GetHead(dest);
      if head.Some? {
        Put(head.value, applied);
      }
    }

    // -------------------------------------------------------------- delete

    /** `CommitStore::deleteLevel` and the cache clear that follows it (`src/ui/LevelBrowserLayer.cpp`). */
    method DeleteLevel(key: LevelKey) returns (ok: bool)
      requires Valid()
      modifies this`cache, store
      ensures Valid() && DeleteStep(old(W()), key, ok, W()) && ok
      ensures WithoutLevel(old(store.Now()), store.Now(), key) && cache == map[]
    {
      ghost var w0 := W();
      ok := store.DeleteLevel(key);
      if ok {
        ClearReconstructCache();
      }
      DeleteKeeps(w0, key, ok, W());
    }

    // -------------------------------------------------------------- multi-file import

    /** The state of the level's first listed commit without a parent; the empty state of a level without commits. */
    method ReconstructRoot(key: LevelKey) returns (root: Option<LevelState>, ghost read: seq<Id>)
      requires Valid()
      modifies this`cache
      ensures Valid() && W() == FetchAll(old(W()), read)
      ensures root.Some? && IsRootState(W().h, key, root.value) && ReadsRoot(old(W()), key, root.value)
    {
      var rows := store.List(key);
      NoneListed(store.Now(), key, rows);
      if rows == [] {
        return Some(EMPTY_STATE), [];
      }
      RootListed(W().h, key, rows);
      for i := 0 to |rows|
        invariant forall j :: 0 <= j < i ==> rows[j].row.parent.Some?
      {
        if rows[i].row.parent.None? {
          assert rows[i] in rows;
          var id: Id := rows[i].id;
          FetchOne(W(), id);
          FetchOk(W(), id);
          root := Reconstruct(id);
          read := [id];
          assert id in LevelIds(store.Now(), key);
          RootOfListed(W().h, key, id, root.value);
          return;
        }
      }
      assert false;
    }

    /** Sorting the files against the local root. */
    method ClassifyImports(key: LevelKey, hash: I.Hash, files: seq<I.ImportFile>)
      returns (plan: I.ImportPlan, ghost root: Option<LevelState>, ghost read: seq<Id>)
      requires Valid()
      modifies this`cache
      ensures Valid() && W() == FetchAll(old(W()), read)
      ensures root.Some? && IsRootState(W().h, key, root.value)
      ensures plan.smart == I.SmartOf(root, hash, files) && plan.sequential == I.SequentialOf(root, hash, files)
      ensures I.FilesOf(plan.invalid) == I.UnusableOf(root, files) && I.PlannedFiles(plan) == |files|
    {
      var local;
      local, read := ReconstructRoot(key);
      root := local;
      plan := I.ClassifyImports(local, hash, files);
      I.PlanConserves(local, hash, files);
      assert |I.FilesOf(plan.invalid)| == |plan.invalid|;
    }

    /** HEAD's state and the root's, both empty without a HEAD. */
    method LocalStates(key: LevelKey) returns (local: Option<(LevelState, LevelState)>, ghost read: seq<Id>)
      requires Valid()
      modifies this`cache
      ensures Valid() && local.Some? && IsMergeRoot(W().h, key, local.value.1)
      ensures key !in store.heads ==> W() == old(W()) && read == [] && local == Some((EMPTY_STATE, EMPTY_STATE))
      ensures key in store.heads ==> HeadFetched(FetchAll(old(W()), read), key, local.value.0, W())
    {
      read := [];
      var head := store.GetHead(key);
      if head.None? {
        return Some((EMPTY_STATE, EMPTY_STATE)), [];
      }
      var root;
      root, read := ReconstructRoot(key);
      FetchOk(W(), head.value);
      var recon := Reconstruct(head.value);
      local := if root.None? || recon.None? then None else Some((recon.value, root.value));
    }

    method PrepareImportManyFromGdge(key: LevelKey, hash: I.Hash, files: seq<I.ImportFile>)
      returns (r: Result<I.ImportManyPayload>, pending: seq<PendingHeadUpdate>, ghost c: ImportCapture,
               ghost tok: Option<Token>)
      requires Valid()
      modifies this`cache
      ensures Valid() && PrepareImportStep(old(W()), key, c.read, pending, c.states, tok, W())
      ensures r.Ok? <==> tok.Some?
      ensures r.Ok? ==> pending != [] && |c.states| == |pending| + 1 && c.commits == pending
      ensures files != [] ==> IsRootState(W().h, key, c.planRoot)
      ensures r.Ok? <==> Mergeable(hash, files, c)
      ensures r.Ok? ==> ImportsFiles(W().h, key, hash, files, c, r.value)
    {
      ghost var w0 := W();
      tok, pending := None, [];
      c := ImportCapture([], EMPTY_STATE, EMPTY_STATE, [], I.Trace(false, [], [], []), []);
      if files == [] {
        return Err("no files selected"), [], c, None;
      }
      var plan;
      ghost var planRoot, read, w1;
      plan, planRoot, read := ClassifyImports(key, hash, files);
      w1 := W();
      r, pending, c, tok := MergePlan(key, plan);
      ReadsBefore(w0, read, w1, key, c.read, pending, c.states, tok, W());
      c := c.(read := read + c.read, planRoot := planRoot.value);
    }

    /** The planned files merged into HEAD's state. */
    method MergePlan(key: LevelKey, plan: I.ImportPlan)
      returns (r: Result<I.ImportManyPayload>, pending: seq<PendingHeadUpdate>, ghost c: ImportCapture,
               ghost tok: Option<Token>)
      requires Valid()
      modifies this`cache
      ensures Valid() && PrepareImportStep(old(W()), key, c.read, pending, c.states, tok, W())
      ensures W().h == old(W()).h && (r.Ok? <==> tok.Some?) && (r.Ok? <==> I.AnyMerged(plan.smart, plan.sequential))
      ensures r.Ok? ==> pending != [] && |c.states| == |pending| + 1 && c.commits == pending
      ensures r.Ok? ==> MergesPlan(W().h, key, plan.smart, plan.sequential, I.PlannedFiles(plan), c, r.value)
    {
      ghost var w0 := W();
      tok := None;
      var local;
      ghost var read, states, trace;
      local, read := LocalStates(key);
      r, pending, states, trace := I.PrepareImportMany(key, plan, store.GetHead(key), local.value.0, local.value.1);
      c := ImportCapture(read, EMPTY_STATE, local.value.1, states, trace, pending);
      LocalStart(w0, w0, key, read, local.value.0, W());
      if r.Ok? {
        tok := Some(ImportToken(pending));
      }
    }

    /** Some sequential file loads, or there are smart ones and they all do. */
    static ghost predicate Mergeable(hash: I.Hash, files: seq<I.ImportFile>, c: ImportCapture) {
      var root := Some(c.planRoot);
      I.AnyMerged(I.SmartOf(root, hash, files), I.SequentialOf(root, hash, files))
    }

    /** One turn of the finalizing loop: entry `i` is inserted below the commits minted so far. */
    method InsertEntry(pending: seq<PendingHeadUpdate>, clock: nat -> int, i: nat, minted: seq<Id>)
      returns (id: Result<Id>)
      requires store.Valid() && i < |pending|
      modifies this, store
      ensures store.Valid()
      ensures ImportRun(old(W()), pending, clock, i, minted) ==
              if id.Err? then ImportResult(false, W()) else ImportRun(W(), pending, clock, i + 1, minted + [id.value])
    {
      var p := pending[i];
      var parent := p.parent;
      if p.parentPendingIx.Some? {
        if p.parentPendingIx.value >= |minted| {
          return Err("pending parent index out of range");
        }
        parent := Some(minted[p.parentPendingIx.value]);
      }
      id := InsertAndCache(Row(p.levelKey, parent, p.reverts, p.message, clock(i), p.delta), p.cacheState);
    }

    method FinalizeImportManyFromGdge(pending: seq<PendingHeadUpdate>, clock: nat -> int) returns (r: Result<()>)
      requires Valid()
      modifies this, store
      ensures store.Valid() && FinalizeImportStep(old(W()), pending, clock, r.Ok?, W())
      ensures Promise(old(W()).h, ImportToken(pending)) ==> Valid()
      ensures r.Ok? && ChainShape(pending) ==>
                ChainAdded(old(store.Now()), store.Now(), pending, clock, |pending|)
    {
      r := InsertEntries(pending, clock);
      if r.Ok? && ChainShape(pending) {
        assert Issued(old(store.nextId), 0) == [];
        ImportAdds(old(store.Now()), old(W()), pending, clock, 0);
      }
      if Promise(old(W()).h, ImportToken(pending)) {
        FinalizeImportKeeps(old(W()), pending, clock, r.Ok?, W());
      }
    }

    method InsertEntries(pending: seq<PendingHeadUpdate>, clock: nat -> int) returns (r: Result<()>)
      requires store.Valid()
      modifies this, store
      ensures store.Valid() && FinalizeImportStep(old(W()), pending, clock, r.Ok?, W())
    {
      ghost var w0 := W();
      var minted: seq<Id> := [];
      for i := 0 to |pending|
        invariant store.Valid()
        invariant ImportRun(w0, pending, clock, 0, []) == ImportRun(W(), pending, clock, i, minted)
      {
        var id := InsertEntry(pending, clock, i, minted);
        if id.Err? {
          return Err(id.error);
        }
        minted := minted + [id.value];
      }
      r := Ok(());
    }

    // -------------------------------------------------------------- both phases in one job

    /** HEAD ends at the previewed state, which is the target's. */
    method Checkout(key: LevelKey, target: Id, now: int) returns (r: Result<LevelState>)
      requires Valid()
      modifies this, store
      ensures Valid() && Keeps(old(W()), W()) && intact == old(intact)
      ensures r.Ok? <==> key in old(store.heads) && target in old(store.rows) && old(store.rows)[target].level == key
      ensures r.Ok? ==> HeadShows(W().h, key, r.value) &&
                        Agree(intact, r.value, Replay(old(W()).h.db.rows, old(W()).h.rank, target))
      ensures r.Err? ==> store.Now() == old(store.Now())
      ensures r.Ok? ==> if old(store.heads)[key] == target then store.Now() == old(store.Now())
                        else NewHead(old(store.Now()), store.Now(), key, target, "Checkout", now) &&
                             CachedAt(W(), old(store.nextId), r.value)
    {
      ghost var w0 := W();
      var pending;
      ghost var tok;
      r, pending, tok := PrepareCheckout(key, target);
      ghost var w1 := W();
      PrepareCheckoutKeeps(w0, key, target, r, tok, w1);
      CheckoutStates(w0, key, target, r, tok, w1);
      if r.Err? || pending.None? {
        return;
      }
      var fin := FinalizeCheckout(pending.value, r.value, now);
      HeadUpdateDone(w0, w1, pending.value, r.value, now, fin, W());
      if fin.Err? {
        return Err(fin.error);
      }
    }

    /** HEAD ends at the payload's state, which is the old HEAD with the target undone. */
    method Revert(key: LevelKey, target: Id, now: int) returns (r: Result<RevertPayload>)
      requires Valid()
      modifies this, store
      ensures Valid() && Keeps(old(W()), W()) && intact == old(intact)
      ensures r.Ok? <==> key in old(store.heads) && target in old(store.rows) &&
                         old(store.rows)[target].level == key && old(store.rows)[target].parent.Some?
      ensures r.Ok? ==> HeadShows(W().h, key, r.value.state) && UndoesOnHead(old(W()).h, key, target, r.value)
      ensures r.Ok? ==> NewHead(old(store.Now()), store.Now(), key, target, "Revert", now) &&
                        CachedAt(W(), old(store.nextId), r.value.state)
      ensures r.Err? ==> W() == old(W())
    {
      ghost var w0 := W();
      var pending;
      ghost var tok;
      r, pending, tok := PrepareRevert(key, target);
      ghost var w1 := W();
      PrepareRevertKeeps(w0, key, target, r, tok, w1);
      if r.Err? || pending.None? {
        return;
      }
      RevertTokenOf(w0, key, target, r, tok, w1);
      var fin := FinalizeCheckout(pending.value, r.value.state, now);
      HeadUpdateDone(w0, w1, pending.value, r.value.state, now, fin, W());
    }

    /** Every level's HEAD and every surviving commit keep their state; nothing changes if the squash fails. */
    method Squash(key: LevelKey, ids: seq<Id>, message: string, now: int) returns (r: Result<LevelState>)
      requires Valid()
      modifies this, store
      ensures Valid() && Keeps(old(W()), W()) && intact == old(intact)
      ensures r.Ok? <==> Range(old(store.rows), key, ids) && !Branch(old(store.rows), ids)
      ensures r.Err? ==> store.Now() == old(store.Now())
      ensures r.Ok? ==> old(store.nextId) in store.rows &&
                        Agree(intact, Replay(store.rows, rank, old(store.nextId)), r.value)
      ensures r.Ok? ==> RangeReplaced(old(store.Now()), store.Now(), key, ids, message, now) &&
                        cache == map[old(store.nextId) := r.value]
    {
      RangeIs(store.Now(), key, ids);
      ghost var w0 := W();
      var pending;
      ghost var tok;
      r, pending, tok := PrepareSquash(key, ids, message);
      ghost var w1 := W();
      PrepareSquashKeeps(w0, key, ids, message, r, tok, w1);
      if r.Err? || pending.None? {
        return;
      }
      var fin := FinalizeSquash(pending.value, r.value, now);
      SquashDone(w0, key, ids, message, r, tok, w1, now, if fin.Ok? then Some(fin.value) else None, W());
      if fin.Err? {
        return Err(fin.error);
      }
    }

    /** In one job the source cannot move, so the copied HEAD's cache entry is right. */
    method ImportLevelFrom(dest: LevelKey, src: LevelKey) returns (r: Result<LevelState>, ghost m: map<Id, Id>)
      requires Valid()
      modifies this, store
      ensures Valid() && Keeps(old(W()), W()) && intact == old(intact)
      ensures r.Ok? <==> dest != src && src in old(store.heads)
      ensures r.Err? ==> store.Now() == old(store.Now())
      ensures r.Ok? ==> HeadShows(old(W()).h, src, r.value) && HeadShows(W().h, dest, r.value)
      ensures r.Ok? ==> LevelCopied(old(store.Now()), store.Now(), dest, src, m) && dest in store.heads &&
                        cache == map[store.heads[dest] := r.value]
    {
      ghost var w0 := W();
      m := map[];
      var pending;
      ghost var tok;
      r, pending, tok := PrepareImportLevelFrom(dest, src);
      ghost var w1 := W();
      PrepareReplaceKeeps(w0, dest, src, r, tok, w1);
      if r.Err? || !pending {
        return;
      }
      var fin;
      fin, m := FinalizeImportLevelFrom(dest, src, r.value);
      ReplaceDone(w0, w1, dest, src, r, tok, fin.Ok?, m, W());
      if fin.Err? {
        r := Err("failed to copy level history");
      }
    }

    /** HEAD ends at the payload state: the old HEAD with the files merged in. */
    method ImportManyFromGdge(key: LevelKey, hash: I.Hash, files: seq<I.ImportFile>, clock: nat -> int)
      returns (r: Result<I.ImportManyPayload>, ghost c: ImportCapture)
      requires Valid()
      modifies this, store
      ensures Valid() && Keeps(old(W()), W()) && intact == old(intact)
      ensures files != [] ==> IsRootState(old(W()).h, key, c.planRoot)
      ensures r.Ok? <==> Mergeable(hash, files, c)
      ensures r.Err? ==> store.Now() == old(store.Now())
      ensures r.Ok? ==> HeadShows(W().h, key, r.value.state) && ImportsFiles(old(W()).h, key, hash, files, c, r.value)
      ensures r.Ok? ==> c.commits != [] && c.commits[0].levelKey == key &&
                        c.commits[0].parent == old(store.GetHead(key)) &&
                        ChainAdded(old(store.Now()), store.Now(), c.commits, clock, |c.commits|)
    {
      ghost var w0 := W();
      var pending;
      ghost var tok;
      r, pending, c, tok := PrepareImportManyFromGdge(key, hash, files);
      ghost var w1 := W();
      PrepareImportKeeps(w0, key, c.read, pending, c.states, tok, w1);
      if r.Err? {
        return;
      }
      ImportTokenOf(w0, key, c.read, pending, c.states, tok, w1);
      var fin := FinalizeImportManyFromGdge(pending, clock);
      ImportDone(w0, key, c.read, pending, c.states, tok, w1, clock, fin.Ok?, W());
      if fin.Err? {
        r := Err("import failed");
      }
    }

    // -------------------------------------------------------------- export

    /** The package of a level, as it is handed to the writer. */
    method ExportLevel(key: LevelKey, hash: I.Hash)
      returns (r: Result<P.Package>, ghost root: LevelState, ghost num: map<Id, int>)
      requires Valid()
      modifies this`cache
      ensures Valid()
      ensures r.Ok? <==> key in store.heads
      ensures r.Ok? ==> store.heads[key] in store.rows && P.IndexesOk(r.value)
      ensures r.Ok? ==> P.HeadIs(r.value, Replay(store.rows, rank, store.heads[key]))
      ensures r.Ok? ==> ReadsRoot(old(W()), key, root) && IsRootState(W().h, key, root) &&
                        r.value.rootHash == hash(root)
      ensures r.Ok? ==> E.HoldsLevel(store.Now(), key, r.value, num)
    {
      root, num := EMPTY_STATE, map[];
      var rows := store.List(key);
      if key in store.heads {
        assert C.CommitRow(store.heads[key], store.rows[store.heads[key]]) in rows;
      }
      if rows == [] {
        return Err("no commits to export"), root, num;
      }
      var head := store.GetHead(key);
      if head.None? {
        return Err("missing HEAD"), root, num;
      }
      ghost var read;
      var rootState;
      rootState, read := ReconstructRoot(key);
      if rootState.None? {
        return Err("failed to reconstruct root"), root, num;
      }
      root, num := rootState.value, E.NumberOf(rows);
      ghost var h := Ranked(store.Now(), rank, intact);
      assert E.CoversLevel(h, key, rows);
      forall i | 0 <= i < |rows|
        ensures E.RefsListed(E.NumberOf(rows), E.FromOldest(rows, i).row) && head.value in E.NumberOf(rows)
      {
        E.ExportSucceeds(h, key, rows, i);
      }
      assert head.value in E.NumberOf(rows) by {
        E.ExportSucceeds(h, key, rows, 0);
      }
      r := E.BuildGdgePackageFromCommits(key, head.value, hash(rootState.value), rows);
      if r.Ok? {
        E.ExportIsValid(r.value, key, head.value, hash(root), rows);
        E.ExportReconstructs(h, key, hash(root), rows, r.value, Replay(store.rows, rank, head.value));
        E.ExportHolds(h, key, hash(root), rows, r.value);
      }
    }
  }
}
