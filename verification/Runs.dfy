/** Whole runs of the service, with any jobs between a prepare and its finalize. */
module Runs {
  import opened Prelude
  import opened LevelModel
  import opened Differ
  import opened DifferLaws
  import opened Tables
  import opened History
  import opened SquashHistory
  import opened ServiceModel
  import opened StoreInvariants
  import opened ServiceSteps
  import opened ImportSteps

  /** The service and every token handed out so far; a token may be finalized late, twice, or never. */
  datatype Sys = Sys(w: World, tokens: set<Token>)

  datatype Label =
    | DoReconstruct(id: Id)
    | DoCommit(key: LevelKey, message: string, now: int, base: LevelState, incoming: LevelState, delta: Delta,
               commitResult: Result<Id>)
    | DoPrepareCheckout(key: LevelKey, target: Id, preview: Result<LevelState>, tok: Option<Token>)
    | DoPrepareRevert(key: LevelKey, target: Id, payload: Result<RevertPayload>, tok: Option<Token>)
    | DoPrepareSquash(key: LevelKey, ids: seq<Id>, message: string, preview: Result<LevelState>, tok: Option<Token>)
    | DoPrepareReplace(dest: LevelKey, src: LevelKey, preview: Result<LevelState>, tok: Option<Token>)
    | DoPrepareImport(key: LevelKey, earlier: seq<Id>, commits: seq<PendingHeadUpdate>, states: seq<LevelState>,
                      tok: Option<Token>)
    | DoFinalizeHead(used: Token, now: int, headResult: Result<Id>)
    | DoFinalizeSquash(used: Token, now: int, squashResult: Option<Id>)
    | DoFinalizeReplace(used: Token, ok: bool, m: map<Id, Id>)
    | DoFinalizeImport(used: Token, clock: nat -> int, ok: bool)
    | DoDelete(key: LevelKey, ok: bool)

  function Tokens(tok: Option<Token>): set<Token> {
    if tok.Some? then {tok.value} else {}
  }

  /** The job a label names, as a change of the service. */
  ghost predicate Job(w: World, l: Label, w2: World)
    requires Inv(w)
  {
    match l
    case DoReconstruct(id) => w2 == Fetch(w, id).w
    case DoCommit(key, message, now, base, incoming, delta, r) =>
      CommitStep(w, key, message, now, base, incoming, delta, r, w2)
    case DoPrepareCheckout(key, target, r, tok) => PrepareCheckoutStep(w, key, target, r, tok, w2)
    case DoPrepareRevert(key, target, r, tok) => PrepareRevertStep(w, key, target, r, tok, w2)
    case DoPrepareSquash(key, ids, message, r, tok) => PrepareSquashStep(w, key, ids, message, r, tok, w2)
    case DoPrepareReplace(dest, src, r, tok) => PrepareReplaceStep(w, dest, src, r, tok, w2)
    case DoPrepareImport(key, earlier, commits, states, tok) =>
      PrepareImportStep(w, key, earlier, commits, states, tok, w2)
    case DoFinalizeHead(used, now, r) => used.HeadToken? && FinalizeHeadStep(w, used.p, used.applied, now, r, w2)
    case DoFinalizeSquash(used, now, r) => used.SquashToken? && FinalizeSquashStep(w, used.a, used.applied, now, r, w2)
    case DoFinalizeReplace(used, ok, m) =>
      used.ReplaceToken? && FinalizeReplaceStep(w, used.dest, used.src, used.applied, ok, m, w2)
    case DoFinalizeImport(used, clock, ok) => used.ImportToken? && FinalizeImportStep(w, used.commits, clock, ok, w2)
    case DoDelete(key, ok) => DeleteStep(w, key, ok, w2)
  }

  /** The token a finalize uses must have been handed out. */
  ghost predicate UsesKnown(s: Sys, l: Label) {
    match l
    case DoFinalizeHead(used, _, _) => used in s.tokens
    case DoFinalizeSquash(used, _, _) => used in s.tokens
    case DoFinalizeReplace(used, _, _) => used in s.tokens
    case DoFinalizeImport(used, _, _) => used in s.tokens
    case _ => true
  }

  function HandedOut(l: Label): set<Token> {
    match l
    case DoPrepareCheckout(_, _, _, tok) => Tokens(tok)
    case DoPrepareRevert(_, _, _, tok) => Tokens(tok)
    case DoPrepareSquash(_, _, _, _, tok) => Tokens(tok)
    case DoPrepareReplace(_, _, _, tok) => Tokens(tok)
    case DoPrepareImport(_, _, _, _, tok) => Tokens(tok)
    case _ => {}
  }

  ghost predicate Good(s: Sys) {
    Inv(s.w) && forall tok :: tok in s.tokens ==> Promise(s.w.h, tok)
  }

  ghost predicate Next(s: Sys, l: Label, s2: Sys)
    requires Good(s)
  {
    UsesKnown(s, l) && Job(s.w, l, s2.w) && s2.tokens == s.tokens + HandedOut(l)
  }

  /** One job keeps history, graph shape, cache coherence and the promise of the token it hands out. */
  lemma JobKeeps(w: World, l: Label, w2: World)
    requires Inv(w) && Job(w, l, w2)
    requires match l
             case DoFinalizeHead(used, _, _) => Promise(w.h, used)
             case DoFinalizeSquash(used, _, _) => Promise(w.h, used)
             case DoFinalizeImport(used, _, _) => Promise(w.h, used)
             case _ => true
    ensures Keeps(w, w2) && forall tok :: tok in HandedOut(l) ==> Promise(w2.h, tok)
  {
    match l
    case DoReconstruct(id) => FetchKeeps(w, id);
    case DoCommit(key, message, now, base, incoming, delta, r) =>
      CommitKeeps(w, key, message, now, base, incoming, delta, r, w2);
    case DoPrepareCheckout(key, target, r, tok) => PrepareCheckoutKeeps(w, key, target, r, tok, w2);
    case DoPrepareRevert(key, target, r, tok) => PrepareRevertKeeps(w, key, target, r, tok, w2);
    case DoPrepareSquash(key, ids, message, r, tok) => PrepareSquashKeeps(w, key, ids, message, r, tok, w2);
    case DoPrepareReplace(dest, src, r, tok) => PrepareReplaceKeeps(w, dest, src, r, tok, w2);
    case DoPrepareImport(key, earlier, commits, states, tok) =>
      PrepareImportKeeps(w, key, earlier, commits, states, tok, w2);
    case DoFinalizeHead(used, now, r) => FinalizeHeadKeeps(w, used.p, used.applied, now, r, w2);
    case DoFinalizeSquash(used, now, r) => FinalizeSquashKeeps(w, used.a, used.applied, now, r, w2);
    case DoFinalizeReplace(used, ok, m) => FinalizeReplaceKeeps(w, used.dest, used.src, used.applied, ok, m, w2);
    case DoFinalizeImport(used, clock, ok) => FinalizeImportKeeps(w, used.commits, clock, ok, w2);
    case DoDelete(key, ok) => DeleteKeeps(w, key, ok, w2);
  }

  lemma NextKeeps(s: Sys, l: Label, s2: Sys)
    requires Good(s) && Next(s, l, s2)
    ensures Good(s2) && Keeps(s.w, s2.w)
  {
    JobKeeps(s.w, l, s2.w);
    forall tok | tok in s2.tokens ensures Promise(s2.w.h, tok) {
      if tok in s.tokens {
        PromiseStable(s.w.h, s2.w.h, tok);
      }
    }
  }

  // ---------------------------------------------------------------- runs

  function EmptyWorld(cap: nat): World {
    World(Ranked(Db(map[], map[], 1), map[], true), map[], cap)
  }

  lemma EmptyGood(cap: nat)
    ensures Good(Sys(EmptyWorld(cap), {})) && HeadIffCommits(EmptyWorld(cap).h.db)
  {
  }

  /** A run from a fresh database; `Good` in the definition only makes the next step meaningful. */
  ghost predicate IsRun(cap: nat, states: seq<Sys>, labels: seq<Label>) {
    && |states| == |labels| + 1
    && states[0] == Sys(EmptyWorld(cap), {})
    && (forall n :: 0 <= n < |labels| ==> RunStep(states, labels, n))
  }

  ghost predicate RunStep(states: seq<Sys>, labels: seq<Label>, n: nat)
    requires n < |labels| && |states| == |labels| + 1
  {
    Good(states[n]) ==> Next(states[n], labels[n], states[n + 1])
  }

  /** The service after a job, and the token the job hands out. */
  function Then(s: Sys, l: Label, w2: World): Sys {
    Sys(w2, s.tokens + HandedOut(l))
  }

  /** A run goes on with any job. */
  lemma Extend(cap: nat, states: seq<Sys>, labels: seq<Label>, s: Sys, l: Label, w2: World)
    returns (states2: seq<Sys>, labels2: seq<Label>)
    requires IsRun(cap, states, labels) && s == states[|labels|] && Good(s) && UsesKnown(s, l) && Job(s.w, l, w2)
    ensures states2 == states + [Then(s, l, w2)] && labels2 == labels + [l]
    ensures IsRun(cap, states2, labels2) && Good(Then(s, l, w2))
  {
    var s2 := Then(s, l, w2);
    assert Next(s, l, s2);
    NextKeeps(s, l, s2);
    states2, labels2 := states + [s2], labels + [l];
    StepAdded(states, labels, s, l, s2);
    LongerRun(cap, states, labels, l, s2);
  }

  lemma LongerRun(cap: nat, states: seq<Sys>, labels: seq<Label>, l: Label, s2: Sys)
    requires IsRun(cap, states, labels) && RunStep(states + [s2], labels + [l], |labels|)
    ensures IsRun(cap, states + [s2], labels + [l])
  {
    forall n | 0 <= n < |labels| + 1 ensures RunStep(states + [s2], labels + [l], n) {
      if n < |labels| {
        assert RunStep(states, labels, n);
        StepStays(states, labels, l, s2, n);
      }
    }
  }

  lemma StepAdded(states: seq<Sys>, labels: seq<Label>, s: Sys, l: Label, s2: Sys)
    requires |states| == |labels| + 1 && s == states[|labels|] && Good(s) && Next(s, l, s2)
    ensures RunStep(states + [s2], labels + [l], |labels|)
  {
    var states2, labels2, n := states + [s2], labels + [l], |labels|;
    assert states2[n] == s && labels2[n] == l && states2[n + 1] == s2;
  }

  lemma StepStays(states: seq<Sys>, labels: seq<Label>, l: Label, s2: Sys, n: nat)
    requires n < |labels| && |states| == |labels| + 1 && RunStep(states, labels, n)
    ensures RunStep(states + [s2], labels + [l], n)
  {
    var states2, labels2 := states + [s2], labels + [l];
    assert states2[n] == states[n] && states2[n + 1] == states[n + 1] && labels2[n] == labels[n];
  }

  /**
   * Every reachable state is good: acyclic, one-level references, childless HEADs, and, while no load was spoilt, a
   * coherent cache and pending deltas that lead where the editor was shown.
   */
  lemma {:induction false} ReachableGood(cap: nat, states: seq<Sys>, labels: seq<Label>, n: nat)
    requires IsRun(cap, states, labels) && n < |states|
    ensures Good(states[n]) && states[n].w.cap == cap
  {
    if n == 0 {
      EmptyGood(cap);
    } else {
      ReachableGood(cap, states, labels, n - 1);
      assert RunStep(states, labels, n - 1);
      NextKeeps(states[n - 1], labels[n - 1], states[n]);
    }
  }

  lemma {:induction false} RunEvolves(cap: nat, states: seq<Sys>, labels: seq<Label>, i: nat, j: nat)
    requires IsRun(cap, states, labels) && i <= j < |states|
    ensures Evolves(states[i].w.h, states[j].w.h)
    decreases j - i
  {
    ReachableGood(cap, states, labels, i);
    if i == j {
      EvolvesRefl(states[i].w.h);
    } else {
      RunEvolves(cap, states, labels, i, j - 1);
      ReachableGood(cap, states, labels, j - 1);
      assert RunStep(states, labels, j - 1);
      NextKeeps(states[j - 1], labels[j - 1], states[j]);
      EvolvesTrans(states[i].w.h, states[j - 1].w.h, states[j].w.h);
    }
  }

  // ---------------------------------------------------------------- loads that leave a wrong cache

  /** A load that succeeds although its source no longer shows the prepared state. */
  ghost predicate Spoils(w: World, l: Label)
    requires Sound(w.h)
  {
    l.DoFinalizeReplace? && l.used.ReplaceToken? && l.ok && !SourceShows(w.h, l.used.src, l.used.applied)
  }

  ghost predicate SpoilsAt(states: seq<Sys>, labels: seq<Label>, k: nat)
    requires k < |labels| && |states| == |labels| + 1
  {
    Sound(states[k].w.h) && Spoils(states[k].w, labels[k])
  }

  /** No load before state `n` did. */
  ghost predicate NoneSpoilt(states: seq<Sys>, labels: seq<Label>, n: nat)
    requires n < |states| == |labels| + 1
  {
    forall k :: 0 <= k < n ==> !SpoilsAt(states, labels, k)
  }

  /** Only such a load ends the intact part of a run. */
  lemma IntactStep(s: Sys, l: Label, s2: Sys)
    requires Good(s) && Next(s, l, s2)
    ensures s2.w.h.intact == (s.w.h.intact && !Spoils(s.w, l))
  {
    var w, w2 := s.w, s2.w;
    match l
    case DoCommit(key, message, now, base, incoming, delta, r) =>
      CommitKeeps(w, key, message, now, base, incoming, delta, r, w2);
    case DoFinalizeHead(used, now, r) =>
    case DoFinalizeSquash(used, now, r) =>
    case DoFinalizeReplace(used, ok, m) =>
    case DoFinalizeImport(used, clock, ok) =>
      ImportKeepsIntact(w, used.commits, clock, 0, []);
    case DoDelete(key, ok) =>
    case _ =>
      ReadersKeepTables(w, l, w2);
  }

  lemma {:induction false} IntactIff(cap: nat, states: seq<Sys>, labels: seq<Label>, n: nat)
    requires IsRun(cap, states, labels) && n < |states|
    ensures states[n].w.h.intact <==> NoneSpoilt(states, labels, n)
  {
    if n > 0 {
      IntactIff(cap, states, labels, n - 1);
      ReachableGood(cap, states, labels, n - 1);
      assert RunStep(states, labels, n - 1);
      IntactStep(states[n - 1], labels[n - 1], states[n]);
      if NoneSpoilt(states, labels, n - 1) {
        assert NoneSpoilt(states, labels, n) <==> !SpoilsAt(states, labels, n - 1);
      }
    }
  }

  /** History never changes under you: as long as a commit exists, it replays to the same state. */
  lemma HistoryNeverChanges(cap: nat, states: seq<Sys>, labels: seq<Label>, i: nat, j: nat, id: Id)
    requires IsRun(cap, states, labels) && i <= j < |states| && NoneSpoilt(states, labels, j)
    requires id in states[i].w.h.db.rows && id in states[j].w.h.db.rows
    ensures Good(states[i]) && Good(states[j])
    ensures SameState(Replay(states[j].w.h.db.rows, states[j].w.h.rank, id),
                      Replay(states[i].w.h.db.rows, states[i].w.h.rank, id))
  {
    ReachableGood(cap, states, labels, i);
    ReachableGood(cap, states, labels, j);
    RunEvolves(cap, states, labels, i, j);
    IntactIff(cap, states, labels, j);
    assert id in states[i].w.h.rank;
    EvolvedState(states[i].w.h, states[j].w.h, id);
  }

  /** Ids are never reused: once a commit is gone it stays gone. */
  lemma GoneStaysGone(cap: nat, states: seq<Sys>, labels: seq<Label>, i: nat, j: nat, id: Id)
    requires IsRun(cap, states, labels) && i <= j < |states|
    requires 0 < id < states[i].w.h.db.nextId && id !in states[i].w.h.db.rows
    ensures id !in states[j].w.h.db.rows
  {
    RunEvolves(cap, states, labels, i, j);
  }

  /**
   * Reconstruct always finds an existing commit, and, as long as no load was spoilt, gives its full replay and every
   * cached commit that exists holds its own.
   */
  lemma ReconstructIsReplay(cap: nat, states: seq<Sys>, labels: seq<Label>, n: nat, id: Id)
    requires IsRun(cap, states, labels) && n < |states| && id in states[n].w.h.db.rows
    ensures Good(states[n]) && Fetch(states[n].w, id).state.Some?
    ensures NoneSpoilt(states, labels, n) ==>
              && SameState(Fetch(states[n].w, id).state.value, Replay(states[n].w.h.db.rows, states[n].w.h.rank, id))
              && CacheRight(states[n].w.h, states[n].w.cache)
  {
    ReachableGood(cap, states, labels, n);
    var w := states[n].w;
    FetchOk(w, id);
    IntactIff(cap, states, labels, n);
    if NoneSpoilt(states, labels, n) {
      IntactCacheRight(w);
    }
  }

  lemma IntactCacheRight(w: World)
    requires Inv(w) && w.h.intact
    ensures CacheRight(w.h, w.cache)
  {
    forall i | i in w.cache && i in w.h.db.rows ensures SameState(w.cache[i], Replay(w.h.db.rows, w.h.rank, i)) {
      assert EntryOk(w.h, i, w.cache[i]);
    }
  }

  /** The reachable commit graph: acyclic, references inside the level, and no child of a HEAD. */
  lemma ReachableGraph(cap: nat, states: seq<Sys>, labels: seq<Label>, n: nat)
    requires IsRun(cap, states, labels) && n < |states|
    ensures var db := states[n].w.h.db;
            && Acyclic(db.rows) && FkOk(db) && HeadLeaf(db)
            && (forall i :: i in db.rows && db.rows[i].parent.Some? ==> ParentInLevel(db, i))
            && (forall i :: i in db.rows && db.rows[i].reverts.Some? ==> RevertsInLevel(db, i))
  {
    ReachableGood(cap, states, labels, n);
    var db := states[n].w.h.db;
    GroundedIsAcyclic(db.rows, states[n].w.h.rank);
    forall i | i in db.rows && db.rows[i].parent.Some? ensures ParentInLevel(db, i) {
      assert RefOk(db.rows, db.rows[i].parent) && StaysInLevel(db.rows, i);
    }
    forall i | i in db.rows && db.rows[i].reverts.Some? ensures RevertsInLevel(db, i) {
      assert RefOk(db.rows, db.rows[i].reverts) && StaysInLevel(db.rows, i);
    }
  }

  ghost predicate ParentInLevel(db: Db, i: Id)
    requires i in db.rows && db.rows[i].parent.Some?
  {
    db.rows[i].parent.value in db.rows && db.rows[db.rows[i].parent.value].level == db.rows[i].level
  }

  ghost predicate RevertsInLevel(db: Db, i: Id)
    requires i in db.rows && db.rows[i].reverts.Some?
  {
    db.rows[i].reverts.value in db.rows && db.rows[db.rows[i].reverts.value].level == db.rows[i].level
  }

  // ---------------------------------------------------------------- a level has commits exactly when it has a HEAD

  /** The one job that can break it: a squash that goes through on a level that has no HEAD (any more). */
  ghost predicate SquashesHeadless(w: World, l: Label) {
    l.DoFinalizeSquash? && l.used.SquashToken? && l.used.a.WellFormed() &&
    l.used.a.key !in w.h.db.heads && FkOk(Squashed(w.h.db, l.used.a, l.now))
  }

  lemma {:induction false} ImportKeepsHeads(w: World, commits: seq<PendingHeadUpdate>, clock: nat -> int, i: nat,
                                            minted: seq<Id>)
    requires i <= |commits| && HeadIffCommits(w.h.db)
    ensures HeadIffCommits(ImportRun(w, commits, clock, i, minted).w.h.db)
    decreases |commits| - i
  {
    if i < |commits| && EntryParentKnown(commits, i, minted) {
      var row := EntryRow(commits, i, minted, clock(i));
      InsertKeepsHeads(w.h.db, row);
      var ins := InsertThen(w, row, commits[i].cacheState);
      if ins.r.Ok? {
        ImportKeepsHeads(ins.w, commits, clock, i + 1, minted + [ins.r.value]);
      }
    }
  }

  /** Jobs that only read leave the tables alone. */
  lemma ReadersKeepTables(w: World, l: Label, w2: World)
    requires Inv(w) && Job(w, l, w2)
    requires l.DoReconstruct? || l.DoPrepareCheckout? || l.DoPrepareRevert? || l.DoPrepareSquash? ||
             l.DoPrepareReplace? || l.DoPrepareImport?
    ensures w2.h == w.h
  {
    match l
    case DoReconstruct(id) => FetchOk(w, id);
    case DoPrepareCheckout(key, target, r, tok) =>
      if key in w.h.db.heads {
        FetchOk(w, w.h.db.heads[key]);
        FetchOk(Fetch(w, w.h.db.heads[key]).w, target);
      }
    case DoPrepareRevert(key, target, r, tok) =>
      if CanRevert(w.h.db, key, target) { RevertRefs(w, key, target); }
    case DoPrepareSquash(key, ids, message, r, tok) =>
      if CanSquash(w.h.db, key, ids) { SquashRefs(w, key, ids); }
    case DoPrepareReplace(dest, src, r, tok) =>
      if src in w.h.db.heads { FetchOk(w, w.h.db.heads[src]); }
    case DoPrepareImport(key, earlier, commits, states, tok) =>
      if key in w.h.db.heads { FetchOk(FetchAll(w, earlier), w.h.db.heads[key]); }
    case _ =>
  }

  lemma CommitKeepsHeads(w: World, key: LevelKey, message: string, now: int, base: LevelState,
                         incoming: LevelState, delta: Delta, r: Result<Id>, w2: World)
    requires Inv(w) && CommitStep(w, key, message, now, base, incoming, delta, r, w2) && HeadIffCommits(w.h.db)
    ensures HeadIffCommits(w2.h.db)
  {
    if key in w.h.db.heads {
      FetchOk(w, w.h.db.heads[key]);
      InsertKeepsHeads(w.h.db, Row(key, Some(w.h.db.heads[key]), None, message, now, delta));
    } else {
      InsertKeepsHeads(w.h.db, Row(key, None, None, message, now, delta));
    }
  }

  /** A job keeps the correspondence exactly when it is not such a squash. */
  lemma HeadsKeptIff(s: Sys, l: Label, s2: Sys)
    requires Good(s) && Next(s, l, s2) && HeadIffCommits(s.w.h.db)
    ensures HeadIffCommits(s2.w.h.db) <==> !SquashesHeadless(s.w, l)
  {
    var w, w2 := s.w, s2.w;
    match l
    case DoCommit(key, message, now, base, incoming, delta, r) =>
      CommitKeepsHeads(w, key, message, now, base, incoming, delta, r, w2);
    case DoFinalizeHead(used, now, r) =>
      InsertKeepsHeads(w.h.db, Row(used.p.levelKey, used.p.parent, used.p.reverts, used.p.message, now, used.p.delta));
    case DoFinalizeSquash(used, now, r) =>
      assert Promise(w.h, used);
      if r.Some? { SquashKeepsHeadsIff(w.h, used.a, now, used.applied); }
    case DoFinalizeReplace(used, ok, m) =>
      if ok { CopyKeepsHeads(w.h.db, w2.h.db, used.dest, used.src, m); }
    case DoFinalizeImport(used, clock, ok) =>
      ImportKeepsHeads(w, used.commits, clock, 0, []);
    case DoDelete(key, ok) =>
      DeleteKeepsHeads(w.h.db, key);
    case _ =>
      ReadersKeepTables(w, l, w2);
  }

  /** So it holds throughout every run that never finalizes a squash on a level without HEAD. */
  lemma {:induction false} ReachableHeads(cap: nat, states: seq<Sys>, labels: seq<Label>, n: nat)
    requires IsRun(cap, states, labels) && n < |states|
    requires forall k :: 0 <= k < n ==> !SquashesHeadless(states[k].w, labels[k])
    ensures HeadIffCommits(states[n].w.h.db)
  {
    if n == 0 {
      EmptyGood(cap);
    } else {
      ReachableHeads(cap, states, labels, n - 1);
      ReachableGood(cap, states, labels, n - 1);
      assert RunStep(states, labels, n - 1);
      assert !SquashesHeadless(states[n - 1].w, labels[n - 1]);
      HeadsKeptIff(states[n - 1], labels[n - 1], states[n]);
    }
  }
}
