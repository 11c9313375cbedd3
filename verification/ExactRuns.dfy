/** Runs in which no captured or merged state holds an empty value: there the cache and the replay agree exactly. */
module ExactRuns {
  import opened Prelude
  import opened LevelModel
  import opened Differ
  import opened DifferLaws
  import opened Tables
  import opened History
  import opened ServiceModel
  import opened ServiceSteps
  import opened ImportSteps
  import opened Runs

  // ---------------------------------------------------------------- cache and reconstruct

  lemma FetchNoEmpty(w: World, id: Id)
    requires Inv(w) && NoEmptyValues(w)
    ensures var f := Fetch(w, id); Inv(f.w) && NoEmptyValues(f.w) && (f.state.Some? ==> NoEmpty(f.state.value))
  {
    FetchOk(w, id);
    if id !in w.cache && id in w.h.db.rows {
      ReconNoEmpty(w, id);
    }
  }

  lemma {:induction false} FetchAllNoEmpty(w: World, ids: seq<Id>)
    requires Inv(w) && NoEmptyValues(w)
    ensures NoEmptyValues(FetchAll(w, ids))
    decreases |ids|
  {
    if ids != [] {
      FetchNoEmpty(w, ids[0]);
      FetchAllNoEmpty(Fetch(w, ids[0]).w, ids[1..]);
    }
  }

  // ---------------------------------------------------------------- tokens and labels

  ghost predicate TokenNoEmpty(tok: Token) {
    match tok
    case HeadToken(p, applied) => DeltaNoEmpty(p.delta) && NoEmpty(applied)
    case SquashToken(a, applied) => DeltaNoEmpty(a.delta) && NoEmpty(applied)
    case ReplaceToken(_, _, applied, _) => NoEmpty(applied)
    case ImportToken(commits) => CommitsNoEmpty(commits)
  }

  ghost predicate CommitsNoEmpty(commits: seq<PendingHeadUpdate>) {
    forall i :: 0 <= i < |commits| ==> EntryNoEmpty(commits[i])
  }

  ghost predicate EntryNoEmpty(p: PendingHeadUpdate) {
    DeltaNoEmpty(p.delta) && (p.cacheState.Some? ==> NoEmpty(p.cacheState.value))
  }

  /** What a commit captures and what an import merges holds no empty value. */
  ghost predicate LabelNoEmpty(l: Label) {
    match l
    case DoCommit(_, _, _, _, incoming, _, _) => NoEmpty(incoming)
    case DoPrepareImport(_, _, _, states, _) => StatesNoEmpty(states)
    case _ => true
  }

  ghost predicate StatesNoEmpty(states: seq<LevelState>) {
    forall i :: 0 <= i < |states| ==> NoEmpty(states[i])
  }

  // ---------------------------------------------------------------- what each job keeps

  lemma InsertNoEmpty(w: World, row: Row, cacheState: Option<LevelState>)
    requires NoEmptyValues(w) && DeltaNoEmpty(row.delta) && (cacheState.Some? ==> NoEmpty(cacheState.value))
    ensures NoEmptyValues(InsertThen(w, row, cacheState).w)
  {
  }

  lemma CommitNoEmpty(w: World, l: Label, w2: World)
    requires Inv(w) && l.DoCommit? && Job(w, l, w2) && NoEmptyValues(w) && NoEmpty(l.incoming)
    ensures NoEmptyValues(w2)
  {
    DiffNoEmpty(l.base, l.incoming, l.delta);
    if l.key in w.h.db.heads {
      var f := Fetch(w, w.h.db.heads[l.key]);
      FetchNoEmpty(w, w.h.db.heads[l.key]);
      InsertNoEmpty(f.w, Row(l.key, Some(w.h.db.heads[l.key]), None, l.message, l.now, l.delta), Some(l.incoming));
    } else {
      InsertNoEmpty(w, Row(l.key, None, None, l.message, l.now, l.delta), Some(l.incoming));
    }
  }

  lemma CheckoutNoEmpty(w: World, key: LevelKey, target: Id, r: Result<LevelState>, tok: Option<Token>, w2: World)
    requires Inv(w) && NoEmptyValues(w) && PrepareCheckoutStep(w, key, target, r, tok, w2)
    ensures NoEmptyValues(w2) && (tok.Some? ==> TokenNoEmpty(tok.value))
  {
    if key in w.h.db.heads {
      var head: Id := w.h.db.heads[key];
      FetchNoEmpty(w, head);
      if head != target {
        var f := Fetch(w, head);
        FetchNoEmpty(f.w, target);
        if tok.Some? {
          DiffNoEmpty(f.state.value, Fetch(f.w, target).state.value, tok.value.p.delta);
        }
      }
    }
  }

  lemma RevertFetchNoEmpty(w: World, parent: Id, target: Id, head: Id)
    requires Inv(w) && NoEmptyValues(w) && parent in w.h.db.rows && target in w.h.db.rows && head in w.h.db.rows
    ensures var s := RevertFetch(w, parent, target, head);
            NoEmptyValues(s.w) && NoEmpty(s.parent) && NoEmpty(s.target) && NoEmpty(s.head)
  {
    FetchOk(w, parent);
    FetchNoEmpty(w, parent);
    var p := Fetch(w, parent);
    FetchOk(p.w, target);
    FetchNoEmpty(p.w, target);
    var t := Fetch(p.w, target);
    FetchOk(t.w, head);
    FetchNoEmpty(t.w, head);
  }

  lemma UndoNoEmpty(s: RevertStates, r: RevertPayload)
    requires NoEmpty(s.parent) && NoEmpty(s.head) && Undoes(s, r)
    ensures NoEmpty(r.state)
  {
    var undo :| IsDiff(s.target, s.parent, undo) && r == RevertPayload(Apply(s.head, undo), Conflicts(s.head, undo));
    DiffNoEmpty(s.target, s.parent, undo);
    ApplyNoEmpty(s.head, undo);
  }

  lemma RevertNoEmpty(w: World, key: LevelKey, target: Id, r: Result<RevertPayload>, tok: Option<Token>, w2: World)
    requires Inv(w) && NoEmptyValues(w) && PrepareRevertStep(w, key, target, r, tok, w2)
    ensures NoEmptyValues(w2) && (tok.Some? ==> TokenNoEmpty(tok.value))
  {
    if CanRevert(w.h.db, key, target) {
      var parent: Id, head: Id := w.h.db.rows[target].parent.value, w.h.db.heads[key];
      RevertRefs(w, key, target);
      RevertFetchNoEmpty(w, parent, target, head);
      var s := RevertFetch(w, parent, target, head);
      UndoNoEmpty(s, r.value);
      DiffNoEmpty(s.head, r.value.state, tok.value.p.delta);
    }
  }

  lemma PrepareSquashNoEmpty(w: World, key: LevelKey, ids: seq<Id>, message: string, r: Result<LevelState>,
                             tok: Option<Token>, w2: World)
    requires Inv(w) && NoEmptyValues(w) && PrepareSquashStep(w, key, ids, message, r, tok, w2)
    ensures NoEmptyValues(w2) && (tok.Some? ==> TokenNoEmpty(tok.value))
  {
    if CanSquash(w.h.db, key, ids) {
      SquashRefs(w, key, ids);
      var base, newest: Id := w.h.db.rows[ids[0]].parent, ids[|ids| - 1];
      var b := if base.None? then Fetched(Some(EMPTY_STATE), w) else Fetch(w, base.value);
      if base.Some? {
        FetchNoEmpty(w, base.value);
      }
      FetchNoEmpty(b.w, newest);
      var s := SquashFetch(w, base, newest);
      DiffNoEmpty(s.base, s.target, tok.value.a.delta);
    }
  }

  lemma PrepareReplaceNoEmpty(w: World, dest: LevelKey, src: LevelKey, r: Result<LevelState>, tok: Option<Token>,
                              w2: World)
    requires Inv(w) && NoEmptyValues(w) && PrepareReplaceStep(w, dest, src, r, tok, w2)
    ensures NoEmptyValues(w2) && (tok.Some? ==> TokenNoEmpty(tok.value))
  {
    if src in w.h.db.heads {
      FetchNoEmpty(w, w.h.db.heads[src]);
    }
  }

  lemma PrepareImportNoEmpty(w: World, key: LevelKey, earlier: seq<Id>, commits: seq<PendingHeadUpdate>,
                             states: seq<LevelState>, tok: Option<Token>, w2: World)
    requires Inv(w) && NoEmptyValues(w) && PrepareImportStep(w, key, earlier, commits, states, tok, w2)
    requires StatesNoEmpty(states)
    ensures NoEmptyValues(w2) && (tok.Some? ==> TokenNoEmpty(tok.value))
  {
    FetchAllNoEmpty(w, earlier);
    if key in w.h.db.heads {
      FetchNoEmpty(FetchAll(w, earlier), w.h.db.heads[key]);
    }
    if tok.Some? {
      forall i | 0 <= i < |commits| ensures EntryNoEmpty(commits[i]) {
        DiffNoEmpty(states[i], states[i + 1], commits[i].delta);
        assert ChainEntry(commits, i);
      }
    }
  }

  lemma SquashRowsNoEmpty(db: Db, a: SquashArgs, now: int)
    requires a.WellFormed() && RowsNoEmpty(db.rows) && DeltaNoEmpty(a.delta)
    ensures RowsNoEmpty(Squashed(db, a, now).rows)
  {
  }

  lemma CopyRowsNoEmpty(before: Db, after: Db, dest: LevelKey, src: LevelKey, m: map<Id, Id>)
    requires Copied(before, after, dest, src, m) && RowsNoEmpty(before.rows)
    ensures RowsNoEmpty(after.rows)
  {
    forall i | i in after.rows ensures DeltaNoEmpty(after.rows[i].delta) {
      if i in m.Values {
        var o: Id := SomeKeyOf(m, i);
        assert o in m && after.rows[i] == CopyRow(before.rows[o], dest, m);
      } else {
        assert i in after.rows.Keys;
      }
    }
  }

  lemma {:induction false} ImportNoEmpty(w: World, commits: seq<PendingHeadUpdate>, clock: nat -> int, i: nat,
                                         minted: seq<Id>)
    requires i <= |commits| && NoEmptyValues(w) && CommitsNoEmpty(commits)
    ensures NoEmptyValues(ImportRun(w, commits, clock, i, minted).w)
    decreases |commits| - i
  {
    if i < |commits| && EntryParentKnown(commits, i, minted) {
      assert EntryNoEmpty(commits[i]);
      var row := EntryRow(commits, i, minted, clock(i));
      InsertNoEmpty(w, row, commits[i].cacheState);
      var ins := InsertThen(w, row, commits[i].cacheState);
      if ins.r.Ok? {
        ImportNoEmpty(ins.w, commits, clock, i + 1, minted + [ins.r.value]);
      }
    }
  }

  lemma FinalizeNoEmpty(w: World, l: Label, w2: World)
    requires Inv(w) && NoEmptyValues(w) && Job(w, l, w2)
    requires match l
             case DoFinalizeHead(used, _, _) => TokenNoEmpty(used)
             case DoFinalizeSquash(used, _, _) => TokenNoEmpty(used)
             case DoFinalizeReplace(used, _, _) => TokenNoEmpty(used)
             case DoFinalizeImport(used, _, _) => TokenNoEmpty(used)
             case DoDelete(_, _) => true
             case _ => false
    ensures NoEmptyValues(w2)
  {
    match l
    case DoFinalizeHead(used, now, _) =>
      var p := used.p;
      InsertNoEmpty(w, Row(p.levelKey, p.parent, p.reverts, p.message, now, p.delta), Some(used.applied));
    case DoFinalizeSquash(used, now, _) =>
      if used.a.WellFormed() {
        SquashRowsNoEmpty(w.h.db, used.a, now);
      }
    case DoFinalizeReplace(used, ok, m) =>
      if ok {
        CopyRowsNoEmpty(w.h.db, w2.h.db, used.dest, used.src, m);
      }
    case DoFinalizeImport(used, clock, _) => ImportNoEmpty(w, used.commits, clock, 0, []);
    case DoDelete(_, _) =>
  }

  /** One job keeps the store, the cache and what it hands out free of empty values. */
  lemma JobNoEmpty(w: World, l: Label, w2: World)
    requires Inv(w) && NoEmptyValues(w) && Job(w, l, w2) && LabelNoEmpty(l)
    requires match l
             case DoFinalizeHead(used, _, _) => TokenNoEmpty(used)
             case DoFinalizeSquash(used, _, _) => TokenNoEmpty(used)
             case DoFinalizeReplace(used, _, _) => TokenNoEmpty(used)
             case DoFinalizeImport(used, _, _) => TokenNoEmpty(used)
             case _ => true
    ensures NoEmptyValues(w2) && forall tok :: tok in HandedOut(l) ==> TokenNoEmpty(tok)
  {
    match l
    case DoReconstruct(id) => FetchNoEmpty(w, id);
    case DoCommit(_, _, _, _, _, _, _) => CommitNoEmpty(w, l, w2);
    case DoPrepareCheckout(key, target, r, tok) => CheckoutNoEmpty(w, key, target, r, tok, w2);
    case DoPrepareRevert(key, target, r, tok) => RevertNoEmpty(w, key, target, r, tok, w2);
    case DoPrepareSquash(key, ids, message, r, tok) => PrepareSquashNoEmpty(w, key, ids, message, r, tok, w2);
    case DoPrepareReplace(dest, src, r, tok) => PrepareReplaceNoEmpty(w, dest, src, r, tok, w2);
    case DoPrepareImport(key, earlier, commits, states, tok) =>
      PrepareImportNoEmpty(w, key, earlier, commits, states, tok, w2);
    case _ => FinalizeNoEmpty(w, l, w2);
  }

  // ---------------------------------------------------------------- whole runs

  ghost predicate SysNoEmpty(s: Sys) {
    NoEmptyValues(s.w) && forall tok :: tok in s.tokens ==> TokenNoEmpty(tok)
  }

  /** If no captured and no merged state of the run holds an empty value, nothing stored, cached or pending does. */
  lemma {:induction false} ReachableNoEmpty(cap: nat, states: seq<Sys>, labels: seq<Label>, n: nat)
    requires IsRun(cap, states, labels) && n < |states| && forall k :: 0 <= k < n ==> LabelNoEmpty(labels[k])
    ensures SysNoEmpty(states[n])
  {
    if n > 0 {
      ReachableNoEmpty(cap, states, labels, n - 1);
      ReachableGood(cap, states, labels, n - 1);
      assert RunStep(states, labels, n - 1) && LabelNoEmpty(labels[n - 1]);
      JobNoEmpty(states[n - 1].w, labels[n - 1], states[n].w);
    }
  }

  /** Then reconstruct gives, as long as no load was spoilt, exactly the replay of every existing commit. */
  lemma ReconstructIsExact(cap: nat, states: seq<Sys>, labels: seq<Label>, n: nat, id: Id)
    requires IsRun(cap, states, labels) && n < |states| && forall k :: 0 <= k < n ==> LabelNoEmpty(labels[k])
    requires NoneSpoilt(states, labels, n) && id in states[n].w.h.db.rows
    ensures Good(states[n])
    ensures Fetch(states[n].w, id).state == Some(Replay(states[n].w.h.db.rows, states[n].w.h.rank, id))
  {
    ReachableGood(cap, states, labels, n);
    ReachableNoEmpty(cap, states, labels, n);
    IntactIff(cap, states, labels, n);
    FetchExact(states[n].w, id);
  }

  /** And history never changes in the strict sense: a commit keeps the very same replay for as long as it exists. */
  lemma HistoryIsExact(cap: nat, states: seq<Sys>, labels: seq<Label>, i: nat, j: nat, id: Id)
    requires IsRun(cap, states, labels) && i <= j < |states| && forall k :: 0 <= k < j ==> LabelNoEmpty(labels[k])
    requires NoneSpoilt(states, labels, j) && id in states[i].w.h.db.rows && id in states[j].w.h.db.rows
    ensures Good(states[i]) && Good(states[j])
    ensures Replay(states[j].w.h.db.rows, states[j].w.h.rank, id) ==
            Replay(states[i].w.h.db.rows, states[i].w.h.rank, id)
  {
    HistoryNeverChanges(cap, states, labels, i, j, id);
    ReachableNoEmpty(cap, states, labels, i);
    ReachableNoEmpty(cap, states, labels, j);
    ReplayNoEmpty(states[i].w.h.db.rows, states[i].w.h.rank, id);
    ReplayNoEmpty(states[j].w.h.db.rows, states[j].w.h.rank, id);
    SameStateExact(Replay(states[j].w.h.db.rows, states[j].w.h.rank, id),
                   Replay(states[i].w.h.db.rows, states[i].w.h.rank, id));
  }
}
