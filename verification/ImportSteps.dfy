/** The two jobs of a multi-file import (`src/service/GitService.cpp:409-474`) as steps of the history service. */
module ImportSteps {
  import opened Prelude
  import opened LevelModel
  import opened Differ
  import opened Tables
  import opened History
  import opened ServiceModel
  import opened ServiceSteps

  /** Any reads before the import's own (the planner and the root look-ups). */
  ghost function FetchAll(w: World, ids: seq<Id>): (w2: World)
    requires Inv(w)
    ensures Keeps(w, w2) && w2.h == w.h
    decreases |ids|
  {
    EvolvesRefl(w.h);
    if ids == [] then w
    else
      FetchOk(w, ids[0]);
      FetchKeeps(w, ids[0]);
      FetchAll(Fetch(w, ids[0]).w, ids[1..])
  }

  /** `states` are the running states of the import; entry i leads from states[i] to states[i + 1]. */
  ghost predicate ImportChain(ours: LevelState, key: LevelKey, head: Option<Id>, commits: seq<PendingHeadUpdate>,
                              states: seq<LevelState>)
  {
    && ChainShape(commits) && commits[0].levelKey == key && commits[0].parent == head
    && |states| == |commits| + 1 && states[0] == ours
    && (forall i :: 0 <= i < |commits| ==> IsDiff(states[i], states[i + 1], commits[i].delta))
    && commits[|commits| - 1].cacheState == Some(states[|commits|])
  }

  ghost predicate PrepareImportStep(w: World, key: LevelKey, earlier: seq<Id>, commits: seq<PendingHeadUpdate>,
                                    states: seq<LevelState>, tok: Option<Token>, w2: World)
    requires Inv(w)
  {
    var w1 := FetchAll(w, earlier);
    if tok.None? then w2 == w1 || (key in w.h.db.heads && w2 == Fetch(w1, w.h.db.heads[key]).w)
    else if key in w.h.db.heads then
      var f := Fetch(w1, w.h.db.heads[key]);
      w2 == f.w && f.state.Some? && ImportChain(f.state.value, key, Some(w.h.db.heads[key]), commits, states) &&
      tok == Some(ImportToken(commits))
    else
      w2 == w1 && ImportChain(EMPTY_STATE, key, None, commits, states) && tok == Some(ImportToken(commits))
  }

  /** Replaying the pending commits from HEAD's replay gives every running state, up to empty fields. */
  lemma {:induction false} ChainReplays(intact: bool, start: LevelState, commits: seq<PendingHeadUpdate>,
                                        states: seq<LevelState>, n: nat)
    requires |states| == |commits| + 1 && n <= |commits| && Agree(intact, start, states[0])
    requires forall i :: 0 <= i < |commits| ==> IsDiff(states[i], states[i + 1], commits[i].delta)
    ensures Agree(intact, ReplayAll(start, commits, n), states[n])
  {
    if n > 0 {
      ChainReplays(intact, start, commits, states, n - 1);
      AgreeDiff(intact, ReplayAll(start, commits, n - 1), states[n - 1], states[n], commits[n - 1].delta);
    }
  }

  lemma PrepareImportKeeps(w: World, key: LevelKey, earlier: seq<Id>, commits: seq<PendingHeadUpdate>,
                           states: seq<LevelState>, tok: Option<Token>, w2: World)
    requires Inv(w) && PrepareImportStep(w, key, earlier, commits, states, tok, w2)
    ensures Keeps(w, w2) && (tok.Some? ==> Promise(w2.h, tok.value))
  {
    var w1 := FetchAll(w, earlier);
    if key in w.h.db.heads {
      var head: Id := w.h.db.heads[key];
      assert head in w.h.db.rows && w.h.db.rows[head].level == key;
      FetchOk(w1, head);
      FetchKeeps(w1, head);
      KeepsTrans(w, w1, Fetch(w1, head).w);
    }
    if tok.Some? {
      ChainReplays(w2.h.intact, StateAt(w2.h.db.rows, w2.h.rank, commits[0].parent), commits, states, |commits|);
    }
  }

  datatype ImportResult = ImportResult(ok: bool, w: World)

  /** The parent of an entry was minted by an earlier entry of the same import, if it is named by index. */
  ghost predicate EntryParentKnown(commits: seq<PendingHeadUpdate>, i: nat, minted: seq<Id>)
    requires i < |commits|
  {
    commits[i].parentPendingIx.Some? ==> commits[i].parentPendingIx.value < |minted|
  }

  ghost function EntryRow(commits: seq<PendingHeadUpdate>, i: nat, minted: seq<Id>, now: int): Row
    requires i < |commits| && EntryParentKnown(commits, i, minted)
  {
    var p := commits[i];
    var parent := if p.parentPendingIx.Some? then Some(minted[p.parentPendingIx.value]) else p.parent;
    Row(p.levelKey, parent, p.reverts, p.message, now, p.delta)
  }

  /** The insert loop of `finalizeImportManyFromGdge` from entry `i` on. */
  ghost function ImportRun(w: World, commits: seq<PendingHeadUpdate>, clock: nat -> int, i: nat,
                           minted: seq<Id>): ImportResult
    requires i <= |commits|
    decreases |commits| - i
  {
    if i == |commits| then ImportResult(true, w)
    else if !EntryParentKnown(commits, i, minted) then ImportResult(false, w)
    else
      var ins := InsertThen(w, EntryRow(commits, i, minted, clock(i)), commits[i].cacheState);
      if ins.r.Err? then ImportResult(false, ins.w)
      else ImportRun(ins.w, commits, clock, i + 1, minted + [ins.r.value])
  }

  /** After `i` inserts: the last minted commit is HEAD of the chain and replays to the first `i` deltas. */
  ghost predicate ImportAt(w0: World, w: World, commits: seq<PendingHeadUpdate>, i: nat, minted: seq<Id>)
    requires Inv(w0) && i <= |commits| && commits != []
  {
    && Keeps(w0, w) && |minted| == i
    && (i == 0 ==> w == w0)
    && (i > 0 ==> RefOk(w0.h.db.rows, commits[0].parent))
    && (i > 0 ==> LastMinted(w, minted[i - 1], commits[0].levelKey,
                             ReplayAll(StateAt(w0.h.db.rows, w0.h.rank, commits[0].parent), commits, i)))
  }

  ghost predicate LastMinted(w: World, id: Id, key: LevelKey, s: LevelState)
    requires Inv(w)
  {
    && id in w.h.db.rows && w.h.db.rows[id].level == key && Replay(w.h.db.rows, w.h.rank, id) == s
    && key in w.h.db.heads && w.h.db.heads[key] == id
  }

  /** One turn of the insert loop. */
  lemma ImportUnroll(w: World, commits: seq<PendingHeadUpdate>, clock: nat -> int, i: nat, minted: seq<Id>)
    requires i < |commits| && EntryParentKnown(commits, i, minted)
    ensures var ins := InsertThen(w, EntryRow(commits, i, minted, clock(i)), commits[i].cacheState);
            ImportRun(w, commits, clock, i, minted) ==
            if ins.r.Err? then ImportResult(false, ins.w)
            else ImportRun(ins.w, commits, clock, i + 1, minted + [ins.r.value])
  {
  }

  /** A turn of the insert loop that finds its parent and keeps `inv`. */
  ghost predicate TurnKeeps(inv: (World, nat, seq<Id>) -> bool, w: World, commits: seq<PendingHeadUpdate>,
                            clock: nat -> int, i: nat, minted: seq<Id>)
    requires i < |commits|
  {
    EntryParentKnown(commits, i, minted) &&
    var ins := InsertThen(w, EntryRow(commits, i, minted, clock(i)), commits[i].cacheState);
    if ins.r.Ok? then inv(ins.w, i + 1, minted + [ins.r.value]) else ins.w == w
  }

  ghost predicate TurnFails(w: World, commits: seq<PendingHeadUpdate>, clock: nat -> int, i: nat, minted: seq<Id>) {
    i < |commits| && EntryParentKnown(commits, i, minted) &&
    InsertThen(w, EntryRow(commits, i, minted, clock(i)), commits[i].cacheState).r.Err?
  }

  /** What every turn keeps holds when the loop stops, at the end or at an entry that cannot be inserted. */
  lemma {:induction false} RunInvariant(inv: (World, nat, seq<Id>) -> bool, w: World, commits: seq<PendingHeadUpdate>,
                                        clock: nat -> int, i: nat, minted: seq<Id>) returns (j: nat, mj: seq<Id>)
    requires i <= |commits| && inv(w, i, minted)
    requires forall x: World, k: nat, m: seq<Id> :: inv(x, k, m) && k < |commits| ==>
             TurnKeeps(inv, x, commits, clock, k, m)
    ensures inv(ImportRun(w, commits, clock, i, minted).w, j, mj)
    ensures ImportRun(w, commits, clock, i, minted).ok ==> j == |commits|
    ensures !ImportRun(w, commits, clock, i, minted).ok ==>
              TurnFails(ImportRun(w, commits, clock, i, minted).w, commits, clock, j, mj)
    decreases |commits| - i
  {
    j, mj := i, minted;
    if i < |commits| {
      assert TurnKeeps(inv, w, commits, clock, i, minted);
      ImportUnroll(w, commits, clock, i, minted);
      var ins := InsertThen(w, EntryRow(commits, i, minted, clock(i)), commits[i].cacheState);
      if ins.r.Ok? {
        j, mj := RunInvariant(inv, ins.w, commits, clock, i + 1, minted + [ins.r.value]);
      }
    }
  }

  lemma EntryRowIs(commits: seq<PendingHeadUpdate>, i: nat, minted: seq<Id>, now: int)
    requires i < |commits| && ChainEntry(commits, i) && |minted| == i
    ensures EntryParentKnown(commits, i, minted)
    ensures var row := EntryRow(commits, i, minted, now);
            && row.parent == (if i > 0 then Some(minted[i - 1]) else commits[0].parent) && row.reverts.None?
            && row.level == commits[0].levelKey && row.delta == commits[i].delta
  {
  }

  lemma ImportOne(w0: World, w: World, commits: seq<PendingHeadUpdate>, i: nat, minted: seq<Id>, now: int)
    requires Inv(w0) && i < |commits| && ImportPromise(w0.h, commits) && ImportAt(w0, w, commits, i, minted)
    ensures EntryParentKnown(commits, i, minted)
    ensures var ins := InsertThen(w, EntryRow(commits, i, minted, now), commits[i].cacheState);
            && (ins.r.Ok? <==> i > 0 || RefOk(w0.h.db.rows, commits[0].parent))
            && (if ins.r.Ok? then ImportAt(w0, ins.w, commits, i + 1, minted + [ins.r.value]) else ins.w == w0)
  {
    assert ChainEntry(commits, i);
    EntryRowIs(commits, i, minted, now);
    var row := EntryRow(commits, i, minted, now);
    ImportEntry(w0, w, commits, i, minted, row.parent, row);
    InsertThenKeeps(w, row, commits[i].cacheState);
    var ins := InsertThen(w, row, commits[i].cacheState);
    if ins.r.Ok? {
      ImportPushed(w0, w, commits, i, minted, row, ins.r.value, ins.w);
    }
  }

  lemma ImportPushed(w0: World, w: World, commits: seq<PendingHeadUpdate>, i: nat, minted: seq<Id>, row: Row, id: Id,
                     w2: World)
    requires Inv(w0) && i < |commits| && ImportAt(w0, w, commits, i, minted) && RefOk(w0.h.db.rows, commits[0].parent)
    requires Keeps(w, w2) && w2.h == Inserted(w.h, row) && id == w.h.db.nextId
    requires row.level == commits[0].levelKey && RefOk(w.h.db.rows, row.parent) && NewState(w, w2, row)
    requires Apply(StateAt(w.h.db.rows, w.h.rank, row.parent), row.delta) ==
             ReplayAll(StateAt(w0.h.db.rows, w0.h.rank, commits[0].parent), commits, i + 1)
    ensures ImportAt(w0, w2, commits, i + 1, minted + [id])
  {
    KeepsTrans(w0, w, w2);
    assert (minted + [id])[i] == id;
    assert LastMinted(w2, id, commits[0].levelKey,
                      ReplayAll(StateAt(w0.h.db.rows, w0.h.rank, commits[0].parent), commits, i + 1));
  }

  /** Entry `i` fits the store it meets, and its cached state is what it will replay to. */
  lemma ImportEntry(w0: World, w: World, commits: seq<PendingHeadUpdate>, i: nat, minted: seq<Id>, parent: Option<Id>,
                    row: Row)
    requires Inv(w0) && i < |commits| && ImportPromise(w0.h, commits) && ImportAt(w0, w, commits, i, minted)
    requires ChainEntry(commits, i)
    requires parent == if i > 0 then Some(minted[i - 1]) else commits[0].parent
    requires row.level == commits[0].levelKey && row.parent == parent && row.reverts.None? &&
             row.delta == commits[i].delta
    ensures RowFits(w.h, row)
    ensures i > 0 ==> RefOk(w.h.db.rows, parent)
    ensures RefOk(w.h.db.rows, parent) ==> RefOk(w0.h.db.rows, commits[0].parent)
    ensures RefOk(w.h.db.rows, parent) ==>
              Apply(StateAt(w.h.db.rows, w.h.rank, parent), row.delta) ==
              ReplayAll(StateAt(w0.h.db.rows, w0.h.rank, commits[0].parent), commits, i + 1)
    ensures RefOk(w.h.db.rows, parent) && commits[i].cacheState.Some? ==>
              Agree(w.h.intact, Apply(StateAt(w.h.db.rows, w.h.rank, parent), row.delta), commits[i].cacheState.value)
  {
    if i > 0 {
      var last: Id := minted[i - 1];
      assert LastMinted(w, last, commits[0].levelKey,
                        ReplayAll(StateAt(w0.h.db.rows, w0.h.rank, commits[0].parent), commits, i));
      assert last in w.h.rank;
    }
  }

  /** The imported level's HEAD replays to the payload state. */
  ghost predicate Landed(w0: World, w2: World, commits: seq<PendingHeadUpdate>)
    requires Inv(w2) && ChainShape(commits)
  {
    var key := commits[0].levelKey;
    key in w2.h.db.heads && w2.h.db.heads[key] in w2.h.db.rows &&
    Agree(w2.h.intact, Replay(w2.h.db.rows, w2.h.rank, w2.h.db.heads[key]), commits[|commits| - 1].cacheState.value)
  }

  // ---------------------------------------------------------------- what the loop achieves

  /** Everything lands, or (only if its base is gone) nothing. */
  ghost predicate ImportGoal(w0: World, commits: seq<PendingHeadUpdate>, res: ImportResult)
    requires Inv(w0) && ChainShape(commits)
  {
    && Keeps(w0, res.w)
    && (res.ok <==> RefOk(w0.h.db.rows, commits[0].parent))
    && (if res.ok then Landed(w0, res.w, commits) else res.w == w0)
  }

  ghost predicate At(w0: World, commits: seq<PendingHeadUpdate>, w: World, i: nat, minted: seq<Id>) {
    Inv(w0) && ImportPromise(w0.h, commits) && i <= |commits| && ImportAt(w0, w, commits, i, minted)
  }

  /** `At` as a loop invariant. */
  ghost function AtEntry(w0: World, commits: seq<PendingHeadUpdate>): (World, nat, seq<Id>) -> bool {
    (w: World, i: nat, minted: seq<Id>) => At(w0, commits, w, i, minted)
  }

  lemma TurnGoesOn(w0: World, commits: seq<PendingHeadUpdate>, clock: nat -> int, w: World, i: nat, minted: seq<Id>)
    requires AtEntry(w0, commits)(w, i, minted) && i < |commits|
    ensures TurnKeeps(AtEntry(w0, commits), w, commits, clock, i, minted)
  {
    EntryGoesOn(w0, w, commits, i, minted, clock(i));
  }

  lemma EntryGoesOn(w0: World, w: World, commits: seq<PendingHeadUpdate>, i: nat, minted: seq<Id>, now: int)
    requires At(w0, commits, w, i, minted) && i < |commits|
    ensures EntryParentKnown(commits, i, minted)
    ensures var ins := InsertThen(w, EntryRow(commits, i, minted, now), commits[i].cacheState);
            if ins.r.Ok? then At(w0, commits, ins.w, i + 1, minted + [ins.r.value]) else ins.w == w
  {
    ImportOne(w0, w, commits, i, minted, now);
  }

  lemma LoopEnds(w0: World, commits: seq<PendingHeadUpdate>, clock: nat -> int, res: ImportResult, j: nat, mj: seq<Id>)
    requires AtEntry(w0, commits)(res.w, j, mj)
    requires res.ok ==> j == |commits|
    requires !res.ok ==> TurnFails(res.w, commits, clock, j, mj)
    ensures ImportGoal(w0, commits, res)
  {
    if res.ok {
      assert LastMinted(res.w, mj[j - 1], commits[0].levelKey,
                        ReplayAll(StateAt(w0.h.db.rows, w0.h.rank, commits[0].parent), commits, j));
    } else {
      ImportOne(w0, res.w, commits, j, mj, clock(j));
    }
  }

  lemma ImportRunKeeps(w0: World, commits: seq<PendingHeadUpdate>, clock: nat -> int)
    requires Inv(w0) && ImportPromise(w0.h, commits) && At(w0, commits, w0, 0, [])
    ensures ImportGoal(w0, commits, ImportRun(w0, commits, clock, 0, []))
  {
    var inv := AtEntry(w0, commits);
    forall w: World, i: nat, minted: seq<Id> | inv(w, i, minted) && i < |commits|
      ensures TurnKeeps(inv, w, commits, clock, i, minted)
    {
      TurnGoesOn(w0, commits, clock, w, i, minted);
    }
    var j, mj := RunInvariant(inv, w0, commits, clock, 0, []);
    LoopEnds(w0, commits, clock, ImportRun(w0, commits, clock, 0, []), j, mj);
  }

  ghost predicate FinalizeImportStep(w: World, commits: seq<PendingHeadUpdate>, clock: nat -> int, ok: bool,
                                     w2: World)
  {
    ImportResult(ok, w2) == ImportRun(w, commits, clock, 0, [])
  }

  // ---------------------------------------------------------------- the rows an import adds

  /** Entry `i` of a chain as a row, if the chain's first row has the id `first`. */
  function ChainRow(commits: seq<PendingHeadUpdate>, clock: nat -> int, first: Id, i: nat): Row
    requires i < |commits|
  {
    var p := commits[i];
    Row(p.levelKey, if i == 0 then p.parent else Some(first + i - 1), None, p.message, clock(i), p.delta)
  }

  /** The first `n` entries in order on top of each other, HEAD on the last one, and nothing else. */
  ghost predicate ChainAdded(before: Db, after: Db, commits: seq<PendingHeadUpdate>, clock: nat -> int, n: nat)
    requires 0 < n <= |commits|
  {
    && after.nextId == before.nextId + n
    && (forall i :: i in after.rows <==> i in before.rows || before.nextId <= i < before.nextId + n)
    && (forall i :: i in before.rows && i < before.nextId ==> after.rows[i] == before.rows[i])
    && (forall j :: 0 <= j < n ==> RowIs(after, before.nextId + j, ChainRow(commits, clock, before.nextId, j)))
    && after.heads == before.heads[commits[0].levelKey := before.nextId + n - 1]
  }

  ghost predicate RowIs(db: Db, id: Id, row: Row) {
    id in db.rows && db.rows[id] == row
  }

  /** The ids minted by the first `n` inserts. */
  function Issued(first: Id, n: nat): seq<Id> {
    seq(n, j requires 0 <= j < n => first + j)
  }

  ghost predicate AddedSoFar(before: Db, db: Db, commits: seq<PendingHeadUpdate>, clock: nat -> int, n: nat) {
    n <= |commits| && if n == 0 then db == before else ChainAdded(before, db, commits, clock, n)
  }

  lemma ChainGrows(before: Db, db: Db, commits: seq<PendingHeadUpdate>, clock: nat -> int, n: nat)
    requires ChainShape(commits) && n < |commits| && AddedSoFar(before, db, commits, clock, n)
    requires EntryParentKnown(commits, n, Issued(before.nextId, n))
    ensures var row := EntryRow(commits, n, Issued(before.nextId, n), clock(n));
            AddedSoFar(before, InsertHead(db, row), commits, clock, n + 1)
    ensures db.nextId == before.nextId + n
  {
    assert ChainEntry(commits, n);
    var row := ChainRow(commits, clock, before.nextId, n);
    assert row == EntryRow(commits, n, Issued(before.nextId, n), clock(n));
    forall j | 0 <= j < n + 1
      ensures RowIs(InsertHead(db, row), before.nextId + j, ChainRow(commits, clock, before.nextId, j))
    {
      assert j < n ==> RowIs(db, before.nextId + j, ChainRow(commits, clock, before.nextId, j));
    }
  }

  /** A turn of the insert loop that goes on. */
  lemma EntryAdds(before: Db, w: World, commits: seq<PendingHeadUpdate>, clock: nat -> int, n: nat)
    requires ChainShape(commits) && n < |commits| && AddedSoFar(before, w.h.db, commits, clock, n)
    requires EntryParentKnown(commits, n, Issued(before.nextId, n))
    requires InsertThen(w, EntryRow(commits, n, Issued(before.nextId, n), clock(n)), commits[n].cacheState).r.Ok?
    ensures var ins := InsertThen(w, EntryRow(commits, n, Issued(before.nextId, n), clock(n)), commits[n].cacheState);
            AddedSoFar(before, ins.w.h.db, commits, clock, n + 1) &&
            Issued(before.nextId, n) + [ins.r.value] == Issued(before.nextId, n + 1)
  {
    ChainGrows(before, w.h.db, commits, clock, n);
  }

  /** An import that succeeds adds exactly its chain. */
  lemma {:induction false} ImportAdds(before: Db, w: World, commits: seq<PendingHeadUpdate>, clock: nat -> int, n: nat)
    requires ChainShape(commits) && AddedSoFar(before, w.h.db, commits, clock, n)
    requires ImportRun(w, commits, clock, n, Issued(before.nextId, n)).ok
    ensures AddedSoFar(before, ImportRun(w, commits, clock, n, Issued(before.nextId, n)).w.h.db, commits, clock,
                       |commits|)
    decreases |commits| - n
  {
    if n < |commits| {
      var minted := Issued(before.nextId, n);
      ImportUnroll(w, commits, clock, n, minted);
      EntryAdds(before, w, commits, clock, n);
      ImportAdds(before, InsertThen(w, EntryRow(commits, n, minted, clock(n)), commits[n].cacheState).w, commits, clock,
                 n + 1);
    }
  }

  lemma {:induction false} ImportKeepsIntact(w: World, commits: seq<PendingHeadUpdate>, clock: nat -> int, i: nat,
                                             minted: seq<Id>)
    requires i <= |commits|
    ensures ImportRun(w, commits, clock, i, minted).w.h.intact == w.h.intact
    decreases |commits| - i
  {
    if i < |commits| && EntryParentKnown(commits, i, minted) {
      var ins := InsertThen(w, EntryRow(commits, i, minted, clock(i)), commits[i].cacheState);
      if ins.r.Ok? {
        ImportKeepsIntact(ins.w, commits, clock, i + 1, minted + [ins.r.value]);
      }
    }
  }

  lemma FinalizeImportKeeps(w: World, commits: seq<PendingHeadUpdate>, clock: nat -> int, ok: bool, w2: World)
    requires Inv(w) && Promise(w.h, ImportToken(commits)) && FinalizeImportStep(w, commits, clock, ok, w2)
    ensures Keeps(w, w2) && w2.h.intact == w.h.intact
    ensures ok <==> RefOk(w.h.db.rows, commits[0].parent)
    ensures if ok then Landed(w, w2, commits) else w2 == w
  {
    ImportKeepsIntact(w, commits, clock, 0, []);
    EvolvesRefl(w.h);
    ImportRunKeeps(w, commits, clock);
  }
}
