/** Interleavings of prepare and finalize that break a property, as concrete runs. */
module Interleavings {
  import opened Prelude
  import opened LevelModel
  import opened Differ
  import opened DifferLaws
  import opened Tables
  import opened History
  import opened SquashHistory
  import opened ServiceModel
  import opened StoreInvariants
  import opened ServiceSteps
  import opened Runs
  import Timeline

  const NO_CHANGE := Delta(map[], None, [], [], [])

  lemma NoChange(s: LevelState)
    ensures IsDiff(s, s, NO_CHANGE)
  {
    forall u | u in s.objects ensures DiffFields(s.objects[u].fields, s.objects[u].fields) == map[] {
      DiffFieldsEmpty(s.objects[u].fields, s.objects[u].fields);
    }
    DiffFieldsEmpty(s.header, s.header);
  }

  /** The service after committing the empty level twice on one level. */
  function TwoCommits(cap: nat, k: LevelKey): (w: World)
    ensures w.cap == cap && 2 in w.cache && w.cache[2] == EMPTY_STATE
  {
    var rows := map[1 := Row(k, None, None, "", 0, NO_CHANGE), 2 := Row(k, Some(1), None, "", 0, NO_CHANGE)];
    World(Ranked(Db(rows, map[k := 2], 3), map[1 := 0, 2 := 1], true),
          CachePut(map[1 := EMPTY_STATE], cap, 2, EMPTY_STATE), cap)
  }

  function OneCommit(cap: nat, k: LevelKey): World {
    World(Ranked(Db(map[1 := Row(k, None, None, "", 0, NO_CHANGE)], map[k := 1], 2), map[1 := 0], true),
          map[1 := EMPTY_STATE], cap)
  }

  lemma FirstCommit(cap: nat, k: LevelKey)
    ensures CommitStep(EmptyWorld(cap), k, "", 0, EMPTY_STATE, EMPTY_STATE, NO_CHANGE, Ok(1), OneCommit(cap, k))
  {
    NoChange(EMPTY_STATE);
    var row := Row(k, None, None, "", 0, NO_CHANGE);
    assert InsertHead(EmptyWorld(cap).h.db, row) == OneCommit(cap, k).h.db;
    assert CachePut(map[], cap, 1, EMPTY_STATE) == map[1 := EMPTY_STATE];
  }

  lemma SecondCommit(cap: nat, k: LevelKey)
    requires Sound(OneCommit(cap, k).h)
    ensures CommitStep(OneCommit(cap, k), k, "", 0, EMPTY_STATE, EMPTY_STATE, NO_CHANGE, Ok(2), TwoCommits(cap, k))
  {
    NoChange(EMPTY_STATE);
    var w, row := OneCommit(cap, k), Row(k, Some(1), None, "", 0, NO_CHANGE);
    assert Fetch(w, 1) == Fetched(Some(EMPTY_STATE), w);
    SecondInserted(cap, k, row);
  }

  lemma SecondInserted(cap: nat, k: LevelKey, row: Row)
    requires row == Row(k, Some(1), None, "", 0, NO_CHANGE)
    ensures InsertThen(OneCommit(cap, k), row, Some(EMPTY_STATE)) == Insertion(Ok(2), TwoCommits(cap, k))
  {
    var w := OneCommit(cap, k);
    assert InsertHead(w.h.db, row) == TwoCommits(cap, k).h.db;
    assert RefOk(InsertHead(w.h.db, row).rows, Some(1));
    assert w.h.rank[2 := NewRank(w.h.rank, Some(1), None)] == TwoCommits(cap, k).h.rank;
  }

  function WholeHistory(k: LevelKey): SquashArgs {
    SquashArgs(k, [1, 2], None, "", NO_CHANGE)
  }

  /** The service after the level is deleted, and after the late squash. */
  function NoCommits(cap: nat): World {
    World(Ranked(Db(map[], map[], 3), map[1 := 0, 2 := 1], true), map[], cap)
  }

  function Headless(cap: nat, k: LevelKey): World {
    World(Ranked(Db(map[3 := Row(k, None, None, "", 0, NO_CHANGE)], map[], 4), map[1 := 0, 2 := 1, 3 := 1], true),
          map[3 := EMPTY_STATE], cap)
  }

  lemma DeletedHistory(cap: nat, k: LevelKey)
    ensures DeleteStep(TwoCommits(cap, k), k, true, NoCommits(cap))
  {
    var db := TwoCommits(cap, k).h.db;
    assert LevelIds(db, k) == {1, 2};
    assert Deleted(db, k) == NoCommits(cap).h.db;
  }

  lemma LateSquash(cap: nat, k: LevelKey)
    ensures FinalizeSquashStep(NoCommits(cap), WholeHistory(k), EMPTY_STATE, 0, Some(3), Headless(cap, k))
    ensures !HeadIffCommits(Headless(cap, k).h.db)
  {
    var w, a := NoCommits(cap), WholeHistory(k);
    assert Squashed(w.h.db, a, 0).rows == map[3 := Row(k, None, None, "", 0, NO_CHANGE)];
    assert Squashed(w.h.db, a, 0) == Headless(cap, k).h.db;
    assert AfterSquash(w.h, a, 0) == Headless(cap, k).h;
    assert CachePut(map[], cap, 3, EMPTY_STATE) == map[3 := EMPTY_STATE];
    assert 3 in Headless(cap, k).h.db.rows;
  }

  function HeadlessLabel(k: LevelKey, n: nat): Label {
    var tok := SquashToken(WholeHistory(k), EMPTY_STATE);
    if n == 0 then DoCommit(k, "", 0, EMPTY_STATE, EMPTY_STATE, NO_CHANGE, Ok(1))
    else if n == 1 then DoCommit(k, "", 0, EMPTY_STATE, EMPTY_STATE, NO_CHANGE, Ok(2))
    else if n == 2 then DoPrepareSquash(k, [1, 2], "", Ok(EMPTY_STATE), Some(tok))
    else if n == 3 then DoDelete(k, true)
    else DoFinalizeSquash(tok, 0, Some(3))
  }

  function HeadlessState(cap: nat, k: LevelKey, n: nat): Sys {
    var tok := SquashToken(WholeHistory(k), EMPTY_STATE);
    if n == 0 then Sys(EmptyWorld(cap), {})
    else if n == 1 then Sys(OneCommit(cap, k), {})
    else if n == 2 then Sys(TwoCommits(cap, k), {})
    else if n == 3 then Sys(TwoCommits(cap, k), {tok})
    else if n == 4 then Sys(NoCommits(cap), {tok})
    else Sys(Headless(cap, k), {tok})
  }

  lemma HeadlessStep(cap: nat, k: LevelKey, n: nat)
    requires n < 5 && Good(HeadlessState(cap, k, n))
    ensures Next(HeadlessState(cap, k, n), HeadlessLabel(k, n), HeadlessState(cap, k, n + 1))
  {
    HeadlessJob(cap, k, n);
    HeadlessTokens(cap, k, n);
  }

  lemma HeadlessTokens(cap: nat, k: LevelKey, n: nat)
    requires n < 5
    ensures UsesKnown(HeadlessState(cap, k, n), HeadlessLabel(k, n))
    ensures HeadlessState(cap, k, n + 1).tokens == HeadlessState(cap, k, n).tokens + HandedOut(HeadlessLabel(k, n))
  {
  }

  lemma HeadlessJob(cap: nat, k: LevelKey, n: nat)
    requires n < 5 && Inv(HeadlessState(cap, k, n).w)
    ensures Job(HeadlessState(cap, k, n).w, HeadlessLabel(k, n), HeadlessState(cap, k, n + 1).w)
  {
    if n == 0 { FirstCommit(cap, k); }
    else if n == 1 { SecondCommit(cap, k); }
    else if n == 2 { PreparedSquash(cap, k, WholeHistory(k)); }
    else if n == 3 { DeletedHistory(cap, k); }
    else { LateSquash(cap, k); }
  }

  /**
   * Prepare a squash of a level's whole history, delete the level, finalize the squash: the level then has a
   * commit but no HEAD.
   */
  lemma HeadlessSquash(cap: nat, k: LevelKey) returns (states: seq<Sys>, labels: seq<Label>)
    ensures IsRun(cap, states, labels) && |states| == 6
    ensures SquashesHeadless(states[4].w, labels[4]) && !HeadIffCommits(states[5].w.h.db)
  {
    states := seq(6, n requires 0 <= n < 6 => HeadlessState(cap, k, n));
    labels := seq(5, n requires 0 <= n < 5 => HeadlessLabel(k, n));
    forall n | 0 <= n < |labels| ensures RunStep(states, labels, n) {
      if Good(states[n]) {
        HeadlessStep(cap, k, n);
      }
    }
    LateSquash(cap, k);
  }

  lemma PreparedSquash(cap: nat, k: LevelKey, a: SquashArgs)
    requires Inv(TwoCommits(cap, k)) && a == SquashArgs(k, [1, 2], None, "", NO_CHANGE)
    ensures PrepareSquashStep(TwoCommits(cap, k), k, [1, 2], "", Ok(EMPTY_STATE), Some(SquashToken(a, EMPTY_STATE)),
                              TwoCommits(cap, k))
  {
    var w, ids := TwoCommits(cap, k), [1, 2];
    NoChange(EMPTY_STATE);
    assert CanSquash(w.h.db, k, ids);
    SquashRefs(w, k, ids);
    assert Fetch(w, 2) == Fetched(Some(EMPTY_STATE), w);
    assert SquashFetch(w, None, 2) == SquashStates(EMPTY_STATE, EMPTY_STATE, w);
  }

  // ---------------------------------------------------------------- one squash finalized twice

  /** After the first and after the second time. */
  function SquashedOnce(cap: nat, k: LevelKey): World {
    World(Ranked(Db(map[3 := Row(k, None, None, "", 0, NO_CHANGE)], map[k := 3], 4), map[1 := 0, 2 := 1, 3 := 1], true),
          map[3 := EMPTY_STATE], cap)
  }

  function SquashedTwice(cap: nat, k: LevelKey): World {
    var row := Row(k, None, None, "", 0, NO_CHANGE);
    World(Ranked(Db(map[3 := row, 4 := row], map[k := 3], 5), map[1 := 0, 2 := 1, 3 := 1, 4 := 1], true),
          map[4 := EMPTY_STATE], cap)
  }

  lemma FirstTime(cap: nat, k: LevelKey)
    ensures FinalizeSquashStep(TwoCommits(cap, k), WholeHistory(k), EMPTY_STATE, 0, Some(3), SquashedOnce(cap, k))
  {
    var w, a := TwoCommits(cap, k), WholeHistory(k);
    assert a.Newest() == 2;
    assert Squashed(w.h.db, a, 0).rows == SquashedOnce(cap, k).h.db.rows;
    assert Squashed(w.h.db, a, 0).heads == map[k := 3];
    assert AfterSquash(w.h, a, 0).rank == SquashedOnce(cap, k).h.rank;
    assert CachePut(map[], cap, 3, EMPTY_STATE) == map[3 := EMPTY_STATE];
  }

  lemma SecondTime(cap: nat, k: LevelKey)
    ensures FinalizeSquashStep(SquashedOnce(cap, k), WholeHistory(k), EMPTY_STATE, 0, Some(4), SquashedTwice(cap, k))
  {
    var w, a := SquashedOnce(cap, k), WholeHistory(k);
    assert a.Newest() == 2;
    assert Squashed(w.h.db, a, 0).rows == SquashedTwice(cap, k).h.db.rows;
    assert Squashed(w.h.db, a, 0).heads == map[k := 3];
    assert AfterSquash(w.h, a, 0).rank == SquashedTwice(cap, k).h.rank;
    assert CachePut(map[], cap, 4, EMPTY_STATE) == map[4 := EMPTY_STATE];
  }

  function TwiceLabel(k: LevelKey, n: nat): Label {
    var tok := SquashToken(WholeHistory(k), EMPTY_STATE);
    if n < 3 then HeadlessLabel(k, n)
    else if n == 3 then DoFinalizeSquash(tok, 0, Some(3))
    else DoFinalizeSquash(tok, 0, Some(4))
  }

  function TwiceState(cap: nat, k: LevelKey, n: nat): Sys {
    var tok := SquashToken(WholeHistory(k), EMPTY_STATE);
    if n < 4 then HeadlessState(cap, k, n)
    else if n == 4 then Sys(SquashedOnce(cap, k), {tok})
    else Sys(SquashedTwice(cap, k), {tok})
  }

  lemma TwiceStep(cap: nat, k: LevelKey, n: nat)
    requires n < 5 && Good(TwiceState(cap, k, n))
    ensures Next(TwiceState(cap, k, n), TwiceLabel(k, n), TwiceState(cap, k, n + 1))
  {
    if n < 3 {
      HeadlessStep(cap, k, n);
    } else {
      TwiceJob(cap, k, n);
      TwiceTokens(cap, k, n);
    }
  }

  lemma TwiceTokens(cap: nat, k: LevelKey, n: nat)
    requires 3 <= n < 5
    ensures UsesKnown(TwiceState(cap, k, n), TwiceLabel(k, n))
    ensures TwiceState(cap, k, n + 1).tokens == TwiceState(cap, k, n).tokens + HandedOut(TwiceLabel(k, n))
  {
  }

  lemma TwiceJob(cap: nat, k: LevelKey, n: nat)
    requires 3 <= n < 5 && Inv(TwiceState(cap, k, n).w)
    ensures Job(TwiceState(cap, k, n).w, TwiceLabel(k, n), TwiceState(cap, k, n + 1).w)
  {
    if n == 3 {
      FirstTime(cap, k);
    } else {
      SecondTime(cap, k);
    }
  }

  lemma TwoRoots(cap: nat, k: LevelKey)
    ensures var db := SquashedTwice(cap, k).h.db;
            HeadIffCommits(db) && k in db.heads && !Timeline.HasTimeline(db, k)
  {
    Timeline.TwoChildrenFork(SquashedTwice(cap, k).h.db, k, 3, 4);
  }

  lemma SecondTimeBends(cap: nat, k: LevelKey)
    ensures Timeline.Bends(SquashedOnce(cap, k), TwiceLabel(k, 4))
  {
    SecondTime(cap, k);
    assert WholeHistory(k).ids[0] !in SquashedOnce(cap, k).h.db.rows;
  }

  /** Finalizing one squash twice leaves the level with two roots, although it has a HEAD. */
  lemma SquashTwice(cap: nat, k: LevelKey) returns (states: seq<Sys>, labels: seq<Label>)
    ensures IsRun(cap, states, labels) && |states| == 6
    ensures HeadIffCommits(states[5].w.h.db) && k in states[5].w.h.db.heads
    ensures Timeline.Bends(states[4].w, labels[4]) && !Timeline.HasTimeline(states[5].w.h.db, k)
  {
    states := seq(6, n requires 0 <= n < 6 => TwiceState(cap, k, n));
    labels := seq(5, n requires 0 <= n < 5 => TwiceLabel(k, n));
    forall n | 0 <= n < |labels| ensures RunStep(states, labels, n) {
      if Good(states[n]) {
        TwiceStep(cap, k, n);
      }
    }
    TwoRoots(cap, k);
    SecondTimeBends(cap, k);
  }

  // ---------------------------------------------------------------- a load finalized after its source moved

  const RAW_CHANGE := Delta(map[], Some(FieldChange("", "k")), [], [], [])

  const MOVED := LevelState("k", map[], map[])

  /** `src` after the second commit, and the store after the late load into `dest`. */
  function MovedDb(src: LevelKey): Db {
    Db(map[1 := Row(src, None, None, "", 0, NO_CHANGE), 2 := Row(src, Some(1), None, "", 0, RAW_CHANGE)], map[src := 2],
       3)
  }

  function LoadedDb(src: LevelKey, dest: LevelKey): Db {
    var db := MovedDb(src);
    Db(db.rows[3 := Row(dest, None, None, "", 0, NO_CHANGE)][4 := Row(dest, Some(3), None, "", 0, RAW_CHANGE)],
       db.heads[dest := 4], 5)
  }

  lemma LoadedRows(src: LevelKey, dest: LevelKey)
    requires dest != src
    ensures LevelIds(MovedDb(src), src) == {1, 2} && LevelIds(MovedDb(src), dest) == {}
    ensures RowsCopied(MovedDb(src), LoadedDb(src, dest).rows, dest, map[1 := 3, 2 := 4])
  {
    var before, rows, m: map<Id, Id> := MovedDb(src), LoadedDb(src, dest).rows, map[1 := 3, 2 := 4];
    assert LevelIds(before, src) == {1, 2} && LevelIds(before, dest) == {};
    assert m[1] == 3 && m[2] == 4;
    assert 3 in m.Values && 4 in m.Values;
    assert m.Values == {3, 4};
    assert before.rows.Keys == {1, 2} && rows.Keys == {1, 2, 3, 4};
    assert MapRef(None, m) == None && MapRef(Some(1), m) == Some(3);
    assert rows[3] == CopyRow(before.rows[1], dest, m) && rows[4] == CopyRow(before.rows[2], dest, m);
  }

  lemma LoadedIsCopy(src: LevelKey, dest: LevelKey)
    requires dest != src
    ensures Copied(MovedDb(src), LoadedDb(src, dest), dest, src, map[1 := 3, 2 := 4])
  {
    TwoCopies();
    LoadedRows(src, dest);
    LoadedHeads(src, dest);
    MovedClosed(src);
  }

  lemma TwoCopies()
    ensures var m: map<Id, Id> := map[1 := 3, 2 := 4];
            m.Keys == {1, 2} && |m| == 2 && FreshIds(3, 5, m)
  {
    var m: map<Id, Id> := map[1 := 3, 2 := 4];
    assert m.Keys == {1, 2};
    assert |m.Keys| == 2;
  }

  lemma LoadedHeads(src: LevelKey, dest: LevelKey)
    ensures MovedDb(src).heads[src] == 2 && LoadedDb(src, dest).heads == MovedDb(src).heads[dest := 4]
    ensures MovedDb(src).nextId == 3 && LoadedDb(src, dest).nextId == 5
  {
  }

  lemma MovedClosed(src: LevelKey)
    ensures LevelIds(MovedDb(src), src) == {1, 2} && Closed(MovedDb(src), LevelIds(MovedDb(src), src))
  {
    var db := MovedDb(src);
    assert LevelIds(db, src) == {1, 2};
    assert Deps(db.rows[1]) == {} && Deps(db.rows[2]) == {1};
  }

  lemma LoadedFk(src: LevelKey, dest: LevelKey)
    requires dest != src
    ensures FkOk(LoadedDb(src, dest))
  {
  }

  lemma MovingCommit(cap: nat, src: LevelKey) returns (w2: World)
    requires Inv(OneCommit(cap, src))
    ensures CommitStep(OneCommit(cap, src), src, "", 0, EMPTY_STATE, MOVED, RAW_CHANGE, Ok(2), w2)
    ensures w2.h.db == MovedDb(src) && w2.cap == cap
  {
    var w, row := OneCommit(cap, src), Row(src, Some(1), None, "", 0, RAW_CHANGE);
    assert Fetch(w, 1) == Fetched(Some(EMPTY_STATE), w);
    assert DiffFields(EMPTY_STATE.header, MOVED.header) == map[];
    assert IsDiff(EMPTY_STATE, MOVED, RAW_CHANGE);
    assert InsertHead(w.h.db, row) == MovedDb(src);
    assert RefOk(MovedDb(src).rows, Some(1));
    w2 := InsertThen(w, row, Some(MOVED)).w;
  }

  function StaleToken(src: LevelKey, dest: LevelKey): Token {
    ReplaceToken(dest, src, EMPTY_STATE, 1)
  }

  /** The label of the late load. */
  function LateLabel(src: LevelKey, dest: LevelKey): Label {
    DoFinalizeReplace(StaleToken(src, dest), true, map[1 := 3, 2 := 4])
  }

  function PrepareLabel(src: LevelKey, dest: LevelKey): Label {
    DoPrepareReplace(dest, src, Ok(EMPTY_STATE), Some(StaleToken(src, dest)))
  }

  function MovingLabel(src: LevelKey): Label {
    DoCommit(src, "", 0, EMPTY_STATE, MOVED, RAW_CHANGE, Ok(2))
  }

  function EmptyLabel(key: LevelKey, n: Id): Label {
    DoCommit(key, "", 0, EMPTY_STATE, EMPTY_STATE, NO_CHANGE, Ok(n))
  }

  lemma LoadPrepared(cap: nat, src: LevelKey, dest: LevelKey) returns (states: seq<Sys>, labels: seq<Label>, s: Sys)
    requires src != dest
    ensures IsRun(cap, states, labels) && |labels| == 2
    ensures s == states[2] && Good(s) && s.w == OneCommit(cap, src) && StaleToken(src, dest) in s.tokens
  {
    EmptyGood(cap);
    var s0 := Sys(EmptyWorld(cap), {});
    FirstCommit(cap, src);
    states, labels := Extend(cap, [s0], [], s0, EmptyLabel(src, 1), OneCommit(cap, src));
    var s1 := states[1];
    PrepareJob(cap, src, dest);
    states, labels := Extend(cap, states, labels, s1, PrepareLabel(src, dest), s1.w);
    s := states[2];
  }

  lemma PrepareJob(cap: nat, src: LevelKey, dest: LevelKey)
    requires src != dest && Inv(OneCommit(cap, src))
    ensures Job(OneCommit(cap, src), PrepareLabel(src, dest), OneCommit(cap, src))
  {
    var w := OneCommit(cap, src);
    assert Fetch(w, 1) == Fetched(Some(EMPTY_STATE), w);
  }

  lemma SourceMoved(cap: nat, src: LevelKey, dest: LevelKey) returns (states: seq<Sys>, labels: seq<Label>, s: Sys)
    requires src != dest
    ensures IsRun(cap, states, labels) && |labels| == 3
    ensures s == states[3] && Good(s) && s.w.h.db == MovedDb(src) && s.w.cap == cap && StaleToken(src, dest) in s.tokens
    ensures SameState(Replay(s.w.h.db.rows, s.w.h.rank, 2), MOVED)
  {
    var s2;
    states, labels, s2 := LoadPrepared(cap, src, dest);
    var w3 := MovingCommit(cap, src);
    CommitKeeps(s2.w, src, "", 0, EMPTY_STATE, MOVED, RAW_CHANGE, Ok(2), w3);
    states, labels := Extend(cap, states, labels, s2, MovingLabel(src), w3);
    s := states[3];
  }

  /**
   * A run that prepares a load of `src` into `dest`, commits on `src` and then finalizes the load: it succeeds, and the
   * cache holds the old state for the copied HEAD.
   */
  lemma StaleLoad(cap: nat, src: LevelKey, dest: LevelKey) returns (states: seq<Sys>, labels: seq<Label>)
    requires src != dest
    ensures IsRun(cap, states, labels) && |labels| == 4 && SpoilsAt(states, labels, 3)
    ensures Good(states[4]) && !CacheRight(states[4].w.h, states[4].w.cache) && states[4].w.cap == cap
    ensures states[4].w.h.db == LoadedDb(src, dest) && states[4].w.cache == map[4 := EMPTY_STATE]
  {
    var s, s2;
    states, labels, s := SourceMoved(cap, src, dest);
    states, labels, s2 := LateGoesOn(cap, states, labels, s, src, dest);
    assert states[3] == s && states[4] == s2;
  }

  lemma LateGoesOn(cap: nat, states: seq<Sys>, labels: seq<Label>, s: Sys, src: LevelKey, dest: LevelKey)
    returns (states2: seq<Sys>, labels2: seq<Label>, s2: Sys)
    requires IsRun(cap, states, labels) && s == states[|labels|] && Good(s) && StaleToken(src, dest) in s.tokens
    requires src != dest && s.w.h.db == MovedDb(src) && SameState(Replay(s.w.h.db.rows, s.w.h.rank, 2), MOVED)
    ensures states2 == states + [s2] && labels2 == labels + [LateLabel(src, dest)] && IsRun(cap, states2, labels2)
    ensures Spoils(s.w, LateLabel(src, dest)) && Good(s2) && !CacheRight(s2.w.h, s2.w.cache)
    ensures s2.w.h.db == LoadedDb(src, dest) && s2.w.cache == map[4 := EMPTY_STATE] && s2.w.cap == s.w.cap
  {
    var w2 := LateLoad(s.w, src, dest);
    states2, labels2 := Extend(cap, states, labels, s, LateLabel(src, dest), w2);
    s2 := Then(s, LateLabel(src, dest), w2);
  }

  lemma LateLoad(w: World, src: LevelKey, dest: LevelKey) returns (w2: World)
    requires src != dest && Inv(w) && w.h.db == MovedDb(src)
    requires SameState(Replay(w.h.db.rows, w.h.rank, 2), MOVED)
    ensures Job(w, LateLabel(src, dest), w2) && Spoils(w, LateLabel(src, dest))
    ensures Inv(w2) && !CacheRight(w2.h, w2.cache)
    ensures w2.h.db == LoadedDb(src, dest) && w2.cache == map[4 := EMPTY_STATE] && w2.cap == w.cap
  {
    var after, m: map<Id, Id> := LoadedDb(src, dest), map[1 := 3, 2 := 4];
    LateIsStep(src, dest, w.h.db);
    SameStateIff(EMPTY_STATE, MOVED);
    w2 := World(Ranked(after, CopiedRank(w.h, after, m), false), CachePut(map[], w.cap, 4, EMPTY_STATE), w.cap);
    FinalizeReplaceKeeps(w, dest, src, EMPTY_STATE, true, m, w2);
  }

  lemma LateIsStep(src: LevelKey, dest: LevelKey, db: Db)
    requires src != dest && db == MovedDb(src)
    ensures Copied(db, LoadedDb(src, dest), dest, src, map[1 := 3, 2 := 4]) && FkOk(LoadedDb(src, dest))
  {
    LoadedIsCopy(src, dest);
    LoadedFk(src, dest);
  }

  // ---------------------------------------------------------------- what the stale entry does to stored history

  lemma EmptyDelta(s: LevelState)
    ensures Apply(s, NO_CHANGE) == s
  {
    assert Ops(NO_CHANGE) == [];
  }

  lemma RawDelta()
    ensures Apply(EMPTY_STATE, RAW_CHANGE) == MOVED
  {
    assert Ops(RAW_CHANGE) == [];
  }

  /** An empty commit on `dest`. */
  function EmptyRow(dest: LevelKey, parent: Id): Row {
    Row(dest, Some(parent), None, "", 0, NO_CHANGE)
  }

  /** `dest` after the late load and two empty commits. */
  function GrownDb(src: LevelKey, dest: LevelKey): Db {
    InsertHead(InsertHead(LoadedDb(src, dest), EmptyRow(dest, 4)), EmptyRow(dest, 5))
  }

  function LoadedRange(dest: LevelKey): SquashArgs {
    SquashArgs(dest, [4, 5], Some(3), "", NO_CHANGE)
  }

  /** An empty commit on a HEAD whose cached state is empty. */
  lemma EmptyCommit(w: World, dest: LevelKey, n: Id) returns (w2: World)
    requires StoreInv(w.h) && n == w.h.db.nextId && HeadIs(w.h.db, dest, n - 1)
    requires n - 1 in w.cache && w.cache[n - 1] == EMPTY_STATE && |w.cache| < w.cap && n !in w.cache
    ensures CommitStep(w, dest, "", 0, EMPTY_STATE, EMPTY_STATE, NO_CHANGE, Ok(n), w2)
    ensures StoreInv(w2.h) && w2.h.db == InsertHead(w.h.db, EmptyRow(dest, n - 1)) && w2.cap == w.cap
    ensures w2.cache == w.cache[n := EMPTY_STATE]
  {
    NoChange(EMPTY_STATE);
    var row := EmptyRow(dest, n - 1);
    assert n - 1 in w.h.db.rows && w.h.db.rows[n - 1].level == dest;
    InsertKeepsInv(w.h, row);
    w2 := InsertThen(w, row, Some(EMPTY_STATE)).w;
  }

  ghost predicate HeadIs(db: Db, key: LevelKey, id: Id) {
    key in db.heads && db.heads[key] == id
  }

  lemma GrownReplay(h: Ranked, src: LevelKey, dest: LevelKey)
    requires Sound(h) && h.db == GrownDb(src, dest)
    ensures Replay(h.db.rows, h.rank, 6) == MOVED
  {
    var rows := h.db.rows;
    GrownRows(src, dest);
    EmptyDelta(EMPTY_STATE);
    EmptyDelta(MOVED);
    RawDelta();
    assert Replay(rows, h.rank, 3) == EMPTY_STATE;
    assert Replay(rows, h.rank, 4) == MOVED;
    assert Replay(rows, h.rank, 5) == MOVED;
  }

  lemma SquashedRows(src: LevelKey, dest: LevelKey)
    ensures var rows := Squashed(GrownDb(src, dest), LoadedRange(dest), 0).rows;
            && 3 in rows && 6 in rows && 7 in rows && rows[3] == Row(dest, None, None, "", 0, NO_CHANGE)
            && rows[6].parent == Some(7) && rows[6].delta == NO_CHANGE
            && rows[7].parent == Some(3) && rows[7].delta == NO_CHANGE
  {
    assert LoadedRange(dest).Newest() == 5;
  }

  lemma SquashedReplay(h: Ranked, src: LevelKey, dest: LevelKey)
    requires Sound(h) && h.db == Squashed(GrownDb(src, dest), LoadedRange(dest), 0)
    ensures 6 in h.db.rows && Replay(h.db.rows, h.rank, 6) == EMPTY_STATE
  {
    var rows := h.db.rows;
    SquashedRows(src, dest);
    EmptyDelta(EMPTY_STATE);
    assert Replay(rows, h.rank, 3) == EMPTY_STATE;
    assert Replay(rows, h.rank, 7) == EMPTY_STATE;
  }

  lemma GrownRows(src: LevelKey, dest: LevelKey)
    ensures var rows := GrownDb(src, dest).rows;
            && 3 in rows && 4 in rows && 5 in rows && 6 in rows
            && rows[3] == Row(dest, None, None, "", 0, NO_CHANGE) &&
              rows[4] == Row(dest, Some(3), None, "", 0, RAW_CHANGE)
            && rows[5] == EmptyRow(dest, 4) && rows[6] == EmptyRow(dest, 5)
  {
  }

  /** Reconstructing the root of `dest` puts it into the cache and keeps the stale entries. */
  lemma RootFetched(w: World, src: LevelKey, dest: LevelKey)
    requires Sound(w.h) && w.h.db == GrownDb(src, dest) && 3 !in w.cache && |w.cache| < w.cap
    ensures Fetch(w, 3) == Fetched(Some(EMPTY_STATE), w.(cache := w.cache[3 := EMPTY_STATE]))
  {
    GrownRows(src, dest);
    EmptyDelta(EMPTY_STATE);
    assert Recon(w.h.db.rows, w.h.rank, w.cap, w.cache, 3) == Rebuilt(EMPTY_STATE, w.cache[3 := EMPTY_STATE]);
  }

  lemma RangeFetched(w: World, src: LevelKey, dest: LevelKey)
    requires Sound(w.h) && w.h.db == GrownDb(src, dest) && 3 !in w.cache && |w.cache| < w.cap
    requires 5 in w.cache && w.cache[5] == EMPTY_STATE && 3 in w.h.db.rows && 5 in w.h.db.rows
    ensures SquashFetch(w, Some(3), 5) == SquashStates(EMPTY_STATE, EMPTY_STATE, w.(cache := w.cache[3 := EMPTY_STATE]))
  {
    RootFetched(w, src, dest);
    var w2 := w.(cache := w.cache[3 := EMPTY_STATE]);
    assert Fetch(w2, 5) == Fetched(Some(EMPTY_STATE), w2);
  }

  lemma RangePrepared(w: World, src: LevelKey, dest: LevelKey) returns (w2: World)
    requires StoreInv(w.h) && w.h.db == GrownDb(src, dest) && w.cap >= 4
    requires w.cache == map[4 := EMPTY_STATE, 5 := EMPTY_STATE, 6 := EMPTY_STATE]
    ensures Inv(w) ==> Job(w, RangeLabel(dest), w2)
    ensures w2.h == w.h
  {
    GrownRows(src, dest);
    RangeFetched(w, src, dest);
    w2 := SquashFetch(w, Some(3), 5).w;
    RangeStep(w, src, dest);
  }

  lemma RangeStep(w: World, src: LevelKey, dest: LevelKey)
    requires StoreInv(w.h) && w.h.db == GrownDb(src, dest) && 3 in w.h.db.rows && 5 in w.h.db.rows
    requires SquashFetch(w, Some(3), 5).base == EMPTY_STATE && SquashFetch(w, Some(3), 5).target == EMPTY_STATE
    ensures PrepareSquashStep(w, dest, [4, 5], "", Ok(EMPTY_STATE), Some(RangeTok(dest)), SquashFetch(w, Some(3), 5).w)
  {
    NoChange(EMPTY_STATE);
    RangeToken(w.h.db, src, dest);
  }

  lemma RangeToken(db: Db, src: LevelKey, dest: LevelKey)
    requires db == GrownDb(src, dest)
    ensures CanSquash(db, dest, [4, 5]) && db.rows[4].parent == Some(3)
  {
    GrownRows(src, dest);
  }

  lemma LateRangeSquashed(w: World, src: LevelKey, dest: LevelKey) returns (w2: World)
    requires StoreInv(w.h) && w.h.db == GrownDb(src, dest)
    ensures Inv(w) ==> Job(w, LateRangeLabel(dest), w2)
    ensures Sound(w2.h)
    ensures 6 in w.h.db.rows && 6 in w2.h.db.rows
    ensures !SameState(Replay(w2.h.db.rows, w2.h.rank, 6), Replay(w.h.db.rows, w.h.rank, 6))
  {
    var a := LoadedRange(dest);
    LoadedRangeSound(w.h, src, dest);
    w2 := World(AfterSquash(w.h, a, 0), CachePut(map[], w.cap, 7, EMPTY_STATE), w.cap);
    GrownReplay(w.h, src, dest);
    SquashedReplay(w2.h, src, dest);
    SameStateIff(EMPTY_STATE, MOVED);
  }

  /** The labels after the late load: two empty commits on `dest`, and the squash with its prepare. */
  function RangeTok(dest: LevelKey): Token {
    SquashToken(LoadedRange(dest), EMPTY_STATE)
  }

  function RangeLabel(dest: LevelKey): Label {
    DoPrepareSquash(dest, [4, 5], "", Ok(EMPTY_STATE), Some(RangeTok(dest)))
  }

  function LateRangeLabel(dest: LevelKey): Label {
    DoFinalizeSquash(RangeTok(dest), 0, Some(7))
  }

  /** A run goes on with an empty commit on `dest`, whose HEAD has the empty state in the cache. */
  lemma EmptyGoesOn(cap: nat, states: seq<Sys>, labels: seq<Label>, s: Sys, dest: LevelKey, n: Id)
    returns (states2: seq<Sys>, labels2: seq<Label>, s2: Sys)
    requires IsRun(cap, states, labels) && s == states[|labels|] && Good(s)
    requires n == s.w.h.db.nextId && HeadIs(s.w.h.db, dest, n - 1)
    requires n - 1 in s.w.cache && s.w.cache[n - 1] == EMPTY_STATE && |s.w.cache| < s.w.cap && n !in s.w.cache
    ensures IsRun(cap, states2, labels2) && |labels2| == |labels| + 1 && s2 == states2[|labels2|] && Good(s2)
    ensures s2.w.h.db == InsertHead(s.w.h.db, EmptyRow(dest, n - 1)) && s2.w.cap == s.w.cap
    ensures s2.w.cache == s.w.cache[n := EMPTY_STATE]
  {
    var w2 := EmptyCommit(s.w, dest, n);
    states2, labels2 := Extend(cap, states, labels, s, EmptyLabel(dest, n), w2);
    s2 := Then(s, EmptyLabel(dest, n), w2);
  }

  lemma StaleGrown(cap: nat, src: LevelKey, dest: LevelKey) returns (states: seq<Sys>, labels: seq<Label>, s: Sys)
    requires src != dest && cap >= 4
    ensures IsRun(cap, states, labels) && |labels| == 6
    ensures s == states[6] && Good(s) && s.w.h.db == GrownDb(src, dest) && s.w.cap >= 4
    ensures s.w.cache == map[4 := EMPTY_STATE, 5 := EMPTY_STATE, 6 := EMPTY_STATE]
  {
    states, labels := StaleLoad(cap, src, dest);
    states, labels, s := EmptyGoesOn(cap, states, labels, states[4], dest, 5);
    states, labels, s := EmptyGoesOn(cap, states, labels, s, dest, 6);
  }

  lemma StalePrepared(cap: nat, src: LevelKey, dest: LevelKey) returns (states: seq<Sys>, labels: seq<Label>, s: Sys)
    requires src != dest && cap >= 4
    ensures IsRun(cap, states, labels) && |labels| == 7
    ensures s == states[7] && Good(s) && s.w.h.db == GrownDb(src, dest) && RangeTok(dest) in s.tokens
  {
    var s6;
    states, labels, s6 := StaleGrown(cap, src, dest);
    var w7 := RangePrepared(s6.w, src, dest);
    states, labels := Extend(cap, states, labels, s6, RangeLabel(dest), w7);
    s := Then(s6, RangeLabel(dest), w7);
  }

  /**
   * The run goes on with two empty commits on `dest` and a squash of the first of them with the copied HEAD: that
   * changes the replayed state of the second, which the squash should leave alone.
   */
  lemma StaleHistory(cap: nat, src: LevelKey, dest: LevelKey) returns (states: seq<Sys>, labels: seq<Label>)
    requires src != dest && cap >= 4
    ensures IsRun(cap, states, labels) && |labels| == 8
    ensures Sound(states[7].w.h) && Sound(states[8].w.h) && 6 in states[7].w.h.db.rows && 6 in states[8].w.h.db.rows
    ensures !SameState(Replay(states[8].w.h.db.rows, states[8].w.h.rank, 6),
                       Replay(states[7].w.h.db.rows, states[7].w.h.rank, 6))
  {
    var s7;
    states, labels, s7 := StalePrepared(cap, src, dest);
    var w8 := LateRangeSquashed(s7.w, src, dest);
    states, labels := Extend(cap, states, labels, s7, LateRangeLabel(dest), w8);
    assert states[7] == s7 && states[8].w == w8;
  }

  lemma LoadedRangeSound(h: Ranked, src: LevelKey, dest: LevelKey)
    requires StoreInv(h) && h.db == GrownDb(src, dest)
    ensures FkOk(Squashed(h.db, LoadedRange(dest), 0)) && Sound(AfterSquash(h, LoadedRange(dest), 0))
  {
    var a := LoadedRange(dest);
    GrownRows(src, dest);
    assert Contiguous(h.db, a);
    RangeDistinct(h, a);
    forall c ensures !OutsideChild(h.db, a.ids, c) {
      assert a.ids[..1] == [4];
    }
    SquashSucceedsIff(h, a, 0);
    forall i | i in a.ids ensures i in h.rank {
      assert i == 4 || i == 5;
    }
    SquashSound(h, a, 0);
  }

  // ---------------------------------------------------------------- a checkout finalized after HEAD moved

  /** A checkout of the first of two commits, still to be finalized. */
  function PendingCheckout(k: LevelKey): PendingHeadUpdate {
    PendingHeadUpdate(k, Some(2), None, Some(1), "", NO_CHANGE, None)
  }

  lemma CheckoutPrepared(k: LevelKey)
    requires Inv(TwoCommits(2, k))
    ensures PrepareCheckoutStep(TwoCommits(2, k), k, 1, Ok(EMPTY_STATE),
                                Some(HeadToken(PendingCheckout(k), EMPTY_STATE)),
                                TwoCommits(2, k))
  {
    var w := TwoCommits(2, k);
    NoChange(EMPTY_STATE);
    FetchOk(w, 2);
    assert Fetch(w, 2) == Fetched(Some(EMPTY_STATE), w);
    assert 1 in w.cache && w.cache[1] == EMPTY_STATE;
    assert Fetch(w, 1) == Fetched(Some(EMPTY_STATE), w);
  }

  function Third(k: LevelKey): Row {
    Row(k, Some(2), None, "", 0, NO_CHANGE)
  }

  function Fourth(k: LevelKey): Row {
    Row(k, Some(2), Some(1), "", 0, NO_CHANGE)
  }

  ghost function ForkState(k: LevelKey, n: nat): Sys {
    var w, tok := TwoCommits(2, k), HeadToken(PendingCheckout(k), EMPTY_STATE);
    if n < 3 then HeadlessState(2, k, n)
    else if n == 3 then Sys(w, {tok})
    else if n == 4 then Sys(InsertThen(w, Third(k), Some(EMPTY_STATE)).w, {tok})
    else Sys(InsertThen(InsertThen(w, Third(k), Some(EMPTY_STATE)).w, Fourth(k), Some(EMPTY_STATE)).w, {tok})
  }

  function ForkLabel(k: LevelKey, n: nat): Label {
    var tok := HeadToken(PendingCheckout(k), EMPTY_STATE);
    if n < 2 then HeadlessLabel(k, n)
    else if n == 2 then DoPrepareCheckout(k, 1, Ok(EMPTY_STATE), Some(tok))
    else if n == 3 then DoCommit(k, "", 0, EMPTY_STATE, EMPTY_STATE, NO_CHANGE, Ok(3))
    else DoFinalizeHead(tok, 0, Ok(4))
  }

  lemma ThirdInserted(k: LevelKey)
    ensures var w := TwoCommits(2, k);
            InsertThen(w, Third(k), Some(EMPTY_STATE)).r == Ok(3) &&
            InsertThen(w, Third(k), Some(EMPTY_STATE)).w.h.db == InsertHead(w.h.db, Third(k))
  {
    assert FkOk(InsertHead(TwoCommits(2, k).h.db, Third(k)));
  }

  lemma FourthInserted(k: LevelKey)
    ensures var w := InsertThen(TwoCommits(2, k), Third(k), Some(EMPTY_STATE)).w;
            InsertThen(w, Fourth(k), Some(EMPTY_STATE)).r == Ok(4) &&
            InsertThen(w, Fourth(k), Some(EMPTY_STATE)).w.h.db == InsertHead(w.h.db, Fourth(k))
  {
    ThirdInserted(k);
    assert FkOk(InsertHead(InsertHead(TwoCommits(2, k).h.db, Third(k)), Fourth(k)));
  }

  lemma ForkStep(k: LevelKey, n: nat)
    requires n < 5 && Good(ForkState(k, n))
    ensures Next(ForkState(k, n), ForkLabel(k, n), ForkState(k, n + 1))
  {
    if n < 2 {
      HeadlessStep(2, k, n);
    } else {
      ForkJob(k, n);
      ForkTokens(k, n);
    }
  }

  lemma ForkTokens(k: LevelKey, n: nat)
    requires 2 <= n < 5
    ensures UsesKnown(ForkState(k, n), ForkLabel(k, n))
    ensures ForkState(k, n + 1).tokens == ForkState(k, n).tokens + HandedOut(ForkLabel(k, n))
  {
  }

  lemma ForkJob(k: LevelKey, n: nat)
    requires 2 <= n < 5 && Inv(ForkState(k, n).w)
    ensures Job(ForkState(k, n).w, ForkLabel(k, n), ForkState(k, n + 1).w)
  {
    if n == 2 {
      CheckoutPrepared(k);
    } else if n == 3 {
      ThirdCommit(k);
    } else {
      FourthInserted(k);
    }
  }

  lemma ThirdCommit(k: LevelKey)
    requires Sound(TwoCommits(2, k).h)
    ensures CommitStep(TwoCommits(2, k), k, "", 0, EMPTY_STATE, EMPTY_STATE, NO_CHANGE, Ok(3),
                       InsertThen(TwoCommits(2, k), Third(k), Some(EMPTY_STATE)).w)
  {
    NoChange(EMPTY_STATE);
    ThirdInserted(k);
    assert Fetch(TwoCommits(2, k), 2) == Fetched(Some(EMPTY_STATE), TwoCommits(2, k));
  }

  lemma Forked(k: LevelKey)
    ensures var db := ForkState(k, 5).w.h.db; k in db.heads && !Timeline.HasTimeline(db, k)
    ensures Timeline.Bends(ForkState(k, 4).w, ForkLabel(k, 4))
  {
    ThirdInserted(k);
    FourthInserted(k);
    Timeline.TwoChildrenFork(ForkState(k, 5).w.h.db, k, 3, 4);
  }

  /**
   * A run that prepares a checkout of the first of two commits, commits, and finalizes the checkout: HEAD's timeline
   * forks, the second commit has two children.
   */
  lemma ForkedTimeline(k: LevelKey) returns (states: seq<Sys>, labels: seq<Label>)
    ensures IsRun(2, states, labels) && |states| == 6
    ensures Timeline.Bends(states[4].w, labels[4])
    ensures k in states[5].w.h.db.heads && !Timeline.HasTimeline(states[5].w.h.db, k)
  {
    states := seq(6, n requires 0 <= n < 6 => ForkState(k, n));
    labels := seq(5, n requires 0 <= n < 5 => ForkLabel(k, n));
    forall n | 0 <= n < |labels| ensures RunStep(states, labels, n) {
      if Good(states[n]) {
        ForkStep(k, n);
      }
    }
    Forked(k);
  }
}
