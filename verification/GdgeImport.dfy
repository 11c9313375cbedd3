/**
 * Planning and preparing a multi-file import (`src/service/GdgeImportPlanner.cpp`,
 * `src/service/GdgeImportMerge.cpp`).
 */
module GdgeImport {
  import opened Prelude
  import opened LevelModel
  import opened Differ
  import opened Tables
  import opened MergeService
  import opened ServiceModel
  import opened ImportSteps
  import P = Package

  /** A selected file: what reading it gives when the import is planned, and again when it is merged. */
  datatype ImportFile = ImportFile(name: string, planned: Result<P.Package>, loaded: Result<P.Package>)

  datatype Invalid = Invalid(file: ImportFile, reason: string)

  datatype ImportPlan = ImportPlan(smart: seq<ImportFile>, sequential: seq<ImportFile>, invalid: seq<Invalid>)

  /** The state hash (`src/util/format/StateHash.hpp`). */
  type Hash = LevelState -> string

  // ---------------------------------------------------------------- planning

  ghost predicate HasHead(pkg: P.Package) {
    exists st :: P.HeadIs(pkg, st)
  }

  ghost predicate Usable(root: Option<LevelState>, f: ImportFile) {
    root.Some? && f.planned.Ok? && f.planned.value.rootHash != "" && HasHead(f.planned.value)
  }

  ghost predicate IsSmart(root: Option<LevelState>, hash: Hash, f: ImportFile) {
    Usable(root, f) && f.planned.value.rootHash == hash(root.value)
  }

  ghost predicate IsSequential(root: Option<LevelState>, hash: Hash, f: ImportFile) {
    Usable(root, f) && f.planned.value.rootHash != hash(root.value)
  }

  ghost function SmartOf(root: Option<LevelState>, hash: Hash, files: seq<ImportFile>): seq<ImportFile> {
    if files == [] then []
    else var last := files[|files| - 1];
      SmartOf(root, hash, files[..|files| - 1]) + if IsSmart(root, hash, last) then [last] else []
  }

  ghost function SequentialOf(root: Option<LevelState>, hash: Hash, files: seq<ImportFile>): seq<ImportFile> {
    if files == [] then []
    else var last := files[|files| - 1];
      SequentialOf(root, hash, files[..|files| - 1]) + if IsSequential(root, hash, last) then [last] else []
  }

  ghost function UnusableOf(root: Option<LevelState>, files: seq<ImportFile>): seq<ImportFile> {
    if files == [] then []
    else var last := files[|files| - 1];
      UnusableOf(root, files[..|files| - 1]) + if Usable(root, last) then [] else [last]
  }

  ghost function FilesOf(invalid: seq<Invalid>): seq<ImportFile> {
    seq(|invalid|, i requires 0 <= i < |invalid| => invalid[i].file)
  }

  lemma OneMore(a: seq<ImportFile>, b: seq<ImportFile>, c: seq<ImportFile>, front: seq<ImportFile>, last: ImportFile,
                inA: bool, inB: bool)
    requires multiset(a) + multiset(b) + multiset(c) == multiset(front) && |a| + |b| + |c| == |front| && !(inA && inB)
    ensures var x, y, z := if inA then [last] else [], if inB then [last] else [], if inA || inB then [] else [last];
            && multiset(a + x) + multiset(b + y) + multiset(c + z) == multiset(front + [last])
            && |a + x| + |b + y| + |c + z| == |front| + 1
  {
  }

  /** Every file lands in exactly one of the three lists, in the order given. */
  lemma {:induction false} PlanConserves(root: Option<LevelState>, hash: Hash, files: seq<ImportFile>)
    ensures multiset(SmartOf(root, hash, files)) + multiset(SequentialOf(root, hash, files))
            + multiset(UnusableOf(root, files)) == multiset(files)
    ensures |SmartOf(root, hash, files)| + |SequentialOf(root, hash, files)| + |UnusableOf(root, files)| == |files|
  {
    if files != [] {
      var front, last := files[..|files| - 1], files[|files| - 1];
      PlanConserves(root, hash, front);
      assert files == front + [last];
      var smart, sequential := IsSmart(root, hash, last), IsSequential(root, hash, last);
      assert smart ==> !sequential && Usable(root, last);
      assert !smart && !sequential ==> !Usable(root, last);
      OneMore(SmartOf(root, hash, front), SequentialOf(root, hash, front), UnusableOf(root, front), front, last, smart,
              sequential);
    }
  }

  lemma LastFile(files: seq<ImportFile>, f: ImportFile)
    requires files != []
    ensures f in files <==> f in files[..|files| - 1] || f == files[|files| - 1]
  {
    assert files == files[..|files| - 1] + [files[|files| - 1]];
  }

  /**
   * Which files are planned how: smart with the root's hash, sequential with another one, both with a package that has
   * a hash and a HEAD; all others are unusable.
   */
  lemma {:induction false} PlannedAs(root: Option<LevelState>, hash: Hash, files: seq<ImportFile>, f: ImportFile)
    ensures var usable := root.Some? && f.planned.Ok? && f.planned.value.rootHash != "" &&
                          exists st :: P.HeadIs(f.planned.value, st);
            && (f in SmartOf(root, hash, files) <==>
                  f in files && usable && f.planned.value.rootHash == hash(root.value))
            && (f in SequentialOf(root, hash, files) <==>
                  f in files && usable && f.planned.value.rootHash != hash(root.value))
            && (f in UnusableOf(root, files) <==> f in files && !usable)
    decreases |files|
  {
    if files != [] {
      PlannedAs(root, hash, files[..|files| - 1], f);
      LastFile(files, f);
    }
  }

  /** The plan of a single file. */
  lemma OnePlanned(root: Option<LevelState>, hash: Hash, f: ImportFile)
    ensures SmartOf(root, hash, [f]) == if IsSmart(root, hash, f) then [f] else []
    ensures SequentialOf(root, hash, [f]) == if IsSequential(root, hash, f) then [f] else []
    ensures UnusableOf(root, [f]) == if Usable(root, f) then [] else [f]
  {
    assert [f][..0] == [];
    assert SmartOf(root, hash, []) == [] && SequentialOf(root, hash, []) == [] && UnusableOf(root, []) == [];
  }

  /** Sort one file. */
  method ClassifyOne(root: LevelState, hash: Hash, f: ImportFile) returns (smart: bool, reason: Option<string>)
    ensures reason.None? <==> Usable(Some(root), f)
    ensures reason.None? ==> smart == IsSmart(Some(root), hash, f)
  {
    smart := false;
    if f.planned.Err? {
      return false, Some(f.planned.error);
    }
    var pkg := f.planned.value;
    if pkg.rootHash == "" {
      return false, Some("metadata.rootHash empty");
    }
    var head := P.ReconstructPackageHead(pkg);
    if head.None? {
      P.PackageHeadIff(pkg);
      return false, Some("package history graph invalid");
    }
    smart, reason := pkg.rootHash == hash(root), None;
  }

  method ClassifyImports(root: Option<LevelState>, hash: Hash, files: seq<ImportFile>) returns (plan: ImportPlan)
    ensures plan.smart == SmartOf(root, hash, files)
    ensures plan.sequential == SequentialOf(root, hash, files)
    ensures FilesOf(plan.invalid) == UnusableOf(root, files)
  {
    plan := ImportPlan([], [], []);
    for i := 0 to |files|
      invariant plan.smart == SmartOf(root, hash, files[..i])
      invariant plan.sequential == SequentialOf(root, hash, files[..i])
      invariant FilesOf(plan.invalid) == UnusableOf(root, files[..i])
    {
      assert files[..i + 1][..i] == files[..i];
      var f := files[i];
      var smart, reason := false, Some("local root reconstruct failed");
      if root.Some? {
        smart, reason := ClassifyOne(root.value, hash, f);
      }
      if reason.Some? {
        plan := plan.(invalid := plan.invalid + [Invalid(f, reason.value)]);
      } else if smart {
        plan := plan.(smart := plan.smart + [f]);
      } else {
        plan := plan.(sequential := plan.sequential + [f]);
      }
    }
    assert files[..|files|] == files;
  }

  // ---------------------------------------------------------------- loading

  ghost predicate Loads(f: ImportFile, st: LevelState) {
    f.loaded.Ok? && f.loaded.value.commits != [] && P.HeadIs(f.loaded.value, st)
  }

  ghost predicate Loadable(f: ImportFile) {
    exists st :: Loads(f, st)
  }

  method LoadGdgeHead(f: ImportFile) returns (r: Result<LevelState>)
    ensures r.Ok? <==> Loadable(f)
    ensures r.Ok? ==> Loads(f, r.value)
  {
    if f.loaded.Err? {
      return Err(f.name + ": " + f.loaded.error);
    }
    var pkg := f.loaded.value;
    if pkg.commits == [] || pkg.headIndex.None? {
      return Err(f.name + ": missing commits or head_index");
    }
    var head := P.ReconstructPackageHead(pkg);
    if head.None? {
      P.PackageHeadIff(pkg);
      return Err(f.name + ": package history graph invalid");
    }
    assert Loads(f, head.value);
    r := Ok(head.value);
  }

  /** The heads of the loadable files, in order. */
  ghost predicate LoadedHeads(files: seq<ImportFile>, heads: seq<LevelState>) {
    if files == [] then heads == []
    else if Loadable(files[|files| - 1]) then
      heads != [] && Loads(files[|files| - 1], heads[|heads| - 1]) &&
      LoadedHeads(files[..|files| - 1], heads[..|heads| - 1])
    else LoadedHeads(files[..|files| - 1], heads)
  }

  /** As many heads as files: every file loads. */
  lemma {:induction false} AllLoad(files: seq<ImportFile>, heads: seq<LevelState>, i: nat)
    requires LoadedHeads(files, heads) && |heads| == |files| && i < |files|
    ensures Loadable(files[i])
  {
    var last := files[|files| - 1];
    if Loadable(last) {
      if i < |files| - 1 {
        AllLoad(files[..|files| - 1], heads[..|heads| - 1], i);
      }
    } else {
      NoMoreHeads(files[..|files| - 1], heads);
      assert false;
    }
  }

  lemma {:induction false} NoMoreHeads(files: seq<ImportFile>, heads: seq<LevelState>)
    requires LoadedHeads(files, heads)
    ensures |heads| <= |files|
  {
    if files != [] {
      if Loadable(files[|files| - 1]) {
        NoMoreHeads(files[..|files| - 1], heads[..|heads| - 1]);
      } else {
        NoMoreHeads(files[..|files| - 1], heads);
      }
    }
  }

  ghost predicate AllLoadable(files: seq<ImportFile>) {
    forall i :: 0 <= i < |files| ==> Loadable(files[i])
  }

  ghost predicate AnyLoadable(files: seq<ImportFile>) {
    exists i :: 0 <= i < |files| && Loadable(files[i])
  }

  /** The smart files are merged all or none, the sequential ones each for itself: does anything get merged? */
  ghost predicate AnyMerged(smart: seq<ImportFile>, sequential: seq<ImportFile>) {
    (smart != [] && AllLoadable(smart)) || AnyLoadable(sequential)
  }

  lemma {:induction false} SomeHeadIff(files: seq<ImportFile>, heads: seq<LevelState>)
    requires LoadedHeads(files, heads)
    ensures heads != [] <==> AnyLoadable(files)
  {
    if files != [] {
      var front := files[..|files| - 1];
      if Loadable(files[|files| - 1]) {
      } else {
        SomeHeadIff(front, heads);
        if i :| 0 <= i < |files| && Loadable(files[i]) {
          assert front[i] == files[i];
        }
        if i :| 0 <= i < |front| && Loadable(front[i]) {
          assert files[i] == front[i];
        }
      }
    }
  }

  /**
   * Which results a merge of base, ours and theirs may have: `IsMerge`, kept abstract while chains are put together.
   */
  type MergeRel = (LevelState, LevelState, LevelState, LevelState, nat) -> bool

  /** Merging the heads one after the other into `start`, all against the same root. */
  ghost predicate FoldsTo(rel: MergeRel, root: LevelState, start: LevelState, heads: seq<LevelState>,
                          merged: LevelState, conflicts: nat)
  {
    if heads == [] then merged == start && conflicts == 0
    else exists mid, before: nat, n: nat ::
      FoldStep(rel, root, start, heads, mid, before, merged, n) &&
        FoldsTo(rel, root, start, heads[..|heads| - 1], mid, before) &&
      conflicts == before + n
  }

  ghost predicate FoldStep(rel: MergeRel, root: LevelState, start: LevelState, heads: seq<LevelState>, mid: LevelState,
                           before: nat, merged: LevelState, n: nat)
    requires heads != []
  {
    rel(root, mid, heads[|heads| - 1], merged, n)
  }

  lemma FoldMore(rel: MergeRel, root: LevelState, start: LevelState, heads: seq<LevelState>, mid: LevelState,
                 before: nat, head: LevelState, merged: LevelState, n: nat)
    requires FoldsTo(rel, root, start, heads, mid, before) && rel(root, mid, head, merged, n)
    ensures FoldsTo(rel, root, start, heads + [head], merged, before + n)
  {
    assert (heads + [head])[..|heads|] == heads;
    assert FoldStep(rel, root, start, heads + [head], mid, before, merged, n);
  }

  lemma OneFold(rel: MergeRel, root: LevelState, start: LevelState, head: LevelState, merged: LevelState, n: nat)
    requires FoldsTo(rel, root, start, [head], merged, n)
    ensures rel(root, start, head, merged, n)
  {
    var mid, before: nat, last: nat :|
      FoldStep(rel, root, start, [head], mid, before, merged, last) &&
      FoldsTo(rel, root, start, [head][..0], mid, before) && n == before + last;
    assert [head][..0] == [];
  }

  lemma HeadsMore(files: seq<ImportFile>, f: ImportFile, heads: seq<LevelState>, head: LevelState)
    requires LoadedHeads(files, heads) && Loads(f, head)
    ensures LoadedHeads(files + [f], heads + [head])
  {
    assert (files + [f])[..|files|] == files && (heads + [head])[..|heads|] == heads;
  }

  lemma HeadsSkip(files: seq<ImportFile>, f: ImportFile, heads: seq<LevelState>)
    requires LoadedHeads(files, heads) && !Loadable(f)
    ensures LoadedHeads(files + [f], heads)
  {
    assert (files + [f])[..|files|] == files;
  }

  method MergeNext(root: LevelState, ghost start: LevelState, merged0: LevelState, conflicts0: nat,
                   ghost done: seq<ImportFile>, f: ImportFile, ghost heads0: seq<LevelState>)
    returns (merged: LevelState, conflicts: nat, ok: bool, ghost heads: seq<LevelState>)
    requires LoadedHeads(done, heads0) && FoldsTo(IsMerge, root, start, heads0, merged0, conflicts0)
    ensures ok <==> Loadable(f)
    ensures ok ==>
              |heads| == |heads0| + 1 && LoadedHeads(done + [f], heads) &&
              FoldsTo(IsMerge, root, start, heads, merged, conflicts)
  {
    merged, conflicts, heads := merged0, conflicts0, heads0;
    var loaded := LoadGdgeHead(f);
    ok := loaded.Ok?;
    if ok {
      var step, stepConflicts := MergeStates3Way(root, merged, loaded.value);
      FoldMore(IsMerge, root, start, heads, merged, conflicts, loaded.value, step, stepConflicts);
      HeadsMore(done, f, heads, loaded.value);
      heads := heads + [loaded.value];
      merged, conflicts := step, conflicts + stepConflicts;
    }
  }

  /** The smart files are merged together or not at all. */
  method MergeSmart(root: LevelState, start: LevelState, files: seq<ImportFile>)
    returns (ok: bool, merged: LevelState, conflicts: nat, ghost heads: seq<LevelState>)
    ensures !ok ==> exists i :: 0 <= i < |files| && !Loadable(files[i])
    ensures ok ==>
              |heads| == |files| && LoadedHeads(files, heads) && FoldsTo(IsMerge, root, start, heads, merged, conflicts)
  {
    merged, conflicts, heads := start, 0, [];
    for i := 0 to |files|
      invariant |heads| == i && LoadedHeads(files[..i], heads) &&
                FoldsTo(IsMerge, root, start, heads, merged, conflicts)
    {
      TakeMore(files, i);
      merged, conflicts, ok, heads := MergeNext(root, start, merged, conflicts, files[..i], files[i], heads);
      if !ok {
        return;
      }
    }
    TakeAll(files);
    ok := true;
  }

  // ---------------------------------------------------------------- the chain of pending commits

  /** The shape of entry `i` while the chain is being built. */
  ghost predicate EntryShape(key: LevelKey, head: Option<Id>, i: nat, p: PendingHeadUpdate) {
    && p.levelKey == key && p.reverts.None? && p.cacheState.None?
    && (if i == 0 then p.parentPendingIx.None? && p.parent == head else p.parentPendingIx == Some(i - 1))
  }

  ghost predicate DiffAt(commits: seq<PendingHeadUpdate>, states: seq<LevelState>, i: nat)
    requires i < |commits| && |states| == |commits| + 1
  {
    IsDiff(states[i], states[i + 1], commits[i].delta)
  }

  /** Entry i leads from states[i] to states[i + 1]. */
  ghost predicate OpenChain(ours: LevelState, key: LevelKey, head: Option<Id>, commits: seq<PendingHeadUpdate>,
                            states: seq<LevelState>)
  {
    && |states| == |commits| + 1 && states[0] == ours
    && (forall i :: 0 <= i < |commits| ==> EntryShape(key, head, i, commits[i]))
    && (forall i :: 0 <= i < |commits| ==> DiffAt(commits, states, i))
  }

  lemma PushEntry(ours: LevelState, key: LevelKey, head: Option<Id>, commits: seq<PendingHeadUpdate>,
                  states: seq<LevelState>, p: PendingHeadUpdate, next: LevelState)
    requires OpenChain(ours, key, head, commits, states) && EntryShape(key, head, |commits|, p)
    requires IsDiff(states[|commits|], next, p.delta)
    ensures OpenChain(ours, key, head, commits + [p], states + [next])
  {
    forall i | 0 <= i <= |commits| ensures DiffAt(commits + [p], states + [next], i) {
      if i < |commits| {
        assert DiffAt(commits, states, i);
      }
    }
  }

  /** The last entry gets the state to cache. */
  function Sealed(commits: seq<PendingHeadUpdate>, state: LevelState): seq<PendingHeadUpdate>
    requires commits != []
  {
    commits[|commits| - 1 := commits[|commits| - 1].(cacheState := Some(state))]
  }

  lemma SealChain(ours: LevelState, key: LevelKey, head: Option<Id>, commits: seq<PendingHeadUpdate>,
                  states: seq<LevelState>)
    requires OpenChain(ours, key, head, commits, states) && commits != []
    ensures ImportChain(ours, key, head, Sealed(commits, states[|commits|]), states)
  {
    var done := Sealed(commits, states[|commits|]);
    forall i | 0 <= i < |done| ensures ChainEntry(done, i) && IsDiff(states[i], states[i + 1], done[i].delta) {
      assert EntryShape(key, head, i, commits[i]) && DiffAt(commits, states, i);
      assert EntryShape(key, head, 0, commits[0]);
    }
    assert EntryShape(key, head, 0, commits[0]);
  }

  // ---------------------------------------------------------------- what the running states are

  /** What went into the chain: the smart merge, if it took place, then one head for each merged sequential file. */
  datatype Trace = Trace(smart: bool, smartHeads: seq<LevelState>, seqHeads: seq<LevelState>, conflicts: seq<nat>) {
    function Offset(): nat { if smart then 1 else 0 }
  }

  function Sum(s: seq<nat>): nat {
    if s == [] then 0 else Sum(s[..|s| - 1]) + s[|s| - 1]
  }

  /** Without a local HEAD the first imported state becomes the root of the later merges. */
  function RootAt(head: Option<Id>, root: LevelState, states: seq<LevelState>, i: nat): LevelState {
    if head.Some? || i == 0 || |states| < 2 then root else states[1]
  }

  /** One sequential move: a first file taken as it is, or a file merged in. */
  ghost predicate MoveOk(rel: MergeRel, first: bool, root: LevelState, before: LevelState, file: LevelState,
                         after: LevelState, n: nat)
  {
    if first then after == file && n == 0 else rel(root, before, file, after, n)
  }

  ghost predicate TraceShape(states: seq<LevelState>, t: Trace) {
    |t.conflicts| + 1 == |states| == t.Offset() + |t.seqHeads| + 1
  }

  ghost predicate TraceAt(rel: MergeRel, head: Option<Id>, root: LevelState, states: seq<LevelState>, t: Trace, i: nat)
    requires TraceShape(states, t) && t.Offset() <= i < |t.conflicts|
  {
    MoveOk(rel, head.None? && i == 0, RootAt(head, root, states, i), states[i], t.seqHeads[i - t.Offset()],
           states[i + 1], t.conflicts[i])
  }

  /** The smart merge if it took place, then one move for each sequential file. */
  ghost predicate Faithful(rel: MergeRel, head: Option<Id>, root: LevelState, states: seq<LevelState>, t: Trace) {
    && TraceShape(states, t)
    && (t.smart ==> FoldsTo(rel, root, states[0], t.smartHeads, states[1], t.conflicts[0]))
    && forall i :: t.Offset() <= i < |t.conflicts| ==> TraceAt(rel, head, root, states, t, i)
  }

  lemma FaithfulMore(rel: MergeRel, head: Option<Id>, root: LevelState, states: seq<LevelState>, t: Trace,
                     file: LevelState, next: LevelState, n: nat)
    requires Faithful(rel, head, root, states, t)
    requires MoveOk(rel, head.None? && |states| == 1, RootAt(head, root, states, |states| - 1), states[|states| - 1],
                    file, next, n)
    ensures Faithful(rel, head, root, states + [next],
                     Trace(t.smart, t.smartHeads, t.seqHeads + [file], t.conflicts + [n]))
  {
    var s2, t2 := states + [next], Trace(t.smart, t.smartHeads, t.seqHeads + [file], t.conflicts + [n]);
    var last := |t.conflicts|;
    assert s2[0] == states[0] && (t.smart ==> s2[1] == states[1] && t2.conflicts[0] == t.conflicts[0]);
    forall i | t.Offset() <= i < |t2.conflicts| ensures TraceAt(rel, head, root, s2, t2, i) {
      if i < last {
        KeptMove(rel, head, root, states, t, next, file, n, i);
      } else {
        LastMove(rel, head, root, states, t, next, file, n);
      }
    }
  }

  lemma LastMove(rel: MergeRel, head: Option<Id>, root: LevelState, states: seq<LevelState>, t: Trace, next: LevelState,
                 file: LevelState, n: nat)
    requires TraceShape(states, t)
    requires MoveOk(rel, head.None? && |states| == 1, RootAt(head, root, states, |states| - 1), states[|states| - 1],
                    file, next, n)
    ensures TraceAt(rel, head, root, states + [next],
                    Trace(t.smart, t.smartHeads, t.seqHeads + [file], t.conflicts + [n]), |t.conflicts|)
  {
    var s2, last := states + [next], |t.conflicts|;
    assert RootAt(head, root, s2, last) == RootAt(head, root, states, last);
    assert s2[last] == states[last] && s2[last + 1] == next;
  }

  lemma KeptMove(rel: MergeRel, head: Option<Id>, root: LevelState, states: seq<LevelState>, t: Trace, next: LevelState,
                 file: LevelState, n: nat, i: nat)
    requires TraceShape(states, t) && t.Offset() <= i < |t.conflicts| && TraceAt(rel, head, root, states, t, i)
    ensures TraceAt(rel, head, root, states + [next],
                    Trace(t.smart, t.smartHeads, t.seqHeads + [file], t.conflicts + [n]), i)
  {
    var s2 := states + [next];
    assert s2[i] == states[i] && s2[i + 1] == states[i + 1];
    assert RootAt(head, root, s2, i) == RootAt(head, root, states, i);
  }

  lemma OneSum(s: seq<nat>)
    requires |s| == 1
    ensures Sum(s) == s[0]
  {
    assert s[..0] == [];
  }

  lemma SumMore(s: seq<nat>, n: nat)
    ensures Sum(s + [n]) == Sum(s) + n
  {
    assert (s + [n])[..|s|] == s;
  }

  datatype Progress = Progress(commits: seq<PendingHeadUpdate>, running: LevelState, root: LevelState, conflicts: nat)

  ghost predicate OnTrack(p: Progress, key: LevelKey, head: Option<Id>, ours: LevelState, root: LevelState,
                          states: seq<LevelState>, t: Trace)
  {
    && OpenChain(ours, key, head, p.commits, states) && Faithful(IsMerge, head, root, states, t)
    && Totals(p, head, root, states, t)
  }

  /** The running state, the merge root and the conflict count after the entries so far. */
  ghost predicate Totals(p: Progress, head: Option<Id>, root: LevelState, states: seq<LevelState>, t: Trace) {
    |states| == |p.commits| + 1 && p.running == states[|p.commits|] &&
      p.root == RootAt(head, root, states, |p.commits|) &&
    p.conflicts == Sum(t.conflicts)
  }

  lemma OnTrackMore(p: Progress, key: LevelKey, head: Option<Id>, ours: LevelState, root: LevelState,
                    states: seq<LevelState>, t: Trace, entry: PendingHeadUpdate, file: LevelState, next: LevelState,
                    n: nat)
    requires OnTrack(p, key, head, ours, root, states, t)
    requires EntryShape(key, head, |p.commits|, entry) && IsDiff(p.running, next, entry.delta)
    requires MoveOk(IsMerge, head.None? && |p.commits| == 0, p.root, p.running, file, next, n)
    ensures OnTrack(Progress(p.commits + [entry], next, if head.None? && p.commits == [] then next else p.root,
                             p.conflicts + n),
                    key, head, ours, root, states + [next],
                    Trace(t.smart, t.smartHeads, t.seqHeads + [file], t.conflicts + [n]))
  {
    PushEntry(ours, key, head, p.commits, states, entry, next);
    FaithfulMore(IsMerge, head, root, states, t, file, next, n);
    SumMore(t.conflicts, n);
  }

  /** The entry for a sequential file, and what it makes of the running state. */
  method SequentialEntry(key: LevelKey, head: Option<Id>, p: Progress, name: string, file: LevelState)
    returns (entry: PendingHeadUpdate, next: LevelState, rootNow: LevelState, n: nat)
    requires head.None? && p.commits == [] ==> p.running == EMPTY_STATE
    ensures EntryShape(key, head, |p.commits|, entry) && IsDiff(p.running, next, entry.delta)
    ensures MoveOk(IsMerge, head.None? && |p.commits| == 0, p.root, p.running, file, next, n)
    ensures rootNow == if head.None? && p.commits == [] then next else p.root
  {
    n, next, rootNow := 0, file, p.root;
    entry := PendingHeadUpdate(key, None, None, None, "Import .gdge: " + name, Delta(map[], None, [], [], []), None);
    if head.None? && p.commits == [] {
      var d := Diff(EMPTY_STATE, file);
      entry := entry.(delta := d);
      rootNow := file;
    } else {
      next, n := MergeStates3Way(p.root, p.running, file);
      var d := Diff(p.running, next);
      entry := entry.(message := "Merge import: " + name, delta := d);
      if p.commits != [] {
        entry := entry.(parentPendingIx := Some(|p.commits| - 1));
      } else {
        entry := entry.(parent := head);
      }
    }
  }

  /** One more sequential file. */
  method MergeFile(key: LevelKey, head: Option<Id>, p: Progress, name: string, file: LevelState,
                   ghost ours: LevelState, ghost root: LevelState, ghost states: seq<LevelState>, ghost t: Trace)
    returns (p': Progress, ghost states': seq<LevelState>, ghost t': Trace)
    requires OnTrack(p, key, head, ours, root, states, t) && (head.None? ==> ours == EMPTY_STATE)
    ensures OnTrack(p', key, head, ours, root, states', t')
    ensures t'.smart == t.smart && t'.smartHeads == t.smartHeads && t'.seqHeads == t.seqHeads + [file]
  {
    var entry, next, rootNow, n := SequentialEntry(key, head, p, name, file);
    OnTrackMore(p, key, head, ours, root, states, t, entry, file, next, n);
    p' := Progress(p.commits + [entry], next, rootNow, p.conflicts + n);
    states' := states + [next];
    t' := Trace(t.smart, t.smartHeads, t.seqHeads + [file], t.conflicts + [n]);
  }

  // ---------------------------------------------------------------- preparing the import

  datatype ImportManyPayload = ImportManyPayload(
    state: LevelState,
    mergedCount: nat,
    skippedCount: nat,
    conflictCount: nat,
    smartCount: nat,
    sequentialCount: nat)

  function PlannedFiles(plan: ImportPlan): nat {
    |plan.smart| + |plan.sequential| + |plan.invalid|
  }

  ghost predicate Going(p: Progress, key: LevelKey, head: Option<Id>, ours: LevelState, root: LevelState,
                        states: seq<LevelState>, t: Trace, t0: Trace, done: seq<ImportFile>)
  {
    && OnTrack(p, key, head, ours, root, states, t) && LoadedHeads(done, t.seqHeads)
    && t.smart == t0.smart && t.smartHeads == t0.smartHeads
  }

  /** One sequential file: merged in, or skipped if it does not load. */
  method SequentialStep(key: LevelKey, head: Option<Id>, f: ImportFile, p0: Progress, ghost done: seq<ImportFile>,
                        ghost ours: LevelState, ghost root: LevelState, ghost states1: seq<LevelState>, ghost t1: Trace,
                        ghost t0: Trace)
    returns (p: Progress, error: Option<string>, ghost states: seq<LevelState>, ghost t: Trace)
    requires Going(p0, key, head, ours, root, states1, t1, t0, done) && (head.None? ==> ours == EMPTY_STATE)
    ensures Going(p, key, head, ours, root, states, t, t0, done + [f])
    ensures |t.seqHeads| == |t1.seqHeads| + if error.None? then 1 else 0
  {
    var loaded := LoadGdgeHead(f);
    p, states, t := p0, states1, t1;
    if loaded.Err? {
      error := Some(loaded.error);
      HeadsSkip(done, f, t1.seqHeads);
    } else {
      error := None;
      HeadsMore(done, f, t1.seqHeads, loaded.value);
      p, states, t := MergeFile(key, head, p0, f.name, loaded.value, ours, root, states1, t1);
    }
  }

  /** The sequential files, skipping the ones that do not load. */
  method MergeSequential(key: LevelKey, head: Option<Id>, files: seq<ImportFile>, p0: Progress, ghost ours: LevelState,
                         ghost root: LevelState, ghost states0: seq<LevelState>, ghost t0: Trace)
    returns (p: Progress, merged: nat, skipped: nat, lastError: string, ghost states: seq<LevelState>, ghost t: Trace)
    requires OnTrack(p0, key, head, ours, root, states0, t0) && (head.None? ==> ours == EMPTY_STATE) &&
             t0.seqHeads == []
    ensures Going(p, key, head, ours, root, states, t, t0, files)
    ensures merged == |t.seqHeads| && merged + skipped == |files|
  {
    p, merged, skipped, lastError, states, t := p0, 0, 0, "", states0, t0;
    ghost var done: seq<ImportFile> := [];
    for i := 0 to |files|
      invariant Going(p, key, head, ours, root, states, t, t0, done)
      invariant done == files[..i] && merged == |t.seqHeads| && merged + skipped == i
    {
      TakeMore(files, i);
      var error;
      p, error, states, t := SequentialStep(key, head, files[i], p, done, ours, root, states, t, t0);
      done := done + [files[i]];
      if error.None? {
        merged := merged + 1;
      } else {
        skipped := skipped + 1;
        lastError := if lastError == "" then error.value else lastError;
      }
    }
    TakeAll(files);
  }

  lemma NothingYet(key: LevelKey, head: Option<Id>, ours: LevelState, root: LevelState)
    ensures OnTrack(Progress([], ours, root, 0), key, head, ours, root, [ours], Trace(false, [], [], []))
  {
  }

  lemma SmartStart(key: LevelKey, head: Option<Id>, ours: LevelState, root: LevelState, entry: PendingHeadUpdate,
                   heads: seq<LevelState>, merged: LevelState, n: nat)
    requires EntryShape(key, head, 0, entry) && IsDiff(ours, merged, entry.delta) &&
             FoldsTo(IsMerge, root, ours, heads, merged, n)
    ensures OnTrack(Progress([entry], merged, if head.None? then merged else root, n), key, head, ours, root,
                    [ours, merged], Trace(true, heads, [], [n]))
  {
    FirstLink(ours, key, head, entry, merged);
    FirstFold(head, root, ours, heads, merged, n);
    FirstTotals(head, root, ours, entry, heads, merged, n);
  }

  lemma FirstLink(ours: LevelState, key: LevelKey, head: Option<Id>, entry: PendingHeadUpdate, merged: LevelState)
    requires EntryShape(key, head, 0, entry) && IsDiff(ours, merged, entry.delta)
    ensures OpenChain(ours, key, head, [entry], [ours, merged])
  {
    assert DiffAt([entry], [ours, merged], 0);
  }

  lemma FirstTotals(head: Option<Id>, root: LevelState, ours: LevelState, entry: PendingHeadUpdate,
                    heads: seq<LevelState>, merged: LevelState, n: nat)
    ensures Totals(Progress([entry], merged, if head.None? then merged else root, n), head, root, [ours, merged],
                   Trace(true, heads, [], [n]))
  {
    SumMore([], n);
    assert [] + [n] == [n];
  }

  lemma FirstFold(head: Option<Id>, root: LevelState, ours: LevelState, heads: seq<LevelState>, merged: LevelState,
                  n: nat)
    requires FoldsTo(IsMerge, root, ours, heads, merged, n)
    ensures Faithful(IsMerge, head, root, [ours, merged], Trace(true, heads, [], [n]))
  {
  }

  /** The smart files as the first entry, if they all load. */
  method StartChain(key: LevelKey, head: Option<Id>, files: seq<ImportFile>, ours: LevelState, root: LevelState)
    returns (p: Progress, smart: bool, ghost states: seq<LevelState>, ghost t: Trace)
    ensures OnTrack(p, key, head, ours, root, states, t) && t.seqHeads == [] && t.smart == smart
    ensures smart <==> files != [] && AllLoadable(files)
    ensures smart ==> LoadedHeads(files, t.smartHeads) && |t.smartHeads| == |files|
  {
    p, smart, states, t := Progress([], ours, root, 0), false, [ours], Trace(false, [], [], []);
    NothingYet(key, head, ours, root);
    if files == [] {
      return;
    }
    var merged, conflicts;
    ghost var heads;
    smart, merged, conflicts, heads := MergeSmart(root, ours, files);
    if smart {
      var d := Diff(ours, merged);
      var entry := PendingHeadUpdate(key, head, None, None, "Smart merge", d, None);
      SmartStart(key, head, ours, root, entry, heads, merged, conflicts);
      p := Progress([entry], merged, if head.None? then merged else root, conflicts);
      states := [ours, merged];
      t := Trace(true, heads, [], [conflicts]);
      forall i | 0 <= i < |files| ensures Loadable(files[i]) {
        AllLoad(files, heads, i);
      }
    }
  }

  /** The heads merged are those of the smart files, if they all load, and of the sequential files that load. */
  ghost predicate TraceOf(smart: seq<ImportFile>, sequential: seq<ImportFile>, t: Trace) {
    && (t.smart <==> smart != [] && AllLoadable(smart))
    && (t.smart ==> LoadedHeads(smart, t.smartHeads) && |t.smartHeads| == |smart|)
    && LoadedHeads(sequential, t.seqHeads)
  }

  ghost predicate Counted(p: ImportManyPayload, t: Trace, files: nat) {
    && p.smartCount == (if t.smart then |t.smartHeads| else 0) && p.sequentialCount == |t.seqHeads|
    && p.mergedCount == p.smartCount + p.sequentialCount && p.mergedCount + p.skippedCount == files
    && p.conflictCount == Sum(t.conflicts)
  }

  /**
   * The pending commits of an import and its counts. `states` and `t` record the running states and where they came
   * from.
   */
  method PrepareImportMany(key: LevelKey, plan: ImportPlan, head: Option<Id>, ours: LevelState, root: LevelState)
    returns (r: Result<ImportManyPayload>, commits: seq<PendingHeadUpdate>, ghost states: seq<LevelState>,
             ghost t: Trace)
    requires head.None? ==> ours == EMPTY_STATE
    ensures r.Ok? ==> ImportChain(ours, key, head, commits, states) && r.value.state == states[|commits|]
    ensures r.Ok? ==> Faithful(IsMerge, head, root, states, t) && TraceOf(plan.smart, plan.sequential, t)
    ensures r.Ok? ==> Counted(r.value, t, PlannedFiles(plan))
    ensures r.Ok? <==> AnyMerged(plan.smart, plan.sequential)
    ensures r.Err? ==> commits == []
  {
    var p, smart;
    p, smart, states, t := StartChain(key, head, plan.smart, ours, root);
    var smartCount := if smart then |plan.smart| else 0;
    var skipped := |plan.invalid| + |plan.smart| - smartCount;
    var merged, missed, lastError;
    p, merged, missed, lastError, states, t := MergeSequential(key, head, plan.sequential, p, ours, root, states, t);
    skipped := skipped + missed;
    commits := p.commits;
    SomeHeadIff(plan.sequential, t.seqHeads);
    if commits == [] {
      r := Err(if lastError == "" then "none of selected files merged" else lastError);
      return;
    }
    SealChain(ours, key, head, commits, states);
    r := Ok(ImportManyPayload(p.running, smartCount + merged, skipped, p.conflicts, smartCount, merged));
    commits := Sealed(commits, p.running);
  }
}
