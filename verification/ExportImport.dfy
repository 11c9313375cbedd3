/** A level's own export, imported again. */
module ExportImport {
  import opened Prelude
  import opened LevelModel
  import opened Tables
  import opened History
  import opened HeaderMerge
  import opened MergeService
  import opened MergeLaws
  import I = GdgeImport
  import P = Package
  import G = GitService

  /** A file that reads as the package both when it is planned and when it is merged. */
  ghost predicate Holds(f: I.ImportFile, pkg: P.Package) {
    f.planned == Ok(pkg) && f.loaded == Ok(pkg)
  }

  lemma OneFile(f: I.ImportFile)
    ensures [f][..0] == [] && [f][|[f]| - 1] == f
  {
  }

  /** The one file of the plan is smart. */
  lemma PlannedSmart(pkg: P.Package, f: I.ImportFile, head: LevelState, root: LevelState, hash: I.Hash)
    requires Holds(f, pkg) && P.HeadIs(pkg, head) && pkg.rootHash == hash(root) && pkg.rootHash != ""
    ensures I.SmartOf(Some(root), hash, [f]) == [f] && I.SequentialOf(Some(root), hash, [f]) == []
    ensures I.UnusableOf(Some(root), [f]) == []
  {
    assert I.HasHead(pkg);
    I.OnePlanned(Some(root), hash, f);
  }

  lemma FileLoads(pkg: P.Package, f: I.ImportFile, head: LevelState)
    requires Holds(f, pkg) && P.HeadIs(pkg, head) && pkg.commits != []
    ensures I.Loads(f, head) && I.AllLoadable([f])
  {
    assert I.Loads(f, head);
    forall i | 0 <= i < |[f]| ensures I.Loadable([f][i]) {
    }
  }

  /** The one head merged is the package's. */
  lemma HeadMerged(pkg: P.Package, f: I.ImportFile, head: LevelState, t: I.Trace)
    requires Holds(f, pkg) && P.HeadIs(pkg, head) && pkg.commits != [] && I.TraceOf([f], [], t)
    ensures t.smart && t.smartHeads == [head] && t.seqHeads == []
  {
    FileLoads(pkg, f, head);
    OneFile(f);
    P.HeadUnique(pkg, t.smartHeads[|t.smartHeads| - 1], head);
  }

  /** A single merge of `x` into itself, against any root. */
  lemma MergedIntoItself(head: Option<Id>, root: LevelState, states: seq<LevelState>, t: I.Trace, x: LevelState)
    requires I.Faithful(IsMerge, head, root, states, t) && t.smart && t.smartHeads == [x] && t.seqHeads == []
    requires states[0] == x
    ensures |states| == 2 && |t.conflicts| == 1 && I.Sum(t.conflicts) == t.conflicts[0]
    ensures GivesBack(states[1], t.conflicts[0], x, Count3(root, x, x))
  {
    I.OneFold(IsMerge, root, x, x, states[1], t.conflicts[0]);
    MergeIdentities(root, x, x, states[1], t.conflicts[0], x);
    I.OneSum(t.conflicts);
  }

  /**
   * A package with HEAD's replay as its head and the local root's hash, as `ExportLevel` writes it. Its import is
   * planned smart and goes through; if HEAD reads as it replays, it is merged without conflict in the objects or the
   * header map and leaves both as they are. In the raw header it conflicts only over a channel text that does not
   * parse.
   */
  lemma OwnExportImports(h: Ranked, key: LevelKey, hash: I.Hash, pkg: P.Package, f: I.ImportFile, c: G.ImportCapture,
                         p: I.ImportManyPayload)
    requires Sound(h) && key in h.db.heads && h.db.heads[key] in h.db.rows && Holds(f, pkg)
    requires P.HeadIs(pkg, Replay(h.db.rows, h.rank, h.db.heads[key])) && pkg.commits != []
    requires pkg.rootHash == hash(c.planRoot) && pkg.rootHash != ""
    ensures I.SmartOf(Some(c.planRoot), hash, [f]) == [f] && G.GitService.Mergeable(hash, [f], c)
    ensures G.ImportsFiles(h, key, hash, [f], c, p) ==>
              p.smartCount == 1 && p.sequentialCount == 0 && p.mergedCount == 1 && p.skippedCount == 0
    ensures var x := Replay(h.db.rows, h.rank, h.db.heads[key]);
            G.ImportsFiles(h, key, hash, [f], c, p) && c.states[0] == x ==>
              && SameFields(p.state.header, x.header) && SameObjects(p.state.objects, x.objects)
              && p.conflictCount == Count3(c.root, x, x)
              && (p.conflictCount == 0 <==>
                    !Structured(c.root.rawHeader, x.rawHeader, x.rawHeader) ||
                    !BadChannels(c.root.rawHeader, x.rawHeader, x.rawHeader))
  {
    var x := Replay(h.db.rows, h.rank, h.db.heads[key]);
    PlannedSmart(pkg, f, x, c.planRoot, hash);
    FileLoads(pkg, f, x);
    if G.ImportsFiles(h, key, hash, [f], c, p) {
      OwnFileMerged(h, key, pkg, f, c, p, x);
    }
  }

  /** What the plan with this one file makes of HEAD's state `x`. */
  lemma OwnFileMerged(h: Ranked, key: LevelKey, pkg: P.Package, f: I.ImportFile, c: G.ImportCapture,
                      p: I.ImportManyPayload, x: LevelState)
    requires Sound(h) && key in h.db.heads && Holds(f, pkg) && P.HeadIs(pkg, x) && pkg.commits != []
    requires G.MergesPlan(h, key, [f], [], 1, c, p)
    ensures p.smartCount == 1 && p.sequentialCount == 0 && p.mergedCount == 1 && p.skippedCount == 0
    ensures c.states[0] == x ==>
              && SameFields(p.state.header, x.header) && SameObjects(p.state.objects, x.objects)
              && p.conflictCount == Count3(c.root, x, x)
              && (p.conflictCount == 0 <==>
                    !Structured(c.root.rawHeader, x.rawHeader, x.rawHeader) ||
                    !BadChannels(c.root.rawHeader, x.rawHeader, x.rawHeader))
  {
    HeadMerged(pkg, f, x, c.trace);
    OneMerged(Some(h.db.heads[key]), c, p, x);
  }

  lemma OneMerged(head: Option<Id>, c: G.ImportCapture, p: I.ImportManyPayload, x: LevelState)
    requires I.Faithful(IsMerge, head, c.root, c.states, c.trace) && I.Counted(p, c.trace, 1)
    requires c.trace.smart && c.trace.smartHeads == [x] && c.trace.seqHeads == []
    requires p.state == c.states[|c.states| - 1]
    ensures p.smartCount == 1 && p.sequentialCount == 0 && p.mergedCount == 1 && p.skippedCount == 0
    ensures c.states[0] == x ==>
              && SameFields(p.state.header, x.header) && SameObjects(p.state.objects, x.objects)
              && p.conflictCount == Count3(c.root, x, x)
              && (p.conflictCount == 0 <==>
                    !Structured(c.root.rawHeader, x.rawHeader, x.rawHeader) ||
                    !BadChannels(c.root.rawHeader, x.rawHeader, x.rawHeader))
  {
    if c.states[0] == x {
      MergedIntoItself(head, c.root, c.states, c.trace, x);
      RawHeaderIdentities(c.root.rawHeader, x.rawHeader, x.rawHeader, x.rawHeader, "");
    }
  }

  /**
   * Two files, no smart one, into a level without commits: the first becomes the level's root as it is, and the second
   * is merged against that root, so the level ends at the second.
   */
  lemma SecondImportWins(root: LevelState, states: seq<LevelState>, t: I.Trace, a: LevelState, b: LevelState)
    requires I.Faithful(IsMerge, None, root, states, t) && !t.smart && t.seqHeads == [a, b]
    ensures |states| == 3 && states[1] == a && t.conflicts[0] == 0
    ensures GivesBack(states[2], t.conflicts[1], b, Count3(a, a, b))
  {
    assert I.TraceAt(IsMerge, None, root, states, t, 0) && I.TraceAt(IsMerge, None, root, states, t, 1);
    MergeIdentities(a, a, b, states[2], t.conflicts[1], b);
  }
}
