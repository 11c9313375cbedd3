/**
 * History packages as values, and rebuilding their HEAD (`src/store/GdgePackage.hpp`,
 * `src/service/PackageReconstruction.cpp`).
 */
module Package {
  import opened Prelude
  import opened LevelModel
  import opened Differ

  /** The delta is what the stored blob parses to, if it does. */
  datatype PackageCommit = PackageCommit(
    commitIndex: int,
    parentIndex: Option<int>,
    revertsIndex: Option<int>,
    message: string,
    createdAt: int,
    delta: Option<Delta>)

  datatype Package = Package(
    formatVersion: string,
    rootHash: string,
    headIndex: Option<int>,
    sourceLevelKey: string,
    commits: seq<PackageCommit>)

  type Index = map<int, PackageCommit>

  /** A later commit with the same index replaces an earlier one. */
  function IndexOf(commits: seq<PackageCommit>): Index {
    if commits == [] then map[]
    else var last := commits[|commits| - 1]; IndexOf(commits[..|commits| - 1])[last.commitIndex := last]
  }

  /** Of commits with one index the last one counts. */
  lemma {:induction false} LastIndexed(commits: seq<PackageCommit>, j: nat)
    requires j < |commits| && forall k :: j < k < |commits| ==> commits[k].commitIndex != commits[j].commitIndex
    ensures commits[j].commitIndex in IndexOf(commits) && IndexOf(commits)[commits[j].commitIndex] == commits[j]
  {
    if j < |commits| - 1 {
      LastIndexed(commits[..|commits| - 1], j);
    }
  }

  // ---------------------------------------------------------------- chains

  ghost predicate Link(m: Index, a: int, b: int) {
    a in m && m[a].parentIndex == Some(b)
  }

  /** Parent by parent down from `head`, all present. */
  ghost predicate Path(m: Index, head: int, path: seq<int>) {
    && path != [] && path[0] == head
    && (forall i :: 0 <= i < |path| ==> InIndex(m, path[i]))
    && (forall i, j :: 0 <= i && j == i + 1 && j < |path| ==> Link(m, path[i], path[j]))
  }

  ghost predicate InIndex(m: Index, i: int) {
    i in m
  }

  /** The whole chain of `head`, ending at a commit without parent. */
  ghost predicate Rooted(m: Index, head: int, path: seq<int>) {
    Path(m, head, path) && InIndex(m, path[|path| - 1]) && m[path[|path| - 1]].parentIndex.None?
  }

  /** A chain that runs into a missing index or back into itself. */
  ghost predicate DeadEnd(m: Index, head: int, path: seq<int>) {
    && Path(m, head, path) && InIndex(m, path[|path| - 1])
    && var next := m[path[|path| - 1]].parentIndex;
       next.Some? && (next.value !in m || next.value in path)
  }

  /** The head is absent, or its chain meets a missing index or a cycle. */
  ghost predicate Broken(m: Index, head: int) {
    head !in m || exists path :: DeadEnd(m, head, path)
  }

  ghost predicate AllParse(m: Index, path: seq<int>) {
    forall i :: 0 <= i < |path| ==> InIndex(m, path[i]) && m[path[i]].delta.Some?
  }

  /** The deltas of the chain applied to the empty state, oldest first. */
  ghost function ReplayPath(m: Index, path: seq<int>): LevelState
    requires AllParse(m, path)
    decreases |path|
  {
    if path == [] then EMPTY_STATE
    else
      TailAllParse(m, path);
      Apply(ReplayPath(m, path[1..]), m[path[0]].delta.value)
  }

  lemma TailAllParse(m: Index, path: seq<int>)
    requires path != [] && AllParse(m, path)
    ensures InIndex(m, path[0]) && AllParse(m, path[1..])
  {
    forall i | 0 <= i < |path[1..]| ensures InIndex(m, path[1..][i]) && m[path[1..][i]].delta.Some? {
      assert path[1..][i] == path[i + 1];
      assert InIndex(m, path[i + 1]);
    }
  }

  // ---------------------------------------------------------------- chains are determined

  lemma LinkAt(m: Index, head: int, p: seq<int>, i: nat)
    requires Path(m, head, p) && i + 1 < |p|
    ensures Link(m, p[i], p[i + 1])
  {
  }

  /** Two paths from the same head agree as far as both go. */
  lemma {:induction false} PathsAgree(m: Index, head: int, p: seq<int>, q: seq<int>, i: nat)
    requires Path(m, head, p) && Path(m, head, q) && i < |p| && i < |q|
    ensures p[i] == q[i]
  {
    if i > 0 {
      PathsAgree(m, head, p, q, i - 1);
      assert Link(m, p[i - 1], p[i]) && Link(m, q[i - 1], q[i]);
    }
  }

  lemma RootedLongest(m: Index, head: int, p: seq<int>, q: seq<int>)
    requires Rooted(m, head, p) && Path(m, head, q)
    ensures |q| <= |p|
  {
    if |q| > |p| {
      PathsAgree(m, head, p, q, |p| - 1);
      LinkAt(m, head, q, |p| - 1);
      assert false;
    }
  }

  lemma RootedUnique(m: Index, head: int, p: seq<int>, q: seq<int>)
    requires Rooted(m, head, p) && Rooted(m, head, q)
    ensures p == q
  {
    RootedLongest(m, head, p, q);
    RootedLongest(m, head, q, p);
    forall i | 0 <= i < |p| ensures p[i] == q[i] {
      PathsAgree(m, head, p, q, i);
    }
  }

  /** Equal places of a path have equal continuations. */
  lemma {:induction false} SameOnward(m: Index, head: int, p: seq<int>, i: nat, j: nat, k: nat)
    requires Path(m, head, p) && i <= j && j + k < |p| && p[i] == p[j]
    ensures p[i + k] == p[j + k]
  {
    if k > 0 {
      SameOnward(m, head, p, i, j, k - 1);
      var a, b := i + k - 1, j + k - 1;
      assert Link(m, p[a], p[a + 1]) && Link(m, p[b], p[b + 1]);
    }
  }

  lemma RootedDistinct(m: Index, head: int, p: seq<int>)
    requires Rooted(m, head, p)
    ensures Distinct(p)
  {
    forall i, j | 0 <= i < j < |p| ensures p[i] != p[j] {
      if p[i] == p[j] {
        var k := |p| - 1 - j;
        SameOnward(m, head, p, i, j, k);
        LinkAt(m, head, p, i + k);
        assert false;
      }
    }
  }

  /** A chain that reaches a root meets neither a missing index nor a cycle. */
  lemma RootedNotBroken(m: Index, head: int, p: seq<int>)
    requires Rooted(m, head, p)
    ensures !Broken(m, head)
  {
    assert InIndex(m, p[0]);
    RootedDistinct(m, head, p);
    forall q ensures !DeadEnd(m, head, q) {
      if DeadEnd(m, head, q) {
        DeadEndHits(m, head, p, q);
        assert false;
      }
    }
  }

  lemma DeadEndHits(m: Index, head: int, p: seq<int>, q: seq<int>)
    requires Rooted(m, head, p) && DeadEnd(m, head, q)
    ensures !Distinct(p)
  {
    RootedLongest(m, head, p, q);
    var n := |q|;
    PathsAgree(m, head, p, q, n - 1);
    assert n < |p|;
    assert Link(m, p[n - 1], p[n]) && InIndex(m, p[n]);
    var k :| 0 <= k < n && q[k] == p[n];
    PathsAgree(m, head, p, q, k);
  }

  // ---------------------------------------------------------------- reconstruction

  /** The state of the package's HEAD, if its chain is rooted and every delta on it parses. */
  ghost predicate HeadIs(pkg: Package, st: LevelState) {
    pkg.headIndex.Some? &&
    exists path :: ChainGives(IndexOf(pkg.commits), pkg.headIndex.value, path, st)
  }

  ghost predicate ChainGives(m: Index, head: int, path: seq<int>, st: LevelState) {
    Rooted(m, head, path) && AllParse(m, path) && st == ReplayPath(m, path)
  }

  ghost predicate ChainUnparsable(m: Index, head: int) {
    exists path :: Rooted(m, head, path) && !AllParse(m, path)
  }

  lemma HeadUnique(pkg: Package, s: LevelState, t: LevelState)
    requires HeadIs(pkg, s) && HeadIs(pkg, t)
    ensures s == t
  {
    var m, head := IndexOf(pkg.commits), pkg.headIndex.value;
    var p :| ChainGives(m, head, p, s);
    var q :| ChainGives(m, head, q, t);
    RootedUnique(m, head, p, q);
  }

  /** Success and the two ways to fail exclude each other. */
  lemma FailsExactlyWhen(m: Index, head: int)
    ensures Broken(m, head) ==> forall path, st :: !ChainGives(m, head, path, st)
    ensures ChainUnparsable(m, head) ==> forall path, st :: !ChainGives(m, head, path, st)
    ensures Broken(m, head) ==> !ChainUnparsable(m, head)
  {
    forall path, st | ChainGives(m, head, path, st) ensures !Broken(m, head) && !ChainUnparsable(m, head) {
      RootedNotBroken(m, head, path);
      forall p | Rooted(m, head, p) ensures AllParse(m, p) {
        RootedUnique(m, head, path, p);
      }
    }
    if ChainUnparsable(m, head) {
      var p :| Rooted(m, head, p) && !AllParse(m, p);
      RootedNotBroken(m, head, p);
    }
  }

  lemma {:induction false} ChainEnds(m: Index, head: int, path: seq<int>)
    requires Distinct(path) && Elements(path) <= m.Keys
    requires path != [] ==> Path(m, head, path)
    ensures Broken(m, head) || exists p :: Rooted(m, head, p)
    decreases |m.Keys - Elements(path)|
  {
    var cur := if path == [] then Some(head)
               else (assert InIndex(m, path[|path| - 1]); m[path[|path| - 1]].parentIndex);
    if cur.None? {
      assert Rooted(m, head, path);
    } else {
      var i: int := cur.value;
      if i !in m || i in Elements(path) {
        DeadEndFound(m, head, path, i);
      } else {
        PathLonger(m, head, path, i);
        assert Elements(path + [i]) == Elements(path) + {i};
        assert m.Keys - Elements(path) == (m.Keys - Elements(path + [i])) + {i};
        ChainEnds(m, head, path + [i]);
      }
    }
  }

  /**
   * On any package: there is a HEAD state exactly if the head is named, its chain is not broken and its deltas parse.
   */
  lemma PackageHeadIff(pkg: Package)
    ensures (exists st :: HeadIs(pkg, st)) <==>
            pkg.headIndex.Some? && !Broken(IndexOf(pkg.commits), pkg.headIndex.value) &&
            !ChainUnparsable(IndexOf(pkg.commits), pkg.headIndex.value)
  {
    if pkg.headIndex.Some? {
      var m, head := IndexOf(pkg.commits), pkg.headIndex.value;
      FailsExactlyWhen(m, head);
      ChainEnds(m, head, []);
      if !Broken(m, head) && !ChainUnparsable(m, head) {
        var p :| Rooted(m, head, p);
        assert ChainGives(m, head, p, ReplayPath(m, p));
        assert HeadIs(pkg, ReplayPath(m, p));
      }
    }
  }

  method BuildIndex(commits: seq<PackageCommit>) returns (m: Index)
    ensures m == IndexOf(commits)
  {
    m := map[];
    for n := 0 to |commits|
      invariant m == IndexOf(commits[..n])
    {
      m := m[commits[n].commitIndex := commits[n]];
      assert commits[..n + 1][..n] == commits[..n];
    }
    assert commits[..|commits|] == commits;
  }

  /** The chain walk with its cycle check: it always stops, at a root or at a dead end. */
  method WalkChain(m: Index, head: int) returns (ok: bool, path: seq<int>)
    ensures ok ==> Rooted(m, head, path)
    ensures !ok ==> Broken(m, head)
  {
    path := [];
    var seen: set<int> := {};
    var cur := Some(head);
    while cur.Some?
      invariant seen == Elements(path) && seen <= m.Keys
      invariant path == [] ==> cur == Some(head)
      invariant path != [] ==>
                  Path(m, head, path) && InIndex(m, path[|path| - 1]) && m[path[|path| - 1]].parentIndex == cur
      decreases m.Keys - seen, cur.Some?
    {
      var i: int := cur.value;
      if i !in m || i in seen {
        ok := false;
        DeadEndFound(m, head, path, i);
        return;
      }
      PathLonger(m, head, path, i);
      assert Elements(path + [i]) == Elements(path) + {i};
      seen := seen + {i};
      path := path + [i];
      cur := m[i].parentIndex;
    }
    ok := true;
  }

  lemma DeadEndFound(m: Index, head: int, path: seq<int>, i: int)
    requires path == [] ==> i == head && i !in m
    requires path != [] ==>
               Path(m, head, path) && InIndex(m, path[|path| - 1]) && m[path[|path| - 1]].parentIndex == Some(i)
    requires i !in m || i in Elements(path)
    ensures Broken(m, head)
  {
    if path != [] {
      assert DeadEnd(m, head, path);
    }
  }

  lemma PathLonger(m: Index, head: int, path: seq<int>, i: int)
    requires i in m && (path == [] ==> i == head)
    requires path != [] ==>
               Path(m, head, path) && InIndex(m, path[|path| - 1]) && m[path[|path| - 1]].parentIndex == Some(i)
    ensures Path(m, head, path + [i])
  {
    var longer := path + [i];
    forall a, b | 0 <= a && b == a + 1 && b < |longer| ensures Link(m, longer[a], longer[b]) {
      if b < |path| {
        assert Link(m, path[a], path[b]);
      }
    }
    forall a | 0 <= a < |longer| ensures InIndex(m, longer[a]) {
      if a < |path| {
        assert InIndex(m, path[a]);
      }
    }
  }

  method ReplayChain(m: Index, path: seq<int>) returns (st: Option<LevelState>)
    requires forall i :: 0 <= i < |path| ==> InIndex(m, path[i])
    ensures st.Some? <==> AllParse(m, path)
    ensures st.Some? ==> st.value == ReplayPath(m, path)
  {
    var s := EMPTY_STATE;
    var n := |path|;
    while n > 0
      invariant 0 <= n <= |path| && AllParse(m, path[n..]) && s == ReplayPath(m, path[n..])
    {
      n := n - 1;
      var i: int := path[n];
      assert InIndex(m, path[n]);
      if m[i].delta.None? {
        return None;
      }
      TailParses(m, path, n);
      var conflicts;
      s, conflicts := ApplyDelta(s, m[i].delta.value);
    }
    assert path[0..] == path;
    st := Some(s);
  }

  lemma TailParses(m: Index, path: seq<int>, n: nat)
    requires n < |path| && InIndex(m, path[n]) && m[path[n]].delta.Some? && AllParse(m, path[n + 1..])
    ensures AllParse(m, path[n..])
    ensures ReplayPath(m, path[n..]) == Apply(ReplayPath(m, path[n + 1..]), m[path[n]].delta.value)
  {
    var tail := path[n..];
    forall i | 0 <= i < |tail| ensures InIndex(m, tail[i]) && m[tail[i]].delta.Some? {
      if i > 0 {
        assert tail[i] == path[n + 1..][i - 1];
        assert InIndex(m, path[n + 1..][i - 1]);
      }
    }
    assert tail[1..] == path[n + 1..];
  }

  method ReconstructPackageHead(pkg: Package) returns (r: Option<LevelState>)
    ensures r.Some? ==> HeadIs(pkg, r.value)
    ensures r.None? ==> pkg.headIndex.None? || Broken(IndexOf(pkg.commits), pkg.headIndex.value)
                        || ChainUnparsable(IndexOf(pkg.commits), pkg.headIndex.value)
  {
    if pkg.headIndex.None? {
      return None;
    }
    var m := BuildIndex(pkg.commits);
    var ok, path := WalkChain(m, pkg.headIndex.value);
    if !ok {
      return None;
    }
    r := ReplayChain(m, path);
    if r.Some? {
      assert ChainGives(m, pkg.headIndex.value, path, r.value);
    }
  }

  // ---------------------------------------------------------------- index checks of `validateDataReason`

  predicate ValidRef(n: nat, ref: Option<int>) {
    ref.Some? ==> 0 <= ref.value < n
  }

  ghost function Range(n: nat): set<int> {
    if n == 0 then {} else Range(n - 1) + {n - 1}
  }

  lemma {:induction false} RangeHas(n: nat, x: int)
    ensures x in Range(n) <==> 0 <= x < n
  {
    if n > 0 {
      RangeHas(n - 1, x);
    }
  }

  ghost function Indexes(commits: seq<PackageCommit>): set<int> {
    if commits == [] then {} else Indexes(commits[..|commits| - 1]) + {commits[|commits| - 1].commitIndex}
  }

  predicate RefsValid(n: nat, c: PackageCommit) {
    ValidRef(n, c.parentIndex) && ValidRef(n, c.revertsIndex)
  }

  /** The `n` commits carry the indexes 0 to n-1, once each, and every reference is one of them. */
  ghost predicate IndexesOk(pkg: Package) {
    && Indexes(pkg.commits) == Range(|pkg.commits|)
    && (forall i :: 0 <= i < |pkg.commits| ==> RefsValid(|pkg.commits|, pkg.commits[i]))
    && ValidRef(|pkg.commits|, pkg.headIndex)
  }

  ghost predicate Valid(pkg: Package) {
    pkg.rootHash != "" && pkg.sourceLevelKey != "" && pkg.formatVersion != "" && IndexesOk(pkg)
  }

  lemma {:induction false} IndexesHave(commits: seq<PackageCommit>, x: int)
    ensures x in Indexes(commits) <==> exists j :: 0 <= j < |commits| && commits[j].commitIndex == x
  {
    if commits != [] {
      var front, last := commits[..|commits| - 1], |commits| - 1;
      IndexesHave(front, x);
      if j :| 0 <= j < |commits| && commits[j].commitIndex == x {
        assert j < last ==> front[j] == commits[j];
      }
      if j :| 0 <= j < |front| && front[j].commitIndex == x {
        assert commits[j] == front[j];
      }
    }
  }

  ghost predicate InRange(ref: Option<int>, n: nat) {
    ref.None? || 0 <= ref.value < n
  }

  ghost predicate HasIndex(pkg: Package, x: int) {
    exists j :: 0 <= j < |pkg.commits| && pkg.commits[j].commitIndex == x
  }

  /** What the checks ask of the texts, of the indexes and of every reference. */
  lemma ValidMeans(pkg: Package)
    ensures Valid(pkg) <==>
            && pkg.rootHash != "" && pkg.sourceLevelKey != "" && pkg.formatVersion != ""
            && (forall x :: HasIndex(pkg, x) <==> 0 <= x < |pkg.commits|)
            && (forall j :: 0 <= j < |pkg.commits| ==>
                  InRange(pkg.commits[j].parentIndex, |pkg.commits|) &&
                  InRange(pkg.commits[j].revertsIndex, |pkg.commits|))
            && InRange(pkg.headIndex, |pkg.commits|)
  {
    forall x: int
      ensures x in Indexes(pkg.commits) <==> HasIndex(pkg, x)
      ensures x in Range(|pkg.commits|) <==> 0 <= x < |pkg.commits|
    {
      IndexesHave(pkg.commits, x);
      RangeHas(|pkg.commits|, x);
    }
    if forall x :: HasIndex(pkg, x) <==> 0 <= x < |pkg.commits| {
      forall x: int ensures x in Indexes(pkg.commits) <==> x in Range(|pkg.commits|) {
        assert HasIndex(pkg, x) <==> 0 <= x < |pkg.commits|;
      }
      assert Indexes(pkg.commits) == Range(|pkg.commits|);
    }
    forall j | 0 <= j < |pkg.commits|
      ensures RefsValid(|pkg.commits|, pkg.commits[j]) <==>
                InRange(pkg.commits[j].parentIndex, |pkg.commits|) &&
                InRange(pkg.commits[j].revertsIndex, |pkg.commits|)
    {
    }
  }

  ghost predicate Increasing(s: seq<int>) {
    forall i, j :: 0 <= i < j < |s| ==> s[i] <= s[j]
  }

  /** Insertion into a sorted list. */
  method Insert(s: seq<int>, x: int) returns (r: seq<int>)
    requires Increasing(s)
    ensures Increasing(r) && |r| == |s| + 1 && Elements(r) == Elements(s) + {x}
  {
    var n := |s|;
    while n > 0 && s[n - 1] > x
      invariant 0 <= n <= |s| && forall j :: n <= j < |s| ==> s[j] > x
    {
      n := n - 1;
    }
    r := s[..n] + [x] + s[n..];
    InsertedElements(s, n, x);
  }

  lemma InsertedElements(s: seq<int>, n: nat, x: int)
    requires n <= |s|
    ensures Elements(s[..n] + [x] + s[n..]) == Elements(s) + {x}
  {
    var front, back := s[..n], s[n..];
    assert s == front + back;
    ElementsConcat(front, back);
    ElementsConcat(front, [x]);
    ElementsConcat(front + [x], back);
    assert Elements([x]) == {x};
  }

  lemma ElementsConcat(a: seq<int>, b: seq<int>)
    ensures Elements(a + b) == Elements(a) + Elements(b)
  {
  }

  method SortedIndexes(commits: seq<PackageCommit>) returns (r: seq<int>)
    ensures Increasing(r) && |r| == |commits| && Elements(r) == Indexes(commits)
  {
    r := [];
    for n := 0 to |commits|
      invariant Increasing(r) && |r| == n && Elements(r) == Indexes(commits[..n])
    {
      assert commits[..n + 1][..n] == commits[..n];
      r := Insert(r, commits[n].commitIndex);
    }
    assert commits[..|commits|] == commits;
  }

  ghost predicate CountsUp(s: seq<int>) {
    forall i :: 0 <= i < |s| ==> s[i] == i
  }

  lemma RangeSize(n: nat)
    ensures |Range(n)| == n
  {
    if n > 0 {
      RangeSize(n - 1);
      RangeHas(n - 1, n - 1);
    }
  }

  /** A sorted list of length n counts up exactly if it holds the indexes 0 to n-1. */
  lemma CountsUpIff(s: seq<int>)
    requires Increasing(s)
    ensures CountsUp(s) <==> Elements(s) == Range(|s|)
  {
    if CountsUp(s) {
      forall x: int ensures x in Elements(s) <==> x in Range(|s|) {
        RangeHas(|s|, x);
        if x in Range(|s|) {
          assert s[x] == x;
        }
      }
    }
    if Elements(s) == Range(|s|) {
      RangeSize(|s|);
      Pigeons(s);
      forall i | 0 <= i < |s| ensures s[i] == i {
        AtLeast(s, i);
        AtMost(s, |s| - 1 - i);
      }
    }
  }

  lemma {:induction false} Pigeons(s: seq<int>)
    requires Increasing(s) && |Elements(s)| == |s|
    ensures Distinct(s)
  {
    if s != [] {
      var front, last := s[..|s| - 1], s[|s| - 1];
      assert Elements(s) == Elements(front) + {last};
      ElementsFew(front);
      assert last !in Elements(front);
      Pigeons(front);
      forall i, j | 0 <= i < j < |s| ensures s[i] != s[j] {
        assert s[i] == front[i] && front[i] in Elements(front);
        assert j < |front| ==> s[j] == front[j];
      }
    }
  }

  lemma {:induction false} ElementsFew(s: seq<int>)
    ensures |Elements(s)| <= |s|
  {
    if s != [] {
      var front := s[..|s| - 1];
      ElementsFew(front);
      assert Elements(s) == Elements(front) + {s[|s| - 1]};
    }
  }

  lemma {:induction false} AtLeast(s: seq<int>, i: nat)
    requires Increasing(s) && Distinct(s) && Elements(s) == Range(|s|) && i < |s|
    ensures s[i] >= i
  {
    var x: int := s[i];
    assert x in Elements(s);
    RangeHas(|s|, x);
    if i > 0 {
      AtLeast(s, i - 1);
    }
  }

  lemma {:induction false} AtMost(s: seq<int>, k: nat)
    requires Increasing(s) && Distinct(s) && Elements(s) == Range(|s|) && k < |s|
    ensures s[|s| - 1 - k] <= |s| - 1 - k
  {
    var x: int := s[|s| - 1 - k];
    assert x in Elements(s);
    RangeHas(|s|, x);
    if k > 0 {
      AtMost(s, k - 1);
    }
  }

  method ValidateDataReason(pkg: Package) returns (reason: string)
    ensures reason == "" <==> Valid(pkg)
  {
    if pkg.rootHash == "" {
      return "metadata.rootHash empty";
    }
    if pkg.sourceLevelKey == "" {
      return "metadata.sourceLevelKey empty";
    }
    if pkg.formatVersion == "" {
      return "metadata.formatVersion empty";
    }
    var indexes := SortedIndexes(pkg.commits);
    CountsUpIff(indexes);
    for i := 0 to |indexes|
      invariant forall j :: 0 <= j < i ==> indexes[j] == j
    {
      if indexes[i] != i {
        return "commit_index sequence not contiguous from 0";
      }
    }
    var n := |pkg.commits|;
    for i := 0 to n
      invariant forall j :: 0 <= j < i ==> RefsValid(n, pkg.commits[j])
    {
      if !ValidRef(n, pkg.commits[i].parentIndex) {
        return "parent_index out of range";
      }
      if !ValidRef(n, pkg.commits[i].revertsIndex) {
        return "reverts_index out of range";
      }
    }
    if !ValidRef(n, pkg.headIndex) {
      return "head_index out of range";
    }
    reason := "";
  }

  lemma {:induction false} IndexKeys(commits: seq<PackageCommit>)
    ensures IndexOf(commits).Keys == Indexes(commits)
    ensures forall i :: i in IndexOf(commits) ==> IndexOf(commits)[i] in commits
  {
    if commits != [] {
      var front := commits[..|commits| - 1];
      IndexKeys(front);
      assert commits == front + [commits[|commits| - 1]];
    }
  }

  /** A package that passes the checks can only fail on a cycle: no chain of it meets a missing index. */
  lemma ValidOnlyCycles(pkg: Package, path: seq<int>)
    requires IndexesOk(pkg) && pkg.headIndex.Some? && Path(IndexOf(pkg.commits), pkg.headIndex.value, path)
    ensures pkg.headIndex.value in IndexOf(pkg.commits)
    ensures var m := IndexOf(pkg.commits);
            InIndex(m, path[|path| - 1]) &&
            (m[path[|path| - 1]].parentIndex.Some? ==> m[path[|path| - 1]].parentIndex.value in m)
  {
    var m := IndexOf(pkg.commits);
    IndexKeys(pkg.commits);
    RangeHas(|pkg.commits|, pkg.headIndex.value);
    var last: int := path[|path| - 1];
    assert InIndex(m, path[|path| - 1]);
    var c := m[last];
    var k :| 0 <= k < |pkg.commits| && pkg.commits[k] == c;
    assert RefsValid(|pkg.commits|, pkg.commits[k]);
    if c.parentIndex.Some? {
      var next: int := c.parentIndex.value;
      RangeHas(|pkg.commits|, next);
    }
  }
}
