/** The topological sort of `replaceLevelHistoryFrom` (`src/store/CommitStore.cpp:379-415`). */
module Kahn {
  import opened Prelude
  import opened Tables

  // `deps` maps each commit of the level to the set of commits it refers to.

  ghost predicate SelfContained(deps: map<Id, set<Id>>) {
    forall i :: i in deps ==> deps[i] <= deps.Keys
  }

  ghost predicate Rankable(deps: map<Id, set<Id>>) {
    exists rank :: RanksDeps(deps, rank)
  }

  ghost predicate RanksDeps(deps: map<Id, set<Id>>, rank: map<Id, nat>) {
    forall i :: i in deps ==> RankedAt(rank, i, deps[i])
  }

  ghost predicate AllIn(ids: set<Id>, s: seq<Id>) {
    forall d :: d in ids ==> d in s
  }

  /** Each commit comes after everything it refers to. */
  ghost predicate DepsFirst(deps: map<Id, set<Id>>, order: seq<Id>) {
    forall i :: 0 <= i < |order| ==> order[i] in deps && AllIn(deps[order[i]], order[..i])
  }

  /** `after[d]` lists, once each, the commits that refer to `d`. */
  ghost predicate Inverse(deps: map<Id, set<Id>>, after: map<Id, seq<Id>>) {
    && after.Keys == deps.Keys
    && (forall d :: d in after ==> Distinct(after[d]))
    && (forall d, v :: d in after ==> (v in after[d] <==> v in deps && d in deps[v]))
  }

  /** `inDeg` counts the references not yet in `done`. */
  ghost predicate Counts(deps: map<Id, set<Id>>, inDeg: map<Id, int>, done: set<Id>) {
    inDeg.Keys == deps.Keys && forall v :: v in deps ==> inDeg[v] == |deps[v] - done|
  }

  /** The commits outside `todo` are registered, and their references counted. */
  ghost predicate Registered(deps: map<Id, set<Id>>, after: map<Id, seq<Id>>, todo: set<Id>) {
    && after.Keys == deps.Keys
    && (forall d :: d in after ==> Distinct(after[d]))
    && (forall d, v :: d in after ==> (v in after[d] <==> v in deps.Keys - todo && d in deps[v]))
  }

  ghost predicate Counted(deps: map<Id, set<Id>>, inDeg: map<Id, int>, todo: set<Id>) {
    inDeg.Keys == deps.Keys - todo && forall v :: v in inDeg ==> inDeg[v] == |deps[v]|
  }

  lemma AllRegistered(deps: map<Id, set<Id>>, after: map<Id, seq<Id>>)
    requires Registered(deps, after, {})
    ensures Inverse(deps, after)
  {
    assert deps.Keys - {} == deps.Keys;
  }

  lemma AllCounted(deps: map<Id, set<Id>>, inDeg: map<Id, int>)
    requires Counted(deps, inDeg, {})
    ensures Counts(deps, inDeg, {})
  {
    forall v | v in deps ensures v in inDeg && inDeg[v] == |deps[v] - {}| {
      assert deps[v] - {} == deps[v];
    }
  }

  method BuildDegrees(deps: map<Id, set<Id>>) returns (inDeg: map<Id, int>, after: map<Id, seq<Id>>)
    requires SelfContained(deps)
    ensures Counts(deps, inDeg, {}) && Inverse(deps, after)
  {
    inDeg := map[];
    after := map d | d in deps :: [];
    var todo := deps.Keys;
    while todo != {}
      invariant todo <= deps.Keys && Counted(deps, inDeg, todo) && Registered(deps, after, todo)
      decreases todo
    {
      ghost var _ := SomeElement(todo);
      var v :| v in todo;
      inDeg := inDeg[v := |deps[v]|];
      after := Register(after, v, deps[v]);
      todo := todo - {v};
    }
    AllCounted(deps, inDeg);
    AllRegistered(deps, after);
  }

  method Register(before: map<Id, seq<Id>>, v: Id, needed: set<Id>) returns (after: map<Id, seq<Id>>)
    requires needed <= before.Keys
    requires forall d :: d in before ==> Distinct(before[d]) && v !in before[d]
    ensures after.Keys == before.Keys
    ensures forall d :: d in after ==> Distinct(after[d])
    ensures forall d, x :: d in after ==> (x in after[d] <==> x in before[d] || (x == v && d in needed))
  {
    after := before;
    var todo := needed;
    while todo != {}
      invariant todo <= needed && after.Keys == before.Keys
      invariant forall d :: d in before ==> after[d] == if d in needed && d !in todo then before[d] + [v] else before[d]
      decreases todo
    {
      ghost var _ := SomeElement(todo);
      var d :| d in todo;
      after := after[d := after[d] + [v]];
      todo := todo - {d};
    }
  }

  method StartQueue(deps: map<Id, set<Id>>, inDeg: map<Id, int>) returns (q: seq<Id>)
    requires inDeg.Keys == deps.Keys
    ensures Distinct(q) && forall v :: v in q <==> v in deps && inDeg[v] == 0
  {
    q := [];
    var todo := deps.Keys;
    while todo != {}
      invariant todo <= deps.Keys
      invariant Distinct(q) && forall v :: v in q <==> v in deps && v !in todo && inDeg[v] == 0
      decreases todo
    {
      ghost var _ := SomeElement(todo);
      var v :| v in todo;
      todo := todo - {v};
      if inDeg[v] == 0 {
        q := q + [v];
      }
    }
  }

  /** What the main loop keeps: the queue holds exactly the unsorted commits whose references are all sorted. */
  ghost predicate Sorting(deps: map<Id, set<Id>>, inDeg: map<Id, int>, order: seq<Id>, q: seq<Id>) {
    && Counts(deps, inDeg, Elements(order))
    && DepsFirst(deps, order)
    && Distinct(order + q)
    && (forall v :: v in deps ==> (inDeg[v] == 0 <==> v in order || v in q))
    && (forall v :: v in q ==> v in deps)
  }

  method TopoOrder(deps: map<Id, set<Id>>) returns (order: seq<Id>)
    requires SelfContained(deps)
    ensures Distinct(order) && DepsFirst(deps, order)
    ensures |order| == |deps| ==> AllIn(deps.Keys, order)
    ensures Rankable(deps) ==> |order| == |deps|
  {
    var inDeg, after := BuildDegrees(deps);
    var q := StartQueue(deps, inDeg);
    order := [];
    StartSorting(deps, inDeg, q);
    while q != []
      invariant Sorting(deps, inDeg, order, q)
      decreases |deps| - |order|, |q|
    {
      var u := q[0];
      SortedSoFar(deps, order, q);
      inDeg, q := Release(deps, inDeg, after, order, q);
      order := order + [u];
    }
    SortingDone(deps, inDeg, order);
  }

  lemma StartSorting(deps: map<Id, set<Id>>, inDeg: map<Id, int>, q: seq<Id>)
    requires Counts(deps, inDeg, {}) && Distinct(q) && forall v :: v in q <==> v in deps && inDeg[v] == 0
    ensures Sorting(deps, inDeg, [], q)
  {
    assert [] + q == q;
    assert Elements<Id>([]) == {};
  }

  /** Once the queue is empty, everything is sorted unless there is a cycle. */
  lemma SortingDone(deps: map<Id, set<Id>>, inDeg: map<Id, int>, order: seq<Id>)
    requires SelfContained(deps) && Sorting(deps, inDeg, order, [])
    ensures Distinct(order) && DepsFirst(deps, order)
    ensures |order| == |deps| ==> AllIn(deps.Keys, order)
    ensures Rankable(deps) ==> |order| == |deps|
  {
    assert order + [] == order;
    DistinctLength(order);
    SubsetLength(Elements(order), deps.Keys);
    if rank :| RanksDeps(deps, rank) {
      forall v | v in deps ensures v in order {
        AllSorted(deps, rank, inDeg, order, v);
      }
      assert Elements(order) == deps.Keys;
    }
  }

  lemma FrontIsNew(order: seq<Id>, q: seq<Id>)
    requires Distinct(order + q) && q != []
    ensures q[0] !in order && Elements(order + [q[0]]) == Elements(order) + {q[0]}
    ensures order + q == (order + [q[0]]) + q[1..]
  {
    var all := order + q;
    assert all[|order|] == q[0];
    forall i | 0 <= i < |order| ensures order[i] != q[0] {
      assert all[i] == order[i];
    }
  }

  lemma SortedSoFar(deps: map<Id, set<Id>>, order: seq<Id>, q: seq<Id>)
    requires DepsFirst(deps, order) && Distinct(order + q) && q != [] && forall v :: v in q ==> v in deps
    ensures |order| < |deps|
  {
    var s := order + [q[0]];
    assert forall i :: 0 <= i < |s| ==> s[i] == (order + q)[i];
    DistinctLength(s);
    forall v | v in Elements(s) ensures v in deps {
      if v in order {
        var i :| 0 <= i < |order| && order[i] == v;
      }
    }
    SubsetLength(Elements(s), deps.Keys);
  }

  lemma DropOne(s: set<Id>, done: set<Id>, u: Id)
    requires u !in done
    ensures |s - (done + {u})| == |s - done| - (if u in s then 1 else 0)
  {
    if u in s {
      assert s - done == (s - (done + {u})) + {u};
    } else {
      assert s - (done + {u}) == s - done;
    }
  }

  /** Take one off the count of every waiting commit; `freed` are those that reach zero, in order. */
  method Decrement(inDeg: map<Id, int>, waiting: seq<Id>) returns (deg: map<Id, int>, freed: seq<Id>)
    requires Distinct(waiting) && forall v :: v in waiting ==> v in inDeg
    ensures deg.Keys == inDeg.Keys
    ensures forall v :: v in inDeg ==> deg[v] == inDeg[v] - (if v in waiting then 1 else 0)
    ensures Distinct(freed) && forall v :: v in freed <==> v in waiting && inDeg[v] == 1
  {
    deg, freed := inDeg, [];
    for j := 0 to |waiting|
      invariant deg.Keys == inDeg.Keys
      invariant forall v :: v in inDeg ==> deg[v] == inDeg[v] - (if v in waiting[..j] then 1 else 0)
      invariant Distinct(freed) && forall v :: v in freed <==> v in waiting[..j] && inDeg[v] == 1
    {
      var v := waiting[j];
      assert waiting[..j + 1] == waiting[..j] + [v];
      assert v !in waiting[..j];
      deg := deg[v := deg[v] - 1];
      if deg[v] == 0 {
        freed := freed + [v];
      }
    }
    assert waiting[..|waiting|] == waiting;
  }

  /** Pop the first queued commit and release the ones that waited for it. */
  method Release(deps: map<Id, set<Id>>, inDeg: map<Id, int>, after: map<Id, seq<Id>>, ghost order: seq<Id>, q: seq<Id>)
    returns (deg: map<Id, int>, queue: seq<Id>)
    requires Inverse(deps, after) && q != [] && Sorting(deps, inDeg, order, q)
    ensures Sorting(deps, deg, order + [q[0]], queue)
  {
    var u := q[0];
    assert u in q && u in deps;
    var waiting := after[u];
    assert Distinct(waiting);
    var freed;
    deg, freed := Decrement(inDeg, waiting);
    queue := q[1..] + freed;
    CountsAfter(deps, inDeg, after, order, q, deg);
    FirstAfter(deps, inDeg, order, q);
    QueueAfter(deps, inDeg, order, q, waiting, deg, freed);
  }

  lemma QueueAfter(deps: map<Id, set<Id>>, inDeg: map<Id, int>, order: seq<Id>, q: seq<Id>,
                   waiting: seq<Id>, deg: map<Id, int>, freed: seq<Id>)
    requires q != [] && Sorting(deps, inDeg, order, q)
    requires forall v :: v in waiting ==> v in deps
    requires Distinct(freed) && forall v :: v in freed <==> v in waiting && inDeg[v] == 1
    requires deg.Keys == deps.Keys && forall v :: v in deps ==> deg[v] == inDeg[v] - (if v in waiting then 1 else 0)
    requires forall v :: v in deps ==> deg[v] >= 0
    ensures Distinct((order + [q[0]]) + (q[1..] + freed))
    ensures forall v :: v in deps ==> (deg[v] == 0 <==> v in order + [q[0]] || v in q[1..] + freed)
    ensures forall v :: v in q[1..] + freed ==> v in deps
  {
    FrontIsNew(order, q);
    StillDistinct(order, q, freed, inDeg);
    assert (order + [q[0]]) + (q[1..] + freed) == (order + q) + freed;
    assert q == [q[0]] + q[1..];
    forall v ensures v in order + [q[0]] || v in q[1..] + freed <==> v in order || v in q || v in freed {
      assert v in q <==> v == q[0] || v in q[1..];
    }
  }

  lemma CountsAfter(deps: map<Id, set<Id>>, inDeg: map<Id, int>, after: map<Id, seq<Id>>, order: seq<Id>, q: seq<Id>,
                    deg: map<Id, int>)
    requires Inverse(deps, after) && q != [] && q[0] in deps && Distinct(order + q)
    requires Counts(deps, inDeg, Elements(order)) && deg.Keys == deps.Keys
    requires forall v :: v in deps ==> deg[v] == inDeg[v] - (if v in after[q[0]] then 1 else 0)
    ensures Counts(deps, deg, Elements(order + [q[0]]))
  {
    FrontIsNew(order, q);
    forall v | v in deps ensures deg[v] == |deps[v] - Elements(order + [q[0]])| {
      DropOne(deps[v], Elements(order), q[0]);
    }
  }

  lemma FirstAfter(deps: map<Id, set<Id>>, inDeg: map<Id, int>, order: seq<Id>, q: seq<Id>)
    requires q != [] && Sorting(deps, inDeg, order, q)
    ensures DepsFirst(deps, order + [q[0]])
  {
    var u, longer := q[0], order + [q[0]];
    assert u in q && inDeg[u] == 0;
    assert deps[u] - Elements(order) == {};
    forall i | 0 <= i < |longer| ensures longer[i] in deps && AllIn(deps[longer[i]], longer[..i]) {
      if i < |order| {
        assert longer[..i] == order[..i] && longer[i] == order[i];
      } else {
        assert longer[..i] == order && longer[i] == u;
        forall d | d in deps[u] ensures d in order {
          assert d !in deps[u] - Elements(order);
        }
      }
    }
  }

  lemma StillDistinct(order: seq<Id>, q: seq<Id>, freed: seq<Id>, inDeg: map<Id, int>)
    requires Distinct(order + q) && Distinct(freed)
    requires forall v :: v in freed ==> v in inDeg && inDeg[v] == 1
    requires forall v :: v in order || v in q ==> v in inDeg ==> inDeg[v] == 0
    ensures Distinct((order + q) + freed)
  {
    var a := order + q;
    forall i, j | 0 <= i < |a| && 0 <= j < |freed| ensures a[i] != freed[j] {
      assert a[i] in order || a[i] in q;
      assert freed[j] in freed;
    }
  }

  /** With a rank, nothing can be left over: a commit of least rank among the rest would have been released. */
  lemma {:induction false} AllSorted(deps: map<Id, set<Id>>, rank: map<Id, nat>, inDeg: map<Id, int>, order: seq<Id>,
                                     v: Id)
    requires SelfContained(deps) && RanksDeps(deps, rank) && Sorting(deps, inDeg, order, []) && v in deps
    ensures v in order
    decreases if v in rank then rank[v] else 0
  {
    assert RankedAt(rank, v, deps[v]);
    forall d | d in deps[v] ensures d in Elements(order) {
      AllSorted(deps, rank, inDeg, order, d);
    }
    assert deps[v] - Elements(order) == {};
  }
}
