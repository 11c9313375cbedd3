/**
 * Ascending enumeration of id sets: what sorting a hash map's keys gives (`std::sort` in the matcher and the
 * printer).
 */
module SortedIds {
  import opened Prelude
  import opened LevelModel

  ghost predicate Ascending(s: seq<Uuid>) {
    forall i, j :: 0 <= i < j < |s| ==> s[i] < s[j]
  }

  /** `s` is the ascending enumeration of `ids`. */
  ghost predicate Enumerates(s: seq<Uuid>, ids: set<Uuid>) {
    Ascending(s) && forall u :: u in s <==> u in ids
  }

  method SortIds(ids: set<Uuid>) returns (s: seq<Uuid>)
    ensures Enumerates(s, ids)
  {
    s := [];
    var todo := ids;
    while todo != {}
      invariant todo <= ids && Ascending(s)
      invariant forall u :: u in s <==> u in ids && u !in todo
      invariant forall u, v :: u in s && v in todo ==> u < v
      decreases todo
    {
      var least := Least(todo);
      forall i | 0 <= i < |s| ensures s[i] < least {
        assert s[i] in s;
      }
      s := s + [least];
      todo := todo - {least};
    }
  }

  method Least(ids: set<Uuid>) returns (least: Uuid)
    requires ids != {}
    ensures least in ids && forall u :: u in ids ==> least <= u
  {
    ghost var _ := SomeElement(ids);
    var first :| first in ids;
    least := first;
    var todo := ids - {first};
    while todo != {}
      invariant todo <= ids && least in ids
      invariant forall u :: u in ids && u !in todo ==> least <= u
      decreases todo
    {
      ghost var _ := SomeElement(todo);
      var u :| u in todo;
      todo := todo - {u};
      if u < least {
        least := u;
      }
    }
  }

  lemma AscendingPrefix(s: seq<Uuid>, n: nat)
    requires Ascending(s) && n < |s|
    ensures s[n] !in s[..n] && forall u :: u in s && u !in s[..n] ==> s[n] <= u
  {
    forall j | 0 <= j < n ensures s[j] in s[..n] {
      assert s[..n][j] == s[j];
    }
    forall u | u in s && u !in s[..n] ensures s[n] <= u {
      var j :| 0 <= j < |s| && s[j] == u;
    }
  }

  lemma AscendingLength(s: seq<Uuid>, ids: set<Uuid>)
    requires Enumerates(s, ids)
    ensures |s| == |ids| && Elements(s) == ids
  {
    assert Distinct(s);
    DistinctLength(s);
    assert Elements(s) == ids;
  }

  /** There is only one ascending enumeration. */
  lemma {:induction false} EnumerationUnique(s: seq<Uuid>, t: seq<Uuid>, ids: set<Uuid>)
    requires Enumerates(s, ids) && Enumerates(t, ids)
    ensures s == t
  {
    AscendingLength(s, ids);
    AscendingLength(t, ids);
    forall n | 0 <= n < |s| ensures s[n] == t[n] {
      SamePlace(s, t, n);
    }
  }

  lemma {:induction false} SamePlace(s: seq<Uuid>, t: seq<Uuid>, n: nat)
    requires Ascending(s) && Ascending(t) && n < |s| && n < |t| && forall u :: u in s <==> u in t
    ensures s[n] == t[n] && s[..n] == t[..n]
  {
    if n > 0 {
      SamePlace(s, t, n - 1);
      assert s[..n] == s[..n - 1] + [s[n - 1]] && t[..n] == t[..n - 1] + [t[n - 1]];
    }
    AscendingPrefix(s, n);
    AscendingPrefix(t, n);
    assert s[n] in s && t[n] in t;
  }

  lemma {:induction false} SomeEnumeration(ids: set<Uuid>) returns (s: seq<Uuid>)
    ensures Enumerates(s, ids)
  {
    if ids == {} {
      s := [];
    } else {
      var least := LeastId(ids);
      var rest := SomeEnumeration(ids - {least});
      s := [least] + rest;
      forall j | 0 <= j < |rest| ensures least < rest[j] {
        assert rest[j] in rest;
      }
    }
  }

  lemma {:induction false} LeastId(ids: set<Uuid>) returns (least: Uuid)
    requires ids != {}
    ensures least in ids && forall u :: u in ids ==> least <= u
  {
    var first :| first in ids;
    var rest := ids - {first};
    assert ids == rest + {first};
    if rest == {} {
      least := first;
    } else {
      var other := LeastId(rest);
      least := if first < other then first else other;
    }
  }

  /** The ascending enumeration. */
  ghost function InOrder(ids: set<Uuid>): (s: seq<Uuid>)
    ensures Enumerates(s, ids)
  {
    EnumerationExists(ids);
    var s :| Enumerates(s, ids);
    s
  }

  lemma EnumerationExists(ids: set<Uuid>)
    ensures exists s :: Enumerates(s, ids)
  {
    var s := SomeEnumeration(ids);
  }
}
