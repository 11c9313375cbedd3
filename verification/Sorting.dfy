/** `std::sort` and the iteration order of `std::map` and `std::set`: the elements of a set in ascending order. */
module Sorting {
  import opened Prelude

  ghost predicate TotalOrder<T(!new)>(less: (T, T) -> bool) {
    && (forall a, b :: a != b ==> less(a, b) || less(b, a))
    && (forall a :: !less(a, a))
    && (forall a, b, c :: less(a, b) && less(b, c) ==> less(a, c))
  }

  ghost predicate IsLeast<T(!new)>(s: set<T>, less: (T, T) -> bool, m: T) {
    m in s && forall x :: x in s && x != m ==> less(m, x)
  }

  lemma {:induction false} LeastExists<T(!new)>(s: set<T>, less: (T, T) -> bool)
    requires s != {} && TotalOrder(less)
    ensures exists m :: IsLeast(s, less, m)
  {
    var x :| x in s;
    var rest := s - {x};
    assert s == rest + {x};
    if rest == {} {
      assert IsLeast(s, less, x);
    } else {
      LeastExists(rest, less);
      var m :| IsLeast(rest, less, m);
      assert IsLeast(s, less, if less(x, m) then x else m);
    }
  }

  lemma LeastUnique<T(!new)>(s: set<T>, less: (T, T) -> bool, m: T, n: T)
    requires TotalOrder(less) && IsLeast(s, less, m) && IsLeast(s, less, n)
    ensures m == n
  {
    assert m != n ==> less(m, n) && less(n, m) && less(m, m);
  }

  ghost function Least<T(!new)>(s: set<T>, less: (T, T) -> bool): (m: T)
    requires s != {} && TotalOrder(less)
    ensures m in s
  {
    LeastExists(s, less);
    var m :| IsLeast(s, less, m);
    m
  }

  /** The first element of an ascending walk. */
  method TakeLeast<T(==, !new)>(s: set<T>, less: (T, T) -> bool) returns (m: T)
    requires s != {} && TotalOrder(less)
    ensures m in s && m == Least(s, less)
  {
    m :| m in s;
    var todo := s - {m};
    while todo != {}
      invariant todo <= s && m in s
      invariant forall x :: x in s && x !in todo && x != m ==> less(m, x)
      decreases todo
    {
      var x :| x in todo;
      todo := todo - {x};
      if less(x, m) {
        m := x;
      }
    }
    LeastExists(s, less);
    LeastUnique(s, less, m, Least(s, less));
  }

  // ---------------------------------------------------------------- the two orders in use

  predicate IntLess(a: int, b: int) {
    a < b
  }

  /** `std::string` comparison: lexicographic. */
  predicate StringLess(a: string, b: string) {
    b != [] && (a == [] || a[0] < b[0] || (a[0] == b[0] && StringLess(a[1..], b[1..])))
  }

  lemma {:induction false} StringConnected(a: string, b: string)
    ensures a != b ==> StringLess(a, b) || StringLess(b, a)
    ensures !StringLess(a, a)
  {
    if a != [] {
      if b != [] {
        StringConnected(a[1..], b[1..]);
        assert a == [a[0]] + a[1..] && b == [b[0]] + b[1..];
      } else {
        StringConnected(a[1..], b);
      }
    }
  }

  lemma {:induction false} StringTransitive(a: string, b: string, c: string)
    requires StringLess(a, b) && StringLess(b, c)
    ensures StringLess(a, c)
  {
    if a != [] && a[0] == b[0] && b[0] == c[0] {
      StringTransitive(a[1..], b[1..], c[1..]);
    }
  }

  lemma Orders()
    ensures TotalOrder(IntLess) && TotalOrder(StringLess)
  {
    forall a, b ensures (a != b ==> StringLess(a, b) || StringLess(b, a)) && !StringLess(a, a) {
      StringConnected(a, b);
    }
    forall a, b, c | StringLess(a, b) && StringLess(b, c) ensures StringLess(a, c) {
      StringTransitive(a, b, c);
    }
  }

  ghost function LeastInt(s: set<int>): (m: int)
    requires s != {}
    ensures m in s
  {
    Orders();
    Least(s, IntLess)
  }

  ghost function LeastString(s: set<string>): (m: string)
    requires s != {}
    ensures m in s
  {
    Orders();
    Least(s, StringLess)
  }

  lemma LeastIntFirst(s: set<int>, x: int)
    requires x in s
    ensures LeastInt(s) <= x
  {
    Orders();
    LeastExists(s, IntLess);
    assert IsLeast(s, IntLess, LeastInt(s));
  }

  lemma LeastStringFirst(s: set<string>, x: string)
    requires x in s
    ensures x == LeastString(s) || StringLess(LeastString(s), x)
  {
    Orders();
    LeastExists(s, StringLess);
    assert IsLeast(s, StringLess, LeastString(s));
  }

  method TakeLeastInt(s: set<int>) returns (m: int)
    requires s != {}
    ensures m in s && m == LeastInt(s)
  {
    Orders();
    m := TakeLeast(s, IntLess);
  }

  method TakeLeastString(s: set<string>) returns (m: string)
    requires s != {}
    ensures m in s && m == LeastString(s)
  {
    Orders();
    m := TakeLeast(s, StringLess);
  }
}
