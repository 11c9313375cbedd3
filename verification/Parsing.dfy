/** Splitting on a delimiter and decimal integers (`src/util/format/Parsing.cpp`). */
module Parsing {
  import opened Prelude

  // ---------------------------------------------------------------- split and join

  /** The pieces between delimiters, empty ones included; there is always at least one. */
  function Split(s: string, d: char): (r: seq<string>)
    ensures r != []
  {
    if s == [] then [""]
    else if s[0] == d then [""] + Split(s[1..], d)
    else var rest := Split(s[1..], d); [[s[0]] + rest[0]] + rest[1..]
  }

  function Join(parts: seq<string>, d: char): string {
    if parts == [] then ""
    else if |parts| == 1 then parts[0]
    else parts[0] + [d] + Join(parts[1..], d)
  }

  /** No piece holds a character twice used as a delimiter. */
  ghost predicate Free(parts: seq<string>, d: char) {
    forall i :: 0 <= i < |parts| ==> d !in parts[i]
  }

  lemma {:induction false} SplitFree(s: string, d: char)
    ensures Free(Split(s, d), d)
  {
    if s != [] {
      SplitFree(s[1..], d);
    }
  }

  lemma {:induction false} SplitOne(a: string, d: char)
    requires d !in a
    ensures Split(a, d) == [a]
  {
    if a != [] {
      SplitOne(a[1..], d);
      assert a == [a[0]] + a[1..];
    }
  }

  lemma {:induction false} SplitFirst(a: string, d: char, rest: string)
    requires d !in a
    ensures Split(a + [d] + rest, d) == [a] + Split(rest, d)
  {
    var s := a + [d] + rest;
    if a == [] {
      assert s[1..] == rest;
    } else {
      SplitFirst(a[1..], d, rest);
      assert s[1..] == a[1..] + [d] + rest;
      assert [a[0]] + a[1..] == a;
    }
  }

  /** Splitting is the only way to cut a string into delimiter-free pieces that join back to it. */
  lemma {:induction false} SplitJoin(parts: seq<string>, d: char)
    requires parts != [] && Free(parts, d)
    ensures Split(Join(parts, d), d) == parts
  {
    if |parts| == 1 {
      SplitOne(parts[0], d);
    } else {
      SplitJoin(parts[1..], d);
      SplitFirst(parts[0], d, Join(parts[1..], d));
      assert parts == [parts[0]] + parts[1..];
    }
  }

  lemma {:induction false} JoinSplit(s: string, d: char)
    ensures Join(Split(s, d), d) == s
  {
    if s == [] {
    } else {
      JoinSplit(s[1..], d);
      var rest := Split(s[1..], d);
      if s[0] == d {
        assert ([""] + rest)[1..] == rest;
      } else {
        var parts := [[s[0]] + rest[0]] + rest[1..];
        assert parts[1..] == rest[1..];
        if |rest| == 1 {
          assert Join(parts, d) == [s[0]] + rest[0];
        } else {
          assert Join(parts, d) == [s[0]] + rest[0] + [d] + Join(rest[1..], d);
          assert Join(rest, d) == rest[0] + [d] + Join(rest[1..], d);
        }
      }
    }
  }

  lemma {:induction false} SplitAt(s: string, d: char, n: nat)
    requires n < |s| && s[n] == d && d !in s[..n]
    ensures Split(s, d) == [s[..n]] + Split(s[n + 1..], d)
  {
    assert s == s[..n] + [d] + s[n + 1..];
    SplitFirst(s[..n], d, s[n + 1..]);
  }

  /** The piece that ends at `i`, with `i` at a delimiter or at the end. */
  lemma CutAt(s: string, d: char, start: nat, i: nat)
    requires start <= i <= |s| && d !in s[start..i] && (i < |s| ==> s[i] == d)
    ensures Split(s[start..], d) == [s[start..i]] + if i < |s| then Split(s[i + 1..], d) else []
    ensures i < |s| ==> s[i + 1..i + 1] == ""
  {
    var rest, cut := s[start..], i - start;
    var piece := s[start..i];
    assert rest[..cut] == piece;
    if i < |s| {
      var tail := s[i + 1..];
      assert rest[cut + 1..] == tail;
      SplitAt(rest, d, cut);
    } else {
      assert rest == piece;
      SplitOne(piece, d);
    }
  }

  /** The pieces hold only characters of the text, and a joined text only those of its pieces and the delimiter. */
  lemma {:induction false} SplitWithin(s: string, d: char, c: char)
    requires c !in s
    ensures Free(Split(s, d), c)
  {
    if s != [] {
      SplitWithin(s[1..], d, c);
    }
  }

  lemma {:induction false} JoinFree(parts: seq<string>, d: char, c: char)
    requires Free(parts, c) && c != d
    ensures c !in Join(parts, d)
  {
    if |parts| > 1 {
      JoinFree(parts[1..], d, c);
    }
  }

  /** After `i` characters, the last piece starting at `start`. */
  ghost predicate CutSoFar(s: string, d: char, start: nat, i: nat, out: seq<string>) {
    && start <= i <= |s| + 1
    && (if i <= |s| then d !in s[start..i] && out + Split(s[start..], d) == Split(s, d) else out == Split(s, d))
  }

  lemma CutHere(s: string, d: char, start: nat, i: nat, out: seq<string>)
    requires CutSoFar(s, d, start, i, out) && i <= |s| && (i == |s| || s[i] == d)
    ensures CutSoFar(s, d, i + 1, i + 1, out + [s[start..i]])
  {
    CutAt(s, d, start, i);
    if i < |s| {
      assert out + ([s[start..i]] + Split(s[i + 1..], d)) == out + [s[start..i]] + Split(s[i + 1..], d);
    } else {
      assert [s[start..i]] + [] == [s[start..i]];
    }
  }

  lemma CutLater(s: string, d: char, start: nat, i: nat, out: seq<string>)
    requires CutSoFar(s, d, start, i, out) && i < |s| && s[i] != d
    ensures CutSoFar(s, d, start, i + 1, out)
  {
    assert s[start..i + 1] == s[start..i] + [s[i]];
  }

  method SplitView(s: string, delim: char) returns (out: seq<string>)
    ensures out == Split(s, delim)
  {
    out := [];
    var start, i := 0, 0;
    assert s[0..] == s && [] + Split(s, delim) == Split(s, delim);
    while i <= |s|
      invariant 0 <= start <= i <= |s| + 1 && CutSoFar(s, delim, start, i, out)
      decreases |s| + 1 - i
    {
      if i == |s| || s[i] == delim {
        CutHere(s, delim, start, i, out);
        out := out + [s[start..i]];
        start := i + 1;
      } else {
        CutLater(s, delim, start, i, out);
      }
      i := i + 1;
    }
  }

  // ---------------------------------------------------------------- printing piece by piece

  /** What is printed from piece `i` on, with the delimiter before every piece but the very first. */
  function JoinFrom(parts: seq<string>, i: nat, d: char): string
    decreases |parts| - i
  {
    if i >= |parts| then "" else (if i > 0 then [d] else []) + (parts[i] + JoinFrom(parts, i + 1, d))
  }

  lemma {:induction false} JoinFromIs(parts: seq<string>, i: nat, d: char)
    requires i < |parts|
    ensures JoinFrom(parts, i, d) == (if i > 0 then [d] else []) + Join(parts[i..], d)
    decreases |parts| - i
  {
    var rest := parts[i..];
    assert rest[0] == parts[i] && rest[1..] == parts[i + 1..];
    if i + 1 < |parts| {
      JoinFromIs(parts, i + 1, d);
      assert Join(rest, d) == parts[i] + [d] + Join(parts[i + 1..], d);
      assert JoinFrom(parts, i + 1, d) == [d] + Join(parts[i + 1..], d);
    } else {
      assert Join(rest, d) == parts[i] + "";
    }
  }

  lemma JoinFromAll(parts: seq<string>, d: char)
    ensures JoinFrom(parts, 0, d) == Join(parts, d)
  {
    if parts != [] {
      JoinFromIs(parts, 0, d);
      assert parts[0..] == parts;
    }
  }

  /** Printing one more piece. */
  lemma JoinFromStep(parts: seq<string>, i: nat, d: char, out: string)
    requires i < |parts|
    ensures out + JoinFrom(parts, i, d) == (if i > 0 then out + [d] else out) + parts[i] + JoinFrom(parts, i + 1, d)
  {
  }

  // ---------------------------------------------------------------- decimal integers

  const INT_MIN := -0x8000_0000
  const INT_MAX := 0x7FFF_FFFF

  predicate IsInt(n: int) {
    INT_MIN <= n <= INT_MAX
  }

  predicate IsDigit(c: char) {
    '0' <= c <= '9'
  }

  function DigitValue(c: char): nat
    requires IsDigit(c)
  {
    c as int - '0' as int
  }

  /** The value of a non-empty string of digits. */
  function Digits(s: string): Option<nat> {
    if s == [] || !IsDigit(s[|s| - 1]) then None
    else if |s| == 1 then Some(DigitValue(s[0]))
    else var front := Digits(s[..|s| - 1]);
      if front.None? then None else Some(10 * front.value + DigitValue(s[|s| - 1]))
  }

  /** `std::from_chars` on the whole string: an optional minus, digits, and a value that fits an `int`. */
  function ParseInt(s: string): (r: Option<int>)
    ensures r.Some? ==> IsInt(r.value)
  {
    var minus := s != [] && s[0] == '-';
    var n := Digits(if minus then s[1..] else s);
    if n.None? then None
    else var v: int := if minus then -(n.value as int) else n.value;
      if IsInt(v) then Some(v) else None
  }

  function DigitOf(n: nat): char
    requires n < 10
  {
    ('0' as int + n) as char
  }

  function NatText(n: nat): (s: string)
    ensures s != [] && IsDigit(s[0])
    ensures Digits(s) == Some(n)
  {
    if n < 10 then [DigitOf(n)]
    else var front := NatText(n / 10);
      var s := front + [DigitOf(n % 10)];
      assert s[..|s| - 1] == front;
      s
  }

  /** `std::to_string`. */
  function IntText(n: int): string {
    if n < 0 then "-" + NatText(-n) else NatText(n)
  }

  lemma ParseIntText(n: int)
    requires IsInt(n)
    ensures ParseInt(IntText(n)) == Some(n)
  {
    if n < 0 {
      assert IntText(n)[1..] == NatText(-n);
    } else {
      assert IsDigit(NatText(n)[0]);
    }
  }

  lemma {:induction false} NatTextFree(n: nat, c: char)
    requires !IsDigit(c)
    ensures c !in NatText(n)
  {
    if n >= 10 {
      NatTextFree(n / 10, c);
    }
  }

  lemma IntTextFree(n: int, c: char)
    requires !IsDigit(c) && c != '-'
    ensures c !in IntText(n)
  {
    NatTextFree(if n < 0 then -n else n, c);
  }
}
