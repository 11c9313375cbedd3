/** Lists of keys and values and their delimited text, shared by the header and the object chunks. */
module KeyValues {
  import opened Prelude
  import opened Parsing

  datatype Kv = Kv(key: string, value: string)

  /** Key, value, key, value, ... */
  function Flatten(kv: seq<Kv>): (r: seq<string>) {
    if kv == [] then [] else [kv[0].key, kv[0].value] + Flatten(kv[1..])
  }

  function KvText(kv: seq<Kv>, d: char): string {
    Join(Flatten(kv), d)
  }

  /** Drop one empty token at the end. */
  function Trimmed(tokens: seq<string>): seq<string> {
    if tokens != [] && tokens[|tokens| - 1] == "" then tokens[..|tokens| - 1] else tokens
  }

  ghost predicate DistinctKeys(kv: seq<Kv>) {
    forall i, j :: 0 <= i < j < |kv| ==> kv[i].key != kv[j].key
  }

  /** No key or value holds the character. */
  ghost predicate KvFree(kv: seq<Kv>, c: char) {
    forall i :: 0 <= i < |kv| ==> c !in kv[i].key && c !in kv[i].value
  }

  lemma {:induction false} FlattenAt(kv: seq<Kv>, i: nat)
    requires i < |kv|
    ensures |Flatten(kv)| == 2 * |kv|
    ensures Flatten(kv)[2 * i] == kv[i].key && Flatten(kv)[2 * i + 1] == kv[i].value
  {
    if i > 0 {
      FlattenAt(kv[1..], i - 1);
    } else if |kv| > 1 {
      FlattenAt(kv[1..], 0);
    }
  }

  lemma {:induction false} FlattenFree(kv: seq<Kv>, c: char)
    requires KvFree(kv, c)
    ensures Free(Flatten(kv), c)
  {
    if kv != [] {
      FlattenFree(kv[1..], c);
    }
  }

  lemma {:induction false} FlattenPush(front: seq<Kv>, e: Kv)
    ensures Flatten(front + [e]) == Flatten(front) + [e.key, e.value]
  {
    if front != [] {
      FlattenPush(front[1..], e);
      assert (front + [e])[1..] == front[1..] + [e];
    }
  }

  /** Splitting a printed list gives its keys and values back. */
  lemma SplitKvText(kv: seq<Kv>, d: char)
    requires kv != [] && KvFree(kv, d)
    ensures Split(KvText(kv, d), d) == Flatten(kv)
  {
    FlattenFree(kv, d);
    FlattenAt(kv, 0);
    SplitJoin(Flatten(kv), d);
  }

  /** Printing one more pair. */
  lemma KvStep(kv: seq<Kv>, i: nat, d: char, out: string)
    requires i < |kv|
    ensures out + JoinFrom(Flatten(kv), 2 * i, d) ==
            (if i > 0 then out + [d] else out) + kv[i].key + [d] + kv[i].value + JoinFrom(Flatten(kv), 2 * (i + 1), d)
  {
    FlattenAt(kv, i);
    PairStep(Flatten(kv), 2 * i, d, out);
    assert 2 * (i + 1) == 2 * i + 2;
  }

  lemma PairStep(flat: seq<string>, j: nat, d: char, out: string)
    requires j + 1 < |flat|
    ensures out + JoinFrom(flat, j, d) ==
            (if j > 0 then out + [d] else out) + flat[j] + [d] + flat[j + 1] + JoinFrom(flat, j + 2, d)
  {
    var next := (if j > 0 then out + [d] else out) + flat[j];
    JoinFromStep(flat, j, d, out);
    JoinFromStep(flat, j + 1, d, next);
  }

  method PrintKv(kv: seq<Kv>, d: char) returns (out: string)
    ensures out == KvText(kv, d)
  {
    out := "";
    LengthIs(kv);
    for i := 0 to |kv|
      invariant out + JoinFrom(Flatten(kv), 2 * i, d) == JoinFrom(Flatten(kv), 0, d)
    {
      KvStep(kv, i, d, out);
      if i > 0 {
        out := out + [d];
      }
      out := out + kv[i].key;
      out := out + [d];
      out := out + kv[i].value;
    }
    JoinFromAll(Flatten(kv), d);
  }

  lemma LengthIs(kv: seq<Kv>)
    ensures |Flatten(kv)| == 2 * |kv|
  {
    if kv != [] {
      FlattenAt(kv, 0);
    }
  }

  // ---------------------------------------------------------------- as a map

  type Values = map<string, string>

  function ValueAt(m: Values, k: string): Option<string> {
    if k in m then Some(m[k]) else None
  }

  function ToMap(kv: seq<Kv>): Values {
    if kv == [] then map[] else ToMap(kv[..|kv| - 1])[kv[|kv| - 1].key := kv[|kv| - 1].value]
  }

  ghost predicate HasKey(kv: seq<Kv>, k: string) {
    exists i :: 0 <= i < |kv| && kv[i].key == k
  }

  lemma HasKeyFirst(kv: seq<Kv>, k: string)
    requires kv != []
    ensures HasKey(kv, k) <==> k == kv[0].key || HasKey(kv[1..], k)
  {
    if i :| 0 <= i < |kv| && kv[i].key == k && i > 0 {
      assert kv[1..][i - 1].key == k;
    }
    if i :| 0 <= i < |kv[1..]| && kv[1..][i].key == k {
      assert kv[i + 1].key == k;
    }
  }

  lemma HasKeyLast(kv: seq<Kv>, k: string)
    requires kv != []
    ensures HasKey(kv, k) <==> k == kv[|kv| - 1].key || HasKey(kv[..|kv| - 1], k)
  {
    var front := kv[..|kv| - 1];
    if i :| 0 <= i < |kv| && kv[i].key == k && i < |front| {
      assert front[i].key == k;
    }
    if i :| 0 <= i < |front| && front[i].key == k {
      assert kv[i].key == k;
    }
  }

  lemma {:induction false} ToMapKeys(kv: seq<Kv>, k: string)
    ensures k in ToMap(kv) <==> HasKey(kv, k)
  {
    if kv != [] {
      var front := kv[..|kv| - 1];
      ToMapKeys(front, k);
      HasKeyLast(kv, k);
    }
  }

  lemma {:induction false} ToMapAt(kv: seq<Kv>, i: nat)
    requires DistinctKeys(kv) && i < |kv|
    ensures ValueAt(ToMap(kv), kv[i].key) == Some(kv[i].value)
  {
    var front := kv[..|kv| - 1];
    if i < |front| {
      ToMapAt(front, i);
      assert front[i] == kv[i];
    }
  }

  lemma {:induction false} ToMapClean(kv: seq<Kv>, k: string, c: char)
    requires KvFree(kv, c) && k in ToMap(kv)
    ensures c !in k && c !in ToMap(kv)[k]
  {
    var front, last := kv[..|kv| - 1], kv[|kv| - 1];
    if k != last.key {
      forall i | 0 <= i < |front| ensures c !in front[i].key && c !in front[i].value {
        assert front[i] == kv[i];
      }
      ToMapClean(front, k, c);
    }
  }
}
