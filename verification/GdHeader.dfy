/** The header text and its colour channels (`src/model/GdHeader.cpp`). */
module GdHeader {
  import opened Prelude
  import opened KeyValues
  import opened Parsing
  import opened Sorting

  const CHANNELS_KEY := "kS38"
  const CHANNEL_ID_KEY := 6

  // ---------------------------------------------------------------- key/value text

  /** The pairs from token `i` on; none as soon as a key is already `seen`. */
  function HeaderFrom(tokens: seq<string>, i: nat, seen: set<string>): Option<seq<Kv>>
    decreases |tokens| - i
  {
    if i + 1 >= |tokens| then Some([])
    else if tokens[i] in seen then None
    else var rest := HeaderFrom(tokens, i + 2, seen + {tokens[i]});
      if rest.None? then None else Some([Kv(tokens[i], tokens[i + 1])] + rest.value)
  }

  /** The list a header text stands for; none if the tokens do not pair up or a key repeats. */
  function HeaderOf(chunk: string): Option<seq<Kv>> {
    var tokens := Trimmed(Split(chunk, ','));
    if |tokens| % 2 != 0 then None else HeaderFrom(tokens, 0, {})
  }

  function HeaderText(kv: seq<Kv>): string {
    KvText(kv, ',')
  }

  ghost function After(out: seq<Kv>, rest: Option<seq<Kv>>): Option<seq<Kv>> {
    if rest.None? then None else Some(out + rest.value)
  }

  method ParseHeader(chunk: string) returns (r: Option<seq<Kv>>)
    ensures r == HeaderOf(chunk)
  {
    var tokens := SplitView(chunk, ',');
    if tokens != [] && tokens[|tokens| - 1] == "" {
      tokens := tokens[..|tokens| - 1];
    }
    if |tokens| % 2 != 0 {
      return None;
    }
    var seen: set<string> := {};
    var out: seq<Kv> := [];
    var i := 0;
    ghost var whole := HeaderFrom(tokens, 0, {});
    assert whole.Some? ==> [] + whole.value == whole.value;
    while i < |tokens|
      invariant 0 <= i <= |tokens| && i % 2 == 0
      invariant whole == After(out, HeaderFrom(tokens, i, seen))
    {
      var key := tokens[i];
      if key in seen {
        return None;
      }
      ghost var rest := HeaderFrom(tokens, i + 2, seen + {key});
      AfterMore(out, Kv(key, tokens[i + 1]), rest);
      seen := seen + {key};
      out := out + [Kv(key, tokens[i + 1])];
      i := i + 2;
    }
    assert out + [] == out;
    r := Some(out);
  }

  lemma AfterMore(out: seq<Kv>, e: Kv, rest: Option<seq<Kv>>)
    ensures After(out, if rest.None? then None else Some([e] + rest.value)) == After(out + [e], rest)
  {
    if rest.Some? {
      assert out + ([e] + rest.value) == out + [e] + rest.value;
    }
  }

  method SerializeHeader(kv: seq<Kv>) returns (out: string)
    ensures out == HeaderText(kv)
  {
    out := PrintKv(kv, ',');
  }

  lemma {:induction false} HeaderFromClean(tokens: seq<string>, i: nat, seen: set<string>, c: char)
    requires Free(tokens, c) && HeaderFrom(tokens, i, seen).Some?
    ensures var kv := HeaderFrom(tokens, i, seen).value;
            DistinctKeys(kv) && KvFree(kv, c) && forall j :: 0 <= j < |kv| ==> kv[j].key !in seen
    decreases |tokens| - i
  {
    if i + 1 < |tokens| {
      HeaderFromClean(tokens, i + 2, seen + {tokens[i]}, c);
    }
  }

  /** A parsed list repeats no key and holds no delimiter. */
  lemma ParsedHeaderClean(chunk: string)
    requires HeaderOf(chunk).Some?
    ensures DistinctKeys(HeaderOf(chunk).value) && KvFree(HeaderOf(chunk).value, ',')
  {
    SplitFree(chunk, ',');
    HeaderFromClean(Trimmed(Split(chunk, ',')), 0, {}, ',');
  }

  lemma {:induction false} HeaderFromFlat(kv: seq<Kv>, i: nat, seen: set<string>)
    requires i <= |kv| && DistinctKeys(kv) && forall j :: i <= j < |kv| ==> kv[j].key !in seen
    ensures HeaderFrom(Flatten(kv), 2 * i, seen) == Some(kv[i..])
    decreases |kv| - i
  {
    if i < |kv| {
      FlattenAt(kv, i);
      HeaderFromFlat(kv, i + 1, seen + {kv[i].key});
      assert kv[i..] == [kv[i]] + kv[i + 1..];
    } else {
      LengthIs(kv);
      assert HeaderFrom(Flatten(kv), 2 * |kv|, seen) == Some([]);
    }
  }

  /**
   * Printing a list and parsing it back: exact, except that a list whose last value is empty does not parse any
   * more, because the empty token at the end is dropped.
   */
  lemma HeaderRoundTrip(kv: seq<Kv>)
    requires DistinctKeys(kv) && KvFree(kv, ',')
    ensures HeaderOf(HeaderText(kv)) == if kv == [] || kv[|kv| - 1].value != "" then Some(kv) else None
  {
    var flat := Flatten(kv);
    if kv != [] {
      FlattenAt(kv, |kv| - 1);
      SplitKvText(kv, ',');
      FlatHeader(kv, flat);
    }
  }

  /** The tokens are the flattened list. */
  lemma {:induction false} HeaderFromTokens(tokens: seq<string>, i: nat, n: nat, seen: set<string>)
    requires HeaderFrom(tokens, i, seen).Some? && |tokens| == i + 2 * n
    ensures Flatten(HeaderFrom(tokens, i, seen).value) == tokens[i..]
    decreases n
  {
    if n > 0 {
      HeaderFromTokens(tokens, i + 2, n - 1, seen + {tokens[i]});
      assert tokens[i..] == [tokens[i], tokens[i + 1]] + tokens[i + 2..];
      var rest := HeaderFrom(tokens, i + 2, seen + {tokens[i]}).value;
      assert ([Kv(tokens[i], tokens[i + 1])] + rest)[1..] == rest;
    }
  }

  lemma HeaderTokens(chunk: string)
    requires HeaderOf(chunk).Some?
    ensures Flatten(HeaderOf(chunk).value) == Trimmed(Split(chunk, ','))
  {
    var tokens := Trimmed(Split(chunk, ','));
    HeaderFromTokens(tokens, 0, |tokens| / 2, {});
  }

  lemma {:induction false} LastPiece(s: string, d: char)
    requires s != ""
    ensures var parts := Split(s, d); parts[|parts| - 1] == "" <==> s[|s| - 1] == d
  {
    if |s| > 1 {
      LastPiece(s[1..], d);
    }
  }

  lemma {:induction false} JoinBlank(parts: seq<string>, d: char)
    requires parts != []
    ensures Join(parts + [""], d) == Join(parts, d) + [d]
  {
    if |parts| > 1 {
      JoinBlank(parts[1..], d);
      assert (parts + [""])[1..] == parts[1..] + [""];
      assert parts[0] + [d] + (Join(parts[1..], d) + [d]) == parts[0] + [d] + Join(parts[1..], d) + [d];
    } else {
      assert (parts + [""])[1..] == [""];
    }
  }

  /** Parsing a header text and printing it: the text itself, less one delimiter at the end. */
  lemma ParsedPrints(chunk: string)
    requires HeaderOf(chunk).Some?
    ensures HeaderText(HeaderOf(chunk).value) ==
            if chunk != "" && chunk[|chunk| - 1] == ',' then chunk[..|chunk| - 1] else chunk
  {
    HeaderTokens(chunk);
    JoinSplit(chunk, ',');
    var parts := Split(chunk, ',');
    if chunk != "" {
      LastPiece(chunk, ',');
      if chunk[|chunk| - 1] == ',' {
        assert parts == Trimmed(parts) + [""];
        if Trimmed(parts) != [] {
          JoinBlank(Trimmed(parts), ',');
        }
      }
    }
  }

  /** Even and odd token counts. */
  lemma Parity(n: int)
    ensures (2 * n) % 2 == 0 && (2 * n - 1) % 2 != 0
  {
  }

  lemma FlatHeader(kv: seq<Kv>, flat: seq<string>)
    requires kv != [] && DistinctKeys(kv) && flat == Flatten(kv) && |flat| == 2 * |kv|
    requires flat[|flat| - 1] == kv[|kv| - 1].value && Split(HeaderText(kv), ',') == flat
    ensures HeaderOf(HeaderText(kv)) == if kv[|kv| - 1].value != "" then Some(kv) else None
  {
    Parity(|kv|);
    var tokens := Trimmed(Split(HeaderText(kv), ','));
    if kv[|kv| - 1].value != "" {
      assert tokens == flat;
      HeaderFromFlat(kv, 0, {});
      assert kv[0..] == kv;
    } else {
      assert |tokens| == 2 * |kv| - 1;
    }
  }

  // ---------------------------------------------------------------- colour channels

  type ChannelRecord = map<int, string>

  type ChannelMap = map<int, ChannelRecord>

  /** Integer keys with their values, a later pair overwriting an earlier one; none if a key is no integer. */
  function RecordFrom(tokens: seq<string>, i: nat, sofar: ChannelRecord): Option<ChannelRecord>
    decreases |tokens| - i
  {
    if i + 1 >= |tokens| then Some(sofar)
    else if ParseInt(tokens[i]).None? then None
    else RecordFrom(tokens, i + 2, sofar[ParseInt(tokens[i]).value := tokens[i + 1]])
  }

  function RecordOf(record: string): Option<ChannelRecord> {
    var tokens := Split(record, '_');
    if |tokens| % 2 != 0 then None else RecordFrom(tokens, 0, map[])
  }

  function ChannelIdOf(record: ChannelRecord): Option<int> {
    if CHANNEL_ID_KEY in record then ParseInt(record[CHANNEL_ID_KEY]) else None
  }

  /** The channel of one record, if well-formed. */
  function RecordId(record: string): Option<int> {
    if RecordOf(record).None? then None else ChannelIdOf(RecordOf(record).value)
  }

  /** Empty records are skipped; none if a record is malformed or repeats a channel. */
  function ChannelsFrom(records: seq<string>, n: nat, sofar: ChannelMap): Option<ChannelMap>
    decreases |records| - n
  {
    if n >= |records| then Some(sofar)
    else if records[n] == "" then ChannelsFrom(records, n + 1, sofar)
    else var id := RecordId(records[n]);
      if id.None? || id.value in sofar then None
      else ChannelsFrom(records, n + 1, sofar[id.value := RecordOf(records[n]).value])
  }

  function ChannelsOf(value: string): Option<ChannelMap> {
    if value == "" then Some(map[]) else ChannelsFrom(Split(value, '|'), 0, map[])
  }

  method ParseRecord(record: string) returns (r: Option<ChannelRecord>)
    ensures r == RecordOf(record)
  {
    var tokens := SplitView(record, '_');
    if |tokens| % 2 != 0 {
      return None;
    }
    var fields: ChannelRecord := map[];
    var i := 0;
    ghost var pairs := |tokens| / 2;
    ghost var n := 0;
    while i < |tokens|
      invariant |tokens| == 2 * pairs && i == 2 * n && 0 <= n <= pairs
      invariant RecordFrom(tokens, 0, map[]) == RecordFrom(tokens, i, fields)
    {
      var key := ParseInt(tokens[i]);
      if key.None? {
        return None;
      }
      fields := fields[key.value := tokens[i + 1]];
      i := i + 2;
      n := n + 1;
    }
    r := Some(fields);
  }

  method ParseChannels(value: string) returns (r: Option<ChannelMap>)
    ensures r == ChannelsOf(value)
  {
    var out: ChannelMap := map[];
    if value == "" {
      return Some(out);
    }
    var records := SplitView(value, '|');
    for n := 0 to |records|
      invariant ChannelsFrom(records, 0, map[]) == ChannelsFrom(records, n, out)
    {
      if records[n] == "" { continue; }
      var fields := ParseRecord(records[n]);
      if fields.None? || CHANNEL_ID_KEY !in fields.value {
        return None;
      }
      var channelId := ParseInt(fields.value[CHANNEL_ID_KEY]);
      if channelId.None? || channelId.value in out {
        return None;
      }
      out := out[channelId.value := fields.value];
    }
    r := Some(out);
  }

  // ---------------------------------------------------------------- equal keys of a record

  ghost function IntKey(tokens: seq<string>, i: nat): Option<int>
    requires 2 * i + 1 < |tokens|
  {
    ParseInt(tokens[2 * i])
  }

  ghost predicate AllIntKeys(tokens: seq<string>, n: nat) {
    forall i: nat :: n <= i && 2 * i + 1 < |tokens| ==> IntKey(tokens, i).Some?
  }

  /** The pair at place `i` is the last one that has the key. */
  ghost predicate LastPair(tokens: seq<string>, k: int, i: nat) {
    && 2 * i + 1 < |tokens| && IntKey(tokens, i) == Some(k)
    && forall j: nat :: i < j && 2 * j + 1 < |tokens| ==> IntKey(tokens, j) != Some(k)
  }

  ghost predicate LaterPair(tokens: seq<string>, n: nat, k: int) {
    exists i: nat :: n <= i && 2 * i + 1 < |tokens| && IntKey(tokens, i) == Some(k)
  }

  /** What the pairs from place `n` on leave at a key: the last pair's value, or what was there before. */
  ghost predicate ReadsLast(tokens: seq<string>, n: nat, k: int, sofar: ChannelRecord, r: ChannelRecord) {
    && (forall i: nat :: n <= i && LastPair(tokens, k, i) ==> k in r && r[k] == tokens[2 * i + 1])
    && (!LaterPair(tokens, n, k) ==> (k in r <==> k in sofar) && (k in r ==> r[k] == sofar[k]))
  }

  lemma {:induction false} LastPairWins(tokens: seq<string>, n: nat, sofar: ChannelRecord, k: int)
    ensures var r := RecordFrom(tokens, 2 * n, sofar);
            (r.Some? <==> AllIntKeys(tokens, n)) && (r.Some? ==> ReadsLast(tokens, n, k, sofar, r.value))
    decreases |tokens| - 2 * n
  {
    if 2 * n + 1 < |tokens| {
      var key := IntKey(tokens, n);
      if key.Some? {
        var more := sofar[key.value := tokens[2 * n + 1]];
        LastPairWins(tokens, n + 1, more, k);
        if AllIntKeys(tokens, n + 1) {
          OneMorePair(tokens, n, k, sofar, more, RecordFrom(tokens, 2 * n, sofar).value);
        }
      }
    }
  }

  lemma OneMorePair(tokens: seq<string>, n: nat, k: int, sofar: ChannelRecord, more: ChannelRecord, r: ChannelRecord)
    requires 2 * n + 1 < |tokens| && IntKey(tokens, n).Some? && AllIntKeys(tokens, n + 1)
    requires more == sofar[IntKey(tokens, n).value := tokens[2 * n + 1]] && ReadsLast(tokens, n + 1, k, more, r)
    ensures AllIntKeys(tokens, n) && ReadsLast(tokens, n, k, sofar, r)
  {
    forall i: nat | n <= i && 2 * i + 1 < |tokens| ensures IntKey(tokens, i).Some? {
    }
    if LastPair(tokens, k, n) {
      assert !LaterPair(tokens, n + 1, k);
    }
    if !LaterPair(tokens, n, k) {
      assert !LaterPair(tokens, n + 1, k) && IntKey(tokens, n) != Some(k);
    }
  }

  /** A record parses if it pairs up and every key is an integer; of equal keys the last pair counts. */
  lemma LastKeyWins(record: string, k: int)
    ensures var tokens, r := Split(record, '_'), RecordOf(record);
            && (r.Some? <==> |tokens| % 2 == 0 && AllIntKeys(tokens, 0))
            && (r.Some? ==> ReadsLast(tokens, 0, k, map[], r.value))
  {
    LastPairWins(Split(record, '_'), 0, map[], k);
  }

  // ---------------------------------------------------------------- channel text

  /** The entries of a record in ascending key order. */
  ghost function EntriesOf(todo: set<int>, record: ChannelRecord): (kv: seq<Kv>)
    requires todo <= record.Keys
    ensures |kv| == |todo|
    decreases |todo|
  {
    if todo == {} then []
    else var k := LeastInt(todo); [Kv(IntText(k), record[k])] + EntriesOf(todo - {k}, record)
  }

  ghost function RecordText(record: ChannelRecord): string {
    KvText(EntriesOf(record.Keys, record), '_')
  }

  /** The record texts in ascending channel order. */
  ghost function RecordTexts(todo: set<int>, ch: ChannelMap): (texts: seq<string>)
    requires todo <= ch.Keys
    ensures |texts| == |todo|
    decreases |todo|
  {
    if todo == {} then []
    else var id := LeastInt(todo); [RecordText(ch[id])] + RecordTexts(todo - {id}, ch)
  }

  ghost function ChannelsText(ch: ChannelMap): string {
    Join(RecordTexts(ch.Keys, ch), '|')
  }

  /** The integers in ascending order. */
  ghost function Ints(todo: set<int>): (s: seq<int>)
    decreases |todo|
  {
    if todo == {} then [] else [LeastInt(todo)] + Ints(todo - {LeastInt(todo)})
  }

  lemma {:induction false} IntsAscend(todo: set<int>)
    ensures forall x :: x in Ints(todo) <==> x in todo
    ensures forall i, j :: 0 <= i < j < |Ints(todo)| ==> Ints(todo)[i] < Ints(todo)[j]
    decreases |todo|
  {
    if todo != {} {
      var least := LeastInt(todo);
      var rest, all := Ints(todo - {least}), Ints(todo);
      IntsAscend(todo - {least});
      assert all == [least] + rest;
      forall j | 1 <= j < |all| ensures least < all[j] {
        assert all[j] == rest[j - 1] && rest[j - 1] in rest;
        LeastIntFirst(todo, all[j]);
      }
      forall i, j | 0 <= i < j < |all| ensures all[i] < all[j] {
        assert i > 0 ==> all[i] == rest[i - 1] && all[j] == rest[j - 1];
      }
    }
  }

  lemma {:induction false} IntsCount(todo: set<int>)
    ensures |Ints(todo)| == |todo|
    decreases |todo|
  {
    if todo != {} {
      IntsCount(todo - {LeastInt(todo)});
    }
  }

  lemma {:induction false} EntryAt(todo: set<int>, record: ChannelRecord, i: nat)
    requires todo <= record.Keys && i < |Ints(todo)| == |EntriesOf(todo, record)|
    ensures var k := Ints(todo)[i]; k in record && EntriesOf(todo, record)[i] == Kv(IntText(k), record[k])
    decreases i
  {
    if i > 0 {
      IntsCount(todo - {LeastInt(todo)});
      EntryAt(todo - {LeastInt(todo)}, record, i - 1);
    }
  }

  lemma {:induction false} RecordAt(todo: set<int>, ch: ChannelMap, i: nat)
    requires todo <= ch.Keys && i < |Ints(todo)| == |RecordTexts(todo, ch)|
    ensures var id := Ints(todo)[i]; id in ch && RecordTexts(todo, ch)[i] == RecordText(ch[id])
    decreases i
  {
    if i > 0 {
      IntsCount(todo - {LeastInt(todo)});
      RecordAt(todo - {LeastInt(todo)}, ch, i - 1);
    }
  }

  /** Channels are printed by ascending number, and the fields of each by ascending key. */
  lemma ChannelsInOrder(ch: ChannelMap) returns (ids: seq<int>, texts: seq<string>)
    ensures ChannelsText(ch) == Join(texts, '|') && |texts| == |ids|
    ensures (forall id :: id in ids <==> id in ch) && forall i, j :: 0 <= i < j < |ids| ==> ids[i] < ids[j]
    ensures forall i :: 0 <= i < |ids| ==> PrintsRecord(ch[ids[i]], texts[i])
  {
    ids, texts := Ints(ch.Keys), RecordTexts(ch.Keys, ch);
    IntsAscend(ch.Keys);
    IntsCount(ch.Keys);
    forall i | 0 <= i < |ids| ensures PrintsRecord(ch[ids[i]], texts[i]) {
      RecordAt(ch.Keys, ch, i);
      RecordInOrder(ch[ids[i]]);
    }
  }

  ghost predicate PrintsRecord(record: ChannelRecord, text: string) {
    exists keys: seq<int>, kv: seq<Kv> ::
      && (forall k :: k in keys <==> k in record) && (forall i, j :: 0 <= i < j < |keys| ==> keys[i] < keys[j])
      && |kv| == |keys| && (forall i :: 0 <= i < |keys| ==> kv[i] == Kv(IntText(keys[i]), record[keys[i]]))
      && text == KvText(kv, '_')
  }

  lemma RecordInOrder(record: ChannelRecord)
    ensures PrintsRecord(record, RecordText(record))
  {
    IntsAscend(record.Keys);
    IntsCount(record.Keys);
    var keys, kv := Ints(record.Keys), EntriesOf(record.Keys, record);
    forall i | 0 <= i < |keys| ensures kv[i] == Kv(IntText(keys[i]), record[keys[i]]) {
      EntryAt(record.Keys, record, i);
    }
    assert |kv| == |keys| && RecordText(record) == KvText(kv, '_');
  }

  lemma NextEntry(record: ChannelRecord, all: seq<Kv>, i: nat, todo: set<int>)
    requires todo <= record.Keys && todo != {} && i <= |all| && EntriesOf(todo, record) == all[i..]
    ensures var k := LeastInt(todo);
            i < |all| && all[i] == Kv(IntText(k), record[k]) && EntriesOf(todo - {k}, record) == all[i + 1..]
  {
    assert all[i] == all[i..][0] && all[i + 1..] == all[i..][1..];
  }

  lemma NextRecord(ch: ChannelMap, all: seq<string>, i: nat, todo: set<int>)
    requires todo <= ch.Keys && todo != {} && i <= |all| && RecordTexts(todo, ch) == all[i..]
    ensures var id := LeastInt(todo);
            i < |all| && all[i] == RecordText(ch[id]) && RecordTexts(todo - {id}, ch) == all[i + 1..]
  {
    assert all[i] == all[i..][0] && all[i + 1..] == all[i..][1..];
  }

  method SerializeRecord(record: ChannelRecord) returns (out: string)
    ensures out == RecordText(record)
  {
    out := "";
    var todo := record.Keys;
    ghost var all := EntriesOf(record.Keys, record);
    ghost var i := 0;
    LengthIs(all);
    var firstKv := true;
    while todo != {}
      invariant todo <= record.Keys && 0 <= i <= |all| && EntriesOf(todo, record) == all[i..]
      invariant firstKv <==> i == 0
      invariant out + JoinFrom(Flatten(all), 2 * i, '_') == JoinFrom(Flatten(all), 0, '_')
      decreases todo
    {
      var k := TakeLeastInt(todo);
      NextEntry(record, all, i, todo);
      KvStep(all, i, '_', out);
      if !firstKv {
        out := out + "_";
      }
      firstKv := false;
      out := out + IntText(k);
      out := out + "_";
      out := out + record[k];
      todo := todo - {k};
      i := i + 1;
    }
    JoinFromAll(Flatten(all), '_');
  }

  method SerializeChannels(ch: ChannelMap) returns (out: string)
    ensures out == ChannelsText(ch)
  {
    out := "";
    var todo := ch.Keys;
    ghost var all := RecordTexts(ch.Keys, ch);
    ghost var i := 0;
    var firstRecord := true;
    while todo != {}
      invariant todo <= ch.Keys && 0 <= i <= |all| && RecordTexts(todo, ch) == all[i..]
      invariant firstRecord <==> i == 0
      invariant out + JoinFrom(all, i, '|') == JoinFrom(all, 0, '|')
      decreases todo
    {
      var id := TakeLeastInt(todo);
      NextRecord(ch, all, i, todo);
      JoinFromStep(all, i, '|', out);
      if !firstRecord {
        out := out + "|";
      }
      firstRecord := false;
      var text := SerializeRecord(ch[id]);
      out := out + text;
      todo := todo - {id};
      i := i + 1;
    }
    JoinFromAll(all, '|');
  }

  // ---------------------------------------------------------------- channel round trip

  /** A record as parsing leaves it: integer keys, delimiter-free values, and the channel id under key 6. */
  ghost predicate GoodRecord(id: int, record: ChannelRecord) {
    && (forall k :: k in record ==> IsInt(k) && '_' !in record[k] && '|' !in record[k])
    && ChannelIdOf(record) == Some(id)
  }

  ghost predicate GoodChannels(ch: ChannelMap) {
    forall id :: id in ch ==> GoodRecord(id, ch[id])
  }

  lemma {:induction false} EntriesFree(todo: set<int>, record: ChannelRecord, c: char)
    requires todo <= record.Keys && !IsDigit(c) && c != '-' && forall k :: k in record ==> c !in record[k]
    ensures KvFree(EntriesOf(todo, record), c)
    decreases |todo|
  {
    if todo != {} {
      var k := LeastInt(todo);
      IntTextFree(k, c);
      EntriesFree(todo - {k}, record, c);
    }
  }

  lemma PutBack<V>(m: map<int, V>, todo: set<int>, k: int)
    requires k in m && k in todo
    ensures (m - todo)[k := m[k]] == m - (todo - {k}) && k !in m - todo
  {
  }

  /** Reading one printed pair. */
  lemma OneEntry(all: seq<Kv>, i: nat, sofar: ChannelRecord, k: int, value: string)
    requires i < |all| && all[i] == Kv(IntText(k), value) && IsInt(k)
    ensures RecordFrom(Flatten(all), 2 * i, sofar) == RecordFrom(Flatten(all), 2 * (i + 1), sofar[k := value])
  {
    FlattenAt(all, i);
    ParseIntText(k);
    var j := 2 * i;
    assert 2 * (i + 1) == j + 2;
  }

  lemma {:induction false} RecordFromEntries(record: ChannelRecord, all: seq<Kv>, i: nat, todo: set<int>)
    requires todo <= record.Keys && i <= |all| && EntriesOf(todo, record) == all[i..]
    requires forall k :: k in record ==> IsInt(k)
    ensures RecordFrom(Flatten(all), 2 * i, record - todo) == Some(record)
    decreases |todo|
  {
    LengthIs(all);
    if todo == {} {
      assert record - todo == record;
    } else {
      var k := LeastInt(todo);
      NextEntry(record, all, i, todo);
      RecordFromEntries(record, all, i + 1, todo - {k});
      PutBack(record, todo, k);
      OneEntry(all, i, record - todo, k, record[k]);
    }
  }

  lemma RecordRoundTrip(record: ChannelRecord)
    requires record != map[] && forall k :: k in record ==> IsInt(k) && '_' !in record[k]
    ensures RecordOf(RecordText(record)) == Some(record) && RecordText(record) != ""
  {
    var all := EntriesOf(record.Keys, record);
    EntriesFree(record.Keys, record, '_');
    SplitKvText(all, '_');
    LengthIs(all);
    Parity(|all|);
    RecordFromEntries(record, all, 0, record.Keys);
    assert record - record.Keys == map[] && all[0..] == all;
    assert Split("", '_') == [""];
  }

  lemma GoodRecordText(id: int, record: ChannelRecord)
    requires GoodRecord(id, record)
    ensures RecordOf(RecordText(record)) == Some(record) && RecordText(record) != ""
    ensures RecordId(RecordText(record)) == Some(id)
    ensures '|' !in RecordText(record)
  {
    RecordRoundTrip(record);
    EntriesFree(record.Keys, record, '|');
    FlattenFree(EntriesOf(record.Keys, record), '|');
    JoinFree(Flatten(EntriesOf(record.Keys, record)), '_', '|');
  }

  lemma {:induction false} RecordTextsFree(todo: set<int>, ch: ChannelMap)
    requires GoodChannels(ch) && todo <= ch.Keys
    ensures Free(RecordTexts(todo, ch), '|')
    decreases |todo|
  {
    if todo != {} {
      var id := LeastInt(todo);
      GoodRecordText(id, ch[id]);
      RecordTextsFree(todo - {id}, ch);
    }
  }

  /** Reading one printed record. */
  lemma OneRecord(records: seq<string>, i: nat, sofar: ChannelMap, id: int, record: ChannelRecord)
    requires i < |records| && GoodRecord(id, record) && records[i] == RecordText(record) && id !in sofar
    ensures ChannelsFrom(records, i, sofar) == ChannelsFrom(records, i + 1, sofar[id := record])
  {
    GoodRecordText(id, record);
  }

  lemma {:induction false} ChannelsFromTexts(ch: ChannelMap, all: seq<string>, i: nat, todo: set<int>)
    requires GoodChannels(ch) && todo <= ch.Keys && i <= |all| && RecordTexts(todo, ch) == all[i..]
    ensures ChannelsFrom(all, i, ch - todo) == Some(ch)
    decreases |todo|
  {
    if todo == {} {
      assert ch - todo == ch;
    } else {
      var id := LeastInt(todo);
      NextRecord(ch, all, i, todo);
      PutBack(ch, todo, id);
      OneRecord(all, i, ch - todo, id, ch[id]);
      ChannelsFromTexts(ch, all, i + 1, todo - {id});
    }
  }

  /** Printing good channels and parsing them back is exact. */
  lemma ChannelsRoundTrip(ch: ChannelMap)
    requires GoodChannels(ch)
    ensures ChannelsOf(ChannelsText(ch)) == Some(ch)
  {
    var all := RecordTexts(ch.Keys, ch);
    assert all[0..] == all && ch - ch.Keys == map[];
    ChannelsFromTexts(ch, all, 0, ch.Keys);
    if ch == map[] {
      assert all == [];
    } else {
      var id := LeastInt(ch.Keys);
      GoodRecordText(id, ch[id]);
      assert all[0] != "";
      RecordTextsFree(ch.Keys, ch);
      SplitJoin(all, '|');
      assert Split("", '|') == [""];
    }
  }

  lemma {:induction false} RecordFromGood(tokens: seq<string>, i: nat, sofar: ChannelRecord, c: char)
    requires Free(tokens, c) && (forall k :: k in sofar ==> IsInt(k) && c !in sofar[k])
    ensures var r := RecordFrom(tokens, i, sofar); r.Some? ==> forall k :: k in r.value ==> IsInt(k) && c !in r.value[k]
    decreases |tokens| - i
  {
    if i + 1 < |tokens| && ParseInt(tokens[i]).Some? {
      RecordFromGood(tokens, i + 2, sofar[ParseInt(tokens[i]).value := tokens[i + 1]], c);
    }
  }

  lemma RecordOfGood(record: string, c: char)
    requires c !in record || c == '_'
    ensures var r := RecordOf(record); r.Some? ==> forall k :: k in r.value ==> IsInt(k) && c !in r.value[k]
  {
    if c == '_' {
      SplitFree(record, '_');
    } else {
      SplitWithin(record, '_', c);
    }
    RecordFromGood(Split(record, '_'), 0, map[], c);
  }

  lemma {:induction false} ChannelsFromGood(records: seq<string>, n: nat, sofar: ChannelMap)
    requires Free(records, '|') && GoodChannels(sofar)
    ensures var r := ChannelsFrom(records, n, sofar); r.Some? ==> GoodChannels(r.value)
    decreases |records| - n
  {
    if n < |records| {
      if records[n] == "" {
        ChannelsFromGood(records, n + 1, sofar);
      } else {
        var id := RecordId(records[n]);
        if id.Some? && id.value !in sofar {
          RecordOfGood(records[n], '_');
          RecordOfGood(records[n], '|');
          ChannelsFromGood(records, n + 1, sofar[id.value := RecordOf(records[n]).value]);
        }
      }
    }
  }

  lemma ParsedChannelsGood(value: string)
    requires ChannelsOf(value).Some?
    ensures GoodChannels(ChannelsOf(value).value)
  {
    SplitFree(value, '|');
    ChannelsFromGood(Split(value, '|'), 0, map[]);
  }

  /** Every accepted channel text has the same channels as its printed form. */
  lemma ChannelTextStable(value: string)
    requires ChannelsOf(value).Some?
    ensures ChannelsOf(ChannelsText(ChannelsOf(value).value)) == ChannelsOf(value)
  {
    ParsedChannelsGood(value);
    ChannelsRoundTrip(ChannelsOf(value).value);
  }
}
