/** What whole operations of the service achieve, from the text captured to the state replayed. */
module EndToEnd {
  import opened Prelude
  import opened LevelModel
  import opened Differ
  import opened DifferLaws
  import opened Tables
  import opened History
  import opened ServiceModel
  import opened ServiceSteps
  import opened LevelParser
  import Identity
  import Matcher
  import Recapture
  import T = HeaderText
  import G = GitService

  /** The i-th parsed object is the replayed object with the i-th id, up to empty fields. */
  ghost predicate ObjectKept(parsed: LevelState, replayed: LevelState, u: Uuid, v: Uuid) {
    u in parsed.objects && v in replayed.objects && SameFields(replayed.objects[v].fields, parsed.objects[u].fields)
  }

  /**
   * Same raw header, same header map, and a one-to-one pairing of all objects with the same fields, all up to empty
   * values: nothing of the parsed level is lost, altered or duplicated.
   */
  ghost predicate Lossless(parsed: LevelState, replayed: LevelState, order: seq<Uuid>, picks: seq<Matcher.Pick>) {
    && replayed.rawHeader == parsed.rawHeader && SameFields(replayed.header, parsed.header)
    && |order| == |picks| && Distinct(order) && Matcher.PicksDistinct(picks)
    && Elements(order) == parsed.objects.Keys && Matcher.Claimed(picks) == replayed.objects.Keys
    && forall i :: 0 <= i < |order| ==> ObjectKept(parsed, replayed, order[i], picks[i].uuid)
  }

  lemma SameStateKeepsLossless(parsed: LevelState, incoming: LevelState, replayed: LevelState, order: seq<Uuid>,
                               picks: seq<Matcher.Pick>)
    requires incoming.rawHeader == parsed.rawHeader && incoming.header == parsed.header
    requires Matcher.Relabelled(parsed.objects, order, picks, incoming.objects) && SameState(replayed, incoming)
    ensures Lossless(parsed, replayed, order, picks)
  {
    SameStateIff(replayed, incoming);
    forall i | 0 <= i < |order| ensures ObjectKept(parsed, replayed, order[i], picks[i].uuid) {
      assert Matcher.MovedTo(parsed.objects, order[i], incoming.objects, picks[i].uuid);
    }
  }

  /** Committing a level string: the new HEAD replays to the parsed level, object for object. */
  lemma CommitLossless(coord: Matcher.Coord, w: World, key: LevelKey, message: string, now: int, c: G.Capture,
                       r: Result<Id>, w2: World)
    requires Inv(w) && w.h.intact && G.Captures(coord, c)
    requires CommitStep(w, key, message, now, c.base, c.incoming, c.delta, r, w2)
    ensures Inv(w2) && r.Ok? && r.value in w2.h.db.rows && key in w2.h.db.heads && w2.h.db.heads[key] == r.value
    ensures Lossless(c.parsed, Replay(w2.h.db.rows, w2.h.rank, r.value), c.order, c.picks)
  {
    CommitKeeps(w, key, message, now, c.base, c.incoming, c.delta, r, w2);
    SameStateKeepsLossless(c.parsed, c.incoming, Replay(w2.h.db.rows, w2.h.rank, r.value), c.order, c.picks);
  }

  // ---------------------------------------------------------------- committing the same text twice

  /** The ids given out. */
  function IdsOf(picks: seq<Matcher.Pick>): seq<Uuid> {
    seq(|picks|, i requires 0 <= i < |picks| => picks[i].uuid)
  }

  lemma IdsAreClaimed(picks: seq<Matcher.Pick>)
    requires Matcher.PicksDistinct(picks)
    ensures Distinct(IdsOf(picks)) && Elements(IdsOf(picks)) == Matcher.Claimed(picks)
  {
    var ids := IdsOf(picks);
    forall u: Uuid ensures u in Elements(ids) <==> u in Matcher.Claimed(picks) {
      if u in Matcher.Claimed(picks) {
        var i := Matcher.ClaimedBy(picks, u);
        assert ids[i] == u;
      }
      if u in Elements(ids) {
        var i :| 0 <= i < |ids| && ids[i] == u;
        Matcher.ClaimedHas(picks, i);
      }
    }
  }

  lemma PickedAt(parsed: ObjectMap, order: seq<Uuid>, picks: seq<Matcher.Pick>, incoming: ObjectMap, i: nat)
    requires Matcher.Relabelled(parsed, order, picks, incoming) && i < |order|
    ensures Matcher.SameAt(incoming, IdsOf(picks)[i], parsed, order[i])
  {
    assert Matcher.MovedTo(parsed, order[i], incoming, picks[i].uuid);
  }

  /** A capture holds the parsed field maps one for one under the ids given out. */
  lemma CapturePairsUp(parsed: ObjectMap, order: seq<Uuid>, picks: seq<Matcher.Pick>, incoming: ObjectMap)
    requires Matcher.Relabelled(parsed, order, picks, incoming)
    ensures Matcher.PairsUp(incoming, IdsOf(picks), parsed, order)
  {
    IdsAreClaimed(picks);
    forall i | 0 <= i < |order| ensures Matcher.SameAt(incoming, IdsOf(picks)[i], parsed, order[i]) {
      PickedAt(parsed, order, picks, incoming, i);
    }
  }

  /** An insert caches the state under the new id, whatever the cache held before. */
  lemma InsertedIsCached(w: World, row: Row, s: LevelState)
    requires InsertThen(w, row, Some(s)).r.Ok?
    ensures var w2 := InsertThen(w, row, Some(s)).w;
            w.h.db.nextId in w2.cache && w2.cache[w.h.db.nextId] == s
  {
  }

  /** After a commit, the next fetch of HEAD gives exactly the captured state. */
  lemma HeadIsCaptured(w: World, key: LevelKey, message: string, now: int, base: LevelState, incoming: LevelState,
                       delta: Delta, r: Result<Id>, w1: World)
    requires Inv(w) && CommitStep(w, key, message, now, base, incoming, delta, r, w1)
    ensures Inv(w1) && key in w1.h.db.heads && Fetch(w1, w1.h.db.heads[key]).state == Some(incoming)
  {
    CommitKeeps(w, key, message, now, base, incoming, delta, r, w1);
    if key in w.h.db.heads {
      FetchOk(w, w.h.db.heads[key]);
      var f := Fetch(w, w.h.db.heads[key]);
      InsertedIsCached(f.w, Row(key, Some(w.h.db.heads[key]), None, message, now, delta), incoming);
    } else {
      InsertedIsCached(w, Row(key, None, None, message, now, delta), incoming);
    }
    assert r.value in w1.cache && w1.cache[r.value] == incoming;
  }

  /**
   * Committing a text a second time: the second delta starts from exactly what the first commit
   * captured, and is empty if and only if, of every fingerprint, the first capture gave out its ids in text order.
   */
  lemma SecondCommitEmptyIff(coord: Matcher.Coord, w: World, key: LevelKey, message: string, now: int, c: G.Capture,
                             r: Result<Id>, w1: World, message2: string, now2: int, c2: G.Capture, r2: Result<Id>,
                             w2: World)
    requires Inv(w) && G.Captures(coord, c) && 0 !in c.incoming.objects
    requires CommitStep(w, key, message, now, c.base, c.incoming, c.delta, r, w1)
    requires Inv(w1) && G.Captures(coord, c2)
    requires CommitStep(w1, key, message2, now2, c2.base, c2.incoming, c2.delta, r2, w2)
    requires c2.parsed == c.parsed
    ensures c2.base == c.incoming && c2.incoming.objects.Keys == c.incoming.objects.Keys
    ensures c2.delta == Recapture.NOTHING <==>
            Matcher.SameClassOrder(coord, c.incoming.objects, c.parsed.objects, Recapture.TextOrder(c.parsed))
  {
    CapturePairsUp(c.parsed.objects, c.order, c.picks, c.incoming.objects);
    HeadIsCaptured(w, key, message, now, c.base, c.incoming, c.delta, r, w1);
    Recapture.RecommitEmptyIff(coord, c.parsed, c.incoming, IdsOf(c.picks), c.order, c2.incoming, c2.order, c2.picks,
                               c2.stats, c2.delta);
  }

  // ---------------------------------------------------------------- committing after deleting objects

  /**
   * A commit of HEAD's objects less some of them, where no two objects of HEAD look the same within 1 of each other:
   * the commit stored is the removal of exactly these, and all others keep their ids.
   */
  lemma DeletionCommit(coord: Matcher.Coord, w: World, key: LevelKey, message: string, now: int, c: G.Capture,
                       r: Result<Id>, w2: World, from: map<Uuid, Uuid>)
    requires Inv(w) && G.Captures(coord, c) && CommitStep(w, key, message, now, c.base, c.incoming, c.delta, r, w2)
    requires 0 !in c.base.objects && Identity.Separate(coord, c.base.objects)
    requires Identity.OnlyDrops(c.base.objects, c.parsed.objects, from)
    requires c.parsed.header == c.base.header && c.parsed.rawHeader == c.base.rawHeader
    ensures r.Ok? && r.value in w2.h.db.rows
    ensures Identity.OnlyRemoves(c.base.objects, w2.h.db.rows[r.value].delta, from)
    ensures c.incoming.objects.Keys == from.Values
  {
    Identity.DropsAreRemoves(coord, c.base, c.parsed, c.incoming, c.order, c.picks, c.stats, c.delta, from);
    CommitKeeps(w, key, message, now, c.base, c.incoming, c.delta, r, w2);
    if key in w.h.db.heads {
      FetchOk(w, w.h.db.heads[key]);
    }
  }

  // ---------------------------------------------------------------- undoing the newest commit

  lemma UndoOfHead(s: RevertStates, r: RevertPayload)
    requires Undoes(s, r) && SameState(s.head, s.target)
    ensures SameState(r.state, s.parent) && r.conflicts == []
  {
    var undo :| IsDiff(s.target, s.parent, undo) && r == RevertPayload(Apply(s.head, undo), Conflicts(s.head, undo));
    DiffApply(s.target, s.parent, undo);
    ApplyCongruent(s.head, s.target, undo);
  }

  /**
   * Reverting the commit HEAD is at gives back its parent's state and reports no conflict. The commit of a checkout or
   * a revert has the HEAD of its time as parent, so reverting it restores that HEAD even if the revert met conflicts.
   */
  lemma RevertHeadRestores(w: World, key: LevelKey, r: Result<RevertPayload>, tok: Option<Token>, w2: World)
    requires Inv(w) && w.h.intact && key in w.h.db.heads && CanRevert(w.h.db, key, w.h.db.heads[key])
    requires PrepareRevertStep(w, key, w.h.db.heads[key], r, tok, w2)
    ensures w.h.db.rows[w.h.db.heads[key]].parent.value in w.h.db.rows
    ensures r.Ok? && r.value.conflicts == []
    ensures SameState(r.value.state, Replay(w.h.db.rows, w.h.rank, w.h.db.rows[w.h.db.heads[key]].parent.value))
  {
    var head: Id := w.h.db.heads[key];
    var parent: Id := w.h.db.rows[head].parent.value;
    RevertRefs(w, key, head);
    UndoOfHead(RevertFetch(w, parent, head, head), r.value);
  }

  /** All the header maps involved print to their own texts. */
  ghost predicate AllPrint(s: RevertStates, h: Ranked, parent: Id, target: Id, head: Id)
    requires Sound(h) && parent in h.db.rows && target in h.db.rows && head in h.db.rows
  {
    && Clean(s.parent.header) && Clean(s.head.header) && T.Printable(s.target)
    && T.Printable(Replay(h.db.rows, h.rank, parent)) && T.Printable(Replay(h.db.rows, h.rank, target))
    && T.Printable(Replay(h.db.rows, h.rank, head))
  }

  /**
   * After a revert is finalized, with any jobs in between that left its base in place, the new HEAD's replay prints
   * "parent's value where target changed it, HEAD's value elsewhere" of the replays the revert started from, if and
   * only if on the states read no later edit is lost, the undo is not unseen and no map has drifted.
   */
  lemma RevertShownOnHead(w: World, key: LevelKey, target: Id, r: Result<RevertPayload>, tok: Option<Token>, w1: World,
                          w2: World, now: int, done: Result<Id>, w3: World, k: string)
    requires Inv(w) && PrepareRevertStep(w, key, target, r, tok, w1) && tok.Some?
    requires Keeps(w1, w2) && FinalizeHeadStep(w2, tok.value.p, tok.value.applied, now, done, w3) && done.Ok?
    requires w2.h.intact
    ensures CanRevert(w.h.db, key, target) && w.h.db.rows[target].parent.value in w.h.db.rows
    ensures w.h.db.heads[key] in w.h.db.rows && Inv(w3) && done.value in w3.h.db.rows
    ensures var parent, head := w.h.db.rows[target].parent.value, w.h.db.heads[key];
            var s := RevertFetch(w, parent, target, head);
            var after := Replay(w3.h.db.rows, w3.h.rank, done.value);
            AllPrint(s, w.h, parent, target, head) && T.Printable(after) ==>
              (T.UndoneShown(Replay(w.h.db.rows, w.h.rank, target), Replay(w.h.db.rows, w.h.rank, parent),
                             Replay(w.h.db.rows, w.h.rank, head), after, k) <==>
               && !T.LaterEditLost(s.target, s.parent, s.head, k) && !T.UndoUnseen(s.target, s.parent, s.head, k)
               && !T.MapDrifted(s.target, s.parent, s.head, k))
  {
    var parent: Id, head: Id := w.h.db.rows[target].parent.value, w.h.db.heads[key];
    RevertRefs(w, key, target);
    PrepareRevertKeeps(w, key, target, r, tok, w1);
    PromiseStable(w1.h, w2.h, tok.value);
    FinalizeHeadKeeps(w2, tok.value.p, tok.value.applied, now, done, w3);
    var s := RevertFetch(w, parent, target, head);
    var after := Replay(w3.h.db.rows, w3.h.rank, done.value);
    if AllPrint(s, w.h, parent, target, head) && T.Printable(after) {
      UndoneAcross(s, r.value, Replay(w.h.db.rows, w.h.rank, target), Replay(w.h.db.rows, w.h.rank, parent),
                   Replay(w.h.db.rows, w.h.rank, head), after, k);
    }
  }

  lemma UndoneAcross(s: RevertStates, r: RevertPayload, target: LevelState, parent: LevelState, head: LevelState,
                     after: LevelState, k: string)
    requires Undoes(s, r) && SameState(s.target, target) && SameState(s.parent, parent) && SameState(s.head, head)
    requires SameState(after, r.state) && Clean(s.parent.header) && Clean(s.head.header) && T.Printable(s.target)
    requires T.Printable(target) && T.Printable(parent) && T.Printable(head) && T.Printable(after)
    ensures T.UndoneShown(target, parent, head, after, k) <==>
            && !T.LaterEditLost(s.target, s.parent, s.head, k) && !T.UndoUnseen(s.target, s.parent, s.head, k)
            && !T.MapDrifted(s.target, s.parent, s.head, k)
  {
    var undo :| IsDiff(s.target, s.parent, undo) && r == RevertPayload(Apply(s.head, undo), Conflicts(s.head, undo));
    T.RevertShownAcross(s.target, s.parent, s.head, undo, k, target, parent, head, after);
  }

  /** After a finalized checkout or revert, reverting once more restores the state HEAD had before. */
  lemma RevertOfRevert(w: World, p: PendingHeadUpdate, applied: LevelState, now: int, done: Result<Id>, w1: World,
                       r: Result<RevertPayload>, tok: Option<Token>, w2: World)
    requires Inv(w) && Promise(w.h, HeadToken(p, applied)) && FinalizeHeadStep(w, p, applied, now, done, w1) && done.Ok?
    requires w.h.intact && Inv(w1) && PrepareRevertStep(w1, p.levelKey, done.value, r, tok, w2)
    ensures p.parent.value in w.h.db.rows && r.Ok? && r.value.conflicts == []
    ensures SameState(r.value.state, Replay(w.h.db.rows, w.h.rank, p.parent.value))
  {
    FinalizeHeadKeeps(w, p, applied, now, done, w1);
    var before: Id := p.parent.value;
    InsertedRow(w, p, applied, now, done, w1);
    RevertHeadRestores(w1, p.levelKey, r, tok, w2);
    EvolvedState(w.h, w1.h, before);
  }

  lemma InsertedRow(w: World, p: PendingHeadUpdate, applied: LevelState, now: int, done: Result<Id>, w1: World)
    requires Inv(w) && Promise(w.h, HeadToken(p, applied)) && FinalizeHeadStep(w, p, applied, now, done, w1) && done.Ok?
    ensures p.levelKey in w1.h.db.heads && w1.h.db.heads[p.levelKey] == done.value && done.value in w1.h.db.rows
    ensures w1.h.db.rows[done.value].parent == p.parent && w1.h.db.rows[done.value].level == p.levelKey
  {
  }
}
