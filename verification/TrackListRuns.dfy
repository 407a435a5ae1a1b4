/** Whole runs of the track list: the invariant in every reachable state, and
    the agreement of the URI cache with a plain list of (id, URI) entries. */
module TrackListRuns {
  import opened Sequences
  import opened TrackListModel

  datatype Op =
    | OpAdd(uri: Uri, before: Id, makeCurrent: bool, rand: nat)
    | OpAddBatch(uris: seq<Uri>, before: Id, rands: seq<nat>)
    | OpMove(id: Id, to: Id)
    | OpRemove(id: Id)
    | OpGoTo(id: Id)
    | OpCurrent
    | OpNext
    | OpPrevious
    | OpSetShuffle(on: bool, picks: seq<nat>)
    | OpSetLoop(loop: LoopStatus)
    | OpSetPosition(position: nat)
    | OpReset

  /** Random choices come in the right number, a move and a look at the current track
      (OpCurrent, which the player takes on its own) have a track to look at, and a
      go-to names a listed track. Everything else may happen at any time. */
  ghost predicate Enabled(s: State, op: Op) {
    match op
    case OpAddBatch(uris, _, rands) => |rands| == |uris|
    case OpMove(id, to) => MoveDefined(s, id, to)
    case OpGoTo(id) => id in s.tracks
    case OpCurrent => s.tracks != []
    case OpSetShuffle(on, picks) => on ==> |picks| == |s.tracks|
    case _ => true
  }

  lemma StepDefined(s: State)
    requires Inv(s)
    ensures Walkable(s)
    ensures s.shuffle ==> forall id :: id in s.tracks ==> id in s.shuffled
  {
    OrderFacts(s);
    if s.shuffle { PermutesMembers(s.shuffled, s.tracks); }
  }

  ghost function Step(s: State, op: Op): Outcome
    requires Inv(s) && Enabled(s, op)
  {
    StepDefined(s);
    match op
    case OpAdd(uri, before, makeCurrent, rand) => Add(s, uri, before, makeCurrent, rand)
    case OpAddBatch(uris, before, rands) => AddBatch(s, uris, before, rands)
    case OpMove(id, to) => Move(s, id, to)
    case OpRemove(id) => Remove(s, id)
    case OpGoTo(id) => GoTo(s, id)
    case OpCurrent => Outcome(s.(cursor := At(CurrentIndex(s))), [])
    case OpNext => Next(s)
    case OpPrevious => Previous(s)
    case OpSetShuffle(on, picks) => Outcome(SetShuffle(s, on, picks), [])
    case OpSetLoop(loop) => Outcome(s.(loop := loop), [])
    case OpSetPosition(position) => Outcome(s.(position := position), [])
    case OpReset => Reset(s)
  }

  lemma MoveIdsPermutes(ids: seq<Id>, id: Id, to: Id)
    requires id in ids && to in ids
    ensures Permutes(MoveIds(ids, id, to), ids)
  {
    EraseCounts(ids, id);
    InsertCounts(Erase(ids, id), IndexOf(ids, to), id);
    assert id in multiset(ids);
  }

  lemma MoveKeepsInv(s: State, id: Id, to: Id)
    requires Inv(s) && MoveDefined(s, id, to)
    ensures Inv(Move(s, id, to).state)
  {
    if MoveResultOf(s, id, to) == Moved {
      MoveIdsPermutes(s.tracks, id, to);
      PermutesDistinct(MoveIds(s.tracks, id, to), s.tracks);
      PermutesMembers(MoveIds(s.tracks, id, to), s.tracks);
    }
  }

  lemma RemoveKeepsInv(s: State, id: Id)
    requires Inv(s) && (s.shuffle && id in s.tracks ==> id in s.shuffled)
    ensures Inv(Remove(s, id).state)
  {
    if id in s.tracks {
      EraseKeepsDistinct(s.tracks, id);
      EraseCounts(s.tracks, id);
      if s.shuffle { EraseCounts(s.shuffled, id); }
    }
  }

  /** Moving the cursor to a listed track keeps the invariant. */
  lemma CursorKeepsInv(s: State, t: State)
    requires Inv(s) && t == s.(cursor := t.cursor)
    requires t.cursor.At? ==> t.cursor.index < |s.tracks|
    ensures Inv(t)
  {
  }

  lemma WalkKeepsInv(s: State, place: Place)
    requires Inv(s) && s.tracks != []
    requires place.At? ==> place.index < |Order(s)|
    ensures Inv(Walk(s, place).state)
  {
    OrderFacts(s);
    if place.At? { assert Order(s)[place.index] in s.tracks; }
    CursorKeepsInv(s, Walk(s, place).state);
  }

  lemma NextKeepsInv(s: State)
    requires Inv(s) && Walkable(s)
    ensures Inv(Next(s).state) && Inv(Previous(s).state)
  {
    if s.tracks != [] {
      WalkKeepsInv(s, NextPlace(s));
      WalkKeepsInv(s, PreviousPlace(s));
    }
  }

  lemma StepKeepsInv(s: State, op: Op)
    requires Inv(s) && Enabled(s, op)
    ensures Inv(Step(s, op).state) && Step(s, op).state.path == s.path
  {
    StepDefined(s);
    match op
    case OpAdd(uri, before, makeCurrent, rand) =>
      AddOneKeepsInv(s, uri, before, rand);
      CursorKeepsInv(AddOne(s, uri, before, rand), Add(s, uri, before, makeCurrent, rand).state);
    case OpMove(id, to) => MoveKeepsInv(s, id, to);
    case OpRemove(id) => RemoveKeepsInv(s, id);
    case OpCurrent => CursorKeepsInv(s, Step(s, op).state);
    case OpNext => NextKeepsInv(s);
    case OpPrevious => NextKeepsInv(s);
    case OpGoTo(id) => CursorKeepsInv(s, GoTo(s, id).state);
    case _ =>
  }

  /** Going to an id keeps the invariant exactly when the id is listed: any other
      id leaves the cursor on the end of the list. */
  lemma GoToKeepsInvIff(s: State, id: Id)
    requires Inv(s)
    ensures Inv(GoTo(s, id).state) <==> id in s.tracks
  {
    if id in s.tracks { StepKeepsInv(s, OpGoTo(id)); }
  }

  ghost predicate Legal(s: State, ops: seq<Op>)
    requires Inv(s)
    decreases |ops|
  {
    ops == [] || (Enabled(s, ops[0]) && (StepKeepsInv(s, ops[0]); Legal(Step(s, ops[0]).state, ops[1..])))
  }

  ghost function Run(s: State, ops: seq<Op>): State
    requires Inv(s) && Legal(s, ops)
    decreases |ops|
  {
    if ops == [] then s
    else
      StepKeepsInv(s, ops[0]);
      Run(Step(s, ops[0]).state, ops[1..])
  }

  /** Every reachable state satisfies the invariant, whatever the random choices. */
  lemma {:induction false} RunKeepsInv(s: State, ops: seq<Op>)
    requires Inv(s) && Legal(s, ops)
    ensures Inv(Run(s, ops)) && Run(s, ops).path == s.path
    decreases |ops|
  {
    if ops != [] {
      StepKeepsInv(s, ops[0]);
      RunKeepsInv(Step(s, ops[0]).state, ops[1..]);
    }
  }

  lemma NoOps(s: State)
    requires Inv(s)
    ensures Legal(s, []) && Run(s, []) == s
  {
  }

  lemma {:induction false} RunGrows(s: State, ops: seq<Op>, op: Op)
    requires Inv(s) && Legal(s, ops)
    ensures Inv(Run(s, ops))
    ensures Enabled(Run(s, ops), op) ==>
            && Legal(s, ops + [op])
            && Run(s, ops + [op]) == Step(Run(s, ops), op).state && Inv(Run(s, ops + [op]))
    decreases |ops|
  {
    hide Inv, Step, Enabled;
    if ops == [] {
      assert ops + [op] == [op] && [op][1..] == [];
      if Enabled(s, op) {
        StepKeepsInv(s, op);
        NoOps(Step(s, op).state);
      }
    } else {
      StepKeepsInv(s, ops[0]);
      assert (ops + [op])[1..] == ops[1..] + [op];
      RunGrows(Step(s, ops[0]).state, ops[1..], op);
    }
  }

  /** The same spelled out for a new track list: ids are distinct, each was made
      from a counter value below the present one, the cursor is unset or on a
      track, and the shuffle order holds the same tracks as the list. */
  lemma ReachableStates(path: Id, ops: seq<Op>)
    requires Legal(Init(path), ops)
    ensures var s := Run(Init(path), ops);
            && (forall i, j :: 0 <= i < j < |s.tracks| ==> s.tracks[i] != s.tracks[j])
            && (forall i :: 0 <= i < |s.tracks| ==> exists c: nat :: c < s.counter && s.tracks[i] == TrackId(path, c))
            && (s.cursor.Nowhere? || s.cursor.index < |s.tracks|)
            && (s.shuffle ==> multiset(s.shuffled) == multiset(s.tracks))
  {
    RunKeepsInv(Init(path), ops);
    var s := Run(Init(path), ops);
    forall i, j | 0 <= i < j < |s.tracks| ensures s.tracks[i] != s.tracks[j] {
      DistinctAt(s.tracks, i, j);
    }
    forall i | 0 <= i < |s.tracks|
      ensures exists c: nat :: c < s.counter && s.tracks[i] == TrackId(path, c)
    {
      assert s.tracks[i] in s.tracks;
    }
  }

  // --- The plain list of entries ---

  /** What a listener of adds, moves, removals and resets would write down: each
      occurrence with the URI it was added with. No cache. */
  datatype Plain = Plain(entries: seq<(Id, Uri)>, counter: nat)

  function Ids(entries: seq<(Id, Uri)>): (ids: seq<Id>)
    ensures |ids| == |entries| && forall i :: 0 <= i < |ids| ==> ids[i] == entries[i].0
  {
    seq(|entries|, i requires 0 <= i < |entries| => entries[i].0)
  }

  function PlainAdd(path: Id, p: Plain, uri: Uri, before: Id): Plain {
    Plain(InsertAt(p.entries, IndexOf(Ids(p.entries), before), (TrackId(path, p.counter), uri)), p.counter + 1)
  }

  function PlainAddEach(path: Id, p: Plain, uris: seq<Uri>, before: Id): Plain
    decreases |uris|
  {
    if uris == [] then p
    else PlainAdd(path, PlainAddEach(path, p, uris[..|uris| - 1], before), uris[|uris| - 1], before)
  }

  function PlainMove(p: Plain, id: Id, to: Id): Plain {
    var ids := Ids(p.entries);
    if id in ids && to in ids && id != to && id != NO_ID && to != NO_ID then
      var i, k := IndexOf(ids, id), IndexOf(ids, to);
      p.(entries := InsertAt(EraseAt(p.entries, i), k, p.entries[i]))
    else p
  }

  function PlainStep(path: Id, p: Plain, op: Op): Plain {
    match op
    case OpAdd(uri, before, _, _) => PlainAdd(path, p, uri, before)
    case OpAddBatch(uris, before, _) => PlainAddEach(path, p, uris, before)
    case OpMove(id, to) => PlainMove(p, id, to)
    case OpRemove(id) =>
      var k := IndexOf(Ids(p.entries), id);
      if k < |p.entries| then p.(entries := EraseAt(p.entries, k)) else p
    case OpReset => Plain([], 0)
    case _ => p
  }

  function PlainRun(path: Id, p: Plain, ops: seq<Op>): Plain
    decreases |ops|
  {
    if ops == [] then p else PlainRun(path, PlainStep(path, p, ops[0]), ops[1..])
  }

  function Entry(cache: map<Id, Uri>, id: Id): (Id, Uri) {
    (id, if id in cache then cache[id] else NO_URI)
  }

  function Pairs(tracks: seq<Id>, cache: map<Id, Uri>): (entries: seq<(Id, Uri)>)
    ensures |entries| == |tracks|
    ensures forall i :: 0 <= i < |entries| ==> entries[i] == Entry(cache, tracks[i])
  {
    seq(|tracks|, i requires 0 <= i < |tracks| => Entry(cache, tracks[i]))
  }

  function Entries(s: State): (entries: seq<(Id, Uri)>) {
    Pairs(s.tracks, s.cache)
  }

  lemma PairsInsert(tracks: seq<Id>, cache: map<Id, Uri>, k: nat, id: Id)
    requires k <= |tracks|
    ensures Pairs(InsertAt(tracks, k, id), cache) == InsertAt(Pairs(tracks, cache), k, Entry(cache, id))
  {
  }

  lemma PairsErase(tracks: seq<Id>, cache: map<Id, Uri>, k: nat)
    requires k < |tracks|
    ensures Pairs(EraseAt(tracks, k), cache) == EraseAt(Pairs(tracks, cache), k)
  {
  }

  lemma PairsAgree(tracks: seq<Id>, c: map<Id, Uri>, d: map<Id, Uri>)
    requires forall id :: id in tracks ==> Entry(c, id) == Entry(d, id)
    ensures Pairs(tracks, c) == Pairs(tracks, d)
  {
    forall i | 0 <= i < |tracks| ensures Pairs(tracks, c)[i] == Pairs(tracks, d)[i] {
      assert tracks[i] in tracks;
    }
  }

  function Abstraction(s: State): Plain {
    Plain(Entries(s), s.counter)
  }

  lemma IdsOfEntries(s: State)
    ensures Ids(Entries(s)) == s.tracks
  {
  }

  lemma AddRefines(s: State, uri: Uri, before: Id, rand: nat)
    requires Inv(s)
    ensures Abstraction(AddOne(s, uri, before, rand)) == PlainAdd(s.path, Abstraction(s), uri, before)
  {
    IdsOfEntries(s);
    AddOneKeepsInv(s, uri, before, rand);
    var id := TrackId(s.path, s.counter);
    PairsAgree(s.tracks, s.cache, s.cache[id := uri]);
    PairsInsert(s.tracks, s.cache[id := uri], IndexOf(s.tracks, before), id);
  }

  lemma {:induction false} AddEachRefines(s: State, uris: seq<Uri>, before: Id, rands: seq<nat>)
    requires Inv(s) && |rands| == |uris|
    ensures Abstraction(AddEach(s, uris, before, rands)) == PlainAddEach(s.path, Abstraction(s), uris, before)
    decreases |uris|
  {
    if uris != [] {
      var n := |uris| - 1;
      AddEachRefines(s, uris[..n], before, rands[..n]);
      AddRefines(AddEach(s, uris[..n], before, rands[..n]), uris[n], before, rands[n]);
    }
  }

  lemma MoveRefines(s: State, id: Id, to: Id)
    requires Inv(s) && MoveDefined(s, id, to)
    ensures Abstraction(Move(s, id, to).state) == PlainMove(Abstraction(s), id, to)
  {
    IdsOfEntries(s);
    var i, k := IndexOf(s.tracks, id), IndexOf(s.tracks, to);
    if MoveResultOf(s, id, to) == Moved {
      PairsErase(s.tracks, s.cache, i);
      PairsInsert(EraseAt(s.tracks, i), s.cache, k, id);
    } else if id in s.tracks && to in s.tracks && id != to && id != NO_ID && to != NO_ID {
      assert false;
    }
  }

  lemma RemoveRefines(s: State, id: Id)
    requires Inv(s) && (s.shuffle && id in s.tracks ==> id in s.shuffled)
    ensures Abstraction(Remove(s, id).state) == PlainStep(s.path, Abstraction(s), OpRemove(id))
  {
    IdsOfEntries(s);
    if id in s.tracks {
      EraseKeepsDistinct(s.tracks, id);
      PairsErase(s.tracks, s.cache, IndexOf(s.tracks, id));
      PairsAgree(Erase(s.tracks, id), s.cache, s.cache - {id});
    }
  }

  lemma WalkRefines(s: State)
    requires Walkable(s)
    ensures Abstraction(Next(s).state) == Abstraction(Previous(s).state) == Abstraction(s)
  {
  }

  /** Every operation of the program does to list and cache what it does to the
      plain entries. */
  lemma StepRefines(s: State, op: Op)
    requires Inv(s) && Enabled(s, op)
    ensures Abstraction(Step(s, op).state) == PlainStep(s.path, Abstraction(s), op)
  {
    StepDefined(s);
    match op
    case OpAdd(uri, before, makeCurrent, rand) => AddRefines(s, uri, before, rand);
    case OpAddBatch(uris, before, rands) => AddEachRefines(s, uris, before, rands);
    case OpMove(id, to) => MoveRefines(s, id, to);
    case OpRemove(id) => RemoveRefines(s, id);
    case OpNext => WalkRefines(s);
    case OpPrevious => WalkRefines(s);
    case _ =>
  }

  lemma {:induction false} RunRefines(s: State, ops: seq<Op>)
    requires Inv(s) && Legal(s, ops)
    ensures Abstraction(Run(s, ops)) == PlainRun(s.path, Abstraction(s), ops)
    decreases |ops|
  {
    if ops != [] {
      StepKeepsInv(s, ops[0]);
      StepRefines(s, ops[0]);
      RunRefines(Step(s, ops[0]).state, ops[1..]);
    }
  }

  /** For every listed id the URI query answers with the URI of the add that made
      that occurrence, although a reset keeps stale cache entries and makes the
      same ids again. */
  lemma UriOfEveryTrack(path: Id, ops: seq<Op>, i: nat)
    requires Legal(Init(path), ops)
    requires i < |Run(Init(path), ops).tracks|
    ensures var s := Run(Init(path), ops);
            var plain := PlainRun(path, Plain([], 0), ops);
            && |plain.entries| == |s.tracks|
            && plain.entries[i].0 == s.tracks[i]
            && plain.entries[i].1 == QueryUri(s, s.tracks[i])
  {
    assert Abstraction(Init(path)) == Plain([], 0);
    RunRefines(Init(path), ops);
  }
}
