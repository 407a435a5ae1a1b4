/** The track list as a value, and what each operation does to it, stated over
    the active order (shuffled or plain). The class in TrackList.dfy carries the
    program's own branches and is proved to compute these functions. */
module TrackListModel {
  import opened Sequences
  import Decimal

  /** An object path: of a track, which is its id, or of the track list. */
  datatype Id = Id(text: string)
  datatype Uri = Uri(text: string)

  datatype LoopStatus = LoopNone | LoopTrack | LoopPlaylist

  datatype Signal =
    | TrackAdded(id: Id)
    | TracksAdded(ids: seq<Id>)
    | TrackMoved(id: Id, to: Id)
    | TrackRemoved(id: Id)
    | TrackChanged(id: Id)
    | GoToTrack(id: Id)
    | EndOfTracklist
    | TrackListReset

  /** An iterator: the empty one, or an index. */
  datatype Place = Nowhere | At(index: nat)

  /** `cursor` is Nowhere for the empty iterator; `At(|tracks|)` is the end
      iterator, which only a go-to of an unknown id can store. */
  datatype State = State(
    path: Id,
    tracks: seq<Id>,
    cursor: Place,
    shuffle: bool,
    shuffled: seq<Id>,
    cache: map<Id, Uri>,
    counter: nat,
    loop: LoopStatus,
    position: nat)

  datatype Outcome = Outcome(state: State, signals: seq<Signal>)

  /** The empty id, which names no track. */
  const NO_ID := Id("")
  const NO_URI := Uri("")

  const MAX_POSITION: nat := 5_000_000_000

  function TrackId(path: Id, counter: nat): (id: Id)
    ensures id != NO_ID
  {
    Id(path.text + "/" + Decimal.Render(counter))
  }

  lemma TrackIdInjective(path: Id, m: nat, n: nat)
    requires TrackId(path, m) == TrackId(path, n)
    ensures m == n
  {
    Decimal.Prefixed(path.text + "/", m, n);
  }

  ghost predicate Made(path: Id, counter: nat, id: Id) {
    exists c: nat :: c < counter && id == TrackId(path, c)
  }

  /** The track list invariant. */
  ghost predicate Inv(s: State) {
    && Distinct(s.tracks)
    && (forall id :: id in s.tracks ==> Made(s.path, s.counter, id))
    && (s.cursor.At? ==> s.cursor.index < |s.tracks|)
    && (s.shuffle ==> Permutes(s.shuffled, s.tracks))
    && (forall id :: id in s.tracks ==> id in s.cache)
  }

  function Init(path: Id): State {
    State(path, [], Nowhere, false, [], map[], 0, LoopNone, 0)
  }

  /** The order `next` and `previous` walk. */
  function Order(s: State): seq<Id> {
    if s.shuffle then s.shuffled else s.tracks
  }

  /** Index of the current track once an unset cursor has been wrapped to the first. */
  function CurrentIndex(s: State): nat {
    if s.cursor.At? then s.cursor.index else 0
  }

  /** The current track, or no id when there is none to dereference. */
  function CurrentId(s: State): Id {
    if CurrentIndex(s) < |s.tracks| then s.tracks[CurrentIndex(s)] else NO_ID
  }

  /** Place of the current track in the active order. */
  function Here(s: State): nat {
    IndexOf(Order(s), CurrentId(s))
  }

  /** The current track, if the list has any, can be found in the active order. */
  predicate Walkable(s: State) {
    s.tracks == [] || (CurrentIndex(s) < |s.tracks| == |Order(s)| && Here(s) < |Order(s)|)
  }

  lemma OrderFacts(s: State)
    requires Inv(s)
    ensures |Order(s)| == |s.tracks| && Distinct(Order(s))
    ensures forall id :: id in Order(s) <==> id in s.tracks
    ensures s.tracks != [] ==> Here(s) < |Order(s)| && Order(s)[Here(s)] == CurrentId(s)
    ensures s.tracks != [] && !s.shuffle ==> Here(s) == CurrentIndex(s)
    ensures Walkable(s)
  {
    if s.shuffle {
      PermutesMembers(s.shuffled, s.tracks);
      PermutesDistinct(s.shuffled, s.tracks);
    } else if s.tracks != [] {
      IndexOfIs(s.tracks, CurrentId(s), CurrentIndex(s));
    }
  }

  predicate HasNext(s: State) {
    if s.tracks == [] then false
    else if s.cursor.Nowhere? then |s.tracks| >= 2
    else Here(s) + 1 < |Order(s)|
  }

  predicate HasPrevious(s: State) {
    s.tracks != [] && s.cursor.At? && Here(s) != 0
  }

  /** The same list with the current track at place `k` of the active order. */
  function MoveTo(s: State, k: nat): State
    requires k < |Order(s)|
  {
    s.(cursor := At(IndexOf(s.tracks, Order(s)[k])))
  }

  /** Arriving at place `k`: the client hears of the change, the player loads it. */
  function Arrive(s: State, k: nat): Outcome
    requires k < |Order(s)|
  {
    Outcome(MoveTo(s, k), [TrackChanged(Order(s)[k]), GoToTrack(Order(s)[k])])
  }

  function Stay(s: State): Outcome {
    Outcome(s.(cursor := At(CurrentIndex(s))), [EndOfTracklist])
  }

  /** Where `next` goes: a place of the active order, or nowhere at its end. */
  function NextPlace(s: State): (place: Place)
    requires s.tracks != [] && Walkable(s)
    ensures place.At? ==> place.index < |Order(s)|
  {
    if s.loop == LoopTrack then At(Here(s))
    else if s.loop == LoopPlaylist && !HasNext(s) then At(0)
    else if Here(s) + 1 < |Order(s)| then At(Here(s) + 1)
    else Nowhere
  }

  function PreviousPlace(s: State): (place: Place)
    requires s.tracks != [] && Walkable(s)
    ensures place.At? ==> place.index < |Order(s)|
  {
    if s.position > MAX_POSITION || s.loop == LoopTrack then At(Here(s))
    else if s.loop == LoopPlaylist && !HasPrevious(s) then At(|Order(s)| - 1)
    else if Here(s) != 0 then At(Here(s) - 1)
    else Nowhere
  }

  /** Going to a place, or staying and saying that the list is over. */
  function Walk(s: State, place: Place): Outcome
    requires place.At? ==> place.index < |Order(s)|
  {
    match place
    case At(k) => Arrive(s, k)
    case Nowhere => Stay(s)
  }

  function Next(s: State): Outcome
    requires Walkable(s)
  {
    if s.tracks == [] then Outcome(s, []) else Walk(s, NextPlace(s))
  }

  function Previous(s: State): Outcome
    requires Walkable(s)
  {
    if s.tracks == [] then Outcome(s, []) else Walk(s, PreviousPlace(s))
  }

  /** `rand() % (n + 1)`, not asked for an empty shuffle order. */
  function ShuffleSlot(shuffled: seq<Id>, rand: nat): (k: nat)
    ensures k <= |shuffled|
  {
    if shuffled == [] then 0 else rand % (|shuffled| + 1)
  }

  /** The cursor follows the track it was on; it is unset if that track is gone. */
  function Follow(s: State, tracks: seq<Id>): Place {
    if s.cursor.Nowhere? || CurrentId(s) !in tracks then Nowhere else At(IndexOf(tracks, CurrentId(s)))
  }

  /** One track put in before `before` (at the end when there is no such track);
      the cursor not yet looked after. */
  function Inserted(s: State, uri: Uri, before: Id, rand: nat): State {
    var id := TrackId(s.path, s.counter);
    s.(counter := s.counter + 1,
       tracks := InsertAt(s.tracks, IndexOf(s.tracks, before), id),
       cache := s.cache[id := uri],
       shuffled := if s.shuffle then InsertAt(s.shuffled, ShuffleSlot(s.shuffled, rand), id) else s.shuffled)
  }

  function AddOne(s: State, uri: Uri, before: Id, rand: nat): State {
    var t := Inserted(s, uri, before, rand);
    t.(cursor := Follow(s, t.tracks))
  }

  function AddedSignals(id: Id, n: nat): seq<Signal> {
    if n == 1 then [TrackAdded(id), TrackChanged(id)] else [TrackAdded(id)]
  }

  function Add(s: State, uri: Uri, before: Id, makeCurrent: bool, rand: nat): Outcome
  {
    var id := TrackId(s.path, s.counter);
    var t := AddOne(s, uri, before, rand);
    Outcome(
      if makeCurrent then t.(cursor := At(IndexOf(t.tracks, id))) else t,
      (if makeCurrent then [GoToTrack(id), TrackChanged(id)] else []) + AddedSignals(id, |t.tracks|))
  }

  lemma AddOneKeepsInv(s: State, uri: Uri, before: Id, rand: nat)
    requires Inv(s)
    ensures Inv(AddOne(s, uri, before, rand))
    ensures TrackId(s.path, s.counter) !in s.tracks
    ensures TrackId(s.path, s.counter) in AddOne(s, uri, before, rand).tracks
  {
    var id := TrackId(s.path, s.counter);
    var t := AddOne(s, uri, before, rand);
    if id in s.tracks {
      var c: nat :| c < s.counter && id == TrackId(s.path, c);
      TrackIdInjective(s.path, c, s.counter);
      assert false;
    }
    InsertKeepsDistinct(s.tracks, IndexOf(s.tracks, before), id);
    InsertCounts(s.tracks, IndexOf(s.tracks, before), id);
    if s.shuffle { InsertCounts(s.shuffled, ShuffleSlot(s.shuffled, rand), id); }
    forall x | x in t.tracks ensures Made(t.path, t.counter, x) {
      if x != id {
        var c: nat :| c < s.counter && x == TrackId(s.path, c);
      }
    }
  }

  /** The URIs added one after the other, none made current. */
  function AddEach(s: State, uris: seq<Uri>, before: Id, rands: seq<nat>): (t: State)
    requires Inv(s) && |rands| == |uris|
    ensures Inv(t) && t.counter == s.counter + |uris| && t.path == s.path
    decreases |uris|
  {
    if uris == [] then s
    else
      var n := |uris| - 1;
      var t := AddEach(s, uris[..n], before, rands[..n]);
      AddOneKeepsInv(t, uris[n], before, rands[n]);
      AddOne(t, uris[n], before, rands[n])
  }

  /** Ids handed out to `n` tracks added from counter value `counter`. */
  function NewIds(path: Id, counter: nat, n: nat): (ids: seq<Id>)
    ensures |ids| == n
    ensures forall i :: 0 <= i < n ==> ids[i] == TrackId(path, counter + i)
  {
    seq(n, i requires 0 <= i => TrackId(path, counter + i))
  }

  lemma NewIdsGrow(path: Id, counter: nat, n: nat)
    ensures NewIds(path, counter, n + 1) == NewIds(path, counter, n) + [TrackId(path, counter + n)]
  {
  }

  function BatchSignals(ids: seq<Id>, first: Id): seq<Signal> {
    if first != NO_ID then [TracksAdded(ids), TrackChanged(first)] else [TracksAdded(ids)]
  }

  function AddBatch(s: State, uris: seq<Uri>, before: Id, rands: seq<nat>): Outcome
    requires Inv(s) && |rands| == |uris|
  {
    var ids := NewIds(s.path, s.counter, |uris|);
    Outcome(AddEach(s, uris, before, rands),
            BatchSignals(ids, if s.tracks == [] && ids != [] then ids[0] else NO_ID))
  }

  /** `id` taken out and put back at the index `to` had. */
  function MoveIds(ids: seq<Id>, id: Id, to: Id): seq<Id>
    requires id in ids && to in ids
  {
    var k := IndexOf(ids, to);
    InsertAt(Erase(ids, id), k, id)
  }

  datatype MoveResult = Moved | Refused | SourceNotFound | DestNotFound | MoveFailed

  /** SourceNotFound and DestNotFound name the exceptions as the program throws
      them: the "source" one when `to` is missing, the "dest" one when `id` is. */
  function MoveResultOf(s: State, id: Id, to: Id): MoveResult {
    if id == NO_ID || to == NO_ID || id == to || |s.tracks| == 1 then Refused
    else if to !in s.tracks then SourceNotFound
    else if id !in s.tracks then DestNotFound
    else Moved
  }

  /** A move dereferences the current iterator, so it needs a track unless its
      arguments are refused first. */
  predicate MoveDefined(s: State, id: Id, to: Id) {
    s.tracks != [] || id == NO_ID || to == NO_ID || id == to
  }

  /** On `id` if it is listed, else where it was. */
  function Seek(tracks: seq<Id>, id: Id, cursor: Place): Place {
    if id in tracks then At(IndexOf(tracks, id)) else cursor
  }

  function Move(s: State, id: Id, to: Id): Outcome
    requires MoveDefined(s, id, to)
  {
    match MoveResultOf(s, id, to)
    case Refused => Outcome(s, [])
    case Moved =>
      var tracks := MoveIds(s.tracks, id, to);
      Outcome(s.(tracks := tracks, cursor := Seek(tracks, CurrentId(s), At(CurrentIndex(s)))), [TrackMoved(id, to)])
    case _ => Outcome(s.(cursor := At(CurrentIndex(s))), [])
  }

  /** The track that is to be current after `id` is removed, or the empty id. When
      `id` is the only track of a looping list this is `id` itself. */
  function Successor(s: State, id: Id): Id
    requires s.tracks != []
  {
    if id != CurrentId(s) then CurrentId(s)
    else if CurrentIndex(s) + 1 < |s.tracks| then s.tracks[CurrentIndex(s) + 1]
    else if s.loop == LoopPlaylist then s.tracks[0]
    else NO_ID
  }

  function RemoveSignals(id: Id, next: Id, emptied: bool, wasCurrent: bool): seq<Signal> {
    LeavingSignals(next) + ErasedSignals(id, emptied) + ResumeSignals(next, wasCurrent)
  }

  function LeavingSignals(next: Id): seq<Signal> {
    if next == NO_ID then [EndOfTracklist] else []
  }

  function ErasedSignals(id: Id, emptied: bool): seq<Signal> {
    if emptied then [TrackRemoved(id), EndOfTracklist] else [TrackRemoved(id)]
  }

  function ResumeSignals(next: Id, wasCurrent: bool): seq<Signal> {
    if next != NO_ID && wasCurrent then [GoToTrack(next), TrackChanged(next)] else []
  }

  function Remove(s: State, id: Id): Outcome
    requires s.shuffle && id in s.tracks ==> id in s.shuffled
  {
    if id !in s.tracks then Outcome(s, [])
    else
      var next, tracks := Successor(s, id), Erase(s.tracks, id);
      Outcome(
        s.(tracks := tracks,
           cursor := Seek(tracks, next, Nowhere),
           cache := s.cache - {id},
           shuffled := if s.shuffle then Erase(s.shuffled, id) else s.shuffled),
        RemoveSignals(id, next, tracks == [], id == CurrentId(s)))
  }

  function GoTo(s: State, id: Id): Outcome {
    Outcome(s.(cursor := At(IndexOf(s.tracks, id))), [GoToTrack(id), TrackChanged(id)])
  }

  function SetShuffle(s: State, on: bool, picks: seq<nat>): State
    requires on ==> |picks| == |s.tracks|
  {
    s.(shuffle := on, shuffled := if on then ShuffleBy(s.tracks, picks, 0) else s.shuffled)
  }

  /** Empties the list. The cache keeps its entries and the counter starts again. */
  function Reset(s: State): Outcome {
    Outcome(s.(tracks := [], cursor := Nowhere, counter := 0, shuffled := []), [EndOfTracklist, TrackListReset])
  }

  function QueryUri(s: State, id: Id): Uri {
    if id in s.cache then s.cache[id] else NO_URI
  }
}
