/** The track list as the program runs it: a vector of ids, an iterator into it,
    a second vector with the shuffled order, a URI cache and an id counter, all
    updated in place. Every method is proved to compute the function of
    TrackListModel that describes it. Results of `rand()` are arguments. */
module TrackList {
  import opened Sequences
  import opened TrackListModel
  import Runs = TrackListRuns

  class TrackListImplementation {
    const path: Id
    var tracks: seq<Id>
    var currentTrack: Place
    var shuffle: bool
    var shuffledTracks: seq<Id>
    var metaDataCache: map<Id, Uri>
    var trackCounter: nat
    var loopStatus: LoopStatus
    var currentPosition: nat
    var idAfterRemove: Id
    /** Everything signalled so far. */
    ghost var trace: seq<Signal>

    function View(): State
      reads this
    {
      State(path, tracks, currentTrack, shuffle, shuffledTracks, metaDataCache, trackCounter,
            loopStatus, currentPosition)
    }

    ghost predicate Valid()
      reads this
    {
      Inv(View())
    }

    /** The cursor may be dereferenced if it is set. */
    predicate CursorInRange()
      reads this
    {
      currentTrack.At? ==> currentTrack.index < |tracks|
    }

    /** Where the cursor points once looked at. */
    function Wrapped(): nat
      reads this`currentTrack
    {
      if currentTrack == Nowhere then 0 else currentTrack.index
    }

    constructor (path: Id)
      ensures Valid() && View() == Init(path) && trace == []
    {
      this.path := path;
      tracks, currentTrack := [], Nowhere;
      shuffle, shuffledTracks := false, [];
      metaDataCache, trackCounter := map[], 0;
      loopStatus, currentPosition, idAfterRemove := LoopNone, 0, NO_ID;
      trace := [];
    }

    // --- Cursor ---

    /** Wraps an unset cursor back to the first track. */
    method CurrentIterator() returns (k: nat)
      requires CursorInRange() && tracks != []
      modifies this`currentTrack
      ensures k == old(Wrapped()) < |tracks| && currentTrack == At(k)
    {
      if currentTrack == Nowhere {
        currentTrack := At(0);
      }
      k := currentTrack.index;
    }

    method GetCurrentShuffled() returns (k: nat)
      requires CursorInRange() && tracks != []
      modifies this`currentTrack
      ensures currentTrack == At(old(Wrapped())) && CursorInRange()
      ensures k == IndexOf(shuffledTracks, tracks[currentTrack.index])
    {
      var current := CurrentIterator();
      k := IndexOf(shuffledTracks, tracks[current]);
    }

    /** Also used while an edit has left the cursor dangling; reads nothing of it. */
    method SetCurrentTrack(id: Id)
      modifies this`currentTrack
      ensures currentTrack == Seek(tracks, id, old(currentTrack))
    {
      var k := IndexOf(tracks, id);
      if k != |tracks| {
        currentTrack := At(k);
      }
    }

    function GetCurrentTrack(): (id: Id)
      requires Valid()
      reads this
      ensures id == Remembered(View())
    {
      if currentTrack == Nowhere || tracks == [] then NO_ID else tracks[currentTrack.index]
    }

    /** Asks for the current iterator only when it is set, so it changes nothing. */
    method HasNextTrack() returns (r: bool)
      requires Valid()
      ensures r == HasNext(View())
    {
      OrderFacts(View());
      if |tracks| == 0 {
        return false;
      }
      if currentTrack == Nowhere {
        return |tracks| >= 2;
      }
      if shuffle {
        var k := IndexOf(shuffledTracks, tracks[currentTrack.index]);
        return k + 1 != |shuffledTracks|;
      } else {
        return currentTrack.index + 1 != |tracks|;
      }
    }

    method HasPreviousTrack() returns (r: bool)
      requires Valid()
      ensures r == HasPrevious(View())
    {
      OrderFacts(View());
      if tracks == [] || currentTrack == Nowhere {
        return false;
      }
      if shuffle {
        var k := IndexOf(shuffledTracks, tracks[currentTrack.index]);
        return k != 0;
      } else {
        return currentTrack.index != 0;
      }
    }

    /** The two signals of arriving at the current track. */
    method SignalArrival()
      requires CursorInRange() && tracks != []
      modifies this`currentTrack, this`trace
      ensures currentTrack == At(old(Wrapped())) && CursorInRange()
      ensures var id := tracks[currentTrack.index]; trace == old(trace) + [TrackChanged(id), GoToTrack(id)]
    {
      var k := CurrentIterator();
      trace := trace + [TrackChanged(tracks[k])];
      k := CurrentIterator();
      trace := trace + [GoToTrack(tracks[k])];
    }

    // The two inner branches of `next` and of `previous`, on either order.

    method WrapToFirst()
      requires Valid() && tracks != []
      modifies this`currentTrack
      ensures |tracks| == |Order(old(View()))| && currentTrack == Landing(old(View()), At(0))
    {
      CursorStays(View());
      if shuffle {
        SetCurrentTrack(shuffledTracks[0]);
      } else {
        currentTrack := At(0);
      }
    }

    method WrapToLast()
      requires Valid() && tracks != []
      modifies this`currentTrack
      ensures |tracks| == |Order(old(View()))| && currentTrack == Landing(old(View()), At(|tracks| - 1))
    {
      CursorStays(View());
      if shuffle {
        SetCurrentTrack(shuffledTracks[|shuffledTracks| - 1]);
      } else {
        currentTrack := At(|tracks| - 1);
      }
    }

    method Advance() returns (goToTrack: bool)
      requires Valid() && tracks != []
      modifies this`currentTrack
      ensures var s := old(View());
              && goToTrack == (Here(s) + 1 < |Order(s)|)
              && currentTrack == Landing(s, if goToTrack then At(Here(s) + 1) else Nowhere)
    {
      ghost var s := View();
      CursorStays(s);
      hide Inv, Walkable, Permutes, Distinct, Made, IndexFrom;
      goToTrack := false;
      if shuffle {
        var it := GetCurrentShuffled();
        if it + 1 != |shuffledTracks| {
          SetCurrentTrack(shuffledTracks[it + 1]);
          goToTrack := true;
        }
      } else {
        var it := CurrentIterator();
        if it + 1 != |tracks| {
          currentTrack := At(it + 1);
          goToTrack := true;
        }
      }
    }

    method Retreat() returns (goToTrack: bool)
      requires Valid() && tracks != []
      modifies this`currentTrack
      ensures var s := old(View());
              && goToTrack == (Here(s) != 0) && Here(s) < |Order(s)|
              && currentTrack == Landing(s, if goToTrack then At(Here(s) - 1) else Nowhere)
    {
      ghost var s := View();
      CursorStays(s);
      hide Inv, Walkable, Permutes, Distinct, Made, IndexFrom;
      goToTrack := false;
      if shuffle {
        var it := GetCurrentShuffled();
        if it != 0 {
          SetCurrentTrack(shuffledTracks[it - 1]);
          goToTrack := true;
        }
      } else {
        var it := CurrentIterator();
        if it != 0 {
          currentTrack := At(it - 1);
          goToTrack := true;
        }
      }
    }

    method AdvanceOrWrap() returns (goToTrack: bool)
      requires Valid() && tracks != [] && loopStatus != LoopTrack
      modifies this`currentTrack
      ensures Walkable(old(View()))
      ensures goToTrack == NextPlace(old(View())).At?
      ensures At(Wrapped()) == Landing(old(View()), NextPlace(old(View())))
    {
      CursorStays(View());
      hide Inv, Walkable, IndexOf, IndexFrom, Landing, Here, Order, CurrentId, Permutes, Distinct;
      var wrap := false;
      if loopStatus == LoopPlaylist {
        var more := HasNextTrack();
        wrap := !more;
      }
      if wrap {
        WrapToFirst();
        goToTrack := true;
      } else {
        goToTrack := Advance();
      }
    }

    method RetreatOrWrap() returns (goToTrack: bool)
      requires Valid() && tracks != [] && currentPosition <= MAX_POSITION && loopStatus != LoopTrack
      modifies this`currentTrack
      ensures Walkable(old(View()))
      ensures goToTrack == PreviousPlace(old(View())).At?
      ensures At(Wrapped()) == Landing(old(View()), PreviousPlace(old(View())))
    {
      CursorStays(View());
      hide Inv, Walkable, IndexOf, IndexFrom, Landing, Here, Order, CurrentId, Permutes, Distinct;
      var wrap := false;
      if loopStatus == LoopPlaylist {
        var more := HasPreviousTrack();
        wrap := !more;
      }
      if wrap {
        WrapToLast();
        goToTrack := true;
      } else {
        goToTrack := Retreat();
      }
    }

    /** Chooses where `next` goes and puts the cursor there. */
    method StepForward() returns (goToTrack: bool)
      requires Valid() && tracks != []
      modifies this`currentTrack
      ensures Walkable(old(View()))
      ensures goToTrack == NextPlace(old(View())).At?
      ensures At(Wrapped()) == Landing(old(View()), NextPlace(old(View())))
    {
      CursorStays(View());
      hide Inv, Walkable, IndexOf, IndexFrom, Landing, Here, Order, CurrentId, Permutes, Distinct;
      if loopStatus == LoopTrack {
        goToTrack := true;
      } else {
        hide NextPlace;
        goToTrack := AdvanceOrWrap();
      }
    }

    method StepBack() returns (goToTrack: bool)
      requires Valid() && tracks != []
      modifies this`currentTrack
      ensures Walkable(old(View()))
      ensures goToTrack == PreviousPlace(old(View())).At?
      ensures At(Wrapped()) == Landing(old(View()), PreviousPlace(old(View())))
    {
      CursorStays(View());
      hide Inv, Walkable, IndexOf, IndexFrom, Landing, Here, Order, CurrentId, Permutes, Distinct;
      if currentPosition > MAX_POSITION {
        goToTrack := true;
      } else if loopStatus == LoopTrack {
        goToTrack := true;
      } else {
        hide PreviousPlace;
        goToTrack := RetreatOrWrap();
      }
    }

    /** The common end of `next` and `previous`. */
    method Conclude(goToTrack: bool) returns (id: Id)
      requires CursorInRange() && tracks != []
      modifies this`currentTrack, this`trace
      ensures currentTrack == At(old(Wrapped())) && CursorInRange()
      ensures id == tracks[currentTrack.index]
      ensures trace == old(trace) + if goToTrack then [TrackChanged(id), GoToTrack(id)] else [EndOfTracklist]
    {
      if goToTrack {
        SignalArrival();
      } else {
        trace := trace + [EndOfTracklist];
      }
      var k := CurrentIterator();
      id := tracks[k];
    }

    method NextTrack() returns (id: Id)
      requires Valid()
      modifies this`currentTrack, this`trace
      ensures Valid() && Walkable(old(View()))
      ensures View() == Next(old(View())).state
      ensures trace == old(trace) + Next(old(View())).signals
      ensures id == CurrentId(View())
    {
      ghost var s := View();
      OrderFacts(s);
      if tracks == [] {
        return NO_ID;
      }
      Runs.NextKeepsInv(s);
      WalkCursor(s, NextPlace(s));
      var goToTrack := StepForward();
      hide Inv, Walkable, NextPlace, IndexOf, Walk;
      id := Conclude(goToTrack);
    }

    method PreviousTrack() returns (id: Id)
      requires Valid()
      modifies this`currentTrack, this`trace
      ensures Valid() && Walkable(old(View()))
      ensures View() == Previous(old(View())).state
      ensures trace == old(trace) + Previous(old(View())).signals
      ensures id == CurrentId(View())
    {
      ghost var s := View();
      OrderFacts(s);
      if tracks == [] {
        return NO_ID;
      }
      Runs.NextKeepsInv(s);
      WalkCursor(s, PreviousPlace(s));
      var goToTrack := StepBack();
      hide Inv, Walkable, PreviousPlace, IndexOf, Walk;
      id := Conclude(goToTrack);
    }

    // --- Edits ---

    method UpdateCachedTrackMetadata(id: Id, uri: Uri)
      modifies this`metaDataCache
      ensures metaDataCache == old(metaDataCache)[id := uri]
    {
      metaDataCache := metaDataCache[id := uri];
    }

    function QueryUriForTrack(id: Id): (uri: Uri)
      reads this
      ensures uri == QueryUri(View(), id)
    {
      if id !in metaDataCache then NO_URI else metaDataCache[id]
    }

    method GoTo(track: Id)
      modifies this`trace
      ensures trace == old(trace) + [GoToTrack(track), TrackChanged(track)]
    {
      trace := trace + [GoToTrack(track)];
      trace := trace + [TrackChanged(track)];
    }

    /** What both kinds of add do for one URI. The cursor still points where it did
        before, which may now be another track. */
    method InsertTrack(uri: Uri, position: Id, rand: nat) returns (id: Id)
      modifies this`trackCounter, this`tracks, this`metaDataCache, this`shuffledTracks
      ensures id == TrackId(path, old(trackCounter))
      ensures View() == Inserted(old(View()), uri, position, rand)
    {
      id := TrackId(path, trackCounter);
      trackCounter := trackCounter + 1;
      tracks := InsertAt(tracks, IndexOf(tracks, position), id);
      UpdateCachedTrackMetadata(id, uri);
      if shuffle {
        shuffledTracks := InsertAt(shuffledTracks, ShuffleSlot(shuffledTracks, rand), id);
      }
    }

    method AnnounceAdded(id: Id)
      modifies this`trace
      ensures trace == old(trace) + AddedSignals(id, |tracks|)
    {
      trace := trace + [TrackAdded(id)];
      if |tracks| == 1 {
        trace := trace + [TrackChanged(id)];
      }
    }

    /** Repairs or moves the cursor after an add, and tells the listeners. */
    method SettleAdded(id: Id, current: Id, makeCurrent: bool)
      modifies this`currentTrack, this`trace
      ensures currentTrack == Seek(tracks, if makeCurrent then id else current, old(currentTrack))
      ensures trace == old(trace)
                    + ((if makeCurrent then [GoToTrack(id), TrackChanged(id)] else []) + AddedSignals(id, |tracks|))
    {
      if makeCurrent {
        SetCurrentTrack(id);
        GoTo(id);
      } else {
        SetCurrentTrack(current);
      }
      AnnounceAdded(id);
    }

    method AddTrackWithUriAt(uri: Uri, position: Id, makeCurrent: bool, rand: nat)
      requires Valid()
      modifies this`trackCounter, this`tracks, this`metaDataCache, this`shuffledTracks, this`currentTrack, this`trace
      ensures Valid() && View() == Add(old(View()), uri, position, makeCurrent, rand).state
      ensures trace == old(trace) + Add(old(View()), uri, position, makeCurrent, rand).signals
    {
      ghost var s := View();
      var current := GetCurrentTrack();
      AddKeepsInv(s, uri, position, makeCurrent, rand);
      AddedCursor(s, uri, position, makeCurrent, rand, current);
      hide Inv, Inserted, Seek, Follow, CurrentId, InsertAt, IndexOf, AddedSignals, TrackId;
      var id := InsertTrack(uri, position, rand);
      SettleAdded(id, current, makeCurrent);
    }

    /** The loop of a batch add. `currentId` is the track added to an empty list. */
    method InsertTracks(uris: seq<Uri>, position: Id, rands: seq<nat>) returns (tmp: seq<Id>, currentId: Id)
      requires Valid() && |rands| == |uris|
      modifies this`trackCounter, this`tracks, this`metaDataCache, this`shuffledTracks
      ensures View() == Adding(old(View()), uris, position, rands, |uris|)
      ensures tmp == NewIds(path, old(trackCounter), |uris|)
      ensures currentId == if old(tracks) == [] && tmp != [] then tmp[0] else NO_ID
    {
      ghost var s := View();
      BatchStart(s, uris, position, rands);
      hide Inv, Adding, Inserted, TrackId, NewIds;
      currentId, tmp := NO_ID, [];
      var i := 0;
      while i < |uris|
        invariant 0 <= i <= |uris|
        invariant View() == Adding(s, uris, position, rands, i)
        invariant tmp == NewIds(path, s.counter, i)
        invariant currentId == if s.tracks == [] && i > 0 then tmp[0] else NO_ID
      {
        BatchStep(s, uris, position, rands, i);
        NewIdsGrow(path, s.counter, i);
        var id := InsertTrack(uris[i], position, rands[i]);
        tmp := tmp + [id];
        if |tracks| == 1 {
          currentId := id;
        }
        i := i + 1;
        BatchSize(s, uris, position, rands, i);
      }
    }

    method SettleBatch(tmp: seq<Id>, currentId: Id, current: Id)
      modifies this`currentTrack, this`trace
      ensures currentTrack == Seek(tracks, current, old(currentTrack))
      ensures trace == old(trace) + BatchSignals(tmp, currentId)
    {
      SetCurrentTrack(current);
      trace := trace + [TracksAdded(tmp)];
      if currentId != NO_ID {
        trace := trace + [TrackChanged(currentId)];
      }
    }

    method AddTracksWithUriAt(uris: seq<Uri>, position: Id, rands: seq<nat>)
      requires Valid() && |rands| == |uris|
      modifies this`trackCounter, this`tracks, this`metaDataCache, this`shuffledTracks, this`currentTrack, this`trace
      ensures Valid() && View() == AddBatch(old(View()), uris, position, rands).state
      ensures trace == old(trace) + AddBatch(old(View()), uris, position, rands).signals
    {
      ghost var s := View();
      var current := GetCurrentTrack();
      hide Remembered;
      BatchEnd(s, uris, position, rands);
      BatchCursor(s, uris, position, rands, current);
      hide Inv, AddEach, Adding, NewIds, Seek, CurrentId, BatchSignals;
      var tmp, currentId := InsertTracks(uris, position, rands);
      SettleBatch(tmp, currentId, current);
    }

    method UpdateCurrentIterator(k: nat) returns (r: bool)
      modifies this`currentTrack
      ensures r == (k != |tracks|) && currentTrack == if r then At(k) else old(currentTrack)
    {
      if k == |tracks| {
        return false;
      }
      currentTrack := At(k);
      return true;
    }

    /** The part of a move that edits the list: erase, insert, find the current
        track again. */
    method MoveWithin(id: Id, ghost to: Id, currentId: Id, insertPoint: nat) returns (r: MoveResult)
      requires insertPoint == IndexOf(tracks, to) < |tracks|
      modifies this`tracks, this`currentTrack
      ensures id !in old(tracks) ==> r == DestNotFound && tracks == old(tracks) && currentTrack == old(currentTrack)
      ensures id in old(tracks) ==>
                && tracks == MoveIds(old(tracks), id, to)
                && r == (if currentId in tracks then Moved else MoveFailed)
                && currentTrack == Seek(tracks, currentId, old(currentTrack))
    {
      var toMove := IndexOf(tracks, id);
      if toMove == |tracks| {
        return DestNotFound;
      }
      tracks := EraseAt(tracks, toMove);
      tracks := InsertAt(tracks, insertPoint, id);
      var newCurrent := IndexOf(tracks, currentId);
      if newCurrent == |tracks| {
        return MoveFailed;
      }
      var updated := UpdateCurrentIterator(newCurrent);
      return if updated then Moved else MoveFailed;
    }

    /** The answers SourceNotFound, DestNotFound and MoveFailed are the program's
        exceptions; the last one is never raised. */
    method MoveTrack(id: Id, to: Id) returns (r: MoveResult)
      requires Valid() && MoveDefined(View(), id, to)
      modifies this`tracks, this`currentTrack, this`trace
      ensures Valid() && r == MoveResultOf(old(View()), id, to)
      ensures View() == Move(old(View()), id, to).state
      ensures trace == old(trace) + Move(old(View()), id, to).signals
    {
      ghost var s := View();
      Runs.MoveKeepsInv(s, id, to);
      if id in tracks && to in tracks && id != to { MovedCurrent(s, id, to); }
      assert tracks != [] ==> CurrentId(s) == tracks[Wrapped()] && CurrentIndex(s) == Wrapped();
      hide Inv, CurrentId, CurrentIndex, MoveIds, Seek, IndexOf;
      if id == NO_ID || to == NO_ID {
        return Refused;
      }
      if id == to {
        return Refused;
      }
      if |tracks| == 1 {
        return Refused;
      }
      var k := CurrentIterator();
      var currentId, insertPoint := tracks[k], IndexOf(tracks, to);
      if insertPoint == |tracks| {
        return SourceNotFound;
      }
      r := MoveWithin(id, to, currentId, insertPoint);
      if r == Moved {
        trace := trace + [TrackMoved(id, to)];
      }
    }

    method ResetCurrentIteratorIfNeeded()
      modifies this`currentTrack
      ensures currentTrack == Seek(tracks, idAfterRemove, Nowhere)
    {
      var k := IndexOf(tracks, idAfterRemove);
      currentTrack := At(k);
      if k == |tracks| {
        currentTrack := Nowhere;
      }
    }

    /** Erases past the end unless `id` is listed (and shuffled, under shuffle). */
    method RemoveTrack(id: Id)
      requires id in tracks && (shuffle ==> id in shuffledTracks)
      modifies this`tracks, this`currentTrack, this`metaDataCache, this`shuffledTracks, this`trace
      ensures tracks == Erase(old(tracks), id)
      ensures currentTrack == Seek(tracks, idAfterRemove, Nowhere)
      ensures metaDataCache == old(metaDataCache) - {id}
      ensures shuffledTracks == if shuffle then Erase(old(shuffledTracks), id) else old(shuffledTracks)
      ensures trace == old(trace) + ErasedSignals(id, tracks == [])
    {
      tracks := EraseAt(tracks, IndexOf(tracks, id));
      ResetCurrentIteratorIfNeeded();
      metaDataCache := metaDataCache - {id};
      if shuffle {
        shuffledTracks := EraseAt(shuffledTracks, IndexOf(shuffledTracks, id));
      }
      trace := trace + [TrackRemoved(id)];
      if tracks == [] {
        trace := trace + [EndOfTracklist];
      }
    }

    /** Looks for the track that is to be current once `id` is gone. */
    method ChooseSuccessor(id: Id) returns (next: Id, deletingCurrent: bool)
      requires Valid() && id in tracks
      modifies this`currentTrack, this`trace
      ensures deletingCurrent == (id == CurrentId(old(View())))
      ensures next == Successor(old(View()), id)
      ensures trace == old(trace) + LeavingSignals(next)
    {
      ghost var s := View();
      SuccessorFacts(s, id);
      hide Inv;
      var idIt := IndexOf(tracks, id);
      next, deletingCurrent := NO_ID, false;
      var current := CurrentIterator();
      if idIt == current {
        deletingCurrent := true;
        if currentTrack != Nowhere {
          currentTrack := At(current + 1);
          if currentTrack.index == |tracks| && loopStatus == LoopPlaylist {
            currentTrack := At(0);
          }
          if currentTrack.index == |tracks| {
            currentTrack := Nowhere;
            trace := trace + [EndOfTracklist];
          } else {
            next := tracks[currentTrack.index];
          }
        }
      } else if currentTrack != Nowhere {
        next := tracks[currentTrack.index];
      }
    }

    /** Loads the successor if the track that went away was playing. */
    method Resume(next: Id, wasCurrent: bool)
      modifies this`trace
      ensures trace == old(trace) + ResumeSignals(next, wasCurrent)
    {
      if next != NO_ID && wasCurrent {
        GoTo(next);
      }
    }

    method RemoveListed(id: Id)
      requires Valid() && id in tracks && (shuffle ==> id in shuffledTracks)
      modifies this`idAfterRemove, this`tracks, this`currentTrack, this`metaDataCache, this`shuffledTracks, this`trace
      ensures View() == Remove(old(View()), id).state
      ensures trace == old(trace) + Remove(old(View()), id).signals
    {
      hide Inv, Successor, Seek, IndexOf, Erase, LeavingSignals, ErasedSignals, ResumeSignals;
      var next, deletingCurrent := ChooseSuccessor(id);
      idAfterRemove := next;
      RemoveTrack(id);
      Resume(next, deletingCurrent);
    }

    /** False is the error reply for an unknown track. */
    method HandleRemoveTrack(id: Id) returns (found: bool)
      requires Valid()
      modifies this`idAfterRemove, this`tracks, this`currentTrack, this`metaDataCache, this`shuffledTracks, this`trace
      ensures Valid() && found == (id in old(tracks))
      ensures old(shuffle) && id in old(tracks) ==> id in old(shuffledTracks)
      ensures View() == Remove(old(View()), id).state
      ensures trace == old(trace) + Remove(old(View()), id).signals
    {
      Runs.StepDefined(View());
      Runs.RemoveKeepsInv(View(), id);
      hide Inv, Successor, Seek, RemoveSignals;
      if IndexOf(tracks, id) == |tracks| {
        return false;
      }
      RemoveListed(id);
      found := true;
    }

    method HandleGoTo(id: Id)
      modifies this`currentTrack, this`trace
      ensures View() == TrackListModel.GoTo(old(View()), id).state
      ensures trace == old(trace) + TrackListModel.GoTo(old(View()), id).signals
      ensures old(Valid()) ==> (Valid() <==> id in tracks)
    {
      ghost var s := View();
      if Valid() { Runs.GoToKeepsInvIff(s, id); }
      currentTrack := At(IndexOf(tracks, id));
      GoTo(id);
    }

    // --- Modes ---

    /** `picks` are the results of `rand()` that `std::random_shuffle` draws. */
    method SetShuffle(on: bool, picks: seq<nat>)
      requires Valid() && (on ==> |picks| == |tracks|)
      modifies this`shuffle, this`shuffledTracks
      ensures Valid() && View() == TrackListModel.SetShuffle(old(View()), on, picks)
    {
      shuffle := on;
      if on {
        shuffledTracks := ShuffleBy(tracks, picks, 0);
      }
    }

    method OnLoopStatusChanged(loop: LoopStatus)
      requires Valid()
      modifies this`loopStatus
      ensures Valid() && View() == old(View()).(loop := loop)
    {
      loopStatus := loop;
    }

    method OnPositionChanged(position: nat)
      requires Valid()
      modifies this`currentPosition
      ensures Valid() && View() == old(View()).(position := position)
    {
      currentPosition := position;
    }

    method Reset()
      requires Valid()
      modifies this`tracks, this`currentTrack, this`trackCounter, this`shuffledTracks, this`trace
      ensures Valid() && View() == TrackListModel.Reset(old(View())).state
      ensures trace == old(trace) + TrackListModel.Reset(old(View())).signals
    {
      trace := trace + [EndOfTracklist];
      currentTrack := Nowhere;
      tracks := [];
      trace := trace + [TrackListReset];
      trackCounter := 0;
      shuffledTracks := [];
    }
  }

  /** After a move the current track is found again: MoveFailed cannot happen. */
  lemma MovedCurrent(s: State, id: Id, to: Id)
    requires Inv(s) && id in s.tracks && to in s.tracks && id != to
    ensures CurrentId(s) in MoveIds(s.tracks, id, to)
  {
    Runs.MoveIdsPermutes(s.tracks, id, to);
    PermutesMembers(MoveIds(s.tracks, id, to), s.tracks);
  }

  lemma SuccessorFacts(s: State, id: Id)
    requires Inv(s) && id in s.tracks
    ensures IndexOf(s.tracks, id) == CurrentIndex(s) <==> id == CurrentId(s)
    ensures CurrentIndex(s) < |s.tracks|
    ensures forall i :: 0 <= i < |s.tracks| ==> s.tracks[i] != NO_ID
  {
    IndexOfIs(s.tracks, CurrentId(s), CurrentIndex(s));
    assert !Made(s.path, s.counter, NO_ID);
    forall i | 0 <= i < |s.tracks| ensures s.tracks[i] != NO_ID {
      assert s.tracks[i] in s.tracks;
    }
  }

  /** A batch after `i` of its adds: the cursor is left where it was. */
  ghost function Adding(s: State, uris: seq<Uri>, before: Id, rands: seq<nat>, i: nat): State
    requires Inv(s) && i <= |rands| == |uris|
  {
    AddEach(s, uris[..i], before, rands[..i]).(cursor := s.cursor)
  }

  lemma BatchStart(s: State, uris: seq<Uri>, before: Id, rands: seq<nat>)
    requires Inv(s) && |rands| == |uris|
    ensures Adding(s, uris, before, rands, 0) == s && NewIds(s.path, s.counter, 0) == []
  {
    hide Inv;
    assert uris[..0] == [] && rands[..0] == [];
  }

  lemma BatchSize(s: State, uris: seq<Uri>, before: Id, rands: seq<nat>, i: nat)
    requires Inv(s) && i <= |rands| == |uris|
    ensures |Adding(s, uris, before, rands, i).tracks| == |s.tracks| + i
  {
    hide Inv;
    BatchLength(s, uris[..i], before, rands[..i]);
  }

  lemma BatchEnd(s: State, uris: seq<Uri>, before: Id, rands: seq<nat>)
    requires Inv(s) && |rands| == |uris|
    ensures var t := AddEach(s, uris, before, rands);
            Inv(t) && Adding(s, uris, before, rands, |uris|) == t.(cursor := s.cursor)
  {
    assert uris[..|uris|] == uris && rands[..|rands|] == rands;
    hide Inv;
  }

  lemma BatchStep(s: State, uris: seq<Uri>, before: Id, rands: seq<nat>, i: nat)
    requires Inv(s) && |rands| == |uris| && i < |uris|
    ensures Adding(s, uris, before, rands, i).counter == s.counter + i
    ensures Adding(s, uris, before, rands, i + 1)
         == Inserted(Adding(s, uris, before, rands, i), uris[i], before, rands[i])
  {
    hide Inv;
    assert uris[..i + 1][..i] == uris[..i] && rands[..i + 1][..i] == rands[..i];
    hide Inserted;
  }

  lemma {:induction false} BatchLength(s: State, uris: seq<Uri>, before: Id, rands: seq<nat>)
    requires Inv(s) && |rands| == |uris|
    ensures |AddEach(s, uris, before, rands).tracks| == |s.tracks| + |uris|
    decreases |uris|
  {
    hide Inv;
    if uris != [] { BatchLength(s, uris[..|uris| - 1], before, rands[..|uris| - 1]); }
  }

  /** However many tracks a batch adds, its cursor ends where looking up the old
      current track once, at the end, puts it. */
  lemma {:induction false} BatchCursor(s: State, uris: seq<Uri>, before: Id, rands: seq<nat>, current: Id)
    requires Inv(s) && |rands| == |uris|
    requires current == Remembered(s)
    ensures var t := AddEach(s, uris, before, rands);
            && t.cursor == Seek(t.tracks, current, s.cursor)
            && (t.cursor == Nowhere <==> s.cursor == Nowhere)
            && (s.cursor.At? ==> s.tracks != [] && t.tracks != [] && CurrentId(t) == current)
    decreases |uris|
  {
    if uris == [] {
      assert s.tracks != [] && s.cursor.At? ==> IndexOf(s.tracks, CurrentId(s)) == CurrentIndex(s) by {
        if s.tracks != [] && s.cursor.At? { IndexOfIs(s.tracks, CurrentId(s), CurrentIndex(s)); }
      }
    } else {
      var n := |uris| - 1;
      BatchCursor(s, uris[..n], before, rands[..n], current);
      var t := AddEach(s, uris[..n], before, rands[..n]);
      AddedCursor(t, uris[n], before, false, rands[n], current);
    }
  }

  lemma AddKeepsInv(s: State, uri: Uri, before: Id, makeCurrent: bool, rand: nat)
    requires Inv(s)
    ensures Inv(Add(s, uri, before, makeCurrent, rand).state)
  {
    AddOneKeepsInv(s, uri, before, rand);
    hide Inv;
    Runs.CursorKeepsInv(AddOne(s, uri, before, rand), Add(s, uri, before, makeCurrent, rand).state);
  }

  /** The current track as an add notes it down: the empty id for none. */
  function Remembered(s: State): Id {
    if s.cursor == Nowhere || s.tracks == [] then NO_ID else CurrentId(s)
  }

  /** The cursor an add leaves behind, without looking at the old list again. */
  lemma AddedCursor(s: State, uri: Uri, before: Id, makeCurrent: bool, rand: nat, current: Id)
    requires Inv(s)
    requires current == Remembered(s)
    ensures var t := Add(s, uri, before, makeCurrent, rand).state;
            t.cursor == Seek(t.tracks, if makeCurrent then TrackId(s.path, s.counter) else current, s.cursor)
  {
    AddOneKeepsInv(s, uri, before, rand);
    InsertKeepsDistinct(s.tracks, IndexOf(s.tracks, before), TrackId(s.path, s.counter));
    assert !Made(s.path, s.counter + 1, NO_ID);
  }

  /** The cursor at place `k` of the active order, or still at the current track. */
  function Landing(s: State, place: Place): (cursor: Place)
    requires place.At? ==> place.index < |Order(s)|
    ensures cursor.At?
  {
    if place.At? then MoveTo(s, place.index).cursor else At(CurrentIndex(s))
  }

  /** A walk changes the cursor only, and announces the place it comes to. */
  lemma WalkCursor(s: State, place: Place)
    requires Inv(s) && s.tracks != [] && Walkable(s) && (place.At? ==> place.index < |Order(s)|)
    ensures var o := Walk(s, place);
            && o.state == s.(cursor := Landing(s, place)) && o.state.cursor.At? && o.state.cursor.index < |s.tracks|
            && o.signals == if place.Nowhere? then [EndOfTracklist]
                            else [TrackChanged(CurrentId(o.state)), GoToTrack(CurrentId(o.state))]
  {
    OrderFacts(s);
    if place.At? { assert Order(s)[place.index] in s.tracks; }
  }

  lemma CursorStays(s: State)
    requires Inv(s) && s.tracks != []
    ensures Walkable(s) && |Order(s)| == |s.tracks| && Here(s) < |Order(s)| && CurrentIndex(s) < |s.tracks|
    ensures forall k :: 0 <= k < |Order(s)| ==> Order(s)[k] in s.tracks
    ensures !s.shuffle ==> Here(s) == CurrentIndex(s)
    ensures Landing(s, At(Here(s))) == At(CurrentIndex(s))
    ensures !s.shuffle ==> forall k :: 0 <= k < |s.tracks| ==> MoveTo(s, k) == s.(cursor := At(k))
  {
    OrderFacts(s);
    IndexOfIs(s.tracks, CurrentId(s), CurrentIndex(s));
    forall k | 0 <= k < |Order(s)| ensures Order(s)[k] in s.tracks {
      assert Order(s)[k] in Order(s);
    }
    if !s.shuffle {
      forall k | 0 <= k < |s.tracks| ensures MoveTo(s, k) == s.(cursor := At(k)) {
        IndexOfIs(s.tracks, s.tracks[k], k);
      }
    }
  }
}
