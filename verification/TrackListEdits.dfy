/** What batch adds, moves and removals leave in the list, and which track is
    current afterwards. */
module TrackListEdits {
  import opened Sequences
  import opened TrackListModel
  import opened TrackListRuns

  // --- Adding ---

  /** An add keeps the current track current, wherever it is now. */
  lemma AddKeepsCurrent(s: State, uri: Uri, before: Id, rand: nat)
    requires Inv(s)
    ensures var t := AddOne(s, uri, before, rand);
            && (s.cursor.Nowhere? ==> t.cursor.Nowhere?)
            && (s.cursor.At? ==> t.cursor.At? && CurrentId(t) == CurrentId(s))
  {
    AddOneKeepsInv(s, uri, before, rand);
    InsertKeepsDistinct(s.tracks, IndexOf(s.tracks, before), TrackId(s.path, s.counter));
  }

  lemma FreshIds(s: State, n: nat)
    requires Inv(s)
    ensures forall i :: 0 <= i < n ==> NewIds(s.path, s.counter, n)[i] !in s.tracks
    ensures Distinct(NewIds(s.path, s.counter, n))
  {
    var ids := NewIds(s.path, s.counter, n);
    forall i | 0 <= i < n ensures ids[i] !in s.tracks {
      if ids[i] in s.tracks {
        var c: nat :| c < s.counter && ids[i] == TrackId(s.path, c);
        TrackIdInjective(s.path, c, s.counter + i);
        assert false;
      }
    }
    forall i, j | 0 <= i < j < n ensures ids[i] != ids[j] {
      if ids[i] == ids[j] { TrackIdInjective(s.path, s.counter + i, s.counter + j); }
    }
  }

  function Spliced(tracks: seq<Id>, before: Id, ids: seq<Id>): seq<Id> {
    tracks[..IndexOf(tracks, before)] + ids + tracks[IndexOf(tracks, before)..]
  }

  /** The last track of a splice goes right behind the others. */
  lemma SpliceOneMore(tracks: seq<Id>, before: Id, ids: seq<Id>, id: Id)
    requires Distinct(Spliced(tracks, before, ids)) && before !in ids
    ensures InsertAt(Spliced(tracks, before, ids), IndexOf(Spliced(tracks, before, ids), before), id)
         == Spliced(tracks, before, ids + [id])
  {
    var p := IndexOf(tracks, before);
    var now := Spliced(tracks, before, ids);
    if before in tracks {
      IndexOfIs(now, before, p + |ids|);
    } else {
      assert now == tracks + ids;
    }
  }

  /** Position given as an id that one of the adds is about to make: the id that
      carries it is pushed to the end by the ids after it. */
  function PushedBack(tracks: seq<Id>, ids: seq<Id>, j: nat): seq<Id>
    requires j < |ids|
  {
    tracks + ids[..j] + ids[j + 1..] + [ids[j]]
  }

  lemma PushOneMore(tracks: seq<Id>, front: seq<Id>, j: nat, id: Id)
    requires j < |front| && Distinct(PushedBack(tracks, front, j))
    ensures var now := PushedBack(tracks, front, j);
            InsertAt(now, IndexOf(now, front[j]), id) == PushedBack(tracks, front + [id], j)
  {
    var now := PushedBack(tracks, front, j);
    IndexOfIs(now, front[j], |now| - 1);
    assert (front + [id])[..j] == front[..j] && (front + [id])[j + 1..] == front[j + 1..] + [id];
  }

  /** What a batch of `ids` at `before` makes of `tracks`. */
  function BatchResult(tracks: seq<Id>, before: Id, ids: seq<Id>): seq<Id> {
    var j := IndexOf(ids, before);
    if j + 1 < |ids| then PushedBack(tracks, ids, j) else Spliced(tracks, before, ids)
  }

  lemma BatchOneMore(tracks: seq<Id>, before: Id, front: seq<Id>, id: Id)
    requires Distinct(BatchResult(tracks, before, front)) && Distinct(front + [id])
    requires forall i :: 0 <= i < |front| ==> front[i] !in tracks
    ensures var now := BatchResult(tracks, before, front);
            InsertAt(now, IndexOf(now, before), id) == BatchResult(tracks, before, front + [id])
  {
    var j := IndexOf(front, before);
    if j < |front| {
      IndexOfIs(front + [id], before, j);
      assert BatchResult(tracks, before, front) == PushedBack(tracks, front, j);
      PushOneMore(tracks, front, j, id);
    } else {
      assert IndexOf(front + [id], before) >= |front|;
      SpliceOneMore(tracks, before, front, id);
    }
  }

  lemma NoBatch(tracks: seq<Id>, before: Id, ids: seq<Id>)
    requires ids == []
    ensures BatchResult(tracks, before, ids) == tracks
  {
  }

  lemma InvDistinct(s: State)
    requires Inv(s)
    ensures Distinct(s.tracks)
  {
  }

  lemma {:induction false} BatchTracks(s: State, uris: seq<Uri>, before: Id, rands: seq<nat>)
    requires Inv(s) && |rands| == |uris|
    ensures AddEach(s, uris, before, rands).tracks
         == BatchResult(s.tracks, before, NewIds(s.path, s.counter, |uris|))
    decreases |uris|
  {
    hide Inv, Distinct, BatchResult;
    var ids := NewIds(s.path, s.counter, |uris|);
    if uris == [] {
      NoBatch(s.tracks, before, ids);
    } else {
      var n := |uris| - 1;
      BatchTracks(s, uris[..n], before, rands[..n]);
      var t := AddEach(s, uris[..n], before, rands[..n]);
      assert t.tracks == BatchResult(s.tracks, before, NewIds(s.path, s.counter, n));
      NewIdsGrow(s.path, s.counter, n);
      InvDistinct(t);
      FreshIds(s, n);
      FreshIds(s, n + 1);
      BatchOneMore(s.tracks, before, NewIds(s.path, s.counter, n), TrackId(t.path, t.counter));
    }
  }

  /** A batch add is a splice of the new ids, in URI order, in front of `before` or
      at the end, exactly when `before` is not the id that one of the adds but the
      last is about to make. */
  lemma BatchIsSpliceIff(s: State, uris: seq<Uri>, before: Id, rands: seq<nat>)
    requires Inv(s) && |rands| == |uris| > 0
    ensures var ids := NewIds(s.path, s.counter, |uris|);
            AddBatch(s, uris, before, rands).state.tracks == Spliced(s.tracks, before, ids)
            <==> before !in ids[..|uris| - 1]
  {
    var ids := NewIds(s.path, s.counter, |uris|);
    BatchTracks(s, uris, before, rands);
    FreshIds(s, |uris|);
    hide Inv, AddEach, NewIds;
    BatchResultIff(s.tracks, before, ids);
  }

  lemma BatchResultIff(tracks: seq<Id>, before: Id, ids: seq<Id>)
    requires ids != [] && Distinct(ids) && forall i :: 0 <= i < |ids| ==> ids[i] !in tracks
    ensures BatchResult(tracks, before, ids) == Spliced(tracks, before, ids) <==> before !in ids[..|ids| - 1]
  {
    var j := IndexOf(ids, before);
    IndexOfFirst(ids, before);
    if j + 1 < |ids| {
      assert ids[..|ids| - 1][j] == before && before !in tracks;
      DistinctAt(ids, j, j + 1);
      assert PushedBack(tracks, ids, j)[|tracks| + j] == ids[j + 1];
      assert Spliced(tracks, before, ids)[|tracks| + j] == ids[j];
    }
  }

  /** The batch as single adds, none made current. */
  function SingleAdds(uris: seq<Uri>, before: Id, rands: seq<nat>): (ops: seq<Op>)
    requires |rands| == |uris|
    ensures |ops| == |uris|
    ensures forall i :: 0 <= i < |ops| ==> ops[i] == OpAdd(uris[i], before, false, rands[i])
  {
    seq(|uris|, i requires 0 <= i < |uris| => OpAdd(uris[i], before, false, rands[i]))
  }

  lemma {:induction false} AddEachFromFront(s: State, uris: seq<Uri>, before: Id, rands: seq<nat>)
    requires |rands| == |uris| > 0
    requires Inv(s) && Inv(AddOne(s, uris[0], before, rands[0]))
    ensures AddEach(s, uris, before, rands)
         == AddEach(AddOne(s, uris[0], before, rands[0]), uris[1..], before, rands[1..])
    decreases |uris|
  {
    hide Inv, AddOne;
    var n := |uris| - 1;
    if n > 0 {
      AddEachFromFront(s, uris[..n], before, rands[..n]);
      assert uris[..n][1..] == uris[1..][..n - 1] && rands[..n][1..] == rands[1..][..n - 1];
    } else {
      assert uris[..0] == [] && rands[..0] == [];
    }
  }

  lemma SingleAddStep(s: State, uri: Uri, before: Id, rand: nat)
    requires Inv(s)
    ensures Enabled(s, OpAdd(uri, before, false, rand))
    ensures Step(s, OpAdd(uri, before, false, rand)).state == AddOne(s, uri, before, rand)
  {
    hide Inv, AddOne;
  }

  /** A batch add leaves the state that adding the URIs one by one leaves: same
      list, cache, counter, shuffle order and current track, for the same random
      choices. */
  lemma {:induction false} BatchRefinesSingleAdds(s: State, uris: seq<Uri>, before: Id, rands: seq<nat>)
    requires Inv(s) && |rands| == |uris|
    ensures Legal(s, SingleAdds(uris, before, rands))
    ensures Run(s, SingleAdds(uris, before, rands)) == AddBatch(s, uris, before, rands).state
    decreases |uris|
  {
    hide Inv, Step, AddOne;
    if uris != [] {
      var ops := SingleAdds(uris, before, rands);
      AddOneKeepsInv(s, uris[0], before, rands[0]);
      SingleAddStep(s, uris[0], before, rands[0]);
      AddEachFromFront(s, uris, before, rands);
      var t := AddOne(s, uris[0], before, rands[0]);
      assert ops[1..] == SingleAdds(uris[1..], before, rands[1..]);
      BatchRefinesSingleAdds(t, uris[1..], before, rands[1..]);
    }
  }

  // --- Moving ---

  lemma MovedIds(ids: seq<Id>, id: Id, to: Id)
    requires Distinct(ids) && id in ids && to in ids && id != to
    ensures var moved := MoveIds(ids, id, to);
            && |moved| == |ids| && Distinct(moved) && (forall x :: x in moved <==> x in ids)
            && moved[IndexOf(ids, to)] == id && id in moved && Erase(moved, id) == Erase(ids, id)
  {
    var moved := MoveIds(ids, id, to);
    MoveIdsPermutes(ids, id, to);
    PermutesDistinct(moved, ids);
    PermutesMembers(moved, ids);
    IndexOfIs(moved, id, IndexOf(ids, to));
  }

  /** A move puts `id` at the index `to` had, in either direction, keeps the order
      of all other tracks, and keeps the current track (the first one, when none
      was set). */
  lemma MovePlaces(s: State, id: Id, to: Id)
    requires Inv(s) && MoveResultOf(s, id, to) == Moved
    ensures var t := Move(s, id, to).state;
            && to in s.tracks && id in s.tracks && |t.tracks| == |s.tracks|
            && t.tracks[IndexOf(s.tracks, to)] == id
            && id in t.tracks && Erase(t.tracks, id) == Erase(s.tracks, id)
            && t.cursor.At? && CurrentId(t) == CurrentId(s)
  {
    hide Inv, Move, MoveIds, Distinct, Erase;
    InvDistinct(s);
    MovedIds(s.tracks, id, to);
    MoveState(s, id, to);
  }

  lemma MoveBackIds(ids: seq<Id>, id: Id, to: Id)
    requires Distinct(ids) && id in ids && to in ids && id != to
    ensures var moved := MoveIds(ids, id, to);
            && |moved| == |ids|
            && var back := moved[IndexOf(ids, id)];
            id in moved && back in moved && back != id && MoveIds(moved, id, back) == ids
  {
    var moved := MoveIds(ids, id, to);
    var i, k := IndexOf(ids, id), IndexOf(ids, to);
    MovedIds(ids, id, to);
    IndexOfIs(moved, moved[i], i);
    InsertBack(ids, i);
    hide Distinct;
    assert ids[i] != ids[k];
    assert moved[k] == id;
  }

  lemma InsertBack(ids: seq<Id>, i: nat)
    requires i < |ids|
    ensures InsertAt(EraseAt(ids, i), i, ids[i]) == ids
  {
  }

  lemma MoveBackAllowed(s: State, id: Id, to: Id)
    requires Inv(s) && MoveResultOf(s, id, to) == Moved
    ensures var t := Move(s, id, to).state;
            && |t.tracks| == |s.tracks| && Inv(t)
            && MoveResultOf(t, id, t.tracks[IndexOf(s.tracks, id)]) == Moved
  {
    hide Inv, Move, MoveIds, Distinct, Erase;
    InvDistinct(s);
    IdsNotEmpty(s);
    MoveBackIds(s.tracks, id, to);
    MovedIds(s.tracks, id, to);
    MoveState(s, id, to);
    MoveKeepsInv(s, id, to);
  }

  /** Moving `id` to the track now at its old index undoes the move. */
  lemma MoveUndone(s: State, id: Id, to: Id)
    requires Inv(s) && MoveResultOf(s, id, to) == Moved
    ensures |Move(s, id, to).state.tracks| == |s.tracks|
    ensures var t := Move(s, id, to).state;
            var back := t.tracks[IndexOf(s.tracks, id)];
            && MoveResultOf(t, id, back) == Moved
            && Move(t, id, back).state == s.(cursor := At(CurrentIndex(s)))
  {
    var t := Move(s, id, to).state;
    InvCurrent(s);
    hide Inv, Move, MoveIds, MoveResultOf, Distinct, Erase;
    InvDistinct(s);
    MoveBackAllowed(s, id, to);
    MoveState(s, id, to);
    MoveBackIds(s.tracks, id, to);
    MoveState(t, id, t.tracks[IndexOf(s.tracks, id)]);
  }

  lemma InvCurrent(s: State)
    requires Inv(s) && s.tracks != []
    ensures CurrentIndex(s) == IndexOf(s.tracks, CurrentId(s))
  {
    IndexOfIs(s.tracks, CurrentId(s), CurrentIndex(s));
  }

  lemma MoveState(s: State, id: Id, to: Id)
    requires Inv(s) && MoveResultOf(s, id, to) == Moved
    ensures var tracks := MoveIds(s.tracks, id, to);
            && s.tracks != [] && CurrentId(s) in tracks
            && Move(s, id, to).state == s.(tracks := tracks, cursor := At(IndexOf(tracks, CurrentId(s))))
            && CurrentId(Move(s, id, to).state) == CurrentId(s)
  {
    MovedIds(s.tracks, id, to);
    hide MoveIds, Distinct, Erase;
  }

  lemma IdsNotEmpty(s: State)
    requires Inv(s)
    ensures NO_ID !in s.tracks
  {
    assert !Made(s.path, s.counter, NO_ID);
  }

  /** A move that does not happen, for whatever reason, changes no list and tells
      nobody; at most an unset cursor is put on the first track. */
  lemma MoveRefusedKeeps(s: State, id: Id, to: Id)
    requires Inv(s) && MoveDefined(s, id, to)
    ensures MoveResultOf(s, id, to) == Moved <==>
            id in s.tracks && to in s.tracks && id != to
    ensures MoveResultOf(s, id, to) != Moved ==>
            && Move(s, id, to).signals == []
            && Move(s, id, to).state == s.(cursor := Move(s, id, to).state.cursor)
            && Move(s, id, to).state.cursor in {s.cursor, At(CurrentIndex(s))}
  {
    IdsNotEmpty(s);
    if id in s.tracks && to in s.tracks && id != to {
      assert s.tracks[IndexOf(s.tracks, id)] != s.tracks[IndexOf(s.tracks, to)];
    }
  }

  // --- Removing ---

  lemma RemovedIds(s: State, id: Id)
    requires Inv(s) && id in s.tracks
    ensures var k := IndexOf(s.tracks, id);
            && Erase(s.tracks, id) == s.tracks[..k] + s.tracks[k + 1..]
            && Distinct(Erase(s.tracks, id)) && id !in Erase(s.tracks, id)
            && (forall i :: 0 <= i < |s.tracks| && i != k ==>
                  IndexOf(Erase(s.tracks, id), s.tracks[i]) == if i < k then i else i - 1)
  {
    var k, rest := IndexOf(s.tracks, id), Erase(s.tracks, id);
    EraseKeepsDistinct(s.tracks, id);
    forall i: nat | i < |s.tracks| && i != k ensures IndexOf(rest, s.tracks[i]) == if i < k then i else i - 1 {
      IndexOfIs(rest, s.tracks[i], if i < k then i else i - 1);
    }
  }

  /** Removing a track that is not current keeps the current one (the first one,
      when none was set), and loads nothing. */
  lemma RemoveOther(s: State, id: Id)
    requires Inv(s) && id in s.tracks && id != CurrentId(s)
    requires s.shuffle ==> id in s.shuffled
    ensures var t := Remove(s, id).state;
            && t.tracks == Erase(s.tracks, id)
            && t.cursor.At? && CurrentId(t) == CurrentId(s)
            && Remove(s, id).signals == [TrackRemoved(id)]
  {
    RemovedIds(s, id);
    IdsNotEmpty(s);
    hide Distinct, Erase;
    assert s.tracks[CurrentIndex(s)] == CurrentId(s);
    assert CurrentIndex(s) != IndexOf(s.tracks, id);
  }

  /** The list index of the track that takes over from the current one. */
  function SuccessorIndex(s: State): nat {
    if CurrentIndex(s) + 1 < |s.tracks| then CurrentIndex(s) + 1 else 0
  }

  /** Removing the current track makes its successor current and loads it: the
      next one in the list, or the first one when it was last and the playlist
      loops over at least two tracks. */
  lemma RemoveCurrentGoesOn(s: State)
    requires Inv(s) && s.tracks != [] && (s.shuffle ==> CurrentId(s) in s.shuffled)
    requires CurrentIndex(s) + 1 < |s.tracks| || (s.loop == LoopPlaylist && |s.tracks| > 1)
    ensures var i, j := CurrentIndex(s), SuccessorIndex(s);
            var o := Remove(s, CurrentId(s));
            && o.state.tracks == s.tracks[..i] + s.tracks[i + 1..]
            && o.state.cursor == At(if i + 1 < |s.tracks| then i else 0)
            && CurrentId(o.state) == s.tracks[j]
            && o.signals == [TrackRemoved(CurrentId(s)), GoToTrack(s.tracks[j]), TrackChanged(s.tracks[j])]
  {
    var id, i, j := CurrentId(s), CurrentIndex(s), SuccessorIndex(s);
    RemovedIds(s, id);
    IdsNotEmpty(s);
    InvCurrent(s);
    InvDistinct(s);
    DistinctAt(s.tracks, i, j);
    hide Inv, Distinct, Erase;
    var rest := Erase(s.tracks, id);
    assert Successor(s, id) == s.tracks[j] && s.tracks[j] != NO_ID;
    assert IndexOf(rest, s.tracks[j]) == (if i + 1 < |s.tracks| then i else 0) < |rest|;
  }

  /** Otherwise nothing is current afterwards and the end of the tracklist is
      announced: before the removal when not looping, after it when the list is empty
      then, and the only track of a looping playlist is loaded although it is gone. */
  lemma RemoveCurrentEnds(s: State)
    requires Inv(s) && s.tracks != [] && (s.shuffle ==> CurrentId(s) in s.shuffled)
    requires CurrentIndex(s) + 1 == |s.tracks| && (s.loop != LoopPlaylist || |s.tracks| == 1)
    ensures var id, o := CurrentId(s), Remove(s, CurrentId(s));
            && o.state.tracks == s.tracks[..|s.tracks| - 1] && o.state.cursor.Nowhere?
            && o.signals ==
                 if s.loop == LoopPlaylist then [TrackRemoved(id), EndOfTracklist, GoToTrack(id), TrackChanged(id)]
                 else if |s.tracks| == 1 then [EndOfTracklist, TrackRemoved(id), EndOfTracklist]
                 else [EndOfTracklist, TrackRemoved(id)]
  {
    RemovedIds(s, CurrentId(s));
    IdsNotEmpty(s);
    InvCurrent(s);
    hide Inv, Distinct, Erase;
    assert s.tracks[..|s.tracks| - 1] + [] == s.tracks[..|s.tracks| - 1];
  }

  /** The player is told to load the very track that was removed exactly when it
      was the only one and the playlist loops. */
  lemma RemovedTrackLoadedIff(s: State, id: Id)
    requires Inv(s) && id in s.tracks && (s.shuffle ==> id in s.shuffled)
    ensures GoToTrack(id) in Remove(s, id).signals <==> |s.tracks| == 1 && s.loop == LoopPlaylist
  {
    InvCurrent(s);
    InvDistinct(s);
    IdsNotEmpty(s);
    hide Inv, Distinct, Erase;
    if id == CurrentId(s) {
      var i := CurrentIndex(s);
      if i + 1 < |s.tracks| { DistinctAt(s.tracks, i, i + 1); }
      if i > 0 { DistinctAt(s.tracks, 0, i); }
      var signals := Remove(s, id).signals;
      if |s.tracks| == 1 && s.loop == LoopPlaylist {
        assert signals[|signals| - 2] == GoToTrack(id);
      }
    }
  }
}
