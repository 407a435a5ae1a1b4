/** What the operations of the track list announce and answer, and what they keep of
    the order tracks are played in. */
module TrackListAnswers {
  import opened Sequences
  import opened TrackListModel
  import opened TrackListEdits

  /** An add is announced, made current if asked, and the first track of a list is
      announced as a change as well. */
  lemma AddAnnounces(s: State, uri: Uri, before: Id, rand: nat)
    requires Inv(s)
    ensures var id, first := TrackId(s.path, s.counter), s.tracks == [];
            && Add(s, uri, before, false, rand).signals
               == (if first then [TrackAdded(id), TrackChanged(id)] else [TrackAdded(id)])
            && Add(s, uri, before, true, rand).signals
               == [GoToTrack(id), TrackChanged(id), TrackAdded(id)] + (if first then [TrackChanged(id)] else [])
            && CurrentId(Add(s, uri, before, true, rand).state) == id
  {
    AddOneKeepsInv(s, uri, before, rand);
    hide Inv;
  }

  /** A batch is announced once, with its ids in URI order; if the list was empty its
      first track is announced as a change, and nothing is loaded. */
  lemma BatchAnnounces(s: State, uris: seq<Uri>, before: Id, rands: seq<nat>)
    requires Inv(s) && |rands| == |uris|
    ensures exists ids: seq<Id> ::
              && |ids| == |uris| && (forall i :: 0 <= i < |ids| ==> ids[i] == TrackId(s.path, s.counter + i))
              && AddBatch(s, uris, before, rands).signals
                 == [TracksAdded(ids)] + (if s.tracks == [] && uris != [] then [TrackChanged(ids[0])] else [])
  {
    var ids := NewIds(s.path, s.counter, |uris|);
    assert AddBatch(s, uris, before, rands).signals
        == [TracksAdded(ids)] + (if s.tracks == [] && uris != [] then [TrackChanged(ids[0])] else []);
  }

  /** What comes of a move: with an empty id, the same id twice or a single track it is
      refused; with an unknown target the error names a missing source, and with an
      unknown track a missing destination; otherwise the move is announced. */
  lemma MoveAnswers(s: State, id: Id, to: Id)
    requires Inv(s) && MoveDefined(s, id, to)
    ensures var trivial := id == Id("") || to == Id("") || id == to || |s.tracks| == 1;
            && (MoveResultOf(s, id, to) == Refused <==> trivial)
            && (MoveResultOf(s, id, to) == SourceNotFound <==> !trivial && to !in s.tracks)
            && (MoveResultOf(s, id, to) == DestNotFound <==> !trivial && to in s.tracks && id !in s.tracks)
            && MoveResultOf(s, id, to) != MoveFailed
            && Move(s, id, to).signals
               == if id in s.tracks && to in s.tracks && id != to then [TrackMoved(id, to)] else []
  {
    MoveRefusedKeeps(s, id, to);
  }

  /** A go-to of a listed track makes it current and loads it, and changes nothing else. */
  lemma GoToMakesCurrent(s: State, id: Id)
    requires id in s.tracks
    ensures var o := GoTo(s, id);
            && CurrentId(o.state) == id && o.state == s.(cursor := o.state.cursor) && o.state.cursor.At?
            && o.signals == [GoToTrack(id), TrackChanged(id)]
  {
  }

  /** While shuffle is on, adding a track puts it somewhere into the shuffle order, any
      place being possible, removing one takes it out, and moving one does not touch
      it: all other tracks keep the order they are played in. */
  lemma ShuffleOrderKept(s: State, uri: Uri, before: Id, rand: nat)
    requires Inv(s) && s.shuffle
    ensures var id, t := TrackId(s.path, s.counter), AddOne(s, uri, before, rand);
            && id in Order(t) && Erase(Order(t), id) == Order(s)
            && (s.tracks != [] ==> IndexOf(Order(t), id) == rand % (|s.tracks| + 1))
    ensures forall id :: id in s.tracks ==>
              && id in s.shuffled && Order(Remove(s, id).state) == Erase(Order(s), id)
    ensures forall id, to :: MoveDefined(s, id, to) ==> Order(Move(s, id, to).state) == Order(s)
  {
    var id := TrackId(s.path, s.counter);
    AddOneKeepsInv(s, uri, before, rand);
    PermutesMembers(s.shuffled, s.tracks);
    InsertedBack(s.shuffled, ShuffleSlot(s.shuffled, rand), id);
    hide Inv, Erase, IndexOf;
  }

  lemma InsertedBack(ids: seq<Id>, k: nat, id: Id)
    requires k <= |ids| && id !in ids
    ensures id in InsertAt(ids, k, id) && IndexOf(InsertAt(ids, k, id), id) == k
    ensures Erase(InsertAt(ids, k, id), id) == ids
  {
    var now := InsertAt(ids, k, id);
    IndexOfFirst(now, id);
    assert forall j :: 0 <= j < k ==> now[j] == ids[j] && ids[j] in ids;
    assert EraseAt(now, k) == ids;
  }

  /** Switching shuffle off brings back the list order, switching it on some order of
      the same tracks; the current track stays. */
  lemma ShuffleSwitches(s: State, picks: seq<nat>)
    requires |picks| == |s.tracks|
    ensures Order(SetShuffle(s, false, picks)) == s.tracks
    ensures multiset(Order(SetShuffle(s, true, picks))) == multiset(s.tracks)
    ensures forall on :: CurrentId(SetShuffle(s, on, picks)) == CurrentId(s)
                      && SetShuffle(s, on, picks).tracks == s.tracks && SetShuffle(s, on, picks).shuffle == on
  {
  }

  /** A removed track is forgotten by the cache: its URI can no longer be asked for. */
  lemma RemovedIsForgotten(s: State, id: Id)
    requires Inv(s) && id in s.tracks && (s.shuffle ==> id in s.shuffled)
    ensures QueryUri(Remove(s, id).state, id) == Uri("")
    ensures forall x :: x != id ==> QueryUri(Remove(s, id).state, x) == QueryUri(s, x)
  {
    hide Inv, Erase;
  }

  /** A reset empties the list and says so twice, stops nothing else, and the next
      track is given the first id again; its URI is then the new one. */
  lemma ResetStartsOver(s: State, uri: Uri, before: Id, rand: nat)
    ensures var o := Reset(s);
            && o.signals == [EndOfTracklist, TrackListReset]
            && o.state.tracks == [] && Order(o.state) == [] && o.state.cursor.Nowhere?
            && o.state.shuffle == s.shuffle && o.state.loop == s.loop && o.state.cache == s.cache
            && AddOne(o.state, uri, before, rand).tracks == [TrackId(s.path, 0)]
            && QueryUri(AddOne(o.state, uri, before, rand), TrackId(s.path, 0)) == uri
  {
  }
}
