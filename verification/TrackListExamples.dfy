/** Runs of a new track list that come to the situations in which the code does not
    do what its names say. */
module TrackListExamples {
  import opened Sequences
  import opened TrackListModel
  import opened TrackListRuns
  import opened TrackListTraversal

  lemma AddedAtTheEnd(s: State, uri: Uri)
    requires Inv(s) && s.cursor.Nowhere? && !s.shuffle
    ensures var t := Add(s, uri, NO_ID, false, 0).state;
            && t.tracks == s.tracks + [TrackId(s.path, s.counter)] && t.cursor.Nowhere? && !t.shuffle
            && t.counter == s.counter + 1 && t.path == s.path
  {
    assert NO_ID !in s.tracks by { assert !Made(s.path, s.counter, NO_ID); }
  }

  function Adds(uris: seq<Uri>): (ops: seq<Op>)
    ensures |ops| == |uris|
  {
    if uris == [] then [] else Adds(uris[..|uris| - 1]) + [OpAdd(uris[|uris| - 1], NO_ID, false, 0)]
  }

  /** Tracks added to a new list, none made current: any number of them. */
  lemma {:induction false} JustAdded(path: Id, uris: seq<Uri>)
    ensures Inv(Init(path)) && Legal(Init(path), Adds(uris)) && Inv(Run(Init(path), Adds(uris)))
    ensures var s := Run(Init(path), Adds(uris));
            s.path == path && s.counter == |uris| && s.cursor.Nowhere? && !s.shuffle
            && s.tracks == NewIds(path, 0, |uris|)
  {
    assert Inv(Init(path));
    hide Inv, Run, Legal, Add;
    if uris == [] {
      NoOps(Init(path));
    } else {
      var n := |uris| - 1;
      JustAdded(path, uris[..n]);
      AddedAtTheEnd(Run(Init(path), Adds(uris[..n])), uris[n]);
      RunGrows(Init(path), Adds(uris[..n]), OpAdd(uris[n], NO_ID, false, 0));
      NewIdsGrow(path, 0, n);
    }
  }

  lemma ShuffledOnce<T>(xs: seq<T>, picks: seq<nat>, i: nat)
    requires |picks| == |xs| && i < |xs|
    ensures ShuffleBy(xs, picks, i) == ShuffleBy(Swap(xs, i, Pick(picks, i)), picks, i + 1)
    ensures forall ys: seq<T> :: |ys| == |xs| ==> ShuffleBy(ys, picks, |xs|) == ys
  {
  }

  lemma SwapFacts<T>(xs: seq<T>, i: nat)
    requires i < |xs|
    ensures Swap(xs, i, i) == xs && Swap(xs, i, 0)[i] == xs[0]
  {
  }

  /** Picks that leave each element in its place, and then swap the first and the last. */
  predicate SwapsEnds(picks: seq<nat>) {
    forall j :: 0 <= j < |picks| ==> Pick(picks, j) == if j + 1 == |picks| then 0 else j
  }

  lemma {:induction false} FirstGoesLast<T>(xs: seq<T>, picks: seq<nat>, i: nat)
    requires |picks| == |xs| && i < |xs| && SwapsEnds(picks)
    ensures var ys := ShuffleBy(xs, picks, i);
            |ys| == |xs| && ys[|xs| - 1] == xs[0]
    decreases |xs| - i
  {
    hide ShuffleBy, Pick, Swap;
    ShuffledOnce(xs, picks, i);
    SwapFacts(xs, i);
    if i + 1 < |xs| { FirstGoesLast(xs, picks, i + 1); }
  }

  /** Any track list without a current track, shuffled and made to loop. */
  lemma ThenShuffled(path: Id, ops: seq<Op>, picks: seq<nat>)
    requires Inv(Init(path)) && Legal(Init(path), ops) && |picks| == |Run(Init(path), ops).tracks|
    ensures var more := ops + [OpSetShuffle(true, picks)] + [OpSetLoop(LoopPlaylist)];
            && Legal(Init(path), more) && Inv(Run(Init(path), more))
            && Run(Init(path), more) == SetShuffle(Run(Init(path), ops), true, picks).(loop := LoopPlaylist)
  {
    hide Inv, Run, Legal, SetShuffle;
    RunGrows(Init(path), ops, OpSetShuffle(true, picks));
    RunGrows(Init(path), ops + [OpSetShuffle(true, picks)], OpSetLoop(LoopPlaylist));
  }

  lemma ComesLast(s: State, picks: seq<nat>)
    requires |picks| == |s.tracks| >= 2 && SwapsEnds(picks) && s.cursor.Nowhere?
    ensures var t := SetShuffle(s, true, picks).(loop := LoopPlaylist); FirstComesLast(t) && HasNext(t)
  {
    FirstGoesLast(s.tracks, picks, 0);
    hide ShuffleBy, SwapsEnds;
  }

  /** With any two or more tracks a looping playlist can come to say that it is over:
      they are added, shuffled so that the first goes last, and `next` is called. */
  lemma LoopingPlaylistEnds(path: Id, uris: seq<Uri>, picks: seq<nat>)
    requires |uris| == |picks| >= 2 && SwapsEnds(picks)
    ensures var ops := Adds(uris) + [OpSetShuffle(true, picks)] + [OpSetLoop(LoopPlaylist)];
            && Inv(Init(path)) && Legal(Init(path), ops)
            && var s := Run(Init(path), ops);
            && |s.tracks| == |uris| && s.loop == LoopPlaylist && HasNext(s)
            && Walkable(s) && Loaded(Next(s).signals) == [] && Ends(Next(s).signals) == 1
  {
    hide Inv, Run, Legal, Adds, SwapsEnds, FirstComesLast, HasNext, SetShuffle, Walkable, Next, Loaded, Ends;
    JustAdded(path, uris);
    ThenShuffled(path, Adds(uris), picks);
    var s := Run(Init(path), Adds(uris));
    ComesLast(s, picks);
    var t := SetShuffle(s, true, picks).(loop := LoopPlaylist);
    assert t.tracks == s.tracks by { ShuffleKeepsTracks(s, picks); }
    HasNextForetellsNextIff(t);
  }

  lemma ShuffleKeepsTracks(s: State, picks: seq<nat>)
    requires |picks| == |s.tracks|
    ensures SetShuffle(s, true, picks).tracks == s.tracks
  {
  }
}
