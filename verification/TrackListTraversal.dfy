/** What repeated `next` and `previous` calls do to a listener and to the cursor.
    A walk over places of the active order is studied first; the track list is
    then shown to walk that way. */
module TrackListTraversal {
  import opened Sequences
  import opened TrackListModel

  // --- Walking over places ---

  /** The place one call of `next` ends at, when place `p` of `n` is current. */
  function NextSpot(loop: LoopStatus, n: nat, p: nat): (q: nat)
    requires p < n
    ensures q < n
  {
    if loop == LoopTrack then p
    else if p + 1 < n then p + 1
    else if loop == LoopPlaylist then 0
    else p
  }

  function PreviousSpot(loop: LoopStatus, late: bool, n: nat, p: nat): (q: nat)
    requires p < n
    ensures q < n
  {
    if late || loop == LoopTrack then p
    else if p > 0 then p - 1
    else if loop == LoopPlaylist then n - 1
    else p
  }

  /** Whether a call of `next` loads a track. */
  predicate Goes(loop: LoopStatus, n: nat, p: nat) {
    loop != LoopNone || p + 1 < n
  }

  /** The place reached, the tracks loaded and the ends announced on the way. */
  datatype Tour = Tour(place: nat, loaded: seq<Id>, ends: nat)

  function TourStep(loop: LoopStatus, order: seq<Id>, t: Tour): Tour
    requires t.place < |order|
  {
    var q := NextSpot(loop, |order|, t.place);
    if Goes(loop, |order|, t.place) then Tour(q, t.loaded + [order[q]], t.ends)
    else Tour(q, t.loaded, t.ends + 1)
  }

  function Toured(loop: LoopStatus, order: seq<Id>, p: nat, k: nat): (t: Tour)
    requires p < |order|
    ensures t.place < |order|
  {
    if k == 0 then Tour(p, [], 0) else TourStep(loop, order, Toured(loop, order, p, k - 1))
  }

  /** Up to the end of the order every walk but one on a single track goes straight. */
  lemma {:induction false} TourStraight(loop: LoopStatus, order: seq<Id>, p: nat, k: nat)
    requires loop != LoopTrack && p + k < |order|
    ensures Toured(loop, order, p, k) == Tour(p + k, order[p + 1..p + k + 1], 0)
  {
    if k > 0 {
      TourStraight(loop, order, p, k - 1);
      assert order[p + 1..p + k] + [order[p + k]] == order[p + 1..p + k + 1];
    }
  }

  /** Beyond it a playlist loop starts again from the first place... */
  lemma {:induction false} TourAround(order: seq<Id>, p: nat, k: nat)
    requires p < |order| <= p + k < 2 * |order|
    ensures Toured(LoopPlaylist, order, p, k)
         == Tour(p + k - |order|, order[p + 1..] + order[..p + k - |order| + 1], 0)
  {
    var n := |order|;
    if p + k == n {
      TourStraight(LoopPlaylist, order, p, k - 1);
      assert order[p + 1..n] == order[p + 1..] && [order[0]] == order[..1];
    } else {
      TourAround(order, p, k - 1);
      assert order[..p + k - n] + [order[p + k - n]] == order[..p + k - n + 1];
    }
  }

  /** ...and a walk without looping stays at the last one. */
  lemma {:induction false} TourStays(order: seq<Id>, p: nat, k: nat)
    requires p < |order| <= p + k
    ensures Toured(LoopNone, order, p, k) == Tour(|order| - 1, order[p + 1..], k - (|order| - 1 - p))
  {
    if p + k == |order| {
      TourStraight(LoopNone, order, p, k - 1);
    } else {
      TourStays(order, p, k - 1);
    }
  }

  // --- The track list walks ---

  /** Place `k` of the active order holds a listed track, and no earlier place does. */
  ghost predicate Located(s: State, k: nat) {
    k < |Order(s)| && IndexOf(Order(s), Order(s)[k]) == k && IndexOf(s.tracks, Order(s)[k]) < |s.tracks|
  }

  /** A track is current, and list and active order agree on where each track is.
      Every reachable state with a current track is of this kind. */
  ghost predicate OnTrack(s: State) {
    && s.cursor.At? && s.cursor.index < |s.tracks| == |Order(s)|
    && Here(s) < |Order(s)| && IndexOf(s.tracks, CurrentId(s)) == s.cursor.index
    && forall k: nat :: k < |Order(s)| ==> Located(s, k)
  }

  lemma ReachableOnTrack(s: State)
    requires Inv(s) && s.cursor.At?
    ensures OnTrack(s) && Permutes(Order(s), s.tracks)
  {
    OrderFacts(s);
    IndexOfIs(s.tracks, CurrentId(s), s.cursor.index);
    forall k: nat | k < |Order(s)| ensures Located(s, k) {
      IndexOfIs(Order(s), Order(s)[k], k);
      assert Order(s)[k] in Order(s);
    }
  }

  lemma MoveToFacts(s: State, k: nat)
    requires OnTrack(s) && k < |Order(s)|
    ensures OnTrack(MoveTo(s, k)) && Here(MoveTo(s, k)) == k && Order(MoveTo(s, k)) == Order(s)
    ensures MoveTo(s, k) == s <==> k == Here(s)
    ensures forall i :: 0 <= i < |Order(s)| ==> MoveTo(MoveTo(s, k), i) == MoveTo(s, i)
  {
    assert Located(s, k);
    var t := MoveTo(s, k);
    assert t.tracks == s.tracks && Order(t) == Order(s);
    forall i: nat | i < |Order(t)| ensures Located(t, i) {
      assert Located(s, i);
    }
  }

  function Loaded(signals: seq<Signal>): seq<Id> {
    if signals == [] then []
    else (if signals[0].GoToTrack? then [signals[0].id] else []) + Loaded(signals[1..])
  }

  function Ends(signals: seq<Signal>): nat {
    if signals == [] then 0
    else (if signals[0].EndOfTracklist? then 1 else 0) + Ends(signals[1..])
  }

  lemma ArriveSignals(s: State, k: nat)
    requires k < |Order(s)|
    ensures Loaded(Arrive(s, k).signals) == [Order(s)[k]] && Ends(Arrive(s, k).signals) == 0
  {
    var rest := [GoToTrack(Order(s)[k])];
    assert Arrive(s, k).signals[1..] == rest && rest[1..] == [];
    assert Loaded(rest) == [Order(s)[k]] + Loaded(rest[1..]);
    assert Ends(rest) == 0 + Ends(rest[1..]);
  }

  lemma StaySignals(s: State)
    ensures Loaded(Stay(s).signals) == [] && Ends(Stay(s).signals) == 1
  {
    assert Stay(s).signals[1..] == [];
  }

  lemma NextFacts(s: State)
    requires OnTrack(s)
    ensures OnTrack(Next(s).state)
    ensures Next(s).state == MoveTo(s, NextSpot(s.loop, |Order(s)|, Here(s)))
  {
    MoveToFacts(s, Here(s));
    MoveToFacts(s, NextSpot(s.loop, |Order(s)|, Here(s)));
  }

  /** Each call of `next` either loads one track or announces the end once. */
  lemma NextSignals(s: State)
    requires OnTrack(s)
    ensures var q := NextSpot(s.loop, |Order(s)|, Here(s));
            if Goes(s.loop, |Order(s)|, Here(s))
            then Loaded(Next(s).signals) == [Order(s)[q]] && Ends(Next(s).signals) == 0
            else Loaded(Next(s).signals) == [] && Ends(Next(s).signals) == 1
  {
    if NextPlace(s).At? { ArriveSignals(s, NextPlace(s).index); } else { StaySignals(s); }
  }

  lemma PreviousFacts(s: State)
    requires OnTrack(s)
    ensures OnTrack(Previous(s).state)
    ensures Previous(s).state == MoveTo(s, PreviousSpot(s.loop, s.position > MAX_POSITION, |Order(s)|, Here(s)))
  {
    MoveToFacts(s, Here(s));
    MoveToFacts(s, PreviousSpot(s.loop, s.position > MAX_POSITION, |Order(s)|, Here(s)));
  }

  /** The state, the tracks the player was told to load, and how often the end of
      the tracklist was announced, after `k` calls of `next`. */
  datatype Journey = Journey(state: State, loaded: seq<Id>, ends: nat)

  ghost function NextTimes(s: State, k: nat): (j: Journey)
    requires OnTrack(s)
    ensures OnTrack(j.state)
  {
    if k == 0 then Journey(s, [], 0)
    else
      var j := NextTimes(s, k - 1);
      NextFacts(j.state);
      var o := Next(j.state);
      Journey(o.state, j.loaded + Loaded(o.signals), j.ends + Ends(o.signals))
  }

  function JourneyOf(s: State, t: Tour): Journey
    requires t.place < |Order(s)|
  {
    Journey(MoveTo(s, t.place), t.loaded, t.ends)
  }

  ghost predicate Follows(s: State, k: nat, t: Tour)
    requires OnTrack(s)
  {
    t.place < |Order(s)| && NextTimes(s, k) == JourneyOf(s, t)
  }

  /** One call of `next` from place `place`, as a step of the walk. */
  lemma NextFrom(s: State, place: nat)
    requires OnTrack(s) && place < |Order(s)|
    ensures var here, q := MoveTo(s, place), NextSpot(s.loop, |Order(s)|, place);
            && OnTrack(here) && Next(here).state == MoveTo(s, q)
            && if Goes(s.loop, |Order(s)|, place)
               then Loaded(Next(here).signals) == [Order(s)[q]] && Ends(Next(here).signals) == 0
               else Loaded(Next(here).signals) == [] && Ends(Next(here).signals) == 1
  {
    var here := MoveTo(s, place);
    MoveToFacts(s, place);
    assert here.loop == s.loop;
    hide Next, OnTrack, MoveTo, Loaded, Ends, Order, Here;
    NextFacts(here);
    NextSignals(here);
  }

  lemma OneMore(s: State, k: nat, t: Tour)
    requires OnTrack(s) && Follows(s, k, t)
    ensures Follows(s, k + 1, TourStep(s.loop, Order(s), t))
  {
    hide OnTrack, Next, MoveTo, Loaded, Ends, Order, NextSpot, Goes;
    NextFrom(s, t.place);
  }

  lemma NoneYet(s: State)
    requires OnTrack(s)
    ensures Follows(s, 0, Tour(Here(s), [], 0))
  {
    MoveToFacts(s, Here(s));
  }

  /** The track list walks over its active order the way `Toured` says, in list
      order and in shuffled order, under every loop status. */
  lemma {:induction false} WalksTheOrder(s: State, k: nat)
    requires OnTrack(s)
    ensures Follows(s, k, Toured(s.loop, Order(s), Here(s), k))
  {
    hide Follows, Located;
    if k == 0 {
      NoneYet(s);
    } else {
      WalksTheOrder(s, k - 1);
      OneMore(s, k - 1, Toured(s.loop, Order(s), Here(s), k - 1));
    }
  }

  lemma TurnedPermutes(order: seq<Id>, i: nat)
    requires i <= |order|
    ensures Permutes(order[i..] + order[..i], order)
  {
    assert order == order[..i] + order[i..];
  }

  lemma HereFacts(s: State)
    requires OnTrack(s)
    ensures |s.tracks| == |Order(s)| && Here(s) < |Order(s)| && MoveTo(s, Here(s)) == s
  {
    MoveToFacts(s, Here(s));
  }

  lemma PlaylistLoopReturns(s: State)
    requires OnTrack(s) && s.loop == LoopPlaylist
    ensures Here(s) < |Order(s)|
    ensures NextTimes(s, |s.tracks|) == Journey(s, Order(s)[Here(s) + 1..] + Order(s)[..Here(s) + 1], 0)
  {
    hide OnTrack, Located, NextTimes, Toured, MoveTo, Here, Order;
    HereFacts(s);
    WalksTheOrder(s, |s.tracks|);
    TourAround(Order(s), Here(s), |s.tracks|);
  }

  /** With loop status playlist and a current track, as many `next` calls as there
      are tracks load every track exactly once, in the active order starting after
      the current one, never announce an end, and come back to the same state. */
  lemma PlaylistLoopVisitsEveryTrackOnce(s: State)
    requires OnTrack(s) && Permutes(Order(s), s.tracks) && s.loop == LoopPlaylist
    ensures NextTimes(s, |s.tracks|) == Journey(s, Order(s)[Here(s) + 1..] + Order(s)[..Here(s) + 1], 0)
    ensures Permutes(Order(s)[Here(s) + 1..] + Order(s)[..Here(s) + 1], s.tracks)
  {
    hide NextTimes;
    PlaylistLoopReturns(s);
    TurnedPermutes(Order(s), Here(s) + 1);
  }

  /** Without looping, as many `next` calls as places are left load each later
      track of the active order once, in order; so the places left bound the calls
      that load a track... */
  lemma StraightThrough(s: State, k: nat)
    requires OnTrack(s) && s.loop == LoopNone && Here(s) + k < |Order(s)|
    ensures NextTimes(s, k) == Journey(MoveTo(s, Here(s) + k), Order(s)[Here(s) + 1..Here(s) + k + 1], 0)
  {
    hide NextTimes;
    WalksTheOrder(s, k);
    TourStraight(LoopNone, Order(s), Here(s), k);
  }

  /** ...and every further call announces the end and changes nothing. */
  lemma ThenItStays(s: State, k: nat)
    requires OnTrack(s) && s.loop == LoopNone && Here(s) + k >= |Order(s)|
    ensures NextTimes(s, k)
         == Journey(MoveTo(s, |Order(s)| - 1), Order(s)[Here(s) + 1..], k - (|Order(s)| - 1 - Here(s)))
  {
    hide NextTimes;
    WalksTheOrder(s, k);
    TourStays(Order(s), Here(s), k);
  }

  /** Without looping and with a current track, a call of `next` does exactly one
      of two things: load the track one place on, which it does iff `has_next`
      held, or change nothing and announce the end. */
  lemma NextGoesIffHasNext(s: State)
    requires OnTrack(s) && s.loop == LoopNone
    ensures HasNext(s) <==> Here(s) + 1 < |Order(s)|
    ensures HasNext(s) ==> Next(s).state == MoveTo(s, Here(s) + 1)
    ensures HasNext(s) ==> Loaded(Next(s).signals) == [Order(s)[Here(s) + 1]] && Ends(Next(s).signals) == 0
    ensures !HasNext(s) ==> Next(s).state == s && Loaded(Next(s).signals) == [] && Ends(Next(s).signals) == 1
  {
    NextSignals(s);
  }

  /** No track is current yet, shuffle is on, and the first listed track is the last
      of the shuffle order. */
  predicate FirstComesLast(s: State) {
    && s.cursor.Nowhere? && s.shuffle && |s.tracks| >= 2 && |s.shuffled| == |s.tracks|
    && s.shuffled[|s.tracks| - 1] == s.tracks[0]
  }

  /** What a call announces and loads, the track that is current afterwards, and that
      nothing but the cursor has changed: one change, then its load, or one end. */
  predicate Does(s: State, o: Outcome, loaded: seq<Id>) {
    && o.signals == (if loaded == [] then [EndOfTracklist] else [TrackChanged(loaded[0]), GoToTrack(loaded[0])])
    && Loaded(o.signals) == loaded && Ends(o.signals) == (if loaded == [] then 1 else 0)
    && o.state == s.(cursor := o.state.cursor) && o.state.cursor.At?
    && CurrentId(o.state) == (if loaded == [] then CurrentId(s) else loaded[0])
  }

  lemma ArriveDoes(s: State, k: nat)
    requires Inv(s) && k < |Order(s)|
    ensures Does(s, Arrive(s, k), [Order(s)[k]])
  {
    OrderFacts(s);
    assert Order(s)[k] in s.tracks;
    ArriveSignals(s, k);
    hide Inv, Order, Loaded, Ends;
  }

  lemma StayDoes(s: State)
    requires s.tracks != []
    ensures Does(s, Stay(s), [])
  {
    StaySignals(s);
    hide Loaded, Ends;
  }

  lemma WhereNextGoes(s: State)
    requires Inv(s) && s.tracks != []
    ensures Walkable(s) && Here(s) < |Order(s)| && Order(s)[Here(s)] == CurrentId(s)
    ensures NextPlace(s) ==
            if s.loop == LoopTrack then At(Here(s))
            else if Here(s) + 1 < |Order(s)| then At(Here(s) + 1)
            else if s.loop == LoopPlaylist && !FirstComesLast(s) then At(0)
            else Nowhere
  {
    OrderFacts(s);
    if FirstComesLast(s) { IndexOfIs(s.shuffled, s.tracks[0], |s.tracks| - 1); }
    hide Inv, Walkable;
  }

  lemma WalkDoes(s: State, place: Place)
    requires Inv(s) && s.tracks != [] && (place.At? ==> place.index < |Order(s)|)
    ensures Does(s, Walk(s, place), if place.At? then [Order(s)[place.index]] else [])
  {
    if place.At? { ArriveDoes(s, place.index); } else { StayDoes(s); }
    hide Inv, Does, Order;
  }

  /** What `next` does in every state with tracks, a track being current or not (then
      it counts from the first listed one): again the same track when looping on it;
      the following one in the active order; the first one of a looping playlist; or,
      at the end of a playlist that does not loop, and in the situation above, the end. */
  lemma NextDoes(s: State)
    requires Inv(s) && s.tracks != []
    ensures Walkable(s) && Here(s) < |Order(s)| && Order(s)[Here(s)] == CurrentId(s)
    ensures Does(s, Next(s),
                 if s.loop == LoopTrack then [CurrentId(s)]
                 else if Here(s) + 1 < |Order(s)| then [Order(s)[Here(s) + 1]]
                 else if s.loop == LoopPlaylist && !FirstComesLast(s) then [Order(s)[0]]
                 else [])
  {
    WhereNextGoes(s);
    hide Inv, Does, Walkable, Walk, NextPlace, Order, Here;
    WalkDoes(s, NextPlace(s));
  }

  lemma HasNextIs(s: State)
    requires Inv(s) && s.tracks != []
    ensures Here(s) < |Order(s)|
    ensures HasNext(s) <==> Here(s) + 1 < |Order(s)| || FirstComesLast(s)
    ensures FirstComesLast(s) ==> Here(s) + 1 == |Order(s)|
  {
    OrderFacts(s);
    if FirstComesLast(s) {
      IndexOfIs(s.shuffled, s.tracks[0], |s.tracks| - 1);
    }
    hide Inv, Walkable;
  }

  /** Each call of `next` loads a track or announces the end. Without looping it loads
      one when `has_next` says so, except in the one situation above, which a caller
      can test for. In the same situation, and in no other, a playlist that loops is
      announced to be over. */
  lemma HasNextForetellsNextIff(s: State)
    requires Inv(s) && s.tracks != []
    ensures Walkable(s)
    ensures Ends(Next(s).signals) == if Loaded(Next(s).signals) == [] then 1 else 0
    ensures s.loop == LoopNone ==> ((Loaded(Next(s).signals) != [] <==> HasNext(s)) <==> !FirstComesLast(s))
    ensures s.loop == LoopPlaylist ==> (Loaded(Next(s).signals) == [] <==> FirstComesLast(s))
    ensures s.loop == LoopTrack ==> Loaded(Next(s).signals) == [CurrentId(s)]
  {
    NextDoes(s);
    HasNextIs(s);
    hide Inv, Walkable, Next, HasNext, FirstComesLast, Here, Order, CurrentId, Loaded, Ends;
  }

  lemma WherePreviousGoes(s: State)
    requires Inv(s) && s.tracks != []
    ensures Walkable(s) && Here(s) < |Order(s)| && Order(s)[Here(s)] == CurrentId(s)
    ensures PreviousPlace(s) ==
            if s.position > 5_000_000_000 || s.loop == LoopTrack then At(Here(s))
            else if s.loop == LoopPlaylist && (s.cursor.Nowhere? || Here(s) == 0) then At(|Order(s)| - 1)
            else if Here(s) > 0 then At(Here(s) - 1)
            else Nowhere
  {
    OrderFacts(s);
    hide Inv, Walkable, Order, Here;
  }

  /** What `previous` does in every state with tracks: more than five seconds into the
      track, or looping on it, the same track again; the last one of a looping playlist
      when the first is current, or none yet; the one before in the active order; or
      the end. */
  lemma PreviousDoes(s: State)
    requires Inv(s) && s.tracks != []
    ensures Walkable(s) && Here(s) < |Order(s)| && Order(s)[Here(s)] == CurrentId(s)
    ensures Does(s, Previous(s),
                 if s.position > 5_000_000_000 || s.loop == LoopTrack then [CurrentId(s)]
                 else if s.loop == LoopPlaylist && (s.cursor.Nowhere? || Here(s) == 0) then [Order(s)[|Order(s)| - 1]]
                 else if Here(s) > 0 then [Order(s)[Here(s) - 1]]
                 else [])
  {
    WherePreviousGoes(s);
    hide Inv, Does, Walkable, Walk, PreviousPlace, Order, Here;
    WalkDoes(s, PreviousPlace(s));
  }

  /** `previous` undoes `next` exactly when: looping on a track; or early in the
      track (at most 5 s) and looping over the playlist, or not looping and either
      `next` had somewhere to go or there was nothing before the current track; or
      later in the track and `next` could not move. */
  lemma PreviousUndoesNextIff(s: State)
    requires OnTrack(s)
    ensures OnTrack(Next(s).state)
    ensures Previous(Next(s).state).state == s <==>
            if s.loop == LoopTrack then true
            else if s.position <= MAX_POSITION then s.loop == LoopPlaylist || HasNext(s) || !HasPrevious(s)
            else |s.tracks| == 1 || (s.loop == LoopNone && !HasNext(s))
  {
    var t := Next(s).state;
    NextFacts(s);
    MoveToFacts(s, NextSpot(s.loop, |Order(s)|, Here(s)));
    PreviousFacts(t);
    MoveToFacts(s, PreviousSpot(t.loop, t.position > MAX_POSITION, |Order(t)|, Here(t)));
  }

  lemma NextUndoesPreviousIff(s: State)
    requires OnTrack(s)
    ensures OnTrack(Previous(s).state)
    ensures Next(Previous(s).state).state == s <==>
            if s.loop == LoopTrack then true
            else if s.position <= MAX_POSITION then s.loop == LoopPlaylist || HasPrevious(s) || !HasNext(s)
            else |s.tracks| == 1 || (s.loop == LoopNone && !HasNext(s))
  {
    var t := Previous(s).state;
    PreviousFacts(s);
    MoveToFacts(s, PreviousSpot(s.loop, s.position > MAX_POSITION, |Order(s)|, Here(s)));
    NextFacts(t);
    MoveToFacts(s, NextSpot(t.loop, |Order(t)|, Here(t)));
  }
}
