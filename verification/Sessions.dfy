/** Which session plays: the player store with its current player, pausing the
    others when one starts, and pausing and resuming around calls. */
module Sessions {
  import opened Sequences

  type Key = nat

  datatype Status = Null | Ready | Playing | Paused | Stopped

  datatype Role = Alarm | Alert | Multimedia | Phone

  datatype Player = Player(status: Status, role: Role, isAudioSource: bool)

  datatype Current = Nobody | Is(key: Key)

  /** A session paused by the service, and whether the end of a call resumes it. */
  datatype Entry = Entry(key: Key, resume: bool)

  datatype State = State(players: map<Key, Player>, current: Current, paused: seq<Entry>)

  /** Plays with the multimedia role. */
  predicate Sounding(p: Player) {
    p.status == Playing && p.role == Multimedia
  }

  function WithStatus(s: State, k: Key, status: Status): State
    requires k in s.players
  {
    s.(players := s.players[k := s.players[k].(status := status)])
  }

  /** Some engines may fail to pause: `deaf` are those. */
  function PausedBy(s: State, key: Key, deaf: set<Key>, k: Key): Player
    requires key in s.players && k in s.players
  {
    if Sounding(s.players[k]) && k != key && s.players[key].role == Multimedia && k !in deaf
    then s.players[k].(status := Paused) else s.players[k]
  }

  /** Every other sounding session is paused, all at once. */
  function PauseOthers(s: State, key: Key, deaf: set<Key>): State {
    if key !in s.players then s
    else s.(players := map k | k in s.players :: PausedBy(s, key, deaf, k))
  }

  /** `ok` is whether the engine starts. */
  function Play(s: State, key: Key, deaf: set<Key>, ok: bool): State
    requires key in s.players
  {
    var t := if s.players[key].role == Multimedia then PauseOthers(s, key, deaf).(current := Is(key)) else s;
    if ok then WithStatus(t, key, Playing) else t
  }

  function Remove(s: State, key: Key): State {
    if key !in s.players then s
    else s.(players := s.players - {key}, current := if s.current == Is(key) then Nobody else s.current)
  }

  // --- Around calls ---

  /** An order in which the store's unordered map may be walked. */
  ghost predicate Enumerates(order: seq<Key>, players: map<Key, Player>) {
    Distinct(order) && forall k :: k in order <==> k in players
  }

  function Pausing(players: map<Key, Player>, order: seq<Key>, resume: bool): seq<Entry> {
    if order == [] then []
    else
      var last := order[|order| - 1];
      Pausing(players, order[..|order| - 1], resume)
      + if last in players && Sounding(players[last]) then [Entry(last, resume)] else []
  }

  function Silenced(p: Player, hears: bool): Player {
    if Sounding(p) && hears then p.(status := Paused) else p
  }

  function PauseAll(s: State, resume: bool, order: seq<Key>, deaf: set<Key>): State {
    s.(players := map k | k in s.players :: Silenced(s.players[k], k !in deaf),
       paused := s.paused + Pausing(s.players, order, resume))
  }

  predicate Eligible(players: map<Key, Player>, e: Entry, video: bool) {
    e.resume && e.key in players && (video || players[e.key].isAudioSource)
  }

  /** A `play()` for a session, and whether its engine starts. */
  datatype Start = Start(key: Key, ok: bool)

  /** The `play()` calls for these entries, in order: `oks[i]` is what would become of
      that for entry i. */
  function Resuming(players: map<Key, Player>, entries: seq<Entry>, oks: seq<bool>, video: bool): seq<Start>
    requires |oks| == |entries|
  {
    if entries == [] then []
    else
      var n := |entries| - 1;
      Resuming(players, entries[..n], oks[..n], video)
      + if Eligible(players, entries[n], video) then [Start(entries[n].key, oks[n])] else []
  }

  predicate AllListed(starts: seq<Start>, players: map<Key, Player>) {
    forall i :: 0 <= i < |starts| ==> starts[i].key in players
  }

  function PlayEach(s: State, starts: seq<Start>, deaf: set<Key>): (t: State)
    requires AllListed(starts, s.players)
    ensures t.players.Keys == s.players.Keys && t.paused == s.paused
    ensures forall k :: k in s.players ==> t.players[k] == s.players[k].(status := t.players[k].status)
  {
    if starts == [] then s
    else
      var n := |starts| - 1;
      Play(PlayEach(s, starts[..n], deaf), starts[n].key, deaf, starts[n].ok)
  }

  lemma {:induction false} ResumingListed(players: map<Key, Player>, entries: seq<Entry>, oks: seq<bool>, video: bool)
    requires |oks| == |entries|
    ensures AllListed(Resuming(players, entries, oks, video), players)
  {
    if entries != [] {
      var n := |entries| - 1;
      ResumingListed(players, entries[..n], oks[..n], video);
    }
  }

  function ResumePaused(s: State, video: bool, deaf: set<Key>, oks: seq<bool>): State
    requires |oks| == |s.paused|
  {
    ResumingListed(s.players, s.paused, oks, video);
    PlayEach(s, Resuming(s.players, s.paused, oks, video), deaf).(paused := [])
  }

  // --- One multimedia player plays ---

  /** A sounding player is the store's current player. */
  ghost predicate Sole(s: State) {
    forall k :: k in s.players && Sounding(s.players[k]) ==> s.current == Is(k)
  }

  /** Playing keeps one session sounding exactly when every other sounding session
      obeys the pause (or when the new session is not multimedia, and pauses none). */
  lemma PlayKeepsSoleIff(s: State, key: Key, deaf: set<Key>, ok: bool)
    requires Sole(s) && key in s.players
    ensures Sole(Play(s, key, deaf, ok)) <==>
            s.players[key].role == Multimedia ==>
            !exists k :: k in s.players && k != key && k in deaf && Sounding(s.players[k])
  {
    var t := Play(s, key, deaf, ok);
    assert forall k :: k in s.players && k != key ==>
      t.players[k] == if s.players[key].role == Multimedia then PausedBy(s, key, deaf, k) else s.players[k];
  }

  /** A role change keeps it exactly when it does not make a player multimedia while
      that plays and is not current. */
  lemma RoleKeepsSoleIff(s: State, key: Key, role: Role)
    requires Sole(s) && key in s.players
    ensures Sole(s.(players := s.players[key := s.players[key].(role := role)])) <==>
            (s.players[key].status == Playing && role == Multimedia ==> s.current == Is(key))
  {
    var t := s.(players := s.players[key := s.players[key].(role := role)]);
    assert t.players[key] == s.players[key].(role := role);
  }

  datatype Op =
    | AddPlayer(key: Key, player: Player)
    | RemovePlayer(key: Key)
    | PlayRequest(key: Key, ok: bool)
    | MprisPlay(canPlay: bool, ok: bool)
    | EngineStatus(key: Key, status: Status)
    | SetRole(key: Key, role: Role)
    | SetSource(key: Key, isAudioSource: bool)
    | PauseOthersRequest(key: Key)
    | PauseAllSessions(resume: bool, order: seq<Key>)
    | CallEnded(oks: seq<bool>)

  /** Pauses succeed, no multimedia engine but that of the current player starts
      playing of its own accord, and a role is not changed while playing. */
  ghost predicate Enabled(s: State, op: Op) {
    match op
    case AddPlayer(key, player) => key !in s.players && player.status == Null
    case PlayRequest(key, _) => key in s.players
    case EngineStatus(key, status) =>
      key in s.players && (status == Playing && s.players[key].role == Multimedia ==> s.current == Is(key))
    case SetRole(key, _) => key in s.players && s.players[key].status != Playing
    case SetSource(key, _) => key in s.players
    case PauseAllSessions(_, order) => Enumerates(order, s.players)
    case MprisPlay(_, _) => s.current.Is? ==> s.current.key in s.players
    case CallEnded(oks) => |oks| == |s.paused|
    case _ => true
  }

  /** The MPRIS interface of the service plays the current player, if multimedia;
      it pauses the others itself first. */
  function PlayCurrent(s: State, canPlay: bool, ok: bool): State
    requires s.current.Is? ==> s.current.key in s.players
  {
    if canPlay && s.current.Is? && s.players[s.current.key].role == Multimedia
    then Play(PauseOthers(s, s.current.key, {}), s.current.key, {}, ok) else s
  }

  function Step(s: State, op: Op): State
    requires Enabled(s, op)
  {
    match op
    case AddPlayer(key, player) => s.(players := s.players[key := player])
    case RemovePlayer(key) => Remove(s, key)
    case PlayRequest(key, ok) => Play(s, key, {}, ok)
    case MprisPlay(canPlay, ok) => PlayCurrent(s, canPlay, ok)
    case EngineStatus(key, status) => WithStatus(s, key, status)
    case SetRole(key, role) => s.(players := s.players[key := s.players[key].(role := role)])
    case SetSource(key, a) => s.(players := s.players[key := s.players[key].(isAudioSource := a)])
    case PauseOthersRequest(key) => PauseOthers(s, key, {})
    case PauseAllSessions(resume, order) => PauseAll(s, resume, order, {})
    case CallEnded(oks) => ResumePaused(s, false, {}, oks)
  }

  ghost predicate Tidy(s: State) {
    Sole(s) && (s.current.Is? ==> s.current.key in s.players)
  }

  lemma PauseOthersFacts(s: State, key: Key)
    ensures PauseOthers(s, key, {}).players.Keys == s.players.Keys
    ensures PauseOthers(s, key, {}).current == s.current && PauseOthers(s, key, {}).paused == s.paused
    ensures Tidy(s) ==> Tidy(PauseOthers(s, key, {}))
  {
  }

  lemma PlayTidy(s: State, key: Key, ok: bool)
    requires Tidy(s) && key in s.players
    ensures Tidy(Play(s, key, {}, ok))
  {
    PlayKeepsSoleIff(s, key, {}, ok);
  }

  lemma {:induction false} PlayEachTidy(s: State, starts: seq<Start>)
    requires Tidy(s) && AllListed(starts, s.players)
    ensures Tidy(PlayEach(s, starts, {}))
  {
    if starts != [] {
      var n := |starts| - 1;
      PlayEachTidy(s, starts[..n]);
      PlayTidy(PlayEach(s, starts[..n], {}), starts[n].key, starts[n].ok);
    }
  }

  lemma StepTidy(s: State, op: Op)
    requires Tidy(s) && Enabled(s, op)
    ensures Tidy(Step(s, op))
  {
    match op
    case PlayRequest(key, ok) => PlayTidy(s, key, ok);
    case MprisPlay(canPlay, ok) =>
      if s.current.Is? {
        PauseOthersFacts(s, s.current.key);
        PlayTidy(PauseOthers(s, s.current.key, {}), s.current.key, ok);
      }
    case PauseOthersRequest(key) => PauseOthersFacts(s, key);
    case CallEnded(oks) =>
      ResumingListed(s.players, s.paused, oks, false);
      PlayEachTidy(s, Resuming(s.players, s.paused, oks, false));
    case _ =>
  }

  ghost predicate Legal(s: State, ops: seq<Op>)
    decreases |ops|
  {
    ops == [] || (Enabled(s, ops[0]) && Legal(Step(s, ops[0]), ops[1..]))
  }

  ghost function Run(s: State, ops: seq<Op>): State
    requires Legal(s, ops)
    decreases |ops|
  {
    if ops == [] then s else Run(Step(s, ops[0]), ops[1..])
  }

  lemma {:induction false} RunTidy(s: State, ops: seq<Op>)
    requires Tidy(s) && Legal(s, ops)
    ensures Tidy(Run(s, ops))
    decreases |ops|
  {
    if ops != [] {
      StepTidy(s, ops[0]);
      RunTidy(Step(s, ops[0]), ops[1..]);
    }
  }

  /** In every reachable state a playing multimedia player is the current player;
      hence at most one plays. */
  lemma OneMultimediaPlayerPlays(start: State, ops: seq<Op>)
    requires start.players == map[] && start.current == Nobody && Legal(start, ops)
    ensures var s := Run(start, ops);
            && (forall k :: k in s.players && Sounding(s.players[k]) ==> s.current == Is(k))
            && (forall j, k :: j in s.players && k in s.players ==>
                  Sounding(s.players[j]) && Sounding(s.players[k]) ==> j == k)
  {
    RunTidy(start, ops);
  }

  // --- After a call ---

  lemma {:induction false} ResumingIs(players: map<Key, Player>, entries: seq<Entry>, oks: seq<bool>, video: bool,
                                      start: Start)
    requires |oks| == |entries|
    ensures start in Resuming(players, entries, oks, video)
       <==> exists i :: 0 <= i < |entries| &&
              Start(entries[i].key, oks[i]) == start && Eligible(players, entries[i], video)
  {
    if entries != [] {
      var n := |entries| - 1;
      ResumingIs(players, entries[..n], oks[..n], video, start);
      if start in Resuming(players, entries[..n], oks[..n], video) {
        var i :| 0 <= i < n &&
          Start(entries[..n][i].key, oks[..n][i]) == start && Eligible(players, entries[..n][i], video);
        assert entries[i] == entries[..n][i] && oks[i] == oks[..n][i];
      }
      if i :| 0 <= i < |entries| && Start(entries[i].key, oks[i]) == start && Eligible(players, entries[i], video) {
        assert i < n ==> entries[..n][i] == entries[i] && oks[..n][i] == oks[i];
      }
    }
  }

  /** From the `from`-th play on, none silences session `k`. */
  predicate Undisturbed(players: map<Key, Player>, starts: seq<Start>, from: nat, k: Key)
    requires k in players && AllListed(starts, players)
  {
    forall j :: from <= j < |starts| ==>
      starts[j].key == k || players[k].role != Multimedia || players[starts[j].key].role != Multimedia
  }

  /** The `i`-th play starts session `k`, and none after it silences that. */
  predicate StaysStarted(players: map<Key, Player>, starts: seq<Start>, i: nat, k: Key)
    requires k in players && AllListed(starts, players)
  {
    i < |starts| && starts[i] == Start(k, true) && Undisturbed(players, starts, i + 1, k)
  }

  /** What is playing once these plays have been made in turn: what played before and
      was not silenced, and what started and was not silenced later. */
  ghost predicate PlaysAfter(s: State, starts: seq<Start>, k: Key)
    requires k in s.players && AllListed(starts, s.players)
  {
    (s.players[k].status == Playing && Undisturbed(s.players, starts, 0, k)) ||
    exists i: nat :: StaysStarted(s.players, starts, i, k)
  }

  lemma UndisturbedGrows(players: map<Key, Player>, starts: seq<Start>, from: nat, k: Key)
    requires k in players && AllListed(starts, players) && from < |starts|
    ensures var n := |starts| - 1;
            Undisturbed(players, starts, from, k)
            <==> Undisturbed(players, starts[..n], from, k) && Undisturbed(players, starts, n, k)
  {
    var n := |starts| - 1;
    assert forall j :: 0 <= j < n ==> starts[..n][j] == starts[j];
  }

  lemma StaysStartedGrows(players: map<Key, Player>, starts: seq<Start>, i: nat, k: Key)
    requires k in players && AllListed(starts, players) && starts != []
    ensures var n := |starts| - 1;
            StaysStarted(players, starts, i, k)
            <==> ((i == n && starts[n] == Start(k, true)) ||
                  (StaysStarted(players, starts[..n], i, k) && Undisturbed(players, starts, n, k)))
  {
    var n := |starts| - 1;
    if i < n { UndisturbedGrows(players, starts, i + 1, k); }
    assert Undisturbed(players, starts, n + 1, k);
    hide Undisturbed;
  }

  lemma PlaysAfterGrows(s: State, starts: seq<Start>, k: Key)
    requires k in s.players && AllListed(starts, s.players) && starts != []
    ensures var n := |starts| - 1;
            PlaysAfter(s, starts, k) <==>
            (starts[n] == Start(k, true) || (PlaysAfter(s, starts[..n], k) && Undisturbed(s.players, starts, n, k)))
  {
    var n := |starts| - 1;
    UndisturbedGrows(s.players, starts, 0, k);
    StaysStartedGrows(s.players, starts, n, k);
    hide Undisturbed, StaysStarted;
    if i: nat :| StaysStarted(s.players, starts, i, k) { StaysStartedGrows(s.players, starts, i, k); }
    if i: nat :| StaysStarted(s.players, starts[..n], i, k) { StaysStartedGrows(s.players, starts, i, k); }
  }

  lemma {:induction false} PlayEachPlays(s: State, starts: seq<Start>, k: Key)
    requires k in s.players && AllListed(starts, s.players)
    ensures PlayEach(s, starts, {}).players[k].status == Playing <==> PlaysAfter(s, starts, k)
  {
    if starts != [] {
      var n := |starts| - 1;
      var t := PlayEach(s, starts[..n], {});
      PlayEachPlays(s, starts[..n], k);
      PlaysAfterGrows(s, starts, k);
      hide Play, PlaysAfter;
      PlayOnePlays(t, starts[n], k);
    }
  }

  lemma PlayOnePlays(s: State, start: Start, k: Key)
    requires start.key in s.players && k in s.players
    ensures Play(s, start.key, {}, start.ok).players[k].status == Playing <==>
            start == Start(k, true) ||
            (s.players[k].status == Playing &&
             (start.key == k || s.players[k].role != Multimedia || s.players[start.key].role != Multimedia))
  {
  }

  /** When a call ends nothing stays noted as paused; exactly the sessions with a
      resume-flagged entry that are still in the store and are audio sources get a
      `play()`; and what plays then is what played or started and was not silenced by
      a later one: of the multimedia sessions, that is only ever the last. */
  lemma CallEndResumes(s: State, oks: seq<bool>, k: Key)
    requires |oks| == |s.paused|
    ensures ResumePaused(s, false, {}, oks).paused == []
    ensures AllListed(Resuming(s.players, s.paused, oks, false), s.players)
    ensures (exists ok :: Start(k, ok) in Resuming(s.players, s.paused, oks, false)) <==>
            k in s.players && s.players[k].isAudioSource && Entry(k, true) in s.paused
    ensures k in s.players ==>
            (ResumePaused(s, false, {}, oks).players[k].status == Playing
             <==> PlaysAfter(s, Resuming(s.players, s.paused, oks, false), k))
  {
    ResumingListed(s.players, s.paused, oks, false);
    ResumingIs(s.players, s.paused, oks, false, Start(k, true));
    ResumingIs(s.players, s.paused, oks, false, Start(k, false));
    if Entry(k, true) in s.paused {
      var i :| 0 <= i < |s.paused| && s.paused[i] == Entry(k, true);
      assert s.paused[i].key == k && s.paused[i].resume;
    }
    if k in s.players { PlayEachPlays(s, Resuming(s.players, s.paused, oks, false), k); }
  }

  /** If all of them start, the last multimedia session among them is left playing and
      no other multimedia session is. */
  lemma LastOneIsLeft(s: State, starts: seq<Start>, last: nat, k: Key)
    requires k in s.players && s.players[k].role == Multimedia && AllListed(starts, s.players)
    requires last < |starts| && starts[last].ok && s.players[starts[last].key].role == Multimedia
    requires forall j :: last < j < |starts| ==> s.players[starts[j].key].role != Multimedia
    ensures PlayEach(s, starts, {}).players[k].status == Playing <==> k == starts[last].key
  {
    PlayEachPlays(s, starts, k);
  }

  /** Without the assumption on roles more than one entry can only come from pauses
      of different sessions: with at most one session sounding, one pause notes at
      most one entry, whatever the order of the walk. */
  lemma {:induction false} OnePausedAtATime(s: State, order: seq<Key>, resume: bool)
    requires Sole(s) && Distinct(order)
    ensures Pausing(s.players, order, resume)
         == if s.current.Is? && s.current.key in order
               && s.current.key in s.players && Sounding(s.players[s.current.key])
            then [Entry(s.current.key, resume)] else []
  {
    if order != [] {
      var n := |order| - 1;
      forall i, j ensures Differ(order[..n], i, j) { assert Differ(order, i, j); }
      OnePausedAtATime(s, order[..n], resume);
      assert s.current.Is? ==> (s.current.key in order <==> s.current.key in order[..n] || s.current.key == order[n]);
      if order[n] in order[..n] {
        var i :| 0 <= i < n && order[..n][i] == order[n];
        DistinctAt(order, i, n);
        assert false;
      }
    }
  }

  // --- Pauses add up ---

  /** What is noted by these operations, in order. */
  ghost function Noted(s: State, ops: seq<Op>): seq<Entry>
    requires Legal(s, ops)
    decreases |ops|
  {
    if ops == [] then []
    else
      (if ops[0].PauseAllSessions? then Pausing(s.players, ops[0].order, ops[0].resume) else [])
      + Noted(Step(s, ops[0]), ops[1..])
  }

  lemma PauseAllNotes(s: State, resume: bool, order: seq<Key>, deaf: set<Key>)
    ensures s.paused <= PauseAll(s, resume, order, deaf).paused
    ensures PauseAll(s, resume, order, deaf).current == s.current
    ensures forall k :: k in s.players ==>
              PauseAll(s, resume, order, deaf).players[k] ==
              if s.players[k].status == Playing && s.players[k].role == Multimedia && k !in deaf
              then s.players[k].(status := Paused) else s.players[k]
  {
  }

  lemma StepNotes(s: State, op: Op)
    requires Enabled(s, op) && !op.CallEnded?
    ensures Step(s, op).paused
         == s.paused + if op.PauseAllSessions? then Pausing(s.players, op.order, op.resume) else []
  {
    hide Pausing;
  }

  /** Until a call ends nothing noted is forgotten: the entries are those there were,
      and then what each pause noted. */
  lemma {:induction false} NotesAddUp(s: State, ops: seq<Op>)
    requires Legal(s, ops) && forall i :: 0 <= i < |ops| ==> !ops[i].CallEnded?
    ensures Run(s, ops).paused == s.paused + Noted(s, ops)
    decreases |ops|
  {
    if ops != [] {
      StepNotes(s, ops[0]);
      hide Step, Enabled, Pausing;
      NotesAddUp(Step(s, ops[0]), ops[1..]);
    }
  }

  lemma {:induction false} PausingIs(players: map<Key, Player>, order: seq<Key>, resume: bool, e: Entry)
    ensures e in Pausing(players, order, resume)
       <==> e.resume == resume && e.key in order && e.key in players && Sounding(players[e.key])
  {
    if order != [] {
      PausingIs(players, order[..|order| - 1], resume, e);
      assert e.key in order <==> e.key in order[..|order| - 1] || e.key == order[|order| - 1];
      hide Sounding;
    }
  }

  /** Some pause for a call among these operations found the session sounding. */
  ghost predicate SilencedForCall(s: State, ops: seq<Op>, k: Key)
    requires Legal(s, ops)
    decreases |ops|
  {
    ops != [] &&
    ((ops[0].PauseAllSessions? && ops[0].resume && k in s.players && Sounding(s.players[k]))
     || SilencedForCall(Step(s, ops[0]), ops[1..], k))
  }

  lemma {:induction false} NotedIs(s: State, ops: seq<Op>, k: Key)
    requires Legal(s, ops)
    ensures Entry(k, true) in Noted(s, ops) <==> SilencedForCall(s, ops, k)
    decreases |ops|
  {
    if ops != [] {
      NotedIs(Step(s, ops[0]), ops[1..], k);
      if ops[0].PauseAllSessions? { PausingIs(s.players, ops[0].order, ops[0].resume, Entry(k, true)); }
      hide Step, Pausing, Sounding;
    }
  }

  /** After any operations, whatever further pauses they make for calls or recordings,
      the end of a call plays exactly the sessions that some pause for a call found
      sounding (or that were noted before), if they are still there as audio sources. */
  lemma SilencedIsResumed(s: State, ops: seq<Op>, oks: seq<bool>, k: Key)
    requires Legal(s, ops) && forall i :: 0 <= i < |ops| ==> !ops[i].CallEnded?
    requires |oks| == |Run(s, ops).paused|
    ensures var t := Run(s, ops);
            (exists ok :: Start(k, ok) in Resuming(t.players, t.paused, oks, false)) <==>
            && k in t.players && t.players[k].isAudioSource
            && (Entry(k, true) in s.paused || SilencedForCall(s, ops, k))
  {
    NotesAddUp(s, ops);
    NotedIs(s, ops, k);
    hide Run, Noted, SilencedForCall, Resuming, ResumePaused;
    CallEndResumes(Run(s, ops), oks, k);
  }

  // --- What one operation leaves ---

  /** A play, for every session: the played one plays if its engine starts; the other
      sounding ones that obey are paused, if the played one is multimedia, which then
      is current; everything else is left alone. */
  lemma PlayLeaves(s: State, key: Key, deaf: set<Key>, ok: bool)
    requires key in s.players
    ensures var t, multimedia := Play(s, key, deaf, ok), s.players[key].role == Multimedia;
            && t.players.Keys == s.players.Keys && t.paused == s.paused
            && t.current == (if multimedia then Is(key) else s.current)
            && forall k :: k in s.players ==>
                 t.players[k] ==
                 if k == key then (if ok then s.players[k].(status := Playing) else s.players[k])
                 else if multimedia && s.players[k].status == Playing && s.players[k].role == Multimedia && k !in deaf
                 then s.players[k].(status := Paused)
                 else s.players[k]
  {
  }

  /** An MPRIS play leaves the current multimedia player playing when its engine starts,
      and no other multimedia player. */
  lemma MprisPlayLeaves(s: State)
    requires s.current.Is? && s.current.key in s.players && s.players[s.current.key].role == Multimedia
    ensures var t := PlayCurrent(s, true, true);
            && t.current == s.current && t.players.Keys == s.players.Keys
            && forall k :: k in s.players && s.players[k].role == Multimedia ==>
                 (t.players[k].status == Playing <==> k == s.current.key)
    ensures forall ok :: PlayCurrent(s, false, ok) == s
  {
    var u := PauseOthers(s, s.current.key, {});
    assert u.players.Keys == s.players.Keys && u.current == s.current;
    assert forall k :: k in s.players ==> u.players[k] == PausedBy(s, s.current.key, {}, k);
    PlayLeaves(u, s.current.key, {}, true);
    hide Play, PauseOthers;
  }

  /** A removed player is gone and no longer current; every other stays as it is. */
  lemma RemoveLeaves(s: State, key: Key)
    ensures var t := Remove(s, key);
            && key !in t.players && (key in s.players ==> t.current != Is(key))
            && (forall k :: k in t.players <==> k != key && k in s.players)
            && (forall k :: k in t.players ==> t.players[k] == s.players[k])
            && (s.current != Is(key) ==> t.current == s.current) && t.paused == s.paused
  {
  }

  // --- A call from beginning to end ---

  lemma OthersStand(s: State, key: Key, ok: bool)
    requires Sole(s) && key in s.players && s.current == Is(key) && s.players[key].role == Multimedia
    ensures PauseOthers(s, key, {}).players == s.players
    ensures Play(s, key, {}, ok) == if ok then WithStatus(s, key, Playing) else s
  {
    assert forall k :: k in s.players ==> PausedBy(s, key, {}, k) == s.players[k];
  }

  lemma PauseAllCurrent(s: State, order: seq<Key>, resume: bool)
    requires Sole(s) && Enumerates(order, s.players) && s.paused == []
    ensures var t := PauseAll(s, resume, order, {});
            if s.current.Is? && s.current.key in s.players && Sounding(s.players[s.current.key])
            then t == WithStatus(s, s.current.key, Paused).(paused := [Entry(s.current.key, resume)])
            else t == s
  {
    OnePausedAtATime(s, order, resume);
    hide Pausing;
    var t := PauseAll(s, resume, order, {});
    if s.current.Is? && s.current.key in s.players && Sounding(s.players[s.current.key]) {
      assert t.players == WithStatus(s, s.current.key, Paused).players;
    } else {
      assert t.players == s.players;
    }
  }

  lemma ResumingOne(players: map<Key, Player>, e: Entry, ok: bool)
    ensures Resuming(players, [e], [ok], false) == if Eligible(players, e, false) then [Start(e.key, ok)] else []
  {
    assert [e][..0] == [] && [ok][..0] == [];
    assert Resuming(players, [], [], false) == [];
    hide Eligible;
  }

  lemma PlayJustOne(s: State, start: Start)
    requires start.key in s.players
    ensures PlayEach(s, [start], {}) == Play(s, start.key, {}, start.ok)
  {
    hide Play;
    assert [start][..0] == [] && PlayEach(s, [], {}) == s;
  }

  lemma ResumeOneEntry(s: State, e: Entry, ok: bool)
    requires s.paused == [e]
    ensures ResumePaused(s, false, {}, [ok])
         == (if Eligible(s.players, e, false) then Play(s, e.key, {}, ok) else s).(paused := [])
  {
    ResumingOne(s.players, e, ok);
    ResumingListed(s.players, [e], [ok], false);
    if Eligible(s.players, e, false) { PlayJustOne(s, Start(e.key, ok)); } else { PlayNone(s); }
    hide Play, PlayEach, Resuming;
  }

  lemma PlayNone(s: State)
    ensures PlayEach(s, [], {}) == s
  {
  }

  lemma PausedThenPlayed(s: State, key: Key, ok: bool)
    requires Sole(s) && key in s.players && s.current == Is(key) && Sounding(s.players[key])
    ensures var t := WithStatus(s, key, Paused);
            t != s && Play(t, key, {}, ok) == if ok then s else t
  {
    var t := WithStatus(s, key, Paused);
    OthersStand(t, key, ok);
    assert t.players[key].status == Paused;
    assert WithStatus(t, key, Playing).players == s.players;
  }

  /** A call that begins and ends leaves everything as it was exactly when nothing but
      an audio source was sounding, and its engine starts again: then the end of the
      call undoes its beginning. */
  lemma CallUndoneIff(s: State, order: seq<Key>, oks: seq<bool>)
    requires Tidy(s) && Enumerates(order, s.players) && s.paused == []
    requires |oks| == |PauseAll(s, true, order, {}).paused|
    ensures ResumePaused(PauseAll(s, true, order, {}), false, {}, oks) == s
       <==> (forall k :: k in s.players && Sounding(s.players[k]) ==> s.players[k].isAudioSource)
            && (forall i :: 0 <= i < |oks| ==> oks[i])
  {
    PauseAllCurrent(s, order, true);
    if s.current.Is? && Sounding(s.players[s.current.key]) {
      var key := s.current.key;
      assert oks == [oks[0]];
      ResumeOneEntry(PauseAll(s, true, order, {}), Entry(key, true), oks[0]);
      PausedThenPlayed(s, key, oks[0]);
      PlayIgnoresPaused(WithStatus(s, key, Paused), [Entry(key, true)], key, oks[0]);
      hide PauseAll, ResumePaused, Play;
    } else {
      NothingToResume(s);
      hide PauseAll, ResumePaused;
    }
  }

  lemma PlayIgnoresPaused(s: State, paused: seq<Entry>, key: Key, ok: bool)
    requires key in s.players
    ensures Play(s.(paused := paused), key, {}, ok) == Play(s, key, {}, ok).(paused := paused)
  {
    assert PauseOthers(s.(paused := paused), key, {}).players == PauseOthers(s, key, {}).players;
  }

  lemma NothingToResume(s: State)
    requires s.paused == []
    ensures ResumePaused(s, false, {}, []) == s
  {
    hide Play;
  }

  /** Pauses for a recording are never undone by the end of a call. */
  lemma RecordingStaysPaused(s: State, order: seq<Key>, oks: seq<bool>)
    requires Tidy(s) && Enumerates(order, s.players) && s.paused == []
    requires |oks| == |PauseAll(s, false, order, {}).paused|
    ensures ResumePaused(PauseAll(s, false, order, {}), false, {}, oks) == PauseAll(s, false, order, {}).(paused := [])
    ensures forall k :: k in s.players ==> !Sounding(PauseAll(s, false, order, {}).players[k])
  {
    PauseAllCurrent(s, order, false);
    var t := PauseAll(s, false, order, {});
    if s.current.Is? && Sounding(s.players[s.current.key]) {
      assert oks == [oks[0]];
      ResumeOneEntry(t, Entry(s.current.key, false), oks[0]);
    } else {
      NothingToResume(s);
    }
  }

  // --- The service's own fields ---

  class ServiceImplementation {
    var players: map<Key, Player>
    var currentPlayer: Current
    var pausedSessions: seq<Entry>
    /** The `play()` calls made on players. */
    ghost var played: seq<Start>

    function View(): State
      reads this
    {
      State(players, currentPlayer, pausedSessions)
    }

    constructor ()
      ensures View() == State(map[], Nobody, []) && played == []
    {
      players, currentPlayer, pausedSessions, played := map[], Nobody, [], [];
    }

    method AddPlayerForKey(key: Key, player: Player)
      modifies this`players
      ensures players == old(players)[key := player]
    {
      players := players[key := player];
    }

    method RemovePlayerForKey(key: Key)
      modifies this`players, this`currentPlayer
      ensures View() == Remove(old(View()), key)
    {
      if key in players {
        if currentPlayer == Is(key) {
          currentPlayer := Nobody;
        }
        players := players - {key};
      }
    }

    /** False stands for std::out_of_range. */
    method SetCurrentPlayer(key: Key) returns (found: bool)
      modifies this`currentPlayer
      ensures found == (key in players)
      ensures currentPlayer == if found && players[key].role == Multimedia then Is(key) else old(currentPlayer)
    {
      if key !in players {
        return false;
      }
      if players[key].role == Multimedia {
        currentPlayer := Is(key);
      }
      found := true;
    }

    /** Walks the store in any order and comes to the same result. */
    method PauseOtherSessions(key: Key, order: seq<Key>, deaf: set<Key>)
      requires Enumerates(order, players)
      modifies this`players
      ensures View() == PauseOthers(old(View()), key, deaf)
    {
      if key !in players {
        return;
      }
      ghost var s := View();
      var i := 0;
      while i < |order|
        invariant 0 <= i <= |order|
        invariant players.Keys == s.players.Keys
        invariant forall k :: k in players ==>
                    players[k] == if k in order[..i] then PausedBy(s, key, deaf, k) else s.players[k]
      {
        var other := order[i];
        NotYetWalked(order, i);
        if players[other].status == Playing && other != key && players[key].role == Multimedia
           && players[other].role == Multimedia {
          if other !in deaf {
            players := players[other := players[other].(status := Paused)];
          }
        }
        i := i + 1;
      }
      assert order[..i] == order;
    }

    method PlaySession(key: Key, order: seq<Key>, deaf: set<Key>, ok: bool)
      requires key in players && Enumerates(order, players)
      modifies this`players, this`currentPlayer, this`played
      ensures View() == Play(old(View()), key, deaf, ok) && played == old(played) + [Start(key, ok)]
    {
      played := played + [Start(key, ok)];
      if players[key].role == Multimedia {
        PauseOtherSessions(key, order, deaf);
        var found := SetCurrentPlayer(key);
      }
      if ok {
        players := players[key := players[key].(status := Playing)];
      }
    }

    method PauseOne(key: Key, resume: bool, deaf: set<Key>)
      requires key in players
      modifies this`players, this`pausedSessions
      ensures players == old(players)[key := Silenced(old(players)[key], key !in deaf)]
      ensures pausedSessions == old(pausedSessions) + if Sounding(old(players)[key]) then [Entry(key, resume)] else []
    {
      if players[key].status == Playing && players[key].role == Multimedia {
        pausedSessions := pausedSessions + [Entry(key, resume)];
        if key !in deaf {
          players := players[key := players[key].(status := Paused)];
        }
      }
    }

    method PauseAllMultimediaSessions(resume: bool, order: seq<Key>, deaf: set<Key>)
      requires Enumerates(order, players)
      modifies this`players, this`pausedSessions
      ensures View() == PauseAll(old(View()), resume, order, deaf)
    {
      ghost var s := View();
      var i := 0;
      assert order[..0] == [] && Pausing(s.players, [], resume) == [];
      hide Silenced, Sounding, Distinct, Pausing;
      while i < |order|
        invariant 0 <= i <= |order|
        invariant players.Keys == s.players.Keys
        invariant forall k :: k in players ==>
                    players[k] == if k in order[..i] then Silenced(s.players[k], k !in deaf) else s.players[k]
        invariant pausedSessions == s.paused + Pausing(s.players, order[..i], resume)
      {
        var key := order[i];
        NotYetWalked(order, i);
        PausingStep(s.players, order, resume, i);
        PauseOne(key, resume, deaf);
        assert pausedSessions == s.paused + Pausing(s.players, order[..i + 1], resume);
        i := i + 1;
      }
      assert order[..i] == order;
    }

    method ResumeOne(e: Entry, video: bool, order: seq<Key>, deaf: set<Key>, ok: bool)
      requires Enumerates(order, players)
      modifies this`players, this`currentPlayer, this`played
      ensures View() == if Eligible(old(players), e, video) then Play(old(View()), e.key, deaf, ok) else old(View())
      ensures played == old(played) + if Eligible(old(players), e, video) then [Start(e.key, ok)] else []
    {
      if e.key !in players {
        return;
      }
      if (video || players[e.key].isAudioSource) && e.resume {
        PlaySession(e.key, order, deaf, ok);
      }
    }

    method ResumePausedMultimediaSessions(video: bool, order: seq<Key>, deaf: set<Key>, oks: seq<bool>)
      requires Enumerates(order, players) && |oks| == |pausedSessions|
      modifies this`players, this`currentPlayer, this`pausedSessions, this`played
      ensures View() == ResumePaused(old(View()), video, deaf, oks)
      ensures played == old(played) + Resuming(old(players), old(pausedSessions), oks, video)
    {
      ghost var s := View();
      ResumedEnds(s, video, deaf, oks);
      hide Play, Eligible, Resumed, Resuming, ResumePaused;
      var i := 0;
      while i < |pausedSessions|
        invariant 0 <= i <= |pausedSessions|
        invariant pausedSessions == s.paused && players.Keys == s.players.Keys
        invariant View() == Resumed(s, video, deaf, oks, i)
        invariant played == old(played) + Resuming(s.players, s.paused[..i], oks[..i], video)
      {
        ResumingStep(s, video, deaf, oks, i);
        ResumeOne(pausedSessions[i], video, order, deaf, oks[i]);
        i := i + 1;
      }
      pausedSessions := [];
    }
  }

  /** The state once the first `i` entries have been dealt with. */
  ghost function Resumed(s: State, video: bool, deaf: set<Key>, oks: seq<bool>, i: nat): (t: State)
    requires i <= |s.paused| == |oks|
    ensures t.players.Keys == s.players.Keys && t.paused == s.paused
  {
    ResumingListed(s.players, s.paused[..i], oks[..i], video);
    PlayEach(s, Resuming(s.players, s.paused[..i], oks[..i], video), deaf)
  }

  lemma ResumedEnds(s: State, video: bool, deaf: set<Key>, oks: seq<bool>)
    requires |oks| == |s.paused|
    ensures Resumed(s, video, deaf, oks, 0) == s && Resuming(s.players, s.paused[..0], oks[..0], video) == []
    ensures ResumePaused(s, video, deaf, oks) == Resumed(s, video, deaf, oks, |s.paused|).(paused := [])
    ensures s.paused[..|s.paused|] == s.paused && oks[..|s.paused|] == oks
  {
    assert s.paused[..|s.paused|] == s.paused && oks[..|s.paused|] == oks;
    hide Play;
  }

  lemma NotYetWalked(order: seq<Key>, i: nat)
    requires Distinct(order) && i < |order|
    ensures order[i] !in order[..i]
    ensures forall k :: k in order[..i + 1] <==> k in order[..i] || k == order[i]
  {
    if order[i] in order[..i] {
      var j :| 0 <= j < i && order[..i][j] == order[i];
      DistinctAt(order, j, i);
    }
    assert order[..i + 1] == order[..i] + [order[i]];
  }

  lemma PausingStep(players: map<Key, Player>, order: seq<Key>, resume: bool, i: nat)
    requires i < |order|
    ensures Pausing(players, order[..i + 1], resume) == Pausing(players, order[..i], resume)
            + if order[i] in players && Sounding(players[order[i]]) then [Entry(order[i], resume)] else []
  {
    assert order[..i + 1][..i] == order[..i];
  }

  lemma ResumingStep(s: State, video: bool, deaf: set<Key>, oks: seq<bool>, i: nat)
    requires i < |s.paused| == |oks|
    ensures var t, e := Resumed(s, video, deaf, oks, i), s.paused[i];
            && Resuming(s.players, s.paused[..i + 1], oks[..i + 1], video)
               == Resuming(s.players, s.paused[..i], oks[..i], video)
                  + (if Eligible(t.players, e, video) then [Start(e.key, oks[i])] else [])
            && Resumed(s, video, deaf, oks, i + 1)
               == (if Eligible(t.players, e, video) then Play(t, e.key, deaf, oks[i]) else t)
  {
    hide Play;
    ResumingListed(s.players, s.paused[..i], oks[..i], video);
    ResumingListed(s.players, s.paused[..i + 1], oks[..i + 1], video);
    assert s.paused[..i + 1][..i] == s.paused[..i] && oks[..i + 1][..i] == oks[..i];
    var starts := Resuming(s.players, s.paused[..i], oks[..i], video);
    assert starts + [] == starts;
    if Eligible(s.players, s.paused[i], video) {
      assert (starts + [Start(s.paused[i].key, oks[i])])[..|starts|] == starts;
    }
  }
}
