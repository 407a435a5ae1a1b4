/** The player's counting and the display lock together, in time: a session with a
    video source, whose releases come from the player's own four-second timers. */
module TimedDisplay {
  import W = Wakelock
  import L = DisplayLock
  import opened Sequences

  /** `lastChange` is the time of the last engine state change (all times in ms). */
  datatype State = State(now: nat, lastChange: nat, player: W.State, lock: L.State)

  datatype Event =
    | Tick(to: nat)
    | EngineChange(state: W.EngineState)
    | PlayerTimer(i: nat)
    | LockEvent(ev: L.Event)

  /** The player's requests reach the lock at once. */
  function Forward(lock: L.State, requests: seq<W.Request>, now: nat): L.State {
    if requests == [W.Acquire(W.DisplayLock)] then L.Acquire(lock, L.On)
    else if requests == [W.Release(W.DisplayLock)] then L.Release(lock, L.On, now)
    else lock
  }

  /** Timers are urgent: time does not pass a timer that is due, nor a queued
      handler of the lock. */
  predicate MayPass(s: State, to: nat) {
    && s.now < to
    && (forall i :: 0 <= i < |s.player.timers| ==> to <= s.player.timers[i].due)
    && (forall i :: 0 <= i < |s.lock.waits| ==> to <= s.lock.waits[i].due && s.lock.waits[i].status == L.Armed)
  }

  /** What the argument rests on: engine states change at strictly increasing times;
      the service answers each keepDisplayOn with a fresh cookie, before the release
      that matches it. */
  predicate Enabled(s: State, ev: Event) {
    match ev
    case Tick(to) => MayPass(s, to)
    case EngineChange(_) => s.lastChange < s.now
    case PlayerTimer(i) =>
      && i < |s.player.timers| && s.player.timers[i].due <= s.now
      && (W.Expire(s.player, i).requests == [] || s.lock.acquiring == 0)
    case LockEvent(le) =>
      && L.Enabled(s.lock, le)
      && !le.RequestAcquire? && !le.RequestRelease?
      && (le.KeepDisplayOnReply? ==> le.reply.Granted?)
      && (le.TimeUp? ==> s.lock.waits[le.i].due <= s.now)
  }

  function Step(s: State, ev: Event): State
    requires Enabled(s, ev)
  {
    match ev
    case Tick(to) => s.(now := to)
    case EngineChange(state) =>
      var o := W.Change(s.player, state, W.DisplayLock, s.now);
      s.(lastChange := s.now, player := o.state, lock := Forward(s.lock, o.requests, s.now))
    case PlayerTimer(i) =>
      var o := W.Expire(s.player, i);
      s.(player := o.state, lock := Forward(s.lock, o.requests, s.now))
    case LockEvent(le) => s.(lock := L.Step(s.lock, le))
  }

  predicate Legal(s: State, evs: seq<Event>)
    decreases |evs|
  {
    evs == [] || (Enabled(s, evs[0]) && Legal(Step(s, evs[0]), evs[1..]))
  }

  function After(s: State, evs: seq<Event>): State
    requires Legal(s, evs)
    decreases |evs|
  {
    if evs == [] then s else After(Step(s, evs[0]), evs[1..])
  }

  predicate IsStart(s: State) {
    && L.IsStart(s.lock) && s.lastChange <= s.now
    && s.player.display == 0 && s.player.previous != W.Playing && |s.player.timers| == 0
  }

  // --- Clocks ---

  predicate IsPlaying(s: State) {
    s.player.previous == W.Playing
  }

  ghost predicate TimerOnTime(s: State, t: W.Timer) {
    t.kind == W.DisplayLock && s.now <= t.due <= s.lastChange + W.CLEAR_DELAY
  }

  /** A release is waiting: its time has not passed, every player timer is due after
      it, and so is every timer that leaving the present playing state will start. */
  ghost predicate WaitOnTime(s: State, w: L.Wait) {
    && w.status != L.Aborted
    && s.now <= w.due <= s.now + L.RELEASE_DELAY
    && w.due <= s.lastChange + W.CLEAR_DELAY + L.RELEASE_DELAY
    && (forall i :: 0 <= i < |s.player.timers| ==> w.due < s.player.timers[i].due)
    && (IsPlaying(s) ==> w.due <= s.lastChange + W.CLEAR_DELAY)
  }

  ghost predicate Clocks(s: State) {
    && s.lastChange <= s.now
    && (forall i :: 0 <= i < |s.player.timers| ==> TimerOnTime(s, s.player.timers[i]))
    && s.player.display >= |s.player.timers| + W.Bit(IsPlaying(s))
    && |s.lock.waits| <= 1
    && (|s.lock.waits| == 1 ==> WaitOnTime(s, s.lock.waits[0]))
  }

  // --- Books ---

  function Waiting(l: L.State): seq<int> {
    if |l.waits| == 0 then [] else [l.waits[0].cookie]
  }

  /** The cookie of an acquisition that has been answered and not been released. */
  function HeldCookie(s: State): seq<int> {
    if s.player.display > 0 && s.lock.acquiring == 0 then [s.lock.cookie] else []
  }

  /** Every cookie granted so far is, in order: given back, or waiting to be given
      back, or held. No cookie was granted twice. */
  ghost predicate Books(s: State) {
    && s.lock.granted == s.lock.removed + Waiting(s.lock) + HeldCookie(s)
    && Distinct(s.lock.granted)
    && s.lock.acquiring <= 1 && (s.lock.acquiring == 1 ==> s.player.display > 0)
  }

  ghost predicate Sound(s: State) {
    Clocks(s) && Books(s) && L.Safe(s.lock)
  }

  lemma TickSound(s: State, to: nat)
    requires Sound(s) && MayPass(s, to)
    ensures Sound(s.(now := to))
  {
    var t := s.(now := to);
    forall i | 0 <= i < |t.player.timers| ensures TimerOnTime(t, t.player.timers[i]) {
      assert TimerOnTime(s, s.player.timers[i]);
    }
  }

  lemma ChangeClocks(s: State, e: W.EngineState)
    requires Clocks(s) && s.lastChange < s.now
    ensures Clocks(Step(s, EngineChange(e)))
  {
    var t := Step(s, EngineChange(e));
    forall i | 0 <= i < |t.player.timers| ensures TimerOnTime(t, t.player.timers[i]) {
      if i < |s.player.timers| { assert TimerOnTime(s, s.player.timers[i]); }
    }
  }

  lemma ChangeBooks(s: State, e: W.EngineState)
    requires Sound(s) && s.lastChange < s.now
    ensures Books(Step(s, EngineChange(e))) && L.Safe(Step(s, EngineChange(e)).lock)
  {
    L.StepSafe(s.lock, L.RequestAcquire(L.On));
  }

  /** A player timer that gives back the last count does so when nothing waits. */
  lemma NothingWaitsAtRelease(s: State, i: nat)
    requires Sound(s) && Enabled(s, PlayerTimer(i)) && s.player.display == 1
    ensures s.player.timers[i].kind == W.DisplayLock
    ensures |s.lock.waits| == 0 && |s.player.timers| == 1 && !IsPlaying(s)
    ensures s.lock.acquiring == 0 && HeldCookie(s) == [s.lock.cookie] && s.lock.cookie != L.INVALID_COOKIE
  {
    assert TimerOnTime(s, s.player.timers[i]);
    assert s.lock.cookie in s.lock.granted by {
      assert s.lock.granted[|s.lock.granted| - 1] == s.lock.cookie;
    }
  }

  lemma ReleaseSound(s: State, i: nat)
    requires Sound(s) && Enabled(s, PlayerTimer(i)) && s.player.display == 1
    ensures Sound(Step(s, PlayerTimer(i)))
  {
    NothingWaitsAtRelease(s, i);
    assert TimerOnTime(s, s.player.timers[i]);
    L.StepSafe(s.lock, L.RequestRelease(L.On, s.now));
    var t := Step(s, PlayerTimer(i));
    assert |t.player.timers| == 0;
    assert t.lock.waits == [L.Wait(s.lock.cookie, s.now + L.RELEASE_DELAY, L.Armed)];
    assert s.lock.removed + [] + [s.lock.cookie] == s.lock.removed + [s.lock.cookie] + [];
  }

  lemma CountDownSound(s: State, i: nat)
    requires Sound(s) && Enabled(s, PlayerTimer(i)) && s.player.display != 1
    ensures Sound(Step(s, PlayerTimer(i)))
  {
    var t := Step(s, PlayerTimer(i));
    assert TimerOnTime(s, s.player.timers[i]);
    forall j | 0 <= j < |t.player.timers|
      ensures TimerOnTime(t, t.player.timers[j]) && t.player.timers[j] == s.player.timers[if j < i then j else j + 1]
    {
      assert TimerOnTime(s, s.player.timers[if j < i then j else j + 1]);
    }
  }

  lemma ReplySound(s: State, c: int)
    requires Sound(s) && Enabled(s, LockEvent(L.KeepDisplayOnReply(L.Granted(c))))
    ensures Sound(Step(s, LockEvent(L.KeepDisplayOnReply(L.Granted(c)))))
  {
    var t := Step(s, LockEvent(L.KeepDisplayOnReply(L.Granted(c))));
    L.StepSafe(s.lock, L.KeepDisplayOnReply(L.Granted(c)));
    InsertKeepsDistinct(s.lock.granted, |s.lock.granted|, c);
    assert InsertAt(s.lock.granted, |s.lock.granted|, c) == t.lock.granted;
    assert t.lock.granted == s.lock.removed + Waiting(s.lock) + [c];
  }

  lemma LockTimerSound(s: State, le: L.Event)
    requires Sound(s) && Enabled(s, LockEvent(le)) && (le.TimeUp? || le.HandlerRuns?)
    ensures Sound(Step(s, LockEvent(le)))
  {
    var t := Step(s, LockEvent(le));
    L.StepSafe(s.lock, le);
    if le.HandlerRuns? {
      assert |t.lock.waits| == 0;
      assert s.lock.removed + [s.lock.waits[0].cookie] == t.lock.removed + [];
    }
  }

  lemma RemoveReplySound(s: State, i: nat, ok: bool)
    requires Sound(s) && Enabled(s, LockEvent(L.RemoveReply(i, ok)))
    ensures Sound(Step(s, LockEvent(L.RemoveReply(i, ok))))
  {
    L.StepSafe(s.lock, L.RemoveReply(i, ok));
    var c, g := s.lock.removing[i], s.lock.granted;
    if HeldCookie(s) != [] {
      assert c in s.lock.removed;
      var j :| 0 <= j < |s.lock.removed| && s.lock.removed[j] == c;
      assert g[j] == c && g[|g| - 1] == s.lock.cookie;
      DistinctAt(g, j, |g| - 1);
    }
  }

  lemma StepSound(s: State, ev: Event)
    requires Sound(s) && Enabled(s, ev)
    ensures Sound(Step(s, ev))
  {
    hide Sound;
    match ev
    case Tick(to) => TickSound(s, to);
    case EngineChange(e) => EngineSound(s, e);
    case PlayerTimer(i) =>
      if s.player.display == 1 { ReleaseSound(s, i); } else { CountDownSound(s, i); }
    case LockEvent(le) =>
      match le
      case KeepDisplayOnReply(reply) => ReplySound(s, reply.cookie);
      case RemoveReply(i, ok) => RemoveReplySound(s, i, ok);
      case _ => LockTimerSound(s, le);
  }

  lemma EngineSound(s: State, e: W.EngineState)
    requires Sound(s) && s.lastChange < s.now
    ensures Sound(Step(s, EngineChange(e)))
  {
    ChangeClocks(s, e);
    ChangeBooks(s, e);
    hide Clocks, Books, Step;
  }

  lemma {:induction false} RunSound(s: State, evs: seq<Event>)
    requires Sound(s) && Legal(s, evs)
    ensures Sound(After(s, evs))
    decreases |evs|
  {
    if evs != [] {
      hide Sound;
      StepSound(s, evs[0]);
      RunSound(Step(s, evs[0]), evs[1..]);
    }
  }

  lemma StartSound(s: State)
    requires IsStart(s)
    ensures Sound(s)
  {
  }

  /** A scheduled removal is never called off by a later release. */
  lemma NeverCalledOff(start: State, evs: seq<Event>)
    requires IsStart(start) && Legal(start, evs)
    ensures forall i :: 0 <= i < |After(start, evs).lock.waits| ==> After(start, evs).lock.waits[i].status != L.Aborted
  {
    StartSound(start);
    hide Sound, After, Legal;
    RunSound(start, evs);
    SoundNotAborted(After(start, evs));
  }

  lemma SoundNotAborted(s: State)
    requires Sound(s)
    ensures forall i :: 0 <= i < |s.lock.waits| ==> s.lock.waits[i].status != L.Aborted
  {
  }

  /** At every moment the granted cookies are, in the order granted: those given
      back, then at most one whose release is waiting, then at most one still held;
      and no cookie was granted, and so none given back, twice. */
  lemma CookiesConserved(start: State, evs: seq<Event>)
    requires IsStart(start) && Legal(start, evs)
    ensures var s := After(start, evs);
            && s.lock.granted == s.lock.removed + Waiting(s.lock) + HeldCookie(s)
            && Distinct(s.lock.granted) && Distinct(s.lock.removed)
  {
    StartSound(start);
    RunSound(start, evs);
    var l := After(start, evs).lock;
    forall i, j ensures Differ(l.removed, i, j) {
      assert Differ(l.granted, i, j);
    }
  }

  /** Once the count is down and eight seconds have passed since the last engine
      state change, every cookie ever granted has been given back, exactly once and
      in the order granted. */
  lemma AllGivenBackAfterEightSeconds(start: State, evs: seq<Event>)
    requires IsStart(start) && Legal(start, evs)
    requires var s := After(start, evs);
             s.player.display == 0 && s.now > s.lastChange + 8000
    ensures After(start, evs).lock.removed == After(start, evs).lock.granted
    ensures Distinct(After(start, evs).lock.removed)
  {
    StartSound(start);
    RunSound(start, evs);
    var s := After(start, evs);
    assert s.lock.removed + [] + [] == s.lock.removed;
  }

  // --- Sessions that leave playing only for a quiet state ---

  predicate QuietRun(s: State, evs: seq<Event>)
    requires Legal(s, evs)
    decreases |evs|
  {
    evs == [] ||
    ((evs[0].EngineChange? && IsPlaying(s) ==> W.Quiet(evs[0].state)) && QuietRun(Step(s, evs[0]), evs[1..]))
  }

  /** The count is exactly its timers and the playing share. */
  ghost predicate Even(s: State) {
    s.player.display == |s.player.timers| + W.Bit(IsPlaying(s))
  }

  lemma {:induction false} QuietRunEven(s: State, evs: seq<Event>)
    requires Sound(s) && Even(s) && Legal(s, evs) && QuietRun(s, evs)
    ensures Even(After(s, evs))
    decreases |evs|
  {
    if evs != [] {
      StepSound(s, evs[0]);
      if evs[0].PlayerTimer? { assert TimerOnTime(s, s.player.timers[evs[0].i]); }
      hide Sound;
      QuietRunEven(Step(s, evs[0]), evs[1..]);
    }
  }

  /** For a session that leaves playing only for ready, paused or stopped it is
      enough that it has not played for eight seconds. */
  lemma AllGivenBackWhenIdle(start: State, evs: seq<Event>)
    requires IsStart(start) && Legal(start, evs) && QuietRun(start, evs)
    requires var s := After(start, evs);
             !IsPlaying(s) && s.now > s.lastChange + 8000
    ensures After(start, evs).lock.removed == After(start, evs).lock.granted
    ensures Distinct(After(start, evs).lock.removed)
  {
    StartSound(start);
    RunSound(start, evs);
    QuietRunEven(start, evs);
    var s := After(start, evs);
    assert |s.player.timers| > 0 ==> TimerOnTime(s, s.player.timers[0]);
    AllGivenBackAfterEightSeconds(start, evs);
  }
}
