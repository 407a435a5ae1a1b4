/** Counting of wakelocks by one player: playing takes a count at once, leaving
    playing starts a detached timer that gives it back four seconds later. */
module Wakelock {
  import opened Sequences

  datatype Kind = SystemLock | DisplayLock

  datatype EngineState = NoMedia | Ready | Busy | Playing | Paused | Stopped

  datatype Request = Acquire(kind: Kind) | Release(kind: Kind)

  /** A detached timer: what it will give back, and when it is due (ms). */
  datatype Timer = Timer(kind: Kind, due: nat)

  /** The counters are signed: a late timer may take them below zero. */
  datatype State = State(system: int, display: int, previous: EngineState, timers: seq<Timer>)

  datatype Outcome = Outcome(state: State, requests: seq<Request>)

  const CLEAR_DELAY: nat := 4000

  function KindOf(isVideo: bool): Kind {
    if isVideo then DisplayLock else SystemLock
  }

  function Count(s: State, k: Kind): int {
    if k == SystemLock then s.system else s.display
  }

  function WithCount(s: State, k: Kind, c: int): State {
    if k == SystemLock then s.(system := c) else s.(display := c)
  }

  function RequestPower(s: State, k: Kind): Outcome {
    Outcome(WithCount(s, k, Count(s, k) + 1), if Count(s, k) == 0 then [Acquire(k)] else [])
  }

  function GiveBack(s: State, k: Kind): Outcome {
    Outcome(WithCount(s, k, Count(s, k) - 1), if Count(s, k) == 1 then [Release(k)] else [])
  }

  /** States that start a clear timer when playing is left for them. */
  predicate Quiet(e: EngineState) {
    e == Ready || e == Paused || e == Stopped
  }

  function Change(s: State, e: EngineState, k: Kind, now: nat): Outcome {
    if e == Playing then
      var o := RequestPower(s, k);
      o.(state := o.state.(previous := Playing))
    else
      Outcome(s.(previous := e,
                 timers := s.timers + if Quiet(e) && s.previous == Playing then [Timer(k, now + CLEAR_DELAY)] else []),
              [])
  }

  function Expire(s: State, i: nat): Outcome
    requires i < |s.timers|
  {
    GiveBack(s.(timers := EraseAt(s.timers, i)), s.timers[i].kind)
  }

  /** Drops a positive count to nothing at once, whatever timers are pending. */
  function ClearOne(s: State, k: Kind): Outcome {
    if Count(s, k) > 0 then GiveBack(WithCount(s, k, 1), k) else Outcome(s, [])
  }

  function ClearAll(s: State): Outcome {
    var o := ClearOne(s, SystemLock);
    var p := ClearOne(o.state, DisplayLock);
    Outcome(p.state, o.requests + p.requests)
  }

  // --- Runs ---

  /** Timers are detached threads: any pending one may expire next. The locks may be
      cleared at any time on a player that lives on. */
  datatype Event = StateChange(to: EngineState, isVideo: bool, now: nat) | TimerExpiry(index: nat) | ClearLocks

  /** A run so far: the state, the kind playing was last entered with, and all
      requests made. History: how many playing intervals ended without starting a
      timer, how many counts were dropped by clearing, and, per kind, how many of its
      intervals ended less how many of its timers started and counts dropped. */
  datatype Run = Run(
    state: State,
    entered: Kind,
    leaks: nat,
    dropped: nat,
    systemDrift: int,
    displayDrift: int,
    requests: seq<Request>)

  /** A player that has just been made. */
  predicate IsStart(r: Run) {
    && r.state.system == r.state.display == 0 && r.state.previous == Stopped && |r.state.timers| == 0
    && r.leaks == r.dropped == r.systemDrift == r.displayDrift == |r.requests| == 0
  }

  predicate Enabled(r: Run, ev: Event) {
    ev.TimerExpiry? ==> ev.index < |r.state.timers|
  }

  function Drift(r: Run, k: Kind): int {
    if k == SystemLock then r.systemDrift else r.displayDrift
  }

  /** A playing interval of kind `k` ends with this event. */
  predicate Ends(r: Run, ev: Event, k: Kind) {
    ev.StateChange? && r.state.previous == Playing && r.entered == k
  }

  /** This event starts a timer of kind `k`. */
  predicate StartsTimer(r: Run, ev: Event, k: Kind) {
    ev.StateChange? && r.state.previous == Playing && Quiet(ev.to) && KindOf(ev.isVideo) == k
  }

  /** How many counts of kind `k` this event drops without a timer. */
  function Drops(r: Run, ev: Event, k: Kind): nat {
    if ev.ClearLocks? && Count(r.state, k) > 0 then Count(r.state, k) else 0
  }

  function Bit(b: bool): int { if b then 1 else 0 }

  /** What the player itself does at this event. */
  function Effect(s: State, ev: Event): Outcome
    requires ev.TimerExpiry? ==> ev.index < |s.timers|
  {
    match ev
    case StateChange(to, isVideo, now) => Change(s, to, KindOf(isVideo), now)
    case TimerExpiry(i) => Expire(s, i)
    case ClearLocks => ClearAll(s)
  }

  function Drifted(r: Run, ev: Event, k: Kind): int {
    Drift(r, k) + Bit(Ends(r, ev, k)) - Bit(StartsTimer(r, ev, k)) - Drops(r, ev, k)
  }

  function Step(r: Run, ev: Event): Run
    requires Enabled(r, ev)
  {
    var o := Effect(r.state, ev);
    Run(o.state,
        if ev.StateChange? && ev.to == Playing then KindOf(ev.isVideo) else r.entered,
        if ev.StateChange? && r.state.previous == Playing && !Quiet(ev.to) then r.leaks + 1 else r.leaks,
        r.dropped + Drops(r, ev, SystemLock) + Drops(r, ev, DisplayLock),
        Drifted(r, ev, SystemLock),
        Drifted(r, ev, DisplayLock),
        r.requests + o.requests)
  }

  predicate Legal(r: Run, evs: seq<Event>)
    decreases |evs|
  {
    evs == [] || (Enabled(r, evs[0]) && Legal(Step(r, evs[0]), evs[1..]))
  }

  function After(r: Run, evs: seq<Event>): Run
    requires Legal(r, evs)
    decreases |evs|
  {
    if evs == [] then r else After(Step(r, evs[0]), evs[1..])
  }

  function Pending(timers: seq<Timer>, k: Kind): nat {
    if timers == [] then 0 else Pending(timers[..|timers| - 1], k) + if timers[|timers| - 1].kind == k then 1 else 0
  }

  lemma {:induction false} PendingConcat(a: seq<Timer>, b: seq<Timer>, k: Kind)
    ensures Pending(a + b, k) == Pending(a, k) + Pending(b, k)
    decreases |b|
  {
    if b == [] {
      assert a + b == a;
    } else {
      var n := |b| - 1;
      PendingConcat(a, b[..n], k);
      assert (a + b)[..|a| + n] == a + b[..n];
    }
  }

  lemma PendingErase(timers: seq<Timer>, i: nat, k: Kind)
    requires i < |timers|
    ensures Pending(EraseAt(timers, i), k) == Pending(timers, k) - Bit(timers[i].kind == k)
  {
    PendingConcat(timers[..i], timers[i + 1..], k);
    PendingConcat(timers[..i], [timers[i]], k);
    PendingConcat(timers[..i + 1], timers[i + 1..], k);
    assert timers[..i + 1] == timers[..i] + [timers[i]];
    assert timers == timers[..i + 1] + timers[i + 1..];
    assert [timers[i]][..0] == [];
  }

  lemma {:induction false} PendingSplit(timers: seq<Timer>)
    ensures Pending(timers, SystemLock) + Pending(timers, DisplayLock) == |timers|
  {
    if timers != [] { PendingSplit(timers[..|timers| - 1]); }
  }

  /** 1 while playing with a source of kind `k`. */
  function Share(r: Run, k: Kind): int {
    Bit(r.state.previous == Playing && r.entered == k)
  }

  /** The books of one kind balance. */
  ghost predicate Balanced(r: Run, k: Kind) {
    Count(r.state, k) == Pending(r.state.timers, k) + Share(r, k) + Drift(r, k)
  }

  ghost predicate Accounted(r: Run) {
    Balanced(r, SystemLock) && Balanced(r, DisplayLock) && r.systemDrift + r.displayDrift == r.leaks - r.dropped
  }

  lemma ChangeTimers(s: State, e: EngineState, kind: Kind, now: nat, k: Kind)
    ensures var t := Change(s, e, kind, now).state;
            && t.previous == e
            && Count(t, k) == Count(s, k) + Bit(e == Playing && kind == k)
            && Pending(t.timers, k) == Pending(s.timers, k) + Bit(Quiet(e) && s.previous == Playing && kind == k)
  {
    var timer := Timer(kind, now + CLEAR_DELAY);
    PendingConcat(s.timers, [timer], k);
    assert Pending([timer], k) == Bit(kind == k) by { assert [timer][..0] == []; }
    assert s.timers + [] == s.timers;
    hide Pending;
  }

  lemma ChangeBalances(r: Run, ev: Event, k: Kind)
    requires Balanced(r, k) && ev.StateChange?
    ensures Balanced(Step(r, ev), k)
  {
    ChangeTimers(r.state, ev.to, KindOf(ev.isVideo), ev.now, k);
    hide Change, Pending, Count, KindOf;
  }

  lemma StepBalances(r: Run, ev: Event, k: Kind)
    requires Balanced(r, k) && Enabled(r, ev)
    ensures Balanced(Step(r, ev), k)
  {
    if ev.StateChange? {
      ChangeBalances(r, ev, k);
    } else {
      if ev.TimerExpiry? { PendingErase(r.state.timers, ev.index, k); }
      hide Pending;
    }
  }

  /** In every interleaving, with no assumption on the states or the source: each
      count is its pending timers, plus one while playing with its kind, plus the
      intervals of its kind whose timer was never started or went to the other, less
      the counts of its kind dropped by clearing. */
  lemma {:induction false} CountsAccounted(r: Run, evs: seq<Event>)
    requires Accounted(r) && Legal(r, evs)
    ensures Accounted(After(r, evs))
    decreases |evs|
  {
    if evs != [] {
      StepBalances(r, evs[0], SystemLock);
      StepBalances(r, evs[0], DisplayLock);
      CountsAccounted(Step(r, evs[0]), evs[1..]);
    }
  }

  /** Both counts together are the pending timers plus one if playing exactly when as
      many playing intervals ended without a timer as counts were dropped. Before the
      first clearing none are dropped; then it holds exactly when playing was only ever
      left for ready, paused or stopped. */
  lemma SumIsPendingIff(start: Run, evs: seq<Event>)
    requires IsStart(start) && Legal(start, evs)
    ensures var r := After(start, evs);
            r.state.system + r.state.display == |r.state.timers| + Bit(r.state.previous == Playing)
            <==> r.leaks == r.dropped
    ensures ClearLocks !in evs ==> After(start, evs).dropped == 0
  {
    CountsAccounted(start, evs);
    if ClearLocks !in evs { NothingDropped(start, evs); }
    hide After, Legal;
    PendingSplit(After(start, evs).state.timers);
  }

  lemma {:induction false} NothingDropped(r: Run, evs: seq<Event>)
    requires Legal(r, evs) && ClearLocks !in evs
    ensures After(r, evs).dropped == r.dropped
    decreases |evs|
  {
    if evs != [] { NothingDropped(Step(r, evs[0]), evs[1..]); }
  }

  /** Leaving playing for ready, paused or stopped starts one timer, due four seconds
      later and for the source then; no other change of state starts one, and only
      playing counts. */
  lemma TimerStartsIff(s: State, e: EngineState, k: Kind, now: nat)
    ensures var t := Change(s, e, k, now).state;
            && t.previous == e
            && (s.previous == Playing && e in {Ready, Paused, Stopped} ==>
                  t.timers == s.timers + [Timer(k, now + 4000)])
            && (s.previous != Playing || e in {NoMedia, Busy, Playing} ==> t.timers == s.timers)
            && (e != Playing ==> t.system == s.system && t.display == s.display)
    ensures KindOf(true) == DisplayLock && KindOf(false) == SystemLock
  {
  }

  // --- When the lock is held ---

  /** The lock of kind `k` is held after these requests. */
  function Held(requests: seq<Request>, k: Kind): bool {
    if requests == [] then false
    else
      var last := requests[|requests| - 1];
      if last.kind == k then last.Acquire? else Held(requests[..|requests| - 1], k)
  }

  /** For each kind, acquire and release alternate, beginning with acquire. */
  predicate Alternating(requests: seq<Request>) {
    requests == [] ||
    (var front, last := requests[..|requests| - 1], requests[|requests| - 1];
     Alternating(front) && (last.Acquire? <==> !Held(front, last.kind)))
  }

  /** Requests alternate and each lock is held iff its count is positive. */
  ghost predicate Agrees(s: State, requests: seq<Request>) {
    && Alternating(requests)
    && (Held(requests, SystemLock) <==> s.system > 0)
    && (Held(requests, DisplayLock) <==> s.display > 0)
  }

  ghost predicate Orderly(r: Run) {
    Accounted(r) && Agrees(r.state, r.requests)
  }

  lemma OneRequest(requests: seq<Request>, q: Request)
    ensures Held(requests + [q], q.kind) <==> q.Acquire?
    ensures forall k :: k != q.kind ==> (Held(requests + [q], k) <==> Held(requests, k))
    ensures Alternating(requests) && (q.Acquire? <==> !Held(requests, q.kind)) ==> Alternating(requests + [q])
  {
    assert (requests + [q])[..|requests|] == requests;
  }

  lemma TakenAgrees(s: State, requests: seq<Request>, k: Kind)
    requires Agrees(s, requests)
    ensures var o := RequestPower(s, k); Agrees(o.state, requests + o.requests)
  {
    OneRequest(requests, Acquire(k));
    assert requests + [] == requests;
  }

  lemma GivenBackAgrees(s: State, requests: seq<Request>, k: Kind)
    requires Agrees(s, requests)
    ensures var o := GiveBack(s, k); Agrees(o.state, requests + o.requests)
    ensures var o := ClearOne(s, k); Agrees(o.state, requests + o.requests)
  {
    OneRequest(requests, Release(k));
    assert requests + [] == requests;
  }

  lemma EffectAgrees(s: State, requests: seq<Request>, ev: Event)
    requires Agrees(s, requests) && (ev.TimerExpiry? ==> ev.index < |s.timers|)
    ensures var o := Effect(s, ev); Agrees(o.state, requests + o.requests)
  {
    hide Alternating, Held;
    match ev
    case StateChange(to, isVideo, now) =>
      TakenAgrees(s, requests, KindOf(isVideo));
      assert requests + [] == requests;
    case TimerExpiry(i) =>
      GivenBackAgrees(s.(timers := EraseAt(s.timers, i)), requests, s.timers[i].kind);
    case ClearLocks =>
      var o := ClearOne(s, SystemLock);
      GivenBackAgrees(s, requests, SystemLock);
      GivenBackAgrees(o.state, requests + o.requests, DisplayLock);
      var p := ClearOne(o.state, DisplayLock);
      assert requests + (o.requests + p.requests) == requests + o.requests + p.requests;
  }

  lemma StepOrderly(r: Run, ev: Event)
    requires Orderly(r) && Enabled(r, ev)
    ensures Orderly(Step(r, ev))
  {
    hide Agrees;
    StepBalances(r, ev, SystemLock);
    StepBalances(r, ev, DisplayLock);
    EffectAgrees(r.state, r.requests, ev);
  }

  lemma {:induction false} RunsAreOrderly(r: Run, evs: seq<Event>)
    requires Orderly(r) && Legal(r, evs)
    ensures Orderly(After(r, evs))
    decreases |evs|
  {
    if evs != [] {
      StepOrderly(r, evs[0]);
      RunsAreOrderly(Step(r, evs[0]), evs[1..]);
    }
  }

  /** In every interleaving from a new player, with no assumption at all: acquire and
      release requests alternate, the lock is held iff the count is positive, and the
      count is pending timers, playing share and drift. */
  lemma FromTheStart(start: Run, evs: seq<Event>, k: Kind)
    requires IsStart(start) && Legal(start, evs)
    ensures var r := After(start, evs);
            && Alternating(r.requests)
            && (Held(r.requests, k) <==> Count(r.state, k) > 0)
            && Count(r.state, k) == Pending(r.state.timers, k) + Share(r, k) + Drift(r, k)
  {
    RunsAreOrderly(start, evs);
    hide After, Legal;
  }

  /** Once nothing plays and no timer is pending, a lock is still held exactly when
      its intervals outnumber the timers started and counts dropped for it. */
  lemma IdleHeldIff(start: Run, evs: seq<Event>, k: Kind)
    requires IsStart(start) && Legal(start, evs)
    requires After(start, evs).state.previous != Playing && |After(start, evs).state.timers| == 0
    ensures Held(After(start, evs).requests, k) <==> Drift(After(start, evs), k) > 0
  {
    FromTheStart(start, evs, k);
  }

  /** While playing with kind `k` its lock is held exactly when the pending timers of
      that kind are not outnumbered by what is to be made up for. */
  lemma PlayingHeldIff(start: Run, evs: seq<Event>, k: Kind)
    requires IsStart(start) && Legal(start, evs) && Share(After(start, evs), k) == 1
    ensures Held(After(start, evs).requests, k)
       <==> Pending(After(start, evs).state.timers, k) >= -Drift(After(start, evs), k)
  {
    FromTheStart(start, evs, k);
  }

  /** In every interleaving a timer releases a lock exactly when it is of that kind
      and brings pending timers, playing share and drift together down to nothing;
      clearing does when they are positive; nothing else does. */
  lemma ReleasedIff(r: Run, ev: Event, k: Kind)
    requires Accounted(r) && Enabled(r, ev)
    ensures Release(k) in Effect(r.state, ev).requests
       <==> match ev
            case StateChange(_, _, _) => false
            case TimerExpiry(i) =>
              r.state.timers[i].kind == k && Pending(r.state.timers, k) + Share(r, k) + Drift(r, k) == 1
            case ClearLocks => Pending(r.state.timers, k) + Share(r, k) + Drift(r, k) > 0
  {
  }

  // --- Runs that keep the source type while playing ---

  /** Playing is left only for a quiet state, and with the source type it was
      entered with; locks are not cleared. */
  predicate Disciplined(r: Run, ev: Event) {
    && !ev.ClearLocks?
    && (ev.StateChange? && r.state.previous == Playing ==> Quiet(ev.to) && KindOf(ev.isVideo) == r.entered)
  }

  predicate DisciplinedRun(r: Run, evs: seq<Event>)
    requires Legal(r, evs)
    decreases |evs|
  {
    evs == [] || (Disciplined(r, evs[0]) && DisciplinedRun(Step(r, evs[0]), evs[1..]))
  }

  /** If each playing interval keeps its source type nothing drifts: each count is its
      own pending timers plus its own playing share. */
  lemma {:induction false} DisciplinedRunsDoNotDrift(r: Run, evs: seq<Event>, k: Kind)
    requires Legal(r, evs) && DisciplinedRun(r, evs)
    ensures Drift(After(r, evs), k) == Drift(r, k)
    decreases |evs|
  {
    if evs != [] { DisciplinedRunsDoNotDrift(Step(r, evs[0]), evs[1..], k); }
  }

  lemma DisciplinedCounts(start: Run, evs: seq<Event>, k: Kind)
    requires IsStart(start) && Legal(start, evs) && DisciplinedRun(start, evs)
    ensures Count(After(start, evs).state, k)
         == Pending(After(start, evs).state.timers, k) + Share(After(start, evs), k)
  {
    FromTheStart(start, evs, k);
    DisciplinedRunsDoNotDrift(start, evs, k);
  }

  /** Then a lock is released exactly when its last timer expires and nothing plays
      with that kind; so never while playing with it. */
  lemma ReleasedOnlyWhenIdle(start: Run, evs: seq<Event>, i: nat, k: Kind)
    requires IsStart(start) && Legal(start, evs) && DisciplinedRun(start, evs)
    requires i < |After(start, evs).state.timers|
    ensures var r := After(start, evs);
            Release(k) in Expire(r.state, i).requests
            <==> r.state.timers[i].kind == k && Pending(r.state.timers, k) == 1 && Share(r, k) == 0
  {
    RunsAreOrderly(start, evs);
    DisciplinedRunsDoNotDrift(start, evs, k);
    hide After, Legal, DisciplinedRun;
    var r := After(start, evs);
    ReleasedIff(r, TimerExpiry(i), k);
    PendingErase(r.state.timers, i, k);
  }

  /** An input on which a lock taken is still held once idle: one video interval left
      as audio. The display count stays one, the system count falls below zero. */
  lemma SourceTypeChangeKeepsTheLock(start: Run, now: nat, later: nat)
    requires IsStart(start)
    ensures var evs := [StateChange(Playing, true, now), StateChange(Paused, false, later), TimerExpiry(0)];
            && Legal(start, evs)
            && var r := After(start, evs);
            |r.state.timers| == 0 && r.state.display == 1 && r.state.system == -1
            && Held(r.requests, DisplayLock)
  {
    var play, pause, expiry := StateChange(Playing, true, now), StateChange(Paused, false, later), TimerExpiry(0);
    var r1 := Step(start, play);
    var r2 := Step(r1, pause);
    var r3 := Step(r2, expiry);
    ThreeSteps(start, play, pause, expiry);
    OneRequest(start.requests, Acquire(DisplayLock));
    assert r3.requests == start.requests + [Acquire(DisplayLock)];
  }

  lemma ThreeSteps(r: Run, a: Event, b: Event, c: Event)
    requires Enabled(r, a) && Enabled(Step(r, a), b) && Enabled(Step(Step(r, a), b), c)
    ensures Legal(r, [a, b, c]) && After(r, [a, b, c]) == Step(Step(Step(r, a), b), c)
  {
    hide Step, Enabled;
    assert [a, b, c][1..] == [b, c] && [b, c][1..] == [c] && [c][1..] == [];
    assert Legal(Step(Step(r, a), b), [c]) && Legal(Step(r, a), [b, c]);
    assert After(Step(Step(r, a), b), [c]) == Step(Step(Step(r, a), b), c);
  }

  // --- Clearing while timers are pending ---

  function ExpireAll(s: State): (t: State)
    ensures t.timers == [] && t.previous == s.previous
    decreases |s.timers|
  {
    if s.timers == [] then s else ExpireAll(Expire(s, |s.timers| - 1).state)
  }

  lemma {:induction false} ExpireAllCounts(s: State, k: Kind)
    ensures Count(ExpireAll(s), k) == Count(s, k) - Pending(s.timers, k)
    decreases |s.timers|
  {
    if s.timers != [] {
      var i := |s.timers| - 1;
      PendingErase(s.timers, i, k);
      ExpireAllCounts(Expire(s, i).state, k);
    }
  }

  /** Clearing all locks on a player that lives on, and then the state change that
      ends the interval playing at that moment, if any. */
  function ClearedAndLeft(s: State, e: EngineState, isVideo: bool, now: nat): State {
    Change(ClearAll(s).state, e, KindOf(isVideo), now).state
  }

  /** A clearing takes no timer back, and an interval playing at that moment still
      starts its own. */
  lemma ClearedTimers(s: State, e: EngineState, isVideo: bool, now: nat, k: Kind)
    requires e != Playing
    ensures var t := ClearedAndLeft(s, e, isVideo, now);
            && Count(t, k) == (if Count(s, k) > 0 then 0 else Count(s, k))
            && t.timers == s.timers + (if s.previous == Playing && Quiet(e)
                                       then [Timer(KindOf(isVideo), now + CLEAR_DELAY)] else [])
            && Pending(t.timers, k)
               == Pending(s.timers, k) + Bit(Quiet(e) && s.previous == Playing && KindOf(isVideo) == k)
  {
    ChangeTimers(ClearAll(s).state, e, KindOf(isVideo), now, k);
    hide Pending;
  }

  /** If all timers then expire before the next playing interval, that interval
      requests its lock exactly if the count was not below zero, no timer of its kind
      was pending at the clearing, and no interval playing then started one. */
  lemma ClearThenPlayAcquiresIff(s: State, e: EngineState, isVideo: bool, now: nat, k: Kind)
    requires e != Playing
    ensures RequestPower(ExpireAll(ClearedAndLeft(s, e, isVideo, now)), k).requests == [Acquire(k)]
       <==> Count(s, k) >= 0 && Pending(s.timers, k) == 0
            && !(s.previous == Playing && Quiet(e) && KindOf(isVideo) == k)
  {
    ClearedTimers(s, e, isVideo, now, k);
    ExpireAllCounts(ClearedAndLeft(s, e, isVideo, now), k);
    hide ExpireAll, ClearedAndLeft, Pending;
  }

  /** If the next playing interval comes before a timer, it requests its lock exactly if
      the count was not below zero, and then the next timer to expire takes the lock
      away while playing exactly if it is of that kind. */
  lemma ClearThenExpiryReleasesIff(s: State, e: EngineState, isVideo: bool, now: nat,
                                   again: bool, later: nat, i: nat)
    requires e != Playing && i < |ClearedAndLeft(s, e, isVideo, now).timers|
    ensures var k, t := KindOf(again), ClearedAndLeft(s, e, isVideo, now);
            var o := Effect(t, StateChange(Playing, again, later));
            && o.state.timers == t.timers && Expire(o.state, i).state.previous == Playing
            && (o.requests == [Acquire(k)] <==> Count(s, k) >= 0)
            && (Expire(o.state, i).requests == [Release(k)] <==> Count(s, k) >= 0 && t.timers[i].kind == k)
  {
    ClearedTimers(s, e, isVideo, now, KindOf(again));
    hide ClearedAndLeft, Pending;
  }

  // --- The player's own fields ---

  class PlayerPower {
    var systemWakelockCount: int
    var displayWakelockCount: int
    var previousState: EngineState
    var timers: seq<Timer>
    ghost var requests: seq<Request>

    function View(): State
      reads this
    {
      State(systemWakelockCount, displayWakelockCount, previousState, timers)
    }

    constructor ()
      ensures View() == State(0, 0, Stopped, []) && requests == []
    {
      systemWakelockCount, displayWakelockCount, previousState, timers := 0, 0, Stopped, [];
      requests := [];
    }

    method RequestPowerState(isVideoSource: bool)
      modifies this`systemWakelockCount, this`displayWakelockCount, this`requests
      ensures View() == RequestPower(old(View()), KindOf(isVideoSource)).state
      ensures requests == old(requests) + RequestPower(old(View()), KindOf(isVideoSource)).requests
    {
      if isVideoSource {
        displayWakelockCount := displayWakelockCount + 1;
        if displayWakelockCount == 1 {
          requests := requests + [Acquire(DisplayLock)];
        }
      } else {
        systemWakelockCount := systemWakelockCount + 1;
        if systemWakelockCount == 1 {
          requests := requests + [Acquire(SystemLock)];
        }
      }
    }

    method ClearWakelock(wakelock: Kind)
      modifies this`systemWakelockCount, this`displayWakelockCount, this`requests
      ensures View() == GiveBack(old(View()), wakelock).state
      ensures requests == old(requests) + GiveBack(old(View()), wakelock).requests
    {
      match wakelock
      case SystemLock =>
        systemWakelockCount := systemWakelockCount - 1;
        if systemWakelockCount == 0 {
          requests := requests + [Release(SystemLock)];
        }
      case DisplayLock =>
        displayWakelockCount := displayWakelockCount - 1;
        if displayWakelockCount == 0 {
          requests := requests + [Release(DisplayLock)];
        }
    }

    /** The engine's state property only signals changes; the kind a timer will
        clear is the source's kind when it is started. */
    method OnEngineStateChanged(state: EngineState, isVideoSource: bool, now: nat)
      modifies this
      ensures View() == Change(old(View()), state, KindOf(isVideoSource), now).state
      ensures requests == old(requests) + Change(old(View()), state, KindOf(isVideoSource), now).requests
    {
      match state {
        case Ready | Stopped | Paused =>
          if previousState == Playing {
            timers := timers + [Timer(KindOf(isVideoSource), now + CLEAR_DELAY)];
          }
        case Playing =>
          RequestPowerState(isVideoSource);
        case _ =>
      }
      previousState := state;
    }

    method OnTimeout(i: nat)
      requires i < |timers|
      modifies this
      ensures View() == Expire(old(View()), i).state
      ensures requests == old(requests) + Expire(old(View()), i).requests
    {
      var wakelockType := timers[i].kind;
      timers := EraseAt(timers, i);
      ClearWakelock(wakelockType);
    }

    method ClearWakelocks()
      modifies this
      ensures View() == ClearAll(old(View())).state
      ensures requests == old(requests) + ClearAll(old(View())).requests
    {
      if systemWakelockCount > 0 {
        systemWakelockCount := 1;
        ClearWakelock(SystemLock);
      }
      if displayWakelockCount > 0 {
        displayWakelockCount := 1;
        ClearWakelock(DisplayLock);
      }
    }
  }
}
