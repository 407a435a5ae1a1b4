/** The display lock: `keepDisplayOn` hands out cookies asynchronously, a release
    waits four seconds before it gives the cookie back, and a new release calls off
    the wait of an old one. */
module DisplayLock {
  import opened Sequences

  const INVALID_COOKIE: int := -1
  const RELEASE_DELAY: nat := 4000

  datatype DisplayState = On | Off

  /** An armed wait may still be called off; an elapsed or aborted one has its
      handler queued and can only run. */
  datatype Status = Armed | Elapsed | Aborted

  datatype Wait = Wait(cookie: int, due: nat, status: Status)

  /** `acquiring` calls of keepDisplayOn and `removing` calls of
      removeDisplayOnRequest are on their way; the rest is history: the cookies
      granted, those passed to removeDisplayOnRequest, and those whose removal was
      confirmed or failed. */
  datatype State = State(
    cookie: int,
    waits: seq<Wait>,
    acquiring: nat,
    removing: seq<int>,
    granted: seq<int>,
    removed: seq<int>,
    confirmed: seq<int>,
    failed: seq<int>)

  datatype AcquireReply = Granted(cookie: int) | Failed

  datatype Event =
    | RequestAcquire(state: DisplayState)
    | KeepDisplayOnReply(reply: AcquireReply)
    | RequestRelease(state: DisplayState, now: nat)
    | TimeUp(i: nat)
    | HandlerRuns(i: nat)
    | RemoveReply(i: nat, ok: bool)

  /** Fields as in a lock that was just made. */
  predicate IsStart(s: State) {
    s.cookie == INVALID_COOKIE && s.acquiring == 0
    && |s.waits| == |s.removing| == |s.granted| == |s.removed| == |s.confirmed| == |s.failed| == 0
  }

  function Abort(w: Wait): Wait {
    if w.status == Armed then w.(status := Aborted) else w
  }

  function AbortAll(waits: seq<Wait>): (ws: seq<Wait>)
    ensures |ws| == |waits| && forall i :: 0 <= i < |ws| ==> ws[i] == Abort(waits[i])
  {
    seq(|waits|, i requires 0 <= i < |waits| => Abort(waits[i]))
  }

  function Acquire(s: State, state: DisplayState): State {
    if state == Off then s else s.(acquiring := s.acquiring + 1)
  }

  function Reply(s: State, reply: AcquireReply): State
    requires s.acquiring > 0
  {
    var t := s.(acquiring := s.acquiring - 1);
    if reply.Failed? then t else t.(cookie := reply.cookie, granted := s.granted + [reply.cookie])
  }

  function Release(s: State, state: DisplayState, now: nat): State {
    if state == Off || s.cookie == INVALID_COOKIE then s
    else s.(waits := AbortAll(s.waits) + [Wait(s.cookie, now + RELEASE_DELAY, Armed)])
  }

  function RunHandler(s: State, i: nat): State
    requires i < |s.waits|
  {
    var w, t := s.waits[i], s.(waits := EraseAt(s.waits, i));
    if w.status == Aborted then t
    else t.(removing := s.removing + [w.cookie], removed := s.removed + [w.cookie])
  }

  function Removed(s: State, i: nat, ok: bool): State
    requires i < |s.removing|
  {
    var c, t := s.removing[i], s.(removing := EraseAt(s.removing, i));
    if !ok then t.(failed := s.failed + [c])
    else t.(confirmed := s.confirmed + [c], cookie := if s.cookie == c then INVALID_COOKIE else s.cookie)
  }

  /** Replies answer calls that were made, only an armed wait can elapse, only a
      queued handler can run, and the service grants valid cookies it never granted
      before. */
  predicate Enabled(s: State, ev: Event) {
    match ev
    case KeepDisplayOnReply(reply) =>
      s.acquiring > 0 && (reply.Granted? ==> reply.cookie != INVALID_COOKIE && reply.cookie !in s.granted)
    case TimeUp(i) => i < |s.waits| && s.waits[i].status == Armed
    case HandlerRuns(i) => i < |s.waits| && s.waits[i].status != Armed
    case RemoveReply(i, _) => i < |s.removing|
    case _ => true
  }

  function Step(s: State, ev: Event): State
    requires Enabled(s, ev)
  {
    match ev
    case RequestAcquire(state) => Acquire(s, state)
    case KeepDisplayOnReply(reply) => Reply(s, reply)
    case RequestRelease(state, now) => Release(s, state, now)
    case TimeUp(i) => s.(waits := s.waits[i := s.waits[i].(status := Elapsed)])
    case HandlerRuns(i) => RunHandler(s, i)
    case RemoveReply(i, ok) => Removed(s, i, ok)
  }

  predicate Legal(s: State, evs: seq<Event>)
    decreases |evs|
  {
    evs == [] || (Enabled(s, evs[0]) && Legal(Step(s, evs[0]), evs[1..]))
  }

  function After(s: State, evs: seq<Event>): State
    requires Legal(s, evs)
    decreases |evs|
  {
    if evs == [] then s else After(Step(s, evs[0]), evs[1..])
  }

  // --- Safety in every interleaving ---

  ghost predicate AllIn(xs: seq<int>, ys: seq<int>) {
    forall x :: x in xs ==> x in ys
  }

  ghost predicate WaitsGranted(waits: seq<Wait>, granted: seq<int>) {
    forall i :: 0 <= i < |waits| ==> waits[i].cookie in granted
  }

  ghost predicate OneArmed(waits: seq<Wait>) {
    forall i, j :: 0 <= i < j < |waits| ==> waits[i].status != Armed || waits[j].status != Armed
  }

  /** Only granted cookies are waited for, removed or confirmed removed; at most one
      wait can still elapse; a stored valid cookie was granted, and its removal has
      not been confirmed. */
  ghost predicate Safe(s: State) {
    && WaitsGranted(s.waits, s.granted) && OneArmed(s.waits)
    && AllIn(s.removing, s.granted) && AllIn(s.removed, s.granted)
    && AllIn(s.removing, s.removed) && AllIn(s.confirmed, s.removed)
    && INVALID_COOKIE !in s.granted
    && (s.cookie != INVALID_COOKIE ==> s.cookie in s.granted && s.cookie !in s.confirmed)
  }

  lemma EraseFacts<T>(xs: seq<T>, i: nat)
    requires i < |xs|
    ensures |EraseAt(xs, i)| == |xs| - 1
    ensures forall j :: 0 <= j < |xs| - 1 ==> EraseAt(xs, i)[j] == xs[if j < i then j else j + 1]
    ensures forall x :: x in EraseAt(xs, i) ==> x in xs
  {
  }

  lemma HandlerSafe(s: State, i: nat)
    requires Safe(s) && Enabled(s, HandlerRuns(i))
    ensures Safe(RunHandler(s, i))
  {
    EraseFacts(s.waits, i);
  }

  lemma RemovedSafe(s: State, i: nat, ok: bool)
    requires Safe(s) && Enabled(s, RemoveReply(i, ok))
    ensures Safe(Removed(s, i, ok))
  {
    EraseFacts(s.removing, i);
  }

  lemma StepSafe(s: State, ev: Event)
    requires Safe(s) && Enabled(s, ev)
    ensures Safe(Step(s, ev))
  {
    match ev
    case HandlerRuns(i) => HandlerSafe(s, i);
    case RemoveReply(i, ok) => RemovedSafe(s, i, ok);
    case _ =>
  }

  /** Whatever the order of requests, replies, errors, expiries and aborts. */
  lemma {:induction false} AlwaysSafe(s: State, evs: seq<Event>)
    requires Safe(s) && Legal(s, evs)
    ensures Safe(After(s, evs))
    decreases |evs|
  {
    if evs != [] {
      StepSafe(s, evs[0]);
      AlwaysSafe(Step(s, evs[0]), evs[1..]);
    }
  }

  /** The same spelled out for a new lock. */
  lemma SafeFromTheStart(start: State, evs: seq<Event>)
    requires IsStart(start) && Legal(start, evs)
    ensures var s := After(start, evs);
            && (forall c :: c in s.removed ==> c in s.granted)
            && (forall i, j :: 0 <= i < j < |s.waits| ==> s.waits[i].status != Armed || s.waits[j].status != Armed)
            && (s.cookie != INVALID_COOKIE ==> s.cookie in s.granted && s.cookie !in s.confirmed)
  {
    AlwaysSafe(start, evs);
  }

  /** The stored cookie is forgotten only when the removal of that very cookie is
      confirmed; completing the release of another one leaves it alone. */
  lemma ForgottenOnlyIfRemoved(s: State, ev: Event)
    requires Safe(s) && Enabled(s, ev) && s.cookie != INVALID_COOKIE
    ensures Step(s, ev).cookie == INVALID_COOKIE
       <==> ev.RemoveReply? && ev.ok && s.removing[ev.i] == s.cookie
  {
  }

  // --- Requests reach the service ---

  /** Every cookie passed to removeDisplayOnRequest is on its way or was answered. */
  ghost predicate Called(s: State) {
    multiset(s.removed) == multiset(s.removing) + multiset(s.confirmed) + multiset(s.failed)
  }

  lemma EraseCountsAt(xs: seq<int>, i: nat)
    requires i < |xs|
    ensures multiset(EraseAt(xs, i)) == multiset(xs) - multiset{xs[i]} && xs[i] in multiset(xs)
  {
    assert xs == xs[..i] + [xs[i]] + xs[i + 1..];
  }

  lemma StepCalled(s: State, ev: Event)
    requires Called(s) && Enabled(s, ev)
    ensures Called(Step(s, ev))
  {
    if ev.RemoveReply? { EraseCountsAt(s.removing, ev.i); }
    hide AbortAll, EraseAt;
  }

  lemma {:induction false} RunCalled(s: State, evs: seq<Event>)
    requires Called(s) && Legal(s, evs)
    ensures Called(After(s, evs))
    decreases |evs|
  {
    if evs != [] {
      StepCalled(s, evs[0]);
      RunCalled(Step(s, evs[0]), evs[1..]);
    }
  }

  /** In every interleaving the cookies passed on are, counted, those whose call is on
      its way and those whose call was answered, well or not. */
  lemma CallsConserved(start: State, evs: seq<Event>)
    requires IsStart(start) && Legal(start, evs)
    ensures var s := After(start, evs);
            multiset(s.removed) == multiset(s.removing) + multiset(s.confirmed) + multiset(s.failed)
  {
    RunCalled(start, evs);
  }

  lemma {:induction false} OneMoreStep(s: State, evs: seq<Event>, ev: Event)
    requires Legal(s, evs) && Enabled(After(s, evs), ev)
    ensures Legal(s, evs + [ev]) && After(s, evs + [ev]) == Step(After(s, evs), ev)
    decreases |evs|
  {
    hide Step, Enabled;
    if evs == [] {
      assert [ev][1..] == [] && evs + [ev] == [ev];
      NothingYet(Step(s, ev));
      NothingYet(s);
    } else {
      assert (evs + [ev])[1..] == evs[1..] + [ev];
      OneMoreStep(Step(s, evs[0]), evs[1..], ev);
    }
  }

  lemma NothingYet(s: State)
    ensures Legal(s, []) && After(s, []) == s
  {
  }

  /** An acquisition can be completed at any time: the service is asked, and a fresh
      cookie it grants is stored. */
  lemma AcquireCompletes(s: State, c: int)
    requires c != INVALID_COOKIE && c !in s.granted
    ensures var evs := [] + [RequestAcquire(On)] + [KeepDisplayOnReply(Granted(c))];
            && Legal(s, evs) && After(s, evs) == s.(cookie := c, granted := s.granted + [c])
            && Acquire(s, Off) == s
  {
    NothingYet(s);
    hide After, Legal;
    OneMoreStep(s, [], RequestAcquire(On));
    OneMoreStep(s, [] + [RequestAcquire(On)], KeepDisplayOnReply(Granted(c)));
  }

  /** A release can be completed whenever a cookie is stored: its wait is over four
      seconds later, the cookie goes to the service, and once that confirms no cookie
      is stored. Without a cookie, or for switching off, a release does nothing. */
  lemma ReleaseCompletes(s: State, now: nat)
    requires s.cookie != INVALID_COOKIE
    ensures var w, r := |s.waits|, |s.removing|;
            var front := [] + [RequestRelease(On, now)];
            var evs := front + [TimeUp(w)] + [HandlerRuns(w)] + [RemoveReply(r, true)];
            && Legal(s, front) && |After(s, front).waits| == w + 1
            && After(s, front).waits[w] == Wait(s.cookie, now + 4000, Armed)
            && Legal(s, evs) && After(s, evs).cookie == INVALID_COOKIE
            && After(s, evs).removing == s.removing
            && After(s, evs).confirmed == s.confirmed + [s.cookie]
    ensures Release(s, Off, now) == s && Release(s.(cookie := -1), On, now) == s.(cookie := -1)
  {
    var w, r := |s.waits|, |s.removing|;
    var front := [] + [RequestRelease(On, now)];
    NothingYet(s);
    hide After, Legal;
    OneMoreStep(s, [], RequestRelease(On, now));
    var s1 := After(s, front);
    assert s1.waits[w] == Wait(s.cookie, now + RELEASE_DELAY, Armed);
    OneMoreStep(s, front, TimeUp(w));
    var s2 := After(s, front + [TimeUp(w)]);
    OneMoreStep(s, front + [TimeUp(w)], HandlerRuns(w));
    var s3 := After(s, front + [TimeUp(w)] + [HandlerRuns(w)]);
    assert s3.removing == s.removing + [s.cookie] && s3.cookie == s.cookie;
    OneMoreStep(s, front + [TimeUp(w)] + [HandlerRuns(w)], RemoveReply(r, true));
    assert EraseAt(s3.removing, r) == s.removing;
  }

  // --- Cookies that are never given back ---

  /** Granted, but neither stored, nor given back, nor waited for. */
  ghost predicate Lost(s: State, c: int) {
    && c in s.granted && c != s.cookie && c !in s.removed
    && forall i :: 0 <= i < |s.waits| ==> s.waits[i].cookie != c || s.waits[i].status == Aborted
  }

  lemma StepKeepsLost(s: State, ev: Event, c: int)
    requires Safe(s) && Enabled(s, ev) && Lost(s, c)
    ensures Lost(Step(s, ev), c)
  {
    if ev.HandlerRuns? { EraseFacts(s.waits, ev.i); }
  }

  /** A lost cookie is never passed to removeDisplayOnRequest afterwards. */
  lemma {:induction false} LostForever(s: State, evs: seq<Event>, c: int)
    requires Safe(s) && Legal(s, evs) && Lost(s, c)
    ensures c !in After(s, evs).removed && Lost(After(s, evs), c)
    decreases |evs|
  {
    if evs != [] {
      StepSafe(s, evs[0]);
      StepKeepsLost(s, evs[0], c);
      LostForever(Step(s, evs[0]), evs[1..], c);
    }
  }

  /** No continuation passes the cookie to removeDisplayOnRequest, nor has it been. */
  ghost predicate NeverGivenBack(s: State, c: int) {
    forall evs :: Legal(s, evs) ==> c !in After(s, evs).removed
  }

  /** A wait that is not aborted can give its cookie back. */
  lemma WaitComesBack(s: State, i: nat)
    requires i < |s.waits| && s.waits[i].status != Aborted
    ensures !NeverGivenBack(s, s.waits[i].cookie)
  {
    if s.waits[i].status == Armed {
      var t := Step(s, TimeUp(i));
      TwoSteps(s, TimeUp(i), HandlerRuns(i));
      assert s.waits[i].cookie in Step(t, HandlerRuns(i)).removed;
      assert Legal(s, [TimeUp(i), HandlerRuns(i)]);
    } else {
      OneStep(s, HandlerRuns(i));
      assert s.waits[i].cookie in Step(s, HandlerRuns(i)).removed;
      assert Legal(s, [HandlerRuns(i)]);
    }
  }

  lemma OneStep(s: State, a: Event)
    requires Enabled(s, a)
    ensures Legal(s, [a]) && After(s, [a]) == Step(s, a)
  {
    hide Step, Enabled;
    assert [a][1..] == [] && Legal(Step(s, a), []) && After(Step(s, a), []) == Step(s, a);
  }

  lemma TwoSteps(s: State, a: Event, b: Event)
    requires Enabled(s, a) && Enabled(Step(s, a), b)
    ensures Legal(s, [a, b]) && After(s, [a, b]) == Step(Step(s, a), b)
  {
    hide Step, Enabled;
    OneStep(Step(s, a), b);
    assert [a, b][1..] == [b];
  }

  /** What can be given back after one more event can be given back. */
  lemma ComesBackLater(s: State, ev: Event, c: int)
    requires Enabled(s, ev) && !NeverGivenBack(Step(s, ev), c)
    ensures !NeverGivenBack(s, c)
  {
    hide Step, Enabled;
    var evs :| Legal(Step(s, ev), evs) && c in After(Step(s, ev), evs).removed;
    assert ([ev] + evs)[1..] == evs;
    assert Legal(s, [ev] + evs);
  }

  /** The stored cookie can be given back: a release of it may be requested. */
  lemma StoredComesBack(s: State)
    requires s.cookie != INVALID_COOKIE
    ensures !NeverGivenBack(s, s.cookie)
  {
    WaitComesBack(Step(s, RequestRelease(On, 0)), |s.waits|);
    ComesBackLater(s, RequestRelease(On, 0), s.cookie);
  }

  /** A granted cookie is lost exactly when no continuation gives it back. */
  lemma LostIff(s: State, c: int)
    requires Safe(s) && c in s.granted
    ensures Lost(s, c) <==> NeverGivenBack(s, c)
  {
    hide After, Legal, Safe, Step;
    if Lost(s, c) {
      forall evs | Legal(s, evs) ensures c !in After(s, evs).removed { LostForever(s, evs, c); }
    } else if c in s.removed {
      NothingYet(s);
    } else if c == s.cookie {
      assert c != INVALID_COOKIE by { GrantedValid(s, c); }
      StoredComesBack(s);
    } else {
      var i: nat :| i < |s.waits| && s.waits[i].cookie == c && s.waits[i].status != Aborted;
      WaitComesBack(s, i);
    }
  }

  lemma GrantedValid(s: State, c: int)
    requires Safe(s) && c in s.granted
    ensures c != INVALID_COOKIE
  {
  }

  /** The cookie is on its way back, or has been given back. */
  ghost predicate Returning(s: State, c: int) {
    c in s.removed || exists i :: 0 <= i < |s.waits| && s.waits[i].cookie == c && s.waits[i].status != Aborted
  }

  /** A new grant takes the cookie it overwrites out of every continuation exactly when
      no release of that cookie has been made or is on its way. */
  lemma OverwriteLosesIff(s: State, c: int)
    requires Safe(s) && s.cookie != INVALID_COOKIE && Enabled(s, KeepDisplayOnReply(Granted(c)))
    ensures NeverGivenBack(Step(s, KeepDisplayOnReply(Granted(c))), s.cookie) <==> !Returning(s, s.cookie)
  {
    StepSafe(s, KeepDisplayOnReply(Granted(c)));
    LostIff(Step(s, KeepDisplayOnReply(Granted(c))), s.cookie);
    hide NeverGivenBack;
  }

  /** A release does so with the cookie of the wait it calls off exactly when that is
      not the cookie now stored, is not given back already, and has no elapsed wait. */
  lemma ReleaseLosesIff(s: State, i: nat, now: nat)
    requires Safe(s) && s.cookie != INVALID_COOKIE && i < |s.waits| && s.waits[i].status == Armed
    ensures var c := s.waits[i].cookie;
            NeverGivenBack(Step(s, RequestRelease(On, now)), c) <==>
            && c != s.cookie && c !in s.removed
            && forall j :: 0 <= j < |s.waits| ==> s.waits[j].cookie != c || s.waits[j].status != Elapsed
  {
    var t := Step(s, RequestRelease(On, now));
    var c := s.waits[i].cookie;
    StepSafe(s, RequestRelease(On, now));
    LostIff(t, c);
    hide NeverGivenBack;
    assert t.waits[|s.waits|].cookie == s.cookie && t.waits[|s.waits|].status == Armed;
    assert forall j :: 0 <= j < |s.waits| ==> t.waits[j] == Abort(s.waits[j]);
  }

  // --- Inputs on which cookies are lost ---

  /** Asking for the display and being given a cookie. */
  function Taking(c: int): seq<Event> {
    [RequestAcquire(On)] + [KeepDisplayOnReply(Granted(c))]
  }

  lemma Takes(s: State, evs: seq<Event>, c: int)
    requires Legal(s, evs) && c != INVALID_COOKIE && c !in After(s, evs).granted && After(s, evs).acquiring == 0
    ensures Legal(s, evs + Taking(c))
    ensures var t := After(s, evs);
            After(s, evs + Taking(c)) == t.(cookie := c, granted := t.granted + [c])
  {
    hide After, Legal;
    OneMoreStep(s, evs, RequestAcquire(On));
    OneMoreStep(s, evs + [RequestAcquire(On)], KeepDisplayOnReply(Granted(c)));
    assert evs + Taking(c) == evs + [RequestAcquire(On)] + [KeepDisplayOnReply(Granted(c))];
  }

  /** Two acquisitions without a release between them lose the first cookie. */
  lemma TwoGrantsLoseTheFirst(start: State, c: int, d: int)
    requires IsStart(start) && c != d && c != INVALID_COOKIE && d != INVALID_COOKIE
    ensures Legal(start, [] + Taking(c) + Taking(d))
    ensures NeverGivenBack(After(start, [] + Taking(c) + Taking(d)), c)
  {
    NothingYet(start);
    hide After, Legal, Taking;
    Takes(start, [], c);
    Takes(start, [] + Taking(c), d);
    AlwaysSafe(start, [] + Taking(c) + Taking(d));
    LostIff(After(start, [] + Taking(c) + Taking(d)), c);
  }

  /** So do an acquisition and a release, both repeated before four seconds are up. */
  lemma TwoReleasesLoseTheFirst(start: State, c: int, d: int, now: nat, later: nat)
    requires IsStart(start) && c != d && c != INVALID_COOKIE && d != INVALID_COOKIE
    ensures var evs := [] + Taking(c) + [RequestRelease(On, now)] + Taking(d) + [RequestRelease(On, later)];
            Legal(start, evs) && NeverGivenBack(After(start, evs), c)
  {
    var first := [] + Taking(c) + [RequestRelease(On, now)];
    var second := first + Taking(d);
    NothingYet(start);
    hide After, Legal, Taking;
    Takes(start, [], c);
    OneMoreStep(start, [] + Taking(c), RequestRelease(On, now));
    var s := After(start, first);
    assert s.waits == [Wait(c, now + RELEASE_DELAY, Armed)];
    Takes(start, first, d);
    var t := After(start, second);
    OneMoreStep(start, second, RequestRelease(On, later));
    AlwaysSafe(start, second);
    hide Step, NeverGivenBack;
    ReleaseLosesIff(t, 0, later);
  }

  // --- The lock's own fields ---

  class DisplayStateLock {
    var cookie: int
    /** The handlers of the deadline timer that have not run yet. */
    var waits: seq<Wait>
    var acquiring: nat
    var removing: seq<int>
    ghost var granted: seq<int>
    ghost var removed: seq<int>
    ghost var confirmed: seq<int>
    ghost var failed: seq<int>

    ghost function View(): State
      reads this
    {
      State(cookie, waits, acquiring, removing, granted, removed, confirmed, failed)
    }

    constructor ()
      ensures IsStart(View())
    {
      cookie, waits, acquiring, removing := INVALID_COOKIE, [], 0, [];
      granted, removed, confirmed, failed := [], [], [], [];
    }

    method RequestAcquire(state: DisplayState)
      modifies this`acquiring
      ensures View() == Acquire(old(View()), state)
    {
      if state == Off {
        return;
      }
      acquiring := acquiring + 1;
    }

    method OnKeepDisplayOnReply(reply: AcquireReply)
      requires acquiring > 0
      modifies this`acquiring, this`cookie, this`granted
      ensures View() == Reply(old(View()), reply)
    {
      acquiring := acquiring - 1;
      if reply.Failed? {
        return;
      }
      cookie := reply.cookie;
      granted := granted + [reply.cookie];
    }

    method RequestRelease(state: DisplayState, now: nat)
      modifies this`waits
      ensures View() == Release(old(View()), state, now)
    {
      if state == Off {
        return;
      }
      if cookie == INVALID_COOKIE {
        return;
      }
      var currentCookie := cookie;
      waits := AbortAll(waits);
      waits := waits + [Wait(currentCookie, now + RELEASE_DELAY, Armed)];
    }

    method OnTimeout(i: nat)
      requires i < |waits| && waits[i].status != Armed
      modifies this`waits, this`removing, this`removed
      ensures View() == RunHandler(old(View()), i)
    {
      var w := waits[i];
      waits := EraseAt(waits, i);
      if w.status == Aborted {
        return;
      }
      removing := removing + [w.cookie];
      removed := removed + [w.cookie];
    }

    method OnRemoveReply(i: nat, ok: bool)
      requires i < |removing|
      modifies this`removing, this`cookie, this`confirmed, this`failed
      ensures View() == Removed(old(View()), i, ok)
    {
      var currentCookie := removing[i];
      removing := EraseAt(removing, i);
      if !ok {
        failed := failed + [currentCookie];
        return;
      }
      confirmed := confirmed + [currentCookie];
      if cookie == currentCookie {
        cookie := INVALID_COOKIE;
      }
    }
  }
}
