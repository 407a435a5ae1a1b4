/** Where the answers of the registry lead: to the session a request made, and to no
    other, for as long as that session is kept. */
module RegistryAnswers {
  import opened Registry
  import Decimal

  // --- One request ---

  /** A creation takes the next key, also when the player fails. The answer to a
      successful one carries the UUID and leads to the session made: its path is the
      one a resume of the new key is answered with, and the one recorded. */
  lemma CreateAnswers(s: State, uuid: Text)
    requires uuid !in s.uuids
    ensures var o := CreateSession(s, uuid, true);
            && o.answer == PathAndUuid(Text("/core/ubuntu/media/Service/sessions/" + Decimal.Render(s.counter)), uuid)
            && uuid in o.state.uuids && o.state.uuids[uuid] == s.counter
            && ResumeSession(o.state, s.counter).answer == Path(o.answer.path)
            && o.state.createReplies == s.createReplies + [CreateReply(s.issued, uuid, o.answer.path)]
            && o.state.counter == (s.counter + 1) % 4_294_967_296
    ensures var o := CreateSession(s, uuid, false);
            && o.answer == Refused && o.state.counter == (s.counter + 1) % 4_294_967_296
            && o.state.store == s.store && o.state.uuids == s.uuids && o.state.createReplies == s.createReplies
  {
    assert PathOf(s.counter) == Text("/core/ubuntu/media/Service/sessions/" + Decimal.Render(s.counter));
    hide PathOf;
  }

  /** A request for a fixed session makes one only if the name is new, and is then
      answered like a resume of the new key; a known name is answered like a resume of
      the key it has. */
  lemma CreateFixedAnswers(s: State, name: Text, uuid: Text, ok: bool)
    ensures var o := CreateFixed(s, name, uuid, ok);
            if name in s.named then
              && o.answer == ResumeSession(s, s.named[name]).answer
              && o.state == s.(fixedReplies := o.state.fixedReplies)
            else if ok then
              && o.state.named == s.named[name := s.counter] && o.answer.Path?
              && o.answer == ResumeSession(o.state, s.counter).answer
            else o.answer == Refused && o.state.named == s.named && o.state.store == s.store
  {
    hide PathOf;
  }

  /** A fixed session outlives its client, a session with a UUID does not. */
  lemma LifetimesAtCreation(s: State, name: Text, uuid: Text)
    ensures name !in s.named ==>
              var t := CreateFixed(s, name, uuid, true).state;
              s.counter in ClientGone(t, s.counter).store
    ensures var t := CreateSession(s, uuid, true).state;
            s.counter !in ClientGone(t, s.counter).store
            && ResumeSession(ClientGone(t, s.counter), s.counter).answer == Refused
  {
    hide PathOf;
  }

  /** A destroy request by the owner is answered well: nobody owns the session then, and
      when its client goes the player goes; no other session is touched. */
  lemma OwnerDestroys(s: State, uuid: Text)
    requires Reachable(s, uuid) && s.uuids[uuid] in s.owners
    ensures var key, t := s.uuids[uuid], DestroySession(s, uuid).state;
            && |t.lookups| == |s.lookups| + 1
            && var o := Resolve(t, |s.lookups|, s.owners[key]);
            && o.answer == Done && o.state.lookups == s.lookups
            && o.state.owners == s.owners - {key}
            && ClientGone(o.state, key).store == s.store - {key}
            && ResumeSession(ClientGone(o.state, key), key).answer == Refused
  {
    hide PathOf;
    var t := DestroySession(s, uuid).state;
    assert t.lookups[..|s.lookups|] + t.lookups[|s.lookups| + 1..] == s.lookups;
  }

  /** An exception leaves a handler exactly when a client detaches a UUID that is not
      known while others are, or a session of its own whose player is gone; and when
      the requester of a reattach or destroy is found out after the session has lost
      its owner, or is the owner after it has lost its player. */
  lemma EscapesIff(s: State, ev: Event)
    requires Enabled(s, ev)
    ensures Step(s, ev).answer == Uncaught <==>
            match ev
            case OnDetach(uuid, sender) =>
              s.uuids != map[] && (uuid in s.uuids ==>
                sender && s.uuids[uuid] in s.owners && s.uuids[uuid] !in s.store)
            case OnContext(i, context) =>
              !s.lookups[i].AttachOwner? && (s.lookups[i].key in s.owners ==>
                s.owners[s.lookups[i].key] == context && s.lookups[i].key !in s.store)
            case _ => false
  {
    hide PathOf;
  }

  // --- All creations ---

  /** Answered creations are those of increasing numbers, each with the path of its
      key; below the wrap no named session has such a key. */
  ghost predicate Replied(s: State) {
    && (forall i :: 0 <= i < |s.createReplies| ==>
          && s.createReplies[i].number < s.issued
          && s.createReplies[i].path == PathOf(s.createReplies[i].number % WRAP))
    && (forall i, j :: 0 <= i < j < |s.createReplies| ==> s.createReplies[i].number < s.createReplies[j].number)
    && (s.issued <= WRAP ==>
          forall n, i :: n in s.named && 0 <= i < |s.createReplies| ==> s.named[n] != s.createReplies[i].number)
  }

  lemma CreateReplied(s: State, uuid: Text, ok: bool)
    requires Numbered(s) && Mapped(s) && Replied(s)
    ensures Replied(CreateSession(s, uuid, ok).state)
  {
    CounterSteps(s.issued);
    NumberedCounter(s);
    hide PathOf, Matches, Numbered;
  }

  lemma CreateFixedReplied(s: State, name: Text, uuid: Text, ok: bool)
    requires Numbered(s) && Replied(s)
    ensures Replied(CreateFixed(s, name, uuid, ok).state)
  {
    CounterSteps(s.issued);
    NumberedCounter(s);
    hide PathOf, Numbered;
  }

  lemma StepReplied(s: State, ev: Event)
    requires Consistent(s) && Replied(s) && Enabled(s, ev)
    ensures Replied(Step(s, ev).state)
  {
    hide PathOf, Numbered, Mapped;
    match ev
    case OnCreate(uuid, ok) => CreateReplied(s, uuid, ok);
    case OnCreateFixed(name, uuid, ok) => CreateFixedReplied(s, name, uuid, ok);
    case _ =>
  }

  lemma {:induction false} RunReplied(s: State, evs: seq<Event>)
    requires Consistent(s) && Replied(s) && Legal(s, evs)
    ensures Replied(Run(s, evs))
    decreases |evs|
  {
    if evs != [] {
      StepConsistent(s, evs[0]);
      StepReplied(s, evs[0]);
      hide Consistent, Replied, Step, Enabled;
      RunReplied(Step(s, evs[0]).state, evs[1..]);
    }
  }

  lemma RepliesApart(s: State)
    requires Consistent(s) && Replied(s) && s.issued <= WRAP
    ensures forall i, j :: 0 <= i < j < |s.createReplies| ==> s.createReplies[i].path != s.createReplies[j].path
    ensures forall i, j :: 0 <= i < |s.createReplies| && 0 <= j < |s.fixedReplies| ==>
              s.createReplies[i].path != s.fixedReplies[j].path
  {
    hide PathOf, Numbered;
    forall i, j | 0 <= i < j < |s.createReplies| ensures s.createReplies[i].path != s.createReplies[j].path {
      var m, n := s.createReplies[i].number, s.createReplies[j].number;
      if PathOf(m) == PathOf(n) { PathInjective(m, n); }
    }
    forall i, j | 0 <= i < |s.createReplies| && 0 <= j < |s.fixedReplies|
      ensures s.createReplies[i].path != s.fixedReplies[j].path
    {
      var m, r := s.createReplies[i].number, s.fixedReplies[j];
      assert Matches(s, r);
      if PathOf(m) == PathOf(s.named[r.name]) { PathInjective(m, s.named[r.name]); }
    }
  }

  /** While the counter has not wrapped no two creations are answered with the same
      path, and none with that of a fixed session. */
  lemma CreationsApart(start: State, evs: seq<Event>)
    requires IsStart(start) && Legal(start, evs) && Run(start, evs).issued <= 4_294_967_296
    ensures var s := Run(start, evs);
            && (forall i, j :: 0 <= i < j < |s.createReplies| ==> s.createReplies[i].path != s.createReplies[j].path)
            && (forall i, j :: 0 <= i < |s.createReplies| && 0 <= j < |s.fixedReplies| ==>
                  s.createReplies[i].path != s.fixedReplies[j].path)
  {
    RunConsistent(start, evs);
    RunReplied(start, evs);
    RepliesApart(Run(start, evs));
  }

  // --- Coming back to a created session ---

  lemma {:induction false} RunConcat(s: State, a: seq<Event>, b: seq<Event>)
    requires Legal(s, a) && Legal(Run(s, a), b)
    ensures Legal(s, a + b) && Run(s, a + b) == Run(Run(s, a), b)
    decreases |a|
  {
    hide Step, Enabled;
    if a == [] {
      assert a + b == b;
    } else {
      assert (a + b)[1..] == a[1..] + b;
      RunConcat(Step(s, a[0]).state, a[1..], b);
    }
  }

  /** A UUID once given to a session never comes to mean another. */
  ghost predicate Means(s: State, uuid: Text, key: Key) {
    uuid in s.used && (uuid in s.uuids ==> s.uuids[uuid] == key)
  }

  lemma StepMeans(s: State, ev: Event, uuid: Text, key: Key)
    requires Means(s, uuid, key) && Enabled(s, ev)
    ensures Means(Step(s, ev).state, uuid, key)
  {
    hide PathOf;
  }

  lemma {:induction false} RunMeans(s: State, evs: seq<Event>, uuid: Text, key: Key)
    requires Means(s, uuid, key) && Legal(s, evs)
    ensures Means(Run(s, evs), uuid, key)
    decreases |evs|
  {
    if evs != [] {
      StepMeans(s, evs[0], uuid, key);
      hide Means, Step, Enabled;
      RunMeans(Step(s, evs[0]).state, evs[1..], uuid, key);
    }
  }

  /** The owner of a session who comes back to it, after any events that have kept it,
      is answered with the very path its creation was answered with. */
  lemma CreatedComesBack(start: State, before: seq<Event>, uuid: Text, mid: seq<Event>, after: seq<Event>)
    requires IsStart(start) && Legal(start, before) && Enabled(Run(start, before), OnCreate(uuid, true))
    requires Legal(CreateSession(Run(start, before), uuid, true).state, mid)
    requires var t := Run(CreateSession(Run(start, before), uuid, true).state, mid);
             && Reachable(t, uuid) && t.uuids[uuid] in t.owners
             && Legal(t, after) && Run(t, after).issued <= WRAP
             && FateOf(Kept(t.store[t.uuids[uuid]]), after, uuid, t.uuids[uuid]).Kept?
    ensures var created := CreateSession(Run(start, before), uuid, true);
            var t := Run(created.state, mid);
            var u := Run(t, after);
            && ReattachSession(u, uuid).answer == Later && created.answer.PathAndUuid?
            && Resolve(ReattachSession(u, uuid).state, |u.lookups|, t.owners[t.uuids[uuid]]).answer
               == Path(created.answer.path)
  {
    var s := Run(start, before);
    var created := CreateSession(s, uuid, true);
    var t := Run(created.state, mid);
    RunConsistent(start, before);
    assert uuid !in s.uuids;
    CreateAnswers(s, uuid);
    assert created.answer.path == PathOf(s.counter);
    OneMoreStep(start, before, OnCreate(uuid, true));
    assert Means(created.state, uuid, s.counter);
    hide Run, Legal, Consistent, CreateSession, PathOf, FateOf, Resolve, ReattachSession;
    RunMeans(created.state, mid, uuid, s.counter);
    RunConcat(start, before + [OnCreate(uuid, true)], mid);
    ComesBackIff(start, before + [OnCreate(uuid, true)] + mid, uuid, after, t.owners[t.uuids[uuid]]);
  }

  // --- Coming back to a fixed session ---

  /** The fixed session `name` is there, resumable, and nobody is destroying it. */
  ghost predicate Stays(s: State, name: Text, key: Key) {
    && name in s.named && s.named[name] == key && Issued(s, key)
    && key in s.store && s.store[key] == Resumable
    && forall i :: 0 <= i < |s.lookups| ==> s.lookups[i] != Destroy(key)
  }

  lemma CreateStays(s: State, ev: Event, name: Text, key: Key)
    requires Enabled(s, ev) && (ev.OnCreate? || ev.OnCreateFixed?)
    requires s.issued < WRAP ==> s.counter == s.issued
    requires Stays(s, name, key) && Step(s, ev).state.issued <= WRAP
    ensures Stays(Step(s, ev).state, name, key)
  {
    hide PathOf;
  }

  lemma DestroyStays(s: State, uuid: Text, name: Text, key: Key)
    requires Separate(s) && Stays(s, name, key)
    ensures Stays(DestroySession(s, uuid).state, name, key)
  {
    hide PathOf;
  }

  lemma StepStays(s: State, ev: Event, name: Text, key: Key)
    requires Consistent(s) && Separate(s) && Enabled(s, ev) && Step(s, ev).state.issued <= WRAP
    requires Stays(s, name, key) && ev != OnLifetime(key, Normal)
    ensures Stays(Step(s, ev).state, name, key)
  {
    if s.issued < WRAP { CounterSteps(s.issued); NumberedCounter(s); }
    hide PathOf, Mapped, Numbered, Separate;
    match ev
    case OnCreate(_, _) => CreateStays(s, ev, name, key);
    case OnCreateFixed(_, _, _) => CreateStays(s, ev, name, key);
    case OnDestroy(uuid) => DestroyStays(s, uuid, name, key);
    case _ =>
  }

  lemma {:induction false} RunStays(s: State, evs: seq<Event>, name: Text, key: Key)
    requires Consistent(s) && Separate(s) && Legal(s, evs) && Run(s, evs).issued <= WRAP
    requires Stays(s, name, key) && OnLifetime(key, Normal) !in evs
    ensures Stays(Run(s, evs), name, key)
    decreases |evs|
  {
    if evs != [] {
      var t := Step(s, evs[0]).state;
      StepConsistent(s, evs[0]);
      RunConsistent(t, evs[1..]);
      StepSeparate(s, evs[0]);
      StepStays(s, evs[0], name, key);
      hide Consistent, Separate, Stays, Step;
      RunStays(t, evs[1..], name, key);
    }
  }

  /** Once a fixed session was made, every later request for its name is answered with
      the same path and makes no session, after any events but a client that makes it
      normal. */
  lemma FixedComesBack(start: State, before: seq<Event>, name: Text, uuid: Text, after: seq<Event>,
                       again: Text, ok: bool)
    requires IsStart(start) && Legal(start, before) && Enabled(Run(start, before), OnCreateFixed(name, uuid, true))
    requires name !in Run(start, before).named
    requires var made := CreateFixed(Run(start, before), name, uuid, true);
             Legal(made.state, after) && Run(made.state, after).issued <= WRAP
    requires OnLifetime(Run(start, before).counter, Normal) !in after
    ensures var made := CreateFixed(Run(start, before), name, uuid, true);
            var t := Run(made.state, after);
            && made.answer.Path? && CreateFixed(t, name, again, ok).answer == made.answer
            && CreateFixed(t, name, again, ok).state.sessions == t.sessions
  {
    var s := Run(start, before);
    var made := CreateFixed(s, name, uuid, true).state;
    RunConsistent(start, before);
    StepConsistent(s, OnCreateFixed(name, uuid, true));
    RunConsistent(made, after);
    RunSeparate(start, before);
    StepSeparate(s, OnCreateFixed(name, uuid, true));
    RunUnclaimed(start, before);
    NewStays(s, name, uuid);
    hide Run, Legal, Consistent, Separate, Unclaimed;
    RunStays(made, after, name, s.counter);
    AnswersAlike(s, Run(made, after), name, uuid, again, ok);
  }

  lemma NewStays(s: State, name: Text, uuid: Text)
    requires Consistent(s) && Unclaimed(s) && name !in s.named && s.issued < WRAP
    ensures Stays(CreateFixed(s, name, uuid, true).state, name, s.counter)
  {
    CounterSteps(s.issued);
    NumberedCounter(s);
    hide PathOf, Mapped, Numbered;
  }

  lemma AnswersAlike(s: State, t: State, name: Text, uuid: Text, again: Text, ok: bool)
    requires name !in s.named && Stays(t, name, s.counter)
    ensures CreateFixed(s, name, uuid, true).answer.Path?
    ensures CreateFixed(t, name, again, ok).answer == CreateFixed(s, name, uuid, true).answer
    ensures CreateFixed(t, name, again, ok).state.sessions == t.sessions
  {
    hide PathOf;
  }
}
