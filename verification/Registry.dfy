/** The service's registry of sessions: keys and object paths from one counter,
    fixed sessions by name, others by UUID, owners resolved asynchronously. */
module Registry {
  import Decimal

  type Key = nat

  /** Names, UUIDs, security contexts and object paths are texts. */
  datatype Text = Text(chars: string)

  datatype Lifetime = Normal | Resumable

  /** Context lookups on their way, each with what it does when it is answered. */
  datatype Lookup = AttachOwner(key: Key) | Reattach(key: Key) | Destroy(key: Key)

  /** A session made by the `number`-th call of create_session_info. */
  datatype Session = Session(number: nat, key: Key)

  /** A successful answer to a request for the fixed session `name`. */
  datatype FixedReply = FixedReply(name: Text, path: Text)

  /** A successful answer to the request that made session `number`. */
  datatype CreateReply = CreateReply(number: nat, uuid: Text, path: Text)

  /** The program's maps, and history: how many keys were issued, the sessions made,
      the creations and the fixed sessions answered, the UUIDs generated, and those destroyed. */
  datatype State = State(
    counter: nat,
    named: map<Text, Key>,
    uuids: map<Text, Key>,
    owners: map<Key, Text>,
    store: map<Key, Lifetime>,
    lookups: seq<Lookup>,
    issued: nat,
    sessions: seq<Session>,
    createReplies: seq<CreateReply>,
    fixedReplies: seq<FixedReply>,
    used: set<Text>,
    destroyed: set<Text>)

  /** Later: the answer comes with the lookup. Uncaught: std::out_of_range leaves
      the handler. */
  datatype Answer = Path(path: Text) | PathAndUuid(path: Text, uuid: Text) | Done | Refused | Later | Uncaught | Silent

  datatype Outcome = Outcome(state: State, answer: Answer)

  /** `unsigned int`. */
  const WRAP: nat := 0x1_0000_0000

  function PathOf(key: Key): Text {
    Text("/core/ubuntu/media/Service/sessions/" + Decimal.Render(key))
  }

  lemma PathInjective(j: Key, k: Key)
    requires PathOf(j) == PathOf(k)
    ensures j == k
  {
    Decimal.Prefixed("/core/ubuntu/media/Service/sessions/", j, k);
  }

  predicate IsStart(s: State) {
    && s.counter == s.issued == |s.sessions| == |s.createReplies| == |s.fixedReplies| == |s.lookups| == 0
    && s.named == s.uuids == map[] && s.owners == map[] && s.store == map[]
    && s.used == s.destroyed == {}
  }

  /** Takes the next key; the counter wraps around. */
  function Issue(s: State): State {
    s.(counter := (s.counter + 1) % WRAP, issued := s.issued + 1)
  }

  function Made(s: State, lifetime: Lifetime): State {
    Issue(s).(store := s.store[s.counter := lifetime], sessions := s.sessions + [Session(s.issued, s.counter)])
  }

  function CreateSession(s: State, uuid: Text, ok: bool): Outcome {
    if !ok then Outcome(Issue(s).(used := s.used + {uuid}), Refused)
    else
      var t := Made(s, Normal);
      Outcome(t.(uuids := if uuid in s.uuids then s.uuids else s.uuids[uuid := s.counter],
                 lookups := s.lookups + [AttachOwner(s.counter)],
                 createReplies := s.createReplies + [CreateReply(s.issued, uuid, PathOf(s.counter))],
                 used := s.used + {uuid}),
              PathAndUuid(PathOf(s.counter), uuid))
  }

  function AnswerFixed(s: State, name: Text, key: Key): Outcome {
    Outcome(s.(fixedReplies := s.fixedReplies + [FixedReply(name, PathOf(key))]), Path(PathOf(key)))
  }

  function CreateFixed(s: State, name: Text, uuid: Text, ok: bool): Outcome {
    if name !in s.named then
      if !ok then Outcome(Issue(s).(used := s.used + {uuid}), Refused)
      else
        var t := Made(s, Resumable).(named := s.named[name := s.counter], used := s.used + {uuid});
        AnswerFixed(t, name, s.counter)
    else if s.named[name] !in s.store then Outcome(s, Refused)
    else AnswerFixed(s, name, s.named[name])
  }

  function ResumeSession(s: State, key: Key): Outcome {
    Outcome(s, if key in s.store then Path(PathOf(key)) else Refused)
  }

  /** The UUID is known and its player is in the store. */
  predicate Reachable(s: State, uuid: Text) {
    uuid in s.uuids && s.uuids[uuid] in s.store
  }

  function ReattachSession(s: State, uuid: Text): Outcome {
    if Reachable(s, uuid) then Outcome(s.(lookups := s.lookups + [Reattach(s.uuids[uuid])]), Later)
    else Outcome(s, Refused)
  }

  /** The UUID is forgotten before the requester's context is known. */
  function DestroySession(s: State, uuid: Text): Outcome {
    if Reachable(s, uuid) then
      Outcome(s.(uuids := s.uuids - {uuid},
                 lookups := s.lookups + [Destroy(s.uuids[uuid])],
                 destroyed := s.destroyed + {uuid}),
              Later)
    else Outcome(s, Refused)
  }

  /** `sender` says whether the request comes from the peer that made the session. */
  function DetachSession(s: State, uuid: Text, sender: bool): Outcome {
    if s.uuids == map[] then Outcome(s, Done)
    else if uuid !in s.uuids then Outcome(s, Uncaught)
    else
      var key := s.uuids[uuid];
      if key !in s.owners || !sender then Outcome(s, Done)
      else if key !in s.store then Outcome(s, Uncaught)
      else Outcome(s.(store := s.store[key := Resumable]), Done)
  }

  function Resolve(s: State, i: nat, context: Text): Outcome
    requires i < |s.lookups|
  {
    var t := s.(lookups := s.lookups[..i] + s.lookups[i + 1..]);
    match s.lookups[i]
    case AttachOwner(key) =>
      Outcome(if key in s.owners then t else t.(owners := s.owners[key := context]), Silent)
    case Reattach(key) =>
      if key !in s.owners then Outcome(t, Uncaught)
      else if s.owners[key] != context then Outcome(t, Refused)
      else Outcome(t, if key in s.store then Path(PathOf(key)) else Uncaught)
    case Destroy(key) =>
      if key !in s.owners then Outcome(t, Uncaught)
      else if s.owners[key] != context then Outcome(t, Refused)
      else if key !in s.store then Outcome(t.(owners := s.owners - {key}), Uncaught)
      else Outcome(t.(owners := s.owners - {key}, store := s.store[key := Normal]), Done)
  }

  /** A client is gone: its player is removed unless it may be resumed. */
  function ClientGone(s: State, key: Key): State {
    if key in s.store && s.store[key] == Normal then s.(store := s.store - {key}) else s
  }

  /** Clients may write the lifetime of a session as they like. */
  function SetLifetime(s: State, key: Key, lifetime: Lifetime): State {
    if key in s.store then s.(store := s.store[key := lifetime]) else s
  }

  datatype Event =
    | OnCreate(uuid: Text, ok: bool)
    | OnCreateFixed(name: Text, uuid: Text, ok: bool)
    | OnResume(key: Key)
    | OnReattach(uuid: Text)
    | OnDestroy(uuid: Text)
    | OnDetach(uuid: Text, sender: bool)
    | OnContext(i: nat, context: Text)
    | OnClientGone(key: Key)
    | OnLifetime(key: Key, lifetime: Lifetime)

  /** Lookups answered were made, and the generator never repeats a UUID. */
  predicate Enabled(s: State, ev: Event) {
    match ev
    case OnContext(i, _) => i < |s.lookups|
    case OnCreate(uuid, _) => uuid !in s.used
    case OnCreateFixed(_, uuid, _) => uuid !in s.used
    case _ => true
  }

  function Step(s: State, ev: Event): Outcome
    requires Enabled(s, ev)
  {
    match ev
    case OnCreate(uuid, ok) => CreateSession(s, uuid, ok)
    case OnCreateFixed(name, uuid, ok) => CreateFixed(s, name, uuid, ok)
    case OnResume(key) => ResumeSession(s, key)
    case OnReattach(uuid) => ReattachSession(s, uuid)
    case OnDestroy(uuid) => DestroySession(s, uuid)
    case OnDetach(uuid, sender) => DetachSession(s, uuid, sender)
    case OnContext(i, context) => Resolve(s, i, context)
    case OnClientGone(key) => Outcome(ClientGone(s, key), Silent)
    case OnLifetime(key, lifetime) => Outcome(SetLifetime(s, key, lifetime), Silent)
  }

  predicate Legal(s: State, evs: seq<Event>)
    decreases |evs|
  {
    evs == [] || (Enabled(s, evs[0]) && Legal(Step(s, evs[0]).state, evs[1..]))
  }

  function Run(s: State, evs: seq<Event>): State
    requires Legal(s, evs)
    decreases |evs|
  {
    if evs == [] then s else Run(Step(s, evs[0]).state, evs[1..])
  }

  // --- What holds whatever the counter does ---

  /** As long as the counter has not wrapped, the key was handed out before. */
  predicate Issued(s: State, key: Key) {
    s.issued <= WRAP ==> key < s.issued
  }

  /** Keys are session numbers modulo the counter's width; numbers increase. */
  ghost predicate Numbered(s: State) {
    && s.counter == s.issued % WRAP
    && (forall i :: 0 <= i < |s.sessions| ==>
          s.sessions[i].number < s.issued && s.sessions[i].key == s.sessions[i].number % WRAP)
    && (forall i, j :: 0 <= i < j < |s.sessions| ==> s.sessions[i].number < s.sessions[j].number)
  }

  /** Every key in the maps was handed out; answers for a name give the path of its
      key; a destroyed UUID is not in the map. */
  ghost predicate Mapped(s: State) {
    && (forall n :: n in s.named ==> Issued(s, s.named[n]))
    && (forall u :: u in s.uuids ==> Issued(s, s.uuids[u]))
    && (forall i :: 0 <= i < |s.fixedReplies| ==> Matches(s, s.fixedReplies[i]))
    && s.uuids.Keys <= s.used && s.destroyed <= s.used && s.destroyed !! s.uuids.Keys
  }

  predicate Matches(s: State, r: FixedReply) {
    r.name in s.named && r.path == PathOf(s.named[r.name])
  }

  ghost predicate Consistent(s: State) {
    Numbered(s) && Mapped(s)
  }

  lemma CounterSteps(issued: nat)
    ensures (issued + 1) % WRAP == (issued % WRAP + 1) % WRAP
    ensures issued < WRAP ==> issued % WRAP == issued
  {
  }

  lemma CreateConsistent(s: State, uuid: Text, ok: bool)
    requires Consistent(s) && uuid !in s.used
    ensures Consistent(CreateSession(s, uuid, ok).state)
  {
    CounterSteps(s.issued);
    hide PathOf;
  }

  lemma CreateFixedConsistent(s: State, name: Text, uuid: Text, ok: bool)
    requires Consistent(s) && uuid !in s.used
    ensures Consistent(CreateFixed(s, name, uuid, ok).state)
  {
    hide PathOf, Mapped, Numbered;
    CreateFixedNumbered(s, name, uuid, ok);
    CreateFixedMapped(s, name, uuid, ok);
  }

  lemma CreateFixedNumbered(s: State, name: Text, uuid: Text, ok: bool)
    requires Numbered(s)
    ensures Numbered(CreateFixed(s, name, uuid, ok).state)
  {
    CounterSteps(s.issued);
    hide PathOf;
  }

  lemma AnswerMapped(s: State, name: Text)
    requires Mapped(s) && name in s.named
    ensures Mapped(AnswerFixed(s, name, s.named[name]).state)
  {
    hide PathOf;
  }

  lemma NamedMapped(s: State, name: Text, uuid: Text)
    requires Consistent(s) && uuid !in s.used && name !in s.named
    ensures Mapped(Made(s, Resumable).(named := s.named[name := s.counter], used := s.used + {uuid}))
  {
    CounterSteps(s.issued);
    NumberedCounter(s);
    hide PathOf, Numbered;
  }

  lemma CreateFixedMapped(s: State, name: Text, uuid: Text, ok: bool)
    requires Consistent(s) && uuid !in s.used
    ensures Mapped(CreateFixed(s, name, uuid, ok).state)
  {
    hide PathOf, Numbered;
    if name in s.named {
      AnswerMapped(s, name);
    } else if ok {
      NamedMapped(s, name, uuid);
      AnswerMapped(Made(s, Resumable).(named := s.named[name := s.counter], used := s.used + {uuid}), name);
    }
  }

  /** Nothing but the store, the owners, the lookups and forgotten UUIDs changes. */
  lemma QuietStepConsistent(s: State, t: State)
    requires Consistent(s)
    requires t == s.(store := t.store, owners := t.owners, lookups := t.lookups,
                     uuids := t.uuids, destroyed := t.destroyed)
    requires t.uuids.Keys <= s.uuids.Keys && forall u :: u in t.uuids ==> t.uuids[u] == s.uuids[u]
    requires t.destroyed == s.destroyed + (s.uuids.Keys - t.uuids.Keys)
    ensures Consistent(t)
  {
    hide PathOf;
  }

  lemma StepConsistent(s: State, ev: Event)
    requires Consistent(s) && Enabled(s, ev)
    ensures Consistent(Step(s, ev).state)
  {
    hide Consistent, PathOf;
    match ev
    case OnCreate(uuid, ok) => CreateConsistent(s, uuid, ok);
    case OnCreateFixed(name, uuid, ok) => CreateFixedConsistent(s, name, uuid, ok);
    case _ => QuietStepConsistent(s, Step(s, ev).state);
  }

  lemma StepGrows(s: State, ev: Event)
    requires Enabled(s, ev)
    ensures s.issued <= Step(s, ev).state.issued && s.destroyed <= Step(s, ev).state.destroyed
  {
    hide PathOf;
  }

  lemma {:induction false} RunConsistent(s: State, evs: seq<Event>)
    requires Consistent(s) && Legal(s, evs)
    ensures Consistent(Run(s, evs)) && s.issued <= Run(s, evs).issued && s.destroyed <= Run(s, evs).destroyed
    decreases |evs|
  {
    hide Consistent, Step, Enabled;
    if evs != [] {
      StepConsistent(s, evs[0]);
      StepGrows(s, evs[0]);
      RunConsistent(Step(s, evs[0]).state, evs[1..]);
    }
  }

  /** Two sessions share a key, and an object path, exactly when their numbers
      differ by a multiple of the counter's width; answers for one name always give
      the same path. No bound on the number of sessions. */
  lemma KeysCollideIff(start: State, evs: seq<Event>, i: nat, j: nat)
    requires IsStart(start) && Legal(start, evs)
    requires i < |Run(start, evs).sessions| && j < |Run(start, evs).sessions|
    ensures var a, b := Run(start, evs).sessions[i], Run(start, evs).sessions[j];
            && (i != j ==> a.number != b.number)
            && (PathOf(a.key) == PathOf(b.key) <==> a.key == b.key)
            && (a.key == b.key <==> a.number % 4_294_967_296 == b.number % 4_294_967_296)
  {
    RunConsistent(start, evs);
    var s := Run(start, evs);
    if PathOf(s.sessions[i].key) == PathOf(s.sessions[j].key) {
      PathInjective(s.sessions[i].key, s.sessions[j].key);
    }
  }

  lemma OneNameOnePath(start: State, evs: seq<Event>, i: nat, j: nat)
    requires IsStart(start) && Legal(start, evs)
    requires i < |Run(start, evs).fixedReplies| && j < |Run(start, evs).fixedReplies|
    ensures var a, b := Run(start, evs).fixedReplies[i], Run(start, evs).fixedReplies[j];
            a.name == b.name ==> a.path == b.path
  {
    RunConsistent(start, evs);
  }

  // --- Below the wrap ---

  /** Every key in the maps is below the number issued, and no two entries of the
      name and UUID maps share a key. */
  ghost predicate Separate(s: State) {
    && (forall m, n :: m in s.named && n in s.named && m != n ==> s.named[m] != s.named[n])
    && (forall u, v :: u in s.uuids && v in s.uuids && u != v ==> s.uuids[u] != s.uuids[v])
    && (forall n, u :: n in s.named && u in s.uuids ==> s.named[n] != s.uuids[u])
  }

  lemma CreateSeparate(s: State, uuid: Text, ok: bool)
    requires Mapped(s) && Separate(s) && s.issued < WRAP && s.counter == s.issued
    ensures Separate(CreateSession(s, uuid, ok).state)
  {
    hide PathOf;
  }

  lemma CreateFixedSeparate(s: State, name: Text, uuid: Text, ok: bool)
    requires Mapped(s) && Separate(s) && (name in s.named || (s.issued < WRAP && s.counter == s.issued))
    ensures Separate(CreateFixed(s, name, uuid, ok).state)
  {
    hide PathOf;
  }

  lemma QuietStepSeparate(s: State, t: State)
    requires Separate(s) && t.named == s.named
    requires t.uuids.Keys <= s.uuids.Keys && forall u :: u in t.uuids ==> t.uuids[u] == s.uuids[u]
    ensures Separate(t)
  {
  }

  lemma StepSeparate(s: State, ev: Event)
    requires Consistent(s) && Separate(s) && Enabled(s, ev) && Step(s, ev).state.issued <= WRAP
    ensures Separate(Step(s, ev).state)
  {
    hide PathOf, Numbered, Mapped, Separate;
    if s.issued < WRAP { CounterSteps(s.issued); NumberedCounter(s); }
    match ev
    case OnCreate(uuid, ok) => CreateSeparate(s, uuid, ok);
    case OnCreateFixed(name, uuid, ok) => CreateFixedSeparate(s, name, uuid, ok);
    case _ => QuietStepSeparate(s, Step(s, ev).state);
  }

  lemma NumberedCounter(s: State)
    requires Numbered(s)
    ensures s.counter == s.issued % WRAP
  {
  }

  lemma {:induction false} RunSeparate(s: State, evs: seq<Event>)
    requires Consistent(s) && Separate(s) && Legal(s, evs) && Run(s, evs).issued <= WRAP
    ensures Separate(Run(s, evs))
    decreases |evs|
  {
    if evs != [] {
      var t := Step(s, evs[0]).state;
      StepConsistent(s, evs[0]);
      RunConsistent(t, evs[1..]);
      StepSeparate(s, evs[0]);
      hide Consistent, Separate, Step;
      RunSeparate(t, evs[1..]);
    }
  }

  /** While fewer keys have been issued than the counter can hold: sessions have
      distinct keys and object paths; fixed answers give the same path exactly for
      the same name; no fixed session shares its key with a UUID session. */
  lemma SessionIdentity(start: State, evs: seq<Event>)
    requires IsStart(start) && Legal(start, evs) && Run(start, evs).issued <= WRAP
    ensures var s := Run(start, evs);
            && (forall i, j :: 0 <= i < j < |s.sessions| ==>
                  s.sessions[i].key != s.sessions[j].key && PathOf(s.sessions[i].key) != PathOf(s.sessions[j].key))
            && (forall i, j :: 0 <= i < |s.fixedReplies| && 0 <= j < |s.fixedReplies| ==>
                  (s.fixedReplies[i].name == s.fixedReplies[j].name
                   <==> s.fixedReplies[i].path == s.fixedReplies[j].path))
            && (forall n, u :: n in s.named && u in s.uuids ==> s.named[n] != s.uuids[u])
  {
    RunConsistent(start, evs);
    RunSeparate(start, evs);
    hide Run, Legal, Consistent, Separate, PathOf;
    var s := Run(start, evs);
    DistinctSessions(s);
    DistinctNames(s);
    SeparateMaps(s);
  }

  lemma DistinctSessions(s: State)
    requires Consistent(s) && s.issued <= WRAP
    ensures forall i, j :: 0 <= i < j < |s.sessions| ==>
              s.sessions[i].key != s.sessions[j].key && PathOf(s.sessions[i].key) != PathOf(s.sessions[j].key)
  {
    hide PathOf, Mapped;
    forall i, j | 0 <= i < j < |s.sessions|
      ensures s.sessions[i].key != s.sessions[j].key && PathOf(s.sessions[i].key) != PathOf(s.sessions[j].key)
    {
      if PathOf(s.sessions[i].key) == PathOf(s.sessions[j].key) {
        PathInjective(s.sessions[i].key, s.sessions[j].key);
      }
    }
  }

  lemma DistinctNames(s: State)
    requires Consistent(s) && Separate(s)
    ensures forall i, j :: 0 <= i < |s.fixedReplies| && 0 <= j < |s.fixedReplies| ==>
              (s.fixedReplies[i].name == s.fixedReplies[j].name <==> s.fixedReplies[i].path == s.fixedReplies[j].path)
  {
    hide PathOf, Numbered;
    forall i, j | 0 <= i < |s.fixedReplies| && 0 <= j < |s.fixedReplies|
      ensures s.fixedReplies[i].name == s.fixedReplies[j].name <==> s.fixedReplies[i].path == s.fixedReplies[j].path
    {
      var a, b := s.fixedReplies[i], s.fixedReplies[j];
      assert Matches(s, a) && Matches(s, b);
      if a.path == b.path {
        PathInjective(s.named[a.name], s.named[b.name]);
      }
    }
  }

  lemma SeparateMaps(s: State)
    requires Separate(s)
    ensures forall n, u :: n in s.named && u in s.uuids ==> s.named[n] != s.uuids[u]
  {
  }

  /** Whatever the counter has been through, one more UUID session keeps the keys
      apart exactly when no session in the maps already has the key that is next. */
  lemma CreateKeepsSeparateIff(s: State, uuid: Text)
    requires Separate(s) && uuid !in s.uuids
    ensures Separate(CreateSession(s, uuid, true).state)
       <==> s.counter !in s.named.Values && s.counter !in s.uuids.Values
  {
    hide PathOf;
    var t := CreateSession(s, uuid, true).state;
    assert t.uuids[uuid] == s.counter;
    assert forall u :: u in s.uuids ==> u in t.uuids && t.uuids[u] == s.uuids[u];
  }

  /** The same for a fixed session: a known name makes no session and keeps them
      apart; a new name does exactly when the next key is free. */
  lemma CreateFixedKeepsSeparateIff(s: State, name: Text, uuid: Text)
    requires Separate(s)
    ensures Separate(CreateFixed(s, name, uuid, true).state)
       <==> name in s.named || (s.counter !in s.named.Values && s.counter !in s.uuids.Values)
  {
    hide PathOf;
    var t := CreateFixed(s, name, uuid, true).state;
    if name !in s.named {
      assert t.named[name] == s.counter;
      assert forall n :: n in s.named ==> n in t.named && t.named[n] == s.named[n];
    }
  }

  // --- Destroyed sessions ---

  /** Once a destroy request was accepted for a UUID, every later reattach or
      destroy of it is refused, whatever became of the request itself. */
  lemma DestroyedStaysRefused(s: State, uuid: Text, evs: seq<Event>)
    requires Consistent(s) && DestroySession(s, uuid).answer == Later
    requires Legal(DestroySession(s, uuid).state, evs)
    ensures var t := Run(DestroySession(s, uuid).state, evs);
            ReattachSession(t, uuid).answer == Refused && DestroySession(t, uuid).answer == Refused
  {
    StepConsistent(s, OnDestroy(uuid));
    RunConsistent(DestroySession(s, uuid).state, evs);
  }

  /** That holds for a request by the wrong client as well: it is answered with a
      permission error and leaves owner and player as they were, yet the UUID is
      forgotten, so the owner can neither reattach nor destroy the session. */
  lemma WrongClientLocksOut(s: State, uuid: Text, context: Text)
    requires Consistent(s) && Reachable(s, uuid)
    requires s.uuids[uuid] in s.owners && s.owners[s.uuids[uuid]] != context
    ensures var key, t := s.uuids[uuid], DestroySession(s, uuid).state;
            && |t.lookups| == |s.lookups| + 1
            && var o := Resolve(t, |s.lookups|, context);
            && o.answer == Refused && o.state.store == s.store && o.state.owners == s.owners && key in o.state.store
            && DestroySession(o.state, uuid).answer == Refused && ReattachSession(o.state, uuid).answer == Refused
  {
  }

  lemma {:induction false} OneMoreStep(s: State, evs: seq<Event>, ev: Event)
    requires Legal(s, evs) && Enabled(Run(s, evs), ev)
    ensures Legal(s, evs + [ev]) && Run(s, evs + [ev]) == Step(Run(s, evs), ev).state
    decreases |evs|
  {
    hide Step, Enabled;
    if evs == [] {
      assert [ev][1..] == [] && evs + [ev] == [ev];
      assert Legal(Step(s, ev).state, []) && Run(Step(s, ev).state, []) == Step(s, ev).state;
    } else {
      assert (evs + [ev])[1..] == evs[1..] + [ev];
      OneMoreStep(Step(s, evs[0]).state, evs[1..], ev);
    }
  }

  /** This happens: a session is made, its owner becomes known, a stranger asks to
      destroy it and is refused, and then the owner is refused, though the player is
      still there. */
  lemma OwnerIsLockedOut(start: State, uuid: Text, owner: Text, stranger: Text)
    requires IsStart(start) && owner != stranger
    ensures var evs := [OnCreate(uuid, true)] + [OnContext(0, owner)] + [OnDestroy(uuid)] + [OnContext(0, stranger)];
            && Legal(start, evs)
            && var s := Run(start, evs);
            && ReattachSession(s, uuid).answer == Refused
            && s.sessions == [Session(0, 0)] && 0 in s.store && 0 in s.owners && s.owners[0] == owner
  {
    hide PathOf, Run, Legal;
    assert Legal(start, []) && Run(start, []) == start by { NoSteps(start); }
    OneMoreStep(start, [], OnCreate(uuid, true));
    assert [] + [OnCreate(uuid, true)] == [OnCreate(uuid, true)];
    OneMoreStep(start, [OnCreate(uuid, true)], OnContext(0, owner));
    OneMoreStep(start, [OnCreate(uuid, true)] + [OnContext(0, owner)], OnDestroy(uuid));
    OneMoreStep(start, [OnCreate(uuid, true)] + [OnContext(0, owner)] + [OnDestroy(uuid)], OnContext(0, stranger));
  }

  lemma NoSteps(s: State)
    ensures Legal(s, []) && Run(s, []) == s
  {
  }

  // --- Detached sessions ---

  /** A session outlives its client exactly when it was made resumable before, or its
      creator has just detached it. */
  lemma OutlivesClientIff(s: State, uuid: Text, sender: bool)
    requires Reachable(s, uuid)
    ensures Reachable(ClientGone(DetachSession(s, uuid, sender).state, s.uuids[uuid]), uuid)
       <==> s.store[s.uuids[uuid]] == Resumable || (sender && s.uuids[uuid] in s.owners)
  {
  }

  /** No destroy is on its way for a session that can still be named. */
  ghost predicate Unclaimed(s: State) {
    forall i :: 0 <= i < |s.lookups| && s.lookups[i].Destroy? ==>
      Issued(s, s.lookups[i].key) && forall u :: u in s.uuids ==> s.uuids[u] != s.lookups[i].key
  }

  lemma CreateUnclaimed(s: State, uuid: Text, ok: bool)
    requires Mapped(s) && Unclaimed(s) && s.issued < WRAP && s.counter == s.issued
    ensures Unclaimed(CreateSession(s, uuid, ok).state)
  {
    hide PathOf, Mapped;
  }

  lemma DestroyUnclaimed(s: State, uuid: Text)
    requires Mapped(s) && Separate(s) && Unclaimed(s)
    ensures Unclaimed(DestroySession(s, uuid).state)
  {
    hide PathOf, Matches;
  }

  lemma ResolveUnclaimed(s: State, i: nat, context: Text)
    requires Unclaimed(s) && i < |s.lookups|
    ensures Unclaimed(Resolve(s, i, context).state)
  {
    hide PathOf;
  }

  lemma OtherUnclaimed(s: State, ev: Event)
    requires Unclaimed(s) && Enabled(s, ev) && !ev.OnCreate? && !ev.OnDestroy? && !ev.OnContext?
    ensures Unclaimed(Step(s, ev).state)
  {
    hide PathOf;
  }

  lemma StepUnclaimed(s: State, ev: Event)
    requires Consistent(s) && Separate(s) && Unclaimed(s) && Enabled(s, ev) && Step(s, ev).state.issued <= WRAP
    ensures Unclaimed(Step(s, ev).state)
  {
    hide PathOf, Mapped, Numbered, Separate, Unclaimed;
    if s.issued < WRAP { CounterSteps(s.issued); NumberedCounter(s); }
    match ev
    case OnCreate(uuid, ok) => CreateUnclaimed(s, uuid, ok);
    case OnDestroy(uuid) => DestroyUnclaimed(s, uuid);
    case OnContext(i, context) => ResolveUnclaimed(s, i, context);
    case _ => OtherUnclaimed(s, ev);
  }

  lemma {:induction false} RunUnclaimed(s: State, evs: seq<Event>)
    requires Consistent(s) && Separate(s) && Unclaimed(s) && Legal(s, evs) && Run(s, evs).issued <= WRAP
    ensures Unclaimed(Run(s, evs))
    decreases |evs|
  {
    if evs != [] {
      var t := Step(s, evs[0]).state;
      StepConsistent(s, evs[0]);
      RunConsistent(t, evs[1..]);
      StepSeparate(s, evs[0]);
      StepUnclaimed(s, evs[0]);
      hide Consistent, Separate, Unclaimed, Step;
      RunUnclaimed(t, evs[1..]);
    }
  }

  /** What became of a session: its player is gone or its UUID forgotten, or it is
      there with this lifetime. */
  datatype Fate = Gone | Kept(lifetime: Lifetime)

  function FateAfter(f: Fate, ev: Event, uuid: Text, key: Key): Fate {
    if f.Gone? then Gone else
      match ev
      case OnDestroy(u) => if u == uuid then Gone else f
      case OnLifetime(k, lifetime) => if k == key then Kept(lifetime) else f
      case OnDetach(u, sender) => if u == uuid && sender then Kept(Resumable) else f
      case OnClientGone(k) => if k == key && f.lifetime == Normal then Gone else f
      case _ => f
  }

  /** The fate of a session, told from the requests alone. */
  function FateOf(f: Fate, evs: seq<Event>, uuid: Text, key: Key): Fate
    decreases |evs|
  {
    if evs == [] then f else FateOf(FateAfter(f, evs[0], uuid, key), evs[1..], uuid, key)
  }

  /** The session `uuid` of `owner` has met that fate, and nobody is destroying it if
      it is there. */
  ghost predicate Meets(s: State, uuid: Text, key: Key, owner: Text, f: Fate) {
    && uuid in s.used && Issued(s, key) && (uuid in s.uuids ==> s.uuids[uuid] == key)
    && match f
       case Gone => !Reachable(s, uuid)
       case Kept(lifetime) =>
         && uuid in s.uuids && key in s.owners && s.owners[key] == owner
         && key in s.store && s.store[key] == lifetime
         && forall i :: 0 <= i < |s.lookups| ==> s.lookups[i] != Destroy(key)
  }

  lemma CreateMeets(s: State, ev: Event, uuid: Text, key: Key, owner: Text, f: Fate)
    requires Enabled(s, ev) && (ev.OnCreate? || ev.OnCreateFixed?)
    requires s.issued < WRAP ==> s.counter == s.issued
    requires Meets(s, uuid, key, owner, f) && Step(s, ev).state.issued <= WRAP
    ensures Meets(Step(s, ev).state, uuid, key, owner, f)
  {
    hide PathOf, Matches;
  }

  lemma DestroyMeets(s: State, u: Text, uuid: Text, key: Key, owner: Text, f: Fate)
    requires Separate(s) && Meets(s, uuid, key, owner, f)
    ensures Meets(DestroySession(s, u).state, uuid, key, owner, FateAfter(f, OnDestroy(u), uuid, key))
  {
    hide PathOf;
  }

  lemma DetachMeets(s: State, u: Text, sender: bool, uuid: Text, key: Key, owner: Text, f: Fate)
    requires Separate(s) && Meets(s, uuid, key, owner, f)
    ensures Meets(DetachSession(s, u, sender).state, uuid, key, owner, FateAfter(f, OnDetach(u, sender), uuid, key))
  {
    hide PathOf;
  }

  lemma ResolveMeets(s: State, i: nat, context: Text, uuid: Text, key: Key, owner: Text, f: Fate)
    requires i < |s.lookups| && Meets(s, uuid, key, owner, f)
    ensures Meets(Resolve(s, i, context).state, uuid, key, owner, f)
  {
    hide PathOf;
  }

  lemma StepMeets(s: State, ev: Event, uuid: Text, key: Key, owner: Text, f: Fate)
    requires Consistent(s) && Separate(s) && Enabled(s, ev) && Step(s, ev).state.issued <= WRAP
    requires Meets(s, uuid, key, owner, f)
    ensures Meets(Step(s, ev).state, uuid, key, owner, FateAfter(f, ev, uuid, key))
  {
    if s.issued < WRAP { CounterSteps(s.issued); NumberedCounter(s); }
    hide PathOf, Mapped, Numbered, Separate;
    match ev
    case OnCreate(_, _) => CreateMeets(s, ev, uuid, key, owner, f);
    case OnCreateFixed(_, _, _) => CreateMeets(s, ev, uuid, key, owner, f);
    case OnDestroy(u) => DestroyMeets(s, u, uuid, key, owner, f);
    case OnDetach(u, sender) => DetachMeets(s, u, sender, uuid, key, owner, f);
    case OnContext(i, context) => ResolveMeets(s, i, context, uuid, key, owner, f);
    case _ =>
  }

  lemma {:induction false} RunMeets(s: State, evs: seq<Event>, uuid: Text, key: Key, owner: Text, f: Fate)
    requires Consistent(s) && Separate(s) && Legal(s, evs) && Run(s, evs).issued <= WRAP
    requires Meets(s, uuid, key, owner, f)
    ensures Meets(Run(s, evs), uuid, key, owner, FateOf(f, evs, uuid, key))
    decreases |evs|
  {
    if evs != [] {
      var t := Step(s, evs[0]).state;
      StepConsistent(s, evs[0]);
      RunConsistent(t, evs[1..]);
      StepSeparate(s, evs[0]);
      StepMeets(s, evs[0], uuid, key, owner, f);
      hide Consistent, Separate, Meets, Step, FateAfter;
      RunMeets(t, evs[1..], uuid, key, owner, FateAfter(f, evs[0], uuid, key));
    }
  }

  /** Coming back to a session after anything at all: a reattach is accepted exactly if
      the requests in between have kept the session, and is then answered with its
      path exactly if it comes from the owner; anyone else is refused. */
  lemma ComesBackIff(start: State, before: seq<Event>, uuid: Text, after: seq<Event>, context: Text)
    requires IsStart(start) && Legal(start, before)
    requires Reachable(Run(start, before), uuid) && Run(start, before).uuids[uuid] in Run(start, before).owners
    requires Legal(Run(start, before), after) && Run(Run(start, before), after).issued <= WRAP
    ensures var s, t := Run(start, before), Run(Run(start, before), after);
            var key := s.uuids[uuid];
            if FateOf(Kept(s.store[key]), after, uuid, key).Kept? then
              && ReattachSession(t, uuid).answer == Later
              && Resolve(ReattachSession(t, uuid).state, |t.lookups|, context).answer
                 == if context == s.owners[key] then Path(PathOf(key)) else Refused
            else ReattachSession(t, uuid).answer == Refused
  {
    var s := Run(start, before);
    var key := s.uuids[uuid];
    RunConsistent(start, before);
    RunConsistent(s, after);
    RunSeparate(start, before);
    RunUnclaimed(start, before);
    ReachableMeets(s, uuid);
    hide Consistent, Separate, Unclaimed, Meets, Run, Legal, FateOf;
    RunMeets(s, after, uuid, key, s.owners[key], Kept(s.store[key]));
    MetComesBack(Run(s, after), uuid, key, s.owners[key], FateOf(Kept(s.store[key]), after, uuid, key), context);
  }

  lemma ReachableMeets(s: State, uuid: Text)
    requires Mapped(s) && Unclaimed(s) && Reachable(s, uuid) && s.uuids[uuid] in s.owners
    ensures Meets(s, uuid, s.uuids[uuid], s.owners[s.uuids[uuid]], Kept(s.store[s.uuids[uuid]]))
  {
  }

  lemma MetComesBack(t: State, uuid: Text, key: Key, owner: Text, f: Fate, context: Text)
    requires Meets(t, uuid, key, owner, f)
    ensures if f.Kept? then
              && ReattachSession(t, uuid).answer == Later
              && Resolve(ReattachSession(t, uuid).state, |t.lookups|, context).answer
                 == if context == owner then Path(PathOf(key)) else Refused
            else ReattachSession(t, uuid).answer == Refused
  {
    hide PathOf;
  }

  /** A detached session is kept by everything but a destroy request for it and a
      client that makes it normal again... */
  lemma {:induction false} DetachedIsKept(evs: seq<Event>, uuid: Text, key: Key)
    requires OnDestroy(uuid) !in evs && OnLifetime(key, Normal) !in evs
    ensures FateOf(Kept(Resumable), evs, uuid, key) == Kept(Resumable)
    decreases |evs|
  {
    if evs != [] {
      assert evs[0] in evs && forall ev :: ev in evs[1..] ==> ev in evs;
      assert forall l :: evs[0] == OnLifetime(key, l) ==> l == Resumable;
      DetachedIsKept(evs[1..], uuid, key);
    }
  }

  /** ...so that its owner, and nobody else, can come back to it. */
  lemma DetachedComesBackIff(start: State, before: seq<Event>, uuid: Text, after: seq<Event>, context: Text)
    requires IsStart(start) && Legal(start, before)
    requires Reachable(Run(start, before), uuid) && Run(start, before).uuids[uuid] in Run(start, before).owners
    requires Legal(Run(start, before), [OnDetach(uuid, true)] + after)
    requires Run(Run(start, before), [OnDetach(uuid, true)] + after).issued <= WRAP
    requires OnDestroy(uuid) !in after && OnLifetime(Run(start, before).uuids[uuid], Normal) !in after
    ensures var s, t := Run(start, before), Run(Run(start, before), [OnDetach(uuid, true)] + after);
            var key := s.uuids[uuid];
            && ReattachSession(t, uuid).answer == Later
            && Resolve(ReattachSession(t, uuid).state, |t.lookups|, context).answer
               == if context == s.owners[key] then Path(PathOf(key)) else Refused
  {
    var key := Run(start, before).uuids[uuid];
    ComesBackIff(start, before, uuid, [OnDetach(uuid, true)] + after, context);
    assert ([OnDetach(uuid, true)] + after)[1..] == after;
    hide Run, Legal;
    DetachedIsKept(after, uuid, key);
  }

  /** The second exception is real: a client that makes a session normal again and goes
      takes it away from its owner, detached or not, whatever happens later. */
  lemma NormalAgainIsGone(start: State, before: seq<Event>, uuid: Text, after: seq<Event>)
    requires IsStart(start) && Legal(start, before)
    requires Reachable(Run(start, before), uuid) && Run(start, before).uuids[uuid] in Run(start, before).owners
    requires var key := Run(start, before).uuids[uuid];
             var evs := [OnLifetime(key, Normal), OnClientGone(key)] + after;
             Legal(Run(start, before), evs) && Run(Run(start, before), evs).issued <= WRAP
    ensures var key := Run(start, before).uuids[uuid];
            var evs := [OnLifetime(key, Normal), OnClientGone(key)] + after;
            ReattachSession(Run(Run(start, before), evs), uuid).answer == Refused
  {
    var key := Run(start, before).uuids[uuid];
    var evs := [OnLifetime(key, Normal), OnClientGone(key)] + after;
    ComesBackIff(start, before, uuid, evs, Text(""));
    hide Run, Legal, FateOf;
    NormalAgain(Run(start, before).store[key], after, uuid, key);
  }

  lemma NormalAgain(lifetime: Lifetime, after: seq<Event>, uuid: Text, key: Key)
    ensures FateOf(Kept(lifetime), [OnLifetime(key, Normal), OnClientGone(key)] + after, uuid, key) == Gone
  {
    var evs := [OnLifetime(key, Normal), OnClientGone(key)] + after;
    var rest := evs[1..];
    assert rest[0] == OnClientGone(key) && rest[1..] == after;
    assert FateOf(Kept(Normal), rest, uuid, key) == FateOf(Gone, after, uuid, key);
    GoneStays(after, uuid, key);
  }

  lemma {:induction false} GoneStays(evs: seq<Event>, uuid: Text, key: Key)
    ensures FateOf(Gone, evs, uuid, key) == Gone
    decreases |evs|
  {
    if evs != [] { GoneStays(evs[1..], uuid, key); }
  }

  // --- The service's own fields ---

  class ServiceSkeleton {
    var sessionCounter: nat
    var namedPlayerMap: map<Text, Key>
    var uuidPlayerMap: map<Text, Key>
    var playerOwnerMap: map<Key, Text>
    var playerStore: map<Key, Lifetime>
    var lookups: seq<Lookup>
    ghost var issued: nat
    ghost var sessions: seq<Session>
    ghost var createReplies: seq<CreateReply>
    ghost var fixedReplies: seq<FixedReply>
    ghost var used: set<Text>
    ghost var destroyed: set<Text>

    ghost function View(): State
      reads this
    {
      State(sessionCounter, namedPlayerMap, uuidPlayerMap, playerOwnerMap, playerStore, lookups,
            issued, sessions, createReplies, fixedReplies, used, destroyed)
    }

    constructor ()
      ensures IsStart(View())
    {
      sessionCounter, namedPlayerMap, uuidPlayerMap, playerOwnerMap := 0, map[], map[], map[];
      playerStore, lookups := map[], [];
      issued, sessions, createReplies, fixedReplies, used, destroyed := 0, [], [], [], {}, {};
    }

    method CreateSessionInfo(uuid: Text) returns (key: Key)
      modifies this`sessionCounter, this`issued, this`used
      ensures key == old(sessionCounter)
      ensures View() == Issue(old(View())).(used := old(used) + {uuid})
    {
      key := sessionCounter;
      sessionCounter := (sessionCounter + 1) % WRAP;
      issued, used := issued + 1, used + {uuid};
    }

    method HandleCreateSession(uuid: Text, ok: bool) returns (a: Answer)
      modifies this
      ensures Outcome(View(), a) == CreateSession(old(View()), uuid, ok)
    {
      ghost var number := issued;
      var key := CreateSessionInfo(uuid);
      if !ok {
        return Refused;
      }
      playerStore := playerStore[key := Normal];
      sessions := sessions + [Session(number, key)];
      if uuid !in uuidPlayerMap {
        uuidPlayerMap := uuidPlayerMap[uuid := key];
      }
      lookups := lookups + [AttachOwner(key)];
      createReplies := createReplies + [CreateReply(number, uuid, PathOf(key))];
      return PathAndUuid(PathOf(key), uuid);
    }

    method HandleCreateFixedSession(name: Text, uuid: Text, ok: bool) returns (a: Answer)
      modifies this
      ensures Outcome(View(), a) == CreateFixed(old(View()), name, uuid, ok)
    {
      if name !in namedPlayerMap {
        ghost var number := issued;
        var key := CreateSessionInfo(uuid);
        if !ok {
          return Refused;
        }
        playerStore := playerStore[key := Resumable];
        sessions := sessions + [Session(number, key)];
        namedPlayerMap := namedPlayerMap[name := key];
        a := Path(PathOf(key));
      } else {
        var key := namedPlayerMap[name];
        if key !in playerStore {
          return Refused;
        }
        a := Path(PathOf(key));
      }
      fixedReplies := fixedReplies + [FixedReply(name, a.path)];
    }

    method HandleResumeSession(key: Key) returns (a: Answer)
      ensures Outcome(View(), a) == ResumeSession(View(), key)
    {
      if key !in playerStore {
        return Refused;
      }
      return Path(PathOf(key));
    }

    method HandleReattachSession(uuid: Text) returns (a: Answer)
      modifies this`lookups
      ensures Outcome(View(), a) == ReattachSession(old(View()), uuid)
    {
      if uuid !in uuidPlayerMap {
        return Refused;
      }
      var key := uuidPlayerMap[uuid];
      if key !in playerStore {
        return Refused;
      }
      lookups := lookups + [Reattach(key)];
      return Later;
    }

    method HandleDestroySession(uuid: Text) returns (a: Answer)
      modifies this`lookups, this`uuidPlayerMap, this`destroyed
      ensures Outcome(View(), a) == DestroySession(old(View()), uuid)
    {
      if uuid !in uuidPlayerMap {
        return Refused;
      }
      var key := uuidPlayerMap[uuid];
      if key !in playerStore {
        return Refused;
      }
      uuidPlayerMap, destroyed := uuidPlayerMap - {uuid}, destroyed + {uuid};
      lookups := lookups + [Destroy(key)];
      return Later;
    }

    method HandleDetachSession(uuid: Text, sender: bool) returns (a: Answer)
      modifies this`playerStore
      ensures Outcome(View(), a) == DetachSession(old(View()), uuid, sender)
    {
      if uuidPlayerMap != map[] {
        if uuid !in uuidPlayerMap {
          return Uncaught;
        }
        var key := uuidPlayerMap[uuid];
        if key in playerOwnerMap {
          if sender {
            if key !in playerStore {
              return Uncaught;
            }
            playerStore := playerStore[key := Resumable];
          }
        }
      }
      return Done;
    }

    method OnContextResolved(i: nat, context: Text) returns (a: Answer)
      requires i < |lookups|
      modifies this`lookups, this`playerOwnerMap, this`playerStore
      ensures Outcome(View(), a) == Resolve(old(View()), i, context)
    {
      var lookup := lookups[i];
      lookups := lookups[..i] + lookups[i + 1..];
      match lookup
      case AttachOwner(key) =>
        if key !in playerOwnerMap {
          playerOwnerMap := playerOwnerMap[key := context];
        }
        a := Silent;
      case Reattach(key) =>
        if key !in playerOwnerMap {
          return Uncaught;
        }
        if playerOwnerMap[key] != context {
          return Refused;
        }
        if key !in playerStore {
          return Uncaught;
        }
        a := Path(PathOf(key));
      case Destroy(key) =>
        if key !in playerOwnerMap {
          return Uncaught;
        }
        if playerOwnerMap[key] != context {
          return Refused;
        }
        playerOwnerMap := playerOwnerMap - {key};
        if key !in playerStore {
          return Uncaught;
        }
        playerStore := playerStore[key := Normal];
        a := Done;
    }

    method OnLifetimeWritten(key: Key, lifetime: Lifetime)
      modifies this`playerStore
      ensures View() == SetLifetime(old(View()), key, lifetime)
    {
      if key in playerStore {
        playerStore := playerStore[key := lifetime];
      }
    }

    method OnClientDisconnected(key: Key)
      modifies this`playerStore
      ensures View() == ClientGone(old(View()), key)
    {
      if key !in playerStore {
        return;
      }
      if playerStore[key] == Normal {
        playerStore := playerStore - {key};
      }
    }
  }
}
