/** Who is listed where, and what that means for forwarding: the handlers of one session, of other
    sessions and of publishers interleave, and AddSubscriber and AddStream are two lock regions. */
module Membership {
  import opened Relay
  import opened Routing

  ghost predicate Reachable(s: World) {
    exists steps :: Run(INIT, steps, s)
  }

  /** The session has a subscription on the stream. */
  ghost predicate Holds(r: R.State, session: Session, n: nat) {
    exists k :: k in r.subscribed && k.session == session && r.subscribed[k] == n
  }

  /** The session's handler is between AddSubscriber and AddStream on the stream. */
  predicate Half(s: World, session: Session, n: nat) {
    && session in s.handlers.serving
    && s.handlers.serving[session].Filing? && s.handlers.serving[session].stream == n
  }

  ghost predicate Joined(s: World, session: Session, n: nat) {
    Holds(s.relay, session, n) || Half(s, session, n)
  }

  /** A session that a stream lists, or that is being forwarded to, has a subscription on the stream
      or is about to file one; and the first handler to get there leaves the session listed. */
  ghost predicate Members(s: World) {
    && (forall m :: m in s.relay.members ==> Joined(s, m.session, m.stream))
    && (forall f :: f in s.data.forwarding && f.source in s.data.arrived ==> Joined(s, f.session, s.data.arrived[f.source]))
    && (forall session, n :: Half(s, session, n) && !Holds(s.relay, session, n) ==> Member(n, session) in s.relay.members)
  }

  /** Subscriptions are never dropped or moved: each request is served once. */
  lemma SubscribedKept(s: World, step: Step, k: Key)
    requires Chained(s) && Enabled(s, step) && k in s.relay.subscribed
    ensures k in Apply(s, step).relay.subscribed && Apply(s, step).relay.subscribed[k] == s.relay.subscribed[k]
  {
    if step.File? {
      hide StreamId, Filed, Carried, Reached;
    } else {
      hide Apply, Enabled, Chained;
      FrameTables(s, step);
    }
  }

  lemma HoldsStep(s: World, step: Step, session: Session, n: nat)
    requires Chained(s) && Enabled(s, step) && Holds(s.relay, session, n)
    ensures Holds(Apply(s, step).relay, session, n)
  {
    hide Apply, Enabled, Chained;
    var k :| k in s.relay.subscribed && k.session == session && s.relay.subscribed[k] == n;
    SubscribedKept(s, step, k);
  }

  lemma HalfStep(s: World, step: Step, session: Session, n: nat)
    requires Chained(s) && Enabled(s, step) && Half(s, session, n)
    ensures Joined(Apply(s, step), session, n)
  {
    if step.File? {
      HalfFiled(s, step.session, session, n);
    } else if step.PickUp? || step.Lookup? || step.Open? || step.List? {
      hide StreamId, Chained, Unlocked, Matches, Holds;
    } else {
      hide Apply, Enabled, Chained, Holds;
      FrameMessages(s, step);
    }
  }

  lemma HalfFiled(s: World, filing: Session, session: Session, n: nat)
    requires Chained(s) && Enabled(s, File(filing)) && Half(s, session, n)
    ensures Joined(Apply(s, File(filing)), session, n)
  {
    hide StreamId, Filed, Carried, Reached;
    var s' := Apply(s, File(filing));
    if filing == session {
      var key := s.handlers.serving[session].q.key;
      assert key in s'.relay.subscribed && s'.relay.subscribed[key] == n;
    }
  }

  lemma JoinedStep(s: World, step: Step, session: Session, n: nat)
    requires Chained(s) && Enabled(s, step) && Joined(s, session, n)
    ensures Joined(Apply(s, step), session, n)
  {
    hide Apply, Enabled, Chained, Holds, Half;
    if Holds(s.relay, session, n) {
      HoldsStep(s, step, session, n);
    } else {
      HalfStep(s, step, session, n);
    }
  }

  /** Only List adds a member. */
  lemma NewMembers(s: World, step: Step)
    requires Enabled(s, step)
    ensures var s' := Apply(s, step);
            forall m :: m in s'.relay.members && m !in s.relay.members ==>
              step == List(m.session, m.stream) && Half(s', m.session, m.stream)
  {
    if step.List? || step.Unsubscribe? || step.CloseVisit? {
      hide Unlocked;
    } else {
      hide Half;
      FrameMembers(s, step);
      hide Apply, Enabled;
    }
  }

  lemma FrameMembers(s: World, step: Step)
    requires Enabled(s, step) && !step.List? && !step.Unsubscribe? && !step.CloseVisit?
    ensures Apply(s, step).relay.members == s.relay.members
  {
    hide StreamId, Unlocked, Finds, Matches;
  }

  /** Only ForwardStream starts goroutines, for the listed sessions; no data stream changes its RelayStream. */
  lemma NewGoroutines(s: World, step: Step)
    requires Enabled(s, step)
    ensures var d, d' := s.data, Apply(s, step).data;
            && (forall f :: f in d'.forwarding && f !in d.forwarding ==>
                  step == ForwardStream(f.source) && Member(d.arrived[f.source], f.session) in s.relay.members)
            && (forall i :: i in d.arrived ==> i in d'.arrived && d'.arrived[i] == d.arrived[i])
            && (forall i :: i in d'.arrived && i !in d.arrived ==> step == AcceptStream(i))
  {
    if MovesData(step) {
      hide StreamId, Unlocked, Finds, Matches;
    } else {
      hide Apply, Enabled;
      FrameData(s, step);
    }
  }

  /** A session leaves a stream only on account of a subscription it has there, or in peace. */
  lemma Leavers(s: World, step: Step, session: Session, n: nat)
    requires Chained(s) && Members(s) && Enabled(s, step)
    requires Half(Apply(s, step), session, n) && !Holds(s.relay, session, n)
    ensures Member(n, session) in Apply(s, step).relay.members
  {
    hide StreamId, Unlocked, Finds, Matches, Filed, Requested, Carried, Reached;
    if !step.CloseVisit? && !step.Unsubscribe? {
      hide Holds;
    }
  }

  lemma MembersStep(s: World, step: Step)
    requires Chained(s) && Members(s) && Enabled(s, step)
    ensures Members(Apply(s, step))
  {
    hide Apply, Enabled, Filed, Requested, Reached, Holds, Half, Joined;
    var s' := Apply(s, step);
    NewMembers(s, step);
    NewGoroutines(s, step);
    forall m | m in s'.relay.members ensures Joined(s', m.session, m.stream) {
      if m in s.relay.members {
        JoinedStep(s, step, m.session, m.stream);
      } else {
        HalfJoins(s', m.session, m.stream);
      }
    }
    forall f | f in s'.data.forwarding && f.source in s'.data.arrived
      ensures Joined(s', f.session, s'.data.arrived[f.source])
    {
      if f !in s.data.forwarding {
        Starts(s, step);
      }
      JoinedStep(s, step, f.session, s.data.arrived[f.source]);
    }
    forall session, n | Half(s', session, n) && !Holds(s'.relay, session, n)
      ensures Member(n, session) in s'.relay.members
    {
      if Holds(s.relay, session, n) {
        HoldsStep(s, step, session, n);
        assert false;
      }
      Leavers(s, step, session, n);
    }
  }

  lemma Starts(s: World, step: Step)
    requires Enabled(s, step)
    ensures step.ForwardStream? ==> step.source in s.data.arrived && step.source !in s.data.audience
  {
  }

  lemma HalfJoins(s: World, session: Session, n: nat)
    requires Half(s, session, n)
    ensures Joined(s, session, n)
  {
  }

  lemma {:induction false} MembersRun(s: World, steps: seq<Step>, s': World)
    requires Chained(s) && Members(s) && Run(s, steps, s')
    ensures Chained(s') && Members(s')
    decreases |steps|
  {
    hide Chained, Members, Apply, Enabled;
    if steps != [] {
      ChainedStep(s, steps[0]);
      MembersStep(s, steps[0]);
      MembersRun(Apply(s, steps[0]), steps[1..], s');
    }
  }

  lemma Invariants(s: World)
    requires Reachable(s)
    ensures Chained(s) && Members(s)
  {
    hide Run, Chained, Joined;
    var steps :| Run(INIT, steps, s);
    InitChained(iset{});
    MembersRun(INIT, steps, s);
  }

  /** In every reachable state: a session that a stream lists has a subscription on it, unless its
      handler is just about to file one; and then, if there is no other, the stream does list it. */
  lemma ListedIsSubscribed(s: World, session: Session, n: nat)
    requires Reachable(s)
    ensures Member(n, session) in s.relay.members ==> Holds(s.relay, session, n) || Half(s, session, n)
    ensures Half(s, session, n) ==> Holds(s.relay, session, n) || Member(n, session) in s.relay.members
  {
    hide Reachable, Chained, Holds, Half;
    Invariants(s);
  }

  // ----- the subscription lookup of a forwarding goroutine

  /** No request of the session for that stream ID has been filed yet. */
  ghost predicate NoneFiled(s: World, session: Session, streamId: Name) {
    forall k :: k in s.relay.subscribed && k.session == session && k in s.peers.subscriptions ==>
      StreamId(s.peers.subscriptions[k]) != streamId
  }

  /** In every reachable state the lookup for a forwarded data stream fails exactly when the session
      is between AddSubscriber and AddStream on its stream and no earlier request of the session for
      the same stream ID has got through. */
  lemma LookupFailsIfHalfServed(s: World, f: Forwarding)
    requires Reachable(s) && f in s.data.forwarding
    ensures f.source in s.data.arrived && f.source < |s.data.upstream|
    ensures Enabled(s, Miss(f)) <==>
            && Half(s, f.session, s.data.arrived[f.source])
            && NoneFiled(s, f.session, StreamId(s.data.upstream[f.source].track))
  {
    hide Reachable, StreamId, Reached;
    Invariants(s);
    var n := s.data.arrived[f.source];
    var x := s.relay.streams[n].streamId;
    assert Joined(s, f.session, n);
    forall k ensures Finds(s, f, k) <==>
                     k in s.relay.subscribed && k.session == f.session && StreamId(s.peers.subscriptions[k]) == x
    {
    }
    if Holds(s.relay, f.session, n) {
      var k :| k in s.relay.subscribed && k.session == f.session && s.relay.subscribed[k] == n;
      assert Finds(s, f, k);
    }
  }

  /** What a data stream's lookup missed stays missed: a data stream already forwarded reaches a
      subscription neither live nor by replay if no goroutine is at it and no replay was started. */
  ghost predicate Lost(s: World, key: Key, i: nat) {
    && key in s.relay.subscribed && i in s.data.audience
    && Forwarding(i, key.session) !in s.data.forwarding
    && (forall r :: r in s.data.replaying ==> r.key != key)
    && Flow(key, i) !in s.data.downstream && Flow(key, i) !in s.data.delivered
  }

  lemma LostStep(s: World, step: Step, key: Key, i: nat)
    requires Chained(s) && Lost(s, key, i) && Enabled(s, step)
    ensures Lost(Apply(s, step), key, i)
  {
    SubscribedKept(s, step, key);
    FrameForwarding(s, step);
    if step.File? || step.ForwardStream? || step.Forward? || step.Replay? || step.Deliver? {
      LostData(s, step, key, i);
    } else {
      hide Apply, Enabled, Chained;
    }
  }

  lemma LostData(s: World, step: Step, key: Key, i: nat)
    requires Requested(s) && Carried(s) && Lost(s, key, i) && Enabled(s, step)
    requires step.File? || step.ForwardStream? || step.Forward? || step.Replay? || step.Deliver?
    requires key in Apply(s, step).relay.subscribed
    ensures Lost(Apply(s, step), key, i)
  {
    hide StreamId, Carried;
    if !step.File? {
      hide Requested;
    }
  }

  lemma {:induction false} LostForGood(s: World, steps: seq<Step>, s': World, key: Key, i: nat)
    requires Chained(s) && Lost(s, key, i) && Run(s, steps, s')
    ensures Lost(s', key, i)
    decreases |steps|
  {
    hide Chained, Lost, Apply, Enabled;
    if steps != [] {
      ChainedStep(s, steps[0]);
      LostStep(s, steps[0], key, i);
      LostForGood(Apply(s, steps[0]), steps[1..], s', key, i);
    }
  }

  /** One publisher, and one subscriber whose handler has just got a new stream for its request. */
  lemma StreamAtHand(t: Track) returns (steps: seq<Step>, s: World)
    ensures Run(INIT, steps, s) && Uses(steps, iset{t}) && s.data == INIT.data
    ensures var q := Request(Key(SUB, 1), t);
            && s.relay == OnOpen(EMPTY.(namespaces := map[t.ns := PUB]), PUB, 1, t, 0)
            && s.handlers == At(INIT, SUB, Joining(q, 0, false)).handlers
            && s.peers == Peers(map[q.key := t], {q.key}, {(PUB, t.ns)}, {(PUB, t.ns)}, {}, {Request(Key(PUB, 1), t)}, {})
  {
    hide Run, Uses, StreamId, Unshared;
    var q, tracks := Request(Key(SUB, 1), t), iset{t};
    Nothing(tracks);
    steps, s := Then(INIT, [], INIT, SendAnnounce(PUB, t.ns), tracks);
    steps, s := Then(INIT, steps, s, RecordAnnounce(PUB, t.ns), tracks);
    steps, s := Then(INIT, steps, s, RelayAnnounce(PUB, t.ns), tracks);
    steps, s := Then(INIT, steps, s, Subscribe(q.key, t), tracks);
    steps, s := Then(INIT, steps, s, FileSubscription(q.key), tracks);
    steps, s := GetStream(INIT, steps, s, q, Fresh(1), tracks);
    assert s.peers.toRelay == {};
  }

  /** The first data stream arrives while the session is listed and its subscription not filed. */
  lemma ArrivesEarly(t: Track) returns (steps: seq<Step>, s: World)
    ensures Run(INIT, steps, s) && Uses(steps, iset{t})
    ensures s.peers.subscriptions == map[Key(SUB, 1) := t] && s.relay.subscribed == map[] && |s.relay.streams| == 1
    ensures s.handlers.serving == map[SUB := Filing(Request(Key(SUB, 1), t), 0, false)]
    ensures s.data == INIT.data.(upstream := [Request(Key(PUB, 1), t)], arrived := map[0 := 0],
              audience := map[0 := {SUB}], forwarding := {Forwarding(0, SUB)})
  {
    hide Run, Uses, StreamId;
    steps, s := StreamAtHand(t);
    steps, s := Then(INIT, steps, s, List(SUB, 0), iset{t});
    assert Listed(s.relay, 0) == {SUB};
    steps, s := FirstStream(INIT, steps, s, Request(Key(PUB, 1), t), iset{t});
  }

  lemma MissedLookup(t: Track) returns (steps: seq<Step>, s: World)
    ensures Run(INIT, steps, s) && Miss(Forwarding(0, SUB)) in steps
    ensures s.peers.subscriptions == map[Key(SUB, 1) := t] && s.relay.subscribed == map[Key(SUB, 1) := 0]
    ensures s.data == INIT.data.(upstream := [Request(Key(PUB, 1), t)], arrived := map[0 := 0], audience := map[0 := {SUB}])
  {
    hide Run, Uses, StreamId;
    steps, s := ArrivesEarly(t);
    steps, s := Then(INIT, steps, s, Miss(Forwarding(0, SUB)), iset{t});
    steps, s := Then(INIT, steps, s, File(SUB), iset{t});
  }

  /** For every track there is a run in which the lookup fails, and the very subscriber that made the
      relay subscribe upstream never gets the first data stream, whatever happens afterwards. */
  lemma LookupCanFail(t: Track) returns (steps: seq<Step>, s: World)
    ensures Run(INIT, steps, s) && Miss(Forwarding(0, SUB)) in steps
    ensures s.peers.subscriptions == map[Key(SUB, 1) := t] && s.relay.subscribed == map[Key(SUB, 1) := 0]
    ensures s.data.upstream == [Request(Key(PUB, 1), t)]
    ensures forall more, s' :: Run(s, more, s') ==> Lost(s', Key(SUB, 1), 0)
  {
    hide Run, Chained, Members;
    steps, s := MissedLookup(t);
    assert Reachable(s);
    Invariants(s);
    forall more, s' | Run(s, more, s') ensures Lost(s', Key(SUB, 1), 0) {
      LostForGood(s, more, s', Key(SUB, 1), 0);
    }
  }

  // ----- who gets a data stream

  /** How often the goroutine of one data stream and one session has done its lookup. */
  function Lookups(steps: seq<Step>, f: Forwarding): nat {
    if steps == [] then 0
    else Lookups(steps[1..], f) + if (steps[0].Forward? || steps[0].Miss?) && steps[0].f == f then 1 else 0
  }

  function Count(b: bool): nat {
    if b then 1 else 0
  }

  predicate Addressed(s: World, f: Forwarding) {
    f.source in s.data.audience && f.session in s.data.audience[f.source]
  }

  /** Each goroutine does its lookup once. */
  lemma LookupsStep(s: World, step: Step, f: Forwarding)
    requires Carried(s) && Enabled(s, step)
    ensures var s' := Apply(s, step);
            Lookups([step], f) + Count(f in s'.data.forwarding) + Count(Addressed(s, f))
            == Count(f in s.data.forwarding) + Count(Addressed(s', f))
  {
    OneLookup(step, f);
    FrameForwarding(s, step);
    if step.ForwardStream? {
      hide Lookups, Carries, Finds;
    } else if step.Forward? || step.Miss? {
      hide Lookups, Carries, Finds;
    } else {
      hide Apply, Enabled, Carried, Lookups;
    }
  }

  lemma OneLookup(step: Step, f: Forwarding)
    ensures Lookups([step], f) == Count((step.Forward? || step.Miss?) && step.f == f)
  {
    assert [step][1..] == [];
  }

  lemma {:induction false} LookupsRun(s: World, steps: seq<Step>, s': World, f: Forwarding)
    requires Chained(s) && Run(s, steps, s')
    ensures Lookups(steps, f) + Count(f in s'.data.forwarding) + Count(Addressed(s, f))
            == Count(f in s.data.forwarding) + Count(Addressed(s', f))
    decreases |steps|
  {
    hide Apply, Enabled, Filed, Requested, Carried, Reached, Addressed, Count;
    if steps != [] {
      ChainedStep(s, steps[0]);
      LookupsStep(s, steps[0], f);
      LookupsRun(Apply(s, steps[0]), steps[1..], s', f);
      assert [steps[0]][1..] == [] && Lookups([], f) == 0;
    }
  }

  /** Step j forwards data stream i, in state m. */
  ghost predicate ForwardedAt(s: World, steps: seq<Step>, i: nat, j: nat, m: World) {
    && j < |steps| && steps[j] == ForwardStream(i) && Run(s, steps[..j], m) && i in m.data.arrived
  }

  lemma AudienceStep(s: World, step: Step, i: nat)
    requires Enabled(s, step)
    ensures var d, d' := s.data, Apply(s, step).data;
            && (i in d.audience ==> i in d'.audience && d'.audience[i] == d.audience[i] && step != ForwardStream(i))
            && (i !in d.audience && i in d'.audience ==>
                  step == ForwardStream(i) && i in d.arrived && d'.audience[i] == Listed(s.relay, d.arrived[i]))
  {
    hide Listed;
    if MovesData(step) {
      hide Finds;
    } else {
      hide Apply, Enabled;
      FrameData(s, step);
    }
  }

  lemma {:induction false} AudienceKept(s: World, steps: seq<Step>, s': World, i: nat)
    requires i in s.data.audience && Run(s, steps, s')
    ensures i in s'.data.audience && s'.data.audience[i] == s.data.audience[i] && ForwardStream(i) !in steps
    decreases |steps|
  {
    hide Apply, Enabled;
    if steps != [] {
      AudienceStep(s, steps[0], i);
      AudienceKept(Apply(s, steps[0]), steps[1..], s', i);
    }
  }

  lemma {:induction false} AudienceIsListed(s: World, steps: seq<Step>, s': World, i: nat) returns (j: nat, m: World)
    requires i !in s.data.audience && i in s'.data.audience && Run(s, steps, s')
    ensures ForwardedAt(s, steps, i, j, m) && s'.data.audience[i] == Listed(m.relay, m.data.arrived[i])
    decreases |steps|
  {
    hide Apply, Enabled, Listed;
    AudienceStep(s, steps[0], i);
    var next := Apply(s, steps[0]);
    if i in next.data.audience {
      AudienceKept(next, steps[1..], s', i);
      j, m := 0, s;
    } else {
      j, m := AudienceIsListed(next, steps[1..], s', i);
      assert steps[..j + 1][1..] == steps[1..][..j];
      j := j + 1;
    }
  }

  /** Over every run: a data stream is forwarded at one moment, once to each session that its
      RelayStream lists at that moment, and to nobody else; a goroutine that has not done its one
      lookup is still at it. */
  lemma ForwardedToListed(steps: seq<Step>, s: World, i: nat) returns (j: nat, m: World)
    requires Run(INIT, steps, s) && i in s.data.audience
    ensures ForwardedAt(INIT, steps, i, j, m)
    ensures forall session :: var f := Forwarding(i, session);
              Lookups(steps, f) + Count(f in s.data.forwarding)
              == Count(Member(m.data.arrived[i], session) in m.relay.members)
  {
    hide Run, Lookups, Chained;
    j, m := AudienceIsListed(INIT, steps, s, i);
    InitChained(iset{});
    forall session
      ensures var f := Forwarding(i, session);
              Lookups(steps, f) + Count(f in s.data.forwarding)
              == Count(Member(m.data.arrived[i], session) in m.relay.members)
    {
      LookupsRun(INIT, steps, s, Forwarding(i, session));
    }
  }

  /** A session that a stream does not list gets none of the data streams forwarded on it from then
      on, for as long as no handler of the session lists it again. */
  lemma {:induction false} NothingForwardedUnlisted(s: World, steps: seq<Step>, s': World, n: nat, session: Session, i: nat)
    requires Member(n, session) !in s.relay.members && Run(s, steps, s') && List(session, n) !in steps
    requires i !in s.data.audience && i in s'.data.audience && i in s'.data.arrived && s'.data.arrived[i] == n
    ensures session !in s'.data.audience[i]
    decreases |steps|
  {
    hide Apply, Enabled, Half;
    var next := Apply(s, steps[0]);
    NewMembers(s, steps[0]);
    AudienceStep(s, steps[0], i);
    if i in next.data.audience {
      AudienceKept(next, steps[1..], s', i);
      ArrivedKept(s, steps, s', i);
    } else {
      NothingForwardedUnlisted(next, steps[1..], s', n, session, i);
    }
  }

  lemma {:induction false} ArrivedKept(s: World, steps: seq<Step>, s': World, i: nat)
    requires i in s.data.arrived && Run(s, steps, s')
    ensures i in s'.data.arrived && s'.data.arrived[i] == s.data.arrived[i]
    decreases |steps|
  {
    hide Apply, Enabled;
    if steps != [] {
      NewGoroutines(s, steps[0]);
      ArrivedKept(Apply(s, steps[0]), steps[1..], s', i);
    }
  }

  /** Over every run: once an UNSUBSCRIBE has been handled, no goroutine looks the session up for any
      data stream of that RelayStream, whichever of its subscriptions it would be for, until a
      handler lists the session there again; and other sessions keep their place. */
  lemma UnsubscribedGetsNothing(s: World, key: Key, steps: seq<Step>, s': World, i: nat)
    requires Reachable(s) && key in s.relay.subscribed && Enabled(s, Unsubscribe(key))
    requires Run(Apply(s, Unsubscribe(key)), steps, s') && List(key.session, s.relay.subscribed[key]) !in steps
    requires i in s'.data.arrived && s'.data.arrived[i] == s.relay.subscribed[key]
    ensures Lookups(steps, Forwarding(i, key.session)) == 0 && Forwarding(i, key.session) !in s'.data.forwarding
    ensures forall m :: m in s.relay.members && m.session != key.session ==> m in Apply(s, Unsubscribe(key)).relay.members
  {
    hide Run, Reachable, Filed, Requested, Reached, Lookups, Members;
    var m, f := Apply(s, Unsubscribe(key)), Forwarding(i, key.session);
    Invariants(s);
    ChainedStep(s, Unsubscribe(key));
    LookupsRun(m, steps, s', f);
    if i in m.data.audience {
      AudienceKept(m, steps, s', i);
      ArrivedKept(m, steps, s', i);
    } else if i in s'.data.audience {
      NothingForwardedUnlisted(m, steps, s', s.relay.subscribed[key], key.session, i);
    }
  }
}
