/** Subscriptions and data streams across publishers, one relay and subscribers: four tables chained
    by subscription IDs. One step per lock region or message; messages in flight are delivered in any
    order, and the handlers of different sessions interleave freely. */
module Routing {
  import opened Varint
  import opened Reader
  import R = Relay
  import opened Relay

  /** How far a session's serve loop is with a SUBSCRIBE. Looking: it knows the publisher. Opening:
      it found no stream to share when `seen` requests had gone upstream. Joining: it has its stream,
      which is not listing the session yet. Filing: listed, but not in SubscribedStreams yet. */
  datatype Stage =
    | Looking(q: Request, publisher: Session)
    | Opening(q: Request, publisher: Session, seen: nat)
    | Joining(q: Request, stream: nat, shared: bool)
    | Filing(q: Request, stream: nat, shared: bool)

  /** A ProcessMOQTStream goroutine that has not called WgDone: one data stream, one session. */
  datatype Forwarding = Forwarding(source: nat, session: Session)

  /** A cache replay started for one subscription. */
  datatype Replaying = Replaying(stream: nat, key: Key)

  /** Data of one upstream data stream sent under a subscriber's ID. */
  datatype Flow = Flow(key: Key, source: nat)

  /** serving: a session handles one message at a time. closing: the subscriptions that a running
      HandleClose has yet to visit. closed: sessions whose HandleClose has returned. */
  datatype Handlers = Handlers(
    serving: map<Session, Stage>,
    closing: map<Session, set<Key>>,
    closed: set<Session>)

  /** Publishers, subscribers and the control messages on their way. */
  datatype Peers = Peers(
    subscriptions: map<Key, Track>,      // every SUBSCRIBE ever sent by a subscriber
    filed: set<Key>,                     // SubHandler.SubscribedStreams of every subscriber
    announces: set<(Session, Name)>,     // ANNOUNCE messages sent
    announced: set<(Session, Name)>,     // PubHandler.AnnouncedStreams of every publisher
    toRelay: set<Request>,               // SUBSCRIBE messages in flight from subscribers
    toPublisher: set<Request>,           // SUBSCRIBE messages in flight from the relay
    pubStreams: set<Request>)            // PubStreams handed to publishing applications

  /** Data streams; one opened by a publisher is known by its place in upstream. */
  datatype Data = Data(
    upstream: seq<Request>,              // opened by publishers
    arrived: map<nat, nat>,              // accepted by the relay, and the RelayStream of each
    audience: map<nat, set<Session>>,    // forwarded, and the sessions each went to
    forwarding: set<Forwarding>,
    replaying: set<Replaying>,
    downstream: set<Flow>,               // opened by the relay
    delivered: set<Flow>)                // given to substreams

  datatype World = World(relay: R.State, handlers: Handlers, peers: Peers, data: Data)

  const INIT: World :=
    World(EMPTY, Handlers(map[], map[], {}), Peers(map[], {}, {}, {}, {}, {}, {}), Data([], map[], map[], {}, {}, {}, {}))

  datatype Step =
    | SendAnnounce(p: Session, ns: Name)
    | RecordAnnounce(p: Session, ns: Name)
    | RelayAnnounce(p: Session, ns: Name)
    | Subscribe(key: Key, track: Track)
    | FileSubscription(key: Key)
    | PickUp(q: Request)
    | Lookup(session: Session, found: Option<Key>)
    | Open(session: Session, u: u62)
    | List(session: Session, stream: nat)
    | File(session: Session)
    | PublisherSubscribe(q: Request)
    | OpenStream(q: Request)
    | AcceptStream(source: nat)
    | ForwardStream(source: nat)
    | Forward(f: Forwarding, key: Key, ok: bool)
    | Miss(f: Forwarding)
    | Replay(r: Replaying, source: nat)
    | Deliver(d: Flow)
    | Unsubscribe(key: Key)
    | CloseBegin(session: Session)
    | CloseVisit(key: Key)
    | CloseEnd(session: Session)

  /** ForwardStream holds the read lock of its RelayStream until every goroutine has called WgDone. */
  ghost predicate Unlocked(s: World, n: nat) {
    forall f :: f in s.data.forwarding && f.source in s.data.arrived ==> s.data.arrived[f.source] != n
  }

  /** GetSubID may answer k when the data stream is forwarded to the session. */
  predicate Finds(s: World, f: Forwarding, k: Key) {
    && f.source in s.data.arrived && s.data.arrived[f.source] < |s.relay.streams|
    && Subscribes(s.relay, f.session, s.relay.streams[s.data.arrived[f.source]].streamId, k)
  }

  /** The session's handler has got that far. */
  function At(s: World, session: Session, stage: Stage): World {
    s.(handlers := s.handlers.(serving := s.handlers.serving[session := stage]))
  }

  /** The sessions that a stream lists. */
  function Listed(r: R.State, n: nat): set<Session> {
    set m | m in r.members && m.stream == n :: m.session
  }

  ghost predicate Enabled(s: World, step: Step) {
    match step
    case SendAnnounce(_, _) => true
    case RecordAnnounce(p, ns) => (p, ns) in s.peers.announces
    case RelayAnnounce(p, ns) => (p, ns) in s.peers.announces
    case Subscribe(key, _) => key !in s.peers.subscriptions
    case FileSubscription(key) => key in s.peers.subscriptions
    case PickUp(q) => q in s.peers.toRelay && q.key.session !in s.handlers.serving
    case Lookup(session, found) =>
      && session in s.handlers.serving && s.handlers.serving[session].Looking?
      && var Looking(q, p) := s.handlers.serving[session];
      (match found
       case Some(k) => Matches(s.relay, p, StreamId(q.track), k) && !Unshared(q.track.name)
       case None => Unshared(q.track.name) || forall k :: !Matches(s.relay, p, StreamId(q.track), k))
    case Open(session, u) =>
      && session in s.handlers.serving && s.handlers.serving[session].Opening?
      && Key(s.handlers.serving[session].publisher, u) !in s.relay.incoming
    case List(session, n) =>
      && session in s.handlers.serving && s.handlers.serving[session].Joining?
      && s.handlers.serving[session].stream == n && Unlocked(s, n)
    case File(session) => session in s.handlers.serving && s.handlers.serving[session].Filing?
    case PublisherSubscribe(q) => q in s.peers.toPublisher
    case OpenStream(q) => q in s.peers.pubStreams
    case AcceptStream(i) => i < |s.data.upstream| && i !in s.data.arrived && s.data.upstream[i].key in s.relay.incoming
    case ForwardStream(i) => i in s.data.arrived && i !in s.data.audience
    case Forward(f, key, _) => f in s.data.forwarding && Finds(s, f, key)
    case Miss(f) => f in s.data.forwarding && forall k :: !Finds(s, f, k)
    case Replay(r, i) =>
      r in s.data.replaying && i in s.data.audience && i in s.data.arrived && s.data.arrived[i] == r.stream
    case Deliver(d) => d in s.data.downstream && d.key in s.peers.filed
    case Unsubscribe(key) =>
      key.session !in s.handlers.serving && (key in s.relay.subscribed ==> Unlocked(s, s.relay.subscribed[key]))
    case CloseBegin(session) => session !in s.handlers.closing
    case CloseVisit(key) =>
      key.session in s.handlers.closing && key in s.relay.subscribed && Unlocked(s, s.relay.subscribed[key])
    case CloseEnd(session) => session in s.handlers.closing && s.handlers.closing[session] == {}
  }

  ghost function Apply(s: World, step: Step): World
    requires Enabled(s, step)
  {
    var World(relay, handlers, peers, data) := s;
    match step
    case SendAnnounce(p, ns) => s.(peers := peers.(announces := peers.announces + {(p, ns)}))
    case RecordAnnounce(p, ns) => s.(peers := peers.(announced := peers.announced + {(p, ns)}))
    case RelayAnnounce(p, ns) => s.(relay := relay.(namespaces := relay.namespaces[ns := p]))
    case Subscribe(key, track) =>
      s.(peers := peers.(subscriptions := peers.subscriptions[key := track],
                         toRelay := peers.toRelay + {Request(key, track)}))
    case FileSubscription(key) => s.(peers := peers.(filed := peers.filed + {key}))
    case PickUp(q) =>
      var s' := s.(peers := peers.(toRelay := peers.toRelay - {q}));
      (match Publisher(relay, q.track.ns)
       case None => s'
       case Some(p) => At(s', q.key.session, Looking(q, p)))
    case Lookup(session, found) =>
      var Looking(q, p) := handlers.serving[session];
      (match found
       case Some(k) => At(s, session, Joining(q, relay.incoming[k], true))
       case None => At(s, session, Opening(q, p, |relay.requests|)))
    case Open(session, u) =>
      var Opening(q, p, seen) := handlers.serving[session];
      At(s, session, Joining(q, |relay.streams|, false))
      .(relay := OnOpen(relay, p, u, q.track, seen),
        peers := peers.(toPublisher := peers.toPublisher + {Request(Key(p, u), q.track)}))
    case List(session, n) =>
      var Joining(q, _, shared) := handlers.serving[session];
      At(s, session, Filing(q, n, shared)).(relay := OnList(relay, n, session))
    case File(session) =>
      var Filing(q, n, shared) := handlers.serving[session];
      s.(relay := OnFile(relay, q.key, n), handlers := handlers.(serving := handlers.serving - {session}),
         data := if shared then data.(replaying := data.replaying + {Replaying(n, q.key)}) else data)
    case PublisherSubscribe(q) =>
      var known := if (q.key.session, q.track.ns) in peers.announced then {q} else {};
      s.(peers := peers.(toPublisher := peers.toPublisher - {q}, pubStreams := peers.pubStreams + known))
    case OpenStream(q) => s.(data := data.(upstream := data.upstream + [q]))
    case AcceptStream(i) =>
      s.(data := data.(arrived := data.arrived[i := relay.incoming[data.upstream[i].key]]))
    case ForwardStream(i) =>
      var listed := Listed(relay, data.arrived[i]);
      s.(data := data.(audience := data.audience[i := listed],
                       forwarding := data.forwarding + set session | session in listed :: Forwarding(i, session)))
    case Forward(f, key, ok) =>
      s.(data := data.(forwarding := data.forwarding - {f},
                       downstream := data.downstream + if ok then {Flow(key, f.source)} else {}))
    case Miss(f) => s.(data := data.(forwarding := data.forwarding - {f}))
    case Replay(r, i) => s.(data := data.(downstream := data.downstream + {Flow(r.key, i)}))
    case Deliver(d) => s.(data := data.(delivered := data.delivered + {d}))
    case Unsubscribe(key) =>
      if key in relay.subscribed then s.(relay := OnLeave(relay, relay.subscribed[key], key.session)) else s
    case CloseBegin(session) =>
      var all := set k | k in relay.subscribed && k.session == session;
      s.(handlers := handlers.(closing := handlers.closing[session := all]))
    case CloseVisit(key) =>
      var left := handlers.closing[key.session] - {key};
      s.(relay := OnLeave(relay, relay.subscribed[key], key.session),
         handlers := handlers.(closing := handlers.closing[key.session := left]))
    case CloseEnd(session) =>
      s.(handlers := handlers.(closing := handlers.closing - {session}, closed := handlers.closed + {session}))
  }

  ghost predicate Run(s: World, steps: seq<Step>, s': World)
    decreases |steps|
  {
    if steps == [] then s' == s
    else Enabled(s, steps[0]) && Run(Apply(s, steps[0]), steps[1..], s')
  }

  /** Every subscription asks for a track of the given kind. */
  ghost predicate Uses(steps: seq<Step>, tracks: iset<Track>) {
    forall i :: 0 <= i < |steps| && steps[i].Subscribe? ==> steps[i].track in tracks
  }

  // ----- the chain of tables

  /** Stream n carries stream ID x. */
  predicate Carries(r: R.State, n: nat, x: Name) {
    n < |r.streams| && r.streams[n].streamId == x
  }

  /** The relay's own tables: every subscription is on a stream with the stream ID that was asked
      for, and every upstream request names the stream filed under its ID. */
  ghost predicate Filed(r: R.State, subs: map<Key, Track>) {
    && (forall k :: k in r.subscribed ==> k in subs && Carries(r, r.subscribed[k], StreamId(subs[k])))
    && (forall i :: 0 <= i < |r.requests| ==>
          r.requests[i].key in r.incoming && Carries(r, r.incoming[r.requests[i].key], StreamId(r.requests[i].track)))
    && (forall k :: k in r.incoming ==>
          && r.incoming[k] < |r.streams|
          && r.streams[r.incoming[k]].publisher == k.session
          && r.streams[r.incoming[k]].subId == k.id)
  }

  /** The request at hand was sent, and its subscription ID is not in use yet. */
  ghost predicate Wanted(s: World, q: Request) {
    q.key in s.peers.subscriptions && s.peers.subscriptions[q.key] == q.track && q.key !in s.relay.subscribed
  }

  ghost predicate Staged(s: World, session: Session, stage: Stage) {
    && stage.q.key.session == session && Wanted(s, stage.q) && stage.q !in s.peers.toRelay
    && (stage.Joining? || stage.Filing? ==> Carries(s.relay, stage.stream, StreamId(stage.q.track)))
  }

  ghost predicate Requested(s: World) {
    && (forall q :: q in s.peers.toRelay ==> Wanted(s, q))
    && (forall session :: session in s.handlers.serving ==> Staged(s, session, s.handlers.serving[session]))
    && (forall q :: q in s.peers.toPublisher || q in s.peers.pubStreams || q in s.data.upstream ==> q in s.relay.requests)
  }

  ghost predicate Carried(s: World) {
    && (forall i :: i in s.data.arrived ==>
          i < |s.data.upstream| && Carries(s.relay, s.data.arrived[i], StreamId(s.data.upstream[i].track)))
    && (forall i :: i in s.data.audience ==> i in s.data.arrived)
    && (forall f :: f in s.data.forwarding ==> f.source in s.data.audience && f.session in s.data.audience[f.source])
    && (forall p :: p in s.data.replaying ==> p.key in s.relay.subscribed && s.relay.subscribed[p.key] == p.stream)
  }

  /** The data was published for a track with the stream ID that was asked for. */
  ghost predicate Fits(s: World, d: Flow) {
    && d.key in s.peers.subscriptions && d.source < |s.data.upstream|
    && StreamId(s.peers.subscriptions[d.key]) == StreamId(s.data.upstream[d.source].track)
  }

  ghost predicate Reached(s: World) {
    forall d :: d in s.data.downstream || d in s.data.delivered ==> Fits(s, d)
  }

  ghost predicate Chained(s: World) {
    Filed(s.relay, s.peers.subscriptions) && Requested(s) && Carried(s) && Reached(s)
  }

  /** All tracks anywhere in the system were asked for by a subscriber. */
  ghost predicate Within(s: World, tracks: iset<Track>) {
    && (forall k :: k in s.peers.subscriptions ==> s.peers.subscriptions[k] in tracks)
    && (forall q :: q in s.relay.requests ==> q.track in tracks)
  }

  /** Which steps touch which tables: the relay's, the control messages', the data streams'. */
  lemma FrameTables(s: World, step: Step)
    requires Enabled(s, step)
    ensures var s' := Apply(s, step); var r, r' := s.relay, s'.relay;
            && (!step.File? ==> r'.subscribed == r.subscribed)
            && (!step.Open? ==> r'.(namespaces := r.namespaces, members := r.members, subscribed := r.subscribed) == r)
  {
    hide StreamId, Unlocked, Matches, Unshared, Finds;
  }

  lemma FrameMessages(s: World, step: Step)
    requires Enabled(s, step)
    ensures var s' := Apply(s, step);
            && (!step.Subscribe? ==> s'.peers.subscriptions == s.peers.subscriptions && s'.peers.toRelay <= s.peers.toRelay)
            && (!step.Open? && !step.PublisherSubscribe? ==>
                  s'.peers.toPublisher == s.peers.toPublisher && s'.peers.pubStreams == s.peers.pubStreams)
            && (!step.PickUp? && !step.Lookup? && !step.Open? && !step.List? && !step.File? ==>
                  s'.handlers.serving == s.handlers.serving)
  {
    hide StreamId, Unlocked, Matches, Unshared, Finds;
  }

  predicate MovesData(step: Step) {
    || step.OpenStream? || step.AcceptStream? || step.ForwardStream? || step.Forward? || step.Miss?
    || step.Replay? || step.Deliver? || step.File?
  }

  lemma FrameData(s: World, step: Step)
    requires Enabled(s, step) && !MovesData(step)
    ensures Apply(s, step).data == s.data
  {
    hide StreamId, Unlocked, Matches, Unshared, Finds;
  }

  lemma FrameForwarding(s: World, step: Step)
    requires Enabled(s, step)
    ensures var d, d' := s.data, Apply(s, step).data;
            && (!step.ForwardStream? ==> d'.audience == d.audience && d'.forwarding <= d.forwarding)
            && (!step.ForwardStream? && !step.Forward? && !step.Miss? ==> d'.forwarding == d.forwarding)
            && (!step.File? ==> d'.replaying == d.replaying)
            && (!step.Forward? && !step.Replay? ==> d'.downstream == d.downstream)
            && (!step.Deliver? ==> d'.delivered == d.delivered)
  {
    if MovesData(step) {
      hide StreamId, Finds;
    } else {
      hide Apply, Enabled;
      FrameData(s, step);
    }
  }

  lemma FiledStep(s: World, step: Step)
    requires Chained(s) && Enabled(s, step)
    ensures Filed(Apply(s, step).relay, Apply(s, step).peers.subscriptions)
  {
    hide Apply, Enabled, Carried, Reached, Requested, StreamId;
    if step.Subscribe? || step.File? {
      FiledChange(s, step);
    } else if step.Open? {
      FiledOpen(s, step.session, step.u);
    } else {
      FrameTables(s, step);
      FrameMessages(s, step);
    }
  }

  lemma FiledChange(s: World, step: Step)
    requires Chained(s) && Enabled(s, step) && (step.Subscribe? || step.File?)
    ensures Filed(Apply(s, step).relay, Apply(s, step).peers.subscriptions)
  {
    hide StreamId, Carried, Reached;
  }

  lemma FiledOpen(s: World, session: Session, u: u62)
    requires Chained(s) && Enabled(s, Open(session, u))
    ensures Filed(Apply(s, Open(session, u)).relay, Apply(s, Open(session, u)).peers.subscriptions)
  {
    hide StreamId, Carried, Reached, Requested;
  }

  lemma RequestedStep(s: World, step: Step)
    requires Chained(s) && Enabled(s, step)
    ensures Requested(Apply(s, step))
  {
    hide Apply, Enabled, Carried, Reached, StreamId, Filed;
    if step.Subscribe? || step.PickUp? {
      RequestedAsk(s, step);
    } else if step.Lookup? || step.Open? {
      RequestedFind(s, step);
    } else if step.List? || step.File? {
      RequestedJoin(s, step);
    } else {
      FrameTables(s, step);
      FrameMessages(s, step);
      if MovesData(step) || step.PublisherSubscribe? {
        RequestedPublish(s, step);
      } else {
        FrameData(s, step);
      }
    }
  }

  lemma RequestedAsk(s: World, step: Step)
    requires Chained(s) && Enabled(s, step) && (step.Subscribe? || step.PickUp?)
    ensures Requested(Apply(s, step))
  {
    hide StreamId, Carried, Reached;
  }

  lemma RequestedFind(s: World, step: Step)
    requires Chained(s) && Enabled(s, step) && (step.Lookup? || step.Open?)
    ensures Requested(Apply(s, step))
  {
    hide StreamId, Carried, Reached, Unshared;
  }

  lemma RequestedJoin(s: World, step: Step)
    requires Requested(s) && Enabled(s, step) && (step.List? || step.File?)
    ensures Requested(Apply(s, step))
  {
    hide StreamId, Unlocked;
  }

  /** Whatever is published was requested. */
  lemma RequestedPublish(s: World, step: Step)
    requires Requested(s) && Enabled(s, step) && (MovesData(step) || step.PublisherSubscribe?)
    ensures var s' := Apply(s, step);
            forall q :: q in s'.peers.toPublisher || q in s'.peers.pubStreams || q in s'.data.upstream ==>
              q in s.relay.requests
  {
    hide StreamId, Carried, Reached, Filed, Finds, Staged;
  }

  lemma CarriedStep(s: World, step: Step)
    requires Chained(s) && Enabled(s, step)
    ensures Carried(Apply(s, step))
  {
    hide Apply, Enabled, Reached, StreamId, Filed, Requested;
    if step.AcceptStream? {
      CarriedAccept(s, step.source);
    } else if step.OpenStream? || step.ForwardStream? || step.File? {
      CarriedMore(s, step);
    } else if MovesData(step) {
      CarriedLess(s, step);
    } else {
      FrameData(s, step);
      CarriedOpen(s, step);
    }
  }

  lemma CarriedAccept(s: World, i: nat)
    requires Chained(s) && Enabled(s, AcceptStream(i))
    ensures Carried(Apply(s, AcceptStream(i)))
  {
    hide StreamId, Reached;
    assert s.data.upstream[i] in s.relay.requests;
  }

  lemma CarriedMore(s: World, step: Step)
    requires Requested(s) && Carried(s) && Enabled(s, step)
    requires step.OpenStream? || step.ForwardStream? || step.File?
    ensures Carried(Apply(s, step))
  {
    hide StreamId;
    if !step.File? {
      hide Requested;
    }
  }

  lemma CarriedLess(s: World, step: Step)
    requires Carried(s) && Enabled(s, step)
    requires step.Forward? || step.Miss? || step.Replay? || step.Deliver?
    ensures Carried(Apply(s, step))
  {
    hide StreamId, Finds;
  }

  lemma CarriedOpen(s: World, step: Step)
    requires Carried(s) && Enabled(s, step) && !step.File?
    ensures var s' := Apply(s, step);
            && (forall n, x :: Carries(s.relay, n, x) ==> Carries(s'.relay, n, x))
            && s'.relay.subscribed == s.relay.subscribed
  {
    hide StreamId, Carried;
    if !step.Open? {
      hide Apply, Enabled;
    }
    FrameTables(s, step);
  }

  lemma ReachedStep(s: World, step: Step)
    requires Chained(s) && Enabled(s, step)
    ensures Reached(Apply(s, step))
  {
    hide Apply, Enabled, StreamId, Filed, Requested, Carried;
    if step.Forward? || step.Replay? {
      ReachedSend(s, step);
    } else if step.Subscribe? || MovesData(step) {
      ReachedOther(s, step);
    } else {
      FrameData(s, step);
      FrameMessages(s, step);
    }
  }

  lemma ReachedSend(s: World, step: Step)
    requires Chained(s) && Enabled(s, step) && (step.Forward? || step.Replay?)
    ensures Reached(Apply(s, step))
  {
    hide StreamId, Requested;
  }

  lemma ReachedOther(s: World, step: Step)
    requires Reached(s) && Enabled(s, step) && !step.Forward? && !step.Replay? && (step.Subscribe? || MovesData(step))
    ensures Reached(Apply(s, step))
  {
    hide StreamId, Finds;
  }

  lemma WithinStep(s: World, step: Step, tracks: iset<Track>)
    requires Chained(s) && Within(s, tracks) && Enabled(s, step) && (step.Subscribe? ==> step.track in tracks)
    ensures Within(Apply(s, step), tracks)
  {
    hide StreamId, Filed, Carried, Reached;
    if step.Open? || step.Subscribe? {
    } else {
      hide Apply, Enabled, Requested;
      FrameTables(s, step);
      FrameMessages(s, step);
    }
  }

  lemma ChainedStep(s: World, step: Step)
    requires Chained(s) && Enabled(s, step)
    ensures Chained(Apply(s, step))
  {
    hide Filed, Requested, Carried, Reached, Apply, Enabled;
    FiledStep(s, step);
    RequestedStep(s, step);
    CarriedStep(s, step);
    ReachedStep(s, step);
  }

  lemma {:induction false} ChainedRun(s: World, steps: seq<Step>, s': World, tracks: iset<Track>)
    requires Chained(s) && Within(s, tracks) && Run(s, steps, s') && Uses(steps, tracks)
    ensures Chained(s') && Within(s', tracks)
    decreases |steps|
  {
    hide Chained, Within, Apply, Enabled;
    if steps != [] {
      ChainedStep(s, steps[0]);
      WithinStep(s, steps[0], tracks);
      ChainedRun(Apply(s, steps[0]), steps[1..], s', tracks);
    }
  }

  // ----- routing integrity

  /** Every stream that reached a substream was published for the track the substream asked for. */
  ghost predicate Routed(s: World) {
    forall d :: d in s.data.delivered ==>
      && d.key in s.peers.subscriptions && d.source < |s.data.upstream|
      && s.data.upstream[d.source].track == s.peers.subscriptions[d.key]
  }

  ghost predicate InjectiveOn(tracks: iset<Track>) {
    forall a, b :: a in tracks && b in tracks && StreamId(a) == StreamId(b) ==> a == b
  }

  lemma RoutedIfInjective(steps: seq<Step>, s: World, tracks: iset<Track>)
    requires InjectiveOn(tracks) && Run(INIT, steps, s) && Uses(steps, tracks)
    ensures Routed(s)
  {
    hide StreamId, Run, Enabled, Apply, Filed, Carried;
    assert Chained(INIT) && Within(INIT, tracks) by {
      InitChained(tracks);
    }
    ChainedRun(INIT, steps, s, tracks);
    forall d | d in s.data.delivered ensures Fits(s, d) && s.data.upstream[d.source].track == s.peers.subscriptions[d.key] {
      assert s.data.upstream[d.source] in s.relay.requests;
    }
  }

  lemma InitChained(tracks: iset<Track>)
    ensures Chained(INIT) && Within(INIT, tracks)
  {
  }

  /** Two different tracks share a stream ID exactly when one namespace runs on, past an underscore,
      into what the other takes for the track name. */
  lemma StreamIdCollision(a: Track, b: Track)
    requires |a.ns| <= |b.ns|
    ensures StreamId(a) == StreamId(b) <==>
            a == b || (|a.ns| < |b.ns| && exists x :: b.ns == a.ns + [UNDERSCORE] + x && a.name == x + [UNDERSCORE] + b.name)
  {
    var i, j := StreamId(a), StreamId(b);
    if i == j {
      assert a.ns == b.ns[..|a.ns|] by {
        assert i[..|a.ns|] == a.ns && j[..|a.ns|] == b.ns[..|a.ns|];
      }
      if |a.ns| == |b.ns| {
        assert a.ns == b.ns;
        assert i[|a.ns| + 1..] == a.name && j[|b.ns| + 1..] == b.name;
      } else {
        var x := b.ns[|a.ns| + 1..];
        assert i[|a.ns|] == UNDERSCORE && j[|a.ns|] == b.ns[|a.ns|];
        assert b.ns == a.ns + [UNDERSCORE] + x;
        assert i[|a.ns| + 1..] == a.name && j[|a.ns| + 1..] == x + [UNDERSCORE] + b.name;
      }
    }
    if x :| b.ns == a.ns + [UNDERSCORE] + x && a.name == x + [UNDERSCORE] + b.name {
      assert StreamId(a) == a.ns + [UNDERSCORE] + x + [UNDERSCORE] + b.name;
    }
  }

  ghost function UnderscoreFree(): iset<Track> {
    iset t: Track | UNDERSCORE !in t.ns
  }

  lemma UnderscoreFreeInjective()
    ensures InjectiveOn(UnderscoreFree())
  {
    forall a, b | a in UnderscoreFree() && b in UnderscoreFree() && StreamId(a) == StreamId(b) ensures a == b {
      if |a.ns| <= |b.ns| {
        NoUnderscoreNoCollision(a, b);
      } else {
        NoUnderscoreNoCollision(b, a);
      }
    }
  }

  lemma NoUnderscoreNoCollision(a: Track, b: Track)
    requires UNDERSCORE !in b.ns && |a.ns| <= |b.ns| && StreamId(a) == StreamId(b)
    ensures a == b
  {
    hide StreamId;
    StreamIdCollision(a, b);
    assert forall x: Name :: (a.ns + [UNDERSCORE] + x)[|a.ns|] == UNDERSCORE;
  }

  // ----- and when it fails

  lemma {:induction false} RunThen(s: World, steps: seq<Step>, m: World, more: seq<Step>, s': World)
    requires Run(s, steps, m) && Run(m, more, s')
    ensures Run(s, steps + more, s')
    decreases |steps|
  {
    hide Apply, Enabled;
    if steps == [] {
      assert steps + more == more;
    } else {
      assert (steps + more)[1..] == steps[1..] + more;
      RunThen(Apply(s, steps[0]), steps[1..], m, more, s');
    }
  }

  lemma Prepend(s: World, step: Step, steps: seq<Step>, s': World)
    requires Enabled(s, step) && Run(Apply(s, step), steps, s')
    ensures Run(s, [step] + steps, s')
  {
    hide Enabled, Apply;
    assert ([step] + steps)[1..] == steps;
  }

  lemma Then(s: World, steps: seq<Step>, m: World, step: Step, tracks: iset<Track>) returns (steps': seq<Step>, m': World)
    requires Run(s, steps, m) && Enabled(m, step) && Uses(steps, tracks) && (step.Subscribe? ==> step.track in tracks)
    ensures Run(s, steps', m') && steps' == steps + [step] && m' == Apply(m, step) && Uses(steps', tracks)
  {
    hide Apply, Enabled;
    steps', m' := steps + [step], Apply(m, step);
    assert Run(m, [step], m') by {
      assert Run(m', [], m');
    }
    RunThen(s, steps, m, [step], m');
  }

  const PUB: Session := Session("p")
  const SUB: Session := Session("s")

  /** One publisher for both namespaces, and a subscriber that has asked for both tracks. */
  lemma BothAsked(a: Track, b: Track, tracks: iset<Track>) returns (steps: seq<Step>, s: World)
    requires a in tracks && b in tracks
    ensures Run(INIT, steps, s) && Uses(steps, tracks)
    ensures s.relay == EMPTY.(namespaces := map[a.ns := PUB, b.ns := PUB])
    ensures s.handlers == INIT.handlers && s.data == INIT.data
    ensures s.peers.announced == {(PUB, a.ns)} && s.peers.filed == {Key(SUB, 2)}
    ensures s.peers.subscriptions == map[Key(SUB, 1) := a, Key(SUB, 2) := b]
    ensures s.peers.toRelay == {Request(Key(SUB, 1), a), Request(Key(SUB, 2), b)}
  {
    hide Run, Uses;
    Nothing(tracks);
    steps, s := Then(INIT, [], INIT, SendAnnounce(PUB, a.ns), tracks);
    steps, s := Then(INIT, steps, s, RecordAnnounce(PUB, a.ns), tracks);
    steps, s := Then(INIT, steps, s, RelayAnnounce(PUB, a.ns), tracks);
    steps, s := Then(INIT, steps, s, SendAnnounce(PUB, b.ns), tracks);
    steps, s := Then(INIT, steps, s, RelayAnnounce(PUB, b.ns), tracks);
    steps, s := Then(INIT, steps, s, Subscribe(Key(SUB, 1), a), tracks);
    steps, s := Then(INIT, steps, s, Subscribe(Key(SUB, 2), b), tracks);
    steps, s := Then(INIT, steps, s, FileSubscription(Key(SUB, 2)), tracks);
  }

  /** A handler that nothing comes between, up to the point where it has its stream. */
  lemma GetStream(s0: World, before: seq<Step>, s: World, q: Request, c: Choice, tracks: iset<Track>)
    returns (steps: seq<Step>, s': World)
    requires Run(s0, before, s) && Uses(before, tracks) && q in s.peers.toRelay && q.key.session !in s.handlers.serving
    requires q.track.ns in s.relay.namespaces && Allowed(s.relay, q.track, c)
    ensures Run(s0, steps, s') && Uses(steps, tracks) && s'.data == s.data
    ensures c.Share? ==> c.k in s.relay.incoming
    ensures var n := StreamFor(s.relay, c); var p := s.relay.namespaces[q.track.ns];
            && s'.handlers == At(s, q.key.session, Joining(q, n, c.Share?)).handlers
            && s'.relay == (if c.Share? then s.relay else OnOpen(s.relay, p, c.u, q.track, |s.relay.requests|))
            && s'.peers == s.peers.(
                 toRelay := s.peers.toRelay - {q},
                 toPublisher := s.peers.toPublisher + if c.Share? then {} else {Request(Key(p, c.u), q.track)})
  {
    hide Run, Uses, StreamId, Unshared;
    var session := q.key.session;
    steps, s' := Then(s0, before, s, PickUp(q), tracks);
    match c {
      case Share(k) =>
        steps, s' := Then(s0, steps, s', Lookup(session, Some(k)), tracks);
      case Fresh(u) =>
        steps, s' := Then(s0, steps, s', Lookup(session, None), tracks);
        steps, s' := Then(s0, steps, s', Open(session, u), tracks);
    }
  }

  /** ... and to its end: it serves its request as HandleSubscribe does alone. */
  lemma ServeAtOnce(s0: World, before: seq<Step>, s: World, q: Request, c: Choice, tracks: iset<Track>)
    returns (steps: seq<Step>, s': World)
    requires Run(s0, before, s) && Uses(before, tracks) && q in s.peers.toRelay && q.key.session !in s.handlers.serving
    requires q.track.ns in s.relay.namespaces && Allowed(s.relay, q.track, c)
    requires c.Share? ==> c.k in s.relay.incoming
    requires Unlocked(s, StreamFor(s.relay, c))
    ensures Run(s0, steps, s') && Uses(steps, tracks)
    ensures s'.relay == OnSubscribe(s.relay, q.key, q.track, c) && s'.handlers == s.handlers
    ensures var p := s.relay.namespaces[q.track.ns];
            s'.peers == s.peers.(
              toRelay := s.peers.toRelay - {q},
              toPublisher := s.peers.toPublisher + if c.Share? then {} else {Request(Key(p, c.u), q.track)})
    ensures s'.data == s.data.(
              replaying := s.data.replaying + if c.Share? then {Replaying(StreamFor(s.relay, c), q.key)} else {})
  {
    hide Run, Uses, StreamId, Unshared, OnOpen, Allowed;
    var session := q.key.session;
    steps, s' := GetStream(s0, before, s, q, c, tracks);
    steps, s' := Then(s0, steps, s', List(session, StreamFor(s.relay, c)), tracks);
    steps, s' := Then(s0, steps, s', File(session), tracks);
    assert s'.handlers.serving == s.handlers.serving;
  }

  /** The relay serves both requests; either way the second ends up under the same stream ID. */
  lemma BothServed(a: Track, b: Track, tracks: iset<Track>) returns (steps: seq<Step>, s: World)
    requires a in tracks && b in tracks && StreamId(a) == StreamId(b)
    ensures Run(INIT, steps, s) && Uses(steps, tracks)
    ensures s.peers.subscriptions == map[Key(SUB, 1) := a, Key(SUB, 2) := b] && s.peers.filed == {Key(SUB, 2)}
    ensures Key(PUB, 1) in s.relay.incoming && s.relay.incoming[Key(PUB, 1)] == 0 && Member(0, SUB) in s.relay.members
    ensures Carries(s.relay, 0, StreamId(a))
    ensures Key(SUB, 2) in s.relay.subscribed && Carries(s.relay, s.relay.subscribed[Key(SUB, 2)], StreamId(a))
    ensures Request(Key(PUB, 1), a) in s.peers.toPublisher && (PUB, a.ns) in s.peers.announced
    ensures s.data.upstream == [] && s.data.arrived == map[] && s.data.audience == map[]
  {
    hide StreamId, Unshared, Run, Uses;
    steps, s := BothAsked(a, b, tracks);
    steps, s := ServeAtOnce(INIT, steps, s, Request(Key(SUB, 1), a), Fresh(1), tracks);
    var choice := if Unshared(b.name) then Fresh(2) else Share(Key(PUB, 1));
    assert Matches(s.relay, PUB, StreamId(b), Key(PUB, 1));
    steps, s := ServeAtOnce(INIT, steps, s, Request(Key(SUB, 2), b), choice, tracks);
  }

  /** The publisher gets a request and opens a data stream for it, which the relay accepts. */
  lemma FirstArrival(s0: World, before: seq<Step>, s: World, q: Request, tracks: iset<Track>)
    returns (steps: seq<Step>, s': World)
    requires Run(s0, before, s) && Uses(before, tracks)
    requires q in s.peers.toPublisher && (q.key.session, q.track.ns) in s.peers.announced
    requires q.key in s.relay.incoming && s.data.upstream == [] && s.data.arrived == map[]
    ensures Run(s0, steps, s') && Uses(steps, tracks)
    ensures s'.relay == s.relay && s'.handlers == s.handlers
    ensures s'.peers == s.peers.(toPublisher := s.peers.toPublisher - {q}, pubStreams := s.peers.pubStreams + {q})
    ensures s'.data == s.data.(upstream := [q], arrived := map[0 := s.relay.incoming[q.key]])
  {
    hide Run, Uses;
    steps, s' := Then(s0, before, s, PublisherSubscribe(q), tracks);
    steps, s' := Then(s0, steps, s', OpenStream(q), tracks);
    steps, s' := Then(s0, steps, s', AcceptStream(0), tracks);
  }

  /** ... and forwards to whoever is listed. */
  lemma FirstStream(s0: World, before: seq<Step>, s: World, q: Request, tracks: iset<Track>)
    returns (steps: seq<Step>, s': World)
    requires Run(s0, before, s) && Uses(before, tracks)
    requires q in s.peers.toPublisher && (q.key.session, q.track.ns) in s.peers.announced
    requires q.key in s.relay.incoming && s.data.upstream == [] && s.data.arrived == map[] && s.data.audience == map[]
    ensures Run(s0, steps, s') && Uses(steps, tracks)
    ensures s'.relay == s.relay && s'.handlers == s.handlers
    ensures s'.peers == s.peers.(toPublisher := s.peers.toPublisher - {q}, pubStreams := s.peers.pubStreams + {q})
    ensures var n := s.relay.incoming[q.key]; var listed := Listed(s.relay, n);
            s'.data == s.data.(upstream := [q], arrived := map[0 := n], audience := map[0 := listed],
              forwarding := s.data.forwarding + set session | session in listed :: Forwarding(0, session))
  {
    hide Run, Uses, Listed;
    steps, s' := FirstArrival(s0, before, s, q, tracks);
    steps, s' := Then(s0, steps, s', ForwardStream(0), tracks);
  }

  /** Two different tracks with one stream ID can be mixed up: a subscriber of both is handed data
      published for the first as if it were the second. */
  lemma CollisionMisroutes(a: Track, b: Track, tracks: iset<Track>) returns (steps: seq<Step>, s: World)
    requires a in tracks && b in tracks && a != b && StreamId(a) == StreamId(b)
    ensures Run(INIT, steps, s) && Uses(steps, tracks) && !Routed(s)
  {
    hide StreamId, Unshared, Run, Uses;
    var f := Forwarding(0, SUB);
    steps, s := BothServed(a, b, tracks);
    steps, s := FirstStream(INIT, steps, s, Request(Key(PUB, 1), a), tracks);
    assert SUB in Listed(s.relay, 0);
    assert f in s.data.forwarding;
    steps, s := Then(INIT, steps, s, Forward(f, Key(SUB, 2), true), tracks);
    steps, s := Then(INIT, steps, s, Deliver(Flow(Key(SUB, 2), 0)), tracks);
    assert Flow(Key(SUB, 2), 0) in s.data.delivered;
  }

  lemma Nothing(tracks: iset<Track>)
    ensures Run(INIT, [], INIT) && Uses([], tracks)
  {
  }

  ghost predicate AlwaysRouted(tracks: iset<Track>) {
    forall steps, s :: Run(INIT, steps, s) && Uses(steps, tracks) ==> Routed(s)
  }

  /** For any set of tracks that subscribers may ask for: every run delivers only what was asked for
      exactly when no two tracks of the set share a stream ID. */
  lemma RoutingIntegrity(tracks: iset<Track>)
    ensures AlwaysRouted(tracks) <==> InjectiveOn(tracks)
  {
    hide Run, Uses, StreamId, Routed;
    if InjectiveOn(tracks) {
      forall steps, s | Run(INIT, steps, s) && Uses(steps, tracks) ensures Routed(s) {
        RoutedIfInjective(steps, s, tracks);
      }
    } else {
      var a, b :| a in tracks && b in tracks && StreamId(a) == StreamId(b) && a != b;
      var steps, s := CollisionMisroutes(a, b, tracks);
    }
  }

  /** In particular namespaces without an underscore are safe ... */
  lemma UnderscoreFreeRouted()
    ensures AlwaysRouted(UnderscoreFree())
  {
    UnderscoreFreeInjective();
    RoutingIntegrity(UnderscoreFree());
  }

  /** ... while namespace "a" with track "b_c" and namespace "a_b" with track "c" can be mixed up. */
  lemma SomeRunMisroutes(tracks: iset<Track>)
    requires Track([0x61], [0x62, UNDERSCORE, 0x63]) in tracks && Track([0x61, UNDERSCORE, 0x62], [0x63]) in tracks
    ensures !AlwaysRouted(tracks)
  {
    hide AlwaysRouted;
    var a, b := Track([0x61], [0x62, UNDERSCORE, 0x63]), Track([0x61, UNDERSCORE, 0x62], [0x63]);
    assert StreamId(a) == StreamId(b);
    RoutingIntegrity(tracks);
  }
}
