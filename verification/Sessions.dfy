/** The session manager: sessions are registered and removed, learn their peer's role over their
    control stream, and pass announcements on to one another. */
module Sessions {
  import opened Varint
  import opened Reader
  import H = Handshake
  import Messages
  import opened Relay

  /** hasStream: CS is set. serving: its ServeCS goroutine has been started. */
  datatype Peer = Peer(endpoint: H.Endpoint, hasStream: bool, serving: bool)

  /** peers: every session ever created. registered: the manager's session table. log: the
      announcements recorded so far. */
  datatype Registry = Registry(
    peers: map<string, Peer>,
    registered: set<string>,
    namespaces: map<Name, Session>,
    log: seq<Announcement>)

  const NOBODY: Registry := Registry(map[], {}, map[], [])

  datatype Step =
    | Create(id: string, role: u62)
    | Accept(id: string)
    | Start(id: string)
    | Receive(id: string, m: Messages.Message)
    | Close(id: string)
    | Announce(id: string, ns: Name)

  /** Session IDs are fresh; ServeCS is started after CS is set; a message comes in through ServeCS. */
  predicate Enabled(s: Registry, step: Step) {
    match step
    case Create(id, _) => id !in s.peers
    case Accept(id) => id in s.peers
    case Start(id) => id in s.peers && s.peers[id].hasStream
    case Receive(id, _) => id in s.peers && s.peers[id].serving
    case Close(id) => id in s.peers
    case Announce(id, _) => id in s.peers
  }

  /** A second control stream, and a setup message that is refused, close the session. */
  function Apply(s: Registry, step: Step): Registry
    requires Enabled(s, step)
  {
    match step
    case Create(id, role) =>
      s.(peers := s.peers[id := Peer(H.NewEndpoint(role), false, false)], registered := s.registered + {id})
    case Accept(id) =>
      if s.peers[id].hasStream then s.(registered := s.registered - {id})
      else s.(peers := s.peers[id := s.peers[id].(hasStream := true)])
    case Start(id) => s.(peers := s.peers[id := s.peers[id].(serving := true)])
    case Receive(id, m) =>
      var e := H.React(s.peers[id].endpoint, m);
      s.(peers := s.peers[id := s.peers[id].(endpoint := e)],
         registered := s.registered - if e.closed then {id} else {})
    case Close(id) => s.(registered := s.registered - {id})
    case Announce(id, ns) =>
      s.(namespaces := s.namespaces[ns := Session(id)], log := s.log + [Announcement(ns, Session(id))])
  }

  predicate Run(s: Registry, steps: seq<Step>, s': Registry)
    decreases |steps|
  {
    if steps == [] then s' == s
    else Enabled(s, steps[0]) && Run(Apply(s, steps[0]), steps[1..], s')
  }

  // ----- announcements

  predicate Listens(role: u62) {
    role == H.ROLE_RELAY || role == H.ROLE_SUBSCRIBER
  }

  /** The sessions that an announcement is written to. */
  predicate Hears(s: Registry, publisher: string, id: string) {
    id in s.registered && id in s.peers && Listens(s.peers[id].endpoint.remoteRole) && id != publisher
  }

  // ----- over runs

  /** A goroutine that serves a control stream has one, and so has whoever knows its peer's role. */
  ghost predicate Sound(s: Registry) {
    && (forall id :: id in s.peers ==>
          && (s.peers[id].serving ==> s.peers[id].hasStream)
          && (s.peers[id].endpoint.remoteRole != 0 ==> s.peers[id].hasStream))
    && s.registered <= s.peers.Keys
    && (forall id :: id in s.registered ==> !s.peers[id].endpoint.closed)
    && s.namespaces == Table(s.log)
  }

  lemma SoundStep(s: Registry, step: Step)
    requires Sound(s) && Enabled(s, step)
    ensures Sound(Apply(s, step))
  {
    hide H.React, Table;
    match step {
      case Announce(id, ns) => TableGrows(s.log, ns, Session(id));
      case Receive(id, m) => SoundReceive(s, id, m);
      case _ =>
    }
  }

  lemma SoundReceive(s: Registry, id: string, m: Messages.Message)
    requires Sound(s) && Enabled(s, Receive(id, m))
    ensures Sound(Apply(s, Receive(id, m)))
  {
    hide H.React, Table;
  }

  lemma {:induction false} SoundRun(s: Registry, steps: seq<Step>, s': Registry)
    requires Sound(s) && Run(s, steps, s')
    ensures Sound(s')
    decreases |steps|
  {
    hide Apply, Enabled, Sound;
    if steps != [] {
      SoundStep(s, steps[0]);
      SoundRun(Apply(s, steps[0]), steps[1..], s');
    }
  }

  /** In every reachable state, whichever sessions exist and however far their handshakes are: a
      session whose peer's role is known has a control stream, so an announcement never goes to a
      session without one; no session that was refused is registered; and a namespace leads to its
      latest announcer. */
  lemma AnnouncementsFindStreams(steps: seq<Step>, s: Registry)
    requires Run(NOBODY, steps, s)
    ensures forall id :: id in s.peers && s.peers[id].endpoint.remoteRole != 0 ==> s.peers[id].hasStream
    ensures forall publisher, id :: Hears(s, publisher, id) ==> s.peers[id].hasStream
    ensures forall id :: id in s.registered ==> id in s.peers && !s.peers[id].endpoint.closed
    ensures forall ns, i: nat :: LatestFor(s.log, ns, i) ==> ns in s.namespaces && s.namespaces[ns] == s.log[i].publisher
  {
    hide Run;
    SoundRun(NOBODY, steps, s);
    forall ns, i: nat | LatestFor(s.log, ns, i) ensures ns in s.namespaces && s.namespaces[ns] == s.log[i].publisher {
      TableIsLatest(s.log, ns);
    }
  }

  // ----- the manager itself

  class SessionManager {
    var state: Registry

    constructor ()
      ensures state == NOBODY
    {
      state := NOBODY;
    }

    /** A new session hears nothing until it knows its peer's role; for the others nothing changes. */
    method AddSession(id: string, role: u62)
      requires Enabled(state, Create(id, role)) && Sound(state)
      modifies this
      ensures state == Apply(old(state), Create(id, role)) && Sound(state) && id in state.registered
      ensures forall publisher, other :: Hears(state, publisher, other) <==> Hears(old(state), publisher, other)
    {
      SoundStep(state, Create(id, role));
      var session := Peer(H.NewEndpoint(role), false, false);
      state := state.(peers := state.peers[id := session], registered := state.registered + {id});
    }

    /** One turn of handleControlStream: the first stream becomes the control stream, a second one
        closes the session. */
    method AcceptStream(id: string) returns (ok: bool)
      requires Enabled(state, Accept(id)) && Sound(state)
      modifies this
      ensures state == Apply(old(state), Accept(id)) && Sound(state) && state.peers[id].hasStream
      ensures ok == !old(state.peers[id].hasStream) && (!ok ==> id !in state.registered)
    {
      SoundStep(state, Accept(id));
      ok := !state.peers[id].hasStream;
      if ok {
        state := state.(peers := state.peers[id := state.peers[id].(hasStream := true)]);
      } else {
        state := state.(registered := state.registered - {id});
      }
    }

    /** Records the announcer and returns the sessions the announcement is written to: exactly the
        registered subscriber (2) and relay (3) peers other than the announcer, all with a control
        stream. */
    method AddPublisher(ns: Name, publisher: string) returns (targets: set<string>)
      requires Enabled(state, Announce(publisher, ns)) && Sound(state)
      modifies this
      ensures state == Apply(old(state), Announce(publisher, ns)) && Sound(state)
      ensures forall id :: id in targets <==>
                && id in state.registered && id in state.peers && id != publisher
                && (state.peers[id].endpoint.remoteRole == 2 || state.peers[id].endpoint.remoteRole == 3)
      ensures forall id :: id in targets ==> id in state.peers && state.peers[id].hasStream
    {
      SoundStep(state, Announce(publisher, ns));
      var session := Session(publisher);
      state := state.(namespaces := state.namespaces[ns := session], log := state.log + [Announcement(ns, session)]);
      targets := {};
      var todo := state.registered;
      while todo != {}
        invariant todo <= state.registered
        invariant forall id :: id in targets <==> id !in todo && Hears(state, publisher, id)
        decreases todo
      {
        var id :| id in todo;
        if Listens(state.peers[id].endpoint.remoteRole) && id != publisher {
          targets := targets + {id};
        }
        todo := todo - {id};
      }
    }

    /** nil when the namespace was never announced; a publisher that has gone stays listed. */
    method GetPublisher(ns: Name) returns (found: Option<Session>)
      requires Sound(state)
      ensures found.Some? <==> exists i: nat :: LatestFor(state.log, ns, i)
      ensures found.Some? ==> forall i: nat :: LatestFor(state.log, ns, i) ==> found.value == state.log[i].publisher
    {
      TableIsLatest(state.log, ns);
      found := if ns in state.namespaces then Some(state.namespaces[ns]) else None;
    }

    /** Close ends with removeSession: that session only, its namespaces stay. */
    method RemoveSession(id: string)
      requires Enabled(state, Close(id)) && Sound(state)
      modifies this
      ensures state == Apply(old(state), Close(id)) && Sound(state)
      ensures forall publisher, other ::
                Hears(state, publisher, other) <==> other != id && Hears(old(state), publisher, other)
    {
      state := state.(registered := state.registered - {id});
    }
  }
}
