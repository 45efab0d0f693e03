/** The setup handshake of a client and a server over the two byte streams of a control stream. */
module Handshake {
  import opened Varint
  import opened Reader
  import opened Parameters
  import opened Messages

  const ROLE_PUBLISHER: u62 := 0x01
  const ROLE_SUBSCRIBER: u62 := 0x02
  const ROLE_RELAY: u62 := 0x03

  /** The roles a session can be created with. */
  predicate IsRole(r: u62) {
    r == ROLE_PUBLISHER || r == ROLE_SUBSCRIBER || r == ROLE_RELAY
  }

  /** SetRemoteRole's verdict. */
  predicate Accepts(local: u62, remote: u62) {
    || (local == ROLE_PUBLISHER && remote != ROLE_PUBLISHER)
    || (local == ROLE_SUBSCRIBER && remote != ROLE_SUBSCRIBER)
    || local == ROLE_RELAY
  }

  function RoleParams(role: u62): Params {
    map[ROLE_PARAM := IntParameter(ROLE_PARAM, role)]
  }

  function Hello(role: u62): Message {
    ClientSetup([DRAFT_04], RoleParams(role))
  }

  function Welcome(role: u62): Message {
    ServerSetup(DRAFT_04, RoleParams(role))
  }

  // ----- one endpoint

  /** signals: values sent on HandshakeDone, a channel of capacity one. handled: messages given to
      the session's Handler. */
  datatype Endpoint = Endpoint(
    localRole: u62,
    remoteRole: u62,
    done: bool,
    signals: nat,
    closed: bool,
    handled: seq<Message>)

  function NewEndpoint(role: u62): Endpoint {
    Endpoint(role, 0, false, 0, false, [])
  }

  function RoleOf(params: Params): Option<u62> {
    if ROLE_PARAM in params && params[ROLE_PARAM].IntParameter? then Some(params[ROLE_PARAM].number) else None
  }

  /** The common end of both setup branches: record the role, then finish or close. */
  function Settle(e: Endpoint, supported: bool, params: Params): Endpoint {
    if !supported || RoleOf(params) == None then e.(closed := true)
    else
      var e' := e.(remoteRole := RoleOf(params).value);
      if Accepts(e.localRole, e'.remoteRole) then e'.(done := true, signals := e.signals + 1) else e'.(closed := true)
  }

  predicate IsSetup(m: Message) {
    TypeOf(m) == CLIENT_SETUP || TypeOf(m) == SERVER_SETUP
  }

  /** The types that handleControlMessage passes on. */
  predicate Dispatched(m: Message) {
    var t := TypeOf(m);
    t == ANNOUNCE || t == SUBSCRIBE || t == SUBSCRIBE_OK || t == ANNOUNCE_OK || t == UNSUBSCRIBE
  }

  /** ServeCS's treatment of one parsed message. A setup message whose body broke off has no version
      or no role, and closes the session. */
  function React(e: Endpoint, m: Message): Endpoint {
    if e.done then (if Dispatched(m) then e.(handled := e.handled + [m]) else e)
    else
      match m
      case ClientSetup(vs, p) => Settle(e, DRAFT_04 in vs, p)
      case ServerSetup(v, p) => Settle(e, v == DRAFT_04, p)
      case Broken(_) => if IsSetup(m) then e.(closed := true) else e
      case _ => e
  }

  function Reply(e: Endpoint, m: Message): Option<Message> {
    if !e.done && m.ClientSetup? && React(e, m).done then Some(Welcome(e.localRole)) else None
  }

  /** The session object behind an endpoint. */
  class ControlSession {
    const localRole: u62
    var remoteRole: u62
    var ishandshakedone: bool
    var signals: nat
    var closed: bool
    var handled: seq<Message>

    constructor (role: u62)
      ensures View() == NewEndpoint(role)
    {
      localRole, remoteRole, ishandshakedone, signals, closed, handled := role, 0, false, 0, false, [];
    }

    function View(): Endpoint
      reads this
    {
      Endpoint(localRole, remoteRole, ishandshakedone, signals, closed, handled)
    }

    /** Records the remote role before it is checked. */
    method SetRemoteRole(role: u62) returns (ok: bool)
      modifies this`remoteRole
      ensures remoteRole == role && ok == Accepts(localRole, role)
    {
      remoteRole := role;
      if localRole == ROLE_PUBLISHER {
        ok := remoteRole != ROLE_PUBLISHER;
      } else if localRole == ROLE_SUBSCRIBER {
        ok := remoteRole != ROLE_SUBSCRIBER;
      } else {
        ok := localRole == ROLE_RELAY;
      }
    }

    method CheckDraftSupport(versions: Versions) returns (supported: bool)
      ensures supported <==> DRAFT_04 in versions
    {
      for i := 0 to |versions|
        invariant DRAFT_04 !in versions[..i]
      {
        if versions[i] == DRAFT_04 {
          return true;
        }
      }
      supported := false;
    }

    method Finish(supported: bool, params: Params)
      requires Canonical(params)
      modifies this
      ensures View() == Settle(old(View()), supported, params)
    {
      var role := GetParameter(params, ROLE_PARAM);
      if !supported || role == None {
        closed := true;
        return;
      }
      assert Entry(ROLE_PARAM, role.value);
      var ok := SetRemoteRole(role.value.number);
      if ok {
        ishandshakedone, signals := true, signals + 1;
      } else {
        closed := true;
      }
    }

    /** Parameters that came off the wire are canonical. */
    method ServeMessage(m: Message) returns (reply: Option<Message>)
      requires Canonical(ParamsOf(m))
      modifies this
      ensures View() == React(old(View()), m) && reply == Reply(old(View()), m)
    {
      reply := None;
      if ishandshakedone {
        if Dispatched(m) {
          handled := handled + [m];
        }
        return;
      }
      match m {
        case ClientSetup(vs, p) =>
          var supported := CheckDraftSupport(vs);
          Finish(supported, p);
          if ishandshakedone {
            reply := Some(Welcome(localRole));
          }
        case ServerSetup(v, p) =>
          Finish(v == DRAFT_04, p);
        case Broken(_) =>
          if IsSetup(m) {
            closed := true;
          }
        case _ =>
      }
    }
  }

  /** The ServeCS loop on what the stream delivers: until it ends, errs, or the session closes. */
  function ServeAll(e: Endpoint, s: seq<byte>): Endpoint
    decreases |s|
  {
    match ParseMessage(s)
    case Err(_, _) => e
    case Ok(m, rest) =>
      MessageProgress(s);
      if React(e, m).closed then React(e, m) else ServeAll(React(e, m), rest)
  }

  /** What the loop sends back. */
  function Replies(e: Endpoint, s: seq<byte>): seq<Message>
    decreases |s|
  {
    match ParseMessage(s)
    case Err(_, _) => []
    case Ok(m, rest) =>
      MessageProgress(s);
      (if Reply(e, m).Some? then [Reply(e, m).value] else [])
      + if React(e, m).closed then [] else Replies(React(e, m), rest)
  }

  method ServeCS(session: ControlSession, input: seq<byte>) returns (replies: seq<Message>)
    modifies session
    ensures session.View() == ServeAll(old(session.View()), input)
    ensures replies == Replies(old(session.View()), input)
    ensures |replies| <= 1 && (replies != [] ==> session.ishandshakedone && replies[0] == Welcome(session.localRole))
  {
    hide ParseMessage, Settle, Welcome, React;
    var unread := input;
    replies := [];
    while ParseMessage(unread).Ok?
      invariant ServeAll(session.View(), unread) == ServeAll(old(session.View()), input)
      invariant replies + Replies(session.View(), unread) == Replies(old(session.View()), input)
      invariant |replies| <= 1 && (replies != [] ==> session.ishandshakedone && replies[0] == Welcome(session.localRole))
      decreases |unread|
    {
      var m := ParseMessage(unread).value;
      ParsedCanonical(unread);
      MessageProgress(unread);
      StaysDone(session.View(), m);
      var reply := session.ServeMessage(m);
      ghost var more := if session.closed then [] else Replies(session.View(), ParseMessage(unread).rest);
      if reply.Some? {
        assert replies + ([reply.value] + more) == (replies + [reply.value]) + more;
        replies := replies + [reply.value];
      } else {
        assert [] + more == more;
      }
      unread := ParseMessage(unread).rest;
      if session.closed {
        assert replies + [] == replies;
        return;
      }
    }
    assert replies + [] == replies;
  }

  lemma StaysDone(e: Endpoint, m: Message)
    ensures (e.done ==> React(e, m).done) && React(e, m).localRole == e.localRole
  {
  }

  // ----- what a served stream amounts to

  /** The messages one after the other, up to the first that closes the session. */
  function Served(e: Endpoint, ms: seq<Message>): Endpoint
    decreases |ms|
  {
    if ms == [] || e.closed then e else Served(React(e, ms[0]), ms[1..])
  }

  /** On any input the loop handles exactly the messages that the decoder finds in it, in order, up to
      the first that closes the session. */
  lemma {:induction false} ServesWhatIsDecoded(e: Endpoint, s: seq<byte>)
    requires !e.closed
    ensures ServeAll(e, s) == Served(e, Serve(s).0)
    decreases |s|
  {
    hide ParseMessage, React;
    match ParseMessage(s)
    case Err(_, _) =>
    case Ok(m, rest) =>
      MessageProgress(s);
      var ms := Serve(rest).0;
      assert Serve(s).0 == [m] + ms && ([m] + ms)[1..] == ms;
      if !React(e, m).closed {
        ServesWhatIsDecoded(React(e, m), rest);
      }
  }

  /** The messages that a finished session has a handler for. */
  predicate ForHandler(m: Message) {
    m.Announce? || m.Subscribe? || m.SubscribeOk? || m.AnnounceOk? || m.Unsubscribe?
  }

  lemma {:induction false} HandledInOrder(e: Endpoint, ms: seq<Message>)
    requires e.done && !e.closed && forall m :: m in ms ==> ForHandler(m)
    ensures Served(e, ms) == e.(handled := e.handled + ms)
    decreases |ms|
  {
    if ms == [] {
      assert e.handled + [] == e.handled;
    } else {
      assert ms[0] in ms;
      HandledInOrder(React(e, ms[0]), ms[1..]);
      assert (e.handled + [ms[0]]) + ms[1..] == e.handled + ms;
    }
  }

  /** The roles publisher, subscriber and relay, in this order, are 1, 2 and 3; two of a kind other than
      relays do not go together. */
  predicate Compatible(local: u62, remote: u62) {
    1 <= local <= 3 && 1 <= remote <= 3 && (local != remote || local == 3)
  }

  /** For compatible roles: a session that reads a client setup with the peer's role and then any
      control messages is done with that role after one signal, has given its handler exactly those
      messages, and has answered with one server setup; the session lives on. */
  lemma ServesAfterHandshake(local: u62, remote: u62, ms: seq<Message>, wire: seq<seq<byte>>)
    requires Compatible(local, remote) && (forall m :: m in ms ==> ForHandler(m))
    requires AreEncodings([ClientSetup([0xff000004], map[0 := IntParameter(0, remote)])] + ms, wire)
    ensures ServeAll(NewEndpoint(local), Concat(wire)) == Endpoint(local, remote, true, 1, false, ms)
    ensures Replies(NewEndpoint(local), Concat(wire)) == [ServerSetup(0xff000004, map[0 := IntParameter(0, local)])]
  {
    hide AreEncodings, Serve, ServeAll, Replies, ParseMessage;
    var e, hello := NewEndpoint(local), ClientSetup([0xff000004], map[0 := IntParameter(0, remote)]);
    ControlStreamComplete([hello] + ms, wire);
    ServesWhatIsDecoded(e, Concat(wire));
    assert ([hello] + ms)[1..] == ms;
    HandledInOrder(React(e, hello), ms);
    assert [] + ms == ms;
    AnswersOnce(e, Concat(wire), hello, ms);
  }

  /** A session that is done sends nothing of its own. */
  lemma {:induction false} NoReplyOnceDone(e: Endpoint, s: seq<byte>)
    requires e.done
    ensures Replies(e, s) == []
    decreases |s|
  {
    hide ParseMessage;
    if ParseMessage(s).Ok? {
      MessageProgress(s);
      NoReplyOnceDone(React(e, ParseMessage(s).value), ParseMessage(s).rest);
    }
  }

  lemma AnswersOnce(e: Endpoint, s: seq<byte>, m: Message, ms: seq<Message>)
    requires Serve(s).0 == [m] + ms && m.ClientSetup? && !e.done && React(e, m).done && !React(e, m).closed
    ensures Replies(e, s) == [Welcome(e.localRole)]
  {
    hide ParseMessage, React, Welcome;
    assert ParseMessage(s).Ok? && ParseMessage(s).value == m by {
      assert Serve(s).0[0] == m;
    }
    NoReplyOnceDone(React(e, m), ParseMessage(s).rest);
  }

  /** A setup message without draft 04 or without a role, or with a role that does not go with the
      local one, closes the session and leaves it unfinished. */
  lemma SetupRefused(e: Endpoint, m: Message)
    requires !e.done && (m.ClientSetup? || m.ServerSetup?)
    ensures var supported := if m.ClientSetup? then 0xff000004 in m.versions else m.version == 0xff000004;
            var role := RoleOf(m.params);
            && (!supported || role == None ==> React(e, m) == e.(closed := true))
            && (supported && role.Some? ==> React(e, m).remoteRole == role.value)
            && (supported && role.Some? && 1 <= e.localRole <= 3 && 1 <= role.value <= 3 ==>
                  if Compatible(e.localRole, role.value) then React(e, m).done && React(e, m).closed == e.closed
                  else React(e, m).closed && !React(e, m).done)
  {
  }

  // ----- the byte channel

  /** One direction of the control stream: the unread bytes, and, for reasoning, the messages and
      the encodings they consist of. */
  datatype Channel = Channel(bytes: seq<byte>, pending: seq<Message>, wire: seq<seq<byte>>)

  const QUIET: Channel := Channel([], [], [])

  ghost predicate Faultless(c: Channel) {
    AreEncodings(c.pending, c.wire) && c.bytes == Concat(c.wire)
  }

  function Put(c: Channel, m: Message, order: seq<u62>): Channel
    requires Sendable(m) && forall k :: k in order ==> k in ParamsOf(m)
  {
    var s := EncodeMessage(m, order);
    Channel(c.bytes + s, c.pending + [m], c.wire + [s])
  }

  /** The reader takes what ParseMessage takes. */
  function Take(c: Channel): Channel
    requires ParseMessage(c.bytes).Ok?
  {
    Channel(ParseMessage(c.bytes).rest,
            if c.pending == [] then [] else c.pending[1..],
            if c.wire == [] then [] else c.wire[1..])
  }

  lemma {:induction false} ConcatAppend(parts: seq<seq<byte>>, s: seq<byte>)
    ensures Concat(parts + [s]) == Concat(parts) + s
  {
    if parts == [] {
      assert parts + [s] == [s] && [s][1..] == [];
      assert Concat([s]) == s + Concat([]);
    } else {
      assert (parts + [s])[1..] == parts[1..] + [s];
      ConcatAppend(parts[1..], s);
    }
  }

  lemma PutFaultless(c: Channel, m: Message, order: seq<u62>)
    requires Faultless(c) && Faithful(m) && Writes(m, order)
    ensures Faultless(Put(c, m, order))
  {
    hide EncodeMessage, Faithful, Concat;
    ConcatAppend(c.wire, EncodeMessage(m, order));
    assert IsEncoding(m, EncodeMessage(m, order));
  }

  /** What comes off the bytes is the oldest message sent. */
  lemma TakeFaultless(c: Channel)
    requires Faultless(c) && ParseMessage(c.bytes).Ok?
    ensures c.pending != [] && ParseMessage(c.bytes).value == c.pending[0] && Faultless(Take(c))
  {
    hide ParseBody, EncodeMessage, Faithful, Read;
    if c.pending == [] {
      NoMessage();
      assert false;
    }
    var order :| Writes(c.pending[0], order) && c.wire[0] == EncodeMessage(c.pending[0], order);
    MessageRoundTrip(c.pending[0], order, Concat(c.wire[1..]));
  }

  lemma NoMessage()
    ensures ParseMessage([]).Err?
  {
  }

  // ----- both endpoints

  /** clientSent and serverSent: what the applications have sent besides the setup messages. early: how
      many of serverSent went out before the welcome. */
  datatype World = World(
    client: Endpoint,
    server: Endpoint,
    isOpen: bool,
    up: Channel,
    down: Channel,
    clientSent: seq<Message>,
    serverSent: seq<Message>,
    early: nat)

  datatype Step =
    | Open(order: seq<u62>)
    | ServerReceive(order: seq<u62>)
    | ClientReceive
    | ClientSend(m: Message, order: seq<u62>)
    | ServerSend(m: Message, order: seq<u62>)

  function Init(client: u62, server: u62): World {
    World(NewEndpoint(client), NewEndpoint(server), false, QUIET, QUIET, [], [], 0)
  }

  ghost predicate Enabled(w: World, step: Step) {
    match step
    case Open(order) => !w.isOpen && Writes(Hello(w.client.localRole), order)
    case ServerReceive(order) =>
      && w.isOpen && !w.server.closed && ParseMessage(w.up.bytes).Ok?
      && Writes(Welcome(w.server.localRole), order)
    case ClientReceive => w.isOpen && !w.client.closed && ParseMessage(w.down.bytes).Ok?
    case ClientSend(m, order) => w.isOpen && Faithful(m) && Writes(m, order) && Dispatched(m)
    case ServerSend(m, order) => w.isOpen && Faithful(m) && Writes(m, order) && Dispatched(m)
  }

  ghost function Apply(w: World, step: Step): World
    requires Enabled(w, step)
  {
    match step
    case Open(order) => w.(isOpen := true, up := Put(w.up, Hello(w.client.localRole), order))
    case ServerReceive(order) =>
      var m := ParseMessage(w.up.bytes).value;
      var w' := w.(server := React(w.server, m), up := Take(w.up));
      (match Reply(w.server, m)
       case None => w'
       case Some(_) => w'.(down := Put(w.down, Welcome(w.server.localRole), order), early := |w.serverSent|))
    case ClientReceive =>
      w.(client := React(w.client, ParseMessage(w.down.bytes).value), down := Take(w.down))
    case ClientSend(m, order) => w.(up := Put(w.up, m, order), clientSent := w.clientSent + [m])
    case ServerSend(m, order) => w.(down := Put(w.down, m, order), serverSent := w.serverSent + [m])
  }

  ghost predicate Run(w: World, steps: seq<Step>, w': World)
    decreases |steps|
  {
    if steps == [] then w' == w
    else Enabled(w, steps[0]) && Run(Apply(w, steps[0]), steps[1..], w')
  }

  ghost predicate OnlyApplication(ms: seq<Message>) {
    forall i :: 0 <= i < |ms| ==> Dispatched(ms[i])
  }

  /** Application messages, the welcome, then the given application messages. */
  ghost predicate OneWelcome(ms: seq<Message>, role: u62, after: seq<Message>) {
    exists i :: 0 <= i < |ms| && ms[i] == Welcome(role) && OnlyApplication(ms[..i]) && ms[i + 1..] == after
  }

  /** What the server's application sent after the welcome. */
  function SinceWelcome(w: World): seq<Message>
    requires w.early <= |w.serverSent|
  {
    w.serverSent[w.early..]
  }

  predicate Waiting(e: Endpoint) {
    e == NewEndpoint(e.localRole)
  }

  predicate Agreed(e: Endpoint, peer: u62) {
    e.done && e.remoteRole == peer && e.signals == 1 && !e.closed && Accepts(e.localRole, peer)
  }

  ghost predicate Unopened(w: World) {
    !w.isOpen && Waiting(w.client) && Waiting(w.server) && w.up == QUIET && w.down == QUIET && w.clientSent == []
  }

  ghost predicate HelloSent(w: World) {
    && w.isOpen && Waiting(w.client) && Waiting(w.server)
    && w.up.pending == [Hello(w.client.localRole)] + w.clientSent
    && OnlyApplication(w.clientSent) && OnlyApplication(w.down.pending)
  }

  ghost predicate Refused(w: World) {
    && w.isOpen && Waiting(w.client)
    && w.server == NewEndpoint(w.server.localRole).(remoteRole := w.client.localRole, closed := true)
    && !Accepts(w.server.localRole, w.client.localRole)
    && OnlyApplication(w.down.pending)
  }

  ghost predicate ServerDone(w: World) {
    && w.isOpen && Agreed(w.server, w.client.localRole)
    && w.clientSent == w.server.handled + w.up.pending && OnlyApplication(w.clientSent)
    && w.early <= |w.serverSent| && OnlyApplication(SinceWelcome(w))
  }

  ghost predicate WelcomeSent(w: World) {
    ServerDone(w) && Waiting(w.client) && OneWelcome(w.down.pending, w.server.localRole, SinceWelcome(w))
  }

  ghost predicate BothDone(w: World) {
    ServerDone(w) && Agreed(w.client, w.server.localRole) && SinceWelcome(w) == w.client.handled + w.down.pending
  }

  ghost predicate Progress(w: World) {
    Unopened(w) || HelloSent(w) || Refused(w) || WelcomeSent(w) || BothDone(w)
  }

  ghost predicate Invariant(w: World, client: u62, server: u62) {
    && w.client.localRole == client && w.server.localRole == server && IsRole(client) && IsRole(server)
    && Faultless(w.up) && Faultless(w.down) && Progress(w)
  }

  lemma SetupFaithful(role: u62)
    ensures Faithful(Hello(role)) && Faithful(Welcome(role))
  {
  }

  lemma FaultlessStep(w: World, step: Step)
    requires Faultless(w.up) && Faultless(w.down) && Enabled(w, step)
    ensures Faultless(Apply(w, step).up) && Faultless(Apply(w, step).down)
  {
    hide Faultless, Faithful, React, Put, Take, ParseMessage;
    SetupFaithful(w.client.localRole);
    SetupFaithful(w.server.localRole);
    match step {
      case Open(order) => PutFaultless(w.up, Hello(w.client.localRole), order);
      case ServerReceive(order) =>
        TakeFaultless(w.up);
        PutFaultless(w.down, Welcome(w.server.localRole), order);
      case ClientReceive => TakeFaultless(w.down);
      case ClientSend(m, order) => PutFaultless(w.up, m, order);
      case ServerSend(m, order) => PutFaultless(w.down, m, order);
    }
  }

  lemma OpenStep(w: World, step: Step)
    requires Progress(w) && step.Open? && Enabled(w, step)
    ensures HelloSent(Apply(w, step))
  {
    hide EncodeMessage, Writes, Hello;
  }

  lemma SendStep(w: World, step: Step)
    requires Progress(w) && (step.ClientSend? || step.ServerSend?) && Enabled(w, step)
    ensures Progress(Apply(w, step))
  {
    hide EncodeMessage, Writes, Faithful, Hello, Welcome, OneWelcome;
    var w' := Apply(w, step);
    assert step.ClientSend? ==> OnlyApplication(w'.clientSent) || !OnlyApplication(w.clientSent);
    if ServerDone(w) && step.ServerSend? {
      assert SinceWelcome(w') == SinceWelcome(w) + [step.m];
      if WelcomeSent(w) {
        WelcomeThenMore(w.down.pending, w.server.localRole, SinceWelcome(w), step.m);
      } else {
        assert SinceWelcome(w') == w'.client.handled + w'.down.pending;
      }
    } else if HelloSent(w) && step.ClientSend? {
      assert w'.up.pending == [Hello(w.client.localRole)] + w'.clientSent;
    } else if ServerDone(w) && step.ClientSend? {
      assert w'.clientSent == w'.server.handled + w'.up.pending;
    }
  }

  lemma WelcomeThenMore(ms: seq<Message>, role: u62, after: seq<Message>, m: Message)
    requires OneWelcome(ms, role, after) && Dispatched(m)
    ensures OneWelcome(ms + [m], role, after + [m])
  {
    hide Welcome, Dispatched;
    var i :| 0 <= i < |ms| && ms[i] == Welcome(role) && OnlyApplication(ms[..i]) && ms[i + 1..] == after;
    assert (ms + [m])[..i] == ms[..i] && (ms + [m])[i + 1..] == ms[i + 1..] + [m];
  }

  lemma WelcomeIsOne(ms: seq<Message>, role: u62)
    requires OnlyApplication(ms)
    ensures OneWelcome(ms + [Welcome(role)], role, [])
  {
    hide Welcome, Dispatched;
    var all := ms + [Welcome(role)];
    assert all[..|ms|] == ms && all[|ms| + 1..] == [];
  }

  /** The oldest of the messages around a welcome is the welcome itself or an application message. */
  lemma FirstOfWelcome(ms: seq<Message>, role: u62, after: seq<Message>)
    requires OneWelcome(ms, role, after)
    ensures ms != []
    ensures (ms[0] == Welcome(role) && ms[1..] == after) || (Dispatched(ms[0]) && OneWelcome(ms[1..], role, after))
  {
    hide Welcome, Dispatched;
    var i :| 0 <= i < |ms| && ms[i] == Welcome(role) && OnlyApplication(ms[..i]) && ms[i + 1..] == after;
    if i > 0 {
      var rest := ms[1..];
      assert ms[..i][0] == ms[0];
      assert rest[..i - 1] == ms[..i][1..] && rest[i..] == ms[i + 1..] && rest[i - 1] == Welcome(role);
    }
  }

  lemma ReactToHello(server: u62, client: u62)
    requires IsRole(server) && IsRole(client)
    ensures var e := NewEndpoint(server); var e' := React(e, Hello(client));
            && e'.remoteRole == client && e'.handled == []
            && (Accepts(server, client) ==> Agreed(e', client) && e'.localRole == server)
            && (!Accepts(server, client) ==> e' == e.(remoteRole := client, closed := true))
            && (Reply(e, Hello(client)).Some? <==> Accepts(server, client))
  {
  }

  lemma ReactToWelcome(client: u62, server: u62)
    requires IsRole(client) && IsRole(server) && Accepts(server, client)
    ensures Agreed(React(NewEndpoint(client), Welcome(server)), server)
    ensures React(NewEndpoint(client), Welcome(server)).localRole == client
    ensures React(NewEndpoint(client), Welcome(server)).handled == []
  {
  }

  lemma ServerStep(w: World, step: Step, client: u62, server: u62)
    requires Invariant(w, client, server) && step.ServerReceive? && Enabled(w, step)
    ensures Progress(Apply(w, step))
  {
    hide EncodeMessage, Writes, Hello, Welcome, Settle, OneWelcome, ParseMessage, Concat, AreEncodings;
    TakeFaultless(w.up);
    var w' := Apply(w, step);
    var m := w.up.pending[0];
    if HelloSent(w) {
      ReactToHello(server, client);
      IsHello(client);
      assert w'.up.pending == w.clientSent;
      if Accepts(server, client) {
        WelcomeIsOne(w.down.pending, server);
        assert SinceWelcome(w') == [];
        assert w'.server.handled + w'.up.pending == w'.up.pending;
        assert WelcomeSent(w');
      } else {
        assert Refused(w');
      }
    } else {
      assert ServerDone(w) && m == w.clientSent[|w.server.handled|];
      assert w'.clientSent == w'.server.handled + w'.up.pending;
      assert ServerDone(w') && w'.down == w.down;
    }
  }

  lemma IsHello(role: u62)
    ensures Hello(role).ClientSetup?
  {
  }

  lemma ClientStep(w: World, step: Step, client: u62, server: u62)
    requires Invariant(w, client, server) && step.ClientReceive? && Enabled(w, step)
    ensures Progress(Apply(w, step))
  {
    hide EncodeMessage, Writes, Hello, Welcome, Settle, OneWelcome, ParseMessage, Concat, AreEncodings;
    TakeFaultless(w.down);
    var m := w.down.pending[0];
    var w' := Apply(w, step);
    assert OnlyApplication(w.down.pending) ==> Dispatched(m) && OnlyApplication(w'.down.pending);
    if WelcomeSent(w) {
      FirstOfWelcome(w.down.pending, server, SinceWelcome(w));
      if m == Welcome(server) {
        ReactToWelcome(client, server);
        assert BothDone(w');
      }
    } else if BothDone(w) {
      assert m == SinceWelcome(w)[|w.client.handled|];
      assert SinceWelcome(w') == w'.client.handled + w'.down.pending;
    }
  }

  lemma {:induction false} InvariantRun(w: World, steps: seq<Step>, w': World, client: u62, server: u62)
    requires Invariant(w, client, server) && Run(w, steps, w')
    ensures Invariant(w', client, server)
    decreases |steps|
  {
    hide Progress, Faultless, React, Reply, Put, Take, ParseMessage, Writes, Faithful;
    if steps != [] {
      FaultlessStep(w, steps[0]);
      match steps[0] {
        case Open(_) => OpenStep(w, steps[0]); Opened(Apply(w, steps[0]));
        case ServerReceive(_) =>
          ServerStep(w, steps[0], client, server);
          SameRoles(w.server, ParseMessage(w.up.bytes).value);
        case ClientReceive =>
          ClientStep(w, steps[0], client, server);
          SameRoles(w.client, ParseMessage(w.down.bytes).value);
        case ClientSend(_, _) => SendStep(w, steps[0]);
        case ServerSend(_, _) => SendStep(w, steps[0]);
      }
      InvariantRun(Apply(w, steps[0]), steps[1..], w', client, server);
    }
  }

  lemma Opened(w: World)
    requires HelloSent(w)
    ensures Progress(w)
  {
  }

  lemma SameRoles(e: Endpoint, m: Message)
    ensures React(e, m).localRole == e.localRole
  {
  }

  /** In every run of two endpoints: a client that is done faces a server that is done, each knows the
      other's role, and they are not both publishers or both subscribers; each signals completion at
      most once; no handler sees a message before its side is done; a server that is done has been
      given the client's messages in order, none lost; a client that is done has been given the
      server's in order, except for exactly those sent before the welcome, which are dropped; and only
      a clash of roles closes a session. */
  lemma HandshakeAgreement(client: u62, server: u62, steps: seq<Step>, w: World)
    requires IsRole(client) && IsRole(server) && Run(Init(client, server), steps, w)
    ensures w.client.done ==> w.server.done && w.client.remoteRole == server
    ensures w.server.done ==>
              && w.server.remoteRole == client
              && !(client == server && (client == ROLE_PUBLISHER || client == ROLE_SUBSCRIBER))
    ensures w.client.signals <= 1 && w.server.signals <= 1
    ensures (w.client.handled != [] ==> w.client.done) && (w.server.handled != [] ==> w.server.done)
    ensures w.server.done ==> w.clientSent == w.server.handled + w.up.pending
    ensures w.client.done ==> w.early <= |w.serverSent| && w.serverSent[w.early..] == w.client.handled + w.down.pending
    ensures !w.client.closed && (w.server.closed ==> client == server && client != ROLE_RELAY)
  {
    hide Run, Concat, OneWelcome;
    assert Faultless(QUIET) by {
      QuietFaultless();
    }
    InvariantRun(Init(client, server), steps, w, client, server);
  }

  lemma OneKey(role: u62)
    ensures Writes(Hello(role), [ROLE_PARAM]) && Writes(Welcome(role), [ROLE_PARAM])
  {
  }

  /** An unread message can be read. */
  lemma CanTake(c: Channel)
    requires Faultless(c) && c.pending != []
    ensures ParseMessage(c.bytes).Ok?
  {
    hide ParseBody, EncodeMessage, Faithful, Read;
    var order :| Writes(c.pending[0], order) && c.wire[0] == EncodeMessage(c.pending[0], order);
    MessageRoundTrip(c.pending[0], order, Concat(c.wire[1..]));
  }

  lemma Prepend(w: World, step: Step, steps: seq<Step>, w': World)
    requires Enabled(w, step) && Run(Apply(w, step), steps, w')
    ensures Run(w, [step] + steps, w')
  {
    hide Enabled, Apply;
    assert ([step] + steps)[1..] == steps;
  }

  /** The client reads on until it comes to the welcome. */
  lemma {:induction false} ClientFinishes(w: World, client: u62, server: u62) returns (steps: seq<Step>, w': World)
    requires Invariant(w, client, server) && (WelcomeSent(w) || BothDone(w))
    ensures Run(w, steps, w') && w'.client.done && w'.server.done
    decreases |w.down.pending|
  {
    hide React, Reply, ParseMessage, Concat, Writes, Faithful, OneWelcome, Run;
    if BothDone(w) {
      steps, w' := [], w;
      RunNothing(w);
    } else {
      FirstOfWelcome(w.down.pending, server, SinceWelcome(w));
      CanTake(w.down);
      ClientReads(w, client, server);
      var m := Apply(w, ClientReceive);
      steps, w' := ClientFinishes(m, client, server);
      Prepend(w, ClientReceive, steps, w');
      steps := [ClientReceive] + steps;
    }
  }

  lemma RunNothing(w: World)
    ensures Run(w, [], w)
  {
  }

  lemma ClientReads(w: World, client: u62, server: u62)
    requires Invariant(w, client, server) && WelcomeSent(w) && ParseMessage(w.down.bytes).Ok?
    ensures var m := Apply(w, ClientReceive);
            Invariant(m, client, server) && (WelcomeSent(m) || BothDone(m)) && |m.down.pending| < |w.down.pending|
  {
    hide React, Reply, ParseMessage, Concat, Writes, Faithful, OneWelcome;
    TakeFaultless(w.down);
    FaultlessStep(w, ClientReceive);
    ClientStep(w, ClientReceive, client, server);
    SameRoles(w.client, ParseMessage(w.down.bytes).value);
  }

  /** Compatible roles can always get there: from every reachable state, whatever has been sent, some
      continuation finishes both sides. */
  lemma HandshakeCompletes(client: u62, server: u62, before: seq<Step>, w: World) returns (steps: seq<Step>, w': World)
    requires IsRole(client) && IsRole(server) && Accepts(server, client) && Run(Init(client, server), before, w)
    ensures Run(w, steps, w') && w'.client.done && w'.server.done
  {
    hide Run, Concat, OneWelcome, React, Reply, ParseMessage, Writes, Faithful;
    QuietFaultless();
    InvariantRun(Init(client, server), before, w, client, server);
    steps, w' := Finishes(w, client, server);
  }

  lemma Finishes(w: World, client: u62, server: u62) returns (steps: seq<Step>, w': World)
    requires Invariant(w, client, server) && Accepts(server, client)
    ensures Run(w, steps, w') && w'.client.done && w'.server.done
  {
    hide Run, Faultless, React, Reply, Put, Take, ParseMessage, Writes, Faithful, OneWelcome, Hello;
    if Unopened(w) {
      var step := Open([ROLE_PARAM]);
      OneKey(client);
      FaultlessStep(w, step);
      OpenStep(w, step);
      steps, w' := FinishesFromHello(Apply(w, step), client, server);
      Prepend(w, step, steps, w');
      steps := [step] + steps;
    } else if HelloSent(w) {
      steps, w' := FinishesFromHello(w, client, server);
    } else {
      steps, w' := ClientFinishes(w, client, server);
    }
  }

  lemma FinishesFromHello(w: World, client: u62, server: u62) returns (steps: seq<Step>, w': World)
    requires w.client.localRole == client && w.server.localRole == server && IsRole(client) && IsRole(server)
    requires Faultless(w.up) && Faultless(w.down) && HelloSent(w) && Accepts(server, client)
    ensures Run(w, steps, w') && w'.client.done && w'.server.done
  {
    hide Run, Faultless, Reply, Put, Take, ParseMessage, Writes, Faithful, OneWelcome, Hello, Settle;
    var step := ServerReceive([ROLE_PARAM]);
    OneKey(server);
    CanTake(w.up);
    TakeFaultless(w.up);
    ReactToHello(server, client);
    FaultlessStep(w, step);
    ServerStep(w, step, client, server);
    SameRoles(w.server, ParseMessage(w.up.bytes).value);
    steps, w' := ClientFinishes(Apply(w, step), client, server);
    Prepend(w, step, steps, w');
    steps := [step] + steps;
  }

  lemma QuietFaultless()
    ensures Faultless(QUIET)
  {
  }
}
