/** The relay's tables and handlers: who announced a namespace, which upstream streams each
    publisher session carries, and which subscriptions each subscriber session made. */
module Relay {
  import opened Varint
  import opened Reader

  type Name = seq<byte>

  datatype Track = Track(ns: Name, name: Name)

  datatype Session = Session(id: string)

  /** A subscription ID within a session. */
  datatype Key = Key(session: Session, id: u62)

  const UNDERSCORE: byte := 0x5F

  /** Subscribe.GetStreamID: namespace, underscore, name. */
  function StreamId(t: Track): Name {
    t.ns + [UNDERSCORE] + t.name
  }

  predicate Contains(s: Name, part: Name) {
    part <= s || (s != [] && Contains(s[1..], part))
  }

  const CATALOG: Name := [0x2E, 0x63, 0x61, 0x74, 0x61, 0x6C, 0x6F, 0x67]
  const MP4: Name := [0x2E, 0x6D, 0x70, 0x34]

  /** Track names with ".catalog" or ".mp4" in them never share an upstream stream. */
  predicate Unshared(name: Name) {
    Contains(name, CATALOG) || Contains(name, MP4)
  }

  /** strings.Contains: the part stands somewhere in the name. */
  lemma {:induction false} ContainsAnywhere(s: Name, part: Name)
    ensures Contains(s, part) <==> exists a: Name, b: Name :: s == a + part + b
  {
    if part <= s {
      assert s == [] + part + s[|part|..];
    } else if s != [] {
      ContainsAnywhere(s[1..], part);
      if a: Name, b: Name :| s[1..] == a + part + b {
        assert s == ([s[0]] + a) + part + b;
      }
      forall a: Name, b: Name | s == a + part + b ensures exists a', b' :: s[1..] == a' + part + b' {
        ShiftedPart(s, a, part, b);
      }
    } else {
      forall a: Name, b: Name ensures s != a + part + b {
        assert |a + part + b| >= |part|;
      }
    }
  }

  lemma ShiftedPart(s: Name, a: Name, part: Name, b: Name)
    requires s == a + part + b && !(part <= s)
    ensures s[1..] == a[1..] + part + b
  {
    assert a == [] ==> part <= s;
  }

  /** ".catalog" or ".mp4" stands somewhere in the name. */
  ghost predicate CatalogOrMp4(name: Name) {
    || (exists a: Name, b: Name :: name == a + [0x2E, 0x63, 0x61, 0x74, 0x61, 0x6C, 0x6F, 0x67] + b)
    || (exists a: Name, b: Name :: name == a + [0x2E, 0x6D, 0x70, 0x34] + b)
  }

  lemma UnsharedNames(name: Name)
    ensures Unshared(name) <==> CatalogOrMp4(name)
  {
    hide Contains;
    ContainsAnywhere(name, CATALOG);
    ContainsAnywhere(name, MP4);
  }

  /** A RelayStream; its subscriber set is kept in State.members. */
  datatype RelayStream = RelayStream(publisher: Session, subId: u62, streamId: Name)

  datatype Member = Member(stream: nat, session: Session)

  datatype Request = Request(key: Key, track: Track)

  /** namespaces: the session manager's table. incoming and subscribed: the handlers' IncomingStreams
      and SubscribedStreams, by session and subscription ID. requests: every SUBSCRIBE sent upstream,
      in order; looked: for each of them, how many there were when its handler looked for a stream
      to share. */
  datatype State = State(
    namespaces: map<Name, Session>,
    streams: seq<RelayStream>,
    members: set<Member>,
    incoming: map<Key, nat>,
    subscribed: map<Key, nat>,
    requests: seq<Request>,
    looked: seq<nat>)

  const EMPTY: State := State(map[], [], {}, map[], map[], [], [])

  function Publisher(s: State, ns: Name): Option<Session> {
    if ns in s.namespaces then Some(s.namespaces[ns]) else None
  }

  /** The stream that a lookup by stream ID may return for a publisher session. */
  predicate Matches(s: State, p: Session, streamId: Name, k: Key) {
    && k in s.incoming && k.session == p
    && s.incoming[k] < |s.streams| && s.streams[s.incoming[k]].streamId == streamId
  }

  /** The subscription that a lookup by stream ID may return for a subscriber session. */
  predicate Subscribes(s: State, session: Session, streamId: Name, k: Key) {
    && k in s.subscribed && k.session == session
    && s.subscribed[k] < |s.streams| && s.streams[s.subscribed[k]].streamId == streamId
  }

  // ----- the namespace table

  datatype Announcement = Announcement(ns: Name, publisher: Session)

  /** The namespace table after a sequence of announcements. */
  function Table(log: seq<Announcement>): map<Name, Session> {
    if log == [] then map[] else Table(log[..|log| - 1])[log[|log| - 1].ns := log[|log| - 1].publisher]
  }

  ghost predicate LatestFor(log: seq<Announcement>, ns: Name, i: nat) {
    i < |log| && log[i].ns == ns && forall j :: i < j < |log| ==> log[j].ns != ns
  }

  /** A namespace leads to its latest announcer, and to nobody if it was never announced. */
  lemma {:induction false} TableIsLatest(log: seq<Announcement>, ns: Name)
    ensures ns in Table(log) <==> exists i: nat :: LatestFor(log, ns, i)
    ensures forall i: nat :: LatestFor(log, ns, i) ==> Table(log)[ns] == log[i].publisher
  {
    if log != [] {
      var front, n := log[..|log| - 1], |log| - 1;
      TableIsLatest(front, ns);
      if log[n].ns == ns {
        assert LatestFor(log, ns, n);
        assert forall i: nat :: LatestFor(log, ns, i) ==> i == n;
      } else {
        forall i: nat ensures LatestFor(log, ns, i) <==> LatestFor(front, ns, i) {
        }
      }
    }
  }

  lemma TableGrows(log: seq<Announcement>, ns: Name, p: Session)
    ensures Table(log + [Announcement(ns, p)]) == Table(log)[ns := p]
  {
    assert (log + [Announcement(ns, p)])[..|log|] == log;
  }

  // ----- the lock regions

  /** SendSubscribe: a new upstream stream under a fresh ID, after a lookup that saw `seen` requests. */
  function OnOpen(s: State, p: Session, u: u62, t: Track, seen: nat): State {
    s.(streams := s.streams + [RelayStream(p, u, StreamId(t))],
       incoming := s.incoming[Key(p, u) := |s.streams|],
       requests := s.requests + [Request(Key(p, u), t)],
       looked := s.looked + [seen])
  }

  /** AddSubscriber. */
  function OnList(s: State, n: nat, session: Session): State {
    s.(members := s.members + {Member(n, session)})
  }

  /** AddStream on the subscriber's SubscribedStreams. */
  function OnFile(s: State, key: Key, n: nat): State {
    s.(subscribed := s.subscribed[key := n])
  }

  /** RemoveSubscriber. */
  function OnLeave(s: State, n: nat, session: Session): State {
    s.(members := s.members - {Member(n, session)})
  }

  // ----- whole handlers, if nothing comes between

  /** How a SUBSCRIBE is served: by a stream that is already there, or by a new upstream
      subscription under a fresh ID. */
  datatype Choice = Share(k: Key) | Fresh(u: u62)

  ghost predicate Allowed(s: State, t: Track, c: Choice) {
    t.ns in s.namespaces ==>
      var p := s.namespaces[t.ns];
      match c
      case Share(k) => Matches(s, p, StreamId(t), k) && !Unshared(t.name)
      case Fresh(u) => Key(p, u) !in s.incoming && (Unshared(t.name) || forall k :: !Matches(s, p, StreamId(t), k))
  }

  /** The stream a subscriber ends up on. */
  function StreamFor(s: State, c: Choice): nat
    requires c.Share? ==> c.k in s.incoming
  {
    if c.Share? then s.incoming[c.k] else |s.streams|
  }

  function OnSubscribe(s: State, key: Key, t: Track, c: Choice): State
    requires t.ns in s.namespaces && c.Share? ==> c.k in s.incoming
  {
    if t.ns !in s.namespaces then s
    else
      var n := StreamFor(s, c);
      var s' := if c.Share? then s else OnOpen(s, s.namespaces[t.ns], c.u, t, |s.requests|);
      OnFile(OnList(s', n, key.session), key, n)
  }

  /** One of the session's subscriptions in ks is on the stream. */
  predicate OnStream(s: State, ks: set<Key>, m: Member) {
    exists k :: k in ks && k in s.subscribed && k.session == m.session && s.subscribed[k] == m.stream
  }

  // ----- the handlers

  class RelayServer {
    var state: State

    constructor ()
      ensures state == EMPTY
    {
      state := EMPTY;
    }

    method HandleAnnounce(p: Session, ns: Name)
      modifies this
      ensures state == old(state).(namespaces := state.namespaces)
      ensures forall x :: Publisher(state, x) == if x == ns then Some(p) else Publisher(old(state), x)
    {
      state := state.(namespaces := state.namespaces[ns := p]);
    }

    /** StreamIDGetStream over one session's incoming streams. */
    method FindIncoming(p: Session, streamId: Name) returns (found: Option<Key>)
      ensures found.Some? ==> Matches(state, p, streamId, found.value)
      ensures found.None? ==> forall k :: !Matches(state, p, streamId, k)
    {
      var todo := state.incoming.Keys;
      while todo != {}
        invariant todo <= state.incoming.Keys
        invariant forall k :: k in state.incoming && k !in todo ==> !Matches(state, p, streamId, k)
        decreases todo
      {
        var k :| k in todo;
        if Matches(state, p, streamId, k) {
          return Some(k);
        }
        todo := todo - {k};
      }
      found := None;
    }

    /** HandleSubscribe with GetObjectStream and SendSubscribe, one lock region after the other: find
        the publisher, share or open the upstream stream, list the session, file the subscription.
        draw stands for the random subscription ID. */
    method HandleSubscribe(key: Key, t: Track, draw: u62) returns (ghost choice: Choice)
      requires t.ns in state.namespaces ==> Key(state.namespaces[t.ns], draw) !in state.incoming
      modifies this
      ensures Allowed(old(state), t, choice)
      ensures t.ns in old(state).namespaces && choice.Share? ==> choice.k in old(state).incoming
      ensures state == OnSubscribe(old(state), key, t, choice)
      ensures t.ns in old(state).namespaces ==>
                var p := old(state).namespaces[t.ns];
                && key in state.subscribed && Member(state.subscribed[key], key.session) in state.members
                && (CatalogOrMp4(t.name) || (forall k :: !Matches(old(state), p, StreamId(t), k)) ==>
                      && state.requests == old(state).requests + [Request(Key(p, draw), t)]
                      && state.streams == old(state).streams + [RelayStream(p, draw, StreamId(t))])
                && (!CatalogOrMp4(t.name) && (exists k :: Matches(old(state), p, StreamId(t), k)) ==>
                      state.requests == old(state).requests && state.streams == old(state).streams)
      ensures t.ns !in old(state).namespaces ==> state == old(state)
    {
      hide CatalogOrMp4, Unshared;
      UnsharedNames(t.name);
      choice := Fresh(draw);
      if t.ns !in state.namespaces {
        return;
      }
      var p := state.namespaces[t.ns];
      var found := FindIncoming(p, StreamId(t));
      var n;
      if found == None || Unshared(t.name) {
        n := |state.streams|;
        state := OnOpen(state, p, draw, t, |state.requests|);
      } else {
        choice := Share(found.value);
        n := state.incoming[found.value];
      }
      state := OnList(state, n, key.session);
      state := OnFile(state, key, n);
    }

    /** GetSubID over one session's subscriptions: any subscription ID on that stream ID will do. */
    method GetSubID(session: Session, streamId: Name) returns (found: Option<Key>)
      ensures found.Some? ==> Subscribes(state, session, streamId, found.value)
      ensures found.None? ==> forall k :: !Subscribes(state, session, streamId, k)
    {
      var todo := state.subscribed.Keys;
      while todo != {}
        invariant todo <= state.subscribed.Keys
        invariant forall k :: k in state.subscribed && k !in todo ==> !Subscribes(state, session, streamId, k)
        decreases todo
      {
        var k :| k in todo;
        if Subscribes(state, session, streamId, k) {
          return Some(k);
        }
        todo := todo - {k};
      }
      found := None;
    }

    method HandleUnsubscribe(key: Key)
      modifies this
      ensures state == old(state).(members := state.members)
      ensures forall m :: m in state.members <==>
                m in old(state).members
                && !(m.session == key.session && key in state.subscribed && m.stream == state.subscribed[key])
    {
      if key in state.subscribed {
        state := OnLeave(state, state.subscribed[key], key.session);
      }
    }

    /** HandleClose: leave every stream the session subscribed to. */
    method HandleClose(session: Session)
      modifies this
      ensures state == old(state).(members := state.members)
      ensures forall m :: m in state.members <==>
                m in old(state).members && !(m.session == session && OnStream(state, state.subscribed.Keys, m))
    {
      var todo := set k | k in state.subscribed && k.session == session;
      ghost var all := todo;
      while todo != {}
        invariant todo <= all
        invariant state == old(state).(members := state.members)
        invariant forall m :: m in state.members <==>
                    m in old(state).members && !(m.session == session && OnStream(old(state), all - todo, m))
        decreases todo
      {
        var k :| k in todo;
        state := OnLeave(state, state.subscribed[k], session);
        todo := todo - {k};
      }
    }
  }
}
