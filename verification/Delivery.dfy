/** What subscribers can get: data streams still to come, for sessions that are listed, and data
    streams that have gone by, for late subscribers. */
module Delivery {
  import opened Relay
  import opened Routing
  import opened Membership

  /** The replay sends these data streams one by one, and the subscriber takes them. */
  lemma {:induction false} ReplaySome(s: World, r: Replaying, todo: set<nat>) returns (steps: seq<Step>, s': World)
    requires r in s.data.replaying && r.key in s.peers.filed
    requires forall i :: i in todo ==> i in s.data.audience && i in s.data.arrived && s.data.arrived[i] == r.stream
    ensures Run(s, steps, s') && s.data.delivered <= s'.data.delivered
    ensures forall i :: i in todo ==> Flow(r.key, i) in s'.data.delivered
    decreases |todo|
  {
    if todo == {} {
      steps, s' := [], s;
    } else {
      hide Run;
      var i :| i in todo;
      var sent := Apply(s, Replay(r, i));
      var got := Apply(sent, Deliver(Flow(r.key, i)));
      steps, s' := ReplaySome(got, r, todo - {i});
      Prepend(sent, Deliver(Flow(r.key, i)), steps, s');
      steps := [Deliver(Flow(r.key, i))] + steps;
      Prepend(s, Replay(r, i), steps, s');
      steps := [Replay(r, i)] + steps;
    }
  }

  /** From every reachable state with a replay under way, some continuation hands the late subscriber
      every data stream that was forwarded on that RelayStream before, each under its own ID. */
  lemma LateSubscriberGetsAll(s: World, r: Replaying) returns (steps: seq<Step>, s': World)
    requires Reachable(s) && r in s.data.replaying
    ensures Run(s, steps, s')
    ensures forall i :: i in s.data.audience && i in s.data.arrived && s.data.arrived[i] == r.stream ==>
              Flow(r.key, i) in s'.data.delivered
  {
    hide Run, Reachable, StreamId, Requested, Reached, Members;
    Invariants(s);
    var file := FileSubscription(r.key);
    var todo := set i | i in s.data.audience && i in s.data.arrived && s.data.arrived[i] == r.stream;
    steps, s' := ReplaySome(Apply(s, file), r, todo);
    Prepend(s, file, steps, s');
    steps := [file] + steps;
  }

  /** A shared stream is replayed: whoever files a subscription on a stream that it shares with others
      has a replay under way from then on. */
  lemma SharedIsReplayed(s: World, session: Session)
    requires Enabled(s, File(session)) && s.handlers.serving[session].shared
    ensures var Filing(q, n, _) := s.handlers.serving[session];
            Replaying(n, q.key) in Apply(s, File(session)).data.replaying
  {
  }

  /** The publisher opens another data stream and the relay hands it to a goroutine for the session. */
  lemma NextForwarded(s: World, q: Request, session: Session) returns (steps: seq<Step>, s': World)
    requires Chained(s) && q in s.peers.pubStreams && q.key in s.relay.incoming
    requires Member(s.relay.incoming[q.key], session) in s.relay.members
    ensures Run(s, steps, s') && Uses(steps, iset{}) && s'.relay == s.relay && s'.peers == s.peers
    ensures var i := |s.data.upstream|;
            && s'.data.upstream == s.data.upstream + [q]
            && i in s'.data.arrived && s'.data.arrived[i] == s.relay.incoming[q.key]
            && Forwarding(i, session) in s'.data.forwarding
  {
    hide Run, Uses, StreamId, Filed, Requested, Reached;
    var i := |s.data.upstream|;
    RunNothing(s);
    steps, s' := Then(s, [], s, OpenStream(q), iset{});
    steps, s' := Then(s, steps, s', AcceptStream(i), iset{});
    steps, s' := Then(s, steps, s', ForwardStream(i), iset{});
    assert session in Listed(s.relay, s.relay.incoming[q.key]);
  }

  lemma RunNothing(s: World)
    ensures Run(s, [], s) && Uses([], iset{})
  {
  }

  /** From every reachable state: a session that a RelayStream lists and that has a subscription on it
      can be handed the next data stream that the publisher opens for it, whatever it got before,
      under a subscription of its own for that stream ID. */
  lemma ListedGetsNext(s: World, q: Request, session: Session) returns (steps: seq<Step>, s': World, key: Key)
    requires Reachable(s) && q in s.peers.pubStreams && q.key in s.relay.incoming
    requires Member(s.relay.incoming[q.key], session) in s.relay.members
    requires Holds(s.relay, session, s.relay.incoming[q.key])
    ensures Run(s, steps, s') && s'.data.upstream == s.data.upstream + [q]
    ensures key.session == session && key in s.peers.subscriptions
    ensures StreamId(s.peers.subscriptions[key]) == StreamId(q.track)
    ensures Flow(key, |s.data.upstream|) in s'.data.delivered
  {
    hide Run, Uses, Reachable, StreamId, Members;
    Invariants(s);
    var i, n := |s.data.upstream|, s.relay.incoming[q.key];
    key :| key in s.relay.subscribed && key.session == session && s.relay.subscribed[key] == n;
    assert StreamId(s.peers.subscriptions[key]) == StreamId(q.track) by {
      assert q in s.relay.requests;
    }
    hide Chained, Holds;
    steps, s' := NextForwarded(s, q, session);
    assert n < |s.relay.streams|;
    steps, s' := GoroutineDelivers(s, steps, s', Forwarding(i, session), key);
  }

  lemma GoroutineDelivers(s: World, before: seq<Step>, m: World, f: Forwarding, key: Key)
    returns (steps: seq<Step>, s': World)
    requires Run(s, before, m) && Uses(before, iset{}) && f in m.data.forwarding && Finds(m, f, key)
    requires key in m.peers.subscriptions
    ensures Run(s, steps, s') && s'.data.upstream == m.data.upstream && Flow(key, f.source) in s'.data.delivered
  {
    hide Run, Uses, Finds;
    steps, s' := Then(s, before, m, Forward(f, key, true), iset{});
    steps, s' := Then(s, steps, s', FileSubscription(key), iset{});
    steps, s' := Then(s, steps, s', Deliver(Flow(key, f.source)), iset{});
  }

  /** A data stream is only given to a substream that has been filed, and only if the relay sent it. */
  ghost predicate DeliveredFiled(s: World) {
    forall d :: d in s.data.delivered ==> d in s.data.downstream && d.key in s.peers.filed
  }

  lemma DeliveredStep(s: World, step: Step)
    requires DeliveredFiled(s) && Enabled(s, step)
    ensures DeliveredFiled(Apply(s, step))
  {
    hide StreamId, Finds, Unlocked, Matches, Unshared;
  }

  lemma {:induction false} DeliveredRun(s: World, steps: seq<Step>, s': World)
    requires DeliveredFiled(s) && Run(s, steps, s')
    ensures DeliveredFiled(s')
    decreases |steps|
  {
    hide DeliveredFiled, Apply, Enabled;
    if steps != [] {
      DeliveredStep(s, steps[0]);
      DeliveredRun(Apply(s, steps[0]), steps[1..], s');
    }
  }

  /** In every reachable state: what a substream was given came from the relay under a subscription
      that the subscriber had filed, and was published for a track with the stream ID it asked for. */
  lemma DeliveredIsFiled(s: World, d: Flow)
    requires Reachable(s) && d in s.data.delivered
    ensures d in s.data.downstream && d.key in s.peers.filed && Fits(s, d)
  {
    hide Run, Filed, Requested, Carried, Members, Fits;
    Invariants(s);
    var steps :| Run(INIT, steps, s);
    DeliveredRun(INIT, steps, s);
  }
}
