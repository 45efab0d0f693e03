/** How often the relay subscribes upstream: GetObjectStream looks for a stream to share under one
    lock and files a new one under another, so two handlers can both find nothing. */
module Upstream {
  import opened Varint
  import opened Reader
  import opened Relay
  import opened Routing
  import opened Membership

  /** The request goes to that publisher session for that stream ID. */
  predicate AsksFor(q: Request, p: Session, x: Name) {
    q.key.session == p && StreamId(q.track) == x
  }

  predicate SameStream(a: Request, b: Request) {
    AsksFor(a, b.key.session, StreamId(b.track))
  }

  /** Of two requests to one publisher for one stream ID, the later is for an unshared name. */
  ghost predicate OncePerStream(qs: seq<Request>) {
    forall i, j :: 0 <= i < j < |qs| && SameStream(qs[i], qs[j]) ==> Unshared(qs[j].track.name)
  }

  /** The earlier of two requests for one stream went out after the handler of the later, which is for
      a shared name, had looked for a stream: the two overlapped between lookup and add. */
  ghost predicate Overlap(r: R.State, i: nat, j: nat) {
    && i < j < |r.requests| && j < |r.looked| && SameStream(r.requests[i], r.requests[j])
    && r.looked[j] <= i && !Unshared(r.requests[j].track.name)
  }

  /** The publisher session was asked again for that stream ID, and there was a reason. */
  ghost predicate Doubled(r: R.State, p: Session, x: Name) {
    exists i: nat, j: nat ::
      && i < j < |r.requests| && AsksFor(r.requests[i], p, x) && AsksFor(r.requests[j], p, x)
      && (Unshared(r.requests[j].track.name) || Overlap(r, i, j))
  }

  /** Every upstream stream was requested, no two requests use one ID, and of two requests for one
      stream the later is for an unshared name or was looked up before the earlier. */
  ghost predicate Logged(r: R.State) {
    && |r.looked| == |r.requests|
    && (forall k :: k in r.incoming ==> exists i :: 0 <= i < |r.requests| && r.requests[i].key == k)
    && (forall i, j :: 0 <= i < j < |r.requests| ==> r.requests[i].key != r.requests[j].key)
    && (forall i, j :: 0 <= i < j < |r.requests| && SameStream(r.requests[i], r.requests[j]) ==>
          Unshared(r.requests[j].track.name) || Overlap(r, i, j))
  }

  /** A handler that found nothing to share knows that nothing had been requested. */
  ghost predicate Informed(r: R.State, stage: Stage) {
    stage.Opening? ==>
      && stage.seen <= |r.requests|
      && (Unshared(stage.q.track.name) ||
          forall i :: 0 <= i < stage.seen ==> !AsksFor(r.requests[i], stage.publisher, StreamId(stage.q.track)))
  }

  ghost predicate Deduplicated(s: World) {
    Logged(s.relay) && forall session :: session in s.handlers.serving ==> Informed(s.relay, s.handlers.serving[session])
  }

  lemma LoggedOpen(r: R.State, subs: map<Key, Track>, p: Session, u: u62, q: Request, seen: nat)
    requires Filed(r, subs) && Logged(r) && Key(p, u) !in r.incoming && Informed(r, Opening(q, p, seen))
    ensures Logged(OnOpen(r, p, u, q.track, seen))
  {
    hide StreamId, Unshared, Carries;
    var r' := OnOpen(r, p, u, q.track, seen);
    forall i, j | 0 <= i < j < |r'.requests| && SameStream(r'.requests[i], r'.requests[j])
      ensures Unshared(r'.requests[j].track.name) || Overlap(r', i, j)
    {
      assert j < |r.requests| ==> Unshared(r.requests[j].track.name) || Overlap(r, i, j);
    }
    forall k | k in r'.incoming ensures exists i :: 0 <= i < |r'.requests| && r'.requests[i].key == k {
      if k == Key(p, u) {
        assert r'.requests[|r.requests|].key == k;
      } else {
        var i :| 0 <= i < |r.requests| && r.requests[i].key == k;
        assert r'.requests[i].key == k;
      }
    }
  }

  /** All requests so far are filed, so a lookup that finds nothing has missed none of them. */
  lemma InformedLookup(s: World, session: Session)
    requires Chained(s) && Enabled(s, Lookup(session, None))
    ensures var Looking(q, p) := s.handlers.serving[session]; Informed(s.relay, Opening(q, p, |s.relay.requests|))
  {
    hide StreamId, Unshared, Requested, Carried, Reached;
    var r := s.relay;
    var Looking(q, p) := s.handlers.serving[session];
    if !Unshared(q.track.name) {
      forall i | 0 <= i < |r.requests| ensures !AsksFor(r.requests[i], p, StreamId(q.track)) {
        assert !Matches(r, p, StreamId(q.track), r.requests[i].key);
      }
    }
  }

  /** What a handler knows stays true while requests are only added. */
  lemma StaysInformed(r: R.State, r': R.State, stage: Stage)
    requires Informed(r, stage) && r.requests <= r'.requests
    ensures Informed(r', stage)
  {
    hide StreamId, Unshared;
    assert forall i :: 0 <= i < |r.requests| ==> r'.requests[i] == r.requests[i];
  }

  /** A handler starts opening a stream only after a lookup that found none. */
  lemma StageStep(s: World, step: Step, session: Session)
    requires Enabled(s, step) && step != Lookup(session, None)
    requires session in Apply(s, step).handlers.serving && Apply(s, step).handlers.serving[session].Opening?
    ensures session in s.handlers.serving && s.handlers.serving[session] == Apply(s, step).handlers.serving[session]
  {
    if step.PickUp? || step.Lookup? || step.Open? || step.List? || step.File? {
      hide StreamId, Unlocked, Matches, Unshared;
    } else {
      hide Apply, Enabled;
      FrameMessages(s, step);
    }
  }

  lemma RequestsGrow(s: World, step: Step)
    requires Enabled(s, step)
    ensures s.relay.requests <= Apply(s, step).relay.requests
  {
    if !step.Open? {
      hide Apply, Enabled;
      FrameTables(s, step);
    }
  }

  lemma InformedStep(s: World, step: Step, session: Session)
    requires Chained(s) && Deduplicated(s) && Enabled(s, step) && session in Apply(s, step).handlers.serving
    ensures Informed(Apply(s, step).relay, Apply(s, step).handlers.serving[session])
  {
    if step == Lookup(session, None) {
      hide StreamId, Unshared, Chained, Logged;
      InformedLookup(s, session);
    } else if Apply(s, step).handlers.serving[session].Opening? {
      hide Apply, Enabled, Chained, Logged, Informed;
      StageStep(s, step, session);
      RequestsGrow(s, step);
      StaysInformed(s.relay, Apply(s, step).relay, s.handlers.serving[session]);
    }
  }

  lemma DeduplicatedStep(s: World, step: Step)
    requires Chained(s) && Deduplicated(s) && Enabled(s, step)
    ensures Deduplicated(Apply(s, step))
  {
    hide StreamId, Unshared, Informed, Logged, Filed, Requested, Carried, Reached;
    var s' := Apply(s, step);
    forall session | session in s'.handlers.serving ensures Informed(s'.relay, s'.handlers.serving[session]) {
      InformedStep(s, step, session);
    }
    if step.Open? {
      var Opening(q, p, seen) := s.handlers.serving[step.session];
      LoggedOpen(s.relay, s.peers.subscriptions, p, step.u, q, seen);
    } else {
      hide Apply, Enabled;
      FrameTables(s, step);
      SameLog(s.relay, s'.relay);
    }
  }

  lemma SameLog(r: R.State, r': R.State)
    requires Logged(r) && r'.(namespaces := r.namespaces, members := r.members, subscribed := r.subscribed) == r
    ensures Logged(r')
  {
    hide StreamId, Unshared;
    assert forall i: nat, j: nat :: Overlap(r, i, j) ==> Overlap(r', i, j);
  }

  lemma {:induction false} DeduplicatedRun(s: World, steps: seq<Step>, s': World)
    requires Chained(s) && Deduplicated(s) && Run(s, steps, s')
    ensures Chained(s') && Deduplicated(s')
    decreases |steps|
  {
    hide Chained, Deduplicated, Apply, Enabled;
    if steps != [] {
      ChainedStep(s, steps[0]);
      DeduplicatedStep(s, steps[0]);
      DeduplicatedRun(Apply(s, steps[0]), steps[1..], s');
    }
  }

  /** In every reachable state: a publisher session has been asked at most once per stream ID, apart
      from unshared names, exactly when no two handlers overlapped between lookup and add; each
      upstream stream is filed under its own subscription ID; and two upstream streams of one session
      carry one stream ID only after an unshared name or such an overlap. */
  lemma UpstreamOncePerStream(s: World)
    requires Reachable(s)
    ensures var r := s.relay;
            && (OncePerStream(r.requests) <==> forall i, j :: !Overlap(r, i, j))
            && (forall k :: k in r.incoming ==> r.incoming[k] < |r.streams| && r.streams[r.incoming[k]].subId == k.id)
            && (forall k: Key, l: Key, x :: k != l && Matches(r, k.session, x, k) && Matches(r, k.session, x, l) ==>
                  Doubled(r, k.session, x))
  {
    hide Run, StreamId, Unshared, Matches;
    var steps :| Run(INIT, steps, s);
    InitChained(iset{});
    DeduplicatedRun(INIT, steps, s);
    forall k: Key, l: Key, x | k != l && Matches(s.relay, k.session, x, k) && Matches(s.relay, k.session, x, l)
      ensures Doubled(s.relay, k.session, x)
    {
      TwoStreams(s.relay, s.peers.subscriptions, k, l, x);
    }
  }

  lemma TwoStreams(r: R.State, subs: map<Key, Track>, k: Key, l: Key, x: Name)
    requires Filed(r, subs) && Logged(r)
    requires k != l && Matches(r, k.session, x, k) && Matches(r, k.session, x, l)
    ensures Doubled(r, k.session, x)
  {
    hide StreamId, Filed, Overlap;
    var a :| 0 <= a < |r.requests| && r.requests[a].key == k;
    var b :| 0 <= b < |r.requests| && r.requests[b].key == l;
    Asked(r, subs, a, x);
    Asked(r, subs, b, x);
    var i, j := if a < b then a else b, if a < b then b else a;
    assert SameStream(r.requests[i], r.requests[j]);
  }

  lemma Asked(r: R.State, subs: map<Key, Track>, i: nat, x: Name)
    requires Filed(r, subs) && i < |r.requests|
    requires Matches(r, r.requests[i].key.session, x, r.requests[i].key)
    ensures AsksFor(r.requests[i], r.requests[i].key.session, x)
  {
    hide StreamId;
  }

  // ----- handlers that take turns

  /** The handler is about to open that stream. */
  predicate Opens(s: World, session: Session, p: Session, x: Name) {
    && session in s.handlers.serving && s.handlers.serving[session].Opening?
    && s.handlers.serving[session].publisher == p && StreamId(s.handlers.serving[session].q.track) == x
  }

  /** No handler looks for a stream while another one is between its lookup and its add for it. */
  ghost predicate TakingTurns(s: World, steps: seq<Step>)
    decreases |steps|
  {
    steps == [] ||
    (Enabled(s, steps[0]) && TurnTaken(s, steps[0]) && TakingTurns(Apply(s, steps[0]), steps[1..]))
  }

  ghost predicate TurnTaken(s: World, step: Step)
    requires Enabled(s, step)
  {
    step.Lookup? ==>
      var Looking(q, p) := s.handlers.serving[step.session];
      forall other :: !Opens(s, other, p, StreamId(q.track))
  }

  /** A handler about to open a stream is the only one, and still up to date. */
  ghost predicate Alone(s: World) {
    && (forall a, b, p, x :: Opens(s, a, p, x) && Opens(s, b, p, x) ==> a == b)
    && (forall a, p, x, i :: Opens(s, a, p, x) && s.handlers.serving[a].seen <= i < |s.relay.requests| ==>
          !AsksFor(s.relay.requests[i], p, x))
  }

  lemma OpensStep(s: World, step: Step, a: Session, p: Session, x: Name)
    requires Enabled(s, step) && Opens(Apply(s, step), a, p, x)
    ensures Opens(s, a, p, x) || step == Lookup(a, None)
    ensures Opens(s, a, p, x) ==> Apply(s, step).handlers.serving[a] == s.handlers.serving[a] && step != Lookup(a, None)
  {
    hide StreamId, Unlocked, Finds, Matches, Unshared;
  }

  lemma AloneLookup(s: World, session: Session)
    requires Alone(s) && Enabled(s, Lookup(session, None)) && TurnTaken(s, Lookup(session, None))
    ensures Alone(Apply(s, Lookup(session, None)))
  {
    hide StreamId, Matches, Unshared;
    var s' := Apply(s, Lookup(session, None));
    forall a, p, x | Opens(s', a, p, x) ensures a == session || Opens(s, a, p, x) {
    }
  }

  lemma AloneOpen(s: World, session: Session, u: u62)
    requires Alone(s) && Enabled(s, Open(session, u))
    ensures Alone(Apply(s, Open(session, u)))
  {
    hide StreamId;
    var s' := Apply(s, Open(session, u));
    var Opening(q, publisher, _) := s.handlers.serving[session];
    assert Opens(s, session, publisher, StreamId(q.track));
    forall a, p, x | Opens(s', a, p, x) ensures a != session && Opens(s, a, p, x) {
    }
  }

  lemma AloneStep(s: World, step: Step)
    requires Alone(s) && Enabled(s, step) && TurnTaken(s, step)
    ensures Alone(Apply(s, step))
  {
    hide Apply, Enabled, TurnTaken, StreamId;
    if step.Lookup? && step.found == None {
      AloneLookup(s, step.session);
    } else if step.Open? {
      AloneOpen(s, step.session, step.u);
    } else {
      hide Opens;
      FrameTables(s, step);
      var s' := Apply(s, step);
      forall a, p, x | Opens(s', a, p, x)
        ensures Opens(s, a, p, x) && s'.handlers.serving[a] == s.handlers.serving[a]
      {
        OpensStep(s, step, a, p, x);
      }
    }
  }

  lemma OnceStep(s: World, step: Step)
    requires Deduplicated(s) && Alone(s) && OncePerStream(s.relay.requests) && Enabled(s, step)
    ensures OncePerStream(Apply(s, step).relay.requests)
  {
    if step.Open? {
      hide StreamId, Unshared, Logged;
      var Opening(q, p, _) := s.handlers.serving[step.session];
      assert Opens(s, step.session, p, StreamId(q.track));
    } else {
      hide Apply, Enabled, Deduplicated, Alone;
      FrameTables(s, step);
    }
  }

  lemma {:induction false} OnceRun(s: World, steps: seq<Step>, s': World)
    requires Chained(s) && Deduplicated(s) && Alone(s) && OncePerStream(s.relay.requests)
    requires Run(s, steps, s') && TakingTurns(s, steps)
    ensures OncePerStream(s'.relay.requests)
    decreases |steps|
  {
    hide Chained, Deduplicated, Alone, OncePerStream, Apply, Enabled, TurnTaken;
    if steps != [] {
      ChainedStep(s, steps[0]);
      DeduplicatedStep(s, steps[0]);
      AloneStep(s, steps[0]);
      OnceStep(s, steps[0]);
      OnceRun(Apply(s, steps[0]), steps[1..], s');
    }
  }

  /** Over every run in which handlers take turns, a publisher is asked once per stream ID, apart from
      unshared names. */
  lemma OnceIfTakingTurns(steps: seq<Step>, s: World)
    requires Run(INIT, steps, s) && TakingTurns(INIT, steps)
    ensures OncePerStream(s.relay.requests)
  {
    hide Run, TakingTurns;
    InitChained(iset{});
    OnceRun(INIT, steps, s);
  }

  const SUB2: Session := Session("t")

  /** Two subscribers have asked for one track, and the handlers of both know the publisher. */
  lemma BothLooking(t: Track) returns (steps: seq<Step>, s: World)
    ensures Run(INIT, steps, s) && Uses(steps, iset{t}) && s.relay == EMPTY.(namespaces := map[t.ns := PUB])
    ensures s.handlers.serving ==
            map[SUB := Looking(Request(Key(SUB, 1), t), PUB), SUB2 := Looking(Request(Key(SUB2, 1), t), PUB)]
  {
    hide Run, Uses;
    var a, b, tracks := Request(Key(SUB, 1), t), Request(Key(SUB2, 1), t), iset{t};
    Nothing(tracks);
    steps, s := Then(INIT, [], INIT, SendAnnounce(PUB, t.ns), tracks);
    steps, s := Then(INIT, steps, s, RelayAnnounce(PUB, t.ns), tracks);
    steps, s := Then(INIT, steps, s, Subscribe(a.key, t), tracks);
    steps, s := Then(INIT, steps, s, Subscribe(b.key, t), tracks);
    steps, s := Then(INIT, steps, s, PickUp(a), tracks);
    steps, s := Then(INIT, steps, s, PickUp(b), tracks);
  }

  /** Neither finds a stream to share. */
  lemma BothOpening(t: Track) returns (steps: seq<Step>, s: World)
    ensures Run(INIT, steps, s) && Uses(steps, iset{t}) && s.relay == EMPTY.(namespaces := map[t.ns := PUB])
    ensures s.handlers.serving ==
            map[SUB := Opening(Request(Key(SUB, 1), t), PUB, 0), SUB2 := Opening(Request(Key(SUB2, 1), t), PUB, 0)]
  {
    hide Run, Uses, StreamId, Unshared;
    steps, s := BothLooking(t);
    steps, s := Then(INIT, steps, s, Lookup(SUB, None), iset{t});
    steps, s := Then(INIT, steps, s, Lookup(SUB2, None), iset{t});
  }

  /** For every shared name there is a run in which two subscribers make the relay ask twice. */
  lemma RaceAsksTwice(t: Track) returns (steps: seq<Step>, s: World)
    requires !Unshared(t.name)
    ensures Run(INIT, steps, s)
    ensures s.relay.requests == [Request(Key(PUB, 1), t), Request(Key(PUB, 2), t)] && !OncePerStream(s.relay.requests)
  {
    hide Run, Uses, StreamId, Unshared;
    steps, s := BothOpening(t);
    steps, s := Then(INIT, steps, s, Open(SUB, 1), iset{t});
    steps, s := Then(INIT, steps, s, Open(SUB2, 2), iset{t});
    assert SameStream(s.relay.requests[0], s.relay.requests[1]);
  }

  // ----- catalog and mp4 tracks

  /** A stream that is shared is asked for under another name. */
  ghost predicate OnlyShareable(s: World) {
    && (forall session :: session in s.handlers.serving ==>
          var stage := s.handlers.serving[session];
          (stage.Joining? || stage.Filing?) && stage.shared ==> !Unshared(stage.q.track.name))
    && (forall r :: r in s.data.replaying ==>
          r.key in s.peers.subscriptions && !Unshared(s.peers.subscriptions[r.key].name))
  }

  lemma OnlyShareableStep(s: World, step: Step)
    requires Chained(s) && OnlyShareable(s) && Enabled(s, step)
    ensures OnlyShareable(Apply(s, step))
  {
    hide StreamId, Unshared, Filed, Carried, Reached, Unlocked, Finds, Matches;
    if !step.File? {
      hide Requested;
    }
  }

  lemma {:induction false} OnlyShareableRun(s: World, steps: seq<Step>, s': World)
    requires Chained(s) && OnlyShareable(s) && Run(s, steps, s')
    ensures OnlyShareable(s')
    decreases |steps|
  {
    hide Chained, OnlyShareable, Apply, Enabled;
    if steps != [] {
      ChainedStep(s, steps[0]);
      OnlyShareableStep(s, steps[0]);
      OnlyShareableRun(Apply(s, steps[0]), steps[1..], s');
    }
  }

  /** In every reachable state: a handler that joins a stream opened for somebody else, and a replay,
      are never for a track with ".catalog" or ".mp4" in its name. */
  lemma CatalogNeverShared(s: World)
    requires Reachable(s)
    ensures forall session :: session in s.handlers.serving ==>
              var stage := s.handlers.serving[session];
              stage.Joining? && stage.shared ==> !CatalogOrMp4(stage.q.track.name)
    ensures forall r :: r in s.data.replaying ==>
              r.key in s.peers.subscriptions && !CatalogOrMp4(s.peers.subscriptions[r.key].name)
  {
    hide Run, Unshared, CatalogOrMp4;
    var steps :| Run(INIT, steps, s);
    InitChained(iset{});
    OnlyShareableRun(INIT, steps, s);
    forall name: Name ensures Unshared(name) <==> CatalogOrMp4(name) {
      UnsharedNames(name);
    }
  }

  // ----- whom the relay asks

  /** The announcements that the relay has handled, in order. */
  function Handled(steps: seq<Step>): seq<Announcement> {
    if steps == [] then []
    else (if steps[0].RelayAnnounce? then [Announcement(steps[0].ns, steps[0].p)] else []) + Handled(steps[1..])
  }

  lemma NamespacesStep(s: World, step: Step)
    requires Enabled(s, step)
    ensures Apply(s, step).relay.namespaces ==
            if step.RelayAnnounce? then s.relay.namespaces[step.ns := step.p] else s.relay.namespaces
  {
    hide StreamId, Unlocked, Finds, Matches, Unshared;
  }

  lemma {:induction false} NamespacesRun(s: World, steps: seq<Step>, s': World, log: seq<Announcement>)
    requires Run(s, steps, s') && s.relay.namespaces == Table(log)
    ensures s'.relay.namespaces == Table(log + Handled(steps))
    decreases |steps|
  {
    hide Apply, Enabled, Table;
    if steps == [] {
      assert log + [] == log;
    } else {
      var next := if steps[0].RelayAnnounce? then log + [Announcement(steps[0].ns, steps[0].p)] else log;
      NamespacesStep(s, steps[0]);
      if steps[0].RelayAnnounce? {
        TableGrows(log, steps[0].ns, steps[0].p);
      }
      NamespacesRun(Apply(s, steps[0]), steps[1..], s', next);
      assert next + Handled(steps[1..]) == log + Handled(steps);
    }
  }

  /** Over every run: the relay looks a track's publisher up in the session manager's table, which
      leads to the session whose announcement of that namespace was handled last. */
  lemma PublisherIsLatest(steps: seq<Step>, s: World, ns: Name)
    requires Run(INIT, steps, s)
    ensures Publisher(s.relay, ns).Some? <==> exists i: nat :: LatestFor(Handled(steps), ns, i)
    ensures forall i: nat :: LatestFor(Handled(steps), ns, i) ==> Publisher(s.relay, ns) == Some(Handled(steps)[i].publisher)
  {
    hide Run;
    NamespacesRun(INIT, steps, s, []);
    assert [] + Handled(steps) == Handled(steps);
    TableIsLatest(Handled(steps), ns);
  }

  /** Namespaces, and the handlers that have looked one up, lead to sessions that announced it. */
  ghost predicate Announced(s: World) {
    && (forall ns :: ns in s.relay.namespaces ==> (s.relay.namespaces[ns], ns) in s.peers.announces)
    && (forall session :: session in s.handlers.serving ==>
          var stage := s.handlers.serving[session];
          stage.Looking? || stage.Opening? ==> (stage.publisher, stage.q.track.ns) in s.peers.announces)
    && (forall q :: q in s.relay.requests ==> (q.key.session, q.track.ns) in s.peers.announces)
    && (forall q :: q in s.peers.pubStreams ==> (q.key.session, q.track.ns) in s.peers.announced)
  }

  lemma AnnouncedStep(s: World, step: Step)
    requires Announced(s) && Enabled(s, step)
    ensures Announced(Apply(s, step))
  {
    hide StreamId, Unlocked, Finds, Matches, Unshared;
  }

  lemma {:induction false} AnnouncedRun(s: World, steps: seq<Step>, s': World)
    requires Announced(s) && Run(s, steps, s')
    ensures Announced(s')
    decreases |steps|
  {
    hide Announced, Apply, Enabled;
    if steps != [] {
      AnnouncedStep(s, steps[0]);
      AnnouncedRun(Apply(s, steps[0]), steps[1..], s');
    }
  }

  /** In every reachable state: each upstream SUBSCRIBE went to a session that announced the track's
      namespace, so the publisher refuses it only before it has recorded its own announcement; and
      whatever is published belongs to a recorded one. */
  lemma AskedOfAnnouncer(s: World, q: Request)
    requires Reachable(s)
    ensures q in s.relay.requests ==> (q.key.session, q.track.ns) in s.peers.announces
    ensures q in s.peers.pubStreams ==> (q.key.session, q.track.ns) in s.peers.announced
  {
    hide Run;
    var steps :| Run(INIT, steps, s);
    AnnouncedRun(INIT, steps, s);
  }
}
