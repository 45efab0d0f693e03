/** Closing a session: HandleClose leaves the streams it finds subscriptions on, one by one, while a
    handler of the session may still be serving a request. */
module Closing {
  import opened Varint
  import opened Reader
  import opened Relay
  import opened Routing
  import opened Membership

  /** HandleClose can be followed to its end: only subscriptions it has yet to visit keep the session
      on a stream, unless the stream came by it half served. */
  ghost predicate StillToVisit(s: World, session: Session, n: nat) {
    && session in s.handlers.closing
    && exists k :: k in s.handlers.closing[session] && k in s.relay.subscribed && s.relay.subscribed[k] == n
  }

  lemma VisitStep(s: World, step: Step, session: Session, n: nat)
    requires Chained(s) && Enabled(s, step) && step != List(session, n)
    requires Member(n, session) in s.relay.members ==> StillToVisit(s, session, n)
    ensures Member(n, session) in Apply(s, step).relay.members ==> StillToVisit(Apply(s, step), session, n)
  {
    hide Apply, Enabled, Chained, Half;
    var s' := Apply(s, step);
    NewMembers(s, step);
    if Member(n, session) in s'.relay.members {
      var k :| k in s.handlers.closing[session] && k in s.relay.subscribed && s.relay.subscribed[k] == n;
      SubscribedKept(s, step, k);
      Visited(s, step, session, k);
    }
  }

  /** A subscription is off the list of a running HandleClose only when its stream was left. */
  lemma Visited(s: World, step: Step, session: Session, k: Key)
    requires Enabled(s, step) && session in s.handlers.closing && k in s.handlers.closing[session]
    requires k in s.relay.subscribed && Member(s.relay.subscribed[k], session) in Apply(s, step).relay.members
    ensures session in Apply(s, step).handlers.closing && k in Apply(s, step).handlers.closing[session]
  {
    if step.CloseBegin? || step.CloseVisit? || step.CloseEnd? {
      hide Unlocked;
    } else {
      hide Apply, Enabled;
      FrameClosing(s, step);
    }
  }

  lemma FrameClosing(s: World, step: Step)
    requires Enabled(s, step) && !step.CloseBegin? && !step.CloseVisit? && !step.CloseEnd?
    ensures Apply(s, step).handlers.closing == s.handlers.closing
  {
    hide StreamId, Unlocked, Finds, Matches;
  }

  lemma {:induction false} StaysOff(s: World, steps: seq<Step>, s': World, session: Session, n: nat)
    requires Member(n, session) !in s.relay.members && Run(s, steps, s') && List(session, n) !in steps
    ensures Member(n, session) !in s'.relay.members
    decreases |steps|
  {
    hide Apply, Enabled, Half;
    if steps != [] {
      NewMembers(s, steps[0]);
      StaysOff(Apply(s, steps[0]), steps[1..], s', session, n);
    }
  }

  lemma {:induction false} OffOnceClosed(s: World, steps: seq<Step>, s': World, session: Session, n: nat)
    requires Chained(s) && (Member(n, session) in s.relay.members ==> StillToVisit(s, session, n))
    requires Run(s, steps, s') && List(session, n) !in steps && CloseEnd(session) in steps
    ensures Member(n, session) !in s'.relay.members
    decreases |steps|
  {
    hide Apply, Chained;
    var next := Apply(s, steps[0]);
    VisitStep(s, steps[0], session, n);
    ChainedStep(s, steps[0]);
    if steps[0] == CloseEnd(session) {
      NewMembers(s, steps[0]);
      StaysOff(next, steps[1..], s', session, n);
    } else {
      hide Enabled, StillToVisit;
      OffOnceClosed(next, steps[1..], s', session, n);
    }
  }

  /** The close comes between AddSubscriber and AddStream and finds no other subscription there. */
  ghost predicate Overlooked(s: World, session: Session, n: nat) {
    Half(s, session, n) && !Holds(s.relay, session, n)
  }

  /** Over every run: a session that a stream lists after its close was half served on that stream
      when the close began, or was listed there by a handler since then. */
  lemma ListedOnlyIfLate(s: World, session: Session, steps: seq<Step>, s': World, n: nat)
    requires Reachable(s) && Enabled(s, CloseBegin(session))
    requires Run(Apply(s, CloseBegin(session)), steps, s') && CloseEnd(session) in steps
    requires Member(n, session) in s'.relay.members
    ensures Overlooked(s, session, n) || List(session, n) in steps
  {
    hide Run, Reachable, Chained;
    Invariants(s);
    var m := Apply(s, CloseBegin(session));
    ChainedStep(s, CloseBegin(session));
    if !Overlooked(s, session, n) && List(session, n) !in steps {
      if Member(n, session) in m.relay.members {
        assert Joined(s, session, n);
        var k :| k in s.relay.subscribed && k.session == session && s.relay.subscribed[k] == n;
        assert k in m.handlers.closing[session];
      }
      OffOnceClosed(m, steps, s', session, n);
    }
  }

  /** Hence a close is clean when no request of the session is being served and none is later. */
  lemma CleanClose(s: World, session: Session, steps: seq<Step>, s': World)
    requires Reachable(s) && Enabled(s, CloseBegin(session)) && session !in s.handlers.serving
    requires Run(Apply(s, CloseBegin(session)), steps, s') && CloseEnd(session) in steps
    requires forall n :: List(session, n) !in steps
    ensures session !in (set m | m in s'.relay.members :: m.session)
  {
    hide Run, Reachable, Apply, Enabled;
    forall m | m in s'.relay.members ensures m.session != session {
      if m.session == session {
        ListedOnlyIfLate(s, session, steps, s', m.stream);
      }
    }
  }

  // ----- and when it is not

  /** The publisher session has a subscription ID to spare. */
  ghost predicate Free(r: R.State, p: Session) {
    exists u: u62 :: Key(p, u) !in r.incoming
  }

  /** The handler can still get to AddSubscriber: it has its stream, or can open or share one. */
  ghost predicate CanJoin(r: R.State, stage: Stage) {
    match stage
    case Looking(q, p) => Free(r, p) || (!Unshared(q.track.name) && exists k :: Matches(r, p, StreamId(q.track), k))
    case Opening(_, p, _) => Free(r, p)
    case Joining(_, _, _) => true
    case Filing(_, _, _) => false
  }

  ghost predicate Joins(s: World, session: Session) {
    session in s.handlers.serving && CanJoin(s.relay, s.handlers.serving[session])
  }

  /** A request of the session is being served, unless its handler can get no stream any more or the
      session already has a subscription on the stream that the handler has just made list it. */
  ghost predicate UnderWay(s: World, session: Session) {
    Joins(s, session) || exists n :: Overlooked(s, session, n)
  }

  /** The session takes up no further request in these steps. */
  ghost predicate NoPickUp(steps: seq<Step>, session: Session) {
    forall x :: x in steps && x.PickUp? ==> x.q.key.session != session
  }

  /** This schedule of the close ends with the session on the stream. */
  ghost predicate Leaves(s: World, session: Session, steps: seq<Step>, s': World, n: nat)
    requires Enabled(s, CloseBegin(session))
  {
    && Run(Apply(s, CloseBegin(session)), steps, s')
    && CloseEnd(session) in steps && session in s'.handlers.closed && Member(n, session) in s'.relay.members
  }

  ghost predicate CanLinger(s: World, session: Session)
    requires Enabled(s, CloseBegin(session))
  {
    exists steps, s', n :: Leaves(s, session, steps, s', n) && NoPickUp(steps, session)
  }

  /** With no ID to spare, nothing new to share turns up. */
  lemma NothingNew(s: World, step: Step, p: Session, x: Name, k: Key)
    requires Chained(s) && Enabled(s, step) && !Free(s.relay, p) && Matches(Apply(s, step).relay, p, x, k)
    ensures Matches(s.relay, p, x, k)
  {
    if step.Open? {
      hide StreamId, Requested, Carried, Reached;
    } else {
      hide Apply, Enabled, Chained;
      FrameTables(s, step);
    }
  }

  lemma NoneSpared(s: World, step: Step, p: Session)
    requires Enabled(s, step) && !Free(s.relay, p)
    ensures !Free(Apply(s, step).relay, p)
  {
    if !step.Open? {
      hide Apply, Enabled;
      FrameTables(s, step);
    }
  }

  /** Only a handler's own steps move it on. */
  lemma OwnSteps(s: World, step: Step, session: Session)
    requires Enabled(s, step) && !(step.PickUp? && step.q.key.session == session)
    requires (step.Lookup? || step.Open? || step.List? || step.File?) ==> step.session != session
    ensures session in Apply(s, step).handlers.serving <==> session in s.handlers.serving
    ensures session in s.handlers.serving ==> Apply(s, step).handlers.serving[session] == s.handlers.serving[session]
  {
    hide StreamId, Unlocked, Finds, Matches;
  }

  lemma OwnCannotJoin(s: World, step: Step, session: Session)
    requires Enabled(s, step) && !Joins(s, session)
    requires (step.Lookup? || step.Open? || step.List? || step.File?) && step.session == session
    ensures !step.List? && !Joins(Apply(s, step), session)
  {
    hide StreamId, Unshared;
  }

  lemma CannotJoinStep(s: World, step: Step, session: Session)
    requires Chained(s) && Enabled(s, step) && !Joins(s, session)
    requires !(step.PickUp? && step.q.key.session == session)
    ensures !(step.List? && step.session == session) && !Joins(Apply(s, step), session)
  {
    hide Apply, Enabled, Chained, StreamId, Unshared, Matches, Free;
    if (step.Lookup? || step.Open? || step.List? || step.File?) && step.session == session {
      OwnCannotJoin(s, step, session);
    } else {
      OwnSteps(s, step, session);
      if session in s.handlers.serving {
        var stage, r' := s.handlers.serving[session], Apply(s, step).relay;
        if stage.Looking? || stage.Opening? {
          NoneSpared(s, step, stage.publisher);
        }
        if stage.Looking? {
          var x := StreamId(stage.q.track);
          forall k | Matches(r', stage.publisher, x, k) ensures Matches(s.relay, stage.publisher, x, k) {
            NothingNew(s, step, stage.publisher, x, k);
          }
        }
      }
    }
  }

  lemma {:induction false} NeverListed(s: World, steps: seq<Step>, s': World, session: Session)
    requires Chained(s) && !Joins(s, session) && Run(s, steps, s') && NoPickUp(steps, session)
    ensures forall n :: List(session, n) !in steps
    decreases |steps|
  {
    hide Chained, Joins, Apply, Enabled;
    if steps != [] {
      ChainedStep(s, steps[0]);
      CannotJoinStep(s, steps[0], session);
      assert forall x :: x in steps[1..] ==> x in steps;
      NeverListed(Apply(s, steps[0]), steps[1..], s', session);
    }
  }

  /** The session's handler has its stream, and HandleClose will not find the subscription. */
  ghost predicate InHand(s: World, session: Session, n: nat) {
    && session in s.handlers.serving
    && var stage := s.handlers.serving[session];
    || (stage.Joining? && stage.stream == n)
    || (stage.Filing? && stage.stream == n && !Holds(s.relay, session, n))
  }

  /** The session's handlers get no further stream in these steps. */
  ghost predicate Settles(steps: seq<Step>, session: Session) {
    forall x :: x in steps && (x.Lookup? || x.Open?) ==> x.session != session
  }

  ghost predicate CanLingerOn(s: World, session: Session, n: nat)
    requires Enabled(s, CloseBegin(session))
  {
    exists steps, s' :: Leaves(s, session, steps, s', n) && Settles(steps, session)
  }

  lemma JoiningKept(s: World, step: Step, session: Session)
    requires Enabled(s, step) && ((step.Lookup? || step.Open?) ==> step.session != session)
    requires session in Apply(s, step).handlers.serving && Apply(s, step).handlers.serving[session].Joining?
    ensures session in s.handlers.serving && s.handlers.serving[session] == Apply(s, step).handlers.serving[session]
  {
    hide StreamId, Unlocked, Finds, Matches;
  }

  lemma {:induction false} ListNeedsStream(s: World, steps: seq<Step>, s': World, session: Session, n: nat)
    requires Run(s, steps, s') && Settles(steps, session) && List(session, n) in steps
    ensures session in s.handlers.serving && s.handlers.serving[session].Joining? && s.handlers.serving[session].stream == n
    decreases |steps|
  {
    hide Apply;
    if steps[0] != List(session, n) {
      hide Enabled;
      assert forall x :: x in steps[1..] ==> x in steps;
      ListNeedsStream(Apply(s, steps[0]), steps[1..], s', session, n);
      JoiningKept(s, steps[0], session);
    }
  }

  /** Only goroutines and a close are at work. */
  ghost predicate Winding(steps: seq<Step>) {
    forall x :: x in steps ==> x.Forward? || x.Miss? || x.CloseVisit? || x.CloseEnd? || x.List?
  }

  /** Every goroutine can always get its lookup over with. */
  lemma {:induction false} Drain(s: World) returns (steps: seq<Step>, s': World)
    ensures Run(s, steps, s') && Winding(steps) && s'.relay == s.relay && s'.handlers == s.handlers
    ensures s'.data.forwarding == {}
    decreases |s.data.forwarding|
  {
    hide Finds, Uses;
    if s.data.forwarding == {} {
      steps, s' := [], s;
    } else {
      var f :| f in s.data.forwarding;
      var step := Miss(f);
      if k :| Finds(s, f, k) {
        step := Forward(f, k, false);
      }
      var next := Apply(s, step);
      var more, end := Drain(next);
      steps, s' := [step] + more, end;
      assert steps[1..] == more;
    }
  }

  /** HandleClose visits what it has to, and takes the session off streams it has subscriptions on. */
  lemma {:induction false} VisitAll(s: World, session: Session) returns (steps: seq<Step>, s': World)
    requires session in s.handlers.closing && s.data.forwarding == {}
    requires forall k :: k in s.handlers.closing[session] ==> k in s.relay.subscribed && k.session == session
    ensures Run(s, steps, s') && Winding(steps) && s'.data == s.data
    ensures s'.handlers == s.handlers.(closing := s.handlers.closing[session := {}])
    ensures s'.relay == s.relay.(members := s'.relay.members)
    ensures forall m :: m in s.relay.members && !Holds(s.relay, m.session, m.stream) ==> m in s'.relay.members
    decreases |s.handlers.closing[session]|
  {
    if s.handlers.closing[session] == {} {
      steps, s' := [], s;
      assert s.handlers.closing[session := {}] == s.handlers.closing;
    } else {
      var k :| k in s.handlers.closing[session];
      var next := Apply(s, CloseVisit(k));
      var more, end := VisitAll(next, session);
      steps, s' := [CloseVisit(k)] + more, end;
      assert steps[1..] == more;
      assert next.handlers.closing[session := {}] == s.handlers.closing[session := {}];
    }
  }

  /** The close runs to its end and leaves what it did not find. */
  lemma CloseRuns(s: World, session: Session) returns (steps: seq<Step>, s': World)
    requires session in s.handlers.closing
    requires forall k :: k in s.handlers.closing[session] ==> k in s.relay.subscribed && k.session == session
    ensures Run(s, steps, s') && Winding(steps) && CloseEnd(session) in steps && s'.data.forwarding == {}
    ensures s'.handlers.serving == s.handlers.serving && session in s'.handlers.closed
    ensures s'.relay == s.relay.(members := s'.relay.members)
    ensures forall m :: m in s.relay.members && !Holds(s.relay, m.session, m.stream) ==> m in s'.relay.members
  {
    hide Run, Uses, Holds;
    var some, m := Drain(s);
    var more, m' := VisitAll(m, session);
    RunThen(s, some, m, more, m');
    steps, s' := some + more + [CloseEnd(session)], Apply(m', CloseEnd(session));
    assert Run(m', [CloseEnd(session)], s') by {
      RunOne(m', CloseEnd(session));
    }
    RunThen(s, some + more, m', [CloseEnd(session)], s');
  }

  lemma RunOne(s: World, step: Step)
    requires Enabled(s, step)
    ensures Run(s, [step], Apply(s, step))
  {
    hide Apply, Enabled;
    assert Run(Apply(s, step), [], Apply(s, step));
  }

  lemma LingersIfInHand(s: World, session: Session, n: nat) returns (steps: seq<Step>, s': World)
    requires Reachable(s) && Enabled(s, CloseBegin(session)) && InHand(s, session, n)
    ensures Run(Apply(s, CloseBegin(session)), steps, s') && Winding(steps)
    ensures CloseEnd(session) in steps && session in s'.handlers.closed && Member(n, session) in s'.relay.members
  {
    hide Run, Reachable, Chained, Holds;
    Invariants(s);
    var m := Apply(s, CloseBegin(session));
    steps, s' := CloseRuns(m, session);
    if s.handlers.serving[session].Joining? {
      var last := List(session, n);
      RunOne(s', last);
      RunThen(m, steps, s', [last], Apply(s', last));
      steps, s' := steps + [last], Apply(s', last);
    } else {
      assert Half(s, session, n);
    }
  }

  /** A handler that can get to AddSubscriber does so when nothing else happens. */
  lemma GetsListed(s: World, session: Session) returns (steps: seq<Step>, s': World, n: nat)
    requires Joins(s, session) && s.data.forwarding == {}
    ensures Run(s, steps, s') && NoPickUp(steps, session)
    ensures s'.handlers.closed == s.handlers.closed && Member(n, session) in s'.relay.members
    decreases match s.handlers.serving[session] case Looking(_, _) => 2 case Opening(_, _, _) => 1 case _ => 0
  {
    hide Run, StreamId, Unshared;
    match s.handlers.serving[session] {
      case Joining(q, stream, shared) =>
        n := stream;
        steps, s' := [List(session, n)], Apply(s, List(session, n));
        RunOne(s, List(session, n));
      case Opening(q, p, seen) =>
        var u: u62 :| Key(p, u) !in s.relay.incoming;
        steps, s', n := GetsListed(Apply(s, Open(session, u)), session);
        Prepend(s, Open(session, u), steps, s');
        steps := [Open(session, u)] + steps;
      case Looking(q, p) =>
        var found := None;
        if !Unshared(q.track.name) && exists k :: Matches(s.relay, p, StreamId(q.track), k) {
          var k :| Matches(s.relay, p, StreamId(q.track), k);
          found := Some(k);
        }
        steps, s', n := GetsListed(Apply(s, Lookup(session, found)), session);
        Prepend(s, Lookup(session, found), steps, s');
        steps := [Lookup(session, found)] + steps;
      case Filing(_, _, _) =>
        assert false;
    }
  }

  lemma LingersIfJoins(s: World, session: Session) returns (steps: seq<Step>, s': World, n: nat)
    requires Enabled(s, CloseBegin(session)) && Joins(s, session)
    ensures Leaves(s, session, steps, s', n) && NoPickUp(steps, session)
  {
    hide Run, StreamId, Unshared, Matches;
    var m := Apply(s, CloseBegin(session));
    var close, m' := CloseRuns(m, session);
    assert Joins(m', session) by {
      SameChances(s.relay, m'.relay, s.handlers.serving[session]);
    }
    var more;
    more, s', n := GetsListed(m', session);
    RunThen(m, close, m', more, s');
    steps := close + more;
  }

  lemma SameChances(r: R.State, r': R.State, stage: Stage)
    requires CanJoin(r, stage) && r' == r.(members := r'.members)
    ensures CanJoin(r', stage)
  {
    hide StreamId, Unshared;
    if k :| stage.Looking? && Matches(r, stage.publisher, StreamId(stage.q.track), k) {
      assert Matches(r', stage.publisher, StreamId(stage.q.track), k);
    }
  }

  /** In every reachable state: a close that begins now can leave its session on some stream, without
      the session taking up a further request, exactly when a request of the session is under way. */
  lemma CloseMissesIfUnderWay(s: World, session: Session)
    requires Reachable(s) && Enabled(s, CloseBegin(session))
    ensures CanLinger(s, session) <==> UnderWay(s, session)
  {
    hide Run, Reachable, Enabled, Joins;
    if Joins(s, session) {
      var steps, s', n := LingersIfJoins(s, session);
    } else if n :| Overlooked(s, session, n) {
      var steps, s' := LingersIfInHand(s, session, n);
      assert Leaves(s, session, steps, s', n);
      assert NoPickUp(steps, session);
    }
    if CanLinger(s, session) {
      var steps, s', n :| Leaves(s, session, steps, s', n) && NoPickUp(steps, session);
      ListedOnlyIfLate(s, session, steps, s', n);
      if !Joins(s, session) && !Overlooked(s, session, n) {
        ClosesJoinless(s, session);
        NeverListed(Apply(s, CloseBegin(session)), steps, s', session);
        assert false;
      }
    }
  }

  lemma ClosesJoinless(s: World, session: Session)
    requires Reachable(s) && Enabled(s, CloseBegin(session)) && !Joins(s, session)
    ensures Chained(Apply(s, CloseBegin(session))) && !Joins(Apply(s, CloseBegin(session)), session)
  {
    hide Reachable, Chained, CanJoin;
    Invariants(s);
    ChainedStep(s, CloseBegin(session));
  }

  /** For one stream, and as long as the session's handler gets no further stream: exactly when the
      handler has that stream in hand and the session has no subscription filed on it (or is not even
      listed there yet). */
  lemma CloseMissesIfInHand(s: World, session: Session, n: nat)
    requires Reachable(s) && Enabled(s, CloseBegin(session))
    ensures CanLingerOn(s, session, n) <==> InHand(s, session, n)
  {
    hide Run, Reachable, Enabled;
    if InHand(s, session, n) {
      var steps, s' := LingersIfInHand(s, session, n);
      assert Leaves(s, session, steps, s', n) && Settles(steps, session);
    }
    if CanLingerOn(s, session, n) {
      var steps, s' :| Leaves(s, session, steps, s', n) && Settles(steps, session);
      ListedOnlyIfLate(s, session, steps, s', n);
      if List(session, n) in steps {
        ListNeedsStream(Apply(s, CloseBegin(session)), steps, s', session, n);
      }
    }
  }

  /** For every track: a run that ends with a closed session on a stream's list. */
  lemma ClosedButListed(t: Track) returns (steps: seq<Step>, s: World)
    ensures Run(INIT, steps, s) && SUB in s.handlers.closed && Member(0, SUB) in s.relay.members
  {
    hide Run, Uses;
    var m;
    steps, m := StreamAtHand(t);
    assert Reachable(m);
    var close, closing := Then(INIT, steps, m, CloseBegin(SUB), iset{t});
    var more;
    more, s := LingersIfInHand(m, SUB, 0);
    RunThen(INIT, close, closing, more, s);
    steps := close + more;
  }
}
