/** Live fan-out of one upstream stream, as a transition system with one step per lock region:
    ForwardStream and its WaitGroup barrier, the reader that appends to the shared log, and one
    ProcessMOQTStream goroutine per subscriber that drains it through Pipe. */
module FanOut {
  import opened Varint
  import opened Streams
  import opened ObjectLog

  datatype Id = Id(name: string)

  datatype ExitReason = Dropped | WriteFailed | AtEof

  datatype ConsumerPc =
    | Started                     // spawned, WgDone still owed
    | HeaderSent                  // header write issued, WgDone still owed
    | Piping                      // about to call Pipe
    | Waiting                     // in ObjectCond.Wait
    | Notified                    // woken, not yet holding the lock
    | Writing(data: seq<byte>)    // lock released, data not yet written
    | Checking                    // about to read IsEOF without the lock
    | Exited(reason: ExitReason)

  /** One subscriber's goroutine. broken: a write to its stream has failed. dones: how often it
      called WgDone. late: an object was logged between its last snapshot and its look at IsEOF. */
  datatype Consumer = Consumer(pc: ConsumerPc, subId: u62, cursor: nat, out: seq<byte>,
                               broken: bool, dones: nat, late: bool)
  {
    predicate Pending() {
      pc == Started || pc == HeaderSent
    }
  }

  datatype ReaderPc = Idle | Spawning(todo: set<Id>) | AtBarrier | Reading | Finished | Aborted

  datatype State = State(
    header: Header,
    body: seq<byte>,                 // everything the upstream will ever send after its header
    unread: seq<byte>,
    subscribers: set<Id>,
    waitGroup: int,
    log: seq<Object>,
    eof: bool,
    reader: ReaderPc,
    consumers: map<Id, Consumer>)
  {
    /** ForwardStream holds the read lock on the subscriber set. */
    predicate Forwarding() {
      reader.Spawning? || reader == AtBarrier
    }
  }

  datatype Step =
    | Join(id: Id)
    | Leave(id: Id)
    | StartForward
    | Spawn(id: Id)
    | EnterBarrier
    | PassBarrier
    | Drop(id: Id)
    | SendHeader(id: Id, subId: u62, sent: nat)
    | Done(id: Id)
    | EnterWait(id: Id)
    | Take(id: Id)
    | Write(id: Id, sent: nat)
    | Check(id: Id)
    | ReadObject
    | CloseLog
    | Abort

  function Init(header: Header, body: seq<byte>): State {
    State(header, body, body, {}, 0, [], false, Idle, map[])
  }

  predicate At(s: State, id: Id, pc: ConsumerPc) {
    id in s.consumers && s.consumers[id].pc == pc
  }

  predicate Enabled(s: State, step: Step) {
    match step
    case Join(_) => !s.Forwarding()
    case Leave(_) => !s.Forwarding()
    case StartForward => s.reader == Idle
    case Spawn(id) => s.reader.Spawning? && id in s.reader.todo
    case EnterBarrier => s.reader == Spawning({})
    case PassBarrier => s.reader == AtBarrier && s.waitGroup == 0
    case Drop(id) => At(s, id, Started)
    case SendHeader(id, subId, sent) => At(s, id, Started) && sent <= |HeaderFor(s.header, subId)|
    case Done(id) => At(s, id, HeaderSent)
    case EnterWait(id) => At(s, id, Piping)
    case Take(id) => At(s, id, Notified) && s.consumers[id].cursor <= |s.log|
    case Write(id, sent) =>
      && id in s.consumers && s.consumers[id].pc.Writing?
      && sent <= |s.consumers[id].pc.data| && (s.consumers[id].broken ==> sent == 0)
    case Check(id) => At(s, id, Checking)
    case ReadObject => s.reader == Reading && ParseItem(s.header.Kind(), s.unread).Ok?
    case CloseLog => s.reader == Reading && ParseItem(s.header.Kind(), s.unread).Err?
    case Abort => s.reader == Reading
  }

  function HeaderFor(h: Header, subId: u62): seq<byte> {
    EncodeHeader(h.(subId := subId))
  }

  function Put(s: State, id: Id, c: Consumer): State {
    s.(consumers := s.consumers[id := c])
  }

  /** Broadcast wakes every goroutine that is waiting. */
  function Wake(c: Consumer): Consumer {
    if c.pc == Waiting then c.(pc := Notified) else c
  }

  function WakeAndNote(c: Consumer): Consumer {
    if c.pc.Writing? || c.pc == Checking then c.(late := true) else Wake(c)
  }

  /** A write of all the data succeeds; anything less fails and breaks the stream. The header
      write's error is ignored, a Pipe write's error ends the goroutine. An empty write to a broken
      stream fails as well. */
  function Apply(s: State, step: Step): State
    requires Enabled(s, step)
  {
    match step
    case Join(id) => s.(subscribers := s.subscribers + {id})
    case Leave(id) => s.(subscribers := s.subscribers - {id})
    case StartForward => s.(reader := Spawning(s.subscribers))
    case Spawn(id) =>
      Put(s, id, Consumer(Started, 0, 0, [], false, 0, false))
      .(waitGroup := s.waitGroup + 1, reader := Spawning(s.reader.todo - {id}))
    case EnterBarrier => s.(reader := AtBarrier)
    case PassBarrier => s.(reader := Reading)
    case Drop(id) =>
      var c := s.consumers[id];
      Put(s, id, c.(pc := Exited(Dropped), dones := c.dones + 1)).(waitGroup := s.waitGroup - 1)
    case SendHeader(id, subId, sent) =>
      var c := s.consumers[id];
      var h := HeaderFor(s.header, subId);
      Put(s, id, c.(pc := HeaderSent, subId := subId, out := h[..sent], broken := sent < |h|))
    case Done(id) =>
      var c := s.consumers[id];
      Put(s, id, c.(pc := Piping, dones := c.dones + 1)).(waitGroup := s.waitGroup - 1)
    case EnterWait(id) => Put(s, id, s.consumers[id].(pc := Waiting))
    case Take(id) =>
      var c := s.consumers[id];
      Put(s, id, c.(pc := Writing(Unsent(s.header.Kind(), s.log, c.cursor)), cursor := |s.log|, late := false))
    case Write(id, sent) =>
      var c := s.consumers[id];
      if sent == |c.pc.data| && !c.broken then Put(s, id, c.(pc := Checking, out := c.out + c.pc.data))
      else Put(s, id, c.(pc := Exited(WriteFailed), out := c.out + c.pc.data[..sent], broken := true))
    case Check(id) =>
      Put(s, id, s.consumers[id].(pc := if s.eof then Exited(AtEof) else Piping))
    case ReadObject =>
      var r := ParseItem(s.header.Kind(), s.unread);
      s.(log := s.log + [r.value], unread := r.rest,
         consumers := map id | id in s.consumers :: WakeAndNote(s.consumers[id]))
    case CloseLog =>
      s.(eof := true, reader := Finished, consumers := map id | id in s.consumers :: Wake(s.consumers[id]))
    case Abort => s.(reader := Aborted)
  }

  /** s' is reached from s by the given steps. */
  predicate Run(s: State, steps: seq<Step>, s': State)
    decreases |steps|
  {
    if steps == [] then s' == s
    else Enabled(s, steps[0]) && Run(Apply(s, steps[0]), steps[1..], s')
  }

  // ----- the WaitGroup barrier

  function PendingIds(cs: map<Id, Consumer>): set<Id> {
    set id | id in cs && cs[id].Pending()
  }

  /** Every spawned goroutine owes exactly one WgDone until its header is out or it dropped. */
  ghost predicate Counted(cs: map<Id, Consumer>, waitGroup: int) {
    && waitGroup == |PendingIds(cs)|
    && forall id :: id in cs ==> cs[id].dones == if cs[id].Pending() then 0 else 1
  }

  /** ForwardStream spawns one goroutine per subscriber, and the log stays empty until it is over. */
  ghost predicate Phased(s: State) {
    && (s.reader == Idle ==> s.consumers.Keys == {})
    && (s.reader.Spawning? ==> s.reader.todo !! s.consumers.Keys && s.subscribers == s.reader.todo + s.consumers.Keys)
    && (s.reader == AtBarrier ==> s.subscribers == s.consumers.Keys)
    && (s.reader == Idle || s.Forwarding() ==> s.log == [] && !s.eof)
    && (s.reader != Idle && !s.Forwarding() ==> forall id :: id in s.consumers ==> !s.consumers[id].Pending())
    && (s.eof <==> s.reader == Finished)
  }

  ghost predicate Barrier(s: State) {
    Counted(s.consumers, s.waitGroup) && Phased(s)
  }

  lemma PendingAfterPut(cs: map<Id, Consumer>, id: Id, c: Consumer)
    ensures PendingIds(cs[id := c]) == if c.Pending() then PendingIds(cs) + {id} else PendingIds(cs) - {id}
  {
  }

  /** One goroutine moves on; if it stops being pending it has just called WgDone. */
  lemma CountedPut(cs: map<Id, Consumer>, waitGroup: int, id: Id, c: Consumer)
    requires Counted(cs, waitGroup) && id in cs
    requires c.Pending() ==> cs[id].Pending()
    requires c.dones == if c.Pending() then 0 else 1
    ensures Counted(cs[id := c], if cs[id].Pending() && !c.Pending() then waitGroup - 1 else waitGroup)
  {
    PendingAfterPut(cs, id, c);
    if cs[id].Pending() {
      assert id in PendingIds(cs);
      if c.Pending() {
        assert PendingIds(cs) + {id} == PendingIds(cs);
      }
    } else {
      assert PendingIds(cs) - {id} == PendingIds(cs);
    }
  }

  lemma CountedNew(cs: map<Id, Consumer>, waitGroup: int, id: Id, c: Consumer)
    requires Counted(cs, waitGroup) && id !in cs && c.Pending() && c.dones == 0
    ensures Counted(cs[id := c], waitGroup + 1)
  {
    PendingAfterPut(cs, id, c);
    assert id !in PendingIds(cs);
  }

  lemma CountedWake(cs: map<Id, Consumer>, cs': map<Id, Consumer>, waitGroup: int)
    requires Counted(cs, waitGroup) && cs'.Keys == cs.Keys
    requires forall id :: id in cs ==> cs'[id].Pending() == cs[id].Pending() && cs'[id].dones == cs[id].dones
    ensures Counted(cs', waitGroup)
  {
    assert PendingIds(cs') == PendingIds(cs);
  }

  lemma NobodyPending(cs: map<Id, Consumer>)
    requires Counted(cs, 0)
    ensures forall id :: id in cs ==> !cs[id].Pending()
  {
    assert forall id :: id in cs && cs[id].Pending() ==> id in PendingIds(cs);
  }

  predicate ByConsumer(step: Step) {
    step.Drop? || step.SendHeader? || step.Done? || step.EnterWait? || step.Take? || step.Write? || step.Check?
  }

  /** A consumer's own step touches that consumer and, through WgDone, the counter. */
  lemma ConsumerStepLocal(s: State, step: Step)
    requires Enabled(s, step) && ByConsumer(step)
    ensures var s' := Apply(s, step); var id := step.id;
            id in s.consumers && id in s'.consumers && s' == Put(s, id, s'.consumers[id]).(waitGroup := s'.waitGroup)
  {
    hide EncodeHeader, ParseItem, Unsent;
  }

  lemma CountedStep(s: State, step: Step)
    requires Counted(s.consumers, s.waitGroup) && Phased(s) && Enabled(s, step)
    ensures Counted(Apply(s, step).consumers, Apply(s, step).waitGroup)
  {
    hide EncodeHeader, ParseItem, Unsent, Counted;
    var s' := Apply(s, step);
    if ByConsumer(step) {
      ConsumerStepLocal(s, step);
      OneDone(s, step);
      CountedPut(s.consumers, s.waitGroup, step.id, s'.consumers[step.id]);
    } else if step.Spawn? {
      CountedNew(s.consumers, s.waitGroup, step.id, s'.consumers[step.id]);
    } else if step == ReadObject || step == CloseLog {
      CountedWake(s.consumers, s'.consumers, s.waitGroup);
    }
  }

  /** A goroutine's step calls WgDone exactly when it ends its pending phase. */
  lemma OneDone(s: State, step: Step)
    requires Counted(s.consumers, s.waitGroup) && Enabled(s, step) && ByConsumer(step)
    ensures step.id in s.consumers && step.id in Apply(s, step).consumers
    ensures var s' := Apply(s, step); var c := s.consumers[step.id]; var c' := s'.consumers[step.id];
            && (c'.Pending() ==> c.Pending())
            && c'.dones == (if c'.Pending() then 0 else 1)
            && s'.waitGroup == (if c.Pending() && !c'.Pending() then s.waitGroup - 1 else s.waitGroup)
  {
    hide EncodeHeader, ParseItem, Unsent, PendingIds;
  }

  lemma PhasedStep(s: State, step: Step)
    requires Counted(s.consumers, s.waitGroup) && Phased(s) && Enabled(s, step)
    ensures Phased(Apply(s, step))
  {
    hide EncodeHeader, ParseItem, Unsent, Counted;
    var s' := Apply(s, step);
    if ByConsumer(step) {
      hide Phased;
      ConsumerStepLocal(s, step);
      OneDone(s, step);
      PhasedPut(s, step.id, s'.consumers[step.id], s'.waitGroup);
    } else if step.Spawn? {
      PhasedSpawn(s, step.id);
    } else if step == PassBarrier {
      NobodyPending(s.consumers);
    }
  }

  lemma PhasedSpawn(s: State, id: Id)
    requires Phased(s) && Enabled(s, Spawn(id))
    ensures Phased(Apply(s, Spawn(id)))
  {
    assert Apply(s, Spawn(id)).consumers.Keys == s.consumers.Keys + {id};
  }

  lemma PhasedPut(s: State, id: Id, c: Consumer, waitGroup: int)
    requires Phased(s) && id in s.consumers && (c.Pending() ==> s.consumers[id].Pending())
    ensures Phased(Put(s, id, c).(waitGroup := waitGroup))
  {
    assert s.consumers[id := c].Keys == s.consumers.Keys;
  }

  lemma {:induction false} BarrierRun(s: State, steps: seq<Step>, s': State)
    requires Barrier(s) && Run(s, steps, s')
    ensures Barrier(s')
    decreases |steps|
  {
    hide Counted, Phased, Apply, Enabled;
    if steps != [] {
      CountedStep(s, steps[0]);
      PhasedStep(s, steps[0]);
      BarrierRun(Apply(s, steps[0]), steps[1..], s');
    }
  }

  /** In every interleaving: the WaitGroup counter is the number of goroutines that still owe a
      WgDone, so it is never negative; each calls WgDone once, when its header write is issued or it
      drops out; once an object is logged, or the log is closed, all of them have; and the goroutines
      at the barrier are exactly the subscribers. */
  lemma HeaderBeforeObjects(header: Header, body: seq<byte>, steps: seq<Step>, s: State)
    requires Run(Init(header, body), steps, s)
    ensures s.waitGroup == |PendingIds(s.consumers)| >= 0
    ensures forall id :: id in s.consumers ==> s.consumers[id].dones == if s.consumers[id].Pending() then 0 else 1
    ensures s.log != [] || s.eof ==> forall id :: id in s.consumers ==> !s.consumers[id].Pending()
    ensures s.reader == AtBarrier ==> s.consumers.Keys == s.subscribers
  {
    hide Run, Apply, Enabled;
    assert Barrier(Init(header, body)) by {
      assert PendingIds(map[]) == {};
    }
    BarrierRun(Init(header, body), steps, s);
  }

  /** ForwardStream is called once per stream: its phase does not come back. */
  lemma {:induction false} ForwardingIsOver(s: State, steps: seq<Step>, s': State)
    requires s.reader != Idle && !s.Forwarding() && Run(s, steps, s')
    ensures !s'.Forwarding()
    decreases |steps|
  {
    hide ParseItem, HeaderFor, Unsent;
    if steps != [] {
      ForwardingIsOver(Apply(s, steps[0]), steps[1..], s');
    }
  }

  /** No subscriber joins or leaves from the moment ForwardStream starts until its wait is over. */
  lemma {:induction false} SubscribersFixedWhileForwarding(s: State, steps: seq<Step>, s': State)
    requires s.Forwarding() && Run(s, steps, s') && s'.Forwarding()
    ensures s'.subscribers == s.subscribers
    decreases |steps|
  {
    hide ParseItem, HeaderFor, Unsent;
    if steps != [] {
      var m := Apply(s, steps[0]);
      if !m.Forwarding() {
        ForwardingIsOver(m, steps[1..], s');
      }
      SubscribersFixedWhileForwarding(m, steps[1..], s');
    }
  }

  /** Not a subscriber, not served, and not about to be. */
  predicate Absent(s: State, id: Id) {
    id !in s.subscribers && id !in s.consumers && (s.reader.Spawning? ==> id !in s.reader.todo)
  }

  lemma AbsentStep(s: State, id: Id, step: Step)
    requires Absent(s, id) && Enabled(s, step) && step != Join(id)
    ensures Absent(Apply(s, step), id)
  {
    hide ParseItem, HeaderFor, Unsent;
    if ByConsumer(step) {
      ConsumerStepLocal(s, step);
      hide Apply, Enabled;
    }
  }

  lemma {:induction false} StaysAbsent(s: State, id: Id, steps: seq<Step>, s': State)
    requires Absent(s, id) && Run(s, steps, s') && Join(id) !in steps
    ensures Absent(s', id)
    decreases |steps|
  {
    hide Apply, Enabled, Absent;
    if steps != [] {
      AbsentStep(s, id, steps[0]);
      StaysAbsent(Apply(s, steps[0]), id, steps[1..], s');
    }
  }

  /** Over every run: one that leaves before ForwardStream starts gets no goroutine unless it joins
      again. */
  lemma LeftBeforeForward(header: Header, body: seq<byte>, before: seq<Step>, s: State, id: Id, steps: seq<Step>, s': State)
    requires Run(Init(header, body), before, s) && s.reader == Idle && Enabled(s, Leave(id))
    requires Run(Apply(s, Leave(id)), steps, s') && Join(id) !in steps
    ensures id !in s'.consumers
  {
    hide Run, Counted;
    assert Barrier(Init(header, body)) by {
      NobodyCounted();
    }
    BarrierRun(Init(header, body), before, s);
    StaysAbsent(Apply(s, Leave(id)), id, steps, s');
  }

  lemma NobodyCounted()
    ensures Counted(map[], 0)
  {
    assert PendingIds(map[]) == {};
  }

  // ----- output safety

  /** What a consumer that has seen the first k objects should have written. */
  function Expected(h: Header, log: seq<Object>, subId: u62, k: nat): seq<byte>
    requires k <= |log|
  {
    HeaderFor(h, subId) + EncodeItems(h.Kind(), log[..k])
  }

  ghost predicate GoodConsumer(h: Header, log: seq<Object>, eof: bool, c: Consumer) {
    && c.cursor <= |log|
    && (c.pc == Started || c.pc == Exited(Dropped) ==> c.out == [] && c.cursor == 0 && !c.broken)
    && (c.pc != Started && c.pc != Exited(Dropped) ==>
          if c.broken then c.out <= Expected(h, log, c.subId, c.cursor)
          else if c.pc.Writing? then c.out + c.pc.data == Expected(h, log, c.subId, c.cursor)
          else c.out == Expected(h, log, c.subId, c.cursor))
    && (c.pc == HeaderSent ==> c.cursor == 0)
    && (c.pc == Exited(WriteFailed) ==> c.broken)
    && (c.pc == Checking || c.pc == Exited(AtEof) ==> !c.broken)
    && (c.pc == Exited(AtEof) ==> eof)
    && (c.pc.Writing? || c.pc == Checking || c.pc == Exited(AtEof) ==> (c.late <==> c.cursor < |log|))
  }

  ghost predicate Safe(s: State) {
    && (forall id :: id in s.consumers ==> GoodConsumer(s.header, s.log, s.eof, s.consumers[id]))
    && ReadAll(s.header.Kind(), s.body) == s.log + ReadAll(s.header.Kind(), s.unread)
    && (s.eof ==> ReadAll(s.header.Kind(), s.unread) == [])
    && (s.eof ==> s.reader == Finished)
  }

  lemma ExpectedGrows(h: Header, log: seq<Object>, log': seq<Object>, subId: u62, k: nat)
    requires log <= log' && k <= |log|
    ensures Expected(h, log', subId, k) == Expected(h, log, subId, k)
  {
    hide EncodeHeader, EncodeItems;
    assert log'[..k] == log[..k];
  }

  lemma ExpectedExtends(h: Header, log: seq<Object>, subId: u62, k: nat)
    requires k <= |log|
    ensures Expected(h, log, subId, |log|) == Expected(h, log, subId, k) + Unsent(h.Kind(), log, k)
  {
    hide EncodeHeader, EncodeItems;
    assert log[..|log|] == log && log == log[..k] + log[k..];
    EncodeItemsAppend(h.Kind(), log[..k], log[k..]);
  }

  lemma GoodSendHeader(h: Header, log: seq<Object>, eof: bool, c: Consumer, subId: u62, sent: nat)
    requires GoodConsumer(h, log, eof, c) && c.pc == Started && sent <= |HeaderFor(h, subId)|
    ensures var bytes := HeaderFor(h, subId);
            GoodConsumer(h, log, eof, c.(pc := HeaderSent, subId := subId, out := bytes[..sent], broken := sent < |bytes|))
  {
    hide HeaderFor, Expected;
    NothingExpected(h, log, subId);
    assert HeaderFor(h, subId)[..|HeaderFor(h, subId)|] == HeaderFor(h, subId);
  }

  lemma GoodTake(h: Header, log: seq<Object>, eof: bool, c: Consumer)
    requires GoodConsumer(h, log, eof, c) && c.pc == Notified
    ensures GoodConsumer(h, log, eof, c.(pc := Writing(Unsent(h.Kind(), log, c.cursor)), cursor := |log|, late := false))
  {
    hide HeaderFor, Expected, Unsent;
    ExpectedExtends(h, log, c.subId, c.cursor);
  }

  lemma GoodWrite(h: Header, log: seq<Object>, eof: bool, c: Consumer, sent: nat)
    requires GoodConsumer(h, log, eof, c) && c.pc.Writing? && sent <= |c.pc.data|
    ensures !c.broken ==> GoodConsumer(h, log, eof, c.(pc := Checking, out := c.out + c.pc.data))
    ensures !c.broken || sent == 0 ==>
              GoodConsumer(h, log, eof, c.(pc := Exited(WriteFailed), out := c.out + c.pc.data[..sent], broken := true))
  {
    hide HeaderFor, Expected;
    if !c.broken {
      assert c.out + c.pc.data[..sent] <= c.out + c.pc.data;
    } else if sent == 0 {
      assert c.out + c.pc.data[..sent] == c.out;
    }
  }

  /** The goroutine whose step it is keeps its output right. */
  lemma GoodOwnStep(s: State, step: Step)
    requires Safe(s) && Enabled(s, step) && ByConsumer(step)
    ensures var cs := Apply(s, step).consumers; step.id in cs ==> GoodConsumer(s.header, s.log, s.eof, cs[step.id])
  {
    hide HeaderFor, Expected, ReadAll, Unsent, ParseItem, GoodConsumer;
    var c := s.consumers[step.id];
    assert GoodConsumer(s.header, s.log, s.eof, c);
    match step {
      case SendHeader(_, subId, sent) => GoodSendHeader(s.header, s.log, s.eof, c, subId, sent);
      case Take(_) => GoodTake(s.header, s.log, s.eof, c);
      case Write(_, sent) => GoodWrite(s.header, s.log, s.eof, c, sent);
      case _ => GoodMove(s, step, c);
    }
  }

  /** Steps that write nothing. */
  lemma GoodMove(s: State, step: Step, c: Consumer)
    requires Enabled(s, step) && (step.Drop? || step.Done? || step.EnterWait? || step.Check?)
    requires s.consumers[step.id] == c && GoodConsumer(s.header, s.log, s.eof, c)
    ensures GoodConsumer(s.header, s.log, s.eof, Apply(s, step).consumers[step.id])
  {
    hide HeaderFor, Expected, ParseItem;
  }

  lemma NothingExpected(h: Header, log: seq<Object>, subId: u62)
    ensures Expected(h, log, subId, 0) == HeaderFor(h, subId)
  {
    hide EncodeHeader;
    assert log[..0] == [];
  }

  /** Everyone else's output is untouched, and what is expected of them does not change. */
  lemma GoodFrame(s: State, s': State, c: Consumer, c': Consumer)
    requires GoodConsumer(s.header, s.log, s.eof, c) && s'.header == s.header && s.log <= s'.log
    requires s.eof ==> s'.eof && s'.log == s.log
    requires s'.log == s.log ==> c' == c || c' == Wake(c)
    requires s'.log != s.log ==> c' == WakeAndNote(c)
    ensures GoodConsumer(s'.header, s'.log, s'.eof, c')
  {
    hide EncodeHeader, EncodeItems, Expected;
    ExpectedGrows(s.header, s.log, s'.log, c.subId, c.cursor);
  }

  lemma LogStep(s: State, step: Step)
    requires Safe(s) && Phased(s) && Enabled(s, step)
    ensures var s' := Apply(s, step); var kind := s.header.Kind();
            && s'.header == s.header && s'.body == s.body && s.log <= s'.log
            && (s.eof ==> s'.eof && s'.log == s.log)
            && ReadAll(kind, s.body) == s'.log + ReadAll(kind, s'.unread)
            && (s'.eof ==> ReadAll(kind, s'.unread) == [])
            && (s'.eof ==> s'.reader == Finished)
  {
    hide EncodeHeader, EncodeItems, Unsent, ParseItem, GoodConsumer;
    if step == ReadObject {
      var r := ParseItem(s.header.Kind(), s.unread);
      var more := ReadAll(s.header.Kind(), r.rest);
      assert s.log + ([r.value] + more) == (s.log + [r.value]) + more;
    }
  }

  lemma SafeStep(s: State, step: Step)
    requires Safe(s) && Phased(s) && Enabled(s, step)
    ensures Safe(Apply(s, step))
  {
    hide EncodeHeader, EncodeItems, ReadAll, Unsent, ParseItem, GoodConsumer;
    var s' := Apply(s, step);
    LogStep(s, step);
    if ByConsumer(step) {
      ConsumerStepLocal(s, step);
      GoodOwnStep(s, step);
    }
    forall id | id in s'.consumers ensures GoodConsumer(s'.header, s'.log, s'.eof, s'.consumers[id]) {
      if step == Spawn(id) {
        GoodNew(s');
      } else if !(ByConsumer(step) && step.id == id) {
        GoodFrame(s, s', s.consumers[id], s'.consumers[id]);
      }
    }
  }

  lemma GoodNew(s: State)
    ensures GoodConsumer(s.header, s.log, s.eof, Consumer(Started, 0, 0, [], false, 0, false))
  {
  }

  lemma {:induction false} SafeRun(s: State, steps: seq<Step>, s': State)
    requires Safe(s) && Barrier(s) && Run(s, steps, s')
    ensures Safe(s') && Barrier(s')
    ensures s'.header == s.header && s'.body == s.body
    decreases |steps|
  {
    hide Safe, Counted, Phased, Apply, Enabled;
    if steps != [] {
      LogStep(s, steps[0]);
      SafeStep(s, steps[0]);
      CountedStep(s, steps[0]);
      PhasedStep(s, steps[0]);
      SafeRun(Apply(s, steps[0]), steps[1..], s');
    }
  }

  lemma Reachable(header: Header, body: seq<byte>, steps: seq<Step>, s: State)
    requires Run(Init(header, body), steps, s)
    ensures Safe(s) && Barrier(s) && s.header == header && s.body == body
  {
    hide Run, Apply, Enabled, ReadAll;
    assert Barrier(Init(header, body)) by {
      assert PendingIds(map[]) == {};
    }
    assert [] + ReadAll(header.Kind(), body) == ReadAll(header.Kind(), body);
    SafeRun(Init(header, body), steps, s);
  }

  /** In every interleaving, what a subscriber has been sent is a prefix of its header followed by
      the log in order; without a failed write and outside a write it is exactly the header and the
      first cursor objects. */
  lemma OutputIsPrefix(header: Header, body: seq<byte>, steps: seq<Step>, s: State, id: Id)
    requires Run(Init(header, body), steps, s) && id in s.consumers
    ensures var c := s.consumers[id];
            var all := EncodeStream(Stream(header.(subId := c.subId), s.log));
            && c.cursor <= |s.log|
            && c.out <= all
            && (!c.broken && c.pc != Started && c.pc != Exited(Dropped) && !c.pc.Writing? ==>
                  c.out == EncodeStream(Stream(header.(subId := c.subId), s.log[..c.cursor])))
  {
    hide Run, Apply, Enabled, EncodeHeader, EncodeItems, ReadAll;
    Reachable(header, body, steps, s);
    var c := s.consumers[id];
    assert GoodConsumer(s.header, s.log, s.eof, c);
    ExpectedExtends(s.header, s.log, c.subId, c.cursor);
    assert s.log[..|s.log|] == s.log;
    if !c.broken && c.pc.Writing? {
      assert c.out <= c.out + c.pc.data;
    }
  }

  /** In every interleaving, what a subscriber holds parses, once its header is there, to the first
      logged objects under its own subscription ID, and at most one more whose payload ends in zeros. */
  lemma OutputParses(header: Header, body: seq<byte>, steps: seq<Step>, s: State, id: Id)
    requires Run(Init(header, body), steps, s) && id in s.consumers
    ensures var c := s.consumers[id]; var r := ParseStream(c.out);
            r.Ok? ==> r.value.header == header.(subId := c.subId)
                      && exists k :: IsCut(header.Kind(), s.log, r.value.objects, k)
  {
    hide Run, EncodeStream, ParseStream, IsCut;
    var c := s.consumers[id];
    var st := Stream(header.(subId := c.subId), s.log);
    OutputIsPrefix(header, body, steps, s, id);
    assert c.out == Clip(EncodeStream(st), |c.out|);
    StreamCut(st, |c.out|);
    assert st.header.Kind() == header.Kind();
  }

  lemma SomethingUnsent(kind: Kind, log: seq<Object>, k: nat)
    requires k < |log|
    ensures Unsent(kind, log, k) != []
  {
    hide EncodeItem;
  }

  /** When a goroutine leaves its loop on IsEOF, the upstream is fully logged, and the subscriber
      holds a stream that parses to the first cursor upstream objects under its own subscription ID.
      These are all the upstream objects exactly when nothing was logged between its last locked
      snapshot and its unlocked look at IsEOF. */
  lemma CompleteUnlessLate(header: Header, body: seq<byte>, steps: seq<Step>, s: State, id: Id)
    requires Run(Init(header, body), steps, s) && At(s, id, Exited(AtEof))
    ensures var c := s.consumers[id]; var sent := ReadAll(header.Kind(), body);
            && s.log == sent && c.cursor <= |sent|
            && ParseStream(c.out) == Ok(Stream(header.(subId := c.subId), sent[..c.cursor]), [])
            && (ParseStream(c.out).value.objects == sent <==> !c.late)
            && (c.out == EncodeStream(Stream(header.(subId := c.subId), sent)) <==> !c.late)
  {
    hide Run, Apply, Enabled, EncodeHeader, EncodeItems, ReadAll, ParseStream, ReceivedAll, Unsent;
    Reachable(header, body, steps, s);
    var c := s.consumers[id];
    var sent := ReadAll(header.Kind(), body);
    assert GoodConsumer(s.header, s.log, s.eof, c);
    assert s.log + [] == s.log;
    ExpectedExtends(s.header, s.log, c.subId, c.cursor);
    if c.cursor < |s.log| {
      SomethingUnsent(header.Kind(), s.log, c.cursor);
    }
    assert s.log[..|s.log|] == s.log;
    StreamRoundTrip(Stream(header.(subId := c.subId), s.log[..c.cursor]));
    PrefixReceived(header.Kind(), body, c.cursor);
  }

  lemma PrefixReceived(kind: Kind, body: seq<byte>, k: nat)
    requires k <= |ReadAll(kind, body)|
    ensures ReceivedAll(kind, ReadAll(kind, body)[..k]) == ReadAll(kind, body)[..k]
  {
    hide ReadAll;
    ReadIsReceived(kind, body);
    var os := ReadAll(kind, body);
    assert forall i :: 0 <= i < |os| ==> Received(kind, os[i]) == ReceivedAll(kind, os)[i];
  }

  // ----- the two ways a subscriber misses objects

  lemma {:induction false} RunThen(s: State, steps: seq<Step>, m: State, more: seq<Step>, s': State)
    requires Run(s, steps, m) && Run(m, more, s')
    ensures Run(s, steps + more, s')
    decreases |steps|
  {
    hide Apply, Enabled;
    if steps == [] {
      assert steps + more == more;
    } else {
      assert (steps + more)[1..] == steps[1..] + more;
      RunThen(Apply(s, steps[0]), steps[1..], m, more, s');
    }
  }

  lemma Then(s: State, steps: seq<Step>, m: State, step: Step) returns (steps': seq<Step>, m': State)
    requires Run(s, steps, m) && Enabled(m, step)
    ensures Run(s, steps', m') && m' == Apply(m, step)
  {
    hide Apply, Enabled;
    steps', m' := steps + [step], Apply(m, step);
    assert Run(m, [step], m') by {
      assert Run(m', [], m');
    }
    RunThen(s, steps, m, [step], m');
  }

  function Fresh(subId: u62, h: Header): Consumer {
    Consumer(Piping, subId, 0, HeaderFor(h, subId), false, 1, false)
  }

  /** One subscriber, spawned, its goroutine not yet under way. */
  lemma AtTheBarrier(header: Header, body: seq<byte>, id: Id) returns (steps: seq<Step>, s: State)
    ensures Run(Init(header, body), steps, s)
    ensures s.header == header && s.unread == body && s.log == [] && !s.eof && s.reader == AtBarrier && s.waitGroup == 1
    ensures s.consumers == map[id := Consumer(Started, 0, 0, [], false, 0, false)]
  {
    hide HeaderFor, ParseItem, Unsent, Run;
    var s0 := Init(header, body);
    RunNothing(s0);
    steps, s := Then(s0, [], s0, Join(id));
    steps, s := Then(s0, steps, s, StartForward);
    steps, s := Then(s0, steps, s, Spawn(id));
    assert s.reader.todo == {};
    steps, s := Then(s0, steps, s, EnterBarrier);
  }

  /** One subscriber, past the barrier, about to call Pipe for the first time. */
  lemma PastBarrier(header: Header, body: seq<byte>, id: Id, subId: u62) returns (steps: seq<Step>, s: State)
    ensures Run(Init(header, body), steps, s)
    ensures s.header == header && s.unread == body && s.log == [] && !s.eof && s.reader == Reading
    ensures s.consumers == map[id := Fresh(subId, header)]
  {
    hide HeaderFor, ParseItem, Unsent, Run;
    var s0 := Init(header, body);
    var bytes := HeaderFor(header, subId);
    assert bytes[..|bytes|] == bytes;
    steps, s := AtTheBarrier(header, body, id);
    steps, s := Then(s0, steps, s, SendHeader(id, subId, |bytes|));
    steps, s := Then(s0, steps, s, Done(id));
    steps, s := Then(s0, steps, s, PassBarrier);
  }

  lemma RunNothing(s: State)
    ensures Run(s, [], s)
  {
  }

  /** The reader can log and close everything before a subscriber gets to wait. */
  lemma {:induction false} ReaderRunsAhead(s: State, id: Id) returns (steps: seq<Step>, s': State)
    requires s.reader == Reading && At(s, id, Piping)
    ensures Run(s, steps, s') && s'.eof && s'.reader == Finished && At(s', id, Piping)
    ensures s'.consumers[id] == s.consumers[id]
    decreases |s.unread|
  {
    hide ParseItem, Run;
    RunNothing(s);
    if ParseItem(s.header.Kind(), s.unread).Ok? {
      var one, m := Then(s, [], s, ReadObject);
      var rest, m' := ReaderRunsAhead(m, id);
      RunThen(s, one, m, rest, m');
      steps, s' := one + rest, m';
    } else {
      steps, s' := Then(s, [], s, CloseLog);
    }
  }

  /** A subscriber that waits in time is woken, at the latest by the close. */
  lemma {:induction false} ReaderFeeds(s: State, id: Id) returns (steps: seq<Step>, s': State)
    requires s.reader == Reading && (At(s, id, Waiting) || At(s, id, Notified))
    ensures Run(s, steps, s') && s'.eof && At(s', id, Notified) && s'.header == s.header
    ensures s'.consumers[id] == s.consumers[id].(pc := Notified)
    decreases |s.unread|
  {
    hide ParseItem, Run;
    RunNothing(s);
    if ParseItem(s.header.Kind(), s.unread).Ok? {
      var one, m := Then(s, [], s, ReadObject);
      var rest, m' := ReaderFeeds(m, id);
      RunThen(s, one, m, rest, m');
      steps, s' := one + rest, m';
    } else {
      steps, s' := Then(s, [], s, CloseLog);
    }
  }

  /** A goroutine that can still write gets back to waiting while the reader is at work: it finishes
      its write, sees no end, and calls Pipe again. */
  lemma BackToWaiting(s: State, id: Id) returns (steps: seq<Step>, s': State)
    requires s.reader == Reading && !s.eof && id in s.consumers && !s.consumers[id].broken
    requires !s.consumers[id].pc.Exited? && !s.consumers[id].Pending()
    ensures Run(s, steps, s') && s'.reader == Reading && s'.header == s.header
    ensures (At(s', id, Waiting) || At(s', id, Notified)) && !s'.consumers[id].broken
    ensures s'.consumers[id].subId == s.consumers[id].subId
  {
    hide ParseItem, Run, HeaderFor, Unsent;
    RunNothing(s);
    steps, s' := [], s;
    if s'.consumers[id].pc.Writing? {
      steps, s' := Then(s, steps, s', Write(id, |s'.consumers[id].pc.data|));
    }
    if At(s', id, Checking) {
      steps, s' := Then(s, steps, s', Check(id));
    }
    if At(s', id, Piping) {
      steps, s' := Then(s, steps, s', EnterWait(id));
    }
  }

  /** Complete delivery stays possible: from every reachable state in which the reader is at work, some
      continuation hands any goroutine that has neither ended nor failed to write all of the upstream,
      however many batches it has sent already. */
  lemma SubscriberCanStillGetAll(header: Header, body: seq<byte>, before: seq<Step>, s: State, id: Id)
    returns (steps: seq<Step>, s': State)
    requires Run(Init(header, body), before, s) && s.reader == Reading
    requires id in s.consumers && !s.consumers[id].pc.Exited? && !s.consumers[id].broken
    ensures Run(s, steps, s') && At(s', id, Exited(AtEof))
    ensures ParseStream(s'.consumers[id].out)
            == Ok(Stream(header.(subId := s.consumers[id].subId), ReadAll(header.Kind(), body)), [])
  {
    hide Run, HeaderFor, ParseItem, Unsent, ReadAll, ParseStream, EncodeStream, Counted, Safe;
    Reachable(header, body, before, s);
    steps, s' := BackToWaiting(s, id);
    var fed, m := ReaderFeeds(s', id);
    RunThen(s, steps, s', fed, m);
    RunThen(Init(header, body), before, s, steps + fed, m);
    OutputIsPrefix(header, body, before + (steps + fed), m, id);
    steps, s' := EndsComplete(s, steps + fed, m, id);
    RunThen(Init(header, body), before, s, steps, s');
    CompleteUnlessLate(header, body, before + steps, s', id);
    assert s'.log[..|s'.log|] == s'.log;
  }

  /** The last batch. */
  lemma EndsComplete(s: State, before: seq<Step>, m: State, id: Id) returns (steps: seq<Step>, s': State)
    requires Run(s, before, m) && m.eof && At(m, id, Notified) && m.consumers[id].cursor <= |m.log|
    requires !m.consumers[id].broken
    ensures Run(s, steps, s') && At(s', id, Exited(AtEof)) && !s'.consumers[id].late
    ensures s'.consumers[id].subId == m.consumers[id].subId && s'.consumers[id].cursor == |s'.log|
  {
    hide Run, HeaderFor, ParseItem, Unsent;
    steps, s' := Then(s, before, m, Take(id));
    steps, s' := Then(s, steps, s', Write(id, |s'.consumers[id].pc.data|));
    steps, s' := Then(s, steps, s', Check(id));
  }

  /** In particular from the start: for every upstream some schedule hands a subscriber all of it. */
  lemma SubscriberCanGetAll(header: Header, body: seq<byte>, id: Id, subId: u62) returns (steps: seq<Step>, s: State)
    ensures Run(Init(header, body), steps, s) && At(s, id, Exited(AtEof))
    ensures ParseStream(s.consumers[id].out) == Ok(Stream(header.(subId := subId), ReadAll(header.Kind(), body)), [])
  {
    hide Run, HeaderFor, ReadAll, ParseStream;
    var first, m := PastBarrier(header, body, id, subId);
    var more;
    more, s := SubscriberCanStillGetAll(header, body, first, m, id);
    RunThen(Init(header, body), first, m, more, s);
    steps := first + more;
  }

  /** The reader has stopped for good: at the end of its input, or on a read error, which leaves the
      log open. */
  predicate Stopped(s: State) {
    s.reader == Finished || s.reader == Aborted
  }

  /** Nobody broadcasts after the reader has stopped, so a subscriber that waits then waits forever. */
  lemma {:induction false} StuckOnceReaderStops(s: State, id: Id, more: seq<Step>, s': State)
    requires Stopped(s) && At(s, id, Waiting) && Run(s, more, s')
    ensures id in s'.consumers && s'.consumers[id] == s.consumers[id] && Stopped(s')
    decreases |more|
  {
    hide Apply, Enabled;
    if more != [] {
      StuckStep(s, id, more[0]);
      StuckOnceReaderStops(Apply(s, more[0]), id, more[1..], s');
    }
  }

  lemma StuckStep(s: State, id: Id, step: Step)
    requires Stopped(s) && At(s, id, Waiting) && Enabled(s, step)
    ensures Stopped(Apply(s, step)) && id in Apply(s, step).consumers && Apply(s, step).consumers[id] == s.consumers[id]
  {
    hide ParseItem, HeaderFor, Unsent;
  }

  /** After a read error no goroutine ends normally any more. */
  lemma {:induction false} NoEndAfterAbort(s: State, id: Id, more: seq<Step>, s': State)
    requires s.reader == Aborted && !s.eof && !At(s, id, Exited(AtEof)) && Run(s, more, s')
    ensures !At(s', id, Exited(AtEof)) && s'.log == s.log
    decreases |more|
  {
    hide ParseItem, HeaderFor, Unsent;
    if more != [] {
      NoEndAfterAbort(Apply(s, more[0]), id, more[1..], s');
    }
  }

  /** Delivery is not guaranteed: for every upstream there is a schedule that leaves a subscriber
      with nothing but its header, whatever happens afterwards. */
  lemma SubscriberCanHang(header: Header, body: seq<byte>, id: Id, subId: u62) returns (steps: seq<Step>, s: State)
    ensures Run(Init(header, body), steps, s) && s.eof && At(s, id, Waiting)
    ensures s.consumers[id].out == HeaderFor(header, subId)
    ensures forall more, s' :: Run(s, more, s') ==> id in s'.consumers && s'.consumers[id] == s.consumers[id]
  {
    hide Run, HeaderFor, ParseItem;
    var first, m := PastBarrier(header, body, id, subId);
    var ahead, m' := ReaderRunsAhead(m, id);
    RunThen(Init(header, body), first, m, ahead, m');
    steps, s := Then(Init(header, body), first + ahead, m', EnterWait(id));
    forall more, s' | Run(s, more, s')
      ensures id in s'.consumers && s'.consumers[id] == s.consumers[id]
    {
      StuckOnceReaderStops(s, id, more, s');
    }
  }

  /** Nor is a normal exit enough: an object logged after the last snapshot and before the look at
      IsEOF is never sent, although the goroutine ends as if the stream were complete: the log has
      both objects, the subscriber's stream parses to the first alone. */
  lemma LateObjectLost(header: Header, first: Object, second: Object, id: Id, subId: u62)
    returns (steps: seq<Step>, s: State)
    ensures var kind := header.Kind(); var body := EncodeItems(kind, [first, second]);
            && Run(Init(header, body), steps, s) && At(s, id, Exited(AtEof)) && s.consumers[id].late
            && s.log == [Received(kind, first), Received(kind, second)]
            && ParseStream(s.consumers[id].out) == Ok(Stream(header.(subId := subId), [Received(kind, first)]), [])
  {
    hide Run, HeaderFor, ParseStream, EncodeItems, EncodeStream, ReadAll, Received, Apply, Enabled;
    var kind := header.Kind();
    var body := EncodeItems(kind, [first, second]);
    steps, s := LateRun(header, first, second, id, subId);
    CompleteUnlessLate(header, body, steps, s, id);
    ItemsRoundTripExactly(kind, [first, second]);
    assert ReceivedAll(kind, [first, second]) == [Received(kind, first), Received(kind, second)];
    assert s.log[..1] == [Received(kind, first)];
  }

  lemma LateRun(header: Header, first: Object, second: Object, id: Id, subId: u62) returns (steps: seq<Step>, s: State)
    ensures Run(Init(header, EncodeItems(header.Kind(), [first, second])), steps, s) && At(s, id, Exited(AtEof))
    ensures s.consumers[id].late && s.consumers[id].cursor == 1 && s.consumers[id].subId == subId
  {
    hide Run, HeaderFor, ParseItem, EncodeItem, Unsent, Received;
    var kind := header.Kind();
    var body := EncodeItems(kind, [first, second]);
    var tail := EncodeItems(kind, [second]);
    assert [first, second][1..] == [second];
    ItemRoundTrip(kind, first, tail);
    EncodeOne(kind, second);
    ItemRoundTrip(kind, second, []);
    assert tail == EncodeItem(kind, second) + [];
    NothingParsed(kind);
    var s0 := Init(header, body);
    steps, s := PastBarrier(header, body, id, subId);
    steps, s := Then(s0, steps, s, EnterWait(id));
    steps, s := Then(s0, steps, s, ReadObject);
    steps, s := Then(s0, steps, s, Take(id));
    steps, s := Then(s0, steps, s, ReadObject);
    steps, s := Then(s0, steps, s, CloseLog);
    steps, s := Then(s0, steps, s, Write(id, |s.consumers[id].pc.data|));
    steps, s := Then(s0, steps, s, Check(id));
  }
}
