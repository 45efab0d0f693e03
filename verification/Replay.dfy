/** SendCachedObjects: a late subscriber gets the cache as one group stream per group ID. */
module Replay {
  import opened Varint
  import opened Streams
  import opened ObjectLog
  import opened Cache

  function Groups(cs: seq<Cached>): set<u62> {
    set c | c in cs :: c.groupId
  }

  /** The cached objects of one group, in cache order. */
  function InGroup(cs: seq<Cached>, g: u62): seq<Cached> {
    if cs == [] then []
    else
      var front := InGroup(cs[..|cs| - 1], g);
      if cs[|cs| - 1].groupId == g then front + [cs[|cs| - 1]] else front
  }

  function AsObject(c: Cached): Object {
    Object(c.groupId, c.id, c.payload)
  }

  function AsObjects(cs: seq<Cached>): seq<Object> {
    seq(|cs|, i requires 0 <= i < |cs| => AsObject(cs[i]))
  }

  /** The stream sent for one group: alias and send order zero. */
  function GroupReplay(cs: seq<Cached>, subId: u62, g: u62): Stream {
    Stream(GroupHeader(subId, 0, g, 0), AsObjects(InGroup(cs, g)))
  }

  ghost predicate Distinct(order: seq<u62>) {
    forall i, j :: 0 <= i < j < |order| ==> order[i] != order[j]
  }

  ghost function Elements(order: seq<u62>): set<u62> {
    set g | g in order
  }

  lemma GroupsAppend(cs: seq<Cached>, c: Cached)
    ensures Groups(cs + [c]) == Groups(cs) + {c.groupId}
    ensures forall g :: InGroup(cs + [c], g) == if g == c.groupId then InGroup(cs, g) + [c] else InGroup(cs, g)
  {
    assert (cs + [c])[..|cs|] == cs;
  }

  /** The grouping loop. */
  method Regroup(cs: seq<Cached>) returns (groups: map<u62, seq<Cached>>)
    ensures groups.Keys == Groups(cs)
    ensures forall g :: g in groups ==> groups[g] == InGroup(cs, g)
  {
    hide InGroup;
    groups := map[];
    assert cs[..0] == [];
    for i := 0 to |cs|
      invariant groups.Keys == Groups(cs[..i])
      invariant forall g :: g in groups ==> groups[g] == InGroup(cs[..i], g)
    {
      var c := cs[i];
      var had := if c.groupId in groups then groups[c.groupId] else [];
      assert cs[..i + 1] == cs[..i] + [c];
      if c.groupId !in groups {
        NoneInGroup(cs[..i], c.groupId);
      }
      GroupsAppend(cs[..i], c);
      groups := groups[c.groupId := had + [c]];
    }
    assert cs[..|cs|] == cs;
  }

  lemma {:induction false} NoneInGroup(cs: seq<Cached>, g: u62)
    requires g !in Groups(cs)
    ensures InGroup(cs, g) == []
  {
    if cs != [] {
      assert cs == cs[..|cs| - 1] + [cs[|cs| - 1]];
      NoneInGroup(cs[..|cs| - 1], g);
    }
  }

  /** The bytes that get through to one stream, written object by object; write errors are ignored. */
  method WriteGroup(subId: u62, g: u62, cs: seq<Cached>, room: nat) returns (data: seq<byte>)
    ensures data == Clip(EncodeStream(Stream(GroupHeader(subId, 0, g, 0), AsObjects(cs))), room)
  {
    hide EncodeHeader, EncodeObject, Clip;
    ghost var whole := EncodeHeader(GroupHeader(subId, 0, g, 0));
    data := Clip(EncodeHeader(GroupHeader(subId, 0, g, 0)), room);
    for i := 0 to |cs|
      invariant whole == EncodeStream(Stream(GroupHeader(subId, 0, g, 0), AsObjects(cs[..i])))
      invariant data == Clip(whole, room)
    {
      var o := Object(g, cs[i].id, cs[i].payload);
      SameEncoding(o, AsObject(cs[i]));
      assert AsObjects(cs[..i + 1]) == AsObjects(cs[..i]) + [AsObject(cs[i])];
      EncodeItemsAppend(Group, AsObjects(cs[..i]), [AsObject(cs[i])]);
      EncodeOne(Group, AsObject(cs[i]));
      ClipMore(whole, EncodeObject(o), room);
      data, whole := Clip(data + EncodeObject(o), room), whole + EncodeObject(o);
    }
    assert cs[..|cs|] == cs;
  }

  /** The streams are groups of the snapshot, in the given order, no group twice; the i-th stream
      takes room(i) bytes. */
  ghost predicate Sends(cs: seq<Cached>, subId: u62, order: seq<u62>, streams: seq<seq<byte>>, room: nat -> nat) {
    && Distinct(order) && |order| == |streams| && Elements(order) <= Groups(cs)
    && forall i :: 0 <= i < |streams| ==> streams[i] == Clip(EncodeStream(GroupReplay(cs, subId, order[i])), room(i))
  }

  /** No write failed. */
  ghost predicate Roomy(cs: seq<Cached>, subId: u62, order: seq<u62>, room: nat -> nat) {
    forall i :: 0 <= i < |order| ==> |EncodeStream(GroupReplay(cs, subId, order[i]))| <= room(i)
  }

  /** Opening a stream succeeds `opens` times and then fails; the groups are taken in whatever order
      the map yields them; writes to the i-th stream fail once it has taken room(i) bytes, and go
      unnoticed. */
  method SendCachedObjects(cs: seq<Cached>, subId: u62, opens: nat, room: nat -> nat)
    returns (streams: seq<seq<byte>>, ok: bool)
    ensures exists order :: Sends(cs, subId, order, streams, room) && (ok <==> Elements(order) == Groups(cs))
    ensures !ok ==> |streams| == opens
  {
    hide EncodeStream, Clip;
    ghost var order: seq<u62> := [];
    streams := [];
    var groups := Regroup(cs);
    var todo := groups.Keys;
    while todo != {}
      invariant todo <= Groups(cs) && Elements(order) == Groups(cs) - todo
      invariant Distinct(order) && |order| == |streams| <= opens
      invariant forall i :: 0 <= i < |streams| ==>
                  streams[i] == Clip(EncodeStream(GroupReplay(cs, subId, order[i])), room(i))
      decreases todo
    {
      if |streams| == opens {
        assert Sends(cs, subId, order, streams, room);
        return streams, false;
      }
      var g :| g in todo;
      var data := WriteGroup(subId, g, groups[g], room(|streams|));
      assert g !in Elements(order);
      assert Elements(order + [g]) == Elements(order) + {g};
      streams, order, todo := streams + [data], order + [g], todo - {g};
    }
    assert Sends(cs, subId, order, streams, room);
    ok := true;
  }

  // ----- what the subscriber rebuilds

  /** An object is known by its stream's group ID, its own ID and its payload. */
  function Restore(st: Stream): seq<Cached>
    requires st.header.GroupHeader?
  {
    seq(|st.objects|, i requires 0 <= i < |st.objects| => Cached(st.header.groupId, st.objects[i].id, st.objects[i].payload))
  }

  lemma {:induction false} InGroupOnly(cs: seq<Cached>, g: u62)
    ensures forall c :: c in InGroup(cs, g) ==> c.groupId == g
  {
    if cs != [] {
      InGroupOnly(cs[..|cs| - 1], g);
    }
  }

  /** Each stream parses, under the given subscription ID, to its group's objects in cache order. */
  lemma ReplayParses(cs: seq<Cached>, subId: u62, g: u62)
    ensures var r := ParseStream(EncodeStream(GroupReplay(cs, subId, g)));
            r.Ok? && r.value.header == GroupHeader(subId, 0, g, 0) && Restore(r.value) == InGroup(cs, g)
  {
    hide ParseStream, EncodeStream, InGroup;
    StreamRoundTrip(GroupReplay(cs, subId, g));
    InGroupOnly(cs, g);
  }

  /** A stream that broke parses, if its header got through, to the group's first objects in cache
      order, and at most one more whose payload ends in zeros. */
  lemma BrokenReplayParses(cs: seq<Cached>, subId: u62, g: u62, room: nat)
    ensures var r := ParseStream(Clip(EncodeStream(GroupReplay(cs, subId, g)), room));
            r.Ok? ==> r.value.header == GroupHeader(subId, 0, g, 0)
                      && exists k :: IsCut(Group, AsObjects(InGroup(cs, g)), r.value.objects, k)
  {
    hide ParseStream, EncodeStream, InGroup, Clip, AsObjects;
    StreamCut(GroupReplay(cs, subId, g), room);
  }

  ghost function Sent(cs: seq<Cached>, order: seq<u62>): multiset<Cached> {
    if order == [] then multiset{} else multiset(InGroup(cs, order[0])) + Sent(cs, order[1..])
  }

  lemma {:induction false} InGroupCount(cs: seq<Cached>, g: u62, c: Cached)
    ensures multiset(InGroup(cs, g))[c] == if c.groupId == g then multiset(cs)[c] else 0
  {
    if cs != [] {
      var front, last := cs[..|cs| - 1], cs[|cs| - 1];
      InGroupCount(front, g, c);
      assert cs == front + [last];
      assert multiset(cs) == multiset(front) + multiset{last};
    }
  }

  lemma {:induction false} SentCount(cs: seq<Cached>, order: seq<u62>, c: Cached)
    requires Distinct(order)
    ensures Sent(cs, order)[c] == if c.groupId in order then multiset(cs)[c] else 0
  {
    if order != [] {
      InGroupCount(cs, order[0], c);
      SentCount(cs, order[1..], c);
      assert order == [order[0]] + order[1..];
    }
  }

  /** What a subscriber makes of the streams it gets, taken together. */
  ghost function Rebuilt(streams: seq<seq<byte>>): multiset<Cached> {
    if streams == [] then multiset{}
    else
      (match ParseStream(streams[0])
       case Ok(st, _) => if st.header.GroupHeader? then multiset(Restore(st)) else multiset{}
       case Err(_, _) => multiset{})
      + Rebuilt(streams[1..])
  }

  lemma {:induction false} RebuiltIsSent(cs: seq<Cached>, subId: u62, order: seq<u62>, streams: seq<seq<byte>>)
    requires |order| == |streams|
    requires forall i :: 0 <= i < |streams| ==> streams[i] == EncodeStream(GroupReplay(cs, subId, order[i]))
    ensures Rebuilt(streams) == Sent(cs, order)
  {
    hide ParseStream, EncodeStream, GroupReplay, Restore, InGroup;
    if streams != [] {
      ReplayParses(cs, subId, order[0]);
      RebuiltIsSent(cs, subId, order[1..], streams[1..]);
    }
  }

  /** The streams are a partition of the snapshot: when every group was sent, what a subscriber
      rebuilds from their bytes are the cached objects, each exactly as often; after a failed open
      they are those of the groups that were sent, each of them whole. */
  lemma ReplayIsPartition(cs: seq<Cached>, subId: u62, order: seq<u62>, streams: seq<seq<byte>>, room: nat -> nat)
    requires Sends(cs, subId, order, streams, room) && Roomy(cs, subId, order, room)
    ensures Elements(order) == Groups(cs) ==> Rebuilt(streams) == multiset(cs)
    ensures forall c :: Rebuilt(streams)[c] == if c.groupId in order then multiset(cs)[c] else 0
  {
    hide EncodeStream, GroupReplay, Rebuilt, Sent;
    RebuiltIsSent(cs, subId, order, streams);
    forall c ensures Rebuilt(streams)[c] == if c.groupId in order then multiset(cs)[c] else 0 {
      SentCount(cs, order, c);
    }
    if Elements(order) == Groups(cs) {
      forall c ensures Rebuilt(streams)[c] == multiset(cs)[c] {
        if c in multiset(cs) {
          assert c.groupId in Groups(cs);
        }
      }
    }
  }

  // ----- what became of the groups

  /** What ProcessObjects pushes for a stream it reads. */
  function Pushes(objects: seq<Object>): seq<Op> {
    seq(|objects|, i requires 0 <= i < |objects| => Put(Cached(objects[i].groupId, objects[i].id, objects[i].payload)))
  }

  lemma {:induction false} HistoryOfPuts(ops: seq<Op>, c: Cached)
    requires c in History(ops)
    ensures Put(c) in ops
  {
    if ops != [] {
      var front := ops[..|ops| - 1];
      assert ops == front + [ops[|ops| - 1]];
      if c in History(front) && ops[|ops| - 1].Put? {
        HistoryOfPuts(front, c);
      }
    }
  }

  ghost predicate FromGroupStreams(ops: seq<Op>) {
    forall o :: Put(o) in ops ==> exists body :: Put(o) in Pushes(ReadAll(Group, body))
  }

  /** A relayed group stream leaves every object under group zero in the cache, whatever its header
      said, so a late subscriber gets at most one stream, and its group ID is zero. */
  lemma GroupStreamsCollapse(l: Limits, ops: seq<Op>)
    requires FromGroupStreams(ops)
    ensures Groups(Contents(l, ops)) <= {0}
  {
    hide Contents, ReadAll;
    forall c | c in Contents(l, ops) ensures c.groupId == 0 {
      CachedWasPushed(l, ops, c);
      HistoryOfPuts(ops, c);
      var body :| Put(c) in Pushes(ReadAll(Group, body));
      ReadIsReceived(Group, body);
      var os := ReadAll(Group, body);
      var i :| 0 <= i < |os| && Pushes(os)[i] == Put(c);
      assert os[i] == ReceivedAll(Group, os)[i];
    }
  }

  /** A track stream's objects are cached, and so replayed, under the group IDs they were sent with. */
  lemma TrackStreamsKeepGroups(os: seq<Object>, i: nat)
    requires i < |os|
    ensures var read := ReadAll(Track, EncodeItems(Track, os));
            |read| == |os| && Pushes(read)[i] == Put(Cached(os[i].groupId, os[i].id, os[i].payload))
  {
    hide ReadAll, EncodeItems;
    ItemsRoundTripExactly(Track, os);
  }
}
