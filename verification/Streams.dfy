/** Data streams: a header followed by objects, either one group per stream or one track per stream,
    and what a relay that parses and re-encodes them sends on. */
module Streams {
  import opened Varint

  const STREAM_HEADER_GROUP: u62 := 0x51
  const STREAM_HEADER_TRACK: u62 := 0x50

  datatype Object = Object(groupId: u62, id: u62, payload: Text)

  datatype Kind = Group | Track

  datatype Header =
    | GroupHeader(subId: u62, alias: u62, groupId: u62, sendOrder: u62)
    | TrackHeader(subId: u62, alias: u62, sendOrder: u62)
  {
    function Kind(): Kind {
      if GroupHeader? then Group else Track
    }
  }

  datatype Stream = Stream(header: Header, objects: seq<Object>)

  // ----- writing

  function EncodeObject(o: Object): (s: seq<byte>)
    ensures |s| > 0
  {
    Encode(o.id) + (Encode(|o.payload|) + o.payload)
  }

  /** Only a track stream carries the group ID of each object. */
  function EncodeItem(kind: Kind, o: Object): (s: seq<byte>)
    ensures |s| > 0
  {
    if kind == Group then EncodeObject(o) else Encode(o.groupId) + EncodeObject(o)
  }

  function EncodeItems(kind: Kind, os: seq<Object>): seq<byte> {
    if os == [] then [] else EncodeItem(kind, os[0]) + EncodeItems(kind, os[1..])
  }

  function EncodeHeaderTail(h: Header): seq<byte> {
    match h
    case GroupHeader(_, alias, group, order) => Encode(alias) + (Encode(group) + Encode(order))
    case TrackHeader(_, alias, order) => Encode(alias) + Encode(order)
  }

  function HeaderType(h: Header): u62 {
    if h.GroupHeader? then STREAM_HEADER_GROUP else STREAM_HEADER_TRACK
  }

  function EncodeHeader(h: Header): seq<byte> {
    Encode(HeaderType(h)) + (Encode(h.subId) + EncodeHeaderTail(h))
  }

  function EncodeStream(st: Stream): seq<byte> {
    EncodeHeader(st.header) + EncodeItems(st.header.Kind(), st.objects)
  }

  // ----- reading

  function Zeros(n: nat): (s: seq<byte>)
    ensures |s| == n
  {
    seq(n, _ => 0)
  }

  /** Object.Parse: a payload that the stream cuts short is padded with zeros, without an error. */
  function ParseObject(s: seq<byte>): (r: Parsed<Object>)
    ensures r.Ok? ==> |r.rest| < |s| && r.value.groupId == 0
  {
    var (id, s) :- Read(s);
    var (n, s) :- Read(s);
    if n <= |s| then Ok(Object(0, id, s[..n]), s[n..])
    else Ok(Object(0, id, s + Zeros(n - |s|)), [])
  }

  /** ReadObject without its side effects; on a group stream the object's group ID stays zero. */
  function ParseItem(kind: Kind, s: seq<byte>): (r: Parsed<Object>)
    ensures r.Ok? ==> |r.rest| < |s| && (kind == Group ==> r.value.groupId == 0)
  {
    if kind == Group then ParseObject(s)
    else
      var (group, s) :- Read(s);
      var (o, s) :- ParseObject(s);
      Ok(o.(groupId := group), s)
  }

  /** Every object up to the end of the stream. */
  function ReadAll(kind: Kind, s: seq<byte>): seq<Object>
    decreases |s|
  {
    match ParseItem(kind, s)
    case Err(_, _) => []
    case Ok(o, rest) => [o] + ReadAll(kind, rest)
  }

  function ParseHeaderTail(kind: Kind, subId: u62, s: seq<byte>): Parsed<Header> {
    var (alias, s) :- Read(s);
    if kind == Group then
      var (group, s) :- Read(s);
      var (order, s) :- Read(s);
      Ok(GroupHeader(subId, alias, group, order), s)
    else
      var (order, s) :- Read(s);
      Ok(TrackHeader(subId, alias, order), s)
  }

  function ParsePrefix(s: seq<byte>): Parsed<(Kind, u62)> {
    var (htype, s) :- Read(s);
    if htype != STREAM_HEADER_GROUP && htype != STREAM_HEADER_TRACK then Err(UnknownHeader(htype), s)
    else
      var (subId, s) :- Read(s);
      Ok((if htype == STREAM_HEADER_GROUP then Group else Track, subId), s)
  }

  /** ParseMOQTStream. */
  function ParseHeader(s: seq<byte>): (r: Parsed<Header>)
    ensures r.Ok? ==> ParsePrefix(s).Ok? && r.value.Kind() == ParsePrefix(s).value.0
  {
    var (prefix, s) :- ParsePrefix(s);
    ParseHeaderTail(prefix.0, prefix.1, s)
  }

  function ParseStream(s: seq<byte>): Parsed<Stream> {
    var (h, s) :- ParseHeader(s);
    Ok(Stream(h, ReadAll(h.Kind(), s)), [])
  }

  // ----- round trip

  /** What reaches the far side of a stream: a group stream forgets the objects' own group IDs. */
  function Received(kind: Kind, o: Object): Object {
    if kind == Group then o.(groupId := 0) else o
  }

  function ReceivedAll(kind: Kind, os: seq<Object>): seq<Object> {
    seq(|os|, i requires 0 <= i < |os| => Received(kind, os[i]))
  }

  lemma ObjectRoundTrip(o: Object, suffix: seq<byte>)
    ensures ParseObject(EncodeObject(o) + suffix) == Ok(o.(groupId := 0), suffix)
  {
    hide Read, Encode, Zeros;
    var s1 := o.payload + suffix;
    var s2 := Encode(|o.payload|) + s1;
    assert EncodeObject(o) + suffix == Encode(o.id) + s2;
    ReadEncode(o.id, s2);
    ReadEncode(|o.payload|, s1);
    assert s1[..|o.payload|] == o.payload && s1[|o.payload|..] == suffix;
  }

  lemma ItemRoundTrip(kind: Kind, o: Object, suffix: seq<byte>)
    ensures ParseItem(kind, EncodeItem(kind, o) + suffix) == Ok(Received(kind, o), suffix)
  {
    hide Read, Encode, ParseObject, EncodeObject;
    ObjectRoundTrip(o, suffix);
    if kind == Track {
      assert EncodeItem(kind, o) + suffix == Encode(o.groupId) + (EncodeObject(o) + suffix);
      ReadEncode(o.groupId, EncodeObject(o) + suffix);
    }
  }

  lemma {:induction false} ItemsRoundTrip(kind: Kind, os: seq<Object>, more: seq<byte>)
    ensures ReadAll(kind, EncodeItems(kind, os) + more) == ReceivedAll(kind, os) + ReadAll(kind, more)
    decreases |os|
  {
    hide ParseItem, EncodeItem, ReceivedAll, Received;
    ReceivedFirst(kind, os);
    if os == [] {
      assert [] + more == more && [] + ReadAll(kind, more) == ReadAll(kind, more);
    } else {
      var tail := EncodeItems(kind, os[1..]) + more;
      assert EncodeItems(kind, os) + more == EncodeItem(kind, os[0]) + tail;
      ItemRoundTrip(kind, os[0], tail);
      ItemsRoundTrip(kind, os[1..], more);
      assert [Received(kind, os[0])] + (ReceivedAll(kind, os[1..]) + ReadAll(kind, more))
          == [Received(kind, os[0])] + ReceivedAll(kind, os[1..]) + ReadAll(kind, more);
    }
  }

  lemma ReceivedFirst(kind: Kind, os: seq<Object>)
    ensures ReceivedAll(kind, os) == if os == [] then [] else [Received(kind, os[0])] + ReceivedAll(kind, os[1..])
  {
  }

  lemma ItemsRoundTripExactly(kind: Kind, os: seq<Object>)
    ensures ReadAll(kind, EncodeItems(kind, os)) == ReceivedAll(kind, os)
  {
    hide Read, ParseItem, EncodeItem;
    ItemsRoundTrip(kind, os, []);
    assert EncodeItems(kind, os) + [] == EncodeItems(kind, os);
    NothingRead(kind);
    assert ReceivedAll(kind, os) + [] == ReceivedAll(kind, os);
  }

  lemma NothingRead(kind: Kind)
    ensures ReadAll(kind, []) == []
  {
  }

  lemma TailRoundTrip(h: Header, subId: u62, suffix: seq<byte>)
    ensures ParseHeaderTail(h.Kind(), subId, EncodeHeaderTail(h) + suffix) == Ok(h.(subId := subId), suffix)
  {
    hide Read, Encode;
    match h {
      case GroupHeader(_, alias, group, order) =>
        var s1 := Encode(order) + suffix;
        var s2 := Encode(group) + s1;
        assert EncodeHeaderTail(h) + suffix == Encode(alias) + s2;
        ReadEncode(alias, s2);
        ReadEncode(group, s1);
        ReadEncode(order, suffix);
      case TrackHeader(_, alias, order) =>
        var s1 := Encode(order) + suffix;
        assert EncodeHeaderTail(h) + suffix == Encode(alias) + s1;
        ReadEncode(alias, s1);
        ReadEncode(order, suffix);
    }
  }

  lemma PrefixRoundTrip(h: Header, suffix: seq<byte>)
    ensures ParsePrefix(EncodeHeader(h) + suffix) == Ok((h.Kind(), h.subId), EncodeHeaderTail(h) + suffix)
  {
    hide Read, Encode, EncodeHeaderTail;
    var s1 := EncodeHeaderTail(h) + suffix;
    var s2 := Encode(h.subId) + s1;
    assert EncodeHeader(h) + suffix == Encode(HeaderType(h)) + s2;
    ReadEncode(HeaderType(h), s2);
    ReadEncode(h.subId, s1);
  }

  lemma HeaderRoundTrip(h: Header, suffix: seq<byte>)
    ensures ParseHeader(EncodeHeader(h) + suffix) == Ok(h, suffix)
  {
    hide ParsePrefix, ParseHeaderTail, EncodeHeader, EncodeHeaderTail;
    PrefixRoundTrip(h, suffix);
    TailRoundTrip(h, h.subId, suffix);
  }

  lemma StreamRoundTrip(st: Stream)
    ensures ParseStream(EncodeStream(st)) == Ok(st.(objects := ReceivedAll(st.header.Kind(), st.objects)), [])
  {
    hide ParseHeader, EncodeHeader, EncodeItems, ReadAll, ReceivedAll;
    HeaderRoundTrip(st.header, EncodeItems(st.header.Kind(), st.objects));
    ItemsRoundTripExactly(st.header.Kind(), st.objects);
  }

  // ----- streams that break

  /** What a stream takes that breaks after `room` bytes. */
  function Clip(s: seq<byte>, room: nat): seq<byte> {
    if |s| <= room then s else s[..room]
  }

  lemma ClipMore(s: seq<byte>, more: seq<byte>, room: nat)
    ensures Clip(Clip(s, room) + more, room) == Clip(s + more, room)
  {
    if |s| <= room {
      assert Clip(s, room) == s;
    } else {
      assert (s[..room] + more)[..room] == s[..room] && (s + more)[..room] == s[..room];
    }
  }

  /** The object as it is read when only the first n bytes of its payload arrive. */
  function Padded(o: Object, n: nat): Object
    requires n <= |o.payload|
  {
    o.(payload := o.payload[..n] + Zeros(|o.payload| - n))
  }

  /** One object, of which not everything arrives. */
  ghost predicate CutItem(kind: Kind, o: Object, r: Parsed<Object>) {
    r.Err? || exists n :: 0 <= n < |o.payload| && r == Ok(Received(kind, Padded(o, n)), [])
  }

  lemma ObjectCut(o: Object, room: nat)
    requires room < |EncodeObject(o)|
    ensures CutItem(Group, o, ParseObject(EncodeObject(o)[..room]))
  {
    hide Read, Encode, Zeros;
    var tail := Encode(|o.payload|) + o.payload;
    ReadCut(o.id, tail, room);
    if room >= Len(o.id) {
      var room' := room - Len(o.id);
      ReadCut(|o.payload|, o.payload, room');
      if room' >= Len(|o.payload|) {
        var n := room' - Len(|o.payload|);
        assert ParseObject(EncodeObject(o)[..room]) == Ok(Received(Group, Padded(o, n)), []);
      }
    }
  }

  lemma ItemCut(kind: Kind, o: Object, room: nat)
    requires room < |EncodeItem(kind, o)|
    ensures CutItem(kind, o, ParseItem(kind, EncodeItem(kind, o)[..room]))
  {
    hide Read, Encode, ParseObject, EncodeObject, Padded;
    if kind == Group {
      ObjectCut(o, room);
    } else {
      ReadCut(o.groupId, EncodeObject(o), room);
      if room >= Len(o.groupId) {
        TrackObjectCut(o, EncodeItem(kind, o)[..room], room - Len(o.groupId));
      }
    }
  }

  lemma TrackObjectCut(o: Object, s: seq<byte>, room: nat)
    requires room < |EncodeObject(o)| && Read(s) == Ok(o.groupId, EncodeObject(o)[..room])
    ensures CutItem(Track, o, ParseItem(Track, s))
  {
    hide Read, ParseObject, EncodeObject;
    ObjectCut(o, room);
    var r := ParseObject(EncodeObject(o)[..room]);
    if n :| 0 <= n < |o.payload| && r == Ok(Received(Group, Padded(o, n)), []) {
      assert ParseItem(Track, s) == Ok(Received(Track, Padded(o, n)), []);
    }
  }

  /** The first k objects, and possibly the next one with a payload that ends in zeros. */
  ghost predicate IsCut(kind: Kind, os: seq<Object>, got: seq<Object>, k: nat) {
    && k <= |os| && k <= |got| <= k + 1 && got[..k] == ReceivedAll(kind, os[..k])
    && (|got| == k + 1 ==> k < |os| && exists n :: 0 <= n < |os[k].payload| && got[k] == Received(kind, Padded(os[k], n)))
  }

  lemma {:induction false} ItemsCut(kind: Kind, os: seq<Object>, room: nat) returns (k: nat)
    ensures IsCut(kind, os, ReadAll(kind, Clip(EncodeItems(kind, os), room)), k)
    decreases |os|
  {
    hide ParseItem, EncodeItem, IsCut, CutItem;
    if os == [] {
      k := 0;
      NothingRead(kind);
      NothingCut(kind);
    } else {
      var first, rest := EncodeItem(kind, os[0]), EncodeItems(kind, os[1..]);
      if room < |first| {
        assert Clip(first + rest, room) == first[..room];
        k := 0;
        ItemCut(kind, os[0], room);
        FirstCut(kind, os, first[..room]);
      } else {
        k := ItemsCut(kind, os[1..], room - |first|);
        assert Clip(first + rest, room) == first + Clip(rest, room - |first|);
        ItemRoundTrip(kind, os[0], Clip(rest, room - |first|));
        CutLater(kind, os, ReadAll(kind, Clip(rest, room - |first|)), k);
        k := k + 1;
      }
    }
  }

  lemma NothingCut(kind: Kind)
    ensures IsCut(kind, [], [], 0)
  {
  }

  lemma FirstCut(kind: Kind, os: seq<Object>, s: seq<byte>)
    requires os != [] && CutItem(kind, os[0], ParseItem(kind, s))
    ensures IsCut(kind, os, ReadAll(kind, s), 0)
  {
    hide ParseItem, Padded;
    NothingRead(kind);
  }

  lemma CutLater(kind: Kind, os: seq<Object>, got: seq<Object>, k: nat)
    requires os != [] && IsCut(kind, os[1..], got, k)
    ensures IsCut(kind, os, [Received(kind, os[0])] + got, k + 1)
  {
    hide Padded;
    var all := [Received(kind, os[0])] + got;
    ReceivedFirst(kind, os[..k + 1]);
    assert os[..k + 1][1..] == os[1..][..k];
    assert all[..k + 1] == [Received(kind, os[0])] + got[..k];
  }

  lemma TailCut(h: Header, room: nat)
    requires room < |EncodeHeaderTail(h)|
    ensures ParseHeaderTail(h.Kind(), h.subId, EncodeHeaderTail(h)[..room]).Err?
  {
    hide Read, Encode;
    match h
    case GroupHeader(_, alias, group, order) =>
      ReadCut(alias, Encode(group) + Encode(order), room);
      if room >= Len(alias) {
        ReadCut(group, Encode(order), room - Len(alias));
        if room >= Len(alias) + Len(group) {
          ReadCut(order, [], room - Len(alias) - Len(group));
          assert Encode(order) + [] == Encode(order);
        }
      }
    case TrackHeader(_, alias, order) =>
      ReadCut(alias, Encode(order), room);
      if room >= Len(alias) {
        ReadCut(order, [], room - Len(alias));
        assert Encode(order) + [] == Encode(order);
      }
  }

  /** A header that does not arrive whole is refused. */
  lemma HeaderCut(h: Header, room: nat)
    requires room < |EncodeHeader(h)|
    ensures ParseHeader(EncodeHeader(h)[..room]).Err?
  {
    hide Read, Encode, ParseHeaderTail, EncodeHeaderTail;
    ReadCut(HeaderType(h), Encode(h.subId) + EncodeHeaderTail(h), room);
    if room >= Len(HeaderType(h)) {
      ReadCut(h.subId, EncodeHeaderTail(h), room - Len(HeaderType(h)));
      if room >= Len(HeaderType(h)) + Len(h.subId) {
        TailCut(h, room - Len(HeaderType(h)) - Len(h.subId));
      }
    }
  }

  /** A stream that breaks is refused, or parses under its own header to its first objects and at
      most one more whose payload ends in zeros: refused exactly when its header is cut. */
  lemma StreamCut(st: Stream, room: nat)
    ensures var r := ParseStream(Clip(EncodeStream(st), room));
            && (r.Err? <==> room < |EncodeHeader(st.header)|)
            && (r.Ok? ==> r.value.header == st.header && exists k :: IsCut(st.header.Kind(), st.objects, r.value.objects, k))
  {
    hide ParseHeader, EncodeHeader, EncodeItems, ReadAll, IsCut;
    var head, items := EncodeHeader(st.header), EncodeItems(st.header.Kind(), st.objects);
    if room < |head| {
      assert Clip(head + items, room) == head[..room];
      HeaderCut(st.header, room);
    } else {
      assert Clip(head + items, room) == head + Clip(items, room - |head|);
      HeaderRoundTrip(st.header, Clip(items, room - |head|));
      var k := ItemsCut(st.header.Kind(), st.objects, room - |head|);
    }
  }

  // ----- relay transparency

  /** What a relay sends one subscriber for an upstream stream: the parsed header under that
      subscriber's subscription ID, and the objects it read, encoded again. */
  function Relay(upstream: seq<byte>, subId: u62): (down: seq<byte>)
    requires ParseHeader(upstream).Ok?
  {
    var r := ParseHeader(upstream);
    EncodeHeader(r.value.(subId := subId)) + EncodeItems(r.value.Kind(), ReadAll(r.value.Kind(), r.rest))
  }

  lemma {:induction false} ReadIsReceived(kind: Kind, s: seq<byte>)
    ensures ReceivedAll(kind, ReadAll(kind, s)) == ReadAll(kind, s)
    decreases |s|
  {
    hide ParseItem;
    match ParseItem(kind, s)
    case Err(_, _) =>
    case Ok(o, rest) =>
      ReadIsReceived(kind, rest);
      var os := ReadAll(kind, rest);
      assert forall i :: 0 <= i < |os| ==> Received(kind, os[i]) == ReceivedAll(kind, os)[i];
  }

  /** A subscriber reads from the relay the stream that the relay read, under its own
      subscription ID; this holds for every upstream byte string with a header, cut short or not. */
  lemma RelayTransparent(upstream: seq<byte>, subId: u62)
    requires ParseHeader(upstream).Ok?
    ensures var st := ParseStream(upstream).value;
            ParseStream(Relay(upstream, subId)) == Ok(st.(header := st.header.(subId := subId)), [])
  {
    hide ParseHeader, EncodeHeader, EncodeItems, ReadAll, ReceivedAll;
    var st := ParseStream(upstream).value;
    StreamRoundTrip(st.(header := st.header.(subId := subId)));
    ReadIsReceived(st.header.Kind(), ParseHeader(upstream).rest);
  }

  /** A chain of relays, each rewriting the subscription ID. */
  function RelayChain(upstream: seq<byte>, subIds: seq<u62>): (down: seq<byte>)
    requires ParseHeader(upstream).Ok?
    ensures ParseHeader(down).Ok?
    decreases |subIds|
  {
    if subIds == [] then upstream
    else
      RelayTransparent(upstream, subIds[0]);
      RelayChain(Relay(upstream, subIds[0]), subIds[1..])
  }

  /** Any number of relays deliver the same objects; only the last subscription ID shows. */
  lemma {:induction false} RelayChainTransparent(upstream: seq<byte>, subIds: seq<u62>)
    requires ParseHeader(upstream).Ok? && subIds != []
    ensures var st := ParseStream(upstream).value;
            ParseStream(RelayChain(upstream, subIds)) ==
            Ok(st.(header := st.header.(subId := subIds[|subIds| - 1])), [])
    decreases |subIds|
  {
    hide ParseHeader, Relay, ReadAll;
    RelayTransparent(upstream, subIds[0]);
    if |subIds| > 1 {
      RelayChainTransparent(Relay(upstream, subIds[0]), subIds[1..]);
    }
  }

  // ----- byte identity

  /** The object at the head of s is written minimally and in full. */
  predicate CleanObject(s: seq<byte>)
    requires ParseObject(s).Ok?
  {
    && MinimalHead(s)
    && MinimalHead(Read(s).rest)
    && Read(Read(s).rest).value <= |Read(Read(s).rest).rest|
  }

  predicate CleanItem(kind: Kind, s: seq<byte>)
    requires ParseItem(kind, s).Ok?
  {
    if kind == Group then CleanObject(s) else MinimalHead(s) && CleanObject(Read(s).rest)
  }

  /** A sequence of minimally written, complete objects and nothing else. */
  predicate CleanItems(kind: Kind, s: seq<byte>)
    decreases |s|
  {
    s == [] || (ParseItem(kind, s).Ok? && CleanItem(kind, s) && CleanItems(kind, ParseItem(kind, s).rest))
  }

  predicate CleanTail(kind: Kind, s: seq<byte>)
    requires ParseHeaderTail(kind, 0, s).Ok?
  {
    && MinimalHead(s)
    && MinimalHead(Read(s).rest)
    && (kind == Group ==> MinimalHead(Read(Read(s).rest).rest))
  }

  /** Writing a varint back gives the same input exactly when the varint was minimal. */
  lemma SameHead(s: seq<byte>, more: seq<byte>)
    requires Read(s).Ok?
    ensures Encode(Read(s).value) + more == s <==> MinimalHead(s) && more == Read(s).rest
  {
    hide Read, Encode, MinimalHead;
    Rewrite(s);
    ReadEncode(Read(s).value, more);
  }

  lemma SameObject(s: seq<byte>, more: seq<byte>)
    requires ParseObject(s).Ok?
    ensures EncodeObject(ParseObject(s).value) + more == s <==> CleanObject(s) && more == ParseObject(s).rest
  {
    hide Read, Encode, MinimalHead, Zeros;
    var o := ParseObject(s).value;
    var s1 := Read(s).rest;
    var s2 := Read(s1).rest;
    assert EncodeObject(o) + more == Encode(o.id) + (Encode(|o.payload|) + (o.payload + more));
    SameHead(s, Encode(|o.payload|) + (o.payload + more));
    SameHead(s1, o.payload + more);
    if Read(s1).value <= |s2| {
      assert s2 == o.payload + s2[|o.payload|..];
      assert (o.payload + more)[|o.payload|..] == more;
      assert (o.payload + more == s2) <==> more == s2[|o.payload|..];
    } else {
      assert |o.payload + more| > |s2|;
    }
  }

  lemma SameItem(kind: Kind, s: seq<byte>, more: seq<byte>)
    requires ParseItem(kind, s).Ok?
    ensures EncodeItem(kind, ParseItem(kind, s).value) + more == s
       <==> CleanItem(kind, s) && more == ParseItem(kind, s).rest
  {
    hide Read, Encode, MinimalHead, ParseObject, EncodeObject, CleanObject;
    var o := ParseItem(kind, s).value;
    if kind == Group {
      SameObject(s, more);
    } else {
      assert EncodeItem(kind, o) + more == Encode(o.groupId) + (EncodeObject(o) + more);
      SameHead(s, EncodeObject(o) + more);
      var o' := ParseObject(Read(s).rest).value;
      SameEncoding(o, o');
      SameObject(Read(s).rest, more);
    }
  }

  lemma SameEncoding(a: Object, b: Object)
    requires a.id == b.id && a.payload == b.payload
    ensures EncodeObject(a) == EncodeObject(b)
  {
  }

  /** Re-encoding what was read reproduces the bytes exactly when they were clean. */
  lemma {:induction false} ReencodeIdentity(kind: Kind, s: seq<byte>)
    ensures EncodeItems(kind, ReadAll(kind, s)) == s <==> CleanItems(kind, s)
    decreases |s|
  {
    hide ParseItem, EncodeItem, CleanItem;
    match ParseItem(kind, s)
    case Err(_, _) =>
      NothingParsed(kind);
    case Ok(o, rest) =>
      ReencodeIdentity(kind, rest);
      var os := ReadAll(kind, rest);
      assert EncodeItems(kind, [o] + os) == EncodeItem(kind, o) + EncodeItems(kind, os) by {
        assert ([o] + os)[1..] == os;
      }
      SameItem(kind, s, EncodeItems(kind, os));
  }

  lemma NothingParsed(kind: Kind)
    ensures ParseItem(kind, []).Err?
  {
  }

  lemma SameTail(kind: Kind, subId: u62, s: seq<byte>, more: seq<byte>)
    requires ParseHeaderTail(kind, subId, s).Ok?
    ensures ParseHeaderTail(kind, 0, s).Ok?
    ensures var r := ParseHeaderTail(kind, subId, s);
            r.value.Kind() == kind &&
            (EncodeHeaderTail(r.value) + more == s <==> CleanTail(kind, s) && more == r.rest)
  {
    hide Read, Encode, MinimalHead;
    var h := ParseHeaderTail(kind, subId, s).value;
    var s1 := Read(s).rest;
    var s2 := Read(s1).rest;
    match h {
      case GroupHeader(_, alias, group, order) =>
        var x1 := Encode(order) + more;
        var x2 := Encode(group) + x1;
        assert EncodeHeaderTail(h) + more == Encode(alias) + x2;
        SameHead(s, x2);
        SameHead(s1, x1);
        SameHead(s2, more);
      case TrackHeader(_, alias, order) =>
        var x1 := Encode(order) + more;
        assert EncodeHeaderTail(h) + more == Encode(alias) + x1;
        SameHead(s, x1);
        SameHead(s1, more);
    }
  }

  /** After the subscription ID, upstream and downstream bytes agree exactly when the upstream
      wrote every varint minimally and ended on an object boundary. */
  lemma RelayBytesIdentical(upstream: seq<byte>, subId: u62)
    requires ParseHeader(upstream).Ok?
    ensures ParsePrefix(Relay(upstream, subId)).Ok?
    ensures var tail := ParsePrefix(upstream).rest; var kind := ParsePrefix(upstream).value.0;
            ParseHeaderTail(kind, 0, tail).Ok? &&
            (ParsePrefix(Relay(upstream, subId)).rest == tail
             <==> CleanTail(kind, tail) && CleanItems(kind, ParseHeader(upstream).rest))
  {
    hide Read, ParsePrefix, ParseHeaderTail, EncodeHeader, EncodeHeaderTail, EncodeItems, ReadAll, CleanTail, CleanItems;
    var r := ParseHeader(upstream);
    var tail := ParsePrefix(upstream).rest;
    var kind := r.value.Kind();
    var h := r.value.(subId := subId);
    var body := EncodeItems(kind, ReadAll(kind, r.rest));
    PrefixRoundTrip(h, body);
    SameTailBytes(r.value, subId);
    SameTail(kind, ParsePrefix(upstream).value.1, tail, body);
    ReencodeIdentity(kind, r.rest);
  }

  lemma SameTailBytes(h: Header, subId: u62)
    ensures EncodeHeaderTail(h.(subId := subId)) == EncodeHeaderTail(h)
  {
  }
}
