/** Control messages: the encoders, the parsers and the type dispatch in front of them. */
module Messages {
  import opened Varint
  import opened Reader
  import opened Parameters

  const SUBSCRIBE: u62 := 0x3
  const SUBSCRIBE_OK: u62 := 0x4
  const ANNOUNCE: u62 := 0x6
  const ANNOUNCE_OK: u62 := 0x7
  const UNSUBSCRIBE: u62 := 0xA
  const SUBSCRIBE_DONE: u62 := 0xB
  const CLIENT_SETUP: u62 := 0x40
  const SERVER_SETUP: u62 := 0x41

  const DRAFT_04: u62 := 0xff000004

  const ABSOLUTE_START: u62 := 0x3
  const ABSOLUTE_RANGE: u62 := 0x4

  type Versions = s: seq<u62> | |s| < LIMIT

  datatype Message =
    | ClientSetup(versions: Versions, params: Params)
    | ServerSetup(version: u62, params: Params)
    | Announce(ns: Text, params: Params)
    | AnnounceOk(ns: Text)
    | Subscribe(id: u62, alias: u62, ns: Text, name: Text, filter: u62,
                startGroup: u62, startObject: u62, endGroup: u62, endObject: u62, params: Params)
    | SubscribeOk(id: u62, expires: u62, contentExists: byte, largestGroup: u62, largestObject: u62)
    | Unsubscribe(id: u62)
    | SubscribeDone(id: u62, status: u62, reason: Text, contentExists: byte, finalGroup: u62, finalObject: u62)
      /** A message of a known type whose body could not be parsed: the dispatcher drops the error
          and hands the partly filled message on. */
    | Broken(mtype: u62)

  function ParamsOf(m: Message): Params {
    match m
    case ClientSetup(_, p) => p
    case ServerSetup(_, p) => p
    case Announce(_, p) => p
    case Subscribe(_, _, _, _, _, _, _, _, _, p) => p
    case _ => map[]
  }

  predicate HasStart(filter: u62) {
    filter == ABSOLUTE_START || filter == ABSOLUTE_RANGE
  }

  predicate HasEnd(filter: u62) {
    filter == ABSOLUTE_RANGE
  }

  // ----- writing

  function EncodeVersions(vs: seq<u62>): seq<byte> {
    if vs == [] then [] else Encode(vs[0]) + EncodeVersions(vs[1..])
  }

  function EncodeIf(carried: bool, v: u62): seq<byte> {
    if carried then Encode(v) else []
  }

  /** The messages that have an encoder which writes their type first. */
  predicate Sendable(m: Message) {
    |ParamsOf(m)| < LIMIT && !m.SubscribeDone? && !m.Broken?
  }

  ghost predicate Writes(m: Message, order: seq<u62>) {
    Sendable(m) && IsOrder(order, ParamsOf(m))
  }

  function EncodeSubscribeTail(m: Message, order: seq<u62>): seq<byte>
    requires m.Subscribe? && |m.params| < LIMIT && forall k :: k in order ==> k in m.params
  {
    EncodeIf(HasStart(m.filter), m.startGroup) + (EncodeIf(HasStart(m.filter), m.startObject) +
    (EncodeIf(HasEnd(m.filter), m.endGroup) + (EncodeIf(HasEnd(m.filter), m.endObject) +
    EncodeParams(m.params, order))))
  }

  function EncodeBody(m: Message, order: seq<u62>): seq<byte>
    requires Sendable(m) && forall k :: k in order ==> k in ParamsOf(m)
  {
    match m
    case ClientSetup(vs, p) => Encode(|vs|) + (EncodeVersions(vs) + EncodeParams(p, order))
    case ServerSetup(v, p) => Encode(v) + EncodeParams(p, order)
    case Announce(ns, p) => EncodeText(ns) + EncodeParams(p, order)
    case AnnounceOk(ns) => EncodeText(ns)
    case Subscribe(id, alias, ns, name, filter, _, _, _, _, _) =>
      Encode(id) + (Encode(alias) + (EncodeText(ns) + (EncodeText(name) + (Encode(filter) +
      EncodeSubscribeTail(m, order)))))
    case SubscribeOk(id, expires, present, group, obj) =>
      Encode(id) + (Encode(expires) + ([present] + (EncodeIf(present == 1, obj) + EncodeIf(present == 1, group))))
    case Unsubscribe(id) => Encode(id)
  }

  function TypeOf(m: Message): u62 {
    match m
    case ClientSetup(_, _) => CLIENT_SETUP
    case ServerSetup(_, _) => SERVER_SETUP
    case Announce(_, _) => ANNOUNCE
    case AnnounceOk(_) => ANNOUNCE_OK
    case Subscribe(_, _, _, _, _, _, _, _, _, _) => SUBSCRIBE
    case SubscribeOk(_, _, _, _, _) => SUBSCRIBE_OK
    case Unsubscribe(_) => UNSUBSCRIBE
    case SubscribeDone(_, _, _, _, _, _) => SUBSCRIBE_DONE
    case Broken(t) => t
  }

  /** The bytes of m when its parameter map is walked in the given order. */
  function EncodeMessage(m: Message, order: seq<u62>): seq<byte>
    requires Sendable(m) && forall k :: k in order ==> k in ParamsOf(m)
  {
    Encode(TypeOf(m)) + EncodeBody(m, order)
  }

  // ----- reading

  function ReadIf(carried: bool, s: seq<byte>): (r: Parsed<u62>)
    ensures r.Ok? ==> |r.rest| <= |s|
    ensures r.Err? ==> |r.left| <= |s|
  {
    if carried then Read(s) else Ok(0, s)
  }

  function ReadByte(s: seq<byte>): (r: Parsed<byte>)
    ensures r.Ok? ==> |r.rest| < |s|
    ensures r.Err? ==> r == Err(Eof, [])
  {
    if s == [] then Err(Eof, []) else Ok(s[0], s[1..])
  }

  function ParseVersions(n: nat, s: seq<byte>): (r: Parsed<seq<u62>>)
    ensures r.Ok? ==> |r.value| == n && |r.rest| <= |s|
    ensures r.Err? ==> |r.left| <= |s|
    decreases n
  {
    if n == 0 then Ok([], s)
    else
      var (v, s) :- Read(s);
      var (vs, s) :- ParseVersions(n - 1, s);
      Ok([v] + vs, s)
  }

  /** The versions that were read when the list broke off. */
  function ReadableVersions(n: nat, s: seq<byte>): seq<u62>
    decreases n
  {
    if n == 0 || Read(s).Err? then [] else [Read(s).value] + ReadableVersions(n - 1, Read(s).rest)
  }

  /** Strict use of the parameter parser, as Announce and Subscribe make of it. */
  function ParamsOrFail(s: seq<byte>): (r: Parsed<Params>)
    ensures r.Ok? ==> |r.rest| <= |s| && Canonical(r.value)
    ensures r.Err? ==> |r.left| <= |s|
  {
    ParseCanonical(s);
    var r := ParseParams(s);
    match r.error
    case None => Ok(r.params, r.rest)
    case Some(e) => Err(e, r.rest)
  }

  /** The two setup messages drop the parameter parser's error and keep what it had read. */
  function ParamsOrPartial(s: seq<byte>): (r: Parsed<Params>)
    ensures r.Ok? && |r.rest| <= |s| && Canonical(r.value)
  {
    ParseCanonical(s);
    Ok(ParseParams(s).params, ParseParams(s).rest)
  }

  function ParseClientSetup(s: seq<byte>): Parsed<Message> {
    var (n, s) :- Read(s);
    var (vs, s) :- ParseVersions(n, s);
    var (p, s) :- ParamsOrPartial(s);
    Ok(ClientSetup(vs, p), s)
  }

  function ParseServerSetup(s: seq<byte>): Parsed<Message> {
    var (v, s) :- Read(s);
    var (p, s) :- ParamsOrPartial(s);
    Ok(ServerSetup(v, p), s)
  }

  function ParseAnnounce(s: seq<byte>): Parsed<Message> {
    var (ns, s) :- ParseText(s);
    var (p, s) :- ParamsOrFail(s);
    Ok(Announce(ns, p), s)
  }

  function ParseAnnounceOk(s: seq<byte>): Parsed<Message> {
    var (ns, s) :- ParseText(s);
    Ok(AnnounceOk(ns), s)
  }

  function ParseSubscribe(s: seq<byte>): Parsed<Message> {
    var (id, s) :- Read(s);
    var (alias, s) :- Read(s);
    var (ns, s) :- ParseText(s);
    var (name, s) :- ParseText(s);
    var (filter, s) :- Read(s);
    ParseSubscribeTail(id, alias, ns, name, filter, s)
  }

  function ParseSubscribeTail(id: u62, alias: u62, ns: Text, name: Text, filter: u62, s: seq<byte>): Parsed<Message> {
    var (startGroup, s) :- ReadIf(HasStart(filter), s);
    var (startObject, s) :- ReadIf(HasStart(filter), s);
    var (endGroup, s) :- ReadIf(HasEnd(filter), s);
    var (endObject, s) :- ReadIf(HasEnd(filter), s);
    var (p, s) :- ParamsOrFail(s);
    Ok(Subscribe(id, alias, ns, name, filter, startGroup, startObject, endGroup, endObject, p), s)
  }

  /** With content, both varints are stored into the object ID and the group ID stays zero. */
  function ParseSubscribeOk(s: seq<byte>): Parsed<Message> {
    var (id, s) :- Read(s);
    var (expires, s) :- Read(s);
    var (present, s) :- ReadByte(s);
    var (_, s) :- ReadIf(present == 1, s);
    var (obj, s) :- ReadIf(present == 1, s);
    Ok(SubscribeOk(id, expires, present, 0, obj), s)
  }

  function ParseUnsubscribe(s: seq<byte>): Parsed<Message> {
    var (id, s) :- Read(s);
    Ok(Unsubscribe(id), s)
  }

  function ParseSubscribeDone(s: seq<byte>): Parsed<Message> {
    var (id, s) :- Read(s);
    var (status, s) :- Read(s);
    var (reason, s) :- ParseText(s);
    var (present, s) :- ReadByte(s);
    var (group, s) :- ReadIf(present == 1, s);
    var (obj, s) :- ReadIf(present == 1, s);
    Ok(SubscribeDone(id, status, reason, present, group, obj), s)
  }

  predicate KnownType(t: u62) {
    t == CLIENT_SETUP || t == SERVER_SETUP || t == ANNOUNCE || t == ANNOUNCE_OK
    || t == SUBSCRIBE || t == SUBSCRIBE_OK || t == UNSUBSCRIBE || t == SUBSCRIBE_DONE
  }

  function ParseBody(t: u62, s: seq<byte>): Parsed<Message>
    requires KnownType(t)
  {
    if t == CLIENT_SETUP then ParseClientSetup(s)
    else if t == SERVER_SETUP then ParseServerSetup(s)
    else if t == ANNOUNCE then ParseAnnounce(s)
    else if t == ANNOUNCE_OK then ParseAnnounceOk(s)
    else if t == SUBSCRIBE then ParseSubscribe(s)
    else if t == SUBSCRIBE_OK then ParseSubscribeOk(s)
    else if t == UNSUBSCRIBE then ParseUnsubscribe(s)
    else ParseSubscribeDone(s)
  }

  /** ParseMOQTMessage: an unknown type is an error, a broken body is not. */
  function ParseMessage(s: seq<byte>): Parsed<Message> {
    var (t, s) :- Read(s);
    if !KnownType(t) then Err(UnknownMessage(t), s)
    else
      match ParseBody(t, s)
      case Ok(m, rest) => Ok(m, rest)
      case Err(_, left) => Ok(Broken(t), left)
  }

  // ----- the two loops of CLIENT_SETUP

  lemma {:induction false} EncodeVersionsAppend(vs: seq<u62>, v: u62)
    ensures EncodeVersions(vs + [v]) == EncodeVersions(vs) + Encode(v)
  {
    hide Encode;
    if vs == [] {
      assert vs + [v] == [v] && [v][1..] == [];
      assert EncodeVersions([v]) == Encode(v) + EncodeVersions([]);
    } else {
      assert (vs + [v])[1..] == vs[1..] + [v];
      EncodeVersionsAppend(vs[1..], v);
    }
  }

  lemma SetupEncoding(versions: Versions, params: Params, order: seq<u62>)
    requires |params| < LIMIT && IsOrder(order, params)
    ensures IsEncoding(ClientSetup(versions, params),
                       Encode(CLIENT_SETUP) + Encode(|versions|) + EncodeVersions(versions) + EncodeParams(params, order))
  {
    hide Encode, EncodeVersions, EncodeParams, IsEncoding;
    var m := ClientSetup(versions, params);
    EncodingWitness(m, order);
    Reassociate(Encode(CLIENT_SETUP), Encode(|versions|), EncodeVersions(versions), EncodeParams(params, order));
  }

  lemma EncodingWitness(m: Message, order: seq<u62>)
    requires Writes(m, order)
    ensures IsEncoding(m, EncodeMessage(m, order))
  {
  }

  lemma Reassociate(a: seq<byte>, b: seq<byte>, c: seq<byte>, d: seq<byte>)
    ensures a + b + c + d == a + (b + (c + d))
  {
  }

  method ClientSetupGetBytes(versions: Versions, params: Params) returns (data: seq<byte>)
    requires |params| < LIMIT
    ensures IsEncoding(ClientSetup(versions, params), data)
  {
    hide Encode, EncodeParams, IsEncoding;
    var head := Encode(CLIENT_SETUP) + Encode(|versions|);
    data := head;
    for i := 0 to |versions|
      invariant data == head + EncodeVersions(versions[..i])
    {
      EncodeVersionsAppend(versions[..i], versions[i]);
      assert versions[..i + 1] == versions[..i] + [versions[i]];
      data := data + Encode(versions[i]);
    }
    assert versions[..|versions|] == versions;
    var tail := GetBytes(params);
    ghost var order :| IsOrder(order, params) && tail == EncodeParams(params, order);
    SetupEncoding(versions, params, order);
    data := data + tail;
  }

  /** An error while reading the versions is returned, with the versions that could be read; one
      while reading the parameters is not. */
  method ClientSetupParse(reader: ByteReader) returns (versions: Versions, params: Params, err: Option<Error>)
    modifies reader
    ensures match ParseClientSetup(old(reader.data))
            case Ok(m, rest) => err == None && m == ClientSetup(versions, params) && reader.data == rest
            case Err(e, left) =>
              && err == Some(e) && reader.data == left && params == map[]
              && versions == match Read(old(reader.data))
                             case Ok(n, s) => ReadableVersions(n, s)
                             case Err(_, _) => []
  {
    hide Read, ParseParams;
    versions, params := [], map[];
    var n, e := reader.ReadVarint();
    if e != None {
      return versions, params, e;
    }
    ghost var all, readable := ParseVersions(n, reader.data), ReadableVersions(n, reader.data);
    assert all.Ok? ==> versions + all.value == all.value;
    assert versions + readable == readable;
    for i := 0 to n
      invariant |versions| == i && params == map[]
      invariant versions + ReadableVersions(n - i, reader.data) == readable
      invariant match ParseVersions(n - i, reader.data)
                case Ok(vs, rest) => all == Ok(versions + vs, rest)
                case Err(e, left) => all == Err(e, left)
    {
      var v, e := reader.ReadVarint();
      if e != None {
        assert versions + [] == versions;
        return versions, params, e;
      }
      assert forall vs :: versions + ([v] + vs) == (versions + [v]) + vs;
      versions := versions + [v];
    }
    assert versions + [] == versions;
    var ps, _ := Parse(reader);
    params, err := ps, None;
  }

  // ----- round trip

  /** The messages that survive a trip over the control stream: nothing is set that the message's
      own flags keep off the wire, the parameters are of the known kinds, and SUBSCRIBE_OK names no
      largest group or object. */
  predicate Faithful(m: Message) {
    && Sendable(m)
    && Canonical(ParamsOf(m))
    && (m.Subscribe? && !HasStart(m.filter) ==> m.startGroup == 0 && m.startObject == 0)
    && (m.Subscribe? && !HasEnd(m.filter) ==> m.endGroup == 0 && m.endObject == 0)
    && (m.SubscribeOk? ==> m.largestGroup == 0 && m.largestObject == 0)
  }

  lemma IfRoundTrip(carried: bool, v: u62, suffix: seq<byte>)
    ensures ReadIf(carried, EncodeIf(carried, v) + suffix) == Ok(if carried then v else 0, suffix)
  {
    hide Read, Encode;
    if carried {
      ReadEncode(v, suffix);
    } else {
      assert [] + suffix == suffix;
    }
  }

  lemma {:induction false} VersionsRoundTrip(vs: seq<u62>, suffix: seq<byte>)
    ensures ParseVersions(|vs|, EncodeVersions(vs) + suffix) == Ok(vs, suffix)
  {
    hide Read, Encode;
    if vs == [] {
      assert [] + suffix == suffix;
    } else {
      var tail := EncodeVersions(vs[1..]) + suffix;
      assert EncodeVersions(vs) + suffix == Encode(vs[0]) + tail;
      ReadEncode(vs[0], tail);
      VersionsRoundTrip(vs[1..], suffix);
      assert [vs[0]] + vs[1..] == vs;
    }
  }

  /** When fewer versions arrive than announced, those that did are kept. */
  lemma {:induction false} VersionsKept(vs: seq<u62>, n: nat)
    requires |vs| < n
    ensures ParseVersions(n, EncodeVersions(vs)).Err? && ReadableVersions(n, EncodeVersions(vs)) == vs
    decreases |vs|
  {
    hide Encode;
    if vs != [] {
      ReadEncode(vs[0], EncodeVersions(vs[1..]));
      VersionsKept(vs[1..], n - 1);
    }
  }

  lemma ClientSetupRoundTrip(m: Message, order: seq<u62>, suffix: seq<byte>)
    requires m.ClientSetup? && Writes(m, order) && Canonical(m.params)
    ensures ParseClientSetup(EncodeBody(m, order) + suffix) == Ok(m, suffix)
  {
    hide Read, Encode, EncodeVersions, ParseVersions, ParseParams, EncodeParams;
    var s1 := EncodeParams(m.params, order) + suffix;
    var s2 := EncodeVersions(m.versions) + s1;
    assert EncodeBody(m, order) + suffix == Encode(|m.versions|) + s2;
    ReadEncode(|m.versions|, s2);
    VersionsRoundTrip(m.versions, s1);
    ParamsRoundTrip(m.params, order, suffix);
  }

  lemma ServerSetupRoundTrip(m: Message, order: seq<u62>, suffix: seq<byte>)
    requires m.ServerSetup? && Writes(m, order) && Canonical(m.params)
    ensures ParseServerSetup(EncodeBody(m, order) + suffix) == Ok(m, suffix)
  {
    hide Read, Encode, ParseParams, EncodeParams;
    var s1 := EncodeParams(m.params, order) + suffix;
    assert EncodeBody(m, order) + suffix == Encode(m.version) + s1;
    ReadEncode(m.version, s1);
    ParamsRoundTrip(m.params, order, suffix);
  }

  lemma AnnounceRoundTrip(m: Message, order: seq<u62>, suffix: seq<byte>)
    requires m.Announce? && Writes(m, order) && Canonical(m.params)
    ensures ParseAnnounce(EncodeBody(m, order) + suffix) == Ok(m, suffix)
  {
    hide ParseText, EncodeText, ParseParams, EncodeParams;
    var s1 := EncodeParams(m.params, order) + suffix;
    assert EncodeBody(m, order) + suffix == EncodeText(m.ns) + s1;
    TextRoundTrip(m.ns, s1);
    ParamsRoundTrip(m.params, order, suffix);
  }

  /** The filter decides which of the four positions travel; the others come back as zero. */
  lemma SubscribeTailRoundTrip(m: Message, order: seq<u62>, suffix: seq<byte>)
    requires m.Subscribe? && Writes(m, order) && Canonical(m.params)
    ensures ParseSubscribeTail(m.id, m.alias, m.ns, m.name, m.filter, EncodeSubscribeTail(m, order) + suffix)
         == Ok(m.(startGroup := if HasStart(m.filter) then m.startGroup else 0,
                  startObject := if HasStart(m.filter) then m.startObject else 0,
                  endGroup := if HasEnd(m.filter) then m.endGroup else 0,
                  endObject := if HasEnd(m.filter) then m.endObject else 0), suffix)
  {
    hide ReadIf, EncodeIf, ParseParams, EncodeParams;
    var start, end := HasStart(m.filter), HasEnd(m.filter);
    var s1 := EncodeParams(m.params, order) + suffix;
    var s2 := EncodeIf(end, m.endObject) + s1;
    var s3 := EncodeIf(end, m.endGroup) + s2;
    var s4 := EncodeIf(start, m.startObject) + s3;
    assert EncodeSubscribeTail(m, order) + suffix == EncodeIf(start, m.startGroup) + s4;
    IfRoundTrip(start, m.startGroup, s4);
    IfRoundTrip(start, m.startObject, s3);
    IfRoundTrip(end, m.endGroup, s2);
    IfRoundTrip(end, m.endObject, s1);
    ParamsRoundTrip(m.params, order, suffix);
  }

  /** Whatever positions a SUBSCRIBE has: filter 3 carries the start, filter 4 start and end, any other
      filter neither; what is not carried comes back as zero. */
  lemma SubscribeTrip(m: Message, order: seq<u62>, suffix: seq<byte>)
    requires m.Subscribe? && Writes(m, order) && Canonical(m.params)
    ensures var start, end := m.filter == 3 || m.filter == 4, m.filter == 4;
            ParseSubscribe(EncodeBody(m, order) + suffix)
            == Ok(m.(startGroup := if start then m.startGroup else 0,
                     startObject := if start then m.startObject else 0,
                     endGroup := if end then m.endGroup else 0,
                     endObject := if end then m.endObject else 0), suffix)
  {
    hide Read, Encode, ParseText, EncodeText, ParseSubscribeTail, EncodeSubscribeTail;
    var s1 := EncodeSubscribeTail(m, order) + suffix;
    var s2 := Encode(m.filter) + s1;
    var s3 := EncodeText(m.name) + s2;
    var s4 := EncodeText(m.ns) + s3;
    var s5 := Encode(m.alias) + s4;
    assert EncodeBody(m, order) + suffix == Encode(m.id) + s5;
    ReadEncode(m.id, s5);
    ReadEncode(m.alias, s4);
    TextRoundTrip(m.ns, s3);
    TextRoundTrip(m.name, s2);
    ReadEncode(m.filter, s1);
    SubscribeTailRoundTrip(m, order, suffix);
  }

  lemma SubscribeRoundTrip(m: Message, order: seq<u62>, suffix: seq<byte>)
    requires m.Subscribe? && Writes(m, order) && Faithful(m)
    ensures ParseSubscribe(EncodeBody(m, order) + suffix) == Ok(m, suffix)
  {
    hide ParseSubscribe, EncodeBody;
    SubscribeTrip(m, order, suffix);
  }

  /** What a SUBSCRIBE_OK turns into: the group ID is lost, and with content its value lands in
      the object ID. */
  lemma SubscribeOkTrip(m: Message, order: seq<u62>, suffix: seq<byte>)
    requires m.SubscribeOk? && Writes(m, order)
    ensures ParseSubscribeOk(EncodeBody(m, order) + suffix)
         == Ok(m.(largestGroup := 0, largestObject := if m.contentExists == 1 then m.largestGroup else 0), suffix)
  {
    hide Read, Encode, ReadIf, EncodeIf;
    var one := m.contentExists == 1;
    var s1 := EncodeIf(one, m.largestGroup) + suffix;
    var s2 := EncodeIf(one, m.largestObject) + s1;
    var s3 := [m.contentExists] + s2;
    var s4 := Encode(m.expires) + s3;
    assert EncodeBody(m, order) + suffix == Encode(m.id) + s4;
    ReadEncode(m.id, s4);
    ReadEncode(m.expires, s3);
    assert s3[1..] == s2;
    IfRoundTrip(one, m.largestObject, s1);
    IfRoundTrip(one, m.largestGroup, suffix);
  }

  lemma BodyRoundTrip(m: Message, order: seq<u62>, suffix: seq<byte>)
    requires Writes(m, order) && Faithful(m)
    ensures ParseBody(TypeOf(m), EncodeBody(m, order) + suffix) == Ok(m, suffix)
  {
    hide Read, Encode, ParseText, EncodeText;
    match m {
      case ClientSetup(_, _) => ClientSetupRoundTrip(m, order, suffix);
      case ServerSetup(_, _) => ServerSetupRoundTrip(m, order, suffix);
      case Announce(_, _) => AnnounceRoundTrip(m, order, suffix);
      case AnnounceOk(ns) => TextRoundTrip(ns, suffix);
      case Subscribe(_, _, _, _, _, _, _, _, _, _) => SubscribeRoundTrip(m, order, suffix);
      case SubscribeOk(_, _, _, _, _) => SubscribeOkTrip(m, order, suffix);
      case Unsubscribe(id) => ReadEncode(id, suffix);
    }
  }

  /** Parsing never sets a field that the wire did not carry; SUBSCRIBE_OK's group ID not even then. */
  lemma ParsedIsFaithful(t: u62, s: seq<byte>)
    requires KnownType(t) && ParseBody(t, s).Ok?
    ensures var m := ParseBody(t, s).value;
            && TypeOf(m) == t && !m.Broken? && (Sendable(m) && !m.SubscribeOk? ==> Faithful(m))
            && (m.SubscribeOk? ==> m.largestGroup == 0 && (m.contentExists != 1 ==> m.largestObject == 0))
            && (m.SubscribeDone? && m.contentExists != 1 ==> m.finalGroup == 0 && m.finalObject == 0)
  {
    hide Read, ParseText, ParseVersions, ParseParams, ReadByte;
  }

  /** Whatever comes off the wire has canonical parameters. */
  lemma ParsedCanonical(s: seq<byte>)
    requires ParseMessage(s).Ok?
    ensures Canonical(ParamsOf(ParseMessage(s).value))
  {
    hide Read, ParseText, ParseVersions, ParseParams, ReadByte;
  }

  /** A message comes back unchanged, with what followed it unread, exactly when it is faithful. */
  lemma MessageRoundTrip(m: Message, order: seq<u62>, suffix: seq<byte>)
    requires Writes(m, order)
    ensures ParseMessage(EncodeMessage(m, order) + suffix) == Ok(m, suffix) <==> Faithful(m)
  {
    hide Read, Encode, ParseBody, EncodeBody;
    var body := EncodeBody(m, order) + suffix;
    assert EncodeMessage(m, order) + suffix == Encode(TypeOf(m)) + body;
    ReadEncode(TypeOf(m), body);
    if Faithful(m) {
      BodyRoundTrip(m, order, suffix);
    } else if ParseBody(TypeOf(m), body) == Ok(m, suffix) {
      ParsedIsFaithful(TypeOf(m), body);
      SubscribeOkNeverFaithful(m, order, suffix);
    }
  }

  lemma SubscribeOkNeverFaithful(m: Message, order: seq<u62>, suffix: seq<byte>)
    requires m.SubscribeOk? && Writes(m, order) && !Faithful(m)
    ensures ParseBody(TypeOf(m), EncodeBody(m, order) + suffix) != Ok(m, suffix)
  {
    SubscribeOkTrip(m, order, suffix);
  }

  /** A parameter block whose last entry is of an unknown type (neither 0 nor 1). */
  function UnknownLast(count: u62, params: Params, order: seq<u62>, p: Parameter): seq<byte>
    requires forall k :: k in order ==> k in params
  {
    Encode(count) + (EncodeEntries(params, order) + EncodeParameter(p))
  }

  lemma UnknownLastParsed(count: u62, params: Params, order: seq<u62>, p: Parameter, suffix: seq<byte>)
    requires Canonical(params) && IsOrder(order, params) && p.ptype != 0 && p.ptype != 1 && |order| < count
    ensures ParseParams(UnknownLast(count, params, order, p) + suffix) == ParamsRead(params, suffix, Some(UnknownParam))
  {
    hide Read, Encode, EncodeEntries, EncodeParameter, ParseEntries;
    var entries := EncodeEntries(params, order) + (EncodeParameter(p) + suffix);
    assert UnknownLast(count, params, order, p) + suffix == Encode(count) + entries;
    ReadEncode(count, entries);
    UnknownEntryStops(params, order, p, count - |order| - 1, suffix);
  }

  /** The setup messages live with an unknown parameter: what came before it is kept, what follows it
      is read as the next message. ANNOUNCE breaks on it, at the same place. */
  lemma UnknownParameter(vs: Versions, v: u62, ns: Text, count: u62, params: Params, order: seq<u62>, p: Parameter,
                         suffix: seq<byte>)
    requires Canonical(params) && IsOrder(order, params) && p.ptype != 0 && p.ptype != 1 && |order| < count
    ensures var block := UnknownLast(count, params, order, p) + suffix;
            && ParseClientSetup(Encode(|vs|) + (EncodeVersions(vs) + block)) == Ok(ClientSetup(vs, params), suffix)
            && ParseServerSetup(Encode(v) + block) == Ok(ServerSetup(v, params), suffix)
            && ParseAnnounce(EncodeText(ns) + block) == Err(UnknownParam, suffix)
  {
    hide Read, Encode, EncodeText, ParseText, EncodeVersions, ParseVersions, ParseParams, UnknownLast;
    var block := UnknownLast(count, params, order, p) + suffix;
    UnknownLastParsed(count, params, order, p, suffix);
    ReadEncode(|vs|, EncodeVersions(vs) + block);
    VersionsRoundTrip(vs, block);
    ReadEncode(v, block);
    TextRoundTrip(ns, block);
  }

  // ----- the whole control stream

  lemma MessageProgress(s: seq<byte>)
    requires ParseMessage(s).Ok?
    ensures |ParseMessage(s).rest| < |s|
  {
    hide Read, ParseText, ParseVersions, ParseParams, ReadByte;
  }

  /** The ServeCS loop: every message up to the error that ends the stream. */
  function Serve(s: seq<byte>): (seq<Message>, Error)
    decreases |s|
  {
    match ParseMessage(s)
    case Err(e, _) => ([], e)
    case Ok(m, rest) =>
      MessageProgress(s);
      var (ms, e) := Serve(rest);
      ([m] + ms, e)
  }

  /** One of the byte strings that writing m can produce. */
  ghost predicate IsEncoding(m: Message, s: seq<byte>) {
    exists order :: Writes(m, order) && s == EncodeMessage(m, order)
  }

  ghost predicate AreEncodings(ms: seq<Message>, wire: seq<seq<byte>>) {
    |ms| == |wire| && forall i :: 0 <= i < |ms| ==> Faithful(ms[i]) && IsEncoding(ms[i], wire[i])
  }

  function Concat(parts: seq<seq<byte>>): seq<byte> {
    if parts == [] then [] else parts[0] + Concat(parts[1..])
  }

  /** A control stream is decoded into exactly the messages written to it, whatever follows. */
  lemma {:induction false} ControlStreamRoundTrip(ms: seq<Message>, wire: seq<seq<byte>>, more: seq<byte>)
    requires AreEncodings(ms, wire)
    ensures Serve(Concat(wire) + more) == (ms + Serve(more).0, Serve(more).1)
  {
    hide ParseMessage, EncodeMessage, Faithful;
    if ms == [] {
      assert [] + more == more && ms + Serve(more).0 == Serve(more).0;
    } else {
      var tail := Concat(wire[1..]) + more;
      assert Concat(wire) + more == wire[0] + tail;
      var order :| Writes(ms[0], order) && wire[0] == EncodeMessage(ms[0], order);
      MessageRoundTrip(ms[0], order, tail);
      ControlStreamRoundTrip(ms[1..], wire[1..], more);
      assert [ms[0]] + (ms[1..] + Serve(more).0) == ms + Serve(more).0;
    }
  }

  lemma NothingServed()
    ensures Serve([]) == ([], Eof)
  {
  }

  /** With nothing after the last message the loop stops on the clean end of the stream. */
  lemma ControlStreamComplete(ms: seq<Message>, wire: seq<seq<byte>>)
    requires AreEncodings(ms, wire)
    ensures Serve(Concat(wire)) == (ms, Eof)
  {
    hide ParseBody, Serve, AreEncodings;
    ControlStreamRoundTrip(ms, wire, []);
    assert Concat(wire) + [] == Concat(wire);
    NothingServed();
    assert ms + [] == ms;
  }
}
