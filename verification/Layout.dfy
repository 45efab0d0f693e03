/** The formats on the wire as flat lists of fields, with every tag written as its number, and the
    proof that the encoders write exactly these. */
module Layout {
  import opened Varint
  import opened Reader
  import opened Parameters
  import opened Messages
  import Streams
  import Settings

  /** A varint, a string or payload behind its length, or a single byte. */
  datatype Field = Num(v: u62) | Str(t: Text) | Octet(b: byte)

  function FieldBytes(f: Field): seq<byte> {
    match f
    case Num(v) => Encode(v)
    case Str(t) => Encode(|t|) + t
    case Octet(b) => [b]
  }

  function Wire(fs: seq<Field>): seq<byte> {
    if fs == [] then [] else FieldBytes(fs[0]) + Wire(fs[1..])
  }

  lemma {:induction false} WireAppend(a: seq<Field>, b: seq<Field>)
    ensures Wire(a + b) == Wire(a) + Wire(b)
  {
    hide FieldBytes;
    if a == [] {
      assert a + b == b;
    } else {
      assert (a + b)[1..] == a[1..] + b;
      WireAppend(a[1..], b);
    }
  }

  lemma WireCons(f: Field, fs: seq<Field>)
    ensures Wire([f] + fs) == FieldBytes(f) + Wire(fs)
  {
    assert ([f] + fs)[1..] == fs;
  }

  lemma WireOne(f: Field)
    ensures Wire([f]) == FieldBytes(f)
  {
    assert [f][1..] == [];
  }

  // ----- control messages

  /** Type, then the value behind its length; an integer value is itself a varint. */
  function EntryFields(p: Parameter): seq<Field> {
    [Num(p.ptype), Str(if p.IntParameter? then Encode(p.number) else p.text)]
  }

  function EntriesFields(params: Params, order: seq<u62>): seq<Field>
    requires forall k :: k in order ==> k in params
  {
    if order == [] then [] else EntryFields(params[order[0]]) + EntriesFields(params, order[1..])
  }

  function ParamsFields(params: Params, order: seq<u62>): seq<Field>
    requires |params| < LIMIT && forall k :: k in order ==> k in params
  {
    [Num(|params|)] + EntriesFields(params, order)
  }

  function NumFields(vs: seq<u62>): seq<Field> {
    seq(|vs|, i requires 0 <= i < |vs| => Num(vs[i]))
  }

  /** SUBSCRIBE_OK has the object ID in front of the group ID. */
  function MessageFields(m: Message, order: seq<u62>): seq<Field>
    requires Sendable(m) && forall k :: k in order ==> k in ParamsOf(m)
  {
    match m
    case ClientSetup(versions, params) => [Num(0x40), Num(|versions|)] + (NumFields(versions) + ParamsFields(params, order))
    case ServerSetup(version, params) => [Num(0x41), Num(version)] + ParamsFields(params, order)
    case Announce(ns, params) => [Num(0x6), Str(ns)] + ParamsFields(params, order)
    case AnnounceOk(ns) => [Num(0x7), Str(ns)]
    case Subscribe(id, alias, ns, name, filter, startGroup, startObject, endGroup, endObject, params) =>
      [Num(0x3), Num(id), Num(alias), Str(ns), Str(name), Num(filter)]
      + ((if filter == 3 || filter == 4 then [Num(startGroup), Num(startObject)] else [])
         + ((if filter == 4 then [Num(endGroup), Num(endObject)] else []) + ParamsFields(params, order)))
    case SubscribeOk(id, expires, present, group, obj) =>
      [Num(0x4), Num(id), Num(expires), Octet(present)] + if present == 1 then [Num(obj), Num(group)] else []
    case Unsubscribe(id) => [Num(0xA), Num(id)]
  }

  lemma EntryLayout(p: Parameter)
    ensures EncodeParameter(p) == Wire(EntryFields(p))
  {
    hide Encode;
    var value := EntryFields(p)[1];
    WireCons(Num(p.ptype), [value]);
    WireOne(value);
  }

  lemma {:induction false} EntriesLayout(params: Params, order: seq<u62>)
    requires forall k :: k in order ==> k in params
    ensures EncodeEntries(params, order) == Wire(EntriesFields(params, order))
    decreases |order|
  {
    hide EncodeParameter, EntryFields;
    if order != [] {
      EntryLayout(params[order[0]]);
      EntriesLayout(params, order[1..]);
      WireAppend(EntryFields(params[order[0]]), EntriesFields(params, order[1..]));
    }
  }

  lemma ParamsLayout(params: Params, order: seq<u62>)
    requires |params| < LIMIT && forall k :: k in order ==> k in params
    ensures EncodeParams(params, order) == Wire(ParamsFields(params, order))
  {
    hide Encode, EncodeEntries, EntriesFields;
    EntriesLayout(params, order);
    WireCons(Num(|params|), EntriesFields(params, order));
  }

  lemma {:induction false} VersionsLayout(vs: seq<u62>)
    ensures EncodeVersions(vs) == Wire(NumFields(vs))
  {
    hide Encode;
    if vs != [] {
      VersionsLayout(vs[1..]);
      assert NumFields(vs) == [Num(vs[0])] + NumFields(vs[1..]);
    }
  }

  lemma WireTwo(f: Field, g: Field)
    ensures Wire([f, g]) == FieldBytes(f) + FieldBytes(g)
  {
    assert [f, g] == [f] + [g];
    WireCons(f, [g]);
    WireOne(g);
  }

  lemma ClientSetupLayout(m: Message, order: seq<u62>)
    requires m.ClientSetup? && Writes(m, order)
    ensures EncodeMessage(m, order) == Wire(MessageFields(m, order))
  {
    hide Encode, EncodeVersions, NumFields, EncodeParams, ParamsFields, Wire;
    var params := ParamsFields(m.params, order);
    ParamsLayout(m.params, order);
    VersionsLayout(m.versions);
    WireTwo(Num(0x40), Num(|m.versions|));
    WireAppend(NumFields(m.versions), params);
    WireAppend([Num(0x40), Num(|m.versions|)], NumFields(m.versions) + params);
  }

  lemma SubscribeLayout(m: Message, order: seq<u62>)
    requires m.Subscribe? && Writes(m, order)
    ensures EncodeMessage(m, order) == Wire(MessageFields(m, order))
  {
    hide Encode, EncodeText, EncodeIf, EncodeParams, ParamsFields, Wire;
    var params := ParamsFields(m.params, order);
    ParamsLayout(m.params, order);
    var start := if m.filter == 3 || m.filter == 4 then [Num(m.startGroup), Num(m.startObject)] else [];
    var end := if m.filter == 4 then [Num(m.endGroup), Num(m.endObject)] else [];
    var head := [Num(0x3), Num(m.id), Num(m.alias), Str(m.ns), Str(m.name), Num(m.filter)];
    WireAppend(end, params);
    WireAppend(start, end + params);
    WireAppend(head, start + (end + params));
    PairLayout(m.filter == 3 || m.filter == 4, m.startGroup, m.startObject);
    PairLayout(m.filter == 4, m.endGroup, m.endObject);
    HeadLayout(m.id, m.alias, m.ns, m.name, m.filter);
    TailRegrouped(m, order);
    Regroup(Encode(0x3), Encode(m.id), Encode(m.alias), EncodeText(m.ns), EncodeText(m.name), Encode(m.filter),
            EncodeSubscribeTail(m, order));
  }

  lemma Regroup(a: seq<byte>, b: seq<byte>, c: seq<byte>, d: seq<byte>, e: seq<byte>, f: seq<byte>, t: seq<byte>)
    ensures (a + (b + (c + (d + (e + f))))) + t == a + (b + (c + (d + (e + (f + t)))))
  {
  }

  lemma TailRegrouped(m: Message, order: seq<u62>)
    requires m.Subscribe? && Writes(m, order)
    ensures var start, end := m.filter == 3 || m.filter == 4, m.filter == 4;
            EncodeSubscribeTail(m, order)
            == (EncodeIf(start, m.startGroup) + EncodeIf(start, m.startObject))
               + ((EncodeIf(end, m.endGroup) + EncodeIf(end, m.endObject)) + EncodeParams(m.params, order))
  {
    hide EncodeIf, EncodeParams;
  }

  lemma PairLayout(carried: bool, a: u62, b: u62)
    ensures Wire(if carried then [Num(a), Num(b)] else []) == EncodeIf(carried, a) + EncodeIf(carried, b)
  {
    hide Encode;
    WireTwo(Num(a), Num(b));
  }

  lemma HeadLayout(id: u62, alias: u62, ns: Text, name: Text, filter: u62)
    ensures Wire([Num(0x3), Num(id), Num(alias), Str(ns), Str(name), Num(filter)])
         == Encode(0x3) + (Encode(id) + (Encode(alias) + (EncodeText(ns) + (EncodeText(name) + Encode(filter)))))
  {
    hide Encode, Wire;
    var f4 := [Str(ns)] + [Str(name), Num(filter)];
    var f3 := [Num(alias)] + f4;
    var f2 := [Num(id)] + f3;
    assert [Num(0x3), Num(id), Num(alias), Str(ns), Str(name), Num(filter)] == [Num(0x3)] + f2;
    WireCons(Num(0x3), f2);
    WireCons(Num(id), f3);
    WireCons(Num(alias), f4);
    WireCons(Str(ns), [Str(name), Num(filter)]);
    WireTwo(Str(name), Num(filter));
  }

  lemma SubscribeOkLayout(m: Message, order: seq<u62>)
    requires m.SubscribeOk? && Writes(m, order)
    ensures EncodeMessage(m, order) == Wire(MessageFields(m, order))
  {
    hide Encode, Wire;
    var tail := if m.contentExists == 1 then [Num(m.largestObject), Num(m.largestGroup)] else [];
    PairLayout(m.contentExists == 1, m.largestObject, m.largestGroup);
    WireCons(Num(0x4), [Num(m.id), Num(m.expires), Octet(m.contentExists)] + tail);
    WireCons(Num(m.id), [Num(m.expires), Octet(m.contentExists)] + tail);
    WireCons(Num(m.expires), [Octet(m.contentExists)] + tail);
    WireCons(Octet(m.contentExists), tail);
    assert [Num(0x4)] + ([Num(m.id), Num(m.expires), Octet(m.contentExists)] + tail) == MessageFields(m, order);
    assert [Num(m.id)] + ([Num(m.expires), Octet(m.contentExists)] + tail)
        == [Num(m.id), Num(m.expires), Octet(m.contentExists)] + tail;
    assert [Num(m.expires)] + ([Octet(m.contentExists)] + tail) == [Num(m.expires), Octet(m.contentExists)] + tail;
  }

  /** Every message that can be sent is written field by field as its format says, its parameters in
      the order in which the map is walked. */
  lemma MessageLayout(m: Message, order: seq<u62>)
    requires Writes(m, order)
    ensures EncodeMessage(m, order) == Wire(MessageFields(m, order))
  {
    match m
    case ClientSetup(_, _) => ClientSetupLayout(m, order);
    case Subscribe(_, _, _, _, _, _, _, _, _, _) => SubscribeLayout(m, order);
    case SubscribeOk(_, _, _, _, _) => SubscribeOkLayout(m, order);
    case ServerSetup(v, params) => SetupLayout(Num(0x41), Num(v), params, order);
    case Announce(ns, params) => SetupLayout(Num(0x6), Str(ns), params, order);
    case AnnounceOk(ns) => WireTwo(Num(0x7), Str(ns));
    case Unsubscribe(id) => WireTwo(Num(0xA), Num(id));
  }

  lemma SetupLayout(f: Field, g: Field, params: Params, order: seq<u62>)
    requires |params| < LIMIT && IsOrder(order, params)
    ensures Wire([f, g] + ParamsFields(params, order)) == FieldBytes(f) + (FieldBytes(g) + EncodeParams(params, order))
  {
    hide Wire, FieldBytes, ParamsFields, EncodeParams;
    ParamsLayout(params, order);
    WireAppend([f, g], ParamsFields(params, order));
    WireTwo(f, g);
  }

  /** The decoder knows exactly these eight types, by number; it refuses any other after its type. */
  lemma KnownTypes(t: u62, rest: seq<byte>)
    ensures var r := ParseMessage(Encode(t) + rest);
            if t in {0x3, 0x4, 0x6, 0x7, 0xA, 0xB, 0x40, 0x41} then r.Ok? && TypeOf(r.value) == t
            else r == Err(UnknownMessage(t), rest)
  {
    hide Read, Encode, ParseBody;
    ReadEncode(t, rest);
    if KnownType(t) && ParseBody(t, rest).Ok? {
      ParsedIsFaithful(t, rest);
    }
  }

  // ----- data streams

  function HeaderFields(h: Streams.Header): seq<Field> {
    match h
    case GroupHeader(subId, alias, groupId, sendOrder) =>
      [Num(0x51), Num(subId), Num(alias), Num(groupId), Num(sendOrder)]
    case TrackHeader(subId, alias, sendOrder) => [Num(0x50), Num(subId), Num(alias), Num(sendOrder)]
  }

  function ObjectsFields(kind: Streams.Kind, os: seq<Streams.Object>): seq<Field> {
    if os == [] then []
    else
      (if kind.Track? then [Num(os[0].groupId)] else [])
      + ([Num(os[0].id), Str(os[0].payload)] + ObjectsFields(kind, os[1..]))
  }

  lemma HeaderLayout(h: Streams.Header)
    ensures Streams.EncodeHeader(h) == Wire(HeaderFields(h))
  {
    hide Encode, Wire;
    match h
    case GroupHeader(subId, alias, groupId, sendOrder) =>
      var f3 := [Num(alias)] + [Num(groupId), Num(sendOrder)];
      var f2 := [Num(subId)] + f3;
      assert HeaderFields(h) == [Num(0x51)] + f2;
      WireCons(Num(0x51), f2);
      WireCons(Num(subId), f3);
      WireCons(Num(alias), [Num(groupId), Num(sendOrder)]);
      WireTwo(Num(groupId), Num(sendOrder));
    case TrackHeader(subId, alias, sendOrder) =>
      var f2 := [Num(subId)] + [Num(alias), Num(sendOrder)];
      assert HeaderFields(h) == [Num(0x50)] + f2;
      WireCons(Num(0x50), f2);
      WireCons(Num(subId), [Num(alias), Num(sendOrder)]);
      WireTwo(Num(alias), Num(sendOrder));
  }

  /** The dispatch knows exactly these two headers, by number. */
  lemma KnownHeaders(t: u62, rest: seq<byte>)
    ensures t != 0x50 && t != 0x51 ==> Streams.ParseHeader(Encode(t) + rest) == Err(UnknownHeader(t), rest)
    ensures var r := Streams.ParseHeader(Encode(t) + rest);
            r.Ok? ==> (t == 0x51 && r.value.GroupHeader?) || (t == 0x50 && r.value.TrackHeader?)
  {
    hide Read, Encode;
    ReadEncode(t, rest);
  }

  lemma {:induction false} ObjectsLayout(kind: Streams.Kind, os: seq<Streams.Object>)
    ensures Streams.EncodeItems(kind, os) == Wire(ObjectsFields(kind, os))
    decreases |os|
  {
    hide Encode, Wire;
    if os == [] {
      WireNothing();
    } else {
      var o, rest := os[0], ObjectsFields(kind, os[1..]);
      ObjectsLayout(kind, os[1..]);
      WireTwo(Num(o.id), Str(o.payload));
      WireAppend([Num(o.id), Str(o.payload)], rest);
      if kind.Track? {
        WireCons(Num(o.groupId), [Num(o.id), Str(o.payload)] + rest);
      } else {
        assert [] + ([Num(o.id), Str(o.payload)] + rest) == [Num(o.id), Str(o.payload)] + rest;
      }
    }
  }

  lemma WireNothing()
    ensures Wire([]) == []
  {
  }

  /** A stream is its header's fields and then each object's, with the group ID on a track stream. */
  lemma StreamLayout(st: Streams.Stream)
    ensures Streams.EncodeStream(st) == Wire(HeaderFields(st.header) + ObjectsFields(st.header.Kind(), st.objects))
  {
    hide Streams.EncodeHeader, Streams.EncodeItems, HeaderFields, ObjectsFields;
    HeaderLayout(st.header);
    ObjectsLayout(st.header.Kind(), st.objects);
    WireAppend(HeaderFields(st.header), ObjectsFields(st.header.Kind(), st.objects));
  }

  // ----- SETTINGS

  function SettingsFields(xs: seq<Settings.Setting>): seq<Field> {
    if xs == [] then [] else [Num(xs[0].key), Num(xs[0].value)] + SettingsFields(xs[1..])
  }

  lemma {:induction false} SettingsLayout(xs: seq<Settings.Setting>)
    ensures Settings.EncodeSettings(xs) == Wire(SettingsFields(xs))
  {
    hide Encode;
    if xs != [] {
      SettingsLayout(xs[1..]);
      WireTwo(Num(xs[0].key), Num(xs[0].value));
      WireAppend([Num(xs[0].key), Num(xs[0].value)], SettingsFields(xs[1..]));
    }
  }

  /** A SETTINGS frame is its type, the number of bytes that follow, and the settings. */
  lemma FrameLayout(xs: seq<Settings.Setting>)
    requires Settings.Declared(xs) < LIMIT
    ensures |Wire(SettingsFields(xs))| < LIMIT
    ensures Settings.EncodeFrame(xs) == Wire([Num(0x4), Num(|Wire(SettingsFields(xs))|)] + SettingsFields(xs))
  {
    hide Encode, Wire, Settings.EncodeSettings, SettingsFields;
    SettingsLayout(xs);
    Settings.DeclaredIsEmitted(xs);
    var size := |Wire(SettingsFields(xs))|;
    WireTwo(Num(0x4), Num(size));
    WireAppend([Num(0x4), Num(size)], SettingsFields(xs));
  }
}
