/** Setup and request parameters: a map that the source walks in an unspecified order. */
module Parameters {
  import opened Varint
  import opened Reader

  const ROLE_PARAM: u62 := 0x00
  const ROLE_PATH: u62 := 0x01

  datatype Parameter =
    | IntParameter(ptype: u62, number: u62)
    | StringParameter(ptype: u62, text: Text)

  type Params = map<u62, Parameter>

  function EncodeParameter(p: Parameter): seq<byte> {
    match p
    case IntParameter(t, v) => Encode(t) + (Encode(Len(v)) + Encode(v))
    case StringParameter(t, v) => Encode(t) + EncodeText(v)
  }

  /** One entry; the length in front of an integer is read and ignored, and an unknown type
      has its value skipped before the error is reported. */
  function ParseParameter(s: seq<byte>): (r: Parsed<Parameter>)
    ensures r.Ok? ==> |r.rest| < |s| && Entry(r.value.ptype, r.value)
    ensures r.Err? ==> |r.left| <= |s|
  {
    var (ptype, s) :- Read(s);
    if ptype == ROLE_PARAM then
      var (_, s) :- Read(s);
      var (v, s) :- Read(s);
      Ok(IntParameter(ptype, v), s)
    else if ptype == ROLE_PATH then
      var (v, s) :- ParseText(s);
      Ok(StringParameter(ptype, v), s)
    else
      var (n, s) :- Read(s);
      Err(UnknownParam, if n <= |s| then s[n..] else [])
  }

  /** The map filled so far, the unread input, and the error that stopped the loop, if any. */
  datatype ParamsRead = ParamsRead(params: Params, rest: seq<byte>, error: Option<Error>)

  function ParseEntries(count: nat, s: seq<byte>, filled: Params): ParamsRead {
    if count == 0 then ParamsRead(filled, s, None)
    else
      match ParseParameter(s)
      case Ok(p, rest) => ParseEntries(count - 1, rest, filled[p.ptype := p])
      case Err(e, left) => ParamsRead(filled, left, Some(e))
  }

  function ParseParams(s: seq<byte>): ParamsRead {
    match Read(s)
    case Ok(count, rest) => ParseEntries(count, rest, map[])
    case Err(e, left) => ParamsRead(map[], left, Some(e))
  }

  /** The Parse loop, filling the map in place. */
  method Parse(reader: ByteReader) returns (params: Params, err: Option<Error>)
    modifies reader
    ensures ParamsRead(params, reader.data, err) == ParseParams(old(reader.data))
  {
    hide Read, ParseText;
    params := map[];
    var count, e := reader.ReadVarint();
    if e != None {
      return params, e;
    }
    ghost var all := ParseParams(old(reader.data));
    for i := 0 to count
      invariant ParseEntries(count - i, reader.data, params) == all
    {
      var ptype, e := reader.ReadVarint();
      if e != None {
        return params, e;
      }
      if ptype == ROLE_PARAM {
        var _, e := reader.ReadVarint();
        if e != None {
          return params, e;
        }
        var v, e' := reader.ReadVarint();
        if e' != None {
          return params, e';
        }
        params := params[ptype := IntParameter(ptype, v)];
      } else if ptype == ROLE_PATH {
        var t, e := reader.ReadText();
        if e != None {
          return params, e;
        }
        params := params[ptype := StringParameter(ptype, t)];
      } else {
        var n, e := reader.ReadVarint();
        if e != None {
          return params, e;
        }
        reader.Discard(n);
        return params, Some(UnknownParam);
      }
    }
    err := None;
  }

  // ----- writing in any order

  ghost predicate IsOrder(order: seq<u62>, params: Params) {
    && (forall i, j :: 0 <= i < j < |order| ==> order[i] != order[j])
    && (forall k :: k in order <==> k in params)
  }

  function EncodeEntries(params: Params, order: seq<u62>): seq<byte>
    requires forall k :: k in order ==> k in params
  {
    if order == [] then [] else EncodeParameter(params[order[0]]) + EncodeEntries(params, order[1..])
  }

  function EncodeParams(params: Params, order: seq<u62>): seq<byte>
    requires |params| < LIMIT
    requires forall k :: k in order ==> k in params
  {
    Encode(|params|) + EncodeEntries(params, order)
  }

  lemma {:induction false} OrderLength(order: seq<u62>, params: Params)
    requires IsOrder(order, params)
    ensures |order| == |params|
  {
    if order == [] {
      assert params.Keys == {};
    } else {
      var k := order[0];
      var smaller := params - {k};
      assert IsOrder(order[1..], smaller) by {
        forall x ensures x in order[1..] <==> x in smaller {
          if x in smaller {
            var i :| 0 <= i < |order| && order[i] == x;
            assert order[1..][i - 1] == x;
          }
        }
      }
      OrderLength(order[1..], smaller);
      assert smaller.Keys == params.Keys - {k};
      assert |smaller.Keys| == |smaller| && |params.Keys| == |params|;
    }
  }

  lemma {:induction false} EncodeEntriesAppend(params: Params, order: seq<u62>, k: u62)
    requires k in params && forall x :: x in order ==> x in params
    ensures EncodeEntries(params, order + [k]) == EncodeEntries(params, order) + EncodeParameter(params[k])
  {
    hide EncodeParameter;
    if order == [] {
      assert order + [k] == [k];
      assert EncodeEntries(params, [k]) == EncodeParameter(params[k]) + EncodeEntries(params, []);
    } else {
      assert (order + [k])[1..] == order[1..] + [k];
      EncodeEntriesAppend(params, order[1..], k);
    }
  }

  /** The GetBytes loop: the map's iteration order is chosen step by step. */
  method GetBytes(params: Params) returns (data: seq<byte>)
    requires |params| < LIMIT
    ensures exists order :: IsOrder(order, params) && data == EncodeParams(params, order)
  {
    hide Encode, EncodeParameter;
    data := Encode(|params|);
    ghost var order: seq<u62> := [];
    var todo := params.Keys;
    while todo != {}
      invariant todo <= params.Keys
      invariant forall i, j :: 0 <= i < j < |order| ==> order[i] != order[j]
      invariant forall k :: k in order <==> k in params && k !in todo
      invariant data == EncodeParams(params, order)
      decreases todo
    {
      var k :| k in todo;
      EncodeEntriesAppend(params, order, k);
      data := data + EncodeParameter(params[k]);
      order, todo := order + [k], todo - {k};
    }
    assert IsOrder(order, params);
  }

  // ----- round trip

  /** What Parse can store under a key: the role as an integer, the path as a string. */
  predicate Entry(k: u62, p: Parameter) {
    p.ptype == k && ((k == ROLE_PARAM && p.IntParameter?) || (k == ROLE_PATH && p.StringParameter?))
  }

  predicate Canonical(params: Params) {
    forall k :: k in params ==> Entry(k, params[k])
  }

  lemma ParameterRoundTrip(p: Parameter, suffix: seq<byte>)
    requires Entry(p.ptype, p)
    ensures ParseParameter(EncodeParameter(p) + suffix) == Ok(p, suffix)
  {
    match p {
      case IntParameter(t, v) =>
        var s1 := Encode(v) + suffix;
        var s2 := Encode(Len(v)) + s1;
        assert EncodeParameter(p) + suffix == Encode(t) + s2;
        ReadEncode(t, s2);
        ReadEncode(Len(v), s1);
        ReadEncode(v, suffix);
      case StringParameter(t, v) =>
        assert EncodeParameter(p) + suffix == Encode(t) + (EncodeText(v) + suffix);
        ReadEncode(t, EncodeText(v) + suffix);
        TextRoundTrip(v, suffix);
    }
  }

  /** The length in front of every value is that of the value, so a reader that does not know the type
      steps over exactly this entry. */
  lemma ParameterLength(p: Parameter, suffix: seq<byte>)
    ensures var r := Read(EncodeParameter(p) + suffix);
            && r.Ok? && r.value == p.ptype
            && ParseText(r.rest) == Ok(if p.IntParameter? then Encode(p.number) else p.text, suffix)
  {
    hide Read, Encode, ParseText;
    var value := if p.IntParameter? then Encode(p.number) else p.text;
    assert EncodeParameter(p) + suffix == Encode(p.ptype) + (EncodeText(value) + suffix);
    ReadEncode(p.ptype, EncodeText(value) + suffix);
    TextRoundTrip(value, suffix);
  }

  ghost function Chosen(params: Params, order: seq<u62>): Params
    requires forall k :: k in order ==> k in params
  {
    map k | k in order :: params[k]
  }

  /** Entries of known kinds are taken in, and the loop goes on behind them. */
  lemma {:induction false} EntriesRoundTrip(params: Params, order: seq<u62>, filled: Params, more: nat, suffix: seq<byte>)
    requires Canonical(params) && forall k :: k in order ==> k in params
    ensures ParseEntries(|order| + more, EncodeEntries(params, order) + suffix, filled)
         == ParseEntries(more, suffix, filled + Chosen(params, order))
    decreases |order|
  {
    hide Read, ParseParameter, EncodeParameter, Chosen;
    if order == [] {
      ChosenNothing(params, filled);
      assert [] + suffix == suffix && filled + Chosen(params, order) == filled;
    } else {
      var p := params[order[0]];
      assert Entry(order[0], p);
      var tail := EncodeEntries(params, order[1..]) + suffix;
      assert EncodeEntries(params, order) + suffix == EncodeParameter(p) + tail;
      ParameterRoundTrip(p, tail);
      var filled' := filled[p.ptype := p];
      EntriesRoundTrip(params, order[1..], filled', more, suffix);
      ChosenFirst(params, order, filled);
    }
  }

  lemma ChosenNothing(params: Params, filled: Params)
    ensures filled + Chosen(params, []) == filled
  {
  }

  lemma ChosenFirst(params: Params, order: seq<u62>, filled: Params)
    requires order != [] && forall k :: k in order ==> k in params
    ensures filled[order[0] := params[order[0]]] + Chosen(params, order[1..]) == filled + Chosen(params, order)
  {
    assert order == [order[0]] + order[1..];
  }

  /** Whatever order the writer's map iteration took, the reader rebuilds the same map. */
  lemma ParamsRoundTrip(params: Params, order: seq<u62>, suffix: seq<byte>)
    requires Canonical(params) && IsOrder(order, params) && |params| < LIMIT
    ensures ParseParams(EncodeParams(params, order) + suffix) == ParamsRead(params, suffix, None)
  {
    hide Read, Encode, ParseParameter, EncodeParameter;
    OrderLength(order, params);
    var body := EncodeEntries(params, order) + suffix;
    assert EncodeParams(params, order) + suffix == Encode(|params|) + body;
    ReadEncode(|params|, body);
    EntriesRoundTrip(params, order, map[], 0, suffix);
    assert map[] + Chosen(params, order) == params;
  }

  /** An entry of another type than role (0) and path (1) is stepped over and ends the loop with an
      error, whatever it holds; the entries before it are kept and what follows it is left. */
  lemma UnknownEntryStops(params: Params, order: seq<u62>, p: Parameter, more: nat, suffix: seq<byte>)
    requires Canonical(params) && IsOrder(order, params) && p.ptype != 0 && p.ptype != 1
    ensures ParseEntries(|order| + 1 + more, EncodeEntries(params, order) + (EncodeParameter(p) + suffix), map[])
         == ParamsRead(params, suffix, Some(UnknownParam))
  {
    hide Read, Encode, EncodeEntries, EncodeParameter;
    EntriesRoundTrip(params, order, map[], 1 + more, EncodeParameter(p) + suffix);
    assert map[] + Chosen(params, order) == params;
    ParameterLength(p, suffix);
  }

  lemma {:induction false} EntriesCanonical(count: nat, s: seq<byte>, filled: Params)
    requires Canonical(filled)
    ensures var r := ParseEntries(count, s, filled); Canonical(r.params) && |r.rest| <= |s|
  {
    hide Read, Number, ParseParameter;
    if count != 0 {
      match ParseParameter(s)
      case Ok(p, rest) => EntriesCanonical(count - 1, rest, filled[p.ptype := p]);
      case Err(_, _) =>
    }
  }

  /** Parsing can only build canonical maps, so no other map survives a round trip. */
  lemma ParseCanonical(s: seq<byte>)
    ensures Canonical(ParseParams(s).params) && |ParseParams(s).rest| <= |s|
  {
    match Read(s)
    case Ok(count, rest) => EntriesCanonical(count, rest, map[]);
    case Err(_, _) =>
  }

  /** The search over values for an entry of the given type. */
  method GetParameter(params: Params, key: u62) returns (found: Option<Parameter>)
    ensures found.Some? ==> found.value in params.Values && found.value.ptype == key
    ensures found.None? ==> forall k :: k in params ==> params[k].ptype != key
    ensures Canonical(params) ==> found == Lookup(params, key)
  {
    var todo := params.Keys;
    while todo != {}
      invariant todo <= params.Keys
      invariant forall k :: k in params && k !in todo ==> params[k].ptype != key
      decreases todo
    {
      var k :| k in todo;
      if params[k].ptype == key {
        return Some(params[k]);
      }
      todo := todo - {k};
    }
    found := None;
  }

  function Lookup(params: Params, key: u62): Option<Parameter> {
    if key in params then Some(params[key]) else None
  }
}
