/** The HTTP/3 SETTINGS frame (section 7.2.4 of RFC 9114) and the length counter that drives its
    parser: the counter goes down by the minimal length of each setting, not by what was read. */
module Settings {
  import opened Varint
  import opened Reader

  const FRAME_SETTINGS: u62 := 0x04
  const UINT64: int := 0x1_0000_0000_0000_0000

  datatype Setting = Setting(key: u62, value: u62)

  const ZERO: Setting := Setting(0, 0)

  function Length(x: Setting): (n: nat)
    ensures 2 <= n <= 16
  {
    Len(x.key) + Len(x.value)
  }

  function EncodeSetting(x: Setting): (s: seq<byte>)
    ensures |s| == Length(x)
  {
    Encode(x.key) + Encode(x.value)
  }

  function EncodeSettings(xs: seq<Setting>): seq<byte> {
    if xs == [] then [] else EncodeSetting(xs[0]) + EncodeSettings(xs[1..])
  }

  function ParseSetting(s: seq<byte>): (r: Parsed<Setting>)
    ensures r.Ok? ==> |r.rest| < |s|
    ensures r.Err? ==> r == Err(Eof, [])
  {
    var (key, s) :- Read(s);
    var (value, s) :- Read(s);
    Ok(Setting(key, value), s)
  }

  // ----- writing

  function Declared(xs: seq<Setting>): nat {
    if xs == [] then 0 else Length(xs[0]) + Declared(xs[1..])
  }

  /** The declared length is the number of bytes that follow it. */
  lemma {:induction false} DeclaredIsEmitted(xs: seq<Setting>)
    ensures Declared(xs) == |EncodeSettings(xs)|
  {
    if xs != [] {
      DeclaredIsEmitted(xs[1..]);
    }
  }

  lemma {:induction false} EncodeSettingsAppend(xs: seq<Setting>, x: Setting)
    ensures EncodeSettings(xs + [x]) == EncodeSettings(xs) + EncodeSetting(x)
  {
    hide EncodeSetting;
    if xs == [] {
      assert xs + [x] == [x] && [x][1..] == [];
      assert EncodeSettings([x]) == EncodeSetting(x) + EncodeSettings([]);
    } else {
      assert (xs + [x])[1..] == xs[1..] + [x];
      EncodeSettingsAppend(xs[1..], x);
    }
  }

  function EncodeFrame(xs: seq<Setting>): seq<byte>
    requires Declared(xs) < LIMIT
  {
    Encode(FRAME_SETTINGS) + (Encode(Declared(xs)) + EncodeSettings(xs))
  }

  lemma {:induction false} DeclaredAppend(xs: seq<Setting>, x: Setting)
    ensures Declared(xs + [x]) == Declared(xs) + Length(x)
  {
    DeclaredIsEmitted(xs + [x]);
    DeclaredIsEmitted(xs);
    EncodeSettingsAppend(xs, x);
  }

  /** Two passes: one to add up the lengths, one to write. Append panics on a length over the limit. */
  method GetBytes(xs: seq<Setting>) returns (data: seq<byte>)
    requires Declared(xs) < LIMIT
    ensures data == EncodeFrame(xs)
  {
    hide Encode, EncodeSetting, Length;
    var length := 0;
    for i := 0 to |xs|
      invariant length == Declared(xs[..i])
    {
      assert xs[..i + 1] == xs[..i] + [xs[i]];
      DeclaredAppend(xs[..i], xs[i]);
      length := length + Length(xs[i]);
    }
    assert xs[..|xs|] == xs;
    data := Encode(FRAME_SETTINGS) + Encode(length);
    for i := 0 to |xs|
      invariant data == Encode(FRAME_SETTINGS) + (Encode(length) + EncodeSettings(xs[..i]))
    {
      assert xs[..i + 1] == xs[..i] + [xs[i]];
      EncodeSettingsAppend(xs[..i], xs[i]);
      data := data + EncodeSetting(xs[i]);
    }
  }

  // ----- the counter loop on any body

  /** dlength (a uint64), the unread part of the body, and the settings appended so far. */
  datatype Loop = Loop(counter: int, unread: seq<byte>, settings: seq<Setting>)

  /** One iteration. A setting that cannot be parsed is appended as zeros, its error ignored. */
  function Iterate(l: Loop): Loop {
    match ParseSetting(l.unread)
    case Ok(x, rest) => Loop((l.counter - Length(x)) % UINT64, rest, l.settings + [x])
    case Err(_, left) => Loop((l.counter - Length(ZERO)) % UINT64, left, l.settings + [ZERO])
  }

  /** At most n iterations of `for dlength > 0`. */
  function Iterations(l: Loop, n: nat): Loop
    decreases n
  {
    if n == 0 || l.counter == 0 then l else Iterations(Iterate(l), n - 1)
  }

  function Start(body: seq<byte>): Loop {
    Loop(|body|, body, [])
  }

  ghost predicate Terminates(l: Loop) {
    exists n :: Iterations(l, n).counter == 0
  }

  /** How far the counter is ahead of the input in the end: the bytes that non-minimal varints
      wasted, and the bytes of an incomplete last setting. */
  function Residue(body: seq<byte>): nat
    decreases |body|
  {
    match ParseSetting(body)
    case Err(_, _) => |body|
    case Ok(x, rest) =>
      ParsedLength(body);
      |body| - |rest| - Length(x) + Residue(rest)
  }

  function ParseList(body: seq<byte>): seq<Setting>
    decreases |body|
  {
    match ParseSetting(body)
    case Err(_, _) => []
    case Ok(x, rest) => [x] + ParseList(rest)
  }

  function ZeroSettings(n: nat): seq<Setting> {
    seq(n, _ => ZERO)
  }

  /** A setting never takes fewer bytes than its minimal form, and just as many only when minimal. */
  lemma ParsedLength(s: seq<byte>)
    requires ParseSetting(s).Ok?
    ensures var r := ParseSetting(s);
            |s| - |r.rest| >= Length(r.value) &&
            (|s| - |r.rest| == Length(r.value) <==> s == EncodeSetting(r.value) + r.rest)
  {
    hide Read, MinimalHead;
    var r := ParseSetting(s);
    var s1 := Read(s).rest;
    Rewrite(s);
    Rewrite(s1);
    assert EncodeSetting(r.value) + r.rest == Encode(r.value.key) + (Encode(r.value.value) + r.rest);
    ReadEncode(r.value.key, Encode(r.value.value) + r.rest);
  }

  /** Once nothing is left to read, the counter goes down two by two, past zero if it is odd. */
  lemma {:induction false} RunDown(counter: int, settings: seq<Setting>, n: nat)
    requires 0 <= counter < UINT64
    ensures counter % 2 == 1 ==> Iterations(Loop(counter, [], settings), n).counter != 0
    ensures counter == 2 * n ==> Iterations(Loop(counter, [], settings), n) == Loop(0, [], settings + ZeroSettings(n))
    decreases n
  {
    hide Read;
    NoSetting();
    if n == 0 {
      assert settings + ZeroSettings(0) == settings;
    } else if counter != 0 {
      var next := (counter - 2) % UINT64;
      RunDown(next, settings + [ZERO], n - 1);
      assert (settings + [ZERO]) + ZeroSettings(n - 1) == settings + ZeroSettings(n);
    }
  }

  lemma NoSetting()
    ensures ParseSetting([]) == Err(Eof, []) && Length(ZERO) == 2
  {
  }

  /** The loop from any point: ahead is by how much the counter exceeds the unread input. */
  lemma {:induction false} LoopEnds(ahead: nat, unread: seq<byte>, settings: seq<Setting>)
    requires |unread| + ahead < UINT64
    ensures var left := ahead + Residue(unread); var l := Loop(|unread| + ahead, unread, settings);
            && (left % 2 == 1 ==> forall n :: Iterations(l, n).counter != 0)
            && (left % 2 == 0 ==> Iterations(l, |ParseList(unread)| + left / 2)
                                  == Loop(0, [], settings + ParseList(unread) + ZeroSettings(left / 2)))
    decreases |unread|
  {
    hide ParseSetting, Length, Residue, ParseList;
    var l := Loop(|unread| + ahead, unread, settings);
    ListStep(unread);
    match ParseSetting(unread)
    case Err(_, _) =>
      NothingLeft(l);
    case Ok(x, rest) =>
      ParsedLength(unread);
      var ahead' := ahead + |unread| - |rest| - Length(x);
      var l' := Loop(|rest| + ahead', rest, settings + [x]);
      assert Iterate(l) == l';
      LoopEnds(ahead', rest, settings + [x]);
      forall n: nat | (ahead + Residue(unread)) % 2 == 1 ensures Iterations(l, n).counter != 0 {
        if n > 0 {
          assert Iterations(l, n) == Iterations(l', n - 1);
        }
      }
      assert (settings + [x]) + ParseList(rest) == settings + ParseList(unread);
  }

  lemma IterateStuck(l: Loop)
    requires ParseSetting(l.unread).Err?
    ensures Iterate(l) == Loop((l.counter - 2) % UINT64, [], l.settings + [ZERO])
  {
    hide Read;
    NoSetting();
  }

  lemma NothingLeft(l: Loop)
    requires 0 <= l.counter < UINT64 && ParseSetting(l.unread).Err? && |l.unread| <= l.counter
    ensures l.counter % 2 == 1 ==> forall n :: Iterations(l, n).counter != 0
    ensures l.counter % 2 == 0 ==> Iterations(l, l.counter / 2) == Loop(0, [], l.settings + [] + ZeroSettings(l.counter / 2))
  {
    hide ParseSetting, Iterate;
    IterateStuck(l);
    var next, settings := (l.counter - 2) % UINT64, l.settings + [ZERO];
    if l.counter % 2 == 1 {
      forall n: nat ensures Iterations(l, n).counter != 0 {
        if n > 0 {
          RunDown(next, settings, n - 1);
        }
      }
    } else if l.counter == 0 {
      assert l.unread == [] && l.settings + [] + ZeroSettings(0) == l.settings;
    } else {
      var n := l.counter / 2;
      RunDown(next, settings, n - 1);
      assert settings + ZeroSettings(n - 1) == l.settings + [] + ZeroSettings(n);
    }
  }

  /** For every body: the loop stops exactly when the residue is even, and then it has appended the
      settings it could parse and one zero setting for every two bytes of residue. */
  lemma LoopStopsIfEven(body: seq<byte>)
    requires |body| < LIMIT
    ensures Terminates(Start(body)) <==> Residue(body) % 2 == 0
    ensures Residue(body) % 2 == 0 ==>
              Iterations(Start(body), |ParseList(body)| + Residue(body) / 2)
              == Loop(0, [], ParseList(body) + ZeroSettings(Residue(body) / 2))
  {
    hide Read, Residue, ParseList, Iterations;
    LoopEnds(0, body, []);
    assert [] + ParseList(body) == ParseList(body);
  }

  /** The residue is zero exactly on minimally written settings, so only those are read faithfully. */
  lemma {:induction false} NoResidueIfMinimal(body: seq<byte>)
    ensures Residue(body) == 0 <==> body == EncodeSettings(ParseList(body))
    decreases |body|
  {
    hide Read, EncodeSetting, Length;
    match ParseSetting(body)
    case Err(_, _) =>
    case Ok(x, rest) =>
      ParsedLength(body);
      NoResidueIfMinimal(rest);
      var xs := ParseList(rest);
      assert ([x] + xs)[1..] == xs;
      assert EncodeSettings([x] + xs) == EncodeSetting(x) + EncodeSettings(xs);
      if body == EncodeSetting(x) + EncodeSettings(xs) {
        SettingRoundTrip(x, EncodeSettings(xs));
      }
  }

  lemma SettingRoundTrip(x: Setting, suffix: seq<byte>)
    ensures ParseSetting(EncodeSetting(x) + suffix) == Ok(x, suffix)
  {
    hide Read, Encode;
    assert EncodeSetting(x) + suffix == Encode(x.key) + (Encode(x.value) + suffix);
    ReadEncode(x.key, Encode(x.value) + suffix);
    ReadEncode(x.value, suffix);
  }

  /** On settings as GetBytes writes them the counter is the number of unread bytes at every
      iteration, never underflows, and reaches zero with the original list. */
  lemma {:induction false} CounterIsUnread(xs: seq<Setting>, done: seq<Setting>, n: nat)
    requires n <= |xs| && |EncodeSettings(xs)| < LIMIT
    ensures var body := EncodeSettings(xs[n..]);
            Iterations(Loop(|EncodeSettings(xs)|, EncodeSettings(xs), done), n) == Loop(|body|, body, done + xs[..n])
    decreases n
  {
    hide ParseSetting, EncodeSetting;
    var body := EncodeSettings(xs);
    if n == 0 {
      assert xs[0..] == xs && done + xs[..0] == done;
    } else {
      var tail := EncodeSettings(xs[1..]);
      SettingRoundTrip(xs[0], tail);
      assert Iterate(Loop(|body|, body, done)) == Loop(|tail|, tail, done + [xs[0]]);
      CounterIsUnread(xs[1..], done + [xs[0]], n - 1);
      assert xs[1..][n - 1..] == xs[n..];
      assert (done + [xs[0]]) + xs[1..][..n - 1] == done + xs[..n];
    }
  }

  lemma LoopRoundTrip(xs: seq<Setting>)
    requires Declared(xs) < LIMIT
    ensures Iterations(Start(EncodeSettings(xs)), |xs|) == Loop(0, [], xs)
  {
    hide Iterations;
    DeclaredIsEmitted(xs);
    CounterIsUnread(xs, [], |xs|);
    assert xs[|xs|..] == [] && [] + xs[..|xs|] == xs;
  }

  lemma {:induction false} ListRoundTrip(xs: seq<Setting>)
    ensures ParseList(EncodeSettings(xs)) == xs
  {
    hide EncodeSetting, ParseSetting;
    if xs == [] {
      NoSetting();
    } else {
      SettingRoundTrip(xs[0], EncodeSettings(xs[1..]));
      ListRoundTrip(xs[1..]);
    }
  }

  /** What follows the frame type: the length, then a body of that length, then the loop over it. */
  function ReadFrame(s: seq<byte>): Parsed<seq<Setting>> {
    var (body, s) :- ParseText(s);
    Ok(ParseList(body) + ZeroSettings(Residue(body) / 2), s)
  }

  /** Whatever follows the frame, GetBytes's output reads back: the frame type, then exactly the
      settings, the loop ending with its counter at zero; what followed is left. */
  lemma FrameRoundTrip(xs: seq<Setting>, suffix: seq<byte>)
    requires Declared(xs) < LIMIT
    ensures var r := Read(EncodeFrame(xs) + suffix);
            r.Ok? && r.value == FRAME_SETTINGS && ReadFrame(r.rest) == Ok(xs, suffix)
    ensures Residue(EncodeSettings(xs)) == 0 && Iterations(Start(EncodeSettings(xs)), |xs|) == Loop(0, [], xs)
  {
    hide Read, EncodeFrame, EncodeText, EncodeSettings, ParseList, Residue, Iterations, ParseText, ReadFrame;
    var body := EncodeSettings(xs);
    FrameIsText(xs, suffix);
    ReadEncode(FRAME_SETTINGS, EncodeText(body) + suffix);
    TextRoundTrip(body, suffix);
    ListRoundTrip(xs);
    NoResidueIfMinimal(body);
    ReadMinimal(EncodeText(body) + suffix);
    LoopRoundTrip(xs);
  }

  /** Without residue no zero setting is added. */
  lemma ReadMinimal(s: seq<byte>)
    requires ParseText(s).Ok? && Residue(ParseText(s).value) == 0
    ensures ReadFrame(s) == Ok(ParseList(ParseText(s).value), ParseText(s).rest)
  {
    hide ParseText, ParseList, Residue, ZeroSettings;
    NoZeros();
    var xs := ParseList(ParseText(s).value);
    assert xs + [] == xs;
  }

  lemma FrameIsText(xs: seq<Setting>, suffix: seq<byte>)
    requires Declared(xs) < LIMIT
    ensures |EncodeSettings(xs)| < LIMIT
    ensures EncodeFrame(xs) + suffix == Encode(FRAME_SETTINGS) + (EncodeText(EncodeSettings(xs)) + suffix)
  {
    hide Encode, EncodeSettings;
    DeclaredIsEmitted(xs);
  }

  /** Bodies on which the source loops forever: a zero key in two bytes and a zero value in one. */
  lemma SomeBodyNeverEnds()
    ensures !Terminates(Start([0x40, 0x00, 0x00]))
  {
    var body: seq<byte> := [0x40, 0x00, 0x00];
    assert EncodeIn(0, 2) == [0x40, 0x00] && Encode(0) == [0x00] by {
      assert BigEndian(0x4000, 2) == BigEndian(0x40, 1) + [0x00];
      assert BigEndian(0x40, 1) == BigEndian(0, 0) + [0x40];
      assert BigEndian(0, 1) == BigEndian(0, 0) + [0x00];
    }
    assert body == EncodeIn(0, 2) + [0x00] && [0x00] == Encode(0) + [];
    ReadEncodeIn(0, 2, [0x00]);
    ReadEncode(0, []);
    NoSetting();
    assert ParseSetting(body) == Ok(ZERO, []);
    assert Residue([]) == 0;
    assert Residue(body) == 1;
    LoopStopsIfEven(body);
  }

  /** The Parse method, where it returns: the body's residue must be even. */
  method Parse(reader: ByteReader) returns (settings: seq<Setting>, err: Option<Error>)
    requires match ParseText(reader.data)
             case Ok(body, _) => Residue(body) % 2 == 0
             case Err(_, _) => true
    modifies reader
    ensures match ReadFrame(old(reader.data))
            case Ok(xs, rest) => err == None && reader.data == rest && settings == xs
            case Err(e, left) => err == Some(e) && reader.data == left && settings == []
  {
    hide Read, ParseText, Length;
    settings := [];
    var body, e := reader.ReadText();
    if e != None {
      return settings, e;
    }
    settings := CountDown(body);
    err := None;
  }

  method CountDown(body: Text) returns (settings: seq<Setting>)
    requires Residue(body) % 2 == 0
    ensures settings == ParseList(body) + ZeroSettings(Residue(body) / 2)
  {
    hide Read, Residue, ParseList, ParseSetting, ZeroSettings;
    settings := [];
    var dlength, unread := |body|, body;
    ghost var ahead := 0;
    ghost var all := ParseList(body) + ZeroSettings(Residue(body) / 2);
    while dlength > 0
      invariant ahead >= 0 && dlength == |unread| + ahead && (ahead + Residue(unread)) % 2 == 0
      invariant settings + ParseList(unread) + ZeroSettings((ahead + Residue(unread)) / 2) == all
      decreases dlength
    {
      NoSetting();
      ListStep(unread);
      match ParseSetting(unread) {
        case Ok(x, rest) =>
          ParsedLength(unread);
          assert settings + ([x] + ParseList(rest)) == (settings + [x]) + ParseList(rest);
          ahead := ahead + |unread| - |rest| - Length(x);
          settings, unread, dlength := settings + [x], rest, dlength - Length(x);
        case Err(_, left) =>
          ListStep([]);
          OneZero(settings, dlength / 2);
          ahead := dlength - 2;
          settings, unread, dlength := settings + [ZERO], left, dlength - Length(ZERO);
      }
    }
    NoSetting();
    ListStep([]);
    assert ZeroSettings(0) == [] by {
      NoZeros();
    }
    assert settings + [] + [] == settings;
  }

  lemma NoZeros()
    ensures ZeroSettings(0) == []
  {
  }

  lemma OneZero(settings: seq<Setting>, n: nat)
    requires n > 0
    ensures settings + [] + ZeroSettings(n) == (settings + [ZERO]) + [] + ZeroSettings(n - 1)
  {
  }

  lemma ListStep(s: seq<byte>)
    ensures match ParseSetting(s)
            case Ok(x, rest) =>
              ParseList(s) == [x] + ParseList(rest) && Residue(s) == |s| - |rest| - Length(x) + Residue(rest)
            case Err(_, _) => ParseList(s) == [] && Residue(s) == |s|
  {
    hide Read, Length;
  }
}
