/** QUIC variable-length integers (section 16 of RFC 9000), as the quicvarint library reads and
    appends them, and the result type of every parser in the project. */
module Varint {

  type byte = x: int | 0 <= x < 256

  const LIMIT: int := 0x4000_0000_0000_0000

  /** The values a varint can carry; quicvarint.Append panics on anything larger. */
  type u62 = x: int | 0 <= x < LIMIT

  /** A Go string or byte slice whose length fits a varint. */
  type Text = s: seq<byte> | |s| < LIMIT

  datatype Error = Eof | UnknownHeader(htype: u62) | UnknownMessage(mtype: u62) | UnknownParam

  /** A parser's outcome: the value and the unread input, or the error and where the reader then stands.
      An end-of-file error has consumed everything. */
  datatype Parsed<+T> = Ok(value: T, rest: seq<byte>) | Err(error: Error, left: seq<byte>) {
    predicate IsFailure() {
      Err?
    }

    function PropagateFailure<U>(): Parsed<U>
      requires Err?
    {
      Err(error, left)
    }

    function Extract(): (T, seq<byte>)
      requires Ok?
    {
      (value, rest)
    }
  }

  // ----- big-endian numbers

  function Power(n: nat): (p: nat)
    ensures p > 0
  {
    if n == 0 then 1 else 256 * Power(n - 1)
  }

  function BigEndian(v: nat, n: nat): (s: seq<byte>)
    ensures |s| == n
  {
    if n == 0 then [] else BigEndian(v / 256, n - 1) + [v % 256]
  }

  function Number(s: seq<byte>): (v: nat)
  {
    if s == [] then 0 else 256 * Number(s[..|s| - 1]) + s[|s| - 1]
  }

  lemma {:induction false} NumberOfBigEndian(v: nat, n: nat)
    requires v < Power(n)
    ensures Number(BigEndian(v, n)) == v
  {
    if n != 0 {
      assert v == 256 * (v / 256) + v % 256 && v / 256 < Power(n - 1);
      NumberOfBigEndian(v / 256, n - 1);
      assert BigEndian(v, n)[..n - 1] == BigEndian(v / 256, n - 1);
    }
  }

  lemma {:induction false} BigEndianOfNumber(s: seq<byte>)
    ensures BigEndian(Number(s), |s|) == s && Number(s) < Power(|s|)
  {
    if s != [] {
      var front := s[..|s| - 1];
      BigEndianOfNumber(front);
      assert Number(s) / 256 == Number(front) && Number(s) % 256 == s[|s| - 1];
    }
  }

  lemma Shift(h: nat, p: nat, m: nat, low: byte)
    requires h * p <= m < h * p + p
    ensures h * (256 * p) <= 256 * m + low < h * (256 * p) + 256 * p
  {
    assert h * (256 * p) == 256 * (h * p);
  }

  /** The first byte of a number decides which multiple of Power(n - 1) it starts from. */
  lemma {:induction false} HeadBounds(s: seq<byte>)
    requires s != []
    ensures var p := Power(|s| - 1); s[0] * p <= Number(s) < s[0] * p + p
  {
    var front := s[..|s| - 1];
    if front != [] {
      HeadBounds(front);
      assert front[0] == s[0];
      Shift(s[0], Power(|front| - 1), Number(front), s[|s| - 1]);
    } else {
      assert Number(front) == 0 && Power(0) == 1;
    }
  }

  lemma Powers()
    ensures Power(0) == 1 && Power(1) == 0x100 && Power(2) == 0x1_0000
    ensures Power(3) == 0x100_0000 && Power(4) == 0x1_0000_0000
    ensures Power(7) == 0x100_0000_0000_0000 && Power(8) == 0x1_0000_0000_0000_0000
  {
    assert Power(1) == 256 * Power(0);
    assert Power(2) == 256 * Power(1);
    assert Power(3) == 256 * Power(2);
    assert Power(4) == 256 * Power(3);
    assert Power(5) == 256 * Power(4);
    assert Power(6) == 256 * Power(5);
    assert Power(7) == 256 * Power(6);
    assert Power(8) == 256 * Power(7);
  }

  // ----- varints

  /** A varint takes one, two, four or eight bytes. */
  type Width = n: int | n == 1 || n == 2 || n == 4 || n == 8 witness 1

  /** How many values a width can carry. */
  function Capacity(n: Width): int {
    if n == 1 then 0x40 else if n == 2 then 0x4000 else if n == 4 then 0x4000_0000 else LIMIT
  }

  /** The two length bits, in place at the top of an n-byte number. */
  function Mark(n: Width): int {
    if n == 1 then 0 else if n == 2 then 0x4000 else if n == 4 then 0x8000_0000 else 0xC000_0000_0000_0000
  }

  /** The width announced by the first byte's two length bits. */
  function WidthOf(first: byte): Width {
    if first < 64 then 1 else if first < 128 then 2 else if first < 192 then 4 else 8
  }

  /** quicvarint.Len: the smallest width that can carry v. */
  function Len(v: u62): (n: Width)
    ensures v < Capacity(n)
    ensures forall m: Width :: v < Capacity(m) ==> n <= m
  {
    if v < 0x40 then 1 else if v < 0x4000 then 2 else if v < 0x4000_0000 then 4 else 8
  }

  function EncodeIn(v: u62, n: Width): (s: seq<byte>)
    requires v < Capacity(n)
    ensures |s| == n
  {
    BigEndian(v + Mark(n), n)
  }

  /** quicvarint.Append writes the minimal form. */
  function Encode(v: u62): (s: seq<byte>)
    ensures |s| == Len(v)
  {
    EncodeIn(v, Len(v))
  }

  lemma MarkedRange(s: seq<byte>)
    requires s != [] && |s| == WidthOf(s[0])
    ensures Mark(|s|) <= Number(s) < Mark(|s|) + Capacity(|s|)
  {
    HeadBounds(s);
    Powers();
  }

  /** quicvarint.Read: input that stops inside a varint is an end-of-file error. */
  function Read(s: seq<byte>): (r: Parsed<u62>)
    ensures r.Ok? ==> |r.rest| < |s|
    ensures r.Err? ==> r == Err(Eof, [])
  {
    if s == [] || |s| < WidthOf(s[0]) then Err(Eof, [])
    else
      var n := WidthOf(s[0]);
      assert s[..n][0] == s[0];
      MarkedRange(s[..n]);
      Ok(Number(s[..n]) - Mark(n), s[n..])
  }

  lemma MarkedHead(v: u62, n: Width)
    requires v < Capacity(n)
    ensures WidthOf(EncodeIn(v, n)[0]) == n
    ensures Number(EncodeIn(v, n)) == v + Mark(n)
  {
    Powers();
    NumberOfBigEndian(v + Mark(n), n);
    HeadBounds(EncodeIn(v, n));
  }

  /** Every width of a value reads back as that value, and leaves what followed it. */
  lemma ReadEncodeIn(v: u62, n: Width, suffix: seq<byte>)
    requires v < Capacity(n)
    ensures Read(EncodeIn(v, n) + suffix) == Ok(v, suffix)
  {
    MarkedHead(v, n);
    var s := EncodeIn(v, n) + suffix;
    assert s[0] == EncodeIn(v, n)[0];
    assert s[..n] == EncodeIn(v, n);
    assert s[n..] == suffix;
  }

  lemma ReadEncode(v: u62, suffix: seq<byte>)
    ensures Read(Encode(v) + suffix) == Ok(v, suffix)
  {
    ReadEncodeIn(v, Len(v), suffix);
  }

  /** Section 16 of RFC 9000 in numbers: the two top bits of the first byte are 0, 1, 2 or 3 for one,
      two, four or eight bytes, and the remaining bits are the value, most significant first. */
  lemma VarintBytes(v: u62)
    ensures var s: seq<int> := Encode(v);
            && (v < 64 ==> s == [v])
            && (64 <= v < 16384 ==> |s| == 2 && s[0] / 64 == 1 && v == (s[0] % 64) * 256 + s[1])
            && (16384 <= v < 1073741824 ==>
                  |s| == 4 && s[0] / 64 == 2 && v == (((s[0] % 64) * 256 + s[1]) * 256 + s[2]) * 256 + s[3])
            && (1073741824 <= v ==>
                  && |s| == 8 && s[0] / 64 == 3
                  && v == ((((((((s[0] % 64) * 256 + s[1]) * 256 + s[2]) * 256 + s[3]) * 256
                             + s[4]) * 256 + s[5]) * 256 + s[6]) * 256 + s[7]))
  {
    var s := Encode(v);
    MarkedHead(v, Len(v));
    NumberUnrolled(s);
  }

  lemma NumberUnrolled(s: seq<byte>)
    ensures var d: seq<int> := s;
            && (|s| == 1 ==> Number(s) == d[0])
            && (|s| == 2 ==> Number(s) == d[0] * 256 + d[1])
            && (|s| == 4 ==> Number(s) == ((d[0] * 256 + d[1]) * 256 + d[2]) * 256 + d[3])
            && (|s| == 8 ==> Number(s) == ((((((d[0] * 256 + d[1]) * 256 + d[2]) * 256 + d[3]) * 256
                                             + d[4]) * 256 + d[5]) * 256 + d[6]) * 256 + d[7])
  {
    assert forall k :: 0 < k <= |s| ==> Number(s[..k]) == 256 * Number(s[..k - 1]) + s[k - 1] by {
      forall k | 0 < k <= |s| ensures Number(s[..k]) == 256 * Number(s[..k - 1]) + s[k - 1] {
        assert s[..k][..k - 1] == s[..k - 1];
      }
    }
    assert s[..|s|] == s;
    assert Number(s[..0]) == 0;
  }

  /** Bytes that stop before, or after, the end of a varint. */
  lemma ReadCut(v: u62, rest: seq<byte>, room: nat)
    requires room <= Len(v) + |rest|
    ensures Read((Encode(v) + rest)[..room]) == if room < Len(v) then Err(Eof, []) else Ok(v, rest[..room - Len(v)])
  {
    var s := (Encode(v) + rest)[..room];
    if room < Len(v) {
      MarkedHead(v, Len(v));
      assert s != [] ==> s[0] == Encode(v)[0];
    } else {
      assert s == Encode(v) + rest[..room - Len(v)];
      ReadEncode(v, rest[..room - Len(v)]);
    }
  }

  /** What Read accepts is exactly an encoding of its value in the announced width. */
  lemma ReadInverse(s: seq<byte>)
    requires Read(s).Ok?
    ensures var r := Read(s); var n := WidthOf(s[0]);
            r.value < Capacity(n) && s == EncodeIn(r.value, n) + r.rest
  {
    var n := WidthOf(s[0]);
    assert s[..n][0] == s[0];
    MarkedRange(s[..n]);
    BigEndianOfNumber(s[..n]);
    assert s == s[..n] + s[n..];
  }

  /** True when the varint at the head of s is written in its shortest form. */
  predicate MinimalHead(s: seq<byte>)
    requires Read(s).Ok?
  {
    WidthOf(s[0]) == Len(Read(s).value)
  }

  /** Writing the value back reproduces the input exactly when the input was minimal. */
  lemma Rewrite(s: seq<byte>)
    requires Read(s).Ok?
    ensures var r := Read(s);
            |s| >= |Encode(r.value)| + |r.rest| &&
            (s == Encode(r.value) + r.rest <==> MinimalHead(s)) &&
            (|s| == |Encode(r.value)| + |r.rest| <==> MinimalHead(s))
  {
    ReadInverse(s);
  }
}
