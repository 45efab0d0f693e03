/** The quicvarint.Reader that every Parse method of the source draws from. */
module Reader {
  import opened Varint

  datatype Option<+T> = None | Some(value: T)

  /** A length-prefixed string: ParseVarIntString and GetBytesVarIntString. */
  function ParseText(s: seq<byte>): (r: Parsed<Text>)
    ensures r.Ok? ==> |r.rest| < |s|
    ensures r.Err? ==> r == Err(Eof, [])
  {
    var (n, s) :- Read(s);
    if |s| < n then Err(Eof, []) else Ok(s[..n], s[n..])
  }

  function EncodeText(t: Text): seq<byte> {
    Encode(|t|) + t
  }

  lemma TextRoundTrip(t: Text, suffix: seq<byte>)
    ensures ParseText(EncodeText(t) + suffix) == Ok(t, suffix)
  {
    ReadEncode(|t|, t + suffix);
    assert EncodeText(t) + suffix == Encode(|t|) + (t + suffix);
    assert (t + suffix)[..|t|] == t && (t + suffix)[|t|..] == suffix;
  }

  class ByteReader {
    var data: seq<byte>

    constructor (input: seq<byte>)
      ensures data == input
    {
      data := input;
    }

    /** Reads one varint; a failed read leaves nothing behind. */
    method ReadVarint() returns (v: u62, err: Option<Error>)
      modifies this
      ensures match Read(old(data))
              case Ok(x, rest) => v == x && err == None && data == rest
              case Err(e, left) => v == 0 && err == Some(e) && data == left
    {
      match Read(data) {
        case Ok(x, rest) =>
          v, err, data := x, None, rest;
        case Err(e, left) =>
          v, err, data := 0, Some(e), left;
      }
    }

    method ReadText() returns (t: Text, err: Option<Error>)
      modifies this
      ensures match ParseText(old(data))
              case Ok(x, rest) => t == x && err == None && data == rest
              case Err(e, left) => t == [] && err == Some(e) && data == left
    {
      var n, e := ReadVarint();
      t, err := [], e;
      if e == None {
        if |data| < n {
          err, data := Some(Eof), [];
        } else {
          t, data := data[..n], data[n..];
        }
      }
    }

    /** io.ReadFull into a scratch buffer whose contents are dropped. */
    method Discard(n: nat)
      modifies this
      ensures data == if n <= |old(data)| then old(data)[n..] else []
    {
      data := if n <= |data| then data[n..] else [];
    }
  }
}
