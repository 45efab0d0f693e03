/** The shared object log of a GroupStream or TrackStream: one reader appends, any number of
    subscribers copy it out with cursors of their own. */
module ObjectLog {
  import opened Varint
  import opened Reader
  import opened Streams

  datatype ReadOutcome = Got(groupId: u62, obj: Object) | EndOfStream | Failed | NoReader

  /** What the locked part of Pipe copies out for a cursor. */
  function Unsent(kind: Kind, log: seq<Object>, cursor: nat): seq<byte>
    requires cursor <= |log|
  {
    EncodeItems(kind, log[cursor..])
  }

  lemma {:induction false} EncodeItemsAppend(kind: Kind, os: seq<Object>, more: seq<Object>)
    ensures EncodeItems(kind, os + more) == EncodeItems(kind, os) + EncodeItems(kind, more)
  {
    hide EncodeItem;
    if os == [] {
      assert os + more == more;
    } else {
      assert (os + more)[1..] == os[1..] + more;
      EncodeItemsAppend(kind, os[1..], more);
    }
  }

  lemma EncodeOne(kind: Kind, o: Object)
    ensures EncodeItems(kind, [o]) == EncodeItem(kind, o)
  {
    hide EncodeItem;
    assert EncodeItems(kind, [o]) == EncodeItem(kind, o) + EncodeItems(kind, []);
  }

  class ObjectStream {
    const header: Header
    var objects: seq<Object>
    var isEof: bool
    var reader: ByteReader?

    constructor (header: Header, reader: ByteReader?)
      ensures this.header == header && this.reader == reader && objects == [] && !isEof
    {
      this.header, this.reader, objects, isEof := header, reader, [], false;
    }

    method WriteObject(obj: Object)
      modifies this`objects
      ensures objects == old(objects) + [obj]
    {
      objects := objects + [obj];
    }

    method Close()
      modifies this`isEof
      ensures isEof
    {
      isEof := true;
    }

    method EndFor(broken: bool) returns (r: ReadOutcome)
      modifies this`isEof
      ensures if broken then r == Failed && isEof == old(isEof) else r == EndOfStream && isEof
    {
      if broken {
        return Failed;
      }
      Close();
      r := EndOfStream;
    }

    /** Parses one object and appends it; the end of the input closes the log instead. When the input
        is broken, a connection error stands at its end, and the log stays open. */
    method ReadObject(broken: bool) returns (r: ReadOutcome)
      modifies this`objects, this`isEof, reader
      ensures old(reader) == null ==> r == NoReader && objects == old(objects) && isEof == old(isEof)
      ensures old(reader) != null ==>
                match ParseItem(header.Kind(), old(reader.data))
                case Ok(o, rest) =>
                  && r == Got(if header.GroupHeader? then header.groupId else o.groupId, o)
                  && objects == old(objects) + [o] && isEof == old(isEof) && reader.data == rest
                case Err(_, _) =>
                  && objects == old(objects) && reader.data == []
                  && (if broken then r == Failed && isEof == old(isEof) else r == EndOfStream && isEof)
    {
      if reader == null {
        return NoReader;
      }
      var groupId: u62 := 0;
      if header.Kind() == Track {
        var g, e := reader.ReadVarint();
        if e != None {
          r := EndFor(broken);
          return;
        }
        groupId := g;
      }
      match ParseObject(reader.data) {
        case Err(_, left) =>
          reader.data := left;
          r := EndFor(broken);
          return;
        case Ok(o, rest) =>
          reader.data := rest;
          var obj := o.(groupId := groupId);
          WriteObject(obj);
          return Got(if header.GroupHeader? then header.groupId else groupId, obj);
      }
    }

    /** The locked part of Pipe: everything logged from the cursor on, as one write. */
    method Collect(index: nat) returns (next: nat, data: seq<byte>)
      ensures index <= |objects| ==> next == |objects| && data == Unsent(header.Kind(), objects, index)
      ensures index > |objects| ==> next == index && data == []
    {
      hide EncodeItem;
      next, data := index, [];
      while next < |objects|
        invariant index <= |objects| ==> index <= next <= |objects|
        invariant index <= |objects| ==> data == EncodeItems(header.Kind(), objects[index..next])
        invariant index > |objects| ==> next == index && data == []
      {
        assert objects[index..next + 1] == objects[index..next] + [objects[next]];
        EncodeItemsAppend(header.Kind(), objects[index..next], [objects[next]]);
        EncodeOne(header.Kind(), objects[next]);
        data := data + EncodeItem(header.Kind(), objects[next]);
        next := next + 1;
      }
      assert index <= |objects| ==> objects[index..next] == objects[index..];
    }
  }
}
