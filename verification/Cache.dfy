/** The relay's object cache: incremental FIFO eviction under a count and a byte limit, proved to
    keep exactly the longest admissible window of what was pushed since the last clear. */
module Cache {
  import opened Varint

  /** The contents of one CachedObject. */
  datatype Cached = Cached(groupId: u62, id: u62, payload: Text)

  /** MaxCacheSize and MaxCacheBytes; the source does not require them to be positive. */
  datatype Limits = Limits(count: int, bytes: int)

  function Bytes(cs: seq<Cached>): nat {
    if cs == [] then 0 else |cs[0].payload| + Bytes(cs[1..])
  }

  predicate Full(l: Limits, cs: seq<Cached>) {
    |cs| >= l.count || Bytes(cs) >= l.bytes
  }

  /** The eviction loop. */
  function Evict(l: Limits, cs: seq<Cached>): seq<Cached> {
    if cs == [] || !Full(l, cs) then cs else Evict(l, cs[1..])
  }

  function Push(l: Limits, cs: seq<Cached>, o: Cached): seq<Cached> {
    Evict(l, cs) + [o]
  }

  datatype Op = Put(o: Cached) | Clear

  /** The cache after a sequence of operations. */
  function Contents(l: Limits, ops: seq<Op>): seq<Cached> {
    if ops == [] then []
    else
      match ops[|ops| - 1]
      case Put(o) => Push(l, Contents(l, ops[..|ops| - 1]), o)
      case Clear => []
  }

  lemma ContentsPut(l: Limits, ops: seq<Op>, o: Cached)
    ensures Contents(l, ops + [Put(o)]) == Push(l, Contents(l, ops), o)
  {
    assert (ops + [Put(o)])[..|ops|] == ops;
  }

  // ----- the declarative window

  /** Everything pushed since the last clear. */
  function History(ops: seq<Op>): seq<Cached> {
    if ops == [] then []
    else
      match ops[|ops| - 1]
      case Put(o) => History(ops[..|ops| - 1]) + [o]
      case Clear => []
  }

  predicate Admissible(l: Limits, cs: seq<Cached>) {
    cs == [] || (|cs| < l.count && Bytes(cs) < l.bytes)
  }

  predicate IsSuffix(t: seq<Cached>, cs: seq<Cached>) {
    |t| <= |cs| && t == cs[|cs| - |t|..]
  }

  ghost predicate LongestAdmissible(l: Limits, t: seq<Cached>, h: seq<Cached>) {
    && IsSuffix(t, h)
    && Admissible(l, t)
    && forall u :: IsSuffix(u, h) && Admissible(l, u) ==> |u| <= |t|
  }

  /** There is only one such window. */
  lemma LongestUnique(l: Limits, t: seq<Cached>, u: seq<Cached>, h: seq<Cached>)
    requires LongestAdmissible(l, t, h) && LongestAdmissible(l, u, h)
    ensures t == u
  {
    assert |t| <= |u| && |u| <= |t|;
  }

  lemma {:induction false} BytesAppend(a: seq<Cached>, b: seq<Cached>)
    ensures Bytes(a + b) == Bytes(a) + Bytes(b)
  {
    if a == [] {
      assert a + b == b;
    } else {
      assert (a + b)[1..] == a[1..] + b;
      BytesAppend(a[1..], b);
    }
  }

  lemma BytesOne(o: Cached)
    ensures Bytes([o]) == |o.payload|
  {
    assert [o][1..] == [];
  }

  /** Dropping from either end cannot break the limits. */
  lemma AdmissiblePart(l: Limits, a: seq<Cached>, b: seq<Cached>)
    requires Admissible(l, a + b)
    ensures Admissible(l, a) && Admissible(l, b)
  {
    BytesAppend(a, b);
    if a + b == [] {
      assert |a| == 0 && |b| == 0;
    }
  }

  lemma SuffixSplit(t: seq<Cached>, cs: seq<Cached>)
    requires IsSuffix(t, cs)
    ensures cs == cs[..|cs| - |t|] + t
  {
  }

  /** The loop stops at the longest admissible suffix. */
  lemma {:induction false} EvictLongest(l: Limits, cs: seq<Cached>)
    ensures LongestAdmissible(l, Evict(l, cs), cs)
  {
    if cs == [] || !Full(l, cs) {
      assert IsSuffix(cs, cs);
    } else {
      var rest := cs[1..];
      EvictLongest(l, rest);
      var kept := Evict(l, rest);
      assert IsSuffix(kept, cs);
      forall u | IsSuffix(u, cs) && Admissible(l, u) ensures |u| <= |kept| {
        assert |u| == |cs| ==> u == cs;
        assert |u| < |cs| ==> IsSuffix(u, rest);
      }
    }
  }

  /** Taking the last object off a suffix leaves a suffix. */
  lemma SuffixFront(u: seq<Cached>, h: seq<Cached>, o: Cached)
    requires IsSuffix(u, h + [o]) && u != []
    ensures u == u[..|u| - 1] + [o] && IsSuffix(u[..|u| - 1], h)
  {
    var front := u[..|u| - 1];
    assert u[|u| - 1] == (h + [o])[|h|];
    assert front == h[|h| - |front|..];
  }

  /** Of two suffixes the shorter is a suffix of the longer. */
  lemma SuffixOfSuffix(u: seq<Cached>, t: seq<Cached>, h: seq<Cached>)
    requires IsSuffix(u, h) && IsSuffix(t, h) && |u| <= |t|
    ensures IsSuffix(u, t)
  {
    assert u == t[|t| - |u|..];
  }

  /** What was evicted can never come back: an admissible suffix one object later still fits in
      the previous window and that object. */
  lemma SuffixStaysInWindow(l: Limits, t: seq<Cached>, h: seq<Cached>, o: Cached, u: seq<Cached>)
    requires LongestAdmissible(l, t, h) && IsSuffix(u, h + [o]) && Admissible(l, u)
    ensures IsSuffix(u, t + [o])
  {
    if u != [] {
      var front := u[..|u| - 1];
      SuffixFront(u, h, o);
      SuffixOfWindow(l, t, h, front, o);
      assert (t + [o])[|t| + 1 - |u|..] == t[|t| - |front|..] + [o];
    }
  }

  lemma SuffixOfWindow(l: Limits, t: seq<Cached>, h: seq<Cached>, front: seq<Cached>, o: Cached)
    requires LongestAdmissible(l, t, h) && IsSuffix(front, h) && Admissible(l, front + [o])
    ensures IsSuffix(front, t)
  {
    hide Admissible, IsSuffix;
    AdmissiblePart(l, front, [o]);
    SuffixOfSuffix(front, t, h);
  }

  lemma SuffixWiden(t: seq<Cached>, h: seq<Cached>, o: Cached, u: seq<Cached>)
    requires IsSuffix(t, h) && IsSuffix(u, t + [o])
    ensures IsSuffix(u, h + [o])
  {
    SuffixSplit(t, h);
    assert h + [o] == h[..|h| - |t|] + (t + [o]);
  }

  /** Looking only at the previous window loses nothing. */
  lemma LongestStep(l: Limits, t: seq<Cached>, h: seq<Cached>, o: Cached, t': seq<Cached>)
    requires LongestAdmissible(l, t, h) && LongestAdmissible(l, t', t + [o])
    ensures LongestAdmissible(l, t', h + [o])
  {
    hide IsSuffix, Admissible;
    SuffixWiden(t, h, o, t');
    forall u | IsSuffix(u, h + [o]) && Admissible(l, u) ensures |u| <= |t'| {
      SuffixStaysInWindow(l, t, h, o, u);
    }
  }

  lemma {:induction false} ContentsShape(l: Limits, ops: seq<Op>)
    ensures History(ops) == [] <==> Contents(l, ops) == []
    ensures History(ops) != [] ==>
              var c, h := Contents(l, ops), History(ops);
              c[|c| - 1] == h[|h| - 1] && LongestAdmissible(l, c[..|c| - 1], h[..|h| - 1])
  {
    hide LongestAdmissible;
    if ops != [] && ops[|ops| - 1].Put? {
      var front, o := ops[..|ops| - 1], ops[|ops| - 1].o;
      var c, h := Contents(l, front), History(front);
      ContentsShape(l, front);
      assert (Evict(l, c) + [o])[..|Evict(l, c)|] == Evict(l, c);
      assert (h + [o])[..|h|] == h;
      EvictLongest(l, c);
      if h != [] {
        assert c == c[..|c| - 1] + [c[|c| - 1]] && h == h[..|h| - 1] + [h[|h| - 1]];
        LongestStep(l, c[..|c| - 1], h[..|h| - 1], h[|h| - 1], Evict(l, c));
      }
    }
  }

  /** After any pushes and clears there is exactly one longest admissible suffix of everything before
      the newest object, and the cache is that suffix and the newest object. */
  lemma CacheIsWindow(l: Limits, ops: seq<Op>, o: Cached)
    ensures exists window :: LongestAdmissible(l, window, History(ops))
    ensures forall window :: LongestAdmissible(l, window, History(ops)) ==> Contents(l, ops + [Put(o)]) == window + [o]
  {
    hide LongestAdmissible;
    ContentsShape(l, ops + [Put(o)]);
    assert (ops + [Put(o)])[..|ops|] == ops;
    var c, h := Contents(l, ops + [Put(o)]), History(ops);
    assert (h + [o])[..|h|] == h;
    assert c == c[..|c| - 1] + [o];
    forall window | LongestAdmissible(l, window, h) ensures window == c[..|c| - 1] {
      LongestUnique(l, window, c[..|c| - 1], h);
    }
  }

  /** The limits, in every reachable state: at most the count limit (or one object, whatever the
      limit), and fewer bytes than the byte limit without the newest object. */
  lemma CacheBounds(l: Limits, ops: seq<Op>)
    ensures var c := Contents(l, ops);
            && |c| <= (if l.count > 1 then l.count else 1)
            && (|c| > 1 ==> Bytes(c[..|c| - 1]) < l.bytes)
  {
    ContentsShape(l, ops);
  }

  /** A relay stream is created with room for 1000 objects and 50 MB. */
  const DEFAULT_LIMITS: Limits := Limits(1000, 50 * 1024 * 1024)

  lemma DefaultCacheBounds(ops: seq<Op>)
    ensures var c := Contents(DEFAULT_LIMITS, ops);
            |c| <= 1000 && (|c| > 1 ==> Bytes(c[..|c| - 1]) < 52428800)
  {
    CacheBounds(DEFAULT_LIMITS, ops);
  }

  /** Nothing is invented: every cached object was pushed since the last clear. */
  lemma CachedWasPushed(l: Limits, ops: seq<Op>, o: Cached)
    requires o in Contents(l, ops)
    ensures o in History(ops)
  {
    ContentsShape(l, ops);
    var c, h := Contents(l, ops), History(ops);
    var i :| 0 <= i < |c| && c[i] == o;
    if i < |c| - 1 {
      SuffixSplit(c[..|c| - 1], h[..|h| - 1]);
      assert o in c[..|c| - 1];
    }
  }

  // ----- the object itself

  class CachedObject {
    const groupId: u62
    const id: u62
    const payload: array<byte>

    /** Copies the payload into a buffer of its own. */
    constructor (groupId: u62, id: u62, source: array<byte>)
      ensures this.groupId == groupId && this.id == id
      ensures fresh(payload) && payload[..] == source[..]
    {
      this.groupId, this.id := groupId, id;
      var copy := new byte[source.Length];
      payload := copy;
      new;
      for i := 0 to source.Length
        invariant copy[..i] == source[..i]
        invariant unchanged(source)
        modifies copy
      {
        copy[i] := source[i];
        assert copy[..i + 1] == copy[..i] + [copy[i]];
      }
      assert copy[..] == copy[..source.Length] && source[..] == source[..source.Length];
    }
  }

  class RelayCache {
    var objects: seq<CachedObject>
    var currentBytes: int
    var enabled: bool
    const limits: Limits
    ghost var ops: seq<Op>

    ghost function Buffers(): set<array<byte>>
      reads this
    {
      set o | o in objects :: o.payload
    }

    /** CurrentBytes is the sum of the cached payload lengths. */
    ghost predicate Accounted()
      reads this, Buffers()
    {
      && (forall o :: o in objects ==> o.payload.Length < LIMIT)
      && currentBytes == Bytes(View(objects))
    }

    /** ... and the cache holds what the operations so far leave in it. */
    ghost predicate Valid()
      reads this, Buffers()
    {
      Accounted() && View(objects) == Contents(limits, ops)
    }

    static ghost function View(os: seq<CachedObject>): seq<Cached>
      requires forall o :: o in os ==> o.payload.Length < LIMIT
      reads set o | o in os :: o.payload
    {
      if os == [] then [] else [Cached(os[0].groupId, os[0].id, os[0].payload[..])] + View(os[1..])
    }

    static lemma {:induction false} ViewAppend(os: seq<CachedObject>, o: CachedObject)
      requires forall x :: x in os + [o] ==> x.payload.Length < LIMIT
      ensures View(os + [o]) == View(os) + [Cached(o.groupId, o.id, o.payload[..])]
    {
      if os == [] {
        assert os + [o] == [o] && [o][1..] == [];
        assert View([o]) == [Cached(o.groupId, o.id, o.payload[..])] + View([]);
      } else {
        assert (os + [o])[1..] == os[1..] + [o];
        ViewAppend(os[1..], o);
      }
    }

    constructor (limits: Limits)
      ensures Valid() && objects == [] && enabled && this.limits == limits && ops == []
    {
      this.limits, objects, currentBytes, enabled, ops := limits, [], 0, true, [];
    }

    /** The eviction loop, run only to make room for one more object. */
    method MakeRoom()
      requires Accounted()
      modifies this`objects, this`currentBytes
      ensures Accounted() && (forall o :: o in objects ==> o in old(objects))
      ensures View(objects) == Evict(limits, old(View(objects)))
    {
      while |objects| >= limits.count || currentBytes >= limits.bytes
        invariant Accounted() && (forall o :: o in objects ==> o in old(objects))
        invariant Evict(limits, View(objects)) == old(Evict(limits, View(objects)))
        decreases |objects|
      {
        if |objects| == 0 {
          break;
        }
        SameLength(objects);
        var removed := objects[0];
        objects := objects[1..];
        currentBytes := currentBytes - removed.payload.Length;
      }
      SameLength(objects);
    }

    /** Evicts from the front until the limits hold, then appends a private copy. */
    method CacheObject(groupId: u62, id: u62, payload: array<byte>)
      requires Valid() && payload.Length < LIMIT
      modifies this`objects, this`currentBytes, this`ops
      ensures Valid()
      ensures !enabled ==> objects == old(objects) && currentBytes == old(currentBytes) && ops == old(ops)
      ensures enabled ==> ops == old(ops) + [Put(Cached(groupId, id, payload[..]))]
      ensures enabled ==> View(objects) == Push(limits, old(View(objects)), Cached(groupId, id, payload[..]))
      ensures forall o :: o in objects ==> o in old(objects) || fresh(o.payload)
    {
      hide Bytes, Push, Contents;
      if !enabled {
        return;
      }
      ghost var o := Cached(groupId, id, payload[..]);
      Store(groupId, id, payload, o);
      ContentsPut(limits, ops, o);
      ops := ops + [Put(o)];
    }

    method Store(groupId: u62, id: u62, payload: array<byte>, ghost o: Cached)
      requires Accounted() && payload.Length < LIMIT && o == Cached(groupId, id, payload[..])
      modifies this`objects, this`currentBytes
      ensures Accounted() && View(objects) == Push(limits, old(View(objects)), o)
      ensures forall c :: c in objects ==> c in old(objects) || fresh(c.payload)
    {
      hide Bytes, Evict;
      MakeRoom();
      var cached := new CachedObject(groupId, id, payload);
      Append(cached, o);
    }

    method Append(cached: CachedObject, ghost o: Cached)
      requires Accounted() && cached.payload.Length < LIMIT && o == Cached(cached.groupId, cached.id, cached.payload[..])
      modifies this`objects, this`currentBytes
      ensures Accounted() && objects == old(objects) + [cached] && View(objects) == old(View(objects)) + [o]
    {
      hide Bytes;
      ViewAppend(objects, cached);
      BytesAppend(View(objects), [o]);
      BytesOne(o);
      objects := objects + [cached];
      currentBytes := currentBytes + cached.payload.Length;
    }

    static lemma {:induction false} SameLength(os: seq<CachedObject>)
      requires forall o :: o in os ==> o.payload.Length < LIMIT
      ensures |View(os)| == |os|
    {
      if os != [] {
        SameLength(os[1..]);
      }
    }

    method ClearCache()
      modifies this`objects, this`currentBytes, this`ops
      ensures Valid() && objects == [] && currentBytes == 0 && ops == old(ops) + [Clear]
    {
      objects, currentBytes, ops := [], 0, ops + [Clear];
    }

    method GetCacheStats() returns (count: nat, bytes: int)
      requires Valid()
      ensures count == |View(objects)| && bytes == Bytes(View(objects))
      ensures count <= (if limits.count > 1 then limits.count else 1)
    {
      CacheBounds(limits, ops);
      SameLength(objects);
      count, bytes := |objects|, currentBytes;
    }

    /** A caller may overwrite its buffer as it likes, now or at any time later: the cache does not
        share it. */
    method CacheAndReuse(groupId: u62, id: u62, buffer: array<byte>, junk: seq<byte>)
      requires Valid() && enabled && buffer.Length == |junk| < LIMIT && buffer !in Buffers()
      modifies this`objects, this`currentBytes, this`ops, buffer
      ensures Valid() && buffer[..] == junk && buffer !in Buffers()
      ensures View(objects) == Push(limits, old(View(objects)), old(Cached(groupId, id, buffer[..])))
    {
      CacheObject(groupId, id, buffer);
      assert buffer !in Buffers();
      forall i | 0 <= i < buffer.Length {
        buffer[i] := junk[i];
      }
    }
  }
}
