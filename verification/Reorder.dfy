/** The reorder buffer of the ffmpeg subscribers: groups are held until 25 are waiting, then the
    consecutive run from the smallest group ID is played. */
module Reorder {
  import opened Varint
  import opened Streams

  const WINDOW: nat := 25

  /** A received group stream; gsMap holds them under their group IDs. */
  datatype GroupStream = GroupStream(id: u62, objects: seq<Object>)

  type Buffer = map<nat, GroupStream>

  function Ids(gs: seq<GroupStream>): set<nat> {
    set g | g in gs :: g.id
  }

  // ----- one drain

  ghost predicate IsMin(k: nat, keys: set<nat>) {
    k in keys && forall j :: j in keys ==> k <= j
  }

  lemma {:induction false} MinExists(keys: set<nat>)
    requires keys != {}
    ensures exists k :: IsMin(k, keys)
  {
    var k :| k in keys;
    var rest := keys - {k};
    assert keys == rest + {k};
    if rest == {} {
      assert IsMin(k, keys);
    } else {
      MinExists(rest);
      var m :| IsMin(m, rest);
      assert IsMin(if k < m then k else m, keys);
    }
  }

  ghost function Min(keys: set<nat>): (k: nat)
    requires keys != {}
    ensures IsMin(k, keys)
  {
    MinExists(keys);
    var k :| IsMin(k, keys);
    k
  }

  /** The groups k, k + 1, ... up to the first gap. */
  function RunFrom(m: Buffer, k: nat): seq<GroupStream>
    decreases m.Keys
  {
    if k in m then [m[k]] + RunFrom(m - {k}, k + 1) else []
  }

  function After(m: Buffer, k: nat): Buffer
    decreases m.Keys
  {
    if k in m then After(m - {k}, k + 1) else m
  }

  /** A drain plays the groups with consecutive IDs from k, in ascending order ... */
  lemma {:induction false} RunAt(m: Buffer, k: nat, i: nat)
    requires i < |RunFrom(m, k)|
    ensures k + i in m && RunFrom(m, k)[i] == m[k + i]
    decreases i
  {
    if i > 0 {
      RunAt(m - {k}, k + 1, i - 1);
    }
  }

  /** ... up to the first gap, and keeps the rest. */
  lemma {:induction false} RunIsMaximal(m: Buffer, k: nat)
    ensures k + |RunFrom(m, k)| !in m
    ensures After(m, k) == map x | x in m && !(k <= x < k + |RunFrom(m, k)|) :: m[x]
    decreases m.Keys
  {
    if k in m {
      RunIsMaximal(m - {k}, k + 1);
    }
  }

  // ----- the receive loop

  datatype Played = Played(emitted: seq<GroupStream>, buffer: Buffer)

  ghost function Arrive(m: Buffer, g: GroupStream): Played {
    var m' := m[g.id := g];
    if |m'| >= WINDOW then Played(RunFrom(m', Min(m'.Keys)), After(m', Min(m'.Keys)))
    else Played([], m')
  }

  ghost function Play(arrivals: seq<GroupStream>): Played {
    if arrivals == [] then Played([], map[])
    else
      var before := Play(arrivals[..|arrivals| - 1]);
      var now := Arrive(before.buffer, arrivals[|arrivals| - 1]);
      Played(before.emitted + now.emitted, now.buffer)
  }

  predicate Ascending(keys: seq<nat>) {
    forall i, j :: 0 <= i < j < |keys| ==> keys[i] < keys[j]
  }

  function Elements(keys: seq<nat>): set<nat> {
    set k | k in keys
  }

  lemma AppendLargest(keys: seq<nat>, k: nat)
    requires Ascending(keys) && forall x :: x in Elements(keys) ==> x < k
    ensures Ascending(keys + [k]) && Elements(keys + [k]) == Elements(keys) + {k}
  {
    assert forall i :: 0 <= i < |keys| ==> keys[i] in Elements(keys);
  }

  /** Collecting the map's keys and sorting them. */
  method SortedKeys(m: Buffer) returns (keys: seq<nat>)
    ensures Elements(keys) == m.Keys && Ascending(keys)
  {
    hide Ascending, Elements;
    keys := [];
    NoElements();
    var todo := m.Keys;
    while todo != {}
      invariant todo <= m.Keys
      invariant Elements(keys) == m.Keys - todo && Ascending(keys)
      invariant forall x, k :: x in Elements(keys) && k in todo ==> x < k
      decreases todo
    {
      MinExists(todo);
      var k :| k in todo && forall j :: j in todo ==> k <= j;
      AppendLargest(keys, k);
      keys, todo := keys + [k], todo - {k};
    }
  }

  lemma NoElements()
    ensures Elements([]) == {} && Ascending([])
  {
  }

  lemma RunStep(m: Buffer, k: nat)
    ensures k in m ==> RunFrom(m, k) == [m[k]] + RunFrom(m - {k}, k + 1) && After(m, k) == After(m - {k}, k + 1)
    ensures k !in m ==> RunFrom(m, k) == [] && After(m, k) == m
  {
  }

  /** The drain loop over the sorted keys, stopping at the first gap. */
  method Drain(m: Buffer) returns (run: seq<GroupStream>, rest: Buffer)
    requires m.Keys != {}
    ensures run == RunFrom(m, Min(m.Keys)) && rest == After(m, Min(m.Keys))
  {
    hide RunFrom, After, Ascending, Elements, IsMin;
    var keys := SortedKeys(m);
    ghost var low := Min(m.Keys);
    FirstIsMin(m.Keys, keys);
    var oldkey: int := -1;
    run, rest := [], m;
    for i := 0 to |keys|
      invariant rest.Keys == Elements(keys[i..])
      invariant i == 0 ==> oldkey == -1 && rest == m && run == []
      invariant i > 0 ==> oldkey == keys[i - 1] + 1
      invariant var next := if i == 0 then low else oldkey;
                run + RunFrom(rest, next) == RunFrom(m, low) && After(rest, next) == After(m, low)
    {
      var key := keys[i];
      NextKey(keys, i);
      if oldkey == -1 {
        oldkey := key;
      } else if oldkey != key {
        RunStep(rest, oldkey);
        assert run + [] == run;
        return;
      }
      RunStep(rest, key);
      var taken := rest[key];
      assert run + ([taken] + RunFrom(rest - {key}, key + 1)) == (run + [taken]) + RunFrom(rest - {key}, key + 1);
      run := run + [taken];
      rest := rest - {key};
      oldkey := oldkey + 1;
    }
    NoElements();
    RunStep(rest, oldkey);
    assert run + [] == run;
  }

  lemma FirstIsMin(all: set<nat>, keys: seq<nat>)
    requires all != {} && Elements(keys) == all && Ascending(keys)
    ensures |keys| > 0 && keys[0] == Min(all) && keys[0..] == keys && keys[|keys|..] == []
  {
    var low := Min(all);
    assert low in keys;
    assert keys[0] in all;
  }

  /** In sorted order the next key leaves a gap unless it is the successor. */
  lemma NextKey(keys: seq<nat>, i: nat)
    requires Ascending(keys) && i < |keys|
    ensures keys[i] in Elements(keys[i..]) && Elements(keys[i + 1..]) == Elements(keys[i..]) - {keys[i]}
    ensures i > 0 && keys[i - 1] + 1 != keys[i] ==> keys[i - 1] + 1 !in Elements(keys[i..])
  {
    assert keys[i..] == [keys[i]] + keys[i + 1..];
    var later := keys[i + 1..];
    forall x | x in later ensures x > keys[i] {
      var j :| 0 <= j < |later| && later[j] == x;
      assert keys[i + 1 + j] == x;
    }
    assert i > 0 ==> keys[i - 1] < keys[i];
  }

  /** GROUPID: what the player reports when a group is not the one after the last. */
  function Warnings(expected: nat, gs: seq<GroupStream>): nat
    decreases |gs|
  {
    if gs == [] then 0
    else (if expected != gs[0].id then 1 else 0) + Warnings(gs[0].id + 1, gs[1..])
  }

  function NextExpected(expected: nat, gs: seq<GroupStream>): nat {
    if gs == [] then expected else gs[|gs| - 1].id + 1
  }

  lemma {:induction false} WarningsAppend(expected: nat, gs: seq<GroupStream>, g: GroupStream)
    ensures Warnings(expected, gs + [g]) == Warnings(expected, gs) + (if NextExpected(expected, gs) != g.id then 1 else 0)
    decreases |gs|
  {
    if gs == [] {
      assert gs + [g] == [g] && [g][1..] == [];
      assert Warnings(g.id + 1, []) == 0;
    } else {
      assert (gs + [g])[1..] == gs[1..] + [g];
      WarningsAppend(gs[0].id + 1, gs[1..], g);
    }
  }

  /** handleMOQStream for each group of a drain: the order check and its counter. */
  method PlayRun(run: seq<GroupStream>, ghost played: seq<GroupStream>, groupId: nat, warnings: nat)
      returns (groupId': nat, warnings': nat)
    requires groupId == NextExpected(0, played) && warnings == Warnings(0, played)
    ensures groupId' == NextExpected(0, played + run) && warnings' == Warnings(0, played + run)
  {
    hide Warnings;
    groupId', warnings' := groupId, warnings;
    assert played + run[..0] == played;
    for i := 0 to |run|
      invariant groupId' == NextExpected(0, played + run[..i]) && warnings' == Warnings(0, played + run[..i])
    {
      WarningsAppend(0, played + run[..i], run[i]);
      assert played + run[..i + 1] == (played + run[..i]) + [run[i]];
      if groupId' != run[i].id {
        warnings' := warnings' + 1;
        groupId' := run[i].id;
      }
      groupId' := groupId' + 1;
    }
    assert run[..|run|] == run;
  }

  /** handleStream over everything the channel delivers. */
  method HandleStream(arrivals: seq<GroupStream>)
      returns (emitted: seq<GroupStream>, buffer: Buffer, warnings: nat)
    ensures Played(emitted, buffer) == Play(arrivals)
    ensures warnings == Warnings(0, emitted)
  {
    hide RunFrom, After, NextExpected;
    emitted, buffer, warnings := [], map[], 0;
    var groupId: nat := 0;
    assert NextExpected(0, []) == 0 by {
      NothingExpected();
    }
    for n := 0 to |arrivals|
      invariant Played(emitted, buffer) == Play(arrivals[..n])
      invariant warnings == Warnings(0, emitted) && groupId == NextExpected(0, emitted)
    {
      assert arrivals[..n + 1][..n] == arrivals[..n];
      buffer := buffer[arrivals[n].id := arrivals[n]];
      var run := [];
      if |buffer| >= WINDOW {
        run, buffer := Drain(buffer);
      }
      groupId, warnings := PlayRun(run, emitted, groupId, warnings);
      emitted := emitted + run;
    }
    assert arrivals[..|arrivals|] == arrivals;
  }

  lemma NothingExpected()
    ensures NextExpected(0, []) == 0
  {
  }

  // ----- bound and conservation

  ghost predicate Keyed(m: Buffer) {
    forall k :: k in m ==> m[k].id == k
  }

  lemma UpdateSize(m: Buffer, g: GroupStream)
    ensures m[g.id := g].Keys == m.Keys + {g.id}
    ensures |m[g.id := g]| == |m| + (if g.id in m then 0 else 1)
  {
    assert |m[g.id := g].Keys| == |m[g.id := g]| && |m.Keys| == |m|;
    assert g.id in m ==> m.Keys + {g.id} == m.Keys;
  }

  lemma {:induction false} DrainSplits(m: Buffer, k: nat)
    requires Keyed(m)
    ensures Keyed(After(m, k)) && Ids(RunFrom(m, k)) !! After(m, k).Keys
    ensures Ids(RunFrom(m, k)) + After(m, k).Keys == m.Keys
    ensures |RunFrom(m, k)| + |After(m, k)| == |m| && (k in m ==> |RunFrom(m, k)| > 0)
    decreases m.Keys
  {
    hide Ids;
    if k in m {
      var m' := m - {k};
      DrainSplits(m', k + 1);
      assert m'.Keys == m.Keys - {k};
      assert |m'.Keys| == |m'| && |m.Keys| == |m|;
      IdsFirst(m[k], RunFrom(m', k + 1));
    } else {
      NoIds();
    }
  }

  lemma IdsFirst(g: GroupStream, gs: seq<GroupStream>)
    ensures Ids([g] + gs) == {g.id} + Ids(gs)
  {
  }

  /** One arrival: the buffer stays below the window, and a group is either played or kept. */
  lemma ArriveKeeps(m: Buffer, g: GroupStream)
    requires Keyed(m) && |m| < WINDOW
    ensures var r := Arrive(m, g);
            && Keyed(r.buffer) && |r.buffer| < WINDOW
            && Ids(r.emitted) !! r.buffer.Keys
            && Ids(r.emitted) + r.buffer.Keys == m.Keys + {g.id}
            && |r.emitted| + |r.buffer| == |m| + (if g.id in m then 0 else 1)
  {
    hide RunFrom, After, Ids;
    UpdateSize(m, g);
    var m' := m[g.id := g];
    if |m'| >= WINDOW {
      DrainSplits(m', Min(m'.Keys));
    } else {
      NoIds();
    }
  }

  lemma NoIds()
    ensures Ids([]) == {}
  {
  }

  /** Between arrivals at most 24 groups are held, and every ID received was played or is held. */
  lemma {:induction false} BufferBounded(arrivals: seq<GroupStream>)
    ensures var r := Play(arrivals);
            Keyed(r.buffer) && |r.buffer| <= 24 && Ids(arrivals) == Ids(r.emitted) + r.buffer.Keys
  {
    hide Arrive, Ids, Keyed;
    NoIds();
    if arrivals == [] {
      assert Keyed(map[]) by {
        NothingKeyed();
      }
    } else {
      var front, g := arrivals[..|arrivals| - 1], arrivals[|arrivals| - 1];
      BufferBounded(front);
      var before := Play(front);
      ArriveKeeps(before.buffer, g);
      IdsAppend(before.emitted, Arrive(before.buffer, g).emitted);
      IdsLast(arrivals);
    }
  }

  lemma NothingKeyed()
    ensures Keyed(map[])
  {
  }

  lemma IdsLast(gs: seq<GroupStream>)
    requires gs != []
    ensures Ids(gs) == Ids(gs[..|gs| - 1]) + {gs[|gs| - 1].id}
  {
    assert gs == gs[..|gs| - 1] + [gs[|gs| - 1]];
  }

  lemma IdsAppend(a: seq<GroupStream>, b: seq<GroupStream>)
    ensures Ids(a + b) == Ids(a) + Ids(b)
  {
  }

  /** No group arrives while another with the same ID is still held. */
  ghost predicate NoClash(arrivals: seq<GroupStream>) {
    forall n :: 0 <= n < |arrivals| ==> arrivals[n].id !in Play(arrivals[..n]).buffer
  }

  ghost function Held(m: Buffer, g: GroupStream): nat {
    if g.id in m && m[g.id] == g then 1 else 0
  }

  lemma ArriveConserves(m: Buffer, g: GroupStream, x: GroupStream)
    requires Keyed(m) && g.id !in m
    ensures multiset(Arrive(m, g).emitted)[x] + Held(Arrive(m, g).buffer, x) == Held(m, x) + (if x == g then 1 else 0)
  {
    var m' := m[g.id := g];
    if |m'| >= WINDOW {
      var low := Min(m'.Keys);
      RunIsMaximal(m', low);
      RunCounts(m', low, x);
    }
  }

  lemma {:induction false} RunCounts(m: Buffer, k: nat, x: GroupStream)
    requires Keyed(m)
    ensures multiset(RunFrom(m, k))[x] + Held(After(m, k), x) == Held(m, x)
    decreases m.Keys
  {
    if k in m {
      RunCounts(m - {k}, k + 1, x);
      assert multiset(RunFrom(m, k)) == multiset{m[k]} + multiset(RunFrom(m - {k}, k + 1));
    }
  }

  lemma PlayLast(front: seq<GroupStream>, g: GroupStream)
    ensures var before := Play(front); var now := Arrive(before.buffer, g);
            Play(front + [g]) == Played(before.emitted + now.emitted, now.buffer)
  {
    hide Arrive;
    assert (front + [g])[..|front|] == front;
  }

  lemma {:induction false} ConservationCount(arrivals: seq<GroupStream>)
    ensures var r := Play(arrivals); var n := |r.emitted| + |r.buffer|;
            n <= |arrivals| && (n == |arrivals| <==> NoClash(arrivals))
  {
    hide Arrive, NoClash, Ids, Keyed;
    if arrivals == [] {
      ClashNothing();
    } else {
      hide Play;
      var front, g := arrivals[..|arrivals| - 1], arrivals[|arrivals| - 1];
      assert arrivals == front + [g];
      ConservationCount(front);
      BufferBounded(front);
      ArriveKeeps(Play(front).buffer, g);
      PlayLast(front, g);
      ClashStep(front, g);
    }
  }

  lemma {:induction false} ConservationOf(arrivals: seq<GroupStream>, x: GroupStream)
    requires NoClash(arrivals)
    ensures multiset(arrivals)[x] == multiset(Play(arrivals).emitted)[x] + Held(Play(arrivals).buffer, x)
  {
    hide Arrive, NoClash, Ids, Keyed;
    if arrivals != [] {
      var front, g := arrivals[..|arrivals| - 1], arrivals[|arrivals| - 1];
      assert arrivals == front + [g];
      ClashStep(front, g);
      ConservationOf(front, x);
      BufferBounded(front);
      ArriveConserves(Play(front).buffer, g, x);
    }
  }

  /** What was played and what is held is what was received, group for group, exactly as long as no
      group overwrites a held one; distinct group IDs guarantee that. */
  lemma Conservation(arrivals: seq<GroupStream>)
    ensures var r := Play(arrivals);
            && (|r.emitted| + |r.buffer| == |arrivals| <==> NoClash(arrivals))
            && (NoClash(arrivals) ==> forall x :: multiset(arrivals)[x] == multiset(r.emitted)[x] + Held(r.buffer, x))
    ensures DistinctIds(arrivals) ==> NoClash(arrivals)
  {
    hide Play, NoClash, Held, DistinctIds;
    ConservationCount(arrivals);
    if NoClash(arrivals) {
      forall x ensures multiset(arrivals)[x] == multiset(Play(arrivals).emitted)[x] + Held(Play(arrivals).buffer, x) {
        ConservationOf(arrivals, x);
      }
    }
    if DistinctIds(arrivals) {
      DistinctNoClash(arrivals);
    }
  }

  lemma ClashNothing()
    ensures NoClash([])
  {
  }

  lemma ClashStep(front: seq<GroupStream>, g: GroupStream)
    ensures NoClash(front + [g]) <==> NoClash(front) && g.id !in Play(front).buffer
  {
    hide Play;
    var all := front + [g];
    assert forall n :: 0 <= n <= |front| ==> all[..n] == front[..n];
    assert all[..|front|] == front;
    if NoClash(all) {
      assert all[|front|].id !in Play(all[..|front|]).buffer;
      forall n | 0 <= n < |front| ensures front[n].id !in Play(front[..n]).buffer {
        assert all[n].id !in Play(all[..n]).buffer;
      }
    }
  }

  ghost predicate DistinctIds(gs: seq<GroupStream>) {
    forall i, j :: 0 <= i < j < |gs| ==> gs[i].id != gs[j].id
  }

  lemma DistinctNoClash(arrivals: seq<GroupStream>)
    requires DistinctIds(arrivals)
    ensures NoClash(arrivals)
  {
    hide Play;
    forall n | 0 <= n < |arrivals| ensures arrivals[n].id !in Play(arrivals[..n]).buffer {
      BufferBounded(arrivals[..n]);
      assert arrivals[n].id !in Ids(arrivals[..n]);
    }
  }

  // ----- the window theorem

  ghost predicate InOrder(gs: seq<GroupStream>) {
    forall i :: 0 <= i < |gs| ==> gs[i].id == i
  }

  /** A group is reported exactly when it is not the one after the group before it (or the first one
      expected, if there is none before it). */
  predicate IsJump(expected: nat, gs: seq<GroupStream>, i: nat) {
    i < |gs| && gs[i].id != if i == 0 then expected else gs[i - 1].id + 1
  }

  ghost function Jumps(expected: nat, gs: seq<GroupStream>): set<nat> {
    set i | 0 <= i < |gs| && IsJump(expected, gs, i)
  }

  lemma {:induction false} WarningsAreJumps(expected: nat, gs: seq<GroupStream>)
    ensures Warnings(expected, gs) == |Jumps(expected, gs)|
    decreases |gs|
  {
    if gs != [] {
      var front, g := gs[..|gs| - 1], gs[|gs| - 1];
      WarningsAreJumps(expected, front);
      WarningsAppend(expected, front, g);
      assert gs == front + [g];
      assert Jumps(expected, gs) == Jumps(expected, front) + if NextExpected(expected, front) != g.id then {|front|} else {};
    }
  }

  /** The order check stays silent exactly when the groups come out as 0, 1, 2, ... */
  lemma {:induction false} SilentIfInOrder(gs: seq<GroupStream>, from: nat)
    ensures Warnings(from, gs) == 0 <==> forall i :: 0 <= i < |gs| ==> gs[i].id == from + i
  {
    if gs != [] {
      SilentIfInOrder(gs[1..], from + 1);
      if gs[0].id == from {
        if forall i :: 0 <= i < |gs[1..]| ==> gs[1..][i].id == from + 1 + i {
          forall i | 0 <= i < |gs| ensures gs[i].id == from + i {
            if i > 0 {
              assert gs[1..][i - 1].id == from + 1 + (i - 1);
            }
          }
        }
      } else {
        assert gs[0].id != from + 0;
      }
    }
  }

  ghost function Higher(gs: seq<GroupStream>, k: nat): set<nat> {
    set x | x in Ids(gs) && x > k
  }

  /** At every moment, fewer than 25 groups numbered above a missing one have arrived. */
  ghost predicate WithinWindow(arrivals: seq<GroupStream>) {
    forall n, k :: 0 <= n <= |arrivals| && k !in Ids(arrivals[..n]) ==> |Higher(arrivals[..n], k)| < 25
  }

  lemma {:induction false} InOrderIds(gs: seq<GroupStream>)
    requires InOrder(gs)
    ensures forall x :: x in Ids(gs) <==> 0 <= x < |gs|
  {
    forall x | 0 <= x < |gs| ensures x in Ids(gs) {
      assert gs[x] in gs;
    }
  }

  lemma WithinWindowPrefix(arrivals: seq<GroupStream>, m: nat)
    requires WithinWindow(arrivals) && m <= |arrivals|
    ensures WithinWindow(arrivals[..m])
  {
    hide Higher;
    assert forall n :: 0 <= n <= m ==> arrivals[..m][..n] == arrivals[..n];
  }

  lemma SubsetSize(a: set<nat>, b: set<nat>)
    requires a <= b
    ensures |a| <= |b|
  {
    if a != {} {
      var x :| x in a;
      SubsetSize(a - {x}, b - {x});
    }
  }

  /** When 25 groups are waiting and the window condition holds, the next group is among them. */
  lemma NextIsHeld(arrivals: seq<GroupStream>, emitted: seq<GroupStream>, m: Buffer)
    requires InOrder(emitted) && Ids(arrivals) == Ids(emitted) + m.Keys
    requires Ids(emitted) !! m.Keys && |m| >= WINDOW
    requires |emitted| !in Ids(arrivals) ==> |Higher(arrivals, |emitted|)| < WINDOW
    ensures m.Keys != {} && Min(m.Keys) == |emitted|
  {
    InOrderIds(emitted);
    assert |m.Keys| == |m|;
    if |emitted| !in m.Keys {
      assert m.Keys <= Higher(arrivals, |emitted|);
      SubsetSize(m.Keys, Higher(arrivals, |emitted|));
    }
  }

  lemma RunExtendsOrder(emitted: seq<GroupStream>, m: Buffer)
    requires InOrder(emitted) && Keyed(m)
    ensures InOrder(emitted + RunFrom(m, |emitted|))
  {
    hide RunFrom;
    var all := emitted + RunFrom(m, |emitted|);
    forall i | 0 <= i < |all| ensures all[i].id == i {
      if i >= |emitted| {
        RunAt(m, |emitted|, i - |emitted|);
      }
    }
  }

  /** The drain of a full buffer goes on where playing had stopped. */
  lemma FullBufferInOrder(arrivals: seq<GroupStream>, emitted: seq<GroupStream>, buffer: Buffer, g: GroupStream)
    requires WithinWindow(arrivals) && InOrder(emitted) && Keyed(buffer)
    requires |buffer| < WINDOW <= |buffer[g.id := g]|
    requires Ids(emitted) !! buffer[g.id := g].Keys && Ids(arrivals) == Ids(emitted) + buffer[g.id := g].Keys
    ensures var now := Arrive(buffer, g);
            InOrder(emitted + now.emitted) && Ids(emitted + now.emitted) !! now.buffer.Keys
  {
    hide WithinWindow, Higher, Ids, InOrder, RunFrom, After, Keyed;
    var m := buffer[g.id := g];
    if |emitted| !in Ids(arrivals) {
      AtTheEnd(arrivals, |emitted|);
    }
    KeyedUpdate(buffer, g);
    NextIsHeld(arrivals, emitted, m);
    RunExtendsOrder(emitted, m);
    ArriveKeeps(buffer, g);
    IdsAppend(emitted, Arrive(buffer, g).emitted);
    AfterIsPart(m, |emitted|);
  }

  /** An arrival keeps what is played in order, whether it fills the buffer or not. */
  lemma ArriveInOrder(arrivals: seq<GroupStream>, emitted: seq<GroupStream>, buffer: Buffer, g: GroupStream)
    requires WithinWindow(arrivals) && InOrder(emitted) && Keyed(buffer) && |buffer| < WINDOW
    requires Ids(emitted) !! buffer[g.id := g].Keys && Ids(arrivals) == Ids(emitted) + buffer[g.id := g].Keys
    ensures var now := Arrive(buffer, g);
            InOrder(emitted + now.emitted) && Ids(emitted + now.emitted) !! now.buffer.Keys
  {
    hide WithinWindow, Ids, InOrder, RunFrom, After, Keyed;
    if |buffer[g.id := g]| >= WINDOW {
      FullBufferInOrder(arrivals, emitted, buffer, g);
    } else {
      assert emitted + [] == emitted;
    }
  }

  lemma {:induction false} OrderedWithinWindow(arrivals: seq<GroupStream>)
    requires DistinctIds(arrivals) && WithinWindow(arrivals)
    ensures InOrder(Play(arrivals).emitted) && Ids(Play(arrivals).emitted) !! Play(arrivals).buffer.Keys
  {
    hide WithinWindow, DistinctIds, Ids, InOrder, Arrive, Keyed;
    NoIds();
    if arrivals == [] {
      InOrderNothing();
    } else {
      var front, g := arrivals[..|arrivals| - 1], arrivals[|arrivals| - 1];
      NewToFront(arrivals);
      WithinWindowPrefix(arrivals, |arrivals| - 1);
      OrderedWithinWindow(front);
      BufferBounded(front);
      IdsLast(arrivals);
      var before := Play(front);
      assert before.buffer[g.id := g].Keys == before.buffer.Keys + {g.id};
      ArriveInOrder(arrivals, before.emitted, before.buffer, g);
    }
  }

  lemma InOrderNothing()
    ensures InOrder([])
  {
  }

  lemma KeyedUpdate(m: Buffer, g: GroupStream)
    requires Keyed(m)
    ensures Keyed(m[g.id := g])
  {
  }

  lemma AfterIsPart(m: Buffer, k: nat)
    ensures After(m, k).Keys <= m.Keys
  {
    RunIsMaximal(m, k);
  }

  lemma NewToFront(arrivals: seq<GroupStream>)
    requires DistinctIds(arrivals) && arrivals != []
    ensures DistinctIds(arrivals[..|arrivals| - 1])
    ensures arrivals[|arrivals| - 1].id !in Ids(arrivals[..|arrivals| - 1])
  {
  }

  lemma AtTheEnd(arrivals: seq<GroupStream>, k: nat)
    requires WithinWindow(arrivals) && k !in Ids(arrivals)
    ensures |Higher(arrivals, k)| < WINDOW
  {
    assert arrivals[..|arrivals|] == arrivals;
  }

  lemma {:induction false} EmittedGrows(arrivals: seq<GroupStream>, n: nat)
    requires n <= |arrivals|
    ensures Play(arrivals[..n]).emitted <= Play(arrivals).emitted
    decreases |arrivals|
  {
    hide Arrive;
    if n == |arrivals| {
      assert arrivals[..n] == arrivals;
    } else {
      var front := arrivals[..|arrivals| - 1];
      assert front[..n] == arrivals[..n];
      EmittedGrows(front, n);
    }
  }

  lemma WindowIfOrdered(arrivals: seq<GroupStream>)
    requires InOrder(Play(arrivals).emitted)
    ensures WithinWindow(arrivals)
  {
    hide Play;
    forall n, k | 0 <= n <= |arrivals| && k !in Ids(arrivals[..n])
      ensures |Higher(arrivals[..n], k)| < WINDOW
    {
      var r := Play(arrivals[..n]);
      EmittedGrows(arrivals, n);
      BufferBounded(arrivals[..n]);
      assert InOrder(r.emitted);
      InOrderIds(r.emitted);
      assert Higher(arrivals[..n], k) <= r.buffer.Keys;
      SubsetSize(Higher(arrivals[..n], k), r.buffer.Keys);
    }
  }

  /** Groups that arrive once each are played as 0, 1, 2, ..., and the order check never fires,
      exactly when at no time 25 higher-numbered groups have overtaken a missing one. */
  lemma ReorderWindow(arrivals: seq<GroupStream>)
    requires DistinctIds(arrivals)
    ensures Warnings(0, Play(arrivals).emitted) == 0 <==> WithinWindow(arrivals)
  {
    hide Play, WithinWindow;
    SilentIfInOrder(Play(arrivals).emitted, 0);
    if WithinWindow(arrivals) {
      OrderedWithinWindow(arrivals);
    }
    if InOrder(Play(arrivals).emitted) {
      WindowIfOrdered(arrivals);
    }
  }

  /** The loop never flushes: the last groups stay behind when the channel closes, and a stream of
      fewer than 25 groups plays nothing at all. */
  lemma LastGroupsNeverPlayed(arrivals: seq<GroupStream>)
    requires DistinctIds(arrivals)
    ensures |arrivals| - 24 <= |Play(arrivals).emitted|
    ensures |arrivals| <= 24 ==> Play(arrivals).emitted == []
  {
    Conservation(arrivals);
    DistinctNoClash(arrivals);
    BufferBounded(arrivals);
    if |arrivals| < WINDOW {
      NothingPlayed(arrivals);
    }
  }

  lemma {:induction false} NothingPlayed(arrivals: seq<GroupStream>)
    requires |arrivals| < WINDOW
    ensures Play(arrivals).emitted == [] && |Play(arrivals).buffer| <= |arrivals|
  {
    if arrivals != [] {
      var front, g := arrivals[..|arrivals| - 1], arrivals[|arrivals| - 1];
      NothingPlayed(front);
      var m := Play(front).buffer;
      UpdateSize(m, g);
    }
  }
}
