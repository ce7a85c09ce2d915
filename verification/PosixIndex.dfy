/**
 Registration metadata of a POSIX port (src/wepoll_ex_posix.c): nodes chained by
 descriptor and by event data, and the in-place expansion of a native event batch
 into extended events.
 */
module PosixIndex {
  import opened Chains

  /** `identity` is the fstat fingerprint; data and context are opaque 64-bit values. */
  datatype Node = Node(fd: int, identity: int, et: bool, oneshot: bool, data: int, ctx: int)

  type Nodes = map<Id, Node>

  datatype Table = Table(
    fdSlot: int -> nat, dataSlot: int -> nat,       // any bucket functions
    nodes: Nodes, byFd: seq<seq<Id>>, byData: seq<seq<Id>>, count: nat, generation: nat)

  function Fds(nodes: Nodes): map<Id, int> {
    map x | x in nodes :: nodes[x].fd
  }

  function Datas(nodes: Nodes): map<Id, int> {
    map x | x in nodes :: nodes[x].data
  }

  ghost predicate Chained(slot: int -> nat, keys: map<Id, int>, chains: seq<seq<Id>>) {
    (forall k :: slot(k) < |chains|) && Filed(slot, keys, chains)
  }

  /** Both sets of chains hold exactly the nodes, and the count is their number. */
  ghost predicate Fits(t: Table) {
    && Chained(t.fdSlot, Fds(t.nodes), t.byFd)
    && Chained(t.dataSlot, Datas(t.nodes), t.byData)
    && t.count == |t.nodes|
  }

  ghost function Nothing(): (t: Table)
    ensures Fits(t)
  {
    Table(_ => 0, _ => 0, map[], [[]], [[]], 0, 0)
  }

  type Index = t: Table | Fits(t) ghost witness Nothing()

  /** Put a node at the head of its chain. */
  method Link(slot: int -> nat, chains: seq<seq<Id>>, x: Id, k: int, ghost keys: map<Id, int>)
    returns (chains': seq<seq<Id>>)
    requires Chained(slot, keys, chains) && x !in keys
    ensures Chained(slot, keys[x := k], chains')
  {
    FiledWith(slot, keys, chains, x, k);
    chains' := chains[slot(k) := [x] + chains[slot(k)]];
  }

  /** Take a node out of its chain. */
  method Unlink(slot: int -> nat, chains: seq<seq<Id>>, x: Id, k: int, ghost keys: map<Id, int>)
    returns (chains': seq<seq<Id>>)
    requires Chained(slot, keys, chains) && x in keys && keys[x] == k
    ensures Chained(slot, keys - {x}, chains')
  {
    FiledWithout(slot, keys, chains, x);
    chains' := chains[slot(k) := Without(chains[slot(k)], x)];
  }

  /** Move a node to the chain of its new key. */
  method Relink(slot: int -> nat, chains: seq<seq<Id>>, x: Id, k: int, k': int, ghost keys: map<Id, int>)
    returns (chains': seq<seq<Id>>)
    requires Chained(slot, keys, chains) && x in keys && keys[x] == k
    ensures Chained(slot, keys[x := k'], chains')
  {
    chains' := Unlink(slot, chains, x, k, keys);
    chains' := Link(slot, chains', x, k', keys - {x});
    assert (keys - {x})[x := k'] == keys[x := k'];
  }

  lemma KeysWith(nodes: Nodes, x: Id, n: Node)
    requires x !in nodes
    ensures Fds(nodes[x := n]) == Fds(nodes)[x := n.fd] && Datas(nodes[x := n]) == Datas(nodes)[x := n.data]
    ensures |nodes[x := n]| == |nodes| + 1
  {
  }

  lemma KeysWithout(nodes: Nodes, x: Id)
    requires x in nodes
    ensures Fds(nodes - {x}) == Fds(nodes) - {x} && Datas(nodes - {x}) == Datas(nodes) - {x}
    ensures |nodes - {x}| == |nodes| - 1
  {
    assert nodes == (nodes - {x})[x := nodes[x]];
  }

  lemma KeysChange(nodes: Nodes, x: Id, n: Node)
    requires x in nodes && n.fd == nodes[x].fd
    ensures Fds(nodes[x := n]) == Fds(nodes) && Datas(nodes[x := n]) == Datas(nodes)[x := n.data]
    ensures |nodes[x := n]| == |nodes|
  {
    assert nodes == nodes[x := n][x := nodes[x]];
  }

  method Insert(t: Index, x: Id, n: Node) returns (t': Index)
    requires x !in t.nodes
    ensures t'.nodes == t.nodes[x := n] && t'.generation == t.generation + 1
  {
    var nodes := t.nodes[x := n];
    var byFd := Link(t.fdSlot, t.byFd, x, n.fd, Fds(t.nodes));
    var byData := Link(t.dataSlot, t.byData, x, n.data, Datas(t.nodes));
    KeysWith(t.nodes, x, n);
    t' := Table(t.fdSlot, t.dataSlot, nodes, byFd, byData, t.count + 1, t.generation + 1);
  }

  /** `node_remove_ptr_locked` */
  method Remove(t: Index, x: Id) returns (t': Index)
    requires x in t.nodes
    ensures t'.nodes == t.nodes - {x} && t'.generation == t.generation + 1
  {
    var n, nodes := t.nodes[x], t.nodes - {x};
    var byFd := Unlink(t.fdSlot, t.byFd, x, n.fd, Fds(t.nodes));
    var byData := Unlink(t.dataSlot, t.byData, x, n.data, Datas(t.nodes));
    KeysWithout(t.nodes, x);
    t' := Table(t.fdSlot, t.dataSlot, nodes, byFd, byData, t.count - 1, t.generation + 1);
  }

  /** A MOD of a known registration: the node moves to the chain of its new data. */
  method Change(t: Index, x: Id, n: Node) returns (t': Index)
    requires x in t.nodes && n.fd == t.nodes[x].fd
    ensures t'.nodes == t.nodes[x := n] && t'.generation == t.generation + 1
  {
    var nodes := t.nodes[x := n];
    var byData := Relink(t.dataSlot, t.byData, x, t.nodes[x].data, n.data, Datas(t.nodes));
    KeysChange(t.nodes, x, n);
    t' := Table(t.fdSlot, t.dataSlot, nodes, t.byFd, byData, t.count, t.generation + 1);
  }

  // ------------------------------------------------------------------ control

  function Matching(nodes: Nodes, list: seq<Id>, fd: int, identity: int): set<Id> {
    set x | x in list && x in nodes && nodes[x].fd == fd && nodes[x].identity == identity
  }

  /** The registrations of the current open file description behind a descriptor. */
  ghost predicate Names(nodes: Nodes, fd: int, identity: int, xs: set<Id>) {
    forall x :: x in xs <==> x in nodes && nodes[x].fd == fd && nodes[x].identity == identity
  }

  predicate Matches(n: Node, fd: int, identity: int) {
    n.fd == fd && n.identity == identity
  }

  lemma NoneNamed(nodes: Nodes, fd: int, identity: int, xs: set<Id>)
    requires Names(nodes, fd, identity, xs)
    ensures |xs| == 0 <==> forall y :: y in nodes ==> !Matches(nodes[y], fd, identity)
  {
    if |xs| != 0 {
      var x :| x in xs;
      assert Matches(nodes[x], fd, identity);
    } else {
      assert xs == {};
    }
  }

  lemma MatchingMore(nodes: Nodes, chain: seq<Id>, i: nat, fd: int, identity: int)
    requires NoDuplicates(chain) && i < |chain| && chain[i] in nodes
    ensures chain[i] !in Matching(nodes, chain[..i], fd, identity)
    ensures Matching(nodes, chain[..i + 1], fd, identity) ==
              Matching(nodes, chain[..i], fd, identity) + Matching(nodes, [chain[i]], fd, identity)
  {
    Fresh(chain, i);
    assert chain[..i + 1] == chain[..i] + [chain[i]];
  }

  lemma MatchingOne(nodes: Nodes, x: Id, fd: int, identity: int)
    requires x in nodes
    ensures Matching(nodes, [x], fd, identity) ==
              if nodes[x].fd == fd && nodes[x].identity == identity then {x} else {}
  {
  }

  lemma MatchingStep(nodes: Nodes, chain: seq<Id>, i: nat, fd: int, identity: int, x: Id)
    requires NoDuplicates(chain) && i < |chain| && chain[i] in nodes
    requires |Matching(nodes, chain[..i], fd, identity)| == 1 ==> Matching(nodes, chain[..i], fd, identity) == {x}
    ensures var n, seen, more := nodes[chain[i]], Matching(nodes, chain[..i], fd, identity),
                                 Matching(nodes, chain[..i + 1], fd, identity);
            if n.fd == fd && n.identity == identity then |more| == |seen| + 1 && (|more| == 1 ==> more == {chain[i]})
            else |more| == |seen| && (|more| == 1 ==> more == {x})
  {
    MatchingMore(nodes, chain, i, fd, identity);
    MatchingOne(nodes, chain[i], fd, identity);
    assert |Matching(nodes, chain[..i], fd, identity)| == 0 ==> Matching(nodes, chain[..i], fd, identity) == {};
  }

  /** `node_find_identity_locked`: how many registrations match, and the match if there is one. */
  method Find(t: Index, fd: int, identity: int) returns (matches: nat, x: Id, ghost xs: set<Id>)
    ensures Names(t.nodes, fd, identity, xs) && matches == |xs|
    ensures matches == 1 ==> xs == {x}
    ensures matches == 0 <==> forall y :: y in t.nodes ==> !Matches(t.nodes[y], fd, identity)
    ensures matches == 1 ==> x in t.nodes && Matches(t.nodes[x], fd, identity)
  {
    var chain := t.byFd[t.fdSlot(fd)];
    matches, x := 0, 0;
    for i := 0 to |chain|
      invariant matches == |Matching(t.nodes, chain[..i], fd, identity)|
      invariant matches == 1 ==> Matching(t.nodes, chain[..i], fd, identity) == {x}
    {
      assert chain[i] in chain && chain[i] in Fds(t.nodes);
      MatchingStep(t.nodes, chain, i, fd, identity, x);
      if t.nodes[chain[i]].fd == fd && t.nodes[chain[i]].identity == identity {
        matches, x := matches + 1, chain[i];
      }
    }
    assert chain[..|chain|] == chain;
    xs := Matching(t.nodes, chain, fd, identity);
    forall y | y in t.nodes && t.nodes[y].fd == fd
      ensures y in chain
    {
      assert y in Fds(t.nodes);
    }
    NoneNamed(t.nodes, fd, identity, xs);
  }

  /** `EPOLL_CTL_ADD` of `port_ctl_ctx`; a failed allocation undoes the native registration. */
  method Add(t: Index, x: Id, n: Node, native: bool, memory: bool) returns (t': Index, ok: bool)
    requires x !in t.nodes
    ensures ok == (native && memory)
    ensures if ok then t'.nodes == t.nodes[x := n] && t'.generation > t.generation else t' == t
  {
    t', ok := t, native && memory;
    if ok {
      t' := Insert(t, x, n);
    }
  }

  /** `EPOLL_CTL_MOD`: the one matching registration changes, a native one without metadata is adopted at the free
      address `x`, and an ambiguous descriptor is refused. */
  method Mod(t: Index, x: Id, n: Node, native: bool, memory: bool) returns (t': Index, ok: bool, y: Id, ghost xs: set<Id>)
    requires x !in t.nodes
    ensures Names(t.nodes, n.fd, n.identity, xs)
    ensures ok == (|xs| <= 1 && native && (xs == {} ==> memory))
    ensures if !ok then t' == t
            else t'.generation > t.generation && xs <= {y} && (xs == {} ==> y == x) && t'.nodes == t.nodes[y := n]
  {
    var matches;
    matches, y, xs := Find(t, n.fd, n.identity);
    t', ok := t, matches <= 1 && native && (matches == 0 ==> memory);
    if ok {
      if matches == 1 {
        assert y in xs;
        t' := Change(t, y, n);
      } else {
        y := x;
        t' := Insert(t, x, n);
      }
    }
  }

  /** `EPOLL_CTL_DEL`: the one matching registration goes, stale ones stay, and an ambiguous descriptor is refused. */
  method Del(t: Index, fd: int, identity: int, native: bool) returns (t': Index, ok: bool, ghost xs: set<Id>)
    ensures Names(t.nodes, fd, identity, xs)
    ensures ok == (|xs| <= 1 && native)
    ensures if ok && xs != {} then t'.nodes == t.nodes - xs && t'.generation > t.generation else t' == t
  {
    var matches, y;
    matches, y, xs := Find(t, fd, identity);
    t', ok := t, matches <= 1 && native;
    if ok && matches == 1 {
      assert y in xs;
      t' := Remove(t, y);
    }
  }

  // ---------------------------------------------------------------- expansion

  datatype Option = None | Some(node: Node)

  /** Exactly one node carries these event data. */
  ghost predicate Only(nodes: Nodes, data: int, x: Id) {
    x in nodes && nodes[x].data == data && forall y :: y in nodes && nodes[y].data == data ==> y == x
  }

  /** The context of an event: the unique registration with its data, if the metadata are those of the wait. */
  ghost predicate Attached(nodes: Nodes, stable: bool, data: int, o: Option) {
    if o.Some? then stable && exists x :: Only(nodes, data, x) && o.node == nodes[x]
    else stable ==> forall x :: !Only(nodes, data, x)
  }

  /** `node_snapshot_by_data_locked`: the search stops at a second match. */
  method Snapshot(t: Index, data: int) returns (o: Option)
    ensures Attached(t.nodes, true, data, o)
  {
    var chain := t.byData[t.dataSlot(data)];
    assert forall j :: 0 <= j < |chain| ==> chain[j] in chain && chain[j] in Datas(t.nodes);
    var matches, last, i := 0, 0, 0;
    ghost var first := 0;
    while i < |chain| && matches < 2
      invariant forall j :: 0 <= j < |chain| ==> chain[j] in t.nodes
      invariant 0 <= i <= |chain| && 0 <= matches <= 2
      invariant forall j :: 0 <= j < i && t.nodes[chain[j]].data == data ==>
                              matches > 0 && (matches == 1 ==> chain[j] == last)
      invariant matches > 0 ==> last in chain[..i] && t.nodes[last].data == data
      invariant matches == 2 ==> first in t.nodes && first != last && t.nodes[first].data == data
      decreases |chain| - i
    {
      Fresh(chain, i);
      if t.nodes[chain[i]].data == data {
        first, last, matches := last, chain[i], matches + 1;
      }
      i := i + 1;
    }
    forall y | y in t.nodes && t.nodes[y].data == data
      ensures y in chain
    {
      assert y in Datas(t.nodes);
    }
    if matches == 1 {
      assert Only(t.nodes, data, last);
      return Some(t.nodes[last]);
    }
    return None;
  }

  newtype byte = x: int | 0 <= x < 256

  type Bytes = seq<byte>

  const NATIVE := 12      // sizeof(struct epoll_event), packed: events, data
  const EXTENDED := 40    // sizeof(struct epoll_event_ex): events, data, flags, timestamp, user_ctx

  const ONESHOT_FIRED := 1
  const ET_DELIVERED := 2
  const EDGE_ARMED := 4

  /** Little-endian value of some bytes, and back. */
  function Value(b: Bytes): int {
    if b == [] then 0 else b[0] as int + 256 * Value(b[1..])
  }

  function Word(v: int, n: nat): (b: Bytes)
    ensures |b| == n
    decreases n
  {
    if n == 0 then [] else [(v % 256) as byte] + Word(v / 256, n - 1)
  }

  lemma Digits(a: int, q: int)
    requires 0 <= a < 256
    ensures (a + 256 * q) % 256 == a && (a + 256 * q) / 256 == q
  {
  }

  /** Equal values are equal bytes. */
  lemma {:induction false} WordValue(b: Bytes)
    ensures Word(Value(b), |b|) == b
  {
    if b != [] {
      var rest := b[1..];
      WordValue(rest);
      Digits(b[0] as int, Value(rest));
      assert Word(Value(b), |b|) == [b[0]] + Word(Value(rest), |rest|);
    }
  }

  function DataOf(native: Bytes): int
    requires |native| == NATIVE
  {
    Value(native[4..12])
  }

  function Flags(o: Option): int {
    if o.None? then 0
    else (if o.node.et then ET_DELIVERED + EDGE_ARMED else 0) + (if o.node.oneshot then ONESHOT_FIRED else 0)
  }

  /** The extended record of a native one. */
  function Expanded(native: Bytes, o: Option, now: int): (r: Bytes)
    requires |native| == NATIVE
    ensures |r| == EXTENDED
  {
    Front(native) + Back(Word(Flags(o), 4), Word(now, 8), Word(if o.Some? then o.node.ctx else 0, 8))
  }

  /** The members taken over, with the padding before the data. */
  function Front(native: Bytes): Bytes
    requires |native| == NATIVE
  {
    native[..4] + Word(0, 4) + native[4..12]
  }

  /** The members that are new, with the padding before the time. */
  function Back(flags: Bytes, now: Bytes, ctx: Bytes): Bytes {
    flags + Word(0, 4) + now + ctx
  }

  lemma {:induction false} ValueWord(v: int, n: nat)
    requires 0 <= v < Power(n)
    ensures Value(Word(v, n)) == v
  {
    if n > 0 {
      ValueWord(v / 256, n - 1);
      assert Word(v, n)[1..] == Word(v / 256, n - 1);
    }
  }

  function Power(n: nat): (p: nat)
    ensures p > 0
  {
    if n == 0 then 1 else 256 * Power(n - 1)
  }

  lemma Powers()
    ensures Power(4) == 0x1_0000_0000 && Power(8) == 0x1_0000_0000_0000_0000
  {
    assert Power(2) == 0x1_0000 && Power(3) == 0x100_0000;
    assert Power(4) == 0x1_0000_0000 && Power(5) == 0x100_0000_0000 && Power(6) == 0x1_0000_0000_0000;
    assert Power(7) == 0x100_0000_0000_0000;
  }

  lemma FlagBits(o: Option)
    ensures 0 <= Flags(o) < 8
    ensures Flags(o) % 2 == 1 <==> o.Some? && o.node.oneshot
    ensures (Flags(o) / 2 % 2 == 1 <==> o.Some? && o.node.et) && (Flags(o) / 4 == 1 <==> o.Some? && o.node.et)
  {
  }

  /** Which bytes of an extended record say what: the event bits and the data are those of the native record, and flags,
      time and context stand at the offsets of the C structure. */
  lemma ExpandedFields(native: Bytes, o: Option, now: int)
    requires |native| == NATIVE && 0 <= now < 0x1_0000_0000_0000_0000
    requires o.Some? ==> 0 <= o.node.ctx < 0x1_0000_0000_0000_0000
    ensures var r := Expanded(native, o, now);
            var flags := Value(r[16..20]);
            && r[0..4] == native[0..4] && Value(r[4..8]) == 0 && r[8..16] == native[4..12]
            && 0 <= flags < 8
            && (flags % 2 == 1 <==> o.Some? && o.node.oneshot)
            && (flags / 2 % 2 == 1 <==> o.Some? && o.node.et) && (flags / 4 == 1 <==> o.Some? && o.node.et)
            && Value(r[20..24]) == 0 && Value(r[24..32]) == now
            && Value(r[32..40]) == if o.Some? then o.node.ctx else 0
  {
    var r := Expanded(native, o, now);
    var ctx := if o.Some? then o.node.ctx else 0;
    Powers();
    FlagBits(o);
    ValueWord(0, 4);
    ValueWord(Flags(o), 4);
    ValueWord(now, 8);
    ValueWord(ctx, 8);
    Slices(native, Word(Flags(o), 4), Word(now, 8), Word(ctx, 8));
  }

  lemma FrontSlices(native: Bytes)
    requires |native| == NATIVE
    ensures |Front(native)| == 16 && Front(native)[0..4] == native[0..4]
    ensures Front(native)[4..8] == Word(0, 4) && Front(native)[8..16] == native[4..12]
  {
  }

  lemma BackSlices(flags: Bytes, now: Bytes, ctx: Bytes)
    requires |flags| == 4 && |now| == |ctx| == 8
    ensures |Back(flags, now, ctx)| == 24 && Back(flags, now, ctx)[0..4] == flags
    ensures Back(flags, now, ctx)[4..8] == Word(0, 4) && Back(flags, now, ctx)[8..16] == now
    ensures Back(flags, now, ctx)[16..24] == ctx
  {
  }

  lemma Shifted(front: Bytes, back: Bytes, i: nat, j: nat)
    requires i <= j
    ensures j <= |back| ==> (front + back)[|front| + i..|front| + j] == back[i..j]
    ensures j <= |front| ==> (front + back)[i..j] == front[i..j]
  {
  }

  lemma Slices(native: Bytes, flags: Bytes, now: Bytes, ctx: Bytes)
    requires |native| == NATIVE && |flags| == 4 && |now| == |ctx| == 8
    ensures var r := Front(native) + Back(flags, now, ctx);
            && |r| == EXTENDED && r[0..4] == native[0..4] && r[4..8] == Word(0, 4) && r[8..16] == native[4..12]
            && r[16..20] == flags && r[20..24] == Word(0, 4) && r[24..32] == now && r[32..40] == ctx
  {
    FrontSlices(native);
    BackSlices(flags, now, ctx);
    Shifted(Front(native), Back(flags, now, ctx), 0, 4);
    Shifted(Front(native), Back(flags, now, ctx), 4, 8);
    Shifted(Front(native), Back(flags, now, ctx), 8, 16);
    Shifted(Front(native), Back(flags, now, ctx), 16, 24);
  }

  /** Record `i` of a batch. */
  function Native(buf: Bytes, i: nat): Bytes
    requires (i + 1) * NATIVE <= |buf|
  {
    buf[i * NATIVE..(i + 1) * NATIVE]
  }

  function Record(buf: Bytes, i: nat): Bytes
    requires (i + 1) * EXTENDED <= |buf|
  {
    buf[i * EXTENDED..(i + 1) * EXTENDED]
  }

  /** Record `j` of the buffer is the extended form of native record `j` of what was there. */
  ghost predicate Done(nodes: Nodes, was: Bytes, buf: Bytes, j: nat, stable: bool, now: int, o: Option)
    requires (j + 1) * EXTENDED <= |buf| == |was|
  {
    Attached(nodes, stable, DataOf(Native(was, j)), o) && Record(buf, j) == Expanded(Native(was, j), o, now)
  }

  /** Records `i` to `n` are expanded, the native records before them are still there. */
  ghost predicate Partly(nodes: Nodes, was: Bytes, buf: Bytes, i: nat, n: nat, stable: bool, now: int,
                         contexts: seq<Option>)
  {
    && n * EXTENDED <= |buf| == |was| && i <= n && |contexts| == n
    && buf[..i * NATIVE] == was[..i * NATIVE]
    && forall j :: i <= j < n ==> Done(nodes, was, buf, j, stable, now, contexts[j])
  }

  /** Write one record; a higher record and a lower native one are out of its way. */
  method Store(buf: array<byte>, i: nat, r: Bytes)
    requires (i + 1) * EXTENDED <= buf.Length && |r| == EXTENDED
    modifies buf
    ensures buf[..] == old(buf[..i * EXTENDED]) + r + old(buf[(i + 1) * EXTENDED..])
  {
    forall k | 0 <= k < EXTENDED {
      buf[i * EXTENDED + k] := r[k];
    }
  }

  /** A record above the one written. */
  lemma RecordAbove(buf: Bytes, r: Bytes, i: nat, j: nat)
    requires i < j && (j + 1) * EXTENDED <= |buf| && |r| == EXTENDED
    ensures Record(buf[..i * EXTENDED] + r + buf[(i + 1) * EXTENDED..], j) == Record(buf, j)
  {
  }

  lemma RecordWritten(buf: Bytes, r: Bytes, i: nat)
    requires (i + 1) * EXTENDED <= |buf| && |r| == EXTENDED
    ensures Record(buf[..i * EXTENDED] + r + buf[(i + 1) * EXTENDED..], i) == r
  {
  }

  lemma StoreKeeps(nodes: Nodes, was: Bytes, buf: Bytes, i: nat, n: nat, stable: bool, now: int,
                   contexts: seq<Option>, o: Option, r: Bytes)
    requires i < n && Partly(nodes, was, buf, i + 1, n, stable, now, contexts)
    requires Attached(nodes, stable, DataOf(Native(was, i)), o) && r == Expanded(Native(was, i), o, now)
    ensures Partly(nodes, was, buf[..i * EXTENDED] + r + buf[(i + 1) * EXTENDED..], i, n, stable, now, contexts[i := o])
  {
    var buf' := buf[..i * EXTENDED] + r + buf[(i + 1) * EXTENDED..];
    assert buf'[..i * NATIVE] == buf[..i * NATIVE] == buf[..(i + 1) * NATIVE][..i * NATIVE] == was[..i * NATIVE];
    RecordWritten(buf, r, i);
    forall j | i < j < n
      ensures Done(nodes, was, buf', j, stable, now, contexts[j])
    {
      assert Done(nodes, was, buf, j, stable, now, contexts[j]);
      RecordAbove(buf, r, i, j);
    }
  }

  /** The native record of the next turn is still intact. */
  lemma NativeKept(was: Bytes, buf: Bytes, i: nat)
    requires (i + 1) * NATIVE <= |buf| == |was| && buf[..(i + 1) * NATIVE] == was[..(i + 1) * NATIVE]
    ensures Native(buf, i) == Native(was, i)
  {
    assert Native(buf, i) == buf[..(i + 1) * NATIVE][i * NATIVE..];
    assert Native(was, i) == was[..(i + 1) * NATIVE][i * NATIVE..];
  }

  /** One turn of the expansion loop. */
  method ExpandOne(t: Index, buf: array<byte>, i: nat, n: nat, stable: bool, now: int,
                   ghost was: Bytes, ghost contexts: seq<Option>)
    returns (ghost o: Option)
    requires i < n && Partly(t.nodes, was, buf[..], i + 1, n, stable, now, contexts)
    modifies buf
    ensures Partly(t.nodes, was, buf[..], i, n, stable, now, contexts[i := o])
  {
    NativeKept(was, buf[..], i);
    var native := buf[i * NATIVE..(i + 1) * NATIVE];
    var found := None;
    if stable {
      found := Snapshot(t, DataOf(native));
    }
    o := found;
    var r := Expanded(native, found, now);
    StoreKeeps(t.nodes, was, buf[..], i, n, stable, now, contexts, o, r);
    Store(buf, i, r);
  }

  /** The expansion loop of `posix_wait_ex`: backward and in place, it turns each native record into its extended
      one, with a context exactly when the metadata are unchanged and one registration carries the data. */
  method Expand(t: Index, buf: array<byte>, n: nat, stable: bool, now: int) returns (ghost contexts: seq<Option>)
    requires n * EXTENDED <= buf.Length
    modifies buf
    ensures Partly(t.nodes, old(buf[..]), buf[..], 0, n, stable, now, contexts)
  {
    contexts := seq(n, _ => None);
    for i := n downto 0
      invariant Partly(t.nodes, old(buf[..]), buf[..], i, n, stable, now, contexts)
    {
      ghost var o := ExpandOne(t, buf, i, n, stable, now, old(buf[..]), contexts);
      contexts := contexts[i := o];
    }
  }
}
