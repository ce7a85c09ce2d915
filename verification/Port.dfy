/**
 The registrations of one Windows port: the handle table, the ready queue, the
 pending count and the completion packets in flight.  Every method of `Port` is one
 critical section under `fd_table_lock` of src/wepoll_ex_port.c.
 */
module PortMachine {
  import opened Readiness
  import opened History
  import opened Registration
  import opened Sets
  import opened Worklist

  type Id = nat   // the address of a registration; freed ones are reused

  /** What the critical sections share; `nodes` is the ready queue behind a node already taken off it. */
  datatype Book = Book(
    regs: map<Id, Reg>, table: map<int, Id>, nodes: seq<Node>,
    pendingCount: int, nextGeneration: nat, inFlight: multiset<Id>)

  // ---------------------------------------------------------------- invariant

  ghost predicate RegsFit(regs: map<Id, Reg>, nextGeneration: nat) {
    forall i {:trigger RegFits(regs[i], nextGeneration)} :: i in regs ==> RegFits(regs[i], nextGeneration)
  }

  predicate Live(regs: map<Id, Reg>, i: Id) {
    i in regs && regs[i].life.Attached?
  }

  /** The table names exactly the attached registrations. */
  ghost predicate TableFits(regs: map<Id, Reg>, table: map<int, Id>) {
    && (forall fd :: fd in table ==> Live(regs, table[fd]) && regs[table[fd]].id.fd == fd)
    && (forall i :: Live(regs, i) ==> regs[i].id.fd in table && table[regs[i].id.fd] == i)
  }

  ghost predicate GenerationsDiffer(regs: map<Id, Reg>) {
    forall i, j :: Live(regs, i) && Live(regs, j) && i != j ==> regs[i].generation != regs[j].generation
  }

  predicate IsOld(n: Node, nextGeneration: nat) {
    n.generation <= nextGeneration
  }

  ghost predicate NodesOld(nodes: seq<Node>, nextGeneration: nat) {
    forall k {:trigger IsOld(nodes[k], nextGeneration)} :: 0 <= k < |nodes| ==> IsOld(nodes[k], nextGeneration)
  }

  lemma AllOld(nodes: seq<Node>, nextGeneration: nat)
    requires NodesOld(nodes, nextGeneration)
    ensures forall k :: 0 <= k < |nodes| ==> nodes[k].generation <= nextGeneration
  {
    forall k | 0 <= k < |nodes|
      ensures nodes[k].generation <= nextGeneration
    {
      assert IsOld(nodes[k], nextGeneration);
    }
  }

  /** A node of a live registration's generation is its current snapshot, and there is one exactly when the
      registration says so. */
  ghost predicate NodesFit(r: Reg, nodes: seq<Node>) {
    && (forall k :: 0 <= k < |nodes| && nodes[k].generation == r.generation ==>
          r.ready.queued && nodes[k] == NodeOf(r))
    && (forall k, m :: 0 <= k < m < |nodes| && nodes[k].generation == r.generation ==>
          nodes[m].generation != r.generation)
    && (r.ready.queued ==> NodeOf(r) in nodes)
  }

  ghost predicate QueueFits(regs: map<Id, Reg>, nodes: seq<Node>) {
    forall i {:trigger NodesFit(regs[i], nodes)} :: Live(regs, i) ==> NodesFit(regs[i], nodes)
  }

  /** The registrations whose poll is pending or cancelled. */
  function Busy(regs: map<Id, Reg>): set<Id> {
    set i | i in regs && !regs[i].poll.status.Idle?
  }

  ghost predicate PacketsFit(regs: map<Id, Reg>, inFlight: multiset<Id>) {
    forall i: Id :: inFlight[i] == if i in regs then regs[i].poll.packets else 0
  }

  ghost predicate Inv(b: Book) {
    && RegsFit(b.regs, b.nextGeneration)
    && TableFits(b.regs, b.table)
    && GenerationsDiffer(b.regs)
    && NodesOld(b.nodes, b.nextGeneration)
    && QueueFits(b.regs, b.nodes)
    && b.pendingCount == |Busy(b.regs)|
    && PacketsFit(b.regs, b.inFlight)
  }

  // -------------------------------------------------- one section, then the book

  function Without<K, V>(m: map<K, V>, k: K): map<K, V> {
    map x | x in m && x != k :: m[x]
  }

  /** Put the registration back: freed storage leaves, a detached registration leaves the table. */
  function Commit(b: Book, i: Id, l: Step): Book
    requires i in b.regs
  {
    var fd := b.regs[i].id.fd;
    Book(if l.r.life.Freed? then Without(b.regs, i) else b.regs[i := l.r],
         if !l.r.life.Attached? && fd in b.table && b.table[fd] == i then Without(b.table, fd) else b.table,
         b.nodes + l.out, l.pendingCount, l.nextGeneration, b.inFlight[i := l.r.poll.packets])
  }

  /** `l` was reached from the start of a section on `i`. */
  predicate From(b: Book, i: Id, l: Local) {
    && i in b.regs && l.base.id == b.regs[i].id && l.base.generation == b.regs[i].generation
    && l.base.node == (if b.regs[i].ready.queued then Some(NodeOf(b.regs[i])) else None)
    && l.base.nextGeneration == b.nextGeneration && l.base.slack == b.pendingCount - NonIdle(b.regs[i])
    && (!b.regs[i].life.Attached? ==> !l.r.life.Attached? && l.out == [])
    && (l.r.life.Attached? ==> !l.busy)
  }

  lemma CommitRegs(b: Book, i: Id, l: Step)
    requires RegsFit(b.regs, b.nextGeneration) && From(b, i, l)
    ensures RegsFit(Commit(b, i, l).regs, l.nextGeneration)
  {
    var regs' := Commit(b, i, l).regs;
    forall j | j in regs'
      ensures RegFits(regs'[j], l.nextGeneration)
    {
      if j != i {
        assert RegFits(b.regs[j], b.nextGeneration);
      }
    }
  }

  lemma CommitTable(b: Book, i: Id, l: Step)
    requires TableFits(b.regs, b.table) && From(b, i, l)
    ensures TableFits(Commit(b, i, l).regs, Commit(b, i, l).table)
  {
    var b' := Commit(b, i, l);
    assert forall j :: j != i ==> (Live(b'.regs, j) <==> Live(b.regs, j));
    assert Live(b'.regs, i) ==> Live(b.regs, i) && b'.regs[i].id == b.regs[i].id;
  }

  lemma CommitGenerations(b: Book, i: Id, l: Step)
    requires RegsFit(b.regs, b.nextGeneration) && GenerationsDiffer(b.regs) && From(b, i, l)
    ensures GenerationsDiffer(Commit(b, i, l).regs)
  {
    var regs' := Commit(b, i, l).regs;
    forall j, k | Live(regs', j) && Live(regs', k) && j != k
      ensures regs'[j].generation != regs'[k].generation
    {
      assert Live(b.regs, j) && Live(b.regs, k);
      assert RegFits(b.regs[j], b.nextGeneration) && RegFits(b.regs[k], b.nextGeneration);
    }
  }

  /** The other registrations do not see the section's pushes. */
  lemma OthersKeepNodes(r: Reg, nodes: seq<Node>, out: seq<Node>)
    requires NodesFit(r, nodes)
    requires forall k :: 0 <= k < |out| ==> out[k].generation != r.generation
    ensures NodesFit(r, nodes + out)
  {
  }

  lemma OwnNodes(b: Book, i: Id, l: Step)
    requires From(b, i, l) && l.r.life.Attached?
    requires NodesFit(b.regs[i], b.nodes) && NodesOld(b.nodes, b.nextGeneration)
    ensures NodesFit(l.r, b.nodes + l.out)
  {
    AllOld(b.nodes, b.nextGeneration);
  }

  lemma CommitNodes(b: Book, i: Id, l: Step)
    requires Inv(b) && From(b, i, l)
    ensures NodesOld(b.nodes + l.out, l.nextGeneration)
    ensures QueueFits(Commit(b, i, l).regs, b.nodes + l.out)
  {
    var regs' := Commit(b, i, l).regs;
    AllOld(b.nodes, b.nextGeneration);
    CommitGenerations(b, i, l);
    forall j: Id | Live(regs', j)
      ensures NodesFit(regs'[j], b.nodes + l.out)
    {
      assert Live(b.regs, j);
      if j == i {
        OwnNodes(b, i, l);
      } else {
        assert l.out != [] ==> Live(regs', i) && l.out == [NodeOf(regs'[i])];
        OthersKeepNodes(b.regs[j], b.nodes, l.out);
      }
    }
  }

  lemma CommitCount(b: Book, i: Id, l: Step)
    requires From(b, i, l) && b.pendingCount == |Busy(b.regs)|
    ensures l.pendingCount == |Busy(Commit(b, i, l).regs)|
  {
    var regs' := Commit(b, i, l).regs;
    assert Busy(regs') - {i} == Busy(b.regs) - {i};
    assert i in Busy(regs') <==> !l.r.poll.status.Idle?;
    CardinalityWithout(Busy(regs'), i);
    CardinalityWithout(Busy(b.regs), i);
  }

  lemma CommitPackets(b: Book, i: Id, l: Step)
    requires From(b, i, l) && PacketsFit(b.regs, b.inFlight)
    ensures PacketsFit(Commit(b, i, l).regs, Commit(b, i, l).inFlight)
  {
  }

  /** Every critical section keeps the port's invariant. */
  lemma CommitKeeps(b: Book, i: Id, l: Step)
    requires Inv(b) && From(b, i, l)
    ensures Inv(Commit(b, i, l))
  {
    CommitRegs(b, i, l);
    CommitTable(b, i, l);
    CommitGenerations(b, i, l);
    CommitNodes(b, i, l);
    CommitCount(b, i, l);
    CommitPackets(b, i, l);
  }

  /** The live registrations that wait for a request the kernel gave up. */
  function Orphaned(regs: map<Id, Reg>): set<Id> {
    set i | i in regs && regs[i].life.Attached? && regs[i].work.orphaned
  }

  /** The live registrations on both worklists. */
  function Crowded(regs: map<Id, Reg>): set<Id> {
    set i | i in regs && regs[i].life.Attached? && Doubled(regs[i])
  }

  /** No registration is newly forgotten, or newly on both worklists. */
  predicate Unspoiled(regs0: map<Id, Reg>, regs: map<Id, Reg>) {
    Orphaned(regs) <= Orphaned(regs0) && Crowded(regs) <= Crowded(regs0)
  }

  lemma CommitMarks(b: Book, i: Id, l: Step)
    requires From(b, i, l)
    ensures Orphaned(Commit(b, i, l).regs) <= Orphaned(b.regs) + {i}
    ensures Crowded(Commit(b, i, l).regs) <= Crowded(b.regs) + {i}
    ensures (l.base.orphaned ==> b.regs[i].work.orphaned) && (l.base.doubled ==> Doubled(b.regs[i])) ==>
              Unspoiled(b.regs, Commit(b, i, l).regs)
  {
  }

  /** The other registrations are as they were. */
  ghost predicate Elsewhere(regs0: map<Id, Reg>, regs: map<Id, Reg>, i: Id) {
    forall j :: j != i ==> (j in regs <==> j in regs0) && (j in regs0 ==> regs[j] == regs0[j])
  }

  /** The same registration, with nothing returned in between. */
  predicate SameCounts(r0: Reg, r: Reg) {
    && r.id == r0.id && r.log.tally.returned == r0.log.tally.returned && r.log.tally.roused == r0.log.tally.roused
  }

  /** No registration is new, and whatever rested still does, if it is still there. */
  ghost predicate StillRests(regs0: map<Id, Reg>, regs: map<Id, Reg>) {
    forall i :: Live(regs, i) ==>
      Live(regs0, i) && SameCounts(regs0[i], regs[i]) && (Rests(regs0[i]) ==> Rests(regs[i]))
  }

  lemma CommitRests(b: Book, i: Id, l: Step)
    requires From(b, i, l)
    ensures (l.r.life.Attached? ==> SameCounts(b.regs[i], l.r) && (Rests(b.regs[i]) ==> Rests(l.r))) ==>
              StillRests(b.regs, Commit(b, i, l).regs)
  {
  }

  // ------------------------------------------------------- adding and returning

  function Insert(b: Book, i: Id, id: Ident, u: User): Book {
    var g := b.nextGeneration + 1;
    b.(regs := b.regs[i := NewReg(id, u, g)], table := b.table[id.fd := i], nextGeneration := g)
  }

  lemma InsertKeeps(b: Book, i: Id, id: Ident, u: User)
    requires Inv(b) && i !in b.regs && id.fd !in b.table && Registrable(id.explicitPort, id.kind, u)
    ensures Inv(Insert(b, i, id, u))
  {
    InsertRegs(b, i, id, u);
    InsertTable(b, i, id, u);
    InsertNodes(b, i, id, u);
    StillOld(b.nodes, b.nextGeneration);
    assert Busy(Insert(b, i, id, u).regs) == Busy(b.regs);
  }

  lemma StillOld(nodes: seq<Node>, nextGeneration: nat)
    requires NodesOld(nodes, nextGeneration)
    ensures NodesOld(nodes, nextGeneration + 1)
  {
    AllOld(nodes, nextGeneration);
  }

  lemma InsertRegs(b: Book, i: Id, id: Ident, u: User)
    requires RegsFit(b.regs, b.nextGeneration) && Registrable(id.explicitPort, id.kind, u)
    ensures RegsFit(Insert(b, i, id, u).regs, b.nextGeneration + 1)
  {
    var regs' := Insert(b, i, id, u).regs;
    forall j | j in regs'
      ensures RegFits(regs'[j], b.nextGeneration + 1)
    {
      if j == i {
        assert regs'[i] == Begin(id, u, b.nextGeneration, b.pendingCount).r;
      } else {
        assert RegFits(b.regs[j], b.nextGeneration);
      }
    }
  }

  lemma InsertTable(b: Book, i: Id, id: Ident, u: User)
    requires TableFits(b.regs, b.table) && PacketsFit(b.regs, b.inFlight) && i !in b.regs && id.fd !in b.table
    ensures TableFits(Insert(b, i, id, u).regs, Insert(b, i, id, u).table)
    ensures PacketsFit(Insert(b, i, id, u).regs, b.inFlight)
  {
    var b' := Insert(b, i, id, u);
    assert forall j :: j != i ==> (Live(b'.regs, j) <==> Live(b.regs, j));
  }

  lemma InsertNodes(b: Book, i: Id, id: Ident, u: User)
    requires Inv(b) && i !in b.regs && id.fd !in b.table
    ensures QueueFits(Insert(b, i, id, u).regs, b.nodes) && GenerationsDiffer(Insert(b, i, id, u).regs)
  {
    var b' := Insert(b, i, id, u);
    AllOld(b.nodes, b.nextGeneration);
    forall j: Id | Live(b'.regs, j)
      ensures NodesFit(b'.regs[j], b.nodes)
    {
      assert j != i ==> Live(b.regs, j) && NodesFit(b.regs[j], b.nodes);
    }
    forall j, k | Live(b'.regs, j) && Live(b'.regs, k) && j != k
      ensures b'.regs[j].generation != b'.regs[k].generation
    {
      assert j != i ==> Live(b.regs, j) && RegFits(b.regs[j], b.nextGeneration);
      assert k != i ==> Live(b.regs, k) && RegFits(b.regs[k], b.nextGeneration);
    }
  }

  lemma InsertMarks(b: Book, i: Id, id: Ident, u: User)
    requires i !in b.regs
    ensures Orphaned(Insert(b, i, id, u).regs) == Orphaned(b.regs)
    ensures Crowded(Insert(b, i, id, u).regs) == Crowded(b.regs)
  {
  }

  lemma TailFits(r: Reg, nodes: seq<Node>)
    requires NodesFit(r, nodes) && nodes != [] && nodes[0].generation != r.generation
    ensures NodesFit(r, nodes[1..])
  {
    assert NodeOf(r) in nodes ==> NodeOf(r) in nodes[1..];
  }

  /** Taking a current node off and returning its event. */
  function TakeBack(b: Book, i: Id): Book
    requires Inv(b) && Live(b.regs, i) && b.nodes != [] && b.nodes[0].generation == b.regs[i].generation
  {
    assert NodesFit(b.regs[i], b.nodes) && RegFits(b.regs[i], b.nextGeneration);
    b.(regs := b.regs[i := Return(b.regs[i], b.nodes[0])], nodes := b.nodes[1..])
  }

  lemma TakeBackNodes(b: Book, i: Id)
    requires Inv(b) && Live(b.regs, i) && b.nodes != [] && b.nodes[0].generation == b.regs[i].generation
    ensures QueueFits(TakeBack(b, i).regs, b.nodes[1..])
  {
    var regs' := TakeBack(b, i).regs;
    forall j: Id | Live(regs', j)
      ensures NodesFit(regs'[j], b.nodes[1..])
    {
      assert NodesFit(b.regs[j], b.nodes);
      if j == i {
        assert forall k :: 0 <= k < |b.nodes| - 1 ==> b.nodes[1..][k] == b.nodes[k + 1];
      } else {
        TailFits(b.regs[j], b.nodes);
      }
    }
  }

  lemma TakeBackRegs(b: Book, i: Id)
    requires Inv(b) && Live(b.regs, i) && b.nodes != [] && b.nodes[0].generation == b.regs[i].generation
    ensures RegsFit(TakeBack(b, i).regs, b.nextGeneration) && PacketsFit(TakeBack(b, i).regs, b.inFlight)
  {
    var regs' := TakeBack(b, i).regs;
    forall j | j in regs'
      ensures RegFits(regs'[j], b.nextGeneration)
    {
      assert RegFits(b.regs[j], b.nextGeneration);
    }
  }

  lemma TakeBackTable(b: Book, i: Id)
    requires Inv(b) && Live(b.regs, i) && b.nodes != [] && b.nodes[0].generation == b.regs[i].generation
    ensures TableFits(TakeBack(b, i).regs, b.table) && GenerationsDiffer(TakeBack(b, i).regs)
  {
    var regs' := TakeBack(b, i).regs;
    assert forall j :: Live(regs', j) <==> Live(b.regs, j);
  }

  lemma TakeBackCount(b: Book, i: Id)
    requires Inv(b) && Live(b.regs, i) && b.nodes != [] && b.nodes[0].generation == b.regs[i].generation
    ensures Busy(TakeBack(b, i).regs) == Busy(b.regs)
  {
  }

  lemma TakeBackKeeps(b: Book, i: Id)
    requires Inv(b) && Live(b.regs, i) && b.nodes != [] && b.nodes[0].generation == b.regs[i].generation
    ensures Inv(TakeBack(b, i))
  {
    TakeBackNodes(b, i);
    TakeBackRegs(b, i);
    TakeBackTable(b, i);
    TakeBackCount(b, i);
  }

  /** A node whose handle has no registration of its generation is stale for every live registration. */
  lemma DiscardKeeps(b: Book)
    requires Inv(b) && b.nodes != []
    requires b.nodes[0].fd in b.table ==> b.regs[b.table[b.nodes[0].fd]].generation != b.nodes[0].generation
    ensures Inv(b.(nodes := b.nodes[1..]))
  {
    forall j: Id | Live(b.regs, j)
      ensures NodesFit(b.regs[j], b.nodes[1..])
    {
      assert NodesFit(b.regs[j], b.nodes);
      TailFits(b.regs[j], b.nodes);
    }
  }

  // ------------------------------------------------------------------ the port

  type Ledger = b: Book | Inv(b) ghost witness Empty()

  function Empty(): (b: Book)
    ensures Inv(b)
  {
    assert Busy(map[]) == {};
    Book(map[], map[], [], 0, 0, multiset{})
  }

  /** The start of a critical section, which `settles` a request that may have been given up. */
  method Open(b: Ledger, i: Id, settles: bool) returns (l: Step)
    requires i in b.regs
    ensures From(b, i, l) && l.r == b.regs[i] && l.out == [] && !l.busy
    ensures l.base.orphaned == (settles || b.regs[i].work.orphaned)
    ensures l.base.doubled == (settles || Doubled(b.regs[i])) && l.base.kept == KeptOf(b.regs[i])
  {
    assert RegFits(b.regs[i], b.nextGeneration);
    l := Enter(b.regs[i], b.pendingCount, b.nextGeneration, settles);
  }

  /** The end of a critical section: the registration is put back, and no other registration notices. */
  method Close(b: Ledger, i: Id, l: Step) returns (b': Ledger)
    requires From(b, i, l)
    ensures Elsewhere(b.regs, b'.regs, i)
    ensures b'.table == if b.regs[i].life.Attached? && !l.r.life.Attached? then Without(b.table, l.r.id.fd) else b.table
    ensures b'.inFlight == b.inFlight[i := l.r.poll.packets]
    ensures l.r.life.Freed? <==> i !in b'.regs
    ensures i in b'.regs ==> b'.regs[i] == l.r
    ensures Live(b'.regs, i) <==> l.r.life.Attached?
    ensures b'.nodes == b.nodes + l.out
    ensures Orphaned(b'.regs) <= Orphaned(b.regs) + {i} && Crowded(b'.regs) <= Crowded(b.regs) + {i}
    ensures (l.base.orphaned ==> b.regs[i].work.orphaned) && (l.base.doubled ==> Doubled(b.regs[i])) ==>
              Unspoiled(b.regs, b'.regs)
    ensures (l.r.life.Attached? ==> SameCounts(b.regs[i], l.r) && (Rests(b.regs[i]) ==> Rests(l.r))) ==>
              StillRests(b.regs, b'.regs)
  {
    CommitKeeps(b, i, l);
    CommitMarks(b, i, l);
    CommitRests(b, i, l);
    b' := Commit(b, i, l);
  }

  function Inserted(b: Ledger, i: Id, id: Ident, u: User): (b': Ledger)
    requires i !in b.regs && id.fd !in b.table && Registrable(id.explicitPort, id.kind, u)
    ensures Orphaned(b'.regs) == Orphaned(b.regs) && Crowded(b'.regs) == Crowded(b.regs)
    ensures Elsewhere(b.regs, b'.regs, i)
  {
    InsertKeeps(b, i, id, u);
    InsertMarks(b, i, id, u);
    Insert(b, i, id, u)
  }

  /** The first section of a registration just inserted. */
  lemma FromInserted(b: Ledger, i: Id, id: Ident, u: User, l: Step)
    requires i !in b.regs && id.fd !in b.table && Registrable(id.explicitPort, id.kind, u)
    requires l.base == Begin(id, u, b.nextGeneration, b.pendingCount).base && !l.busy
    ensures From(Inserted(b, i, id, u), i, l)
    ensures Without(Inserted(b, i, id, u).table, id.fd) == b.table
  {
  }

  /** A registration enters the port, and its first section begins. */
  method Enrol(b: Ledger, i: Id, id: Ident, u: User) returns (b': Ledger, l: Step)
    requires i !in b.regs && id.fd !in b.table && Registrable(id.explicitPort, id.kind, u)
    ensures From(b', i, l) && l.r == NewReg(id, u, b.nextGeneration + 1) && l.out == [] && !l.busy
    ensures !l.base.orphaned && !l.base.doubled && i in b'.regs && b'.regs[i] == l.r
    ensures b'.table == b.table[id.fd := i] && Without(b'.table, id.fd) == b.table && b'.nodes == b.nodes
    ensures Orphaned(b'.regs) == Orphaned(b.regs) && Crowded(b'.regs) == Crowded(b.regs)
    ensures Elsewhere(b.regs, b'.regs, i)
  {
    l := Begin(id, u, b.nextGeneration, b.pendingCount);
    FromInserted(b, i, id, u, l);
    b' := Inserted(b, i, id, u);
  }

  /** What every control operation keeps to: failure changes nothing the caller can see, and outside a wait, or while
      one coalesces, what rests still does. */
  predicate Controlled(env: Env, l: Local, l': Local, ok: bool) {
    && l'.base == Rebase(l, l'.r.user) && !l'.busy && (ok ==> l'.r.life.Attached?)
    && (!ok && l'.r.life.Attached? ==> l'.out == [] && l'.r == l.r.(work := l.r.work.(lost := l'.r.work.lost)))
    && (!env.submits && Rests(l.r) ==> Rests(l'.r))
  }

  /** The system takes the first poll of a new registration. */
  predicate Taking(env: Env, id: Ident, u: User, a: Answer) {
    && Registrable(id.explicitPort, id.kind, u) && (id.kind.Socket? || env.submits)
    && Wants(env, NewReg(id, u, 0)) && Accepted(env, NewReg(id, u, 0), a)
  }

  /** A registration that is new, with nothing delivered or shut down. */
  predicate Entered(id: Ident, u: User, r: Reg) {
    && r.id == id && r.user == u && r.shutdown == {} && Undelivered(NewReg(id, u, 0), r)
    && r.log.tally.returned == 0 && r.log.tally.roused == 0
  }

  /** The critical section of ADD. */
  method Registers(env: Env, l: Step, id: Ident, u: User, ghost generation: nat, a: Answer) returns (l': Step, ok: bool)
    requires l.r == NewReg(id, u, generation) && l.out == [] && !l.busy && Registrable(id.explicitPort, id.kind, u)
    ensures l'.base == l.base && !l'.busy && (ok <==> l'.r.life.Attached?) && l'.out == []
    ensures Entered(id, u, l'.r)
    ensures Taking(env, id, u, a) ==> ok && Polled(env, NewReg(id, u, generation), l'.r)
    ensures Opens(NewReg(id, u, generation), a, l'.r)
  {
    l', ok := Register(env, l, a);
  }

  /** ADD, once its arguments are accepted. */
  method AddTo(env: Env, b: Ledger, i: Id, id: Ident, u: User, a: Answer) returns (b': Ledger, ok: bool)
    requires i !in b.regs && id.fd !in b.table && Registrable(id.explicitPort, id.kind, u)
    ensures b'.table == if ok then b.table[id.fd := i] else b.table
    ensures ok ==> i in b'.regs && Entered(id, u, b'.regs[i])
    ensures ok <==> Live(b'.regs, i)
    ensures Taking(env, id, u, a) ==> ok && Polled(env, NewReg(id, u, b.nextGeneration + 1), b'.regs[i])
    ensures ok ==> Opens(NewReg(id, u, b.nextGeneration + 1), a, b'.regs[i])
    ensures b'.nodes == b.nodes && Unspoiled(b.regs, b'.regs) && Elsewhere(b.regs, b'.regs, i)
  {
    var l;
    b', l := Enrol(b, i, id, u);
    l, ok := Registers(env, l, id, u, b.nextGeneration + 1, a);
    b' := Close(b', i, l);
  }

  /** The critical section of MOD. */
  method Reconfigures(env: Env, l: Step, u: User, cancel: Cancel, node: bool, a: Answer) returns (l': Step, ok: bool)
    requires l.r.life.Attached? && l.out == [] && !l.busy
    ensures Controlled(env, l, l', ok) && (ok ==> l'.r.user == u)
    ensures Amends(l.r, u) ==> l'.r.life.Attached? && l'.out == [] && Retained(l.r, u, cancel, l'.r)
    ensures NodeOwns(l.r) ==> (ok <==> Reconfigurable(l.r, u) && (node || u.events * WAITABLE_BITS == {}))
    ensures NodeOwns(l.r) && ok ==> Transfers(l.r, u, l'.out, l'.r)
  {
    l', ok := Modify(env, l, u, cancel, node, a);
  }

  /** MOD re-issued the queued notification of a registration, or made it the registration's own. */
  predicate Transferred(b0: Book, b: Book, i: Id, u: User)
    requires i in b0.regs && i in b.regs
  {
    b0.nodes <= b.nodes && Transfers(b0.regs[i], u, b.nodes[|b0.nodes|..], b.regs[i])
  }

  /** The critical section of a rearm, of some classes or of all. */
  method Rearms(env: Env, l: Step, classes: Classes, all: bool, cancel: Cancel, a: Answer) returns (l': Step, ok: bool)
    requires l.r.life.Attached? && l.out == [] && !l.busy && (all || classes != {})
    ensures Controlled(env, l, l', ok)
    ensures ok && all && l.r.work.fired ==> !l'.r.work.fired || l'.out != []
    ensures !all && !Explicit(l.r.id, l.r.user) ==> !ok && l' == l
    ensures env.submits && Rearmable(l.r, Asked(classes, all), all) ==>
              Resumes(env, Rearmed(l.r, Asked(classes, all)), a, l', ok)
  {
    if all {
      l', ok := Registration.Rearm(env, l, cancel, a);
    } else if Explicit(l.r.id, l.r.user) {
      l', ok := RearmClasses(env, l, classes, cancel, a);
    } else {
      l', ok := l, false;
    }
  }

  /** The critical section of a completion. */
  method Completes(env: Env, l: Step, p: Packet) returns (l': Step)
    requires l.r.poll.packets == 1 && l.out == [] && !l.r.life.Freed? && !l.busy && l.base.orphaned && l.base.doubled
    requires l.r.generation == l.base.generation
    ensures l'.base == l.base && (l'.r.life.Attached? ==> !l'.busy) && (l.r.life.Detached? ==> l'.r.life.Freed?)
    ensures !env.closing && l'.r.life.Attached? ==> (l'.r.work.orphaned <==> Orphans(l.r, p))
    ensures l'.r.life.Attached? ==> (Doubled(l'.r) <==> Crowds(env, l.r, p))
    ensures Notifies(env, l.r) && p.node ==>
              l'.r.life.Attached? && l'.r.ready.queued && l'.r.ready.pending == l.r.user.events * WAITABLE_BITS
    ensures Signals(env, l.r) ==> Shows(l.r, p, l') && !l.r.user.exclusive
    ensures Hears(env, l.r, p) ==>
              l'.r.life.Attached? && l'.r.ready.queued && l'.r.ready.pending == Heard(l.r, p, p.first)
    ensures Rehears(env, l.r, p) ==>
              && l'.r.life.Attached? && l'.r.ready.queued
              && l'.r.ready.pending == Heard(Refreshed(l.r, p.refresh), p, p.second)
    ensures Renewing(env, l.r, p) && LocalClose(p.second) ==> !l'.r.life.Attached?
    ensures Hears(env, l.r, p) && Heeds(l.r, p, p.first) ==>
              && l'.r.ready.observed == SocketLevel(l.r, p.ok, p.first)
              && l'.r.log == FoundLog(l.r, SocketLevel(l.r, p.ok, p.first), Heard(l.r, p, p.first))
    ensures !l.r.poll.status.Idle?
    ensures l.r.life.Attached? ==>
              l'.out == if l'.r.life.Attached? && l'.r.ready.queued then [NodeOf(l'.r)] else []
    ensures l.r.life.Detached? ==> l'.out == []
  {
    ghost var refreshes;
    l', refreshes := Complete(env, l, p);
  }

  /** The critical section of one visit of the arm pass. */
  method Visits(env: Env, l: Step, a: Answer) returns (l': Step, result: Outcome, v: Visit)
    requires l.r.life.Attached? && l.out == [] && !l.busy && (l.r.work.orphaned || Alive(l.r))
    ensures l'.base == l.base && !l'.busy && (result.Gone? <==> !l'.r.life.Attached?)
    ensures l.r.work.fired ==> (result.Gone? <==> Retires(env, l.r, a))
    ensures Wants(env, l.r) && Accepted(env, l.r, a) ==>
              l'.r.life.Attached? && (l'.out != [] || Polled(env, l.r, l'.r))
    ensures Affects(l.r, l'.r, v) && Opens(l.r, a, l'.r)
    ensures Wants(env, l.r) && l.r.id.kind.Socket? && Announces(l.r, a) ==>
              Announced(l.r, a, l'.r) && l'.out == [NodeOf(l'.r)]
    ensures l'.r.life.Attached? ==> Attended(env, l.r, a, l'.r)
  {
    var now;
    l', result, now := Submit(env, l, a, false);
    v := if result.Gone? then Dropped else if l'.out != [] then Visit.Published(l'.r.work.fired)
         else if l'.r.work.rearm then Deferred else Submitted;
  }

  /** One slot of the caller's event buffer. */
  datatype Slot = Slot(events: Mask, data: int, ctx: int)

  /** An event returned for a registration. */
  datatype Given = Given(i: Id, slot: Slot)

  /** Nothing the caller can see changed: at most, it is on record that a cancellation lost. */
  predicate Untouched(b0: Book, b: Book, fd: int)
    requires fd in b0.table && b0.table[fd] in b0.regs
  {
    && b.table == b0.table && b.nodes == b0.nodes && b0.table[fd] in b.regs
    && var r0, r := b0.regs[b0.table[fd]], b.regs[b0.table[fd]];
       r == r0.(work := r0.work.(lost := r.work.lost))
  }

  function Asked(classes: Classes, all: bool): Classes {
    if all then ALL else classes
  }

  /** A rearm inside a wait leaves the registration to be polled, and the system takes it. */
  predicate Repolls(env: Env, r: Reg, classes: Classes, all: bool, a: Answer) {
    && env.submits && Rearmable(r, classes, all)
    && Wants(env, Rearmed(r, classes)) && Accepted(env, Rearmed(r, classes), a)
  }

  /** A poll of what `r` watches is outstanding, or a local shutdown was announced. */
  predicate Served(env: Env, r: Reg, b0: Book, b: Book, i: Id) {
    i in b.regs && (b.nodes != b0.nodes || Polled(env, r, b.regs[i]))
  }

  /** A rearm of a registered handle. */
  method RearmOn(env: Env, b: Ledger, fd: int, classes: Classes, all: bool, cancel: Cancel, a: Answer)
    returns (b': Ledger, ok: bool)
    requires fd in b.table && (all || classes != {})
    ensures !ok && fd in b'.table ==> Untouched(b, b', fd)
    ensures ok ==> fd in b'.table && b'.table == b.table
    ensures ok && all && b.regs[b.table[fd]].work.fired ==> !b'.regs[b.table[fd]].work.fired || b'.nodes != b.nodes
    ensures !all && !Explicit(b.regs[b.table[fd]].id, b.regs[b.table[fd]].user) ==> !ok && Untouched(b, b', fd)
    ensures Repolls(env, b.regs[b.table[fd]], Asked(classes, all), all, a) ==>
              ok && Served(env, Rearmed(b.regs[b.table[fd]], Asked(classes, all)), b, b', b.table[fd])
    ensures b.nodes <= b'.nodes && Unspoiled(b.regs, b'.regs)
    ensures !env.submits ==> StillRests(b.regs, b'.regs)
  {
    var l := Open(b, b.table[fd], false);
    var l';
    l', ok := Rearms(env, l, classes, all, cancel, a);
    b' := CloseControl(env, b, fd, l, l', ok);
  }

  /** The end of a control operation on a handle. */
  method CloseControl(env: Env, b: Ledger, fd: int, l: Step, l': Step, ok: bool) returns (b': Ledger)
    requires fd in b.table && From(b, b.table[fd], l) && l.r == b.regs[b.table[fd]] && Controlled(env, l, l', ok)
    requires l.base.orphaned == l.r.work.orphaned && l.base.doubled == Doubled(l.r)
    ensures fd in b'.table <==> l'.r.life.Attached?
    ensures fd in b'.table ==> b'.table == b.table && b'.table[fd] in b'.regs && b'.regs[b'.table[fd]] == l'.r
    ensures !ok && fd in b'.table ==> Untouched(b, b', fd)
    ensures b'.nodes == b.nodes + l'.out && Unspoiled(b.regs, b'.regs)
    ensures !env.submits ==> StillRests(b.regs, b'.regs)
  {
    b' := Close(b, b.table[fd], l');
  }

  /** The registration is no longer live; a request is outstanding exactly if there was one, and it is cancelled if
      that was up to the library. */
  predicate Retired(regs0: map<Id, Reg>, regs: map<Id, Reg>, i: Id, cancel: Cancel)
    requires i in regs0
  {
    var poll := regs0[i].poll;
    && !Live(regs, i)
    && (i in regs <==> poll.packets > 0)
    && (i in regs && (cancel.Won? || regs[i].id.kind.Waitable?) ==> regs[i].poll.status.Cancelled?)
  }

  predicate ShutDown(r0: Reg, r: Reg, mask: set<Direction>) {
    && r.life.Attached? && r.id.kind.Socket? && r.user == r0.user
    && r.shutdown == if r.id.kind.protocol.Tcp? then r0.shutdown + mask else r0.shutdown
  }

  /** A registration on the rearm list is no longer held off. */
  function Unheld(r: Reg): Reg {
    if r.work.rearm then r.(work := r.work.(holdoff := false)) else r
  }

  /** Nothing that waits to be rearmed is held off. */
  ghost predicate Prompt(regs: map<Id, Reg>) {
    forall i :: Live(regs, i) && regs[i].work.rearm ==> !regs[i].work.holdoff
  }

  function Release(b: Book): Book {
    b.(regs := map i | i in b.regs :: Unheld(b.regs[i]))
  }

  lemma ReleaseRegs(regs: map<Id, Reg>, regs': map<Id, Reg>, nextGeneration: nat)
    requires RegsFit(regs, nextGeneration) && regs' == map i | i in regs :: Unheld(regs[i])
    ensures RegsFit(regs', nextGeneration)
  {
    forall i | i in regs'
      ensures RegFits(regs'[i], nextGeneration)
    {
      assert RegFits(regs[i], nextGeneration);
    }
  }

  lemma ReleaseTable(b: Book)
    requires TableFits(b.regs, b.table) && GenerationsDiffer(b.regs) && PacketsFit(b.regs, b.inFlight)
    ensures TableFits(Release(b).regs, b.table) && GenerationsDiffer(Release(b).regs)
    ensures PacketsFit(Release(b).regs, b.inFlight) && Busy(Release(b).regs) == Busy(b.regs)
  {
    var regs' := Release(b).regs;
    assert forall j :: Live(regs', j) <==> Live(b.regs, j);
  }

  lemma ReleaseKeeps(b: Book)
    requires Inv(b)
    ensures Inv(Release(b))
  {
    ReleaseRegs(b.regs, Release(b).regs, b.nextGeneration);
    ReleaseTable(b);
    ReleaseNodes(b);
  }

  lemma ReleaseNodes(b: Book)
    requires QueueFits(b.regs, b.nodes)
    ensures QueueFits(Release(b).regs, b.nodes)
  {
    var regs' := Release(b).regs;
    forall j: Id | Live(regs', j)
      ensures NodesFit(regs'[j], b.nodes)
    {
      assert Live(b.regs, j) && NodesFit(b.regs[j], b.nodes) && NodeOf(regs'[j]) == NodeOf(b.regs[j]);
    }
  }

  lemma ReleaseMarks(regs: map<Id, Reg>, regs': map<Id, Reg>)
    requires regs' == map i | i in regs :: Unheld(regs[i])
    ensures Orphaned(regs') == Orphaned(regs) && Crowded(regs') == Crowded(regs) && Prompt(regs')
  {
  }

  function Released(b: Ledger): (b': Ledger)
    ensures Orphaned(b'.regs) == Orphaned(b.regs) && Crowded(b'.regs) == Crowded(b.regs) && Prompt(b'.regs)
  {
    ReleaseKeeps(b);
    ReleaseMarks(b.regs, Release(b).regs);
    Release(b)
  }

  const COALESCE_THRESHOLD := 4096

  /** The nodes that a drain can get at: those linked behind the tail, and the one it may hold already. */
  function Reach(linked: nat, held: bool): nat {
    linked + if held then 1 else 0
  }

  class Port {
    const explicitRearm: bool
    var env: Env
    var b: Ledger
    var held: bool              // the first node is already off the queue, in a drain that waits for the lock
    ghost var given: seq<Given> // the events returned so far

    constructor (explicitRearm: bool)
      ensures b == Empty() && !held && this.explicitRearm == explicitRearm && given == [] && !env.closing
    {
      this.explicitRearm := explicitRearm;
      env, b, held, given := Env(false, false, 0), Empty(), false, [];
    }

    /** `EPOLL_CTL_ADD` with the registration at free address `i`; `memory` for it and for its table entry. */
    method Add(i: Id, fd: int, kind: Kind, u: User, memory: bool, a: Answer) returns (ok: bool)
      requires i !in b.regs
      modifies this`b
      ensures old(fd in b.table) || env.closing || !memory ==> !ok && b == old(b)
      ensures ok ==> fd in b.table && b.table[fd] == i && i in b.regs && b.regs[i].user == u
      ensures ok ==> b.table == old(b.table)[fd := i] && Entered(Ident(fd, kind, explicitRearm), u, b.regs[i])
      ensures old(fd !in b.table) && memory && Taking(env, Ident(fd, kind, explicitRearm), u, a) ==>
                ok && Polled(env, NewReg(Ident(fd, kind, explicitRearm), u, old(b.nextGeneration) + 1), b.regs[i])
      ensures ok ==> Opens(NewReg(Ident(fd, kind, explicitRearm), u, old(b.nextGeneration) + 1), a, b.regs[i])
      ensures !ok ==> b.table == old(b.table)
      ensures ok <==> Live(b.regs, i)
      ensures b.nodes == old(b.nodes) && Unspoiled(old(b.regs), b.regs) && Elsewhere(old(b.regs), b.regs, i)
    {
      var id := Ident(fd, kind, explicitRearm);
      if env.closing || fd in b.table || !memory || !Registrable(explicitRearm, kind, u) {
        return false;
      }
      var b', done := AddTo(env, b, i, id, u, a);
      b, ok := b', done;
    }

    /** `EPOLL_CTL_MOD`: on failure the registration is as before, or it is gone because its handle is. */
    method Mod(fd: int, u: User, cancel: Cancel, node: bool, a: Answer) returns (ok: bool)
      modifies this`b
      ensures old(fd !in b.table) ==> !ok && b == old(b)
      ensures ok ==> fd in b.table && b.table == old(b.table) && b.regs[b.table[fd]].user == u
      ensures old(fd in b.table && Amends(b.regs[b.table[fd]], u)) ==>
                b.table == old(b.table) && b.nodes == old(b.nodes) &&
                Retained(old(b.regs[b.table[fd]]), u, cancel, b.regs[b.table[fd]])
      ensures old(fd in b.table && NodeOwns(b.regs[b.table[fd]])) ==>
                (ok <==> Reconfigurable(old(b.regs[b.table[fd]]), u) && (node || u.events * WAITABLE_BITS == {})) &&
                (ok ==> Transferred(old(b), b, b.table[fd], u))
      ensures !ok && fd in b.table ==> Untouched(old(b), b, fd)
      ensures old(b.nodes) <= b.nodes && Unspoiled(old(b.regs), b.regs)
      ensures !env.submits ==> StillRests(old(b.regs), b.regs)
    {
      if fd !in b.table {
        return false;
      }
      var l := Open(b, b.table[fd], false);
      var l', done := Reconfigures(env, l, u, cancel, node, a);
      b := CloseControl(env, b, fd, l, l', done);
      ok := done;
    }

    /** `EPOLL_CTL_DEL`: what the kernel still owes is cancelled, and its storage outlives the entry. */
    method Del(fd: int, cancel: Cancel) returns (ok: bool)
      modifies this`b
      ensures ok == old(fd in b.table) && fd !in b.table
      ensures b.nodes == old(b.nodes) && Unspoiled(old(b.regs), b.regs) && StillRests(old(b.regs), b.regs)
      ensures ok ==> Retired(old(b.regs), b.regs, old(b.table[fd]), cancel)
    {
      ok := fd in b.table;
      if ok {
        var i := b.table[fd];
        var l := Open(b, i, false);
        l := Unregister(l, cancel);
        b := Close(b, i, l);
      }
    }

    /** `epoll_rearm`, and `epoll_rearm_classes` when `classes` are given. */
    method Rearm(fd: int, classes: Classes, all: bool, cancel: Cancel, a: Answer) returns (ok: bool)
      modifies this`b
      ensures old(fd !in b.table) || (!all && classes == {}) ==> !ok && b == old(b)
      ensures !ok && fd in b.table ==> Untouched(old(b), b, fd)
      ensures ok ==> fd in b.table && b.table == old(b.table)
      ensures ok && all && old(b.regs[b.table[fd]].work.fired) ==>
                !b.regs[b.table[fd]].work.fired || b.nodes != old(b.nodes)
      ensures old(fd in b.table) && !all && !Explicit(old(b.regs[b.table[fd]]).id, old(b.regs[b.table[fd]]).user) ==> !ok
      ensures old(fd in b.table) && (all || classes != {}) &&
              Repolls(env, old(b.regs[b.table[fd]]), Asked(classes, all), all, a) ==>
                ok && Served(env, Rearmed(old(b.regs[b.table[fd]]), Asked(classes, all)), old(b), b, b.table[fd])
      ensures old(b.nodes) <= b.nodes && Unspoiled(old(b.regs), b.regs)
      ensures !env.submits ==> StillRests(old(b.regs), b.regs)
    {
      if fd !in b.table || (!all && classes == {}) {
        return false;
      }
      var b', done := RearmOn(env, b, fd, classes, all, cancel, a);
      b, ok := b', done;
    }

    /** `wepoll_ex_shutdown_socket`: a registration that rests is announced at once exactly when it has something to
        tell. */
    method ShutdownSocket(fd: int, mask: set<Direction>, node: bool, native: bool, cancel: Cancel, a: Answer)
      returns (ok: bool)
      modifies this`b
      ensures b.table == old(b.table) && old(b.nodes) <= b.nodes && Unspoiled(old(b.regs), b.regs)
      ensures ok ==> fd in b.table && ShutDown(old(b.regs[b.table[fd]]), b.regs[b.table[fd]], mask)
      ensures ok <==> old(fd in b.table && Shuts(b.regs[b.table[fd]], mask, node, native, cancel))
      ensures if Disturbs(old(b), fd, mask, node, native, a)
              then ok && Disturbed(old(b), b, b.table[fd], mask, a) else StillRests(old(b.regs), b.regs)
      ensures Updates(old(b), fd, mask, node, native, a) ==>
                && ok && b.nodes == old(b.nodes) + [NodeOf(b.regs[b.table[fd]])]
                && Publishes(old(b.regs[b.table[fd]]).(shutdown := old(b.regs[b.table[fd]]).shutdown + mask), a,
                             b.regs[b.table[fd]])
    {
      ok := false;
      if fd in b.table {
        var i := b.table[fd];
        Stored(b, i);
        var l := Open(b, i, false);
        l, ok := Shutdown(l, mask, node, native, cancel, a);
        b := Close(b, i, l);
      }
    }

    /** A completion packet is dequeued: it names storage in use, and settles one pending request.  Only a request
        that comes back cancelled unasked can orphan its registration, and only a delivery to a registration that
        was to be rearmed can put it on both worklists. */
    method Dispatch(i: Id, p: Packet)
      requires i in b.inFlight
      modifies this`b
      ensures i in old(b.regs) && !old(b.regs[i].poll.status.Idle?)
      ensures i in b.regs ==> old(b.regs[i].life.Attached?)
      ensures Orphaned(b.regs) <= old(Orphaned(b.regs)) + {i} && Crowded(b.regs) <= old(Crowded(b.regs)) + {i}
      ensures !env.closing && Live(b.regs, i) ==> (i in Orphaned(b.regs) <==> Orphans(old(b.regs[i]), p))
      ensures Live(b.regs, i) ==> (i in Crowded(b.regs) <==> Crowds(env, old(b.regs[i]), p))
      ensures Notifies(env, old(b.regs[i])) && p.node ==>
                && Live(b.regs, i) && b.regs[i].ready.queued
                && b.regs[i].ready.pending == old(b.regs[i]).user.events * WAITABLE_BITS
      ensures Signals(env, old(b.regs[i])) && p.node ==>
                && (Live(b.regs, i) && b.regs[i].ready.queued <==> Seen(old(b.regs[i]), p.sample) != {})
                && (Live(b.regs, i) && b.regs[i].ready.queued ==>
                      b.regs[i].ready.pending == Seen(old(b.regs[i]), p.sample))
      ensures Hears(env, old(b.regs[i]), p) ==>
                Live(b.regs, i) && b.regs[i].ready.queued && b.regs[i].ready.pending == Heard(old(b.regs[i]), p, p.first)
      ensures Rehears(env, old(b.regs[i]), p) ==>
                && Live(b.regs, i) && b.regs[i].ready.queued
                && b.regs[i].ready.pending == Heard(Refreshed(old(b.regs[i]), p.refresh), p, p.second)
      ensures Renewing(env, old(b.regs[i]), p) && LocalClose(p.second) ==> !Live(b.regs, i)
      ensures Hears(env, old(b.regs[i]), p) && Heeds(old(b.regs[i]), p, p.first) ==>
                && b.regs[i].ready.observed == SocketLevel(old(b.regs[i]), p.ok, p.first)
                && b.regs[i].log == FoundLog(old(b.regs[i]), SocketLevel(old(b.regs[i]), p.ok, p.first),
                                             Heard(old(b.regs[i]), p, p.first))
      ensures Live(b.regs, i) ==> KeptOf(b.regs[i]) == KeptOf(old(b.regs[i]))
      ensures b.nodes == old(b.nodes) + if Live(b.regs, i) && b.regs[i].ready.queued then [NodeOf(b.regs[i])] else []
      ensures Live(b.regs, i) ==> b.table == old(b.table)
      ensures StillRests(old(b.regs), b.regs) && Elsewhere(old(b.regs), b.regs, i)
    {
      var l := Open(b, i, true);
      l := Completes(env, l, p);
      b := Close(b, i, l);
    }

    /** The threadpool runs an armed wait's callback. */
    method Fire(i: Id)
      requires i in b.regs && b.regs[i].poll.wait.Armed?
      modifies this`b
      ensures b.table == old(b.table) && b.inFlight == old(b.inFlight) + multiset{i}
      ensures b.nodes == old(b.nodes) && Unspoiled(old(b.regs), b.regs) && StillRests(old(b.regs), b.regs)
    {
      var l := Open(b, i, false);
      l := Callback(l);
      b := Close(b, i, l);
    }

    /** One visit of the arm pass: a registration that wants a poll gets one, or reports its local shutdown, unless
        its submission is refused; and the visit has one of the four effects on the worklists. */
    method Arm(i: Id, a: Answer) returns (result: Outcome, v: Visit)
      requires Live(b.regs, i)
      modifies this`b
      ensures result.Gone? <==> !Live(b.regs, i)
      ensures old(b.regs[i].work.fired) ==> (!Live(b.regs, i) <==> Retires(env, old(b.regs[i]), a))
      ensures Wants(env, old(b.regs[i])) && Accepted(env, old(b.regs[i]), a) ==>
                Live(b.regs, i) && (b.nodes != old(b.nodes) || Polled(env, old(b.regs[i]), b.regs[i]))
      ensures old(b.nodes) <= b.nodes && Unspoiled(old(b.regs), b.regs) && Elsewhere(old(b.regs), b.regs, i)
      ensures HasEffect(old(b.regs[i]), b.regs, i, v)
      ensures Live(b.regs, i) ==> Opens(old(b.regs[i]), a, b.regs[i])
      ensures Live(b.regs, i) ==> b.regs[i].id == old(b.regs[i]).id && KeptOf(b.regs[i]) == KeptOf(old(b.regs[i]))
      ensures Live(b.regs, i) ==> b.table == old(b.table)
      ensures Wants(env, old(b.regs[i])) && old(b.regs[i].id.kind.Socket?) && Announces(old(b.regs[i]), a) ==>
                && Live(b.regs, i) && Announced(old(b.regs[i]), a, b.regs[i])
                && b.nodes == old(b.nodes) + [NodeOf(b.regs[i])]
      ensures Live(b.regs, i) ==> Attended(env, old(b.regs[i]), a, b.regs[i])
    {
      Stored(b, i);
      var l := Open(b, i, false);
      l, result, v := Visits(env, l, a);
      b := Close(b, i, l);
    }

    /** A wait begins: `ep_port_release_deferred_rearms_locked` lets every deferred registration try again. */
    method BeginWait(epoch: nat)
      modifies this`b, this`env
      ensures env == old(env).(submits := true, epoch := epoch)
      ensures b == Released(old(b)) && Prompt(b.regs) && Unspoiled(old(b.regs), b.regs)
    {
      env := env.(submits := true, epoch := epoch);
      b := Released(b);
    }

    /** A wait ends. */
    method EndWait()
      modifies this`env
      ensures env == old(env).(submits := false, epoch := 0)
    {
      env := env.(submits := false, epoch := 0);
    }

    /** The teardown retires one registration. */
    method Teardown(i: Id, cancel: Cancel)
      requires Live(b.regs, i)
      modifies this`b, this`env
      ensures env.closing && Retired(old(b.regs), b.regs, i, cancel) && Unspoiled(old(b.regs), b.regs)
    {
      env := env.(closing := true);
      var l := Open(b, i, false);
      l := Abandon(l, cancel);
      b := Close(b, i, l);
    }

    /** The drain takes its first node before it has the lock; no other operation can take it away. */
    method Take()
      modifies this`held
      ensures held == (b.nodes != [])
    {
      held := b.nodes != [];
    }

    /** The loop of `ep_drain_to_buffer` under the lock: besides a node it holds, its pops reach `linked` more. */
    method DrainNodes(max: nat, linked: nat)
      returns (slots: seq<Slot>, ghost taken: seq<Node>, ghost more: seq<Given>)
      requires max > 0 && (held ==> b.nodes != [])
      modifies this`b, this`held, this`given
      ensures given == old(given) + more && slots == Slots(more) && !held
      ensures Drains(old(b), b, max, Reach(linked, old(held)), taken, more)
      ensures DrainedAll(old(b).regs, b.regs, more)
    {
      var b';
      b', slots, taken, more := DrainQueue(b, max, Reach(linked, held));
      b, held, given := b', false, given + more;
    }

    /** `ep_drain_to_buffer`: a large buffer that received something stops submissions until the wait returns. */
    method Drain(max: nat, linked: nat) returns (slots: seq<Slot>, ghost taken: seq<Node>, ghost more: seq<Given>)
      requires max > 0 && (held ==> b.nodes != [])
      modifies this`b, this`held, this`env, this`given
      ensures given == old(given) + more && slots == Slots(more) && !held
      ensures Drains(old(b), b, max, Reach(linked, old(held)), taken, more)
      ensures DrainedAll(old(b).regs, b.regs, more) && Unspoiled(old(b).regs, b.regs)
      ensures (old(held) ==> taken != []) && (!old(held) && linked == 0 ==> taken == [])
      ensures env == old(env).(submits := old(env).submits && !(slots != [] && max > COALESCE_THRESHOLD))
    {
      slots, taken, more := DrainNodes(max, linked);
      DrainedMarks(old(b).regs, b.regs, more);
      if slots != [] && max > COALESCE_THRESHOLD {
        env := env.(submits := false);
      }
    }
  }

  /** A shutdown of a registration that rests, with something to tell. */
  predicate Disturbs(b: Ledger, fd: int, mask: set<Direction>, node: bool, native: bool, a: Answer) {
    fd in b.table && Rests(b.regs[b.table[fd]]) && Tells(b.regs[b.table[fd]], mask, node, native, a)
  }

  /** A shutdown of a registration that is queued, with something to add to its node. */
  predicate Updates(b: Ledger, fd: int, mask: set<Direction>, node: bool, native: bool, a: Answer) {
    fd in b.table && b.regs[b.table[fd]].ready.queued && Tells(b.regs[b.table[fd]], mask, node, native, a)
  }

  /** The registration is queued with its news, and no other notices. */
  ghost predicate Disturbed(b0: Ledger, b: Ledger, i: Id, mask: set<Direction>, a: Answer) {
    && Live(b0.regs, i) && b0.regs[i].id.kind.Socket? && Live(b.regs, i)
    && Rouses(b0.regs[i], mask, a, b.regs[i])
    && b.nodes == b0.nodes + [NodeOf(b.regs[i])] && Elsewhere(b0.regs, b.regs, i)
  }

  lemma Stored(b: Ledger, i: Id)
    requires i in b.regs
    ensures RegFits(b.regs[i], b.nextGeneration)
  {
  }

  /** What one visit did to the worklists. */
  predicate Affects(r: Reg, r': Reg, v: Visit) {
    if v.Dropped? then !r'.life.Attached?
    else
      && r'.life.Attached? && (r'.work.rearm <==> v.Deferred?)
      && if v.Published? then !r.work.fired && r'.work.fired == v.fires else r'.work.fired == r.work.fired
  }

  predicate HasEffect(r: Reg, regs: map<Id, Reg>, i: Id, v: Visit) {
    if v.Dropped? then !Live(regs, i) else Live(regs, i) && Affects(r, regs[i], v)
  }

  /** The registration needs nothing from the arm pass. */
  predicate Tended(r: Reg) {
    !r.poll.status.Idle? || r.ready.queued || r.work.fired || Dormant(r) || Silent(r)
  }

  /** What a visit of the arm pass is for: a registration to be rearmed is tended, or its submission was refused. */
  predicate Attended(env: Env, r: Reg, a: Answer, r': Reg) {
    && (r.work.fired ==> r'.work.fired && r'.work.rearm == r.work.rearm)
    && (!env.closing && r.work.rearm && !r.work.holdoff ==> Tended(r') || (Wants(env, r) && !Accepted(env, r, a)))
  }

  function SlotOf(n: Node): Slot {
    Slot(n.events, n.data, n.ctx)
  }

  function Slots(given: seq<Given>): (slots: seq<Slot>)
    ensures |slots| == |given|
  {
    seq(|given|, k requires 0 <= k < |given| => given[k].slot)
  }

  /** The generation in force for each handle. */
  function Generations(regs: map<Id, Reg>, table: map<int, Id>): map<int, nat> {
    map fd | fd in table && table[fd] in regs :: regs[table[fd]].generation
  }

  /** The node belongs to a registration of its handle and generation; any other is stale. */
  predicate IsCurrent(generations: map<int, nat>, n: Node) {
    n.fd in generations && generations[n.fd] == n.generation
  }

  function GivenFor(table: map<int, Id>, generations: map<int, nat>, n: Node): seq<Given> {
    if n.fd in table && IsCurrent(generations, n) then [Given(table[n.fd], SlotOf(n))] else []
  }

  /** What the caller gets for these nodes: an event for each current one, in order. */
  function Givens(table: map<int, Id>, generations: map<int, nat>, nodes: seq<Node>): (given: seq<Given>)
    ensures |given| <= |nodes|
  {
    if nodes == [] then []
    else Givens(table, generations, nodes[..|nodes| - 1]) + GivenFor(table, generations, nodes[|nodes| - 1])
  }

  /** These nodes came off the front, the caller got what they give, and one fewer would not have filled the buffer. */
  predicate Taken(nodes0: seq<Node>, nodes: seq<Node>, table: map<int, Id>, generations: map<int, nat>, max: nat,
                  taken: seq<Node>, given: seq<Given>)
  {
    && nodes0 == taken + nodes && given == Givens(table, generations, taken) && |given| <= max
    && (taken != [] ==> |Givens(table, generations, taken[..|taken| - 1])| < max)
  }

  lemma TakenMore(nodes0: seq<Node>, nodes: seq<Node>, table: map<int, Id>, generations: map<int, nat>, max: nat,
                  taken: seq<Node>, given: seq<Given>)
    requires Taken(nodes0, nodes, table, generations, max, taken, given) && nodes != [] && |given| < max
    ensures var more := GivenFor(table, generations, nodes[0]);
            Taken(nodes0, nodes[1..], table, generations, max, taken + [nodes[0]], given + more)
  {
    assert (taken + [nodes[0]])[..|taken|] == taken;
  }

  /** A drain takes nodes off the front until the buffer is full or it took all the nodes that it can reach, and
      returns the events of the current ones, in order. */
  predicate Drains(b0: Book, b: Book, max: nat, reach: nat, taken: seq<Node>, given: seq<Given>) {
    && b.table == b0.table
    && Taken(b0.nodes, b.nodes, b0.table, Generations(b0.regs, b0.table), max, taken, given)
    && |taken| <= reach && (|given| == max || |taken| == reach || b.nodes == [])
  }

  /** A registration is returned at most once, and every one that is not returned is left alone. */
  ghost predicate Each<R(!new)>(p: (R, R, Slot) -> bool, regs0: map<Id, R>, regs: map<Id, R>, given: seq<Given>) {
    && regs.Keys == regs0.Keys
    && (forall k, m :: 0 <= k < m < |given| ==> given[k].i != given[m].i)
    && (forall k :: 0 <= k < |given| ==>
          given[k].i in regs0 && given[k].i in regs && p(regs0[given[k].i], regs[given[k].i], given[k].slot))
    && (forall i :: i in regs && i !in Ids(given) ==> regs[i] == regs0[i])
  }

  function Ids(given: seq<Given>): set<Id> {
    set g | g in given :: g.i
  }

  lemma IdsMore(given: seq<Given>, i: Id, s: Slot)
    ensures Ids(given + [Given(i, s)]) == Ids(given) + {i}
  {
  }

  lemma EachMore<R(!new)>(
    p: (R, R, Slot) -> bool, regs0: map<Id, R>, regs: map<Id, R>, given: seq<Given>, i: Id, r: R, s: Slot)
    requires Each(p, regs0, regs, given) && i in regs && i !in Ids(given) && p(regs[i], r, s)
    ensures Each(p, regs0, regs[i := r], given + [Given(i, s)])
  {
    IdsMore(given, i, s);
    assert forall k :: 0 <= k < |given| ==> given[k].i != i by {
      assert forall k :: 0 <= k < |given| ==> given[k] in given && given[k].i in Ids(given);
    }
  }

  /** Each with its current snapshot, and the event logged. */
  ghost predicate DrainedAll(regs0: map<Id, Reg>, regs: map<Id, Reg>, given: seq<Given>) {
    Each(Drained, regs0, regs, given)
  }

  lemma NotReturnedYet(regs0: map<Id, Reg>, regs: map<Id, Reg>, given: seq<Given>, i: Id)
    requires DrainedAll(regs0, regs, given) && i in regs && regs[i].ready.queued
    ensures i !in Ids(given)
  {
    forall k | 0 <= k < |given|
      ensures given[k].i != i
    {
      assert Drained(regs0[given[k].i], regs[given[k].i], given[k].slot);
    }
  }

  lemma DrainStep(regs0: map<Id, Reg>, regs: map<Id, Reg>, given: seq<Given>, i: Id, n: Node)
    requires DrainedAll(regs0, regs, given) && i in regs && Valid(regs[i]) && regs[i].life.Attached?
    requires regs[i].ready.queued && n == NodeOf(regs[i])
    ensures DrainedAll(regs0, regs[i := Return(regs[i], n)], given + [Given(i, SlotOf(n))])
  {
    NotReturnedYet(regs0, regs, given, i);
    EachMore(Drained, regs0, regs, given, i, Return(regs[i], n), SlotOf(n));
  }

  lemma GenerationsKept(regs: map<Id, Reg>, table: map<int, Id>, i: Id, r: Reg)
    requires i in regs && r.generation == regs[i].generation
    ensures Generations(regs[i := r], table) == Generations(regs, table)
  {
  }

  /** The first node is current: its event is returned. */
  method ReturnFirst(ghost regs0: map<Id, Reg>, ghost given: seq<Given>, b: Ledger, i: Id)
    returns (b': Ledger, ghost given': seq<Given>)
    requires b.nodes != [] && DrainedAll(regs0, b.regs, given)
    requires Live(b.regs, i) && b.nodes[0].generation == b.regs[i].generation
    ensures b'.nodes == b.nodes[1..] && b'.table == b.table
    ensures Generations(b'.regs, b.table) == Generations(b.regs, b.table)
    ensures given' == given + [Given(i, SlotOf(b.nodes[0]))] && DrainedAll(regs0, b'.regs, given')
  {
    FirstIsCurrent(b, i);
    DrainStep(regs0, b.regs, given, i, b.nodes[0]);
    GenerationsKept(b.regs, b.table, i, Return(b.regs[i], b.nodes[0]));
    given' := given + [Given(i, SlotOf(b.nodes[0]))];
    b' := TakenBack(b, i);
  }

  /** The first node is stale. */
  method DropFirst(ghost regs0: map<Id, Reg>, ghost given: seq<Given>, b: Ledger)
    returns (b': Ledger, ghost given': seq<Given>)
    requires b.nodes != [] && DrainedAll(regs0, b.regs, given)
    requires b.nodes[0].fd in b.table ==> b.regs[b.table[b.nodes[0].fd]].generation != b.nodes[0].generation
    ensures b'.nodes == b.nodes[1..] && b'.table == b.table
    ensures Generations(b'.regs, b.table) == Generations(b.regs, b.table)
    ensures given' == given + [] && DrainedAll(regs0, b'.regs, given')
  {
    given' := given;
    b' := Discarded(b);
  }

  /** One turn of the drain: the event of a current node is returned, a stale node dropped. */
  method DrainOne(ghost regs0: map<Id, Reg>, ghost given: seq<Given>, b: Ledger)
    returns (b': Ledger, slots: seq<Slot>, ghost given': seq<Given>)
    requires b.nodes != [] && DrainedAll(regs0, b.regs, given)
    ensures b'.nodes == b.nodes[1..] && b'.table == b.table
    ensures Generations(b'.regs, b.table) == Generations(b.regs, b.table)
    ensures given' == given + GivenFor(b.table, Generations(b.regs, b.table), b.nodes[0])
    ensures slots == Slots(GivenFor(b.table, Generations(b.regs, b.table), b.nodes[0]))
    ensures DrainedAll(regs0, b'.regs, given')
  {
    var n := b.nodes[0];
    SlotsOfOne(b, n);
    if n.fd in b.table && b.regs[b.table[n.fd]].generation == n.generation {
      slots := [SlotOf(n)];
      b', given' := ReturnFirst(regs0, given, b, b.table[n.fd]);
    } else {
      slots := [];
      b', given' := DropFirst(regs0, given, b);
    }
  }

  lemma SlotsOfOne(b: Book, n: Node)
    requires n.fd in b.table ==> b.table[n.fd] in b.regs
    ensures var given := GivenFor(b.table, Generations(b.regs, b.table), n);
            if n.fd in b.table && b.regs[b.table[n.fd]].generation == n.generation
            then given == [Given(b.table[n.fd], SlotOf(n))] && Slots(given) == [SlotOf(n)]
            else given == [] && Slots(given) == []
  {
  }

  lemma SlotsJoin(given: seq<Given>, more: seq<Given>)
    ensures Slots(given + more) == Slots(given) + Slots(more)
  {
  }

  /** A drain under way. */
  ghost predicate Draining(b0: Book, b: Book, max: nat, taken: seq<Node>, given: seq<Given>, slots: seq<Slot>) {
    && slots == Slots(given) && b.table == b0.table
    && Generations(b.regs, b0.table) == Generations(b0.regs, b0.table)
    && Taken(b0.nodes, b.nodes, b0.table, Generations(b0.regs, b0.table), max, taken, given)
    && DrainedAll(b0.regs, b.regs, given)
  }

  lemma DrainingStarts(b: Book, max: nat)
    ensures Draining(b, b, max, [], [], [])
  {
  }

  method DrainTurn(ghost b0: Book, b: Ledger, max: nat, ghost taken: seq<Node>, ghost given: seq<Given>,
                   slots: seq<Slot>)
    returns (b': Ledger, ghost given': seq<Given>, slots': seq<Slot>)
    requires Draining(b0, b, max, taken, given, slots) && |slots| < max && b.nodes != []
    ensures Draining(b0, b', max, taken + [b.nodes[0]], given', slots') && |b'.nodes| == |b.nodes| - 1
  {
    ghost var generations := Generations(b0.regs, b0.table);
    TakenMore(b0.nodes, b.nodes, b0.table, generations, max, taken, given);
    SlotsJoin(given, GivenFor(b0.table, generations, b.nodes[0]));
    var slot;
    b', slot, given' := DrainOne(b0.regs, given, b);
    slots' := slots + slot;
  }

  /** The drain on the port's registrations and queue. */
  method DrainQueue(b: Ledger, max: nat, reach: nat)
    returns (b': Ledger, slots: seq<Slot>, ghost taken: seq<Node>, ghost given: seq<Given>)
    ensures Drains(b, b', max, reach, taken, given) && DrainedAll(b.regs, b'.regs, given) && slots == Slots(given)
    ensures |slots| <= max && b'.table == b.table && |b.nodes| - |b'.nodes| <= reach
    ensures |slots| == max || |b.nodes| - |b'.nodes| == reach || b'.nodes == []
  {
    b', slots, taken, given := b, [], [], [];
    var left := reach;
    DrainingStarts(b, max);
    while |slots| < max && left > 0 && b'.nodes != []
      invariant Draining(b, b', max, taken, given, slots) && |taken| + left == reach
      decreases left
    {
      ghost var n := b'.nodes[0];
      b', given, slots := DrainTurn(b, b', max, taken, given, slots);
      taken, left := taken + [n], left - 1;
    }
  }

  lemma DrainedMark(r0: Reg, r: Reg, s: Slot)
    requires Drained(r0, r, s)
    ensures (Doubled(r) ==> Doubled(r0)) && (r.work.orphaned ==> r0.work.orphaned)
  {
  }

  lemma DrainedMarks(regs0: map<Id, Reg>, regs: map<Id, Reg>, given: seq<Given>)
    requires DrainedAll(regs0, regs, given)
    ensures Unspoiled(regs0, regs)
  {
    forall i | i in regs
      ensures i in regs0 && (regs[i] == regs0[i] || exists s :: Drained(regs0[i], regs[i], s))
    {
      if i in Ids(given) {
        var k :| 0 <= k < |given| && given[k].i == i;
        assert Drained(regs0[i], regs[i], given[k].slot);
      }
    }
    forall i | i in regs
      ensures i in regs0 && (Doubled(regs[i]) ==> Doubled(regs0[i]))
      ensures regs[i].work.orphaned ==> regs0[i].work.orphaned
      ensures regs[i].life.Attached? ==> regs0[i].life.Attached?
    {
      if regs[i] != regs0[i] {
        var s :| Drained(regs0[i], regs[i], s);
        DrainedMark(regs0[i], regs[i], s);
      }
    }
  }

  function TakenBack(b: Ledger, i: Id): Ledger
    requires Live(b.regs, i) && b.nodes != [] && b.nodes[0].generation == b.regs[i].generation
  {
    TakeBackKeeps(b, i);
    TakeBack(b, i)
  }

  function Discarded(b: Ledger): Ledger
    requires b.nodes != []
    requires b.nodes[0].fd in b.table ==> b.regs[b.table[b.nodes[0].fd]].generation != b.nodes[0].generation
  {
    DiscardKeeps(b);
    b.(nodes := b.nodes[1..])
  }

  lemma FirstIsCurrent(b: Ledger, i: Id)
    requires Live(b.regs, i) && b.nodes != [] && b.nodes[0].generation == b.regs[i].generation
    ensures Valid(b.regs[i]) && b.regs[i].ready.queued && b.nodes[0] == NodeOf(b.regs[i])
  {
    assert NodesFit(b.regs[i], b.nodes) && RegFits(b.regs[i], b.nextGeneration);
  }

  ghost predicate Drained(r0: Reg, r: Reg, s: Slot) {
    && Valid(r0) && r0.life.Attached? && r0.ready.queued && r == Return(r0, NodeOf(r0))
    && s == Slot(r0.ready.pending, r0.user.data, r0.user.ctx)
  }

  // ------------------------------------------------------- every reachable state

  /** No registration is forgotten.  Unless the kernel gave up its request unasked, every live registration has a
      request outstanding, has an event queued, is disabled until the caller acts, or is submitted by the arm pass
      of the next wait. */
  lemma NoneForgotten(b: Ledger, env: Env, i: Id)
    requires Live(b.regs, i) && i !in Orphaned(b.regs) && !env.closing
    ensures var r := Released(b).regs[i];
            !r.poll.status.Idle? || r.ready.queued || r.work.fired || Dormant(r) || Silent(r) || Wants(env, r)
  {
    assert RegFits(b.regs[i], b.nextGeneration);
  }

  /** `ready_queued` holds exactly when one queued node carries the generation; then the poll is idle. */
  lemma QueuedIffOneNode(b: Ledger, i: Id)
    requires Live(b.regs, i)
    ensures b.regs[i].ready.queued <==>
              exists k :: 0 <= k < |b.nodes| && b.nodes[k].generation == b.regs[i].generation
    ensures forall k, m :: 0 <= k < m < |b.nodes| && b.nodes[k].generation == b.regs[i].generation ==>
              b.nodes[m].generation != b.regs[i].generation
    ensures b.regs[i].ready.queued ==> b.regs[i].poll.status.Idle? && NodeOf(b.regs[i]) in b.nodes
  {
    assert NodesFit(b.regs[i], b.nodes) && RegFits(b.regs[i], b.nextGeneration);
  }

  /** A packet in flight names one registration in use, whose single request it settles; the count is the
      number of such requests, and a count of zero means the kernel holds nothing of this port. */
  lemma PacketsNameStorage(b: Ledger, i: Id)
    ensures i in b.inFlight ==> i in b.regs && !b.regs[i].poll.status.Idle? && b.inFlight[i] == 1
    ensures b.pendingCount == |Busy(b.regs)|
    ensures b.pendingCount == 0 ==> b.inFlight == multiset{}
  {
    forall j: Id | j in b.inFlight
      ensures j in b.regs && j in Busy(b.regs) && b.inFlight[j] == 1
    {
      assert RegFits(b.regs[j], b.nextGeneration);
    }
  }

  /** Signals consumed from the object equal events returned, plus one held by the flag or by a node. */
  lemma NotificationsConserved(b: Ledger, i: Id)
    requires Live(b.regs, i) && Consumes(b.regs[i].id.kind)
    ensures var r := b.regs[i];
            Count(r.log.history, true) == Count(r.log.history, false) + (if r.ready.owned || r.ready.queued then 1 else 0)
    ensures !(b.regs[i].ready.owned && b.regs[i].ready.queued)
  {
    assert RegFits(b.regs[i], b.nextGeneration);
    TallyCounts(b.regs[i].log.history);
  }

  /** Explicit rearm: no class is reported twice without an acknowledgement or a MOD in between. */
  lemma ReportedOncePerAck(b: Ledger, i: Id, j: nat, k: nat, c: Class)
    requires Live(b.regs, i)
    requires j < k < |b.regs[i].log.history|
    requires var h := b.regs[i].log.history;
             h[j].Returned? && h[j].explicit && c in DeliveryClasses(h[j].events) &&
             h[k].Returned? && h[k].explicit && c in ClassesOf(h[k].events)
    ensures exists m :: j < m < k && Clears(b.regs[i].log.history[m], c)
  {
    assert RegFits(b.regs[i], b.nextGeneration);
    AcknowledgedBetween(b.regs[i].log.history, j, k, c);
  }

  /** Edge-triggered sockets report edges: between two returned events that both carry a bit it may have risen again. */
  lemma ReportedOncePerEdge(b: Ledger, i: Id, j: nat, k: nat, bit: Bit)
    requires Live(b.regs, i)
    requires j < k < |b.regs[i].log.history|
    requires var h := b.regs[i].log.history;
             h[j].Returned? && h[j].edge && bit in h[j].events && h[k].Returned? && h[k].edge && bit in h[k].events
    ensures var h := b.regs[i].log.history;
            exists m :: 0 <= m < k && Falls(h[m], bit) && (j < m || FellWaiting(h, m, j))
  {
    assert RegFits(b.regs[i], b.nextGeneration);
    EdgeBetween(b.regs[i].log.history, j, k, bit);
  }

  /** Every event returned carried the data and context of the latest successful ADD or MOD. */
  lemma ReturnedCarriesLatest(b: Ledger, i: Id, k: nat, m: nat)
    requires Live(b.regs, i) && k < |b.regs[i].log.history|
    requires b.regs[i].log.history[k].Returned? && LatestBefore(b.regs[i].log.history, k, m)
    ensures b.regs[i].log.history[k].data == b.regs[i].log.history[m].data
    ensures b.regs[i].log.history[k].ctx == b.regs[i].log.history[m].ctx
  {
    assert RegFits(b.regs[i], b.nextGeneration);
    ReturnedIsLatest(b.regs[i].log.history, k, m);
  }

  /** A fired one-shot under explicit rearm has a class left to acknowledge; and unless a cancellation was lost,
      no registration is both fired, or polled, and waiting to be rearmed. */
  lemma FiredCanBeRenewed(b: Ledger, i: Id)
    requires Live(b.regs, i)
    ensures Explicit(b.regs[i].id, b.regs[i].user) && b.regs[i].work.fired ==> b.regs[i].ready.disarmed != {}
    ensures !b.regs[i].work.lost ==> !(b.regs[i].work.rearm && (b.regs[i].work.fired || b.regs[i].poll.status.Pending?))
  {
    assert RegFits(b.regs[i], b.nextGeneration);
  }
}
