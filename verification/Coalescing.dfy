/**
 A wait on a Windows port whose large buffer has received something goes on taking
 completions, without submissions, until it returns (src/wepoll_ex_port.c).
 */
module Coalescing {
  import opened History
  import opened PortMachine
  import opened Readiness
  import opened Registration

  /** What may happen while a wait coalesces completions: packets, callbacks, further drains of what is left of the
      buffer, which take a node before they have the lock, and control operations of other threads. */
  datatype Op =
    | Packets(i: Id, p: Packet)
    | Callbacks(i: Id)
    | Takes
    | DrainsOn(linked: nat)
    | Adds(i: Id, fd: int, kind: Kind, u: User, memory: bool, a: Answer)
    | Mods(fd: int, u: User, cancel: Cancel, node: bool, a: Answer)
    | Dels(fd: int, cancel: Cancel)
    | Rearming(fd: int, classes: Classes, all: bool, cancel: Cancel, a: Answer)
    | Shuts(fd: int, mask: set<Direction>, node: bool, native: bool, cancel: Cancel, a: Answer)

  /** How many of these events are for the registration at address `i`. */
  function Times(given: seq<Given>, i: Id): nat {
    if given == [] then 0 else Times(given[..|given| - 1], i) + if given[|given| - 1].i == i then 1 else 0
  }

  lemma {:induction false} TimesJoin(given: seq<Given>, more: seq<Given>, i: Id)
    ensures Times(given + more, i) == Times(given, i) + Times(more, i)
  {
    if more == [] {
      assert given + more == given;
    } else {
      TimesJoin(given, more[..|more| - 1], i);
      assert (given + more)[..|given + more| - 1] == given + more[..|more| - 1];
    }
  }

  lemma {:induction false} TimesOnce(given: seq<Given>, i: Id)
    requires forall k, m :: 0 <= k < m < |given| ==> given[k].i != given[m].i
    ensures Times(given, i) == if i in Ids(given) then 1 else 0
  {
    if given != [] {
      TimesOnce(given[..|given| - 1], i);
      assert given == given[..|given| - 1] + [given[|given| - 1]];
    }
  }

  /** The registration may come out of a drain once more, unless it is renewed. */
  function Owed(regs: map<Id, Reg>, i: Id): nat {
    if Live(regs, i) && !Rests(regs[i]) then 1 else 0
  }

  /** The handles that an address may have had: its own at the start, and those added under it since. */
  function Handles(regs: map<Id, Reg>, ops: seq<Op>, i: Id): set<int> {
    (if Live(regs, i) then {regs[i].id.fd} else {}) +
    set k | 0 <= k < |ops| && ops[k].Adds? && ops[k].i == i :: ops[k].fd
  }

  predicate Enters(op: Op, i: Id) {
    op.Adds? && op.i == i
  }

  /** The operation adds the registration, or shuts down its handle. */
  predicate Renews(op: Op, i: Id, handles: set<int>) {
    Enters(op, i) || (op.Shuts? && op.fd in handles)
  }

  function Occasions(ops: seq<Op>, i: Id, handles: set<int>): nat {
    if ops == [] then 0
    else Occasions(ops[..|ops| - 1], i, handles) + if Renews(ops[|ops| - 1], i, handles) then 1 else 0
  }

  /** Nobody added a registration at this address. */
  predicate Untaken(ops: seq<Op>, i: Id) {
    forall k :: 0 <= k < |ops| ==> !Enters(ops[k], i)
  }

  /** How often the address comes out of a wait: once if it does not rest at the start, and once more at most for each
      occasion on which it was renewed. */
  ghost predicate Bounded(regs0: map<Id, Reg>, regs: map<Id, Reg>, given: seq<Given>, i: Id, occasions: nat) {
    Times(given, i) + Owed(regs, i) <= Owed(regs0, i) + occasions
  }

  /** Likewise for a registration that was there all the time, in the terms of its own history: it was returned that
      often, and renewed exactly when a local shutdown roused it. */
  ghost predicate Accounted(regs0: map<Id, Reg>, regs: map<Id, Reg>, given: seq<Given>, i: Id, occasions: nat) {
    && Live(regs0, i) && Live(regs, i) && regs[i].id == regs0[i].id
    && var t0, t := regs0[i].log.tally, regs[i].log.tally;
       && t.returned == t0.returned + Times(given, i)
       && Times(given, i) + Owed(regs, i) <= Owed(regs0, i) + t.roused - t0.roused
       && t0.roused <= t.roused <= t0.roused + occasions
  }

  ghost predicate Fair(regs0: map<Id, Reg>, regs: map<Id, Reg>, given: seq<Given>, i: Id, occasions: nat,
                       handles: set<int>, untaken: bool)
  {
    && (Live(regs, i) ==> regs[i].id.fd in handles)
    && Bounded(regs0, regs, given, i, occasions)
    && (Live(regs, i) && untaken ==> Accounted(regs0, regs, given, i, occasions))
  }

  /** A local shutdown is announced for this registration while it rests. */
  predicate Hits(b: Ledger, op: Op, i: Id) {
    op.Shuts? && Disturbs(b, op.fd, op.mask, op.node, op.native, op.a) && i == b.table[op.fd]
  }

  /** What an operation other than a drain may do to a registration: it is renewed exactly when it is added, or when
      its local shutdown is announced while it rests. */
  ghost predicate Moves(b: Ledger, regs: map<Id, Reg>, op: Op, i: Id) {
    Live(regs, i) ==>
      if Enters(op, i) && i !in b.regs then regs[i].id.fd == op.fd
      else
        && Live(b.regs, i) && regs[i].id == b.regs[i].id
        && regs[i].log.tally.returned == b.regs[i].log.tally.returned
        && if Hits(b, op, i) then regs[i].log.tally.roused == b.regs[i].log.tally.roused + 1 && Rests(b.regs[i])
           else regs[i].log.tally.roused == b.regs[i].log.tally.roused && (Rests(b.regs[i]) ==> Rests(regs[i]))
  }

  lemma OwnHandle(b: Ledger, fd: int)
    requires fd in b.table
    ensures Live(b.regs, b.table[fd]) && b.regs[b.table[fd]].id.fd == fd
  {
  }

  lemma FairMove(regs0: map<Id, Reg>, b: Ledger, regs: map<Id, Reg>, op: Op, given: seq<Given>, i: Id, occasions: nat,
                 handles: set<int>, untaken: bool)
    requires Fair(regs0, b.regs, given, i, occasions, handles, untaken) && Moves(b, regs, op, i)
    requires Enters(op, i) ==> op.fd in handles
    ensures Fair(regs0, regs, given, i, occasions + (if Renews(op, i, handles) then 1 else 0), handles,
                 untaken && !Enters(op, i))
  {
    if Hits(b, op, i) {
      OwnHandle(b, op.fd);
    }
  }

  lemma DrainedMoves(regs: map<Id, Reg>, regs': map<Id, Reg>, more: seq<Given>, i: Id)
    requires DrainedAll(regs, regs', more)
    ensures Live(regs', i) <==> Live(regs, i)
    ensures i in Ids(more) ==> Owed(regs, i) == 1 && Owed(regs', i) == 0
    ensures i !in Ids(more) && i in regs ==> regs'[i] == regs[i]
    ensures i in Ids(more) ==>
              && regs'[i].id == regs[i].id && regs'[i].log.tally.returned == regs[i].log.tally.returned + 1
              && regs'[i].log.tally.roused == regs[i].log.tally.roused
  {
    if i in Ids(more) {
      var k :| 0 <= k < |more| && more[k].i == i;
      assert Drained(regs[i], regs'[i], more[k].slot);
    }
  }

  lemma FairDrain(regs0: map<Id, Reg>, regs: map<Id, Reg>, regs': map<Id, Reg>, given: seq<Given>, more: seq<Given>,
                  i: Id, occasions: nat, handles: set<int>, untaken: bool)
    requires Fair(regs0, regs, given, i, occasions, handles, untaken) && DrainedAll(regs, regs', more)
    ensures Fair(regs0, regs', given + more, i, occasions, handles, untaken)
  {
    DrainedMoves(regs, regs', more, i);
    TimesJoin(given, more, i);
    TimesOnce(more, i);
  }

  /** Everything but a drain. */
  method Control(port: Port, op: Op)
    requires !port.env.submits && !op.Takes? && !op.DrainsOn?
    modifies port`b
    ensures old(port.b.nodes) <= port.b.nodes
    ensures forall i :: Moves(old(port.b), port.b.regs, op, i)
  {
    ghost var b := port.b;
    if op.Adds? {
      if op.i !in port.b.regs {
        var ok := port.Add(op.i, op.fd, op.kind, op.u, op.memory, op.a);
        AddMoves(b, port.b.regs, op);
      }
    } else if op.Shuts? && Disturbs(port.b, op.fd, op.mask, op.node, op.native, op.a) {
      var ok := port.ShutdownSocket(op.fd, op.mask, op.node, op.native, op.cancel, op.a);
      ShutMoves(b, port.b, op);
    } else {
      Restful(port, op);
      StillMoves(b, port.b.regs, op);
    }
  }

  lemma AddMoves(b: Ledger, regs: map<Id, Reg>, op: Op)
    requires op.Adds? && op.i !in b.regs && Elsewhere(b.regs, regs, op.i)
    requires Live(regs, op.i) ==> regs[op.i].id.fd == op.fd
    ensures forall i :: Moves(b, regs, op, i)
  {
  }

  lemma ShutMoves(b: Ledger, b': Ledger, op: Op)
    requires op.Shuts? && Disturbs(b, op.fd, op.mask, op.node, op.native, op.a)
    requires Disturbed(b, b', b.table[op.fd], op.mask, op.a)
    ensures forall i :: Moves(b, b'.regs, op, i)
  {
  }

  lemma StillMoves(b: Ledger, regs: map<Id, Reg>, op: Op)
    requires StillRests(b.regs, regs) && (op.Shuts? ==> !Disturbs(b, op.fd, op.mask, op.node, op.native, op.a))
    requires !op.Adds?
    ensures forall i :: Moves(b, regs, op, i)
  {
  }

  /** An operation that disturbs nothing. */
  method Restful(port: Port, op: Op)
    requires !port.env.submits && !op.Takes? && !op.DrainsOn? && !op.Adds?
    requires op.Shuts? ==> !Disturbs(port.b, op.fd, op.mask, op.node, op.native, op.a)
    modifies port`b
    ensures StillRests(old(port.b).regs, port.b.regs) && old(port.b.nodes) <= port.b.nodes
  {
    match op
    case Packets(i, p) =>
      if i in port.b.inFlight {
        port.Dispatch(i, p);
      }
    case Callbacks(i) =>
      if i in port.b.regs && port.b.regs[i].poll.wait.Armed? {
        port.Fire(i);
      }
    case Mods(fd, u, cancel, node, a) =>
      var ok := port.Mod(fd, u, cancel, node, a);
    case Dels(fd, cancel) =>
      var ok := port.Del(fd, cancel);
    case Rearming(fd, classes, all, cancel, a) =>
      var ok := port.Rearm(fd, classes, all, cancel, a);
    case Shuts(fd, mask, node, native, cancel, a) =>
      var ok := port.ShutdownSocket(fd, mask, node, native, cancel, a);
  }

  /** Every address is treated fairly by the first operations of a wait. */
  ghost predicate AllFair(regs0: map<Id, Reg>, regs: map<Id, Reg>, given: seq<Given>, ops: seq<Op>, n: nat)
    requires n <= |ops|
  {
    forall i :: FairTo(regs0, regs, given, ops, n, i)
  }

  ghost predicate FairTo(regs0: map<Id, Reg>, regs: map<Id, Reg>, given: seq<Given>, ops: seq<Op>, n: nat, i: Id)
    requires n <= |ops|
  {
    var handles := Handles(regs0, ops, i);
    Fair(regs0, regs, given, i, Occasions(ops[..n], i, handles), handles, Untaken(ops[..n], i))
  }

  lemma FairAtFirst(regs0: map<Id, Reg>, regs: map<Id, Reg>, given: seq<Given>, ops: seq<Op>)
    requires DrainedAll(regs0, regs, given)
    ensures AllFair(regs0, regs, given, ops, 0)
  {
    forall i
      ensures FairTo(regs0, regs, given, ops, 0, i)
    {
      FairDrain(regs0, regs0, regs, [], given, i, 0, Handles(regs0, ops, i), true);
      assert [] + given == given;
    }
  }

  lemma FairAfterDrain(regs0: map<Id, Reg>, regs: map<Id, Reg>, regs': map<Id, Reg>, given: seq<Given>,
                       more: seq<Given>, ops: seq<Op>, n: nat)
    requires n <= |ops| && AllFair(regs0, regs, given, ops, n) && DrainedAll(regs, regs', more)
    ensures AllFair(regs0, regs', given + more, ops, n)
  {
    forall i
      ensures FairTo(regs0, regs', given + more, ops, n, i)
    {
      assert FairTo(regs0, regs, given, ops, n, i);
      var handles := Handles(regs0, ops, i);
      FairDrain(regs0, regs, regs', given, more, i, Occasions(ops[..n], i, handles), handles, Untaken(ops[..n], i));
    }
  }

  lemma OccasionsNext(ops: seq<Op>, n: nat, i: Id, handles: set<int>)
    requires n < |ops|
    ensures Occasions(ops[..n + 1], i, handles) ==
              Occasions(ops[..n], i, handles) + if Renews(ops[n], i, handles) then 1 else 0
    ensures Untaken(ops[..n + 1], i) <==> Untaken(ops[..n], i) && !Enters(ops[n], i)
  {
    assert ops[..n + 1][..n] == ops[..n];
    assert ops[..n + 1] == ops[..n] + [ops[n]];
  }

  lemma FairAfterMove(regs0: map<Id, Reg>, b: Ledger, regs: map<Id, Reg>, given: seq<Given>, ops: seq<Op>, n: nat)
    requires n < |ops| && AllFair(regs0, b.regs, given, ops, n) && forall i :: Moves(b, regs, ops[n], i)
    ensures AllFair(regs0, regs, given, ops, n + 1)
  {
    var n' := n + 1;
    forall i
      ensures FairTo(regs0, regs, given, ops, n', i)
    {
      assert FairTo(regs0, b.regs, given, ops, n, i);
      var handles := Handles(regs0, ops, i);
      assert Enters(ops[n], i) ==> ops[n].fd in handles;
      FairMove(regs0, b, regs, ops[n], given, i, Occasions(ops[..n], i, handles), handles, Untaken(ops[..n], i));
      OccasionsNext(ops, n, i, handles);
    }
  }

  /** A drain moves nothing else on. */
  lemma FairNext(regs0: map<Id, Reg>, regs: map<Id, Reg>, given: seq<Given>, ops: seq<Op>, n: nat)
    requires n < |ops| && AllFair(regs0, regs, given, ops, n)
    ensures AllFair(regs0, regs, given, ops, n + 1)
  {
    var n' := n + 1;
    forall i
      ensures FairTo(regs0, regs, given, ops, n', i)
    {
      assert FairTo(regs0, regs, given, ops, n, i);
      OccasionsNext(ops, n, i, Handles(regs0, ops, i));
    }
  }

  /** The drain of what is left of the buffer; once anything was returned, nothing is submitted. */
  method DrainMore(port: Port, max: nat, linked: nat, events: seq<Slot>, ghost given: seq<Given>)
    returns (events': seq<Slot>, ghost given': seq<Given>, ghost more: seq<Given>)
    requires |events| < max && events == Slots(given) && (port.held ==> port.b.nodes != [])
    modifies port
    ensures port.given == old(port.given) + more && given' == given + more && events' == Slots(given')
    ensures |events'| <= max && !port.held && DrainedAll(old(port.b).regs, port.b.regs, more)
    ensures port.env.submits ==> old(port.env.submits) && (events == [] && max > COALESCE_THRESHOLD ==> events' == [])
    ensures !old(port.env.submits) ==> !port.env.submits
  {
    var slots;
    ghost var taken;
    slots, taken, more := port.Drain(max - |events|, linked);
    SlotsJoin(given, more);
    events', given' := events + slots, given + more;
  }

  /** One operation of such a wait. */
  method Turn(port: Port, max: nat, ops: seq<Op>, n: nat, events: seq<Slot>, ghost given: seq<Given>,
              ghost regs0: map<Id, Reg>)
    returns (events': seq<Slot>, ghost given': seq<Given>, ghost more: seq<Given>)
    requires !port.env.submits && (port.held ==> port.b.nodes != []) && events == Slots(given) && |events| <= max
    requires n < |ops| && AllFair(regs0, port.b.regs, given, ops, n)
    modifies port
    ensures !port.env.submits && (port.held ==> port.b.nodes != []) && events' == Slots(given') && |events'| <= max
    ensures port.given == old(port.given) + more && given' == given + more
    ensures AllFair(regs0, port.b.regs, given', ops, n + 1)
  {
    events', given', more := events, given, [];
    if ops[n].Takes? {
      port.Take();
      FairNext(regs0, port.b.regs, given, ops, n);
    } else if ops[n].DrainsOn? {
      if |events| < max {
        events', given', more := DrainMore(port, max, ops[n].linked, events, given);
        FairAfterDrain(regs0, old(port.b).regs, port.b.regs, given, more, ops, n);
      }
      FairNext(regs0, port.b.regs, given', ops, n);
    } else {
      Control(port, ops[n]);
      FairAfterMove(regs0, old(port.b), port.b.regs, given, ops, n);
    }
  }

  lemma FairLater(regs0: map<Id, Reg>, regs: map<Id, Reg>, given: seq<Given>, ops: seq<Op>)
    requires AllFair(regs0, regs, given, ops, 0)
    ensures AllFair(regs0, regs, given, ops, |ops|)
  {
    forall i
      ensures FairTo(regs0, regs, given, ops, |ops|, i)
    {
      assert FairTo(regs0, regs, given, ops, 0, i);
    }
  }

  lemma FairAtLast(regs0: map<Id, Reg>, regs: map<Id, Reg>, given: seq<Given>, ops: seq<Op>, i: Id)
    requires AllFair(regs0, regs, given, ops, |ops|)
    ensures Bounded(regs0, regs, given, i, Occasions(ops, i, Handles(regs0, ops, i)))
    ensures Live(regs, i) && Untaken(ops, i) ==>
              Accounted(regs0, regs, given, i, Occasions(ops, i, Handles(regs0, ops, i)))
  {
    assert FairTo(regs0, regs, given, ops, |ops|, i);
    assert ops[..|ops|] == ops;
  }

  /** The operations after the first drain. */
  method Turns(port: Port, max: nat, ops: seq<Op>, events: seq<Slot>, ghost given: seq<Given>, ghost regs0: map<Id, Reg>)
    returns (events': seq<Slot>, ghost given': seq<Given>, ghost more: seq<Given>)
    requires !port.env.submits && (port.held ==> port.b.nodes != []) && events == Slots(given) && |events| <= max
    requires AllFair(regs0, port.b.regs, given, ops, 0)
    modifies port
    ensures events' == Slots(given') && |events'| <= max
    ensures port.given == old(port.given) + more && given' == given + more
    ensures AllFair(regs0, port.b.regs, given', ops, |ops|)
  {
    events', given', more := events, given, [];
    for n := 0 to |ops|
      invariant !port.env.submits && (port.held ==> port.b.nodes != []) && events' == Slots(given') && |events'| <= max
      invariant port.given == old(port.given) + more && given' == given + more
      invariant AllFair(regs0, port.b.regs, given', ops, n)
    {
      ghost var m;
      events', given', m := Turn(port, max, ops, n, events', given', regs0);
      more := more + m;
    }
  }

  /** The first `n` nodes of the queue, as far as buffer and reach go, give the first events of the wait. */
  ghost predicate StartsWith(b: Ledger, max: nat, reach: nat, given: seq<Given>, n: nat) {
    && n <= |b.nodes| && n <= reach
    && var first := Givens(b.table, Generations(b.regs, b.table), b.nodes[..n]);
       first <= given && (|first| == max || n == reach || n == |b.nodes|)
  }

  ghost predicate Starts(b: Ledger, max: nat, reach: nat, given: seq<Given>) {
    exists n :: StartsWith(b, max, reach, given, n)
  }

  lemma DrainStarts(b: Ledger, b': Ledger, max: nat, reach: nat, taken: seq<Node>, given: seq<Given>)
    requires Drains(b, b', max, reach, taken, given)
    ensures Starts(b, max, reach, given)
  {
    assert b.nodes[..|taken|] == taken;
    assert StartsWith(b, max, reach, given, |taken|);
  }

  lemma StillStarts(b: Ledger, max: nat, reach: nat, given: seq<Given>, more: seq<Given>)
    requires Starts(b, max, reach, given)
    ensures Starts(b, max, reach, given + more)
  {
    var n :| StartsWith(b, max, reach, given, n);
    assert StartsWith(b, max, reach, given + more, n);
  }

  method DrainStart(port: Port, max: nat, linked: nat) returns (events: seq<Slot>, ghost given: seq<Given>)
    requires max > COALESCE_THRESHOLD && (port.held ==> port.b.nodes != [])
    modifies port
    ensures port.given == old(port.given) + given && events == Slots(given) && |events| <= max
    ensures !port.held && (events != [] ==> !port.env.submits)
    ensures DrainedAll(old(port.b).regs, port.b.regs, given)
    ensures Starts(old(port.b), max, Reach(linked, old(port.held)), given)
  {
    ghost var reach := Reach(linked, port.held);
    ghost var taken;
    events, taken, given := port.Drain(max, linked);
    DrainStarts(old(port.b), port.b, max, reach, taken, given);
  }

  /** The first drain of such a wait. */
  method DrainFirst(port: Port, max: nat, linked: nat, ops: seq<Op>) returns (events: seq<Slot>, ghost given: seq<Given>)
    requires max > COALESCE_THRESHOLD && (port.held ==> port.b.nodes != [])
    modifies port
    ensures port.given == old(port.given) + given && events == Slots(given) && |events| <= max
    ensures !port.held && (events != [] ==> !port.env.submits)
    ensures AllFair(old(port.b).regs, port.b.regs, given, ops, 0)
    ensures Starts(old(port.b), max, Reach(linked, old(port.held)), given)
  {
    events, given := DrainStart(port, max, linked);
    FairAtFirst(old(port.b).regs, port.b.regs, given, ops);
  }

  /** The rest of such a wait. */
  method TurnsOn(port: Port, max: nat, ops: seq<Op>, events: seq<Slot>, ghost given: seq<Given>, ghost b0: Ledger,
                 ghost reach: nat, ghost before: seq<Given>)
    returns (events': seq<Slot>, ghost given': seq<Given>)
    requires !port.env.submits && !port.held && events == Slots(given) && |events| <= max
    requires AllFair(b0.regs, port.b.regs, given, ops, 0) && Starts(b0, max, reach, given)
    requires port.given == before + given
    modifies port
    ensures events' == Slots(given') && |events'| <= max && port.given == before + given'
    ensures AllFair(b0.regs, port.b.regs, given', ops, |ops|) && Starts(b0, max, reach, given')
  {
    ghost var more;
    events', given', more := Turns(port, max, ops, events, given, b0.regs);
    StillStarts(b0, max, reach, given, more);
    Joined(before, given, more);
  }

  lemma Joined(before: seq<Given>, given: seq<Given>, more: seq<Given>)
    ensures before + given + more == before + (given + more)
  {
  }

  /** The whole of such a wait. */
  method DrainAndTurn(port: Port, max: nat, linked: nat, ops: seq<Op>)
    returns (events: seq<Slot>, ghost given: seq<Given>)
    requires max > COALESCE_THRESHOLD && (port.held ==> port.b.nodes != [])
    modifies port
    ensures port.given == old(port.given) + given && events == Slots(given) && |events| <= max
    ensures AllFair(old(port.b).regs, port.b.regs, given, ops, |ops|)
    ensures Starts(old(port.b), max, Reach(linked, old(port.held)), given)
  {
    ghost var b, reach := port.b, Reach(linked, port.held);
    events, given := DrainFirst(port, max, linked, ops);
    if events == [] {
      FairLater(b.regs, port.b.regs, given, ops);
    } else {
      events, given := TurnsOn(port, max, ops, events, given, b, reach, old(port.given));
    }
  }

  lemma FairForAll(regs0: map<Id, Reg>, regs: map<Id, Reg>, given: seq<Given>, ops: seq<Op>)
    requires AllFair(regs0, regs, given, ops, |ops|)
    ensures forall i :: Bounded(regs0, regs, given, i, Occasions(ops, i, Handles(regs0, ops, i)))
    ensures forall i :: Live(regs, i) && Untaken(ops, i) ==>
              Accounted(regs0, regs, given, i, Occasions(ops, i, Handles(regs0, ops, i)))
  {
    forall i
      ensures Bounded(regs0, regs, given, i, Occasions(ops, i, Handles(regs0, ops, i)))
      ensures Live(regs, i) && Untaken(ops, i) ==>
                Accounted(regs0, regs, given, i, Occasions(ops, i, Handles(regs0, ops, i)))
    {
      FairAtLast(regs0, regs, given, ops, i);
    }
  }

  /** A wait with a large buffer that has something to return.  Whatever else happens, an address is returned once, and
      once more at most for each time it is added anew or its handle is shut down.  A registration that is there all
      the time is returned a second time only if a local shutdown roused it.  The events are those that its history
      counts. */
  method Coalesce(port: Port, max: nat, linked: nat, ops: seq<Op>) returns (events: seq<Slot>, ghost given: seq<Given>)
    requires max > COALESCE_THRESHOLD && (port.held ==> port.b.nodes != [])
    modifies port
    ensures port.given == old(port.given) + given && events == Slots(given) && |events| <= max
    ensures Starts(old(port.b), max, Reach(linked, old(port.held)), given)
    ensures var regs0 := old(port.b).regs;
            forall i :: Bounded(regs0, port.b.regs, given, i, Occasions(ops, i, Handles(regs0, ops, i)))
    ensures var regs0 := old(port.b).regs;
            forall i :: Live(port.b.regs, i) && Untaken(ops, i) ==>
              Accounted(regs0, port.b.regs, given, i, Occasions(ops, i, Handles(regs0, ops, i)))
  {
    events, given := DrainAndTurn(port, max, linked, ops);
    FairForAll(old(port.b).regs, port.b.regs, given, ops);
  }

  /** Draining a queue whose last node is current gives its event last. */
  lemma GivesLast(b: Ledger, nodes: seq<Node>, i: Id)
    requires Live(b.regs, i) && b.regs[i].ready.queued
    ensures var given := Givens(b.table, Generations(b.regs, b.table), nodes + [NodeOf(b.regs[i])]);
            given != [] && given[|given| - 1] == Given(i, SlotOf(NodeOf(b.regs[i])))
  {
    assert b.table[b.regs[i].id.fd] == i;
    assert (nodes + [NodeOf(b.regs[i])])[..|nodes|] == nodes;
  }

  /** A queue that the drain can reach, and the buffer holds, is emptied. */
  lemma Emptied(b0: Book, b: Book, max: nat, reach: nat, taken: seq<Node>, given: seq<Given>)
    requires Drains(b0, b, max, reach, taken, given) && |b0.nodes| <= max && |b0.nodes| <= reach
    ensures b.nodes == []
  {
    assert |b0.nodes| == |taken| + |b.nodes|;
  }

  /** The event of a registration roused by a local shutdown, and what its history says of it. */
  ghost predicate Again(r0: Reg, r: Reg, g: Given, i: Id) {
    && g.i == i && g.slot.data == r0.user.data && g.slot.ctx == r0.user.ctx
    && var h0, h := r0.log.history, r.log.history;
       && |h0| + 2 <= |h| && h0 <= h && h[|h| - 2] == Roused
       && (forall k :: |h0| <= k < |h| - 2 ==> h[k].Told?)
       && h[|h| - 1] == Returned(g.slot.events, g.slot.data, g.slot.ctx, Explicit(r0.id, r0.user), Edged(r0.id, r0.user))
  }

  lemma ReturnedLast(r0: Reg, r1: Reg, r2: Reg, g: Given, i: Id)
    requires NotesRoused(r0.log, r1.log) && r1.id == r0.id && r1.user == r0.user
    requires Drained(r1, r2, g.slot) && g.i == i
    ensures Again(r0, r2, g, i)
  {
  }

  /** What a drain returns for the last node, once it has emptied the queue. */
  lemma ReturnsLast(b: Ledger, b': Ledger, max: nat, reach: nat, taken: seq<Node>, more: seq<Given>,
                    nodes: seq<Node>, i: Id)
    requires Live(b.regs, i) && b.regs[i].ready.queued && b.nodes == nodes + [NodeOf(b.regs[i])]
    requires Drains(b, b', max, reach, taken, more) && DrainedAll(b.regs, b'.regs, more) && b'.nodes == []
    ensures more != [] && more[|more| - 1].i == i && i in b'.regs
    ensures Drained(b.regs[i], b'.regs[i], more[|more| - 1].slot)
  {
    assert taken == nodes + [NodeOf(b.regs[i])];
    GivesLast(b, nodes, i);
  }

  lemma AgainAfter(b0: Ledger, b: Ledger, b': Ledger, mask: set<Direction>, a: Answer, max: nat, reach: nat,
                   taken: seq<Node>, more: seq<Given>, i: Id)
    requires Disturbed(b0, b, i, mask, a)
    requires Drains(b, b', max, reach, taken, more) && DrainedAll(b.regs, b'.regs, more)
    ensures max > |b0.nodes| && reach > |b0.nodes| ==> b'.nodes == []
    ensures b'.nodes == [] ==>
              more != [] && Live(b'.regs, i) && Again(b0.regs[i], b'.regs[i], more[|more| - 1], i)
  {
    if max > |b0.nodes| && reach > |b0.nodes| {
      Emptied(b, b', max, reach, taken, more);
    }
    if b'.nodes == [] {
      ReturnsLast(b, b', max, reach, taken, more, b0.nodes, i);
      ReturnedLast(b0.regs[i], b.regs[i], b'.regs[i], more[|more| - 1], i);
    }
  }

  /** A registration whose local shutdown is announced comes out again: a drain that empties the queue returns it last,
      and a drain with room for the whole queue empties it. */
  method ReturnedAgain(port: Port, op: Op, max: nat, linked: nat) returns (slots: seq<Slot>, ghost more: seq<Given>)
    requires op.Shuts? && Disturbs(port.b, op.fd, op.mask, op.node, op.native, op.a) && max > 0
    requires port.held ==> port.b.nodes != []
    modifies port
    ensures port.given == old(port.given) + more && slots == Slots(more)
    ensures !old(port.env.submits) ==> port.env == old(port.env)
    ensures max > |old(port.b).nodes| && linked > |old(port.b).nodes| ==> port.b.nodes == []
    ensures var i := old(port.b).table[op.fd];
            port.b.nodes == [] ==>
              more != [] && Live(port.b.regs, i) && Again(old(port.b).regs[i], port.b.regs[i], more[|more| - 1], i)
  {
    ghost var reach := Reach(linked, port.held);
    var ok := port.ShutdownSocket(op.fd, op.mask, op.node, op.native, op.cancel, op.a);
    ghost var b := port.b;
    ghost var taken;
    slots, taken, more := port.Drain(max, linked);
    AgainAfter(old(port.b), b, port.b, op.mask, op.a, max, reach, taken, more, old(port.b).table[op.fd]);
  }
}
