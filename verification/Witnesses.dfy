/**
 Runs of a Windows port, from its creation on, that reach what src/wepoll_ex_port.c does
 not expect: a registration returned twice by one coalescing wait, and an arm pass that
 runs out of list; and an edge returned twice because it was seen to fall too early.
 */
module Witnesses {
  import opened Coalescing
  import opened History
  import opened PortMachine
  import opened Readiness
  import opened Registration
  import opened Waits
  import opened Worklist

  const SOCKET := Ident(3, Socket(Tcp, false), false)
  const EVER := ONCE.(oneshot := false)
  const WIDE := ONCE.(events := {IN, OUT})
  const CLOSED := ACCEPTING.(probe := ProbeClosed)
  const EDGE := User({IN, OUT}, true, false, false, 7, 8)
  const SENDABLE := READABLE.(afd := {SEND})
  const ROOM := PACKET.(first := SENDABLE)
  const WRITING := ACCEPTING.(level := {OUT})
  const SHUT := Shuts(3, {ShutRead}, true, true, Won, ACCEPTING)

  /** The only registration, at address 0 under handle 3. */
  ghost predicate Only(b: Ledger) {
    b.table == map[3 := 0] && 0 in b.regs && b.regs[0].id == SOCKET
  }

  lemma OnlyOne(b: Ledger)
    requires Only(b)
    ensures forall i :: Live(b.regs, i) <==> i == 0
    ensures Valid(b.regs[0])
  {
    Stored(b, 0);
  }

  /** It is polled for its interest, in the wait with epoch 1. */
  predicate Watched(r: Reg, u: User) {
    && r.poll.status.Pending? && r.user == u && r.shutdown == {} && !r.work.parked && r.id == SOCKET
    && r.poll.afd == AfdEvents(r) && r.poll.epoch == WAITING.epoch
  }

  lemma Owing(b: Ledger, i: Id)
    requires Live(b.regs, i) && b.regs[i].id.kind.Socket? && b.regs[i].poll.status.Pending?
    ensures i in b.inFlight
  {
    Stored(b, i);
  }

  /** A new port, in its first wait, with a TCP socket added. */
  method Start(u: User) returns (port: Port)
    requires u == EVER || u == ONCE || u == EDGE
    ensures fresh(port) && port.env == WAITING && !port.held && port.given == [] && !port.explicitRearm
    ensures Only(port.b) && port.b.nodes == [] && Watched(port.b.regs[0], u) && !port.b.regs[0].work.rearm
    ensures u == EDGE ==> port.b.regs[0].ready.observed == {}
  {
    port := NewWait();
    TakesFirst(u);
    var ok := port.Add(0, 3, Socket(Tcp, false), u, true, ACCEPTING);
    WatchedNew(port.b.regs[0], u);
  }

  method NewWait() returns (port: Port)
    ensures fresh(port) && port.env == WAITING && !port.held && port.given == [] && !port.explicitRearm
    ensures port.b.regs == map[] && port.b.table == map[] && port.b.nodes == [] && port.b.nextGeneration == 0
  {
    port := new Port(false);
    assert port.b.regs == map[] && port.b.table == map[];
    port.BeginWait(WAITING.epoch);
    assert port.b.regs == map[];
  }

  lemma TakesFirst(u: User)
    requires u == EVER || u == ONCE || u == EDGE
    ensures Taking(WAITING, SOCKET, u, ACCEPTING)
  {
    assert ABORT in EpollToAfd(u.events);
    assert ABORT in AfdEvents(NewReg(SOCKET, u, 0));
  }

  lemma WatchedNew(r: Reg, u: User)
    requires Entered(SOCKET, u, r) && Polled(WAITING, NewReg(SOCKET, u, 1), r)
    ensures Watched(r, u)
  {
  }

  lemma Listens(r: Reg, u: User)
    requires (u == EVER || u == ONCE) && Watched(r, u) && r.life.Attached?
    ensures Hears(WAITING, r, PACKET)
  {
    assert RECEIVE in READABLE.afd * {RECEIVE, ACCEPT};
    assert IN in NativeLevel(Tcp, u.events, true, READABLE);
    assert IN in SocketLevel(r, true, READABLE);
    assert IN in Heard(r, PACKET, READABLE);
  }

  /** A socket whose reading end is shut down has that to tell. */
  lemma TellsEnd(r: Reg)
    requires Valid(r) && Rests(r) && r.id == SOCKET && r.user == EVER && r.shutdown == {}
    ensures Tells(r, {ShutRead}, true, true, ACCEPTING)
  {
    var r' := r.(shutdown := r.shutdown + {ShutRead});
    assert ShutRead in r'.shutdown;
    assert IN in ShutdownNews(r', ACCEPTING.level).0;
  }

  /** Its request completes with news. */
  method Receive(port: Port, u: User)
    requires (u == EVER || u == ONCE) && Only(port.b) && port.b.nodes == [] && Watched(port.b.regs[0], u)
    requires port.env == WAITING
    modifies port`b
    ensures Only(port.b) && port.b.nodes == [NodeOf(port.b.regs[0])] && port.b.regs[0].ready.queued
    ensures port.b.regs[0].user == u && port.b.regs[0].shutdown == {}
    ensures u == ONCE && old(port.b).regs[0].work.rearm ==> Doubled(port.b.regs[0])
  {
    OnlyOne(port.b);
    Owing(port.b, 0);
    ListensAndCrowds(port.b.regs[0], u);
    port.Dispatch(0, PACKET);
    AddToNone(port.b.nodes, NodeOf(port.b.regs[0]));
    assert u == ONCE && old(port.b).regs[0].work.rearm ==> 0 in Crowded(port.b.regs);
  }

  lemma AddToNone(nodes: seq<Node>, n: Node)
    requires nodes == [] + [n]
    ensures nodes == [n]
  {
  }

  lemma ListensAndCrowds(r: Reg, u: User)
    requires (u == EVER || u == ONCE) && Watched(r, u) && r.life.Attached?
    ensures Hears(WAITING, r, PACKET)
    ensures u == ONCE && r.work.rearm ==> Crowds(WAITING, r, PACKET)
  {
    Listens(r, u);
    if u == ONCE && r.work.rearm {
      OnceCrowds(r);
    }
  }

  lemma DrainedRests(r0: Reg, r: Reg, s: Slot)
    requires Drained(r0, r, s)
    ensures Rests(r) && r.id == r0.id && r.user == r0.user && r.shutdown == r0.shutdown
    ensures Doubled(r0) ==> Doubled(r)
  {
  }

  /** One event, returned by a drain that empties the queue. */
  method ReturnOnly(port: Port, max: nat) returns (slots: seq<Slot>)
    requires Only(port.b) && port.b.nodes == [NodeOf(port.b.regs[0])] && port.b.regs[0].ready.queued && !port.held
    requires max > 0
    modifies port
    ensures port.b.nodes == [] && Only(port.b) && !port.held && Rests(port.b.regs[0])
    ensures |slots| == 1 && port.given == old(port.given) + [Given(0, slots[0])]
    ensures port.b.regs[0].user == old(port.b).regs[0].user && port.b.regs[0].shutdown == old(port.b).regs[0].shutdown
    ensures Doubled(old(port.b).regs[0]) ==> Doubled(port.b.regs[0])
    ensures port.env == old(port.env).(submits := old(port.env).submits && max <= COALESCE_THRESHOLD)
  {
    OnlyOne(port.b);
    ghost var b := port.b;
    ghost var taken, more;
    slots, taken, more := port.Drain(max, 1);
    OnlyReturned(b, port.b, max, taken, more);
  }

  lemma OnlyReturned(b: Ledger, b': Ledger, max: nat, taken: seq<Node>, more: seq<Given>)
    requires Only(b) && Live(b.regs, 0) && b.nodes == [NodeOf(b.regs[0])] && b.regs[0].ready.queued && max > 0
    requires Drains(b, b', max, 1, taken, more) && DrainedAll(b.regs, b'.regs, more)
    ensures b'.nodes == [] && Only(b') && |more| == 1 && more == [Given(0, Slots(more)[0])]
    ensures Rests(b'.regs[0]) && b'.regs[0].user == b.regs[0].user && b'.regs[0].shutdown == b.regs[0].shutdown
    ensures Doubled(b.regs[0]) ==> Doubled(b'.regs[0])
  {
    Emptied(b, b', max, 1, taken, more);
    assert b.nodes == [] + [NodeOf(b.regs[0])];
    ReturnsLast(b, b', max, 1, taken, more, [], 0);
    DrainedRests(b.regs[0], b'.regs[0], more[0].slot);
  }

  /** A wait with a large buffer returns the event of the socket. */
  method ReturnOnce() returns (port: Port, slots: seq<Slot>)
    ensures fresh(port) && Only(port.b) && port.b.nodes == [] && !port.held && |slots| == 1
    ensures Disturbs(port.b, 3, {ShutRead}, true, true, ACCEPTING)
    ensures port.given == [Given(0, slots[0])] && port.env == WAITING.(submits := false)
  {
    port := Start(EVER);
    Receive(port, EVER);
    slots := ReturnOnly(port, COALESCE_THRESHOLD + 1);
    OnlyOne(port.b);
    TellsEnd(port.b.regs[0]);
  }

  /** Then a local shutdown rouses it, and the same wait returns it again. */
  method ReturnedTwice() returns (port: Port, first: seq<Slot>, second: seq<Slot>)
    ensures fresh(port) && port.given != [] && first == [port.given[0].slot] && second == Slots(port.given[1..])
    ensures exists k :: 0 < k < |port.given| && port.given[k].i == port.given[0].i
    ensures port.env == WAITING.(submits := false)
  {
    port, first := ReturnOnce();
    ghost var more;
    second, more := ReturnedAgain(port, SHUT, COALESCE_THRESHOLD, 1);
    assert port.given[1..] == more;
    assert port.given[|port.given| - 1] == more[|more| - 1];
  }

  /** Two MODs around a lost cancellation. */
  method Detour() returns (port: Port)
    ensures fresh(port) && port.env == WAITING && !port.held
    ensures Only(port.b) && port.b.nodes == [] && Watched(port.b.regs[0], ONCE) && port.b.regs[0].work.rearm
  {
    port := Start(ONCE);
    WidenAndNarrow(port);
  }

  method WidenAndNarrow(port: Port)
    requires Only(port.b) && Watched(port.b.regs[0], ONCE)
    modifies port`b
    ensures Only(port.b) && port.b.nodes == old(port.b).nodes
    ensures Watched(port.b.regs[0], ONCE) && port.b.regs[0].work.rearm
  {
    Widen(port);
    Narrow(port);
  }

  lemma Uncovered(r: Reg)
    requires Watched(r, ONCE)
    ensures !(AfdEventsFor(SOCKET.kind, WIDE.events, false, {}) <= r.poll.afd) && r.poll.afd == EpollToAfd(ONCE.events)
  {
    assert OUT in WIDE.events * {OUT, WRNORM};
    assert ONCE.events * {OUT, WRNORM} == {};
    assert SEND in AfdEventsFor(SOCKET.kind, WIDE.events, false, {}) && SEND !in r.poll.afd;
  }

  /** The request does not cover the interest, and the next wait is to rearm. */
  predicate Widened(r: Reg) {
    && r.work.rearm && r.shutdown == {} && r.user == WIDE && r.poll.status.Pending?
    && r.poll.epoch == WAITING.epoch && r.poll.afd == EpollToAfd(ONCE.events)
  }

  method Widen(port: Port)
    requires Only(port.b) && Watched(port.b.regs[0], ONCE)
    modifies port`b
    ensures Only(port.b) && port.b.nodes == old(port.b).nodes && Widened(port.b.regs[0])
  {
    OnlyOne(port.b);
    Uncovered(port.b.regs[0]);
    var ok := port.Mod(3, WIDE, Lost, true, ACCEPTING);
  }

  method Narrow(port: Port)
    requires Only(port.b) && Widened(port.b.regs[0])
    modifies port`b
    ensures Only(port.b) && port.b.nodes == old(port.b).nodes && port.b.regs[0].work.rearm
    ensures Watched(port.b.regs[0], ONCE)
  {
    OnlyOne(port.b);
    var ok := port.Mod(3, ONCE, Won, true, ACCEPTING);
  }

  /** The delivery after it leaves the one-shot on both worklists. */
  method Crowd() returns (port: Port)
    ensures fresh(port) && Only(port.b) && !port.env.closing && Doubled(port.b.regs[0]) && Rests(port.b.regs[0])
  {
    port := Detour();
    Receive(port, ONCE);
    var slots := ReturnOnly(port, 1);
  }

  /** It waits on both lists; whoever closes its handle now meets the next arm pass unprepared. */
  method NextWait(port: Port)
    requires Only(port.b) && !port.env.closing && Doubled(port.b.regs[0]) && Rests(port.b.regs[0])
    modifies port
    ensures !port.env.closing && Prompt(port.b.regs) && Listed(port.b.regs, Lists([0], [0]))
    ensures 0 in port.b.regs && Retires(port.env, port.b.regs[0], CLOSED)
  {
    port.EndWait();
    port.BeginWait(2);
    OnlyOne(port.b);
  }

  /** That pass runs out of list. */
  method RunsOut() returns (port: Port, stuck: bool)
    ensures fresh(port) && stuck
  {
    port := Crowd();
    NextWait(port);
    var l := Lists([0], [0]);
    assert l.rearm[0] == 0 && l.oneshot[0] == 0;
    var l', rearms, probes;
    l', rearms, probes, stuck := ArmPort(port, l, [CLOSED], [CLOSED]);
  }

  // ------------------------------------------------------ an edge returned twice

  /** The edge-triggered socket, with a node in the queue. */
  predicate Queueing(r: Reg, pending: Mask, observed: Mask, shutdown: set<Direction>) {
    && r.id == SOCKET && r.user == EDGE && r.shutdown == shutdown
    && r.ready.queued && r.ready.pending == pending && r.ready.observed == observed
  }

  /** The same at rest, to be rearmed. */
  predicate Resting(r: Reg, observed: Mask, shutdown: set<Direction>) {
    && r.id == SOCKET && r.user == EDGE && r.shutdown == shutdown && Rests(r) && r.ready.observed == observed
    && r.work.rearm && !r.work.fired && !r.work.holdoff
  }

  /** The last event in its history returned the bit. */
  predicate Returns(h: seq<Event>, b: Bit) {
    h != [] && h[|h| - 1].Returned? && h[|h| - 1].edge && b in h[|h| - 1].events
  }

  lemma WritableLevel(r: Reg)
    requires r.id == SOCKET && r.user == EDGE && r.shutdown == {} && r.ready.observed == {}
    ensures SocketLevel(r, true, SENDABLE) == {OUT} && Heard(r, ROOM, SENDABLE) == {OUT}
  {
    assert NativeLevel(Tcp, EDGE.events, true, SENDABLE) == {OUT, WRNORM};
  }

  /** The socket becomes writable. */
  method FindRoom(port: Port)
    requires Only(port.b) && Watched(port.b.regs[0], EDGE) && port.b.regs[0].ready.observed == {} && port.env == WAITING
    modifies port`b
    ensures Only(port.b) && Queueing(port.b.regs[0], {OUT}, {OUT}, {})
  {
    OnlyOne(port.b);
    Owing(port.b, 0);
    HearsRoom(port.b.regs[0]);
    port.Dispatch(0, ROOM);
  }

  lemma HearsRoom(r: Reg)
    requires Watched(r, EDGE) && r.life.Attached? && r.ready.observed == {}
    ensures Hears(WAITING, r, ROOM) && Heeds(r, ROOM, SENDABLE) && ROOM.first == SENDABLE && ROOM.ok
    ensures SocketLevel(r, true, SENDABLE) == {OUT} && Heard(r, ROOM, SENDABLE) == {OUT}
  {
    WritableLevel(r);
  }

  lemma ShutLevels(r: Reg, current: Mask)
    requires r.id == SOCKET && r.user == EDGE && r.shutdown == {ShutRead} && current <= {OUT}
    ensures ShutLevel(r, current) == {IN} + current
  {
  }

  lemma TellsMore(r: Reg)
    requires Queueing(r, {OUT}, {OUT}, {})
    ensures var r' := r.(shutdown := r.shutdown + {ShutRead});
            && Tells(r, {ShutRead}, true, true, ACCEPTING) && NewsGranted(r', ACCEPTING) == {IN, OUT}
            && ShutdownNews(r', ACCEPTING.level).1 == {IN}
  {
    var r' := r.(shutdown := r.shutdown + {ShutRead});
    assert r'.shutdown == {ShutRead};
    ShutLevels(r', {});
  }

  /** Its reading end is shut down while it is found not writable, and the event is still in the queue. */
  method ShutWhileFull(port: Port)
    requires Only(port.b) && Queueing(port.b.regs[0], {OUT}, {OUT}, {})
    modifies port`b
    ensures Only(port.b) && Queueing(port.b.regs[0], {IN, OUT}, {IN}, {ShutRead})
    ensures port.b.nodes == old(port.b).nodes + [NodeOf(port.b.regs[0])]
  {
    OnlyOne(port.b);
    TellsMore(port.b.regs[0]);
    var ok := port.ShutdownSocket(3, {ShutRead}, true, true, Won, ACCEPTING);
  }

  lemma ReturnedRests(r0: Reg, r: Reg, s: Slot, pending: Mask, observed: Mask, shutdown: set<Direction>)
    requires Queueing(r0, pending, observed, shutdown) && Drained(r0, r, s) && OUT in pending && !r0.work.fired
    ensures Resting(r, observed, shutdown) && Returns(r.log.history, OUT)
    ensures r0.log.history <= r.log.history && |r.log.history| == |r0.log.history| + 1
  {
  }

  /** The queue is drained. */
  method ReturnEdge(port: Port, ghost nodes: seq<Node>, ghost pending: Mask, ghost observed: Mask,
                    ghost shutdown: set<Direction>)
    requires Only(port.b) && Queueing(port.b.regs[0], pending, observed, shutdown) && OUT in pending && !port.held
    requires port.b.nodes == nodes + [NodeOf(port.b.regs[0])]
    modifies port
    ensures Only(port.b) && port.b.nodes == [] && !port.held && port.env.closing == old(port.env.closing)
    ensures Resting(port.b.regs[0], observed, shutdown) && Returns(port.b.regs[0].log.history, OUT)
    ensures old(port.b).regs[0].log.history <= port.b.regs[0].log.history
    ensures |port.b.regs[0].log.history| == |old(port.b).regs[0].log.history| + 1
  {
    OnlyOne(port.b);
    ghost var b := port.b;
    var n := |port.b.nodes|;
    ghost var taken, more;
    var slots;
    slots, taken, more := port.Drain(n, n);
    EdgeReturned(b, port.b, n, taken, more, nodes, pending, observed, shutdown);
  }

  lemma EdgeReturned(b: Ledger, b': Ledger, n: nat, taken: seq<Node>, more: seq<Given>, nodes: seq<Node>,
                     pending: Mask, observed: Mask, shutdown: set<Direction>)
    requires Only(b) && Live(b.regs, 0) && Queueing(b.regs[0], pending, observed, shutdown) && OUT in pending
    requires b.nodes == nodes + [NodeOf(b.regs[0])] && n == |b.nodes|
    requires Drains(b, b', n, n, taken, more) && DrainedAll(b.regs, b'.regs, more)
    ensures Only(b') && b'.nodes == [] && Resting(b'.regs[0], observed, shutdown)
    ensures Returns(b'.regs[0].log.history, OUT) && b.regs[0].log.history <= b'.regs[0].log.history
    ensures |b'.regs[0].log.history| == |b.regs[0].log.history| + 1
  {
    Stored(b, 0);
    Emptied(b, b', n, n, taken, more);
    ReturnsLast(b, b', n, n, taken, more, nodes, 0);
    ReturnedRests(b.regs[0], b'.regs[0], more[|more| - 1].slot, pending, observed, shutdown);
  }

  lemma AnnouncesRoom(r: Reg)
    requires Resting(r, {IN}, {ShutRead})
    ensures Announces(r, WRITING) && NewsGranted(r, WRITING) == {OUT} && ShutdownNews(r, WRITING.level).1 == {IN, OUT}
    ensures ToldLog(r, ShutLevel(r, WRITING.level), NewsGranted(r, WRITING) - Queued(r), NewsGranted(r, WRITING)) ==
              Append(r.log, Told({IN, OUT}, {OUT}, {OUT}))
  {
    ShutLevels(r, {OUT});
    assert ShutLevel(r, WRITING.level) == {IN, OUT};
    assert NewsGranted(r, WRITING) - Queued(r) == {OUT};
  }

  /** The arm pass of the next wait finds it writable again, and announces that with the shutdown. */
  method ArmWritable(port: Port)
    requires Only(port.b) && port.b.nodes == [] && !port.env.closing && Resting(port.b.regs[0], {IN}, {ShutRead})
    modifies port
    ensures Only(port.b) && Queueing(port.b.regs[0], {OUT}, {IN, OUT}, {ShutRead}) && port.held == old(port.held)
    ensures port.b.nodes == [NodeOf(port.b.regs[0])]
    ensures port.b.regs[0].log.history == old(port.b).regs[0].log.history + [Told({IN, OUT}, {OUT}, {OUT})]
  {
    WaitAgain(port);
    Announcement(port);
  }

  method WaitAgain(port: Port)
    requires Only(port.b) && !port.env.closing && Resting(port.b.regs[0], {IN}, {ShutRead})
    modifies port`b, port`env
    ensures Only(port.b) && !port.env.closing && Resting(port.b.regs[0], {IN}, {ShutRead})
    ensures port.b.nodes == old(port.b).nodes && port.b.regs[0].log == old(port.b).regs[0].log
  {
    port.EndWait();
    port.BeginWait(2);
  }

  method Announcement(port: Port)
    requires Only(port.b) && port.b.nodes == [] && !port.env.closing && Resting(port.b.regs[0], {IN}, {ShutRead})
    modifies port`b
    ensures Only(port.b) && Queueing(port.b.regs[0], {OUT}, {IN, OUT}, {ShutRead})
    ensures port.b.nodes == [NodeOf(port.b.regs[0])]
    ensures port.b.regs[0].log.history == old(port.b).regs[0].log.history + [Told({IN, OUT}, {OUT}, {OUT})]
  {
    OnlyOne(port.b);
    AnnouncesRoom(port.b.regs[0]);
    var result, v := port.Arm(0, WRITING);
    AnnouncedRoom(old(port.b).regs[0], port.b.regs[0]);
    AddToNone(port.b.nodes, NodeOf(port.b.regs[0]));
  }

  lemma AnnouncedRoom(r: Reg, r': Reg)
    requires Resting(r, {IN}, {ShutRead}) && Announced(r, WRITING, r') && r'.id == r.id && KeptOf(r') == KeptOf(r)
    ensures Queueing(r', {OUT}, {IN, OUT}, {ShutRead})
    ensures r'.log.history == r.log.history + [Told({IN, OUT}, {OUT}, {OUT})]
  {
    AnnouncesRoom(r);
  }

  /** The bit is returned, and returned again, although nothing in between lets it count as an edge: it was seen to
      fall by the local shutdown, before its first event left the queue. */
  method EdgeTwice() returns (port: Port)
    ensures Only(port.b)
    ensures var h := port.b.regs[0].log.history;
            && |h| > 2 && Returns(h[..|h| - 2], OUT) && !Falls(h[|h| - 2], OUT) && Returns(h, OUT)
  {
    port := EdgeOnce();
    ghost var h := port.b.regs[0].log.history;
    ArmWritable(port);
    ReturnEdge(port, [], {OUT}, {IN, OUT}, {ShutRead});
    Thrice(h, Told({IN, OUT}, {OUT}, {OUT}), port.b.regs[0].log.history);
  }

  method EdgeOnce() returns (port: Port)
    ensures fresh(port) && Only(port.b) && port.b.nodes == [] && !port.held && !port.env.closing
    ensures Resting(port.b.regs[0], {IN}, {ShutRead}) && Returns(port.b.regs[0].log.history, OUT)
  {
    port := Start(EDGE);
    ghost var nodes := FindThenShut(port);
    ReturnEdge(port, nodes, {IN, OUT}, {IN}, {ShutRead});
  }

  method FindThenShut(port: Port) returns (ghost nodes: seq<Node>)
    requires Only(port.b) && Watched(port.b.regs[0], EDGE) && port.b.regs[0].ready.observed == {} && port.env == WAITING
    modifies port`b
    ensures Only(port.b) && Queueing(port.b.regs[0], {IN, OUT}, {IN}, {ShutRead})
    ensures port.b.nodes == nodes + [NodeOf(port.b.regs[0])]
  {
    FindRoom(port);
    nodes := port.b.nodes;
    ShutWhileFull(port);
  }

  lemma Thrice(h: seq<Event>, e: Event, h': seq<Event>)
    requires h + [e] <= h' && |h'| == |h| + 2
    ensures h'[..|h'| - 2] == h && h'[|h'| - 2] == e
  {
    assert h'[|h|] == (h + [e])[|h|];
  }
}
