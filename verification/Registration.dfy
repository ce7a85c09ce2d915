/**
 One registration of a Windows port: `ep_sock_t` of src/wepoll_ex_port.c and the
 critical sections under `fd_table_lock` that update it.  A critical section is a
 method from one `Step` to the next, and the type `Step` carries the registration
 invariant.  Kernel calls appear as answers passed in.  The build is the one with
 WEPOLL_EX_ASSUME_SYNCHRONIZED_SOCKET_LIFETIME.
 */
module Registration {
  import opened Readiness
  import opened History
  import Sets

  datatype Semantics = Persistent | ObjectTerminal | Consumptive | EdgeUnsupported

  datatype Kind = Socket(protocol: Protocol, udpProbe: bool) | Waitable(semantics: Semantics)

  /** The interest mask, the delivery flags and the caller's cookie. */
  datatype User = User(events: Mask, et: bool, oneshot: bool, exclusive: bool, data: int, ctx: int)

  datatype Status = Idle | Pending | Cancelled

  /** A threadpool wait on a waitable handle: armed, or already fired once. */
  datatype Wait = Unarmed | Armed | Fired

  datatype Direction = ShutRead | ShutWrite

  /** A ready-queue node: an immutable snapshot of its registration. */
  datatype Node = Node(fd: int, generation: nat, events: Mask, data: int, ctx: int, et: bool, oneshot: bool)

  datatype Cancel = Won | Lost | CancelFailed
  datatype Probe = ProbeOk | ProbeClosed | ProbeError
  datatype AfdResult = AfdPending | AfdImmediate | AfdFailed | AfdClosed
  datatype WaitResult = Signaled | TimedOut | WaitFailed | WaitInvalid

  /** The exclusive claim's answer: the event bits it leaves to the claimant, never none of them. */
  datatype Claim = Denied | Granted(keep: Mask)

  /** The kernel's answers to one submission; `level` are the current TCP levels. */
  datatype Answer = Answer(
    probe: Probe, level: Mask, node: bool, claim: Claim, group: bool, afd: AfdResult, wait: WaitResult, registered: bool)

  datatype UdpProbe = NotProbed | NotReady | HasData | HasError | Unavailable | ProbedClosed

  datatype Tri = No | Yes | Unsampled

  /** One completed poll: `merge` are the current TCP levels, `read` and `write` the edge samples. */
  datatype Snapshot = Snapshot(
    handles: bool, afd: AfdMask, failed: bool, udp: UdpProbe, merge: Mask, read: Tri, write: Tri)

  /** Everything the kernel answers while one completion packet is handled; `ok` and `cancelled` are the
      status of a socket request, since a waitable's packets are posted by the library with STATUS_SUCCESS. */
  datatype Packet = Packet(
    ok: bool, cancelled: bool, first: Snapshot, refresh: Answer, second: Snapshot,
    sample: WaitResult, node: bool, claim: Claim, again: Answer)

  datatype Poll = Poll(
    status: Status,
    afd: AfdMask,              // the mask of the last submitted request
    epoch: nat,                // the wait it was submitted in
    wait: Wait,
    posted: bool,              // completion_posted
    packets: nat)              // completion packets the kernel owes for this registration

  datatype Ready = Ready(
    pending: Mask,
    observed: Mask,
    disarmed: Classes,
    queued: bool,              // ready_queued
    owned: bool)               // waitable_notification_owned

  datatype Work = Work(
    rearm: bool,
    fired: bool,
    holdoff: bool,
    parked: bool,
    lost: bool,                // a cancellation of an AFD request lost its race, or failed
    orphaned: bool)            // a request came back cancelled that was neither cancelled nor to be rearmed

  datatype Ident = Ident(fd: int, kind: Kind, explicitPort: bool)

  datatype Reg = Reg(
    id: Ident, user: User, poll: Poll, ready: Ready, work: Work, shutdown: set<Direction>,
    generation: nat, life: Life, log: Log)

  datatype Life = Attached | Detached | Freed

  /** What happened to the registration so far, and its summary. */
  datatype Log = Log(history: seq<Event>, tally: Tally)

  datatype Env = Env(closing: bool, submits: bool, epoch: nat)   // submits: a wait is active and not coalescing

  datatype Outcome = Failed | Done | Gone                        // the C results -1, 0 and 1
  datatype Publication = NoMemory | Unchanged | Published        // the C results -1, 0 and 1

  const WAITABLE_BITS: Mask := {IN, OUT, PRI, RDNORM, WRNORM, RDBAND, WRBAND, RDHUP}

  /** `ep_sock_afd_events_for_state_locked` */
  function AfdEventsFor(kind: Kind, events: Mask, parked: bool, disarmed: Classes): AfdMask {
    var base := EpollToAfd(events);
    var probed :=
      if kind.Socket? && kind.protocol.Udp? && kind.udpProbe && events * {IN, RDNORM} == {} && !parked
      then base + {RECEIVE} else base;
    probed - ClassesAfdEvents(disarmed)
  }

  /** A disarmed class is not polled for, an armed one as ever. */
  lemma PolledByClass(kind: Kind, events: Mask, parked: bool, disarmed: Classes, e: AfdBit)
    ensures e in AfdEventsFor(kind, events, parked, disarmed) <==>
              e in AfdEventsFor(kind, events, parked, {}) && forall c :: c in disarmed ==> e !in ClassAfdEvents(c)
  {
    EveryClass(disarmed);
  }

  /** `ep_sock_merge_local_shutdown_locked` */
  function MergeShutdown(kind: Kind, events: Mask, shutdown: set<Direction>, level: Mask): Mask {
    if !kind.Socket? || !kind.protocol.Tcp? then level
    else
      level +
      (if ShutRead in shutdown then events * {IN, RDNORM, RDHUP} else {}) +
      (if shutdown == {ShutRead, ShutWrite} then {HUP} else {})
  }

  predicate Readless(events: Mask) {
    events * {IN, RDNORM} == {}
  }

  /** The receive qualifier's answer; only a readable UDP snapshot is probed. */
  function Probed(protocol: Protocol, ok: bool, s: Snapshot): UdpProbe {
    if ok && s.handles && protocol.Udp? && RECEIVE in s.afd && !s.failed then s.udp else NotProbed
  }

  /** AFD's snapshot in epoll terms, with the UDP qualifier applied. */
  function NativeLevel(protocol: Protocol, events: Mask, ok: bool, s: Snapshot): (level: Mask)
    ensures level <= SOCKET_BITS
  {
    var udp := Probed(protocol, ok, s);
    var drop := udp.NotReady? || udp.HasError? || (Readless(events) && (udp.HasData? || udp.Unavailable?));
    if !ok then {ERR}
    else if !s.handles then {}
    else
      var raw := AfdToEpoll(if drop then s.afd - {RECEIVE} else s.afd, s.failed, protocol);
      if udp.HasError? then raw + {ERR} - {HUP} else raw
  }

  /** A failed poll is an error and nothing else, and one without handles is no report; a stream reports what AFD says. */
  lemma StreamLevel(events: Mask, ok: bool, s: Snapshot, b: Bit)
    ensures b in NativeLevel(Tcp, events, ok, s) <==>
              if !ok then b == ERR else s.handles && b in AfdToEpoll(s.afd, s.failed, Tcp)
  {
  }

  /** The receive qualifier of a datagram socket: an error is no hangup, a stale report is no data, and data are
      data for those who asked to read. */
  lemma DatagramQualified(events: Mask, s: Snapshot)
    requires !Probed(Udp, true, s).NotProbed?
    ensures var udp, level := Probed(Udp, true, s), NativeLevel(Udp, events, true, s);
            var unread := Readless(events) && (udp.HasData? || udp.Unavailable?);
            && (udp.HasError? ==> ERR in level && HUP !in level)
            && (udp.HasData? && !Readless(events) ==> {IN, RDNORM} <= level)
            && ((udp.NotReady? || udp.HasError? || unread) && s.afd <= {RECEIVE, SEND} ==> level !! {IN, RDNORM})
  {
    assert RECEIVE in s.afd * {RECEIVE, ACCEPT};
    assert s.afd <= {RECEIVE, SEND} ==> (s.afd - {RECEIVE}) * {RECEIVE, ACCEPT} == {};
  }

  /** The sample contradicts the bit. */
  predicate Unready(s: Snapshot, b: Bit) {
    (s.read.No? && b in {IN, RDNORM, RDHUP}) || (s.write.No? && b in {OUT, WRNORM})
  }

  /** `ep_socket_merge_current_levels`: a terminal condition needs no addition. */
  function Merged(protocol: Protocol, native: Mask, s: Snapshot): Mask {
    if protocol.Tcp? && native * TERMINAL_BITS == {} then native + (s.merge * SOCKET_BITS) else native
  }

  /** Current-level merge, class filter and edge sampling of a socket completion. */
  function Qualify(protocol: Protocol, disarmed: Classes, explicit: bool, sampled: bool, native: Mask, s: Snapshot)
    : (level: Mask)
    requires native <= SOCKET_BITS
    ensures level <= SOCKET_BITS
    ensures explicit ==> ClassesOf(level) !! disarmed
  {
    var merged := Merged(protocol, native, s);
    var armed := if explicit then Filter(merged, disarmed) else merged;
    var level :=
      if sampled then
        armed - (if s.read.No? then {IN, RDNORM, RDHUP} else {}) - (if s.write.No? then {OUT, WRNORM} else {})
      else armed;
    FilterClasses(merged, disarmed);
    ClassesMonotone(level, armed);
    level
  }

  /** A bit that AFD reports, or that a stream has now while AFD reports nothing terminal, is reported unless its class
      awaits an acknowledgement or a sample contradicts it. */
  lemma QualifiedExactly(
    protocol: Protocol, disarmed: Classes, explicit: bool, sampled: bool, native: Mask, s: Snapshot, b: Bit)
    requires native <= SOCKET_BITS
    ensures b in Qualify(protocol, disarmed, explicit, sampled, native, s) <==>
              && (b in native || (protocol.Tcp? && native * TERMINAL_BITS == {} && b in s.merge * SOCKET_BITS))
              && (explicit ==> ClassesOf({b}) !! disarmed) && !(sampled && Unready(s, b))
  {
    FilterExactly(Merged(protocol, native, s), disarmed, b);
  }

  /** The locally published shutdown on top of a native level, filtered again and cut to the interest. */
  function WithShutdown(
    kind: Kind, events: Mask, disarmed: Classes, explicit: bool, shutdown: set<Direction>, level: Mask): (r: Mask)
    requires level <= SOCKET_BITS && (explicit ==> ClassesOf(level) !! disarmed)
    ensures r <= SOCKET_BITS * (events + TERMINAL_BITS)
    ensures explicit ==> ClassesOf(r) !! disarmed
  {
    var shut := if shutdown == {} then level
                else if explicit then Filter(MergeShutdown(kind, events, shutdown, level), disarmed)
                else MergeShutdown(kind, events, shutdown, level);
    var r := shut * (events + TERMINAL_BITS);
    FilterClasses(MergeShutdown(kind, events, shutdown, level), disarmed);
    ClassesMonotone(r, shut);
    r
  }

  /** `ep_sock_local_shutdown_level_locked`; `current` are the merged TCP levels. */
  function ShutdownLevel(
    kind: Kind, events: Mask, disarmed: Classes, explicit: bool, shutdown: set<Direction>, current: Mask): (r: Mask)
    ensures r <= SOCKET_BITS * (events + TERMINAL_BITS)
    ensures explicit ==> ClassesOf(r) !! disarmed
  {
    if !kind.Socket? || !kind.protocol.Tcp? || shutdown == {} then {}
    else
      var level := MergeShutdown(kind, events, shutdown, current * SOCKET_BITS) * (events + TERMINAL_BITS);
      FilterClasses(level, disarmed);
      if explicit then Filter(level, disarmed) else level
  }

  /** The level of a local shutdown, bit by bit: the current levels, the end of the stream for those who read, and a
      hangup once both directions are shut; within the interest and the armed classes. */
  lemma ShutdownLevelShows(
    kind: Kind, events: Mask, disarmed: Classes, explicit: bool, shutdown: set<Direction>, current: Mask, b: Bit)
    requires kind.Socket? && kind.protocol.Tcp? && shutdown != {}
    ensures var ended := ShutRead in shutdown && b in events * {IN, RDNORM, RDHUP};
            var hungUp := shutdown == {ShutRead, ShutWrite} && b == HUP;
            b in ShutdownLevel(kind, events, disarmed, explicit, shutdown, current) <==>
              (b in current * SOCKET_BITS || ended || hungUp) && b in events + TERMINAL_BITS &&
              (explicit ==> ClassesOf({b}) !! disarmed)
  {
    FilterExactly(MergeShutdown(kind, events, shutdown, current * SOCKET_BITS) * (events + TERMINAL_BITS), disarmed, b);
  }

  /** The bits a level adds for the caller, and the new latch: edges only for EPOLLET, the level otherwise. */
  function Latch(user: User, observed: Mask, level: Mask): (r: (Mask, Mask))
    ensures r.0 <= level
  {
    if user.et then
      var kept := observed * level * (user.events + TERMINAL_BITS);
      (level - kept, level)
    else (level, {})
  }

  /** The latch after a run of completions with these levels. */
  function Observed(user: User, levels: seq<Mask>): Mask {
    if levels == [] then {} else Latch(user, Observed(user, levels[..|levels| - 1]), levels[|levels| - 1]).1
  }

  /** An edge-triggered registration reports exactly the rising edges of its levels. */
  lemma {:induction false} RisingEdges(user: User, levels: seq<Mask>, k: nat)
    requires user.et && k < |levels| && forall j :: 0 <= j < |levels| ==> levels[j] <= user.events + TERMINAL_BITS
    ensures Latch(user, Observed(user, levels[..k]), levels[k]).0 == levels[k] - (if k == 0 then {} else levels[k - 1])
  {
    if k != 0 {
      assert levels[..k][..k - 1] == levels[..k - 1];
    }
  }

  /** Bits that are new, or already queued, name no class the caller still has to acknowledge. */
  lemma NewsIsUnreported(unacked: Classes, disarmed: Classes, before: Mask, edges: Mask, granted: Mask)
    requires unacked <= disarmed
    requires ClassesOf(before) !! unacked && ClassesOf(edges) !! disarmed
    requires granted <= before + edges
    ensures ClassesOf(granted) !! unacked
  {
    forall c | c in ClassesOf(granted)
      ensures c !in unacked
    {
      var b :| b in granted * BitsOf(c);
      assert b in before * BitsOf(c) || b in edges * BitsOf(c);
      assert c in ClassesOf(before) || c in ClassesOf(edges);
    }
  }

  /** After a local shutdown a stream reads as ended and, once both directions are shut, as hung up; for the rest the
      caller is told the native level, each bit unless its class awaits an acknowledgement. */
  lemma ShutdownShows(
    kind: Kind, events: Mask, disarmed: Classes, explicit: bool, shutdown: set<Direction>, level: Mask, b: Bit)
    requires kind.Socket? && kind.protocol.Tcp? && level <= SOCKET_BITS && (explicit ==> ClassesOf(level) !! disarmed)
    ensures var ended := ShutRead in shutdown && b in events * {IN, RDNORM, RDHUP};
            var hungUp := shutdown == {ShutRead, ShutWrite} && b == HUP;
            b in WithShutdown(kind, events, disarmed, explicit, shutdown, level) <==>
              (b in level || ended || hungUp) && b in events + TERMINAL_BITS && (explicit ==> ClassesOf({b}) !! disarmed)
  {
    if b in level {
      ClassesMonotone({b}, level);
    }
    FilterExactly(MergeShutdown(kind, events, shutdown, level), disarmed, b);
  }

  /** The level a waitable completion reports. */
  function WaitableLevel(mayConsume: bool, events: Mask, sample: WaitResult): Mask {
    if mayConsume then events * WAITABLE_BITS
    else match sample
         case Signaled => events * WAITABLE_BITS
         case TimedOut => {}
         case _ => TERMINAL_BITS
  }

  /** The combinations ADD accepts. */
  predicate Registrable(explicitRearm: bool, kind: Kind, u: User) {
    && !(explicitRearm && u.et && (!kind.Socket? || u.exclusive))
    && !(u.exclusive && (!kind.Socket? || u.oneshot))
    && !(kind.Waitable? && kind.semantics.EdgeUnsupported? && u.et && u.events * WAITABLE_BITS != {})
  }

  /** A wait on the object may take a notification from it: `ep_waitable_may_consume`. */
  predicate Consumes(kind: Kind) {
    kind.Waitable? && !kind.semantics.Persistent? && !kind.semantics.ObjectTerminal?
  }

  // The registration invariant, clause by clause.

  /** How the request, the threadpool wait and the packets in flight belong together. */
  predicate PollFits(kind: Kind, poll: Poll, owned: bool) {
    if kind.Socket? then
      poll.wait.Unarmed? && !poll.posted && !owned && poll.packets == (if poll.status.Idle? then 0 else 1)
    else
      && poll.packets == (if poll.posted then 1 else 0)
      && (owned ==> Consumes(kind))
      && (poll.status.Idle? ==> poll.wait.Unarmed? && !poll.posted)
      && (poll.status.Cancelled? ==> poll.wait.Unarmed? && poll.posted)
      && (poll.status.Pending? ==>
            if poll.wait.Armed? then !poll.posted && !owned else poll.posted && (Consumes(kind) ==> owned))
  }

  predicate UserFits(id: Ident, user: User) {
    && (user.exclusive ==> id.kind.Socket? && !user.oneshot && !(id.explicitPort && user.et))
    && (id.kind.Waitable? && id.kind.semantics.EdgeUnsupported? && user.et ==> user.events * WAITABLE_BITS == {})
  }

  /** The edge latch of an object that gives up notifications is open whenever none is on its way to the caller, so
      that the next one counts as an edge. */
  predicate LatchFits(kind: Kind, et: bool, queued: bool, observed: Mask) {
    Consumes(kind) ==> observed == {} || (queued && et && kind.semantics.Consumptive?)
  }

  /** Signals taken from the object are returned, owned, or held by the ready node: never two of these. */
  predicate Conserved(consumes: bool, tally: Tally, owned: bool, queued: bool) {
    consumes ==> !(owned && queued) && tally.signals == tally.returned + (if owned || queued then 1 else 0)
  }

  predicate ExplicitFits(explicit: bool, unacked: Classes, ready: Ready, fired: bool) {
    explicit ==>
      && unacked <= ready.disarmed
      && (ready.queued ==> ClassesOf(ready.pending) !! unacked && DeliveryClasses(ready.pending) <= ready.disarmed)
      && (fired ==> ready.disarmed != {})
  }

  predicate NodeFits(kind: Kind, queued: bool, pending: Mask) {
    queued ==>
      && pending != {}
      && (kind.Socket? ==> pending <= SOCKET_BITS)
      && (Consumes(kind) ==> !(pending <= TERMINAL_BITS))
  }

  ghost predicate LogFits(log: Log, user: User) {
    log.tally == Sum(log.history) && log.tally.sound && log.tally.data == user.data && log.tally.ctx == user.ctx
  }

  /** Readiness is reported on its edges. */
  predicate Edged(id: Ident, user: User) {
    id.kind.Socket? && user.et
  }

  /** The latch holds whatever the caller was told of and was not seen to fall. */
  predicate EdgeFits(edged: bool, tally: Tally, ready: Ready) {
    edged ==> tally.edges <= ready.observed && tally.node == (if ready.queued then ready.pending else {})
  }

  /** Unless a cancellation lost or failed, a registration that is fired or polled is not waiting to be rearmed. */
  predicate WorkFits(kind: Kind, status: Status, work: Work) {
    && (kind.Waitable? ==> !work.lost)
    && (work.orphaned ==> status.Idle?)
    && (!work.lost ==> !(work.rearm && (work.fired || status.Pending?)))
  }

  ghost predicate LiveOk(r: Reg) {
    && (r.ready.queued || r.work.fired ==> r.poll.status.Idle?)
    && (r.work.fired ==> r.user.oneshot)
    && UserFits(r.id, r.user)
    && LatchFits(r.id.kind, r.user.et, r.ready.queued, r.ready.observed)
    && Conserved(Consumes(r.id.kind), r.log.tally, r.ready.owned, r.ready.queued)
    && ExplicitFits(Explicit(r.id, r.user), r.log.tally.unacked, r.ready, r.work.fired)
    && NodeFits(r.id.kind, r.ready.queued, r.ready.pending)
    && EdgeFits(Edged(r.id, r.user), r.log.tally, r.ready)
    && LogFits(r.log, r.user)
  }

  ghost predicate Valid(r: Reg) {
    && PollFits(r.id.kind, r.poll, r.ready.owned)
    && (r.life.Attached? ==> LiveOk(r) && WorkFits(r.id.kind, r.poll.status, r.work))
    && (r.life.Freed? ==> r.poll.status.Idle?)
    && (r.life.Detached? ==> !r.poll.status.Idle?)
    && (r.poll.wait.Armed? ==> r.life.Attached?)
  }

  predicate Dormant(r: Reg) {
    r.id.kind.Waitable? && r.user.events * WAITABLE_BITS == {}
  }

  /** Nothing is to be watched: every native class awaits an acknowledgement, or a process or thread object has
      already reported its end to an edge-triggered registration as it is configured now. */
  predicate Silent(r: Reg) {
    || (Explicit(r.id, r.user) && AfdEvents(r) == {})
    || (r.id.kind.Waitable? && r.id.kind.semantics.ObjectTerminal? && r.user.et && r.log.tally.told)
  }

  /** No registration is forgotten: it is polled, its event is on the way to the caller, it is disabled until the
      caller asks for more, or the next wait rearms it. */
  predicate Alive(r: Reg) {
    r.poll.status.Pending? || r.ready.queued || r.work.fired || r.work.rearm || Dormant(r) || Silent(r)
  }

  function NonIdle(r: Reg): int {
    if r.poll.status.Idle? then 0 else 1
  }

  predicate Explicit(id: Ident, user: User) {
    id.explicitPort && id.kind.Socket? && user.et
  }

  function NodeOf(r: Reg): Node {
    Node(r.id.fd, r.generation, r.ready.pending, r.user.data, r.user.ctx, r.user.et, r.user.oneshot)
  }

  /** `ep_sock_afd_events_locked` */
  function AfdEvents(r: Reg): AfdMask {
    AfdEventsFor(r.id.kind, r.user.events, r.work.parked, if Explicit(r.id, r.user) then r.ready.disarmed else {})
  }

  datatype Option = None | Some(node: Node)

  /** What a critical section keeps unless it is there to change it: only MOD changes the configuration, only a
      local shutdown the directions, and only a drain returns events. */
  datatype Kept = Kept(user: User, shutdown: set<Direction>, returned: nat, roused: nat)

  function KeptOf(r: Reg): Kept {
    Kept(r.user, r.shutdown, r.log.tally.returned, r.log.tally.roused)
  }

  /** The state a critical section started from: `slack` is the pending count of the other registrations;
      `orphaned` and `doubled` say whether the section may leave the registration orphaned, or on both worklists. */
  datatype Base = Base(
    id: Ident, generation: nat, node: Option, nextGeneration: nat, slack: int, orphaned: bool, doubled: bool, kept: Kept)

  /** A registration together with what a critical section changes around it; `busy` while the section has taken
      something from the registration that it still has to put back. */
  datatype Local = Local(r: Reg, nextGeneration: nat, pendingCount: int, out: seq<Node>, busy: bool, base: Base)

  /** Identity and counters relative to the start: only one's own request is counted or uncounted. */
  predicate Owner(b: Base, id: Ident, generation: nat, status: Status, nextGeneration: nat, pendingCount: int) {
    && id == b.id
    && b.generation <= b.nextGeneration <= nextGeneration
    && (generation == b.generation || b.nextGeneration < generation <= nextGeneration)
    && pendingCount == b.slack + (if status.Idle? then 0 else 1)
  }

  /** What a critical section may have done to the ready queue and the generation: nothing; push the current
      node, under a fresh generation if it had one; or retire the node with the generation. */
  predicate NodeStep(b: Base, out: seq<Node>, queued: bool, attached: bool, node: Node) {
    || (out == [] && node.generation == b.generation && b.node == if queued then Some(node) else None)
    || (out == [node] && attached && queued && (b.node.Some? ==> node.generation != b.generation))
    || (out == [] && node.generation != b.generation && (!attached || !queued))
  }

  ghost predicate Ok(l: Local) {
    && Valid(l.r)
    && Owner(l.base, l.r.id, l.r.generation, l.r.poll.status, l.nextGeneration, l.pendingCount)
    && NodeStep(l.base, l.out, l.r.ready.queued, l.r.life.Attached?, NodeOf(l.r))
    && (l.r.life.Attached? ==> l.busy || l.r.work.orphaned || Alive(l.r))
    && (l.r.work.orphaned ==> l.base.orphaned)
    && KeptOf(l.r) == l.base.kept
    && (l.r.life.Attached? && Doubled(l.r) ==> l.base.doubled)
  }

  /** On the rearm list and on the list of fired one-shots. */
  predicate Doubled(r: Reg) {
    r.work.rearm && r.work.fired
  }

  ghost function Sample(): Local {
    var id := Ident(0, Waitable(Persistent), false);
    var r := Reg(id, User({}, false, false, false, 0, 0), Poll(Idle, {}, 0, Unarmed, false, 0),
                 Ready({}, {}, {}, false, false), Work(false, false, false, false, false, false), {}, 0, Freed,
                 Log([], Sum([])));
    Local(r, 0, 0, [], false, Base(id, 0, None, 0, 0, false, false, KeptOf(r)))
  }

  /** A point inside a critical section. */
  type Step = l: Local | Ok(l) ghost witness Sample()

  /** A registration between two critical sections. */
  ghost predicate RegFits(r: Reg, nextGeneration: nat) {
    && Valid(r) && !r.life.Freed? && r.generation <= nextGeneration
    && (r.life.Attached? ==> r.work.orphaned || Alive(r))
  }

  /** The start of a critical section on a registration, which `settles` a request that may have been given up. */
  function Enter(r: Reg, pendingCount: int, nextGeneration: nat, settles: bool): (l: Step)
    requires RegFits(r, nextGeneration)
    ensures l.r == r && l.out == [] && !l.busy
  {
    Local(r, nextGeneration, pendingCount, [], false,
          Base(r.id, r.generation, if r.ready.queued then Some(NodeOf(r)) else None, nextGeneration,
               pendingCount - NonIdle(r), settles || r.work.orphaned, settles || Doubled(r), KeptOf(r)))
  }

  /** Nothing of the registration is outstanding or on its way to the caller. */
  predicate Rests(r: Reg) {
    r.life.Attached? && r.poll.status.Idle? && !r.ready.queued
  }

  // -------------------------------------------------------------- small steps

  /** Ask the next wait to rearm. */
  function SetRearm(l: Step): Step
    requires l.r.life.Attached? ==> !l.r.work.fired && (l.r.work.lost || !l.r.poll.status.Pending?)
  {
    l.(r := l.r.(work := l.r.work.(rearm := true, orphaned := false)), busy := false)
  }

  /** Nothing is to be rearmed. */
  function ClearRearm(l: Step): Step
    requires l.r.life.Attached? ==> l.r.poll.status.Pending? || l.r.work.fired || Dormant(l.r) || Silent(l.r)
  {
    l.(r := l.r.(work := l.r.work.(rearm := false)), busy := false)
  }

  /** The section holds a snapshot of the registration and will deliver it, or rearm. */
  function TakeSnapshot(l: Step): Step {
    l.(r := l.r.(work := l.r.work.(rearm := false)), busy := true)
  }

  /** The request came back cancelled, and nothing will bring it back. */
  function Orphan(l: Step): Step
    requires l.r.poll.status.Idle? && l.base.orphaned
  {
    l.(r := l.r.(work := l.r.work.(orphaned := true)), busy := false)
  }

  function Rest(l: Step): Step
    requires l.r.life.Attached? ==> l.r.work.orphaned || Alive(l.r)
  {
    l.(busy := false)
  }

  function SetHoldoff(l: Step, b: bool): Step {
    l.(r := l.r.(work := l.r.work.(holdoff := b)))
  }

  function SetParked(l: Step, b: bool): Step
    requires l.busy
  {
    l.(r := l.r.(work := l.r.work.(parked := b)))
  }

  function SetObserved(l: Step, observed: Mask): Step
    requires l.r.life.Attached? && Consumes(l.r.id.kind) ==> observed == {}
    requires l.r.life.Attached? && Edged(l.r.id, l.r.user) ==> l.r.log.tally.edges <= observed
  {
    l.(r := l.r.(ready := l.r.ready.(observed := observed)))
  }

  function SetMask(l: Step, mask: AfdMask, epoch: nat): Step {
    l.(r := l.r.(poll := l.r.poll.(afd := mask, epoch := epoch)))
  }

  /** `ep_sock_drop_closed_locked` */
  function Drop(l: Step): Step
    requires l.out == [] && !l.r.ready.queued && !l.r.poll.wait.Armed?
  {
    var life := if l.r.poll.status.Idle? then Freed else Detached;
    l.(r := l.r.(generation := l.nextGeneration + 1, life := life, work := l.r.work.(rearm := false, fired := false)),
       nextGeneration := l.nextGeneration + 1)
  }

  predicate Quiet(l: Local) {
    l.r.life.Attached? && l.r.poll.status.Idle? && !l.r.ready.queued && !l.r.work.fired && l.out == []
  }

  /** A request or a packet becomes outstanding. */
  function Start(l: Step, armed: bool): Step
    requires Quiet(l)
    requires armed ==> l.r.id.kind.Waitable? && !l.r.ready.owned
    requires !armed && Consumes(l.r.id.kind) ==> l.r.ready.owned
  {
    var poll := if armed then l.r.poll.(status := Pending, wait := Armed)
                else l.r.poll.(status := Pending, posted := l.r.id.kind.Waitable?, packets := 1);
    l.(r := l.r.(poll := poll, work := l.r.work.(rearm := false, orphaned := false)),
       pendingCount := l.pendingCount + 1, busy := false)
  }

  /** `ep_sock_complete_pending_locked`, with the packet consumed and a waitable disarmed. */
  function Settle(l: Step): Step
    requires l.r.poll.packets == 1 && l.r.life.Attached?
  {
    l.(r := l.r.(poll := l.r.poll.(status := Idle, wait := Unarmed, posted := false, packets := 0)),
       pendingCount := l.pendingCount - 1, busy := true)
  }

  /** `ep_sock_cancel_locked`: the new state, and whether the call succeeded. */
  function CancelPoll(l: Step, answer: Cancel): (Step, bool)
    requires l.r.life.Attached? && l.out == []
  {
    var poll := l.r.poll;
    var quiet := l.r.ready.(pending := {});
    if !poll.status.Pending? then (l, true)
    else if l.r.id.kind.Waitable? then
      if poll.posted then
        (l.(r := l.r.(ready := quiet, poll := poll.(wait := Unarmed, status := Cancelled)), busy := true), true)
      else
        (l.(r := l.r.(ready := quiet, poll := poll.(wait := Unarmed, status := Idle)),
            pendingCount := l.pendingCount - 1, busy := true), true)
    else
      match answer
      case Won => (l.(r := l.r.(ready := quiet, poll := poll.(status := Cancelled)), busy := true), true)
      case Lost => (l.(r := l.r.(ready := quiet, work := l.r.work.(lost := true))), true)
      case CancelFailed => (l.(r := l.r.(work := l.r.work.(lost := true))), false)
  }

  function Append(log: Log, e: Event): (log': Log)
    ensures log.tally == Sum(log.history) ==> log'.tally == Sum(log'.history)
  {
    SumAppend(log.history, e);
    Log(log.history + [e], Apply(log.tally, e))
  }

  lemma SignalFits(log: Log, user: User)
    requires LogFits(log, user)
    ensures LogFits(Append(log, Signal), user)
  {
  }

  /** The object's notification was taken by a wait: it is owned from here on. */
  function Own(l: Step): Step
    requires Quiet(l) && Consumes(l.r.id.kind) && !l.r.ready.owned
  {
    SignalFits(l.r.log, l.r.user);
    l.(r := l.r.(ready := l.r.ready.(owned := true), log := Append(l.r.log, Signal)))
  }

  /** The history of a registration after it was found at this level, with these bits queued for the caller. */
  function FoundLog(r: Reg, level: Mask, news: Mask): Log {
    if Edged(r.id, r.user) then Append(r.log, Found(level, news)) else r.log
  }

  /** Likewise after a local shutdown. */
  function ToldLog(r: Reg, level: Mask, news: Mask, node: Mask): Log {
    if Edged(r.id, r.user) then Append(r.log, Told(level, news, node)) else r.log
  }

  /** The bits of the queued node. */
  function Queued(r: Reg): Mask {
    if r.ready.queued then r.ready.pending else {}
  }

  /** A log that differs from the one before in what it says of edges only. */
  predicate Likewise(log: Log, log': Log, edges: Mask, node: Mask) {
    log'.tally == log.tally.(edges := edges, node := node)
  }

  lemma FoundFits(r: Reg, level: Mask, news: Mask)
    requires LogFits(r.log, r.user) && EdgeFits(Edged(r.id, r.user), r.log.tally, r.ready)
    requires Edged(r.id, r.user) ==> !r.ready.queued && news <= level - r.ready.observed
    ensures LogFits(FoundLog(r, level, news), r.user)
    ensures Edged(r.id, r.user) ==> Likewise(r.log, FoundLog(r, level, news), r.log.tally.edges * level + news, news)
  {
  }

  lemma ToldFits(r: Reg, level: Mask, news: Mask, node: Mask)
    requires LogFits(r.log, r.user) && EdgeFits(Edged(r.id, r.user), r.log.tally, r.ready)
    requires Edged(r.id, r.user) ==> news <= level - r.ready.observed && node <= Queued(r) + news
    ensures LogFits(ToldLog(r, level, news, node), r.user)
    ensures Edged(r.id, r.user) ==> Likewise(r.log, ToldLog(r, level, news, node), r.log.tally.edges * level + news, node)
  {
  }

  /** The history takes note of a level, or of a pending poll; nothing is queued by it. */
  function Note(l: Step, log: Log): Step
    requires LogFits(log, l.r.user)
    requires l.r.life.Attached? && Edged(l.r.id, l.r.user) ==> log.tally.edges <= l.r.ready.observed
    requires Likewise(l.r.log, log, log.tally.edges, l.r.log.tally.node)
  {
    l.(r := l.r.(log := log))
  }

  /** A ready node takes the current snapshot: the last lines of every delivery.  A queued one is replaced under a
      fresh generation. */
  function Publish(l: Step, granted: Mask, latch: Mask, rearm: bool, log: Log): Step
    requires l.r.life.Attached? && l.r.poll.status.Idle? && l.out == [] && granted != {}
    requires if l.r.ready.queued then l.r.id.kind.Socket? else !l.r.work.fired
    requires l.r.user.oneshot && rearm ==> l.r.work.lost && l.base.doubled
    requires l.r.id.kind.Socket? ==> granted <= SOCKET_BITS
    requires Explicit(l.r.id, l.r.user) ==> ClassesOf(granted) !! l.r.log.tally.unacked
    requires Consumes(l.r.id.kind) ==> l.r.ready.owned && !(granted <= TERMINAL_BITS)
    requires LatchFits(l.r.id.kind, l.r.user.et, true, latch)
    requires LogFits(log, l.r.user) && Likewise(l.r.log, log, log.tally.edges, log.tally.node)
    requires Edged(l.r.id, l.r.user) ==> log.tally.edges <= latch && log.tally.node == granted
  {
    var disarmed :=
      if Explicit(l.r.id, l.r.user) then l.r.ready.disarmed + DeliveryClasses(granted) else l.r.ready.disarmed;
    assert Explicit(l.r.id, l.r.user) ==> disarmed != {} by {
      if Explicit(l.r.id, l.r.user) { ReportsSomeClass(granted); }
    }
    var next := if l.r.ready.queued then l.nextGeneration + 1 else l.nextGeneration;
    var r := l.r.(ready := Ready(granted, latch, disarmed, true, false),
                  work := l.r.work.(rearm := rearm, holdoff := false, fired := l.r.user.oneshot, orphaned := false),
                  generation := if l.r.ready.queued then next else l.r.generation,
                  log := log);
    assert Valid(r);
    l.(r := r, nextGeneration := next, out := [NodeOf(r)], busy := false)
  }

  // ----------------------------------------------------------- local shutdown

  /** The bits a local shutdown would report now, those already queued included, and the new latch. */
  function ShutdownNews(r: Reg, current: Mask): (Mask, Mask) {
    var (edges, latch) := Latch(r.user, r.ready.observed, ShutLevel(r, current));
    ((if r.ready.queued then r.ready.pending else {}) + edges, latch)
  }

  /** The level of a registration whose local shutdown is to be reported. */
  function ShutLevel(r: Reg, current: Mask): Mask {
    ShutdownLevel(r.id.kind, r.user.events, r.ready.disarmed, Explicit(r.id, r.user), r.shutdown, current)
  }

  /** The news of a local shutdown name no class the caller still has to acknowledge. */
  lemma ShutdownNewsFit(r: Reg, current: Mask)
    requires Valid(r) && r.life.Attached? && r.id.kind.Socket?
    ensures ShutdownNews(r, current).0 <= SOCKET_BITS
    ensures Explicit(r.id, r.user) ==> ClassesOf(ShutdownNews(r, current).0) !! r.log.tally.unacked
  {
    if Explicit(r.id, r.user) {
      var level := ShutLevel(r, current);
      var edges := Latch(r.user, r.ready.observed, level).0;
      var before := if r.ready.queued then r.ready.pending else {};
      ClassesMonotone(edges, level);
      NewsIsUnreported(r.log.tally.unacked, r.ready.disarmed, before, edges, before + edges);
    }
  }

  /** There is something to add to what the caller has seen, or to the node it is about to see. */
  predicate HasShutdownNews(r: Reg, current: Mask) {
    var news := ShutdownNews(r, current).0;
    (r.ready.queued || !r.work.fired) && news != {} && !(r.ready.queued && news == r.ready.pending)
  }

  function Allowed(user: User, claim: Claim, delivered: Mask): (granted: Mask)
    ensures granted <= delivered && ClassesOf(granted) <= ClassesOf(delivered)
    ensures !user.exclusive ==> granted == delivered
  {
    var granted := if !user.exclusive then delivered else if claim.Granted? then delivered * claim.keep else {};
    ClassesMonotone(granted, delivered);
    granted
  }

  /** The part of a local shutdown's news that the registration may report. */
  function NewsGranted(r: Reg, a: Answer): Mask {
    Allowed(r.user, a.claim, ShutdownNews(r, a.level).0)
  }

  /** The latch after a local shutdown that was not announced: it follows an edge-triggered level, and a denied claim
      does not keep it. */
  function Retold(r: Reg, a: Answer): Mask {
    if r.user.et || HasShutdownNews(r, a.level) then ShutdownNews(r, a.level).1 else r.ready.observed
  }

  /** The node carries the granted news, the latch follows the level, and the history says so. */
  predicate Publishes(r: Reg, a: Answer, r': Reg) {
    && r'.ready.queued && r'.ready.pending == NewsGranted(r, a) && r'.ready.observed == ShutdownNews(r, a.level).1
    && !r'.work.holdoff
    && r'.log == ToldLog(r, ShutLevel(r, a.level), NewsGranted(r, a) - Queued(r), NewsGranted(r, a))
  }

  /** Claim and announce the bits of a local shutdown. */
  method Offer(l: Step, a: Answer) returns (l': Step, r: Publication)
    requires l.r.life.Attached? && l.r.id.kind.Socket? && l.r.poll.status.Idle? && l.out == [] && !l.busy
    requires l.r.ready.queued || !l.r.work.fired
    requires ShutdownNews(l.r, a.level).0 != {}
    ensures Offered(l, l', r) && !r.NoMemory? && Sampled(l.r.log, l'.r.log)
    ensures r.Published? <==> NewsGranted(l.r, a) != {}
    ensures r.Unchanged? ==> l'.r.work.rearm && l'.r.work.holdoff
    ensures r.Published? ==> Publishes(l.r, a, l'.r)
    ensures l'.r.ready.observed == ShutdownNews(l.r, a.level).1
  {
    var (delivered, latch) := ShutdownNews(l.r, a.level);
    var granted := Allowed(l.r.user, a.claim, delivered);
    if granted == {} {
      l' := Retell(l, a.level);
      l', r := SetRearm(SetHoldoff(l', true)), Unchanged;
    } else {
      l' := Announce(l, a.level, granted);
      r := Published;
    }
  }

  /** The latch follows the level of a local shutdown that is not announced. */
  method Retell(l: Step, current: Mask) returns (l': Step)
    requires l.r.life.Attached? && l.r.id.kind.Socket?
    ensures l' == l.(r := l.r.(ready := l.r.ready.(observed := ShutdownNews(l.r, current).1), log := l'.r.log))
    ensures l'.r.log == ToldLog(l.r, ShutLevel(l.r, current), {}, Queued(l.r))
  {
    var level := ShutLevel(l.r, current);
    ToldFits(l.r, level, {}, Queued(l.r));
    l' := SetObserved(Note(l, ToldLog(l.r, level, {}, Queued(l.r))), ShutdownNews(l.r, current).1);
  }

  /** The end of a local-shutdown delivery: replace a queued node under a fresh generation, or queue the first. */
  method Announce(l: Step, current: Mask, granted: Mask) returns (l': Step)
    requires l.r.life.Attached? && l.r.id.kind.Socket? && l.r.poll.status.Idle? && l.out == [] && !l.busy
    requires l.r.ready.queued || !l.r.work.fired
    requires granted != {} && granted <= ShutdownNews(l.r, current).0
    ensures Offered(l, l', Published) && l'.r.ready.pending == granted && !l'.r.work.holdoff
    ensures l'.r.ready.observed == ShutdownNews(l.r, current).1
    ensures l'.r.log == ToldLog(l.r, ShutLevel(l.r, current), granted - Queued(l.r), granted)
  {
    var level := ShutLevel(l.r, current);
    ShutdownNewsFit(l.r, current);
    ClassesMonotone(granted, ShutdownNews(l.r, current).0);
    ToldFits(l.r, level, granted - Queued(l.r), granted);
    l' := Publish(l, granted, ShutdownNews(l.r, current).1, false, ToldLog(l.r, level, granted - Queued(l.r), granted));
  }

  /** What publication does: queue the current node and settle the rearm request, or at most move the latch. */
  predicate Offered(l: Local, l': Local, r: Publication) {
    if r.Published? then
      && l'.base == l.base && !l'.busy
      && l'.r == l.r.(ready := l'.r.ready, work := l'.r.work, generation := l'.r.generation, log := l'.r.log)
      && l'.out == [NodeOf(l'.r)] && l'.r.ready.queued && !l'.r.work.rearm && !l'.r.work.orphaned
      && l'.r.work.fired == l.r.user.oneshot
    else OnlyLatch(l, l')
  }

  /** A local shutdown was looked at, and the history says at what level; nothing was returned. */
  predicate Sampled(log: Log, log': Log) {
    && log.history <= log'.history && (forall k :: |log.history| <= k < |log'.history| ==> log'.history[k].Told?)
    && log'.tally.returned == log.tally.returned && log'.tally.roused == log.tally.roused
  }

  /** `ep_sock_queue_local_shutdown_locked` */
  method QueueShutdown(l: Step, reserved: bool, a: Answer) returns (l': Step, r: Publication)
    requires l.r.life.Attached? && l.r.id.kind.Socket? && l.r.poll.status.Idle? && l.out == [] && !l.busy
    ensures Offered(l, l', r) && Sampled(l.r.log, l'.r.log)
    ensures r.NoMemory? <==> !reserved && !a.node && HasShutdownNews(l.r, a.level)
    ensures r.NoMemory? ==> l' == l
    ensures r.Published? <==> (reserved || a.node) && HasShutdownNews(l.r, a.level) && NewsGranted(l.r, a) != {}
    ensures r.Published? ==> Publishes(l.r, a, l'.r)
    ensures r.Unchanged? && (l.r.ready.queued || !l.r.work.fired) ==> l'.r.ready.observed == Retold(l.r, a)
    ensures r.Unchanged? && !l.r.ready.queued && l.r.work.fired ==> l' == l
    ensures r.Unchanged? && HasShutdownNews(l.r, a.level) ==> l'.r.work.rearm && l'.r.work.holdoff
    ensures r.Unchanged? && !HasShutdownNews(l.r, a.level) ==> l'.r.work == l.r.work
  {
    if l.r.ready.queued || !l.r.work.fired {
      l', r := OfferNews(l, reserved, a);
    } else {
      l', r := l, Unchanged;
    }
  }

  /** The part of it for a registration that may report something. */
  method OfferNews(l: Step, reserved: bool, a: Answer) returns (l': Step, r: Publication)
    requires l.r.life.Attached? && l.r.id.kind.Socket? && l.r.poll.status.Idle? && l.out == [] && !l.busy
    requires l.r.ready.queued || !l.r.work.fired
    ensures Offered(l, l', r) && Sampled(l.r.log, l'.r.log)
    ensures r.NoMemory? <==> !reserved && !a.node && HasShutdownNews(l.r, a.level)
    ensures r.NoMemory? ==> l' == l
    ensures r.Published? <==> (reserved || a.node) && HasShutdownNews(l.r, a.level) && NewsGranted(l.r, a) != {}
    ensures r.Published? ==> Publishes(l.r, a, l'.r)
    ensures r.Unchanged? ==> l'.r.ready.observed == Retold(l.r, a)
    ensures r.Unchanged? && HasShutdownNews(l.r, a.level) ==> l'.r.work.rearm && l'.r.work.holdoff
    ensures r.Unchanged? && !HasShutdownNews(l.r, a.level) ==> l'.r.work == l.r.work
  {
    l', r := l, Unchanged;
    if !HasShutdownNews(l.r, a.level) {
      if l.r.user.et {
        l' := Retell(l, a.level);
      }
    } else if !reserved && !a.node {
      r := NoMemory;
    } else {
      l', r := Offer(l, a);
    }
  }

  /** All that a submission may have changed when it did not submit, publish or drop. */
  predicate OnlyLatch(l: Local, l': Local) {
    && l' == l.(r := l'.r)
    && l'.r == l.r.(ready := l'.r.ready, work := l'.r.work, log := l'.r.log)
    && l'.r.ready == l.r.ready.(observed := l'.r.ready.observed)
    && l'.r.work == l.r.work.(rearm := l'.r.work.rearm, holdoff := l'.r.work.holdoff, orphaned := l'.r.work.orphaned)
    && (l'.r.work.orphaned ==> l.r.work.orphaned)
  }

  // ------------------------------------------------------------------- submit

  /** A poll goes pending: the latch opens. */
  function Reopened(l: Step): Step
    requires Quiet(l) && Edged(l.r.id, l.r.user)
  {
    SetObserved(Note(l, Append(l.r.log, Watched)), {})
  }

  /** The kernel took the request: it is pending, or its snapshot is complete. */
  method Submitted(env: Env, l: Step, mask: AfdMask, pending: bool, immediate: bool) returns (l': Step, now: bool)
    requires Quiet(l) && l.r.id.kind.Socket? && !l.busy && mask == AfdEvents(l.r)
    ensures Submission(env, l, l', Done, now) && l'.out == []
    ensures now <==> immediate && !pending
    ensures now ==> l'.r.ready.observed == l.r.ready.observed
    ensures pending || env.epoch != 0 ==> now || Polled(env, l.r, l'.r)
    ensures l.r.user.et ==> l'.r.ready.observed == if pending then {} else l.r.ready.observed
    ensures l'.r.log == if l.r.user.et && pending then Append(l.r.log, Watched) else l.r.log
  {
    l', now := SetMask(l, mask, env.epoch), false;
    if pending {
      if l.r.user.et {
        l' := Reopened(l');
      }
      l' := Start(l', false);
    } else if immediate {
      l', now := TakeSnapshot(l'), true;
    } else if env.epoch != 0 {
      l' := Start(l', false);
    }
  }

  /** The AFD half of `ep_sock_submit_locked`: submit the current mask; `immediate` asks for a synchronous
      result instead of a packet. */
  method SubmitAfd(env: Env, l: Step, a: Answer, immediate: bool) returns (l': Step, result: Outcome, now: bool)
    requires Quiet(l) && l.r.id.kind.Socket? && !l.busy
    ensures Submission(env, l, l', result, now) && l'.out == []
    ensures result.Failed? ==> l' == l
    ensures now <==> immediate && AfdEvents(l.r) != {} && a.group && a.afd.AfdImmediate?
    ensures now ==> l'.r.ready.observed == l.r.ready.observed
    ensures result.Gone? <==> AfdEvents(l.r) != {} && a.group && a.afd.AfdClosed?
    ensures Accepted(env, l.r, a) ==> now || Polled(env, l.r, l'.r)
    ensures Edged(l.r.id, l.r.user) && l'.r.poll.status.Pending? ==>
              l'.r.ready.observed == if a.afd.AfdPending? then {} else l.r.ready.observed
    ensures l'.r.log == if l.r.user.et && AfdEvents(l.r) != {} && a.group && a.afd.AfdPending?
                        then Append(l.r.log, Watched) else l.r.log
  {
    var mask := AfdEvents(l.r);
    now := false;
    if mask == {} {
      l', result := ClearRearm(l), Done;
    } else if !a.group || a.afd.AfdFailed? {
      l', result := l, Failed;
    } else if a.afd.AfdClosed? {
      l', result := Drop(l), Gone;
    } else {
      l', now := Submitted(env, l, mask, a.afd.AfdPending?, immediate);
      result := Done;
    }
  }

  /** `ep_sock_submit_locked` for a locally shut down socket: report the shutdown, or else poll. */
  method SubmitShut(env: Env, l: Step, a: Answer, immediate: bool) returns (l': Step, result: Outcome, now: bool)
    requires Quiet(l) && l.r.id.kind.Socket? && !l.busy && l.r.shutdown != {}
    ensures Submission(env, l, l', result, now)
    ensures now <==> immediate && Answers(l.r, a)
    ensures now ==> l'.r.ready.observed == Relatched(l.r, a)
    ensures Opens(l.r, a, l'.r)
    ensures Accepted(env, l.r, a) ==> now || l'.out != [] || Polled(env, l.r, l'.r)
    ensures if Announces(l.r, a) then result.Done? && l'.out != [] && Announced(l.r, a, l'.r) else l'.out == []
  {
    var r;
    l', r := QueueShutdown(l, false, a);
    if r.Unchanged? {
      l', result, now := SubmitAfd(env, l', a, immediate);
    } else {
      result, now := if r.Published? then Done else Failed, false;
    }
  }

  /** `ep_sock_submit_locked` for a socket that is to be armed, and so is not held off. */
  method SubmitArmed(env: Env, l: Step, a: Answer, immediate: bool) returns (l': Step, result: Outcome, now: bool)
    requires Quiet(l) && l.r.id.kind.Socket? && !l.busy && !l.r.work.holdoff
    ensures Submission(env, l, l', result, now)
    ensures now <==> immediate && Answers(l.r, a)
    ensures now ==> l'.r.ready.observed == Relatched(l.r, a)
    ensures Opens(l.r, a, l'.r)
    ensures Accepted(env, l.r, a) ==> now || l'.out != [] || Polled(env, l.r, l'.r)
    ensures if Announces(l.r, a) then result.Done? && l'.out != [] && Announced(l.r, a, l'.r) else l'.out == []
  {
    if l.r.shutdown != {} {
      l', result, now := SubmitShut(env, l, a, immediate);
    } else {
      l', result, now := SubmitAfd(env, l, a, immediate);
    }
  }

  /** Nothing was delivered: no class is disarmed, no one-shot fires. */
  predicate Undelivered(r: Reg, r': Reg) {
    && r'.ready.disarmed == r.ready.disarmed && r'.work.parked == r.work.parked && (r'.work.fired ==> r.work.fired)
    && (r'.life.Attached? ==> r'.work.fired == r.work.fired)
  }

  /** The registration leaves both worklists, and its generation is retired. */
  predicate Retiring(r: Reg, r': Reg) {
    !r'.work.rearm && !r'.work.fired && r'.generation > r.generation
  }

  /** What every submission keeps to. */
  predicate Submission(env: Env, l: Local, l': Local, result: Outcome, now: bool) {
    && l'.base == l.base && l'.r.user == l.r.user && l'.r.shutdown == l.r.shutdown && (l'.busy <==> now)
    && (l'.out == l.out || (l'.r.ready.queued && l.out == []))
    && (l'.r.work.orphaned ==> l.r.work.orphaned)
    && (l'.out == l.out ==> Undelivered(l.r, l'.r))
    && (result.Failed? ==> OnlyLatch(l, l'))
    && (result.Gone? <==> l.r.life.Attached? && !l'.r.life.Attached?)
    && (result.Gone? ==> Retiring(l.r, l'.r))
    && (now ==> result.Done? && Fresh(env, l, l'))
  }

  /** A submission of this registration reports its local shutdown instead. */
  predicate Announces(r: Reg, a: Answer) {
    r.shutdown != {} && a.node && HasShutdownNews(r, a.level) && NewsGranted(r, a) != {}
  }

  /** What a local shutdown would report depends on neither the request nor the rearm list. */
  lemma SameNews(r: Reg, r': Reg, a: Answer)
    requires r'.id == r.id && r'.user == r.user && r'.ready == r.ready && r'.shutdown == r.shutdown && r'.log == r.log
    requires r'.work.fired == r.work.fired && r'.work.parked == r.work.parked
    ensures ShutdownNews(r', a.level) == ShutdownNews(r, a.level) && NewsGranted(r', a) == NewsGranted(r, a)
    ensures Announces(r', a) == Announces(r, a) && Answers(r', a) == Answers(r, a)
    ensures Relatched(r', a) == Relatched(r, a) && AfdEvents(r') == AfdEvents(r)
    ensures ToldLog(r', ShutLevel(r', a.level), NewsGranted(r', a) - Queued(r'), NewsGranted(r', a)) ==
              ToldLog(r, ShutLevel(r, a.level), NewsGranted(r, a) - Queued(r), NewsGranted(r, a))
  {
  }

  /** A submission of this registration is answered at once: the kernel has a snapshot, and no local shutdown is
      announced instead, or fails to be for want of memory. */
  predicate Answers(r: Reg, a: Answer) {
    && AfdEvents(r) != {} && a.group && a.afd.AfdImmediate?
    && (r.shutdown != {} && HasShutdownNews(r, a.level) ==> a.node && NewsGranted(r, a) == {})
  }

  /** The latch that an immediate answer is held against. */
  function Relatched(r: Reg, a: Answer): Mask {
    if r.shutdown == {} then r.ready.observed else Retold(r, a)
  }

  /** A poll that goes pending opens the edge latch, so that the next report is an edge; one that is answered at once
      keeps it, so that an unread level is not reported again. */
  predicate Opens(r: Reg, a: Answer, r': Reg) {
    Edged(r.id, r.user) && r.poll.status.Idle? && r'.poll.status.Pending? ==>
      r'.ready.observed == if a.afd.AfdPending? then {} else Relatched(r, a)
  }

  /** The node is the announcement of a local shutdown: nothing was submitted, and no rearm is asked for. */
  predicate Announced(r: Reg, a: Answer, r': Reg) {
    && r'.life.Attached? && Publishes(r, a, r')
    && r'.poll.status.Idle? && SameRequest(r, r')
    && !r'.work.rearm && r'.work.fired == r.user.oneshot
  }

  /** The mask and the wait of the last request. */
  predicate SameRequest(r: Reg, r': Reg) {
    r'.poll.afd == r.poll.afd && r'.poll.epoch == r.poll.epoch
  }

  /** The kernel takes a poll of this registration, and there is memory to report a local shutdown. */
  predicate Accepted(env: Env, r: Reg, a: Answer) {
    if r.id.kind.Socket? then
      && AfdEvents(r) != {} && a.group && (r.shutdown == {} || a.node)
      && (a.afd.AfdPending? || (a.afd.AfdImmediate? && env.epoch != 0))
    else r.ready.owned || a.wait.Signaled? || (a.wait.TimedOut? && a.registered)
  }

  /** A poll of the current interest is outstanding, submitted in the current wait. */
  predicate Polled(env: Env, r: Reg, r': Reg) {
    && r'.life.Attached? && r'.poll.status.Pending? && !r'.work.rearm
    && (r.id.kind.Socket? ==> r'.poll.afd == AfdEvents(r) && r'.poll.epoch == env.epoch)
  }

  /** The socket half of `ep_sock_submit_locked`, from the one-shot test on. */
  method SubmitSocket(env: Env, l: Step, a: Answer, immediate: bool) returns (l': Step, result: Outcome, now: bool)
    requires l.r.life.Attached? && l.r.poll.status.Idle? && !l.r.ready.queued && l.out == [] && !l.busy
    requires l.r.id.kind.Socket? && !l.r.work.holdoff
    ensures Submission(env, l, l', result, now)
    ensures now <==> immediate && !l.r.work.fired && l.r.work.rearm && Answers(l.r, a)
    ensures now ==> l'.r.ready.observed == Relatched(l.r, a)
    ensures Opens(l.r, a, l'.r)
    ensures !l.r.work.fired && !l.r.work.rearm ==> l' == l && result.Done?
    ensures l.r.work.fired ==> (result.Gone? <==> a.probe.ProbeClosed?) && (result.Gone? || l' == l)
    ensures l.r.work.fired ==> (result.Failed? <==> a.probe.ProbeError?)
    ensures if !l.r.work.fired && l.r.work.rearm && Announces(l.r, a)
            then result.Done? && l'.out != [] && Announced(l.r, a, l'.r) else l'.out == []
    ensures !l.r.work.fired && l.r.work.rearm && Accepted(env, l.r, a) ==> now || l'.out != [] || Polled(env, l.r, l'.r)
  {
    l', result, now := l, Done, false;
    if l.r.work.fired {
      if a.probe.ProbeClosed? {
        l', result := Drop(l), Gone;
      } else if a.probe.ProbeError? {
        result := Failed;
      }
    } else if l.r.work.rearm {
      l', result, now := SubmitArmed(env, l, a, immediate);
    }
  }

  /** The request behind the snapshot belongs to another wait or does not cover the current interest. */
  predicate NeedsRefresh(env: Env, r: Reg) {
    (env.epoch != 0 && r.poll.epoch != env.epoch) || !(AfdEvents(r) <= r.poll.afd)
  }

  /** After an immediate submission: a snapshot of this wait, for the current interest, with nothing else done. */
  predicate Fresh(env: Env, l: Local, l': Local) {
    && Quiet(l') && l'.busy && !l'.r.work.rearm && l'.r.shutdown == l.r.shutdown && l'.r.user == l.r.user
    && l'.r.poll.epoch == env.epoch && l'.r.poll.afd == AfdEvents(l'.r) == AfdEvents(l.r)
  }

  /** The object cannot be asked, or the wait on it cannot be armed. */
  predicate Refuses(a: Answer) {
    a.wait.WaitFailed? || (a.wait.TimedOut? && !a.registered)
  }

  /** The waitable half of `ep_sock_submit_locked`, from the one-shot test on; the registration is not held off. */
  method SubmitWaitable(env: Env, l: Step, a: Answer) returns (l': Step, result: Outcome)
    requires l.r.life.Attached? && l.r.poll.status.Idle? && !l.r.ready.queued && l.out == [] && !l.busy
    requires l.r.id.kind.Waitable? && !l.r.work.holdoff
    ensures Submission(env, l, l', result, false) && l'.out == []
    ensures !l.r.work.fired && l.r.work.rearm && Accepted(env, l.r, a) ==> Polled(env, l.r, l'.r)
    ensures result.Gone? <==> !l.r.work.fired && l.r.work.rearm && !l.r.ready.owned && a.wait.WaitInvalid?
    ensures result.Failed? <==> !l.r.work.fired && l.r.work.rearm && !l.r.ready.owned && Refuses(a)
    ensures l'.r.poll.wait.Armed? && l.r.user.et ==> l'.r.ready.observed == {}
    ensures l.r.work.fired || !l.r.work.rearm ==> l' == l && result.Done?
  {
    l', result := l, Done;
    if !l.r.work.fired && l.r.work.rearm {
      if l.r.ready.owned {
        l' := Start(l', false);
      } else {
        match a.wait {
          case WaitFailed =>
            result := Failed;
          case WaitInvalid =>
            l', result := Drop(l'), Gone;
          case Signaled =>
            l' := Start(if Consumes(l.r.id.kind) then Own(l') else l', false);
          case TimedOut =>
            l' := if l.r.user.et then SetObserved(l', {}) else l';
            if a.registered {
              l' := Start(l', true);
            } else {
              result := Failed;
            }
        }
      }
    }
  }

  /** A registration a submission is meant for. */
  predicate Wants(env: Env, r: Reg) {
    && r.life.Attached? && r.poll.status.Idle? && !r.ready.queued && !r.work.fired && !env.closing
    && !Dormant(r) && r.work.rearm && !r.work.holdoff
  }

  /** A socket that a submission gets to. */
  predicate Probeable(env: Env, r: Reg) {
    && !env.closing && r.life.Attached? && r.id.kind.Socket? && r.poll.status.Idle? && !r.ready.queued
    && !r.work.holdoff
  }

  /** The probe of a fired one-shot finds its handle closed. */
  predicate Retires(env: Env, r: Reg, a: Answer) {
    Probeable(env, r) && r.work.fired && a.probe.ProbeClosed?
  }

  /** The part of `ep_sock_submit_locked` for a waitable handle without interest: its wait is disarmed. */
  method SubmitDormant(env: Env, l: Step) returns (l': Step)
    requires l.r.life.Attached? && !l.r.ready.queued && l.out == [] && !l.busy && Dormant(l.r)
    ensures Submission(env, l, l', Done, false) && l'.out == [] && !l'.r.poll.status.Pending?
    ensures !l'.r.work.rearm && !l'.r.work.holdoff
  {
    l' := SetHoldoff(ClearRearm(CancelPoll(l, Won).0), false);
  }

  /** The part of `ep_sock_submit_locked` from the one-shot test on. */
  method SubmitIdle(env: Env, l: Step, a: Answer, immediate: bool) returns (l': Step, result: Outcome, now: bool)
    requires l.r.life.Attached? && l.r.poll.status.Idle? && !l.r.ready.queued && l.out == [] && !l.busy
    requires !env.closing && !Dormant(l.r) && !l.r.work.holdoff
    ensures Submission(env, l, l', result, now)
    ensures now <==> immediate && l.r.id.kind.Socket? && Wants(env, l.r) && Answers(l.r, a)
    ensures now ==> l'.r.ready.observed == Relatched(l.r, a)
    ensures Opens(l.r, a, l'.r)
    ensures if Wants(env, l.r) && l.r.id.kind.Socket? && Announces(l.r, a)
            then result.Done? && l'.out != [] && Announced(l.r, a, l'.r) else l'.out == []
    ensures l.r.work.fired ==> (result.Gone? <==> Retires(env, l.r, a)) && (result.Gone? || l' == l)
    ensures l.r.work.fired ==> (result.Failed? <==> l.r.id.kind.Socket? && a.probe.ProbeError?)
    ensures l.r.id.kind.Waitable? && Wants(env, l.r) ==> (result.Failed? <==> !l.r.ready.owned && Refuses(a))
    ensures !l.r.work.fired && !l.r.work.rearm ==> l' == l && result.Done?
    ensures Wants(env, l.r) && Accepted(env, l.r, a) ==> now || l'.out != [] || Polled(env, l.r, l'.r)
  {
    if l.r.id.kind.Waitable? {
      l', result := SubmitWaitable(env, l, a);
      now := false;
    } else {
      l', result, now := SubmitSocket(env, l, a, immediate);
    }
  }

  /** `ep_sock_submit_locked`: the new state, the result, and whether an immediate snapshot is in hand.  A
      registration that wants a poll gets one if the kernel takes it. */
  method Submit(env: Env, l: Step, a: Answer, immediate: bool) returns (l': Step, result: Outcome, now: bool)
    requires (l.out == [] || l.r.ready.queued) && !l.busy
    ensures Submission(env, l, l', result, now)
    ensures now <==> immediate && l.r.id.kind.Socket? && Wants(env, l.r) && Answers(l.r, a)
    ensures now ==> l'.r.ready.observed == Relatched(l.r, a)
    ensures Opens(l.r, a, l'.r)
    ensures l.r.ready.queued ==> l' == l && result.Done?
    ensures if l.out == [] && Wants(env, l.r) && l.r.id.kind.Socket? && Announces(l.r, a)
            then result.Done? && l'.out != [] && Announced(l.r, a, l'.r) else l'.out == l.out
    ensures result.Failed? ==> l.out == []
    ensures l.r.work.fired && l'.r.life.Attached? ==> l'.r.work.rearm == l.r.work.rearm
    ensures l.r.work.fired ==> (result.Gone? <==> Retires(env, l.r, a))
    ensures l.r.life.Attached? && !Dormant(l.r) && !Wants(env, l.r) ==> l' == l || result.Gone?
    ensures Dormant(l.r) ==> result.Done?
    ensures Dormant(l.r) && l.r.life.Attached? && !l.r.ready.queued && !env.closing ==>
              !l'.r.poll.status.Pending? && !l'.r.work.rearm && !l'.r.work.holdoff
    ensures l.r.work.fired && Probeable(env, l.r) ==> (result.Failed? <==> a.probe.ProbeError?)
    ensures l.r.id.kind.Waitable? && Wants(env, l.r) ==> (result.Failed? <==> !l.r.ready.owned && Refuses(a))
    ensures Quiet(l) && l.r.id.kind.Socket? && !l.r.work.rearm ==> l' == l && result.Done?
    ensures l.out == [] && Wants(env, l.r) && Accepted(env, l.r, a) ==> now || l'.out != [] || Polled(env, l.r, l'.r)
  {
    l', result, now := l, Done, false;
    if !env.closing && l.r.life.Attached? && !l.r.ready.queued {
      if Dormant(l.r) {
        l' := SubmitDormant(env, l);
      } else {
        // Only a failed disarm leaves a pending waitable on the rearm list.
        assert !(l.r.id.kind.Waitable? && l.r.poll.status.Pending? && l.r.work.rearm);
        if l.r.poll.status.Idle? && !l.r.work.holdoff {
          l', result, now := SubmitIdle(env, l, a, immediate);
        }
      }
    }
  }

  /** A registration left ready for submission is polled, or its local shutdown is reported. */
  predicate Resumes(env: Env, r: Reg, a: Answer, l': Local, ok: bool) {
    Wants(env, r) && Accepted(env, r, a) ==> ok && (l'.out != [] || Polled(env, r, l'.r))
  }

  /** Two registrations that a submission does not tell apart. */
  predicate Alike(r: Reg, r': Reg) {
    && r'.id == r.id && r'.user == r.user && r'.poll == r.poll && r'.life == r.life && r'.shutdown == r.shutdown
    && r'.ready.queued == r.ready.queued && r'.ready.owned == r.ready.owned && r'.ready.disarmed == r.ready.disarmed
    && r'.work.rearm == r.work.rearm && r'.work.fired == r.work.fired && r'.work.holdoff == r.work.holdoff
    && r'.work.parked == r.work.parked
  }

  lemma AlikeResumes(env: Env, r: Reg, r': Reg, a: Answer, l': Local, ok: bool)
    requires Alike(r, r') && Resumes(env, r, a, l', ok)
    ensures Resumes(env, r', a, l', ok)
  {
  }

  /** Submit from a completion: a failure is retried by the next wait. */
  method Resubmit(env: Env, l: Step, a: Answer) returns (l': Step)
    requires Quiet(l) && !l.busy
    ensures l'.base == l.base && !l'.busy && !Doubled(l'.r)
    ensures l'.out != [] ==> SameRequest(l.r, l'.r)
    ensures l'.r.work.orphaned ==> l.r.work.orphaned
    ensures !l.r.id.kind.Socket? ==> l'.out == []
    ensures l.r.id.kind.Socket? && !l.r.work.rearm ==> l' == l
    ensures Resumes(env, l.r, a, l', true)
  {
    var result, now;
    l', result, now := Submit(env, l, a, false);
    if result.Failed? {
      l' := SetRearm(l');
    }
  }

  // --------------------------------------------------------------- completion

  /** A level a completion may report. */
  predicate Reportable(r: Reg, level: Mask) {
    && (r.id.kind.Socket? ==> level <= SOCKET_BITS && (Explicit(r.id, r.user) ==> ClassesOf(level) !! r.ready.disarmed))
    && (Edged(r.id, r.user) ==> level <= r.user.events + TERMINAL_BITS)
    && (Consumes(r.id.kind) ==> r.ready.owned && level <= r.user.events * WAITABLE_BITS)
  }

  lemma ReportablePart(r: Reg, level: Mask, part: Mask)
    requires Reportable(r, level) && part <= level
    ensures Reportable(r, part)
  {
    ClassesMonotone(part, level);
  }

  /** A delivery happened: one node, and the rearm request that was there before it still there after it. */
  predicate Delivered(l: Local, l': Local) {
    && l'.r.life.Attached? && l'.out == [NodeOf(l'.r)] && SameRequest(l.r, l'.r)
    && l'.r.work.rearm == l.r.work.rearm && l'.r.work.fired == l.r.user.oneshot && !l'.r.work.holdoff
  }

  /** The bits of the node that was pushed. */
  function Sent(l: Local): Mask {
    if l.out != [] then l.r.ready.pending else {}
  }

  /** The tail of `ep_sock_handle_completion` for a nonempty report. */
  method Queue(l: Step, level: Mask, node: bool, claim: Claim) returns (l': Step)
    requires Quiet(l) && (!l.r.work.lost ==> !l.r.work.rearm) && l.base.doubled
    requires Reportable(l.r, level) && News(l.r.user, l.r.ready.observed, level) != {}
    ensures l'.base == l.base && (l'.out == [] || Delivered(l, l')) && !l'.busy && !l'.r.work.orphaned
    ensures Carries(l.r.user, claim, News(l.r.user, l.r.ready.observed, level), l', node)
    ensures l'.out == [] ==>
              && l'.r.work.rearm && !l'.r.work.fired
              && l'.r.work.holdoff == (node || (l.r.user.et && l.r.work.holdoff))
    ensures l.r.user.et ==> l'.r.ready.observed == AfterReport(l.r.user, l.r.ready.observed, level, node)
    ensures l'.r.log == FoundLog(l.r, level, Sent(l'))
  {
    if !node && l.r.user.et {
      l' := Postpone(l, level);
    } else if !node {
      l' := Withhold(l, level, false);
    } else {
      var granted := Allowed(l.r.user, claim, News(l.r.user, l.r.ready.observed, level));
      if granted == {} {
        l' := Withhold(l, level, true);
      } else {
        l' := Deposit(l, level, granted);
      }
    }
  }

  /** No memory for an edge: it stays one, and the next wait tries again. */
  method Postpone(l: Step, level: Mask) returns (l': Step)
    requires Quiet(l) && Reportable(l.r, level)
    ensures l' == l.(r := l.r.(log := FoundLog(l.r, level, {}), work := l.r.work.(rearm := true, orphaned := false)),
                     busy := false)
  {
    FoundFits(l.r, level, {});
    l' := SetRearm(Note(l, FoundLog(l.r, level, {})));
  }

  /** The latch follows the level, and the next wait is to rearm. */
  method Withhold(l: Step, level: Mask, holdoff: bool) returns (l': Step)
    requires Quiet(l) && Reportable(l.r, level)
    requires Consumes(l.r.id.kind) ==> Latch(l.r.user, l.r.ready.observed, level).1 == {}
    ensures l' == l.(r := l.r.(ready := l.r.ready.(observed := Latch(l.r.user, l.r.ready.observed, level).1),
                               log := FoundLog(l.r, level, {}),
                               work := l.r.work.(rearm := true, holdoff := holdoff, orphaned := false)),
                     busy := false)
  {
    FoundFits(l.r, level, {});
    l' := SetObserved(Note(l, FoundLog(l.r, level, {})), Latch(l.r.user, l.r.ready.observed, level).1);
    l' := SetRearm(SetHoldoff(l', holdoff));
  }

  /** The granted news of a level become a node. */
  method Deposit(l: Step, level: Mask, granted: Mask) returns (l': Step)
    requires Quiet(l) && (!l.r.work.lost ==> !l.r.work.rearm) && l.base.doubled
    requires Reportable(l.r, level) && granted != {} && granted <= News(l.r.user, l.r.ready.observed, level)
    ensures l'.base == l.base && Delivered(l, l') && !l'.busy && !l'.r.work.orphaned
    ensures l'.r.ready.pending == granted && l'.r.ready.observed == Latch(l.r.user, l.r.ready.observed, level).1
    ensures l'.r.log == FoundLog(l.r, level, granted)
  {
    ReportablePart(l.r, level, granted);
    FoundFits(l.r, level, granted);
    l' := Publish(l, granted, Latch(l.r.user, l.r.ready.observed, level).1, l.r.work.rearm,
                  FoundLog(l.r, level, granted));
  }

  /** A quiet registration can be polled at once. */
  predicate Rewatchable(env: Env, r: Reg, a: Answer) {
    !env.closing && !Dormant(r) && Accepted(env, r, a)
  }

  /** Nothing new to report: rearm now, or once the next wait has let other registrations go first. */
  method Defer(env: Env, l: Step, level: Mask, parkedNow: bool, a: Answer) returns (l': Step)
    requires Quiet(l) && Reportable(l.r, level) && News(l.r.user, l.r.ready.observed, level) == {}
    ensures l'.base == l.base && !l'.busy && !l'.r.work.orphaned && !Doubled(l'.r)
    ensures l'.out != [] ==> SameRequest(l.r, l'.r)
    ensures !l.r.id.kind.Socket? ==> l'.out == []
    ensures (parkedNow || !l.r.user.et) && Rewatchable(env, l.r, a) ==> l'.out != [] || Polled(env, l.r, l'.r)
    ensures l.r.user.et && !parkedNow ==>
              && l'.out == [] && l'.r.poll.status.Idle? && l'.r.work.rearm && l'.r.work.holdoff
              && l'.r.log == FoundLog(l.r, level, {})
              && l'.r.ready.observed == Latch(l.r.user, l.r.ready.observed, level).1
  {
    l' := Withhold(l, level, l.r.user.et && !parkedNow);
    if parkedNow || !l.r.user.et {
      l' := Resubmit(env, l', a);
    }
  }

  /** The tail of `ep_sock_handle_completion`: latch a level, then queue a node, rearm, or wait.  What is new is
      delivered, and nothing else. */
  method Deliver(env: Env, l: Step, level: Mask, parkedNow: bool, p: Packet) returns (l': Step)
    requires Quiet(l) && (!l.r.work.lost ==> !l.r.work.rearm) && l.base.doubled
    requires Reportable(l.r, level)
    ensures l'.base == l.base && !l'.busy && !l'.r.work.orphaned
    ensures l'.out != [] ==> SameRequest(l.r, l'.r)
    ensures var news := News(l.r.user, l.r.ready.observed, level);
            && (news != {} ==> Carries(l.r.user, p.claim, news, l', p.node))
            && (news != {} && l'.out != [] ==> Delivered(l, l'))
            && (news == {} && !l.r.id.kind.Socket? ==> l'.out == [])
            && (Doubled(l'.r) <==> l.r.user.oneshot && l.r.work.rearm && p.node && news != {})
    ensures var quiet := News(l.r.user, l.r.ready.observed, level) == {} && (parkedNow || !l.r.user.et);
            quiet && Rewatchable(env, l.r, p.again) ==> l'.out != [] || Polled(env, l.r, l'.r)
    ensures l.r.user.et && !parkedNow ==> Follows(l.r, level, p.node, l')
    ensures l.r.user.et && !parkedNow && News(l.r.user, l.r.ready.observed, level) == {} ==>
              l'.r.poll.status.Idle? && l'.r.work.rearm && l'.r.work.holdoff
  {
    if News(l.r.user, l.r.ready.observed, level) != {} {
      l' := Queue(l, level, p.node, p.claim);
    } else {
      l' := Defer(env, l, level, parkedNow, p.again);
    }
  }

  /** The bits of a level the caller has not seen: all of it, or its edges. */
  function News(user: User, observed: Mask, level: Mask): Mask {
    Latch(user, observed, level).0
  }

  /** The latch after a report: it follows the level, but an edge that found no memory stays an edge. */
  function AfterReport(user: User, observed: Mask, level: Mask, node: bool): Mask {
    if News(user, observed, level) != {} && !node then observed else Latch(user, observed, level).1
  }

  /** The latch follows the level, and the history notes it with what was queued. */
  predicate Follows(r: Reg, level: Mask, node: bool, l': Local) {
    && l'.r.ready.observed == AfterReport(r.user, r.ready.observed, level, node)
    && l'.r.log == FoundLog(r, level, Sent(l'))
  }

  /** The news reach the caller: all of them, or for an exclusive registration those it could claim. */
  predicate Carries(user: User, claim: Claim, news: Mask, l': Local, node: bool) {
    && (l'.out != [] <==> node && Allowed(user, claim, news) != {})
    && (l'.out != [] ==> l'.r.ready.pending == Allowed(user, claim, news))
  }

  /** The level a socket completion reports, before the edge latch. */
  function SocketLevel(r: Reg, ok: bool, s: Snapshot): (level: Mask)
    requires r.id.kind.Socket?
    ensures level <= SOCKET_BITS && level <= r.user.events + TERMINAL_BITS
    ensures Explicit(r.id, r.user) ==> ClassesOf(level) !! r.ready.disarmed
  {
    var explicit := Explicit(r.id, r.user);
    var native := NativeLevel(r.id.kind.protocol, r.user.events, ok, s);
    var qualified := Qualify(r.id.kind.protocol, r.ready.disarmed, explicit, r.user.et || r.user.exclusive, native, s);
    WithShutdown(r.id.kind, r.user.events, r.ready.disarmed, explicit, r.shutdown, qualified)
  }

  /** What a stream reports of a completed poll, bit by bit: what AFD says, or an error of the poll; what is there
      besides, unless that was terminal; what a local shutdown adds; within the interest and the armed classes, and
      held against the samples for those who want edges or share the socket. */
  lemma StreamReports(r: Reg, ok: bool, s: Snapshot, b: Bit)
    requires r.id.kind.Socket? && r.id.kind.protocol.Tcp?
    ensures var native := if !ok then {ERR} else if s.handles then AfdToEpoll(s.afd, s.failed, Tcp) else {};
            var now := native * TERMINAL_BITS == {} && b in s.merge * SOCKET_BITS;
            var sampled := (r.user.et || r.user.exclusive) && Unready(s, b);
            var ended := ShutRead in r.shutdown && b in r.user.events * {IN, RDNORM, RDHUP};
            var hungUp := r.shutdown == {ShutRead, ShutWrite} && b == HUP;
            b in SocketLevel(r, ok, s) <==>
              && (((b in native || now) && !sampled) || ended || hungUp)
              && b in r.user.events + TERMINAL_BITS && (Explicit(r.id, r.user) ==> ClassesOf({b}) !! r.ready.disarmed)
  {
    var native := NativeLevel(Tcp, r.user.events, ok, s);
    var explicit, sampled := Explicit(r.id, r.user), r.user.et || r.user.exclusive;
    QualifiedExactly(Tcp, r.ready.disarmed, explicit, sampled, native, s, b);
    ShutdownShows(r.id.kind, r.user.events, r.ready.disarmed, explicit, r.shutdown,
                  Qualify(Tcp, r.ready.disarmed, explicit, sampled, native, s), b);
  }

  /** The completion has news for the caller. */
  predicate Reports(r: Reg, p: Packet, s: Snapshot)
    requires r.id.kind.Socket?
  {
    !Probed(r.id.kind.protocol, p.ok, s).ProbedClosed? && News(r.user, r.ready.observed, SocketLevel(r, p.ok, s)) != {}
  }

  /** An edge-triggered socket, open and without an unread datagram to be parked. */
  predicate Heeds(r: Reg, p: Packet, s: Snapshot)
    requires r.id.kind.Socket?
  {
    var udp := Probed(r.id.kind.protocol, p.ok, s);
    r.user.et && !udp.ProbedClosed? && !Parks(r, udp)
  }

  /** A completion with news delivers them. */
  predicate Conveys(r: Reg, p: Packet, s: Snapshot, l': Local)
    requires r.id.kind.Socket?
  {
    Reports(r, p, s) ==>
      Carries(r.user, p.claim, News(r.user, r.ready.observed, SocketLevel(r, p.ok, s)), l', p.node)
  }

  /** Whatever an explicit-rearm registration may report is polled for. */
  lemma ReportedIsPolled(r: Reg, level: Mask, b: Bit)
    requires Explicit(r.id, r.user) && b in level
    requires level <= SOCKET_BITS && level <= r.user.events + TERMINAL_BITS && ClassesOf(level) !! r.ready.disarmed
    ensures AfdEvents(r) != {}
  {
    var c, e := WatchedBy(r.user.events, b);
    assert b in level * BitsOf(c);
    PolledByClass(r.id.kind, r.user.events, r.work.parked, r.ready.disarmed, e);
  }

  /** When every class polled for awaits an acknowledgement there is nothing to report either. */
  lemma SilentHasNoNews(r: Reg, ok: bool, s: Snapshot, current: Mask)
    requires r.id.kind.Socket? && Explicit(r.id, r.user) && AfdEvents(r) == {}
    ensures SocketLevel(r, ok, s) == {}
    ensures ShutdownLevel(r.id.kind, r.user.events, r.ready.disarmed, true, r.shutdown, current) == {}
  {
    if b :| b in SocketLevel(r, ok, s) {
      ReportedIsPolled(r, SocketLevel(r, ok, s), b);
    }
    var shut := ShutdownLevel(r.id.kind, r.user.events, r.ready.disarmed, true, r.shutdown, current);
    if b :| b in shut {
      ReportedIsPolled(r, shut, b);
    }
  }

  /** An unread datagram of a registration that does not ask for reads: AFD would report it again and again. */
  predicate Parks(r: Reg, udp: UdpProbe) {
    Readless(r.user.events) && (udp.HasData? || udp.Unavailable?)
  }

  function Park(l: Step, udp: UdpProbe): Step
    requires l.busy
  {
    if Readless(l.r.user.events) && !udp.NotProbed? then SetParked(l, Parks(l.r, udp)) else l
  }

  /** A registration that polls for datagrams only to learn about errors. */
  predicate Probes(r: Reg) {
    && r.id.kind.Socket? && r.id.kind.protocol.Udp? && r.id.kind.udpProbe
    && (Explicit(r.id, r.user) ==> Read !in r.ready.disarmed)
  }

  /** A datagram nobody asked to read does not complete the next poll again; a readless registration without one
      keeps polling for it. */
  lemma ParkedIsNotPolled(l: Step, udp: UdpProbe)
    requires l.busy && Readless(l.r.user.events) && !udp.NotProbed?
    ensures udp.HasData? || udp.Unavailable? ==> RECEIVE !in AfdEvents(Park(l, udp).r)
    ensures Probes(l.r) && !(udp.HasData? || udp.Unavailable?) ==> RECEIVE in AfdEvents(Park(l, udp).r)
  {
  }

  /** A datagram that somebody asked to read, or that was not probed for, changes nothing about the parking. */
  lemma ParkedAsBefore(l: Step, udp: UdpProbe)
    requires l.busy && (!Readless(l.r.user.events) || udp.NotProbed?)
    ensures Park(l, udp) == l
  {
  }

  /** Park an unread datagram, then deliver the level. */
  method ParkAndDeliver(env: Env, l: Step, level: Mask, udp: UdpProbe, p: Packet) returns (l': Step)
    requires Quiet(l) && l.busy && (!l.r.work.lost ==> !l.r.work.rearm) && l.base.doubled && l.r.id.kind.Socket?
    requires Reportable(l.r, level)
    ensures l'.base == l.base && !l'.busy && !l'.r.work.orphaned
    ensures l'.out != [] ==> SameRequest(l.r, l'.r)
    ensures var news := News(l.r.user, l.r.ready.observed, level);
            && (news != {} ==> Carries(l.r.user, p.claim, news, l', p.node))
            && (Doubled(l'.r) <==> l.r.user.oneshot && l.r.work.rearm && p.node && news != {})
    ensures l.r.user.et && !Parks(l.r, udp) ==> Follows(l.r, level, p.node, l')
  {
    l' := Park(l, udp);
    l' := Deliver(env, l', level, Parks(l.r, udp), p);
  }

  /** Translate one socket snapshot and deliver it. */
  method Translate(env: Env, l: Step, s: Snapshot, p: Packet) returns (l': Step)
    requires Quiet(l) && l.busy && (!l.r.work.lost ==> !l.r.work.rearm) && l.base.doubled && l.r.id.kind.Socket?
    ensures l'.base == l.base && (l'.r.life.Attached? ==> !l'.busy && !l'.r.work.orphaned)
    ensures l'.out != [] ==> SameRequest(l.r, l'.r)
    ensures Conveys(l.r, p, s, l')
    ensures Heeds(l.r, p, s) ==> Follows(l.r, SocketLevel(l.r, p.ok, s), p.node, l')
    ensures Doubled(l'.r) <==> l.r.user.oneshot && l.r.work.rearm && p.node && Reports(l.r, p, s)
  {
    var udp := Probed(l.r.id.kind.protocol, p.ok, s);
    if udp.ProbedClosed? {
      l' := Drop(l);
    } else {
      l' := ParkAndDeliver(env, l, SocketLevel(l.r, p.ok, s), udp, p);
    }
  }

  predicate LocalClose(s: Snapshot) {
    s.handles && LOCAL_CLOSE in s.afd
  }

  method Refresh(env: Env, l: Step, a: Answer) returns (l': Step, now: bool)
    requires Quiet(l) && l.r.id.kind.Socket?
    ensures l'.base == l.base && (l'.busy <==> now) && !l'.r.work.orphaned && !Doubled(l'.r)
    ensures now ==> Fresh(env, l, l') && l'.out == [] && Undelivered(l.r, l'.r)
    ensures now <==> !env.closing && !l.r.work.holdoff && Answers(l.r, a)
    ensures now ==> l'.r.ready.observed == Relatched(l.r, a)
    ensures if !env.closing && !l.r.work.holdoff && Announces(l.r, a)
            then !now && l'.out != [] && Announced(l.r, a, l'.r) else l'.out == []
  {
    var result;
    SameNews(l.r, SetRearm(l).r, a);
    l', result, now := Submit(env, SetRearm(l), a, true);
    if result.Failed? {
      l' := SetRearm(l');
    }
  }

  /** `process_socket_snapshot`: a stale or uncovering snapshot is refreshed, and an immediate fresh one is
      processed in place.  The loop ends because a fresh snapshot needs no refresh. */
  method ProcessSnapshot(env: Env, l: Step, p: Packet) returns (l': Step, ghost refreshes: nat)
    requires Quiet(l) && l.busy && (!l.r.work.lost ==> !l.r.work.rearm) && l.base.doubled && l.r.id.kind.Socket?
    requires !env.closing
    ensures l'.base == l.base && refreshes <= 1 && (l'.r.life.Attached? ==> !l'.busy && !l'.r.work.orphaned)
    ensures l'.r.life.Attached? ==> (Doubled(l'.r) <==> Doubles(env, l.r, p))
    ensures p.ok && l'.out != [] ==>
              if Interrupts(env, l.r, p) then Announced(l.r, p.refresh, l'.r) else Current(env, l, l')
    ensures p.ok && LocalClose(p.first) ==> !l'.r.life.Attached?
    ensures p.ok && !LocalClose(p.first) && !NeedsRefresh(env, l.r) ==> refreshes == 0 && Conveys(l.r, p, p.first, l')
    ensures refreshes == 1 <==> p.ok && !LocalClose(p.first) && Refreshes(env, l.r, p)
    ensures refreshes == 1 ==> Reenters(l.r, p, l')
    ensures p.ok && !LocalClose(p.first) && !NeedsRefresh(env, l.r) && Heeds(l.r, p, p.first) ==>
              Follows(l.r, SocketLevel(l.r, p.ok, p.first), p.node, l')
  {
    var s, over;
    l', s, over, refreshes := Freshen(env, l, p);
    if !over {
      l' := Translate(env, l', s, p);
    }
  }

  /** A snapshot that may be processed: the packet's own, or the one that refreshed it. */
  predicate Processable(env: Env, l: Local, p: Packet, l': Local, s: Snapshot, refreshes: nat) {
    && Quiet(l') && l'.busy && l'.base == l.base
    && if refreshes == 0 then l' == l && s == p.first && (p.ok ==> !LocalClose(s) && !NeedsRefresh(env, l.r))
       else
         && s == p.second && Fresh(env, l, l') && Undelivered(l.r, l'.r) && p.ok && !LocalClose(s)
         && !Interrupts(env, l.r, p) && l'.r.ready.observed == Relatched(l.r, p.refresh)
  }

  /** The loop of `process_socket_snapshot`, up to a snapshot that may be processed, if there is one. */
  method Freshen(env: Env, l: Step, p: Packet) returns (l': Step, s: Snapshot, over: bool, ghost refreshes: nat)
    requires Quiet(l) && l.busy && l.r.id.kind.Socket? && !env.closing
    ensures l'.base == l.base && refreshes <= 1
    ensures refreshes == 1 <==> p.ok && !LocalClose(p.first) && Refreshes(env, l.r, p)
    ensures !over ==> Processable(env, l, p, l', s, refreshes)
    ensures over ==> p.ok && (LocalClose(p.first) || NeedsRefresh(env, l.r))
    ensures over && l'.r.life.Attached? ==> !l'.busy && !l'.r.work.orphaned && !Doubled(l'.r)
    ensures over && l'.out != [] ==> Interrupts(env, l.r, p) && Announced(l.r, p.refresh, l'.r)
    ensures over && (LocalClose(p.first) || refreshes == 1) ==> !l'.r.life.Attached?
    ensures over && refreshes == 1 ==> LocalClose(p.second)
  {
    l', refreshes, s, over := l, 0, p.first, true;
    while true
      invariant Quiet(l') && l'.busy && l'.base == l.base && over
      invariant || (refreshes == 0 && l' == l && s == p.first)
                || (refreshes == 1 && s == p.second && Fresh(env, l, l') && Undelivered(l.r, l'.r) && p.ok &&
                    !LocalClose(p.first) && !Interrupts(env, l.r, p) && Refreshes(env, l.r, p) &&
                    l'.r.ready.observed == Relatched(l.r, p.refresh))
      decreases refreshes == 0
    {
      if p.ok && LocalClose(s) {
        l' := Drop(l');
        return;
      }
      if !p.ok || !NeedsRefresh(env, l'.r) {
        over := false;
        return;
      }
      var now;
      l', now := Refresh(env, l', p.refresh);
      if !now {
        return;
      }
      s, refreshes := p.second, refreshes + 1;
    }
  }

  /** The snapshot is stale or does not cover the interest, and the kernel has a fresh one at once. */
  predicate Refreshes(env: Env, r: Reg, p: Packet) {
    NeedsRefresh(env, r) && !r.work.holdoff && Answers(r, p.refresh)
  }

  /** The registration as a refresh leaves it, as far as a report depends on it. */
  function Refreshed(r: Reg, a: Answer): Reg {
    r.(ready := r.ready.(observed := Relatched(r, a)))
  }

  /** The fresh snapshot is what counts: its news are delivered, and a local close in it retires the registration. */
  predicate Reenters(r: Reg, p: Packet, l': Local)
    requires r.id.kind.Socket?
  {
    if LocalClose(p.second) then !l'.r.life.Attached? else Conveys(Refreshed(r, p.refresh), p, p.second, l')
  }

  /** The node's snapshot was submitted in the current wait, with a mask covering the interest. */
  predicate Current(env: Env, l: Local, l': Local) {
    (env.epoch != 0 ==> l'.r.poll.epoch == env.epoch) && AfdEvents(l.r) <= l'.r.poll.afd
  }

  /** A completion that puts a one-shot on both worklists: the next wait was to rearm it already, and its snapshot is
      delivered without a refresh. */
  predicate Doubles(env: Env, r: Reg, p: Packet)
    requires r.id.kind.Socket?
  {
    && r.user.oneshot && r.work.rearm && p.node && Reports(r, p, p.first)
    && (!p.ok || (!LocalClose(p.first) && !NeedsRefresh(env, r)))
  }

  /** The refresh of a stale or uncovering snapshot reports a local shutdown instead. */
  predicate Interrupts(env: Env, r: Reg, p: Packet) {
    NeedsRefresh(env, r) && !LocalClose(p.first) && !r.work.holdoff && Announces(r, p.refresh)
  }

  /** A poll of an attached socket completes successfully. */
  predicate Succeeds(env: Env, r: Reg, p: Packet) {
    r.life.Attached? && r.id.kind.Socket? && r.poll.status.Pending? && !env.closing && p.ok && !p.cancelled
  }

  /** What the caller is told of a completed poll. */
  function Heard(r: Reg, p: Packet, s: Snapshot): Mask
    requires r.id.kind.Socket?
  {
    Allowed(r.user, p.claim, News(r.user, r.ready.observed, SocketLevel(r, p.ok, s)))
  }

  /** A snapshot has news for the caller. */
  predicate Speaks(r: Reg, p: Packet, s: Snapshot)
    requires r.id.kind.Socket?
  {
    Reports(r, p, s) && p.node && Heard(r, p, s) != {}
  }

  /** A current and covering poll has news for the caller. */
  predicate Hears(env: Env, r: Reg, p: Packet) {
    Succeeds(env, r, p) && !LocalClose(p.first) && !NeedsRefresh(env, r) && Speaks(r, p, p.first)
  }

  /** A poll that is refreshed at once. */
  predicate Renewing(env: Env, r: Reg, p: Packet) {
    Succeeds(env, r, p) && !LocalClose(p.first) && Refreshes(env, r, p)
  }

  /** Its fresh snapshot has news for the caller. */
  predicate Rehears(env: Env, r: Reg, p: Packet) {
    Renewing(env, r, p) && !LocalClose(p.second) && Speaks(Refreshed(r, p.refresh), p, p.second)
  }

  /** Besides, its snapshot is current and covers the interest. */
  predicate Settles(env: Env, l: Local, p: Packet) {
    Succeeds(env, l.r, p) && !LocalClose(p.first) && !NeedsRefresh(env, l.r)
  }

  /** The completion leaves its registration on both worklists. */
  predicate Crowds(env: Env, r: Reg, p: Packet) {
    r.id.kind.Socket? && r.poll.status.Pending? && !env.closing && !p.cancelled && Doubles(env, r, p)
  }

  /** A notification taken from its object completes for a live registration. */
  predicate Notifies(env: Env, r: Reg) {
    Consumes(r.id.kind) && r.life.Attached? && r.poll.status.Pending? && !env.closing && !Dormant(r)
  }

  /** The wait on an object that gives up nothing completes for a live registration. */
  predicate Signals(env: Env, r: Reg) {
    && r.id.kind.Waitable? && !Consumes(r.id.kind) && r.life.Attached? && r.poll.status.Pending?
    && !env.closing && !Dormant(r)
  }

  /** What the caller is told of its object: the interest while it is signalled, nothing once it is not, and a terminal
      condition if it cannot be asked; of an edge, what is new. */
  function Seen(r: Reg, sample: WaitResult): Mask {
    var level := match sample
                 case Signaled => r.user.events * WAITABLE_BITS
                 case TimedOut => {}
                 case _ => {ERR, HUP};
    if r.user.et then level - r.ready.observed * (r.user.events + {ERR, HUP}) else level
  }

  /** Exactly that is queued. */
  predicate Shows(r: Reg, p: Packet, l': Local) {
    && (l'.out != [] <==> p.node && Allowed(r.user, p.claim, Seen(r, p.sample)) != {})
    && (l'.out != [] ==> l'.r.ready.pending == Allowed(r.user, p.claim, Seen(r, p.sample)))
  }

  /** The kernel gives up a request that nobody cancelled, and nobody has asked for another one. */
  predicate Orphans(r: Reg, p: Packet) {
    && r.life.Attached? && r.id.kind.Socket? && r.poll.status.Pending? && p.cancelled
    && !r.work.rearm && !Silent(r)
  }

  /** The last packet of a detached registration: its storage goes with it. */
  function Free(l: Step): Step
    requires l.r.life.Detached? && l.r.poll.packets == 1
  {
    l.(r := l.r.(life := Freed, poll := l.r.poll.(status := Idle, wait := Unarmed, posted := false, packets := 0)),
       pendingCount := l.pendingCount - 1)
  }

  /** The waitable half of `ep_sock_handle_completion`, once its packet is settled. */
  method ProcessSignal(env: Env, l: Step, p: Packet) returns (l': Step)
    requires Quiet(l) && l.r.id.kind.Waitable? && !l.r.work.rearm && (Consumes(l.r.id.kind) ==> l.r.ready.owned)
    requires l.base.doubled
    ensures l'.base == l.base && !l'.busy && (l'.r.work.orphaned ==> l.r.work.orphaned) && !Doubled(l'.r)
    ensures Consumes(l.r.id.kind) && !Dormant(l.r) && p.node ==>
              l'.out != [] && l'.r.ready.pending == l.r.user.events * WAITABLE_BITS
    ensures !Consumes(l.r.id.kind) && !Dormant(l.r) ==> Shows(l.r, p, l')
    ensures Dormant(l.r) ==> l'.out == [] && !l'.r.work.rearm && !l'.r.work.holdoff
    ensures !Consumes(l.r.id.kind) && !Dormant(l.r) && l.r.user.et && Seen(l.r, p.sample) == {} ==>
              l'.r.poll.status.Idle? && l'.r.work.rearm && l'.r.work.holdoff
  {
    if Dormant(l.r) {
      l' := SetHoldoff(ClearRearm(l), false);
    } else {
      l' := Deliver(env, l, WaitableLevel(Consumes(l.r.id.kind), l.r.user.events, p.sample), false, p);
    }
  }

  /** `ep_sock_handle_completion` of a cancelled request: whoever asked for another one gets it. */
  method ProcessCancellation(env: Env, l: Step, a: Answer) returns (l': Step)
    requires Quiet(l) && !l.r.work.orphaned && l.base.orphaned && (l.r.id.kind.Socket? || Alive(l.r))
    ensures l'.base == l.base && !l'.busy && !Doubled(l'.r)
    ensures l'.r.work.orphaned <==> !Alive(l.r)
    ensures !Alive(l.r) ==> Quiet(l') && !Alive(l'.r)
    ensures Resumes(env, l.r, a, l', true)
  {
    l' := if Alive(l.r) then Rest(l) else Orphan(l);
    l' := Resubmit(env, l', a);
  }

  /** What a completion comes to.  What a successful poll delivers is current, unless its refresh reported a local
      shutdown instead; a closed handle is retired; a notification and the news of a covering poll reach the caller. */
  predicate Completion(env: Env, l: Local, p: Packet, l': Local, refreshes: nat) {
    && (Succeeds(env, l.r, p) && l'.out != [] ==>
          if Interrupts(env, l.r, p) then Announced(l.r, p.refresh, l'.r) else Current(env, l, l'))
    && (Succeeds(env, l.r, p) && LocalClose(p.first) ==> !l'.r.life.Attached?)
    && (Notifies(env, l.r) && p.node ==> l'.out != [] && l'.r.ready.pending == l.r.user.events * WAITABLE_BITS)
    && (Signals(env, l.r) ==> Shows(l.r, p, l'))
    && (Settles(env, l, p) ==> refreshes == 0 && Conveys(l.r, p, p.first, l'))
    && (Settles(env, l, p) && Heeds(l.r, p, p.first) ==> Follows(l.r, SocketLevel(l.r, p.ok, p.first), p.node, l'))
    && (refreshes == 1 <==> Renewing(env, l.r, p))
    && (Renewing(env, l.r, p) ==> Reenters(l.r, p, l'))
  }

  /** `ep_sock_handle_completion` of a socket request that was not cancelled. */
  method CompletePoll(env: Env, l: Step, p: Packet) returns (l': Step, ghost refreshes: nat)
    requires l.r.poll.packets == 1 && l.out == [] && l.r.life.Attached? && !l.busy && l.base.orphaned && l.base.doubled
    requires l.r.id.kind.Socket? && l.r.poll.status.Pending? && !p.cancelled && !env.closing
    ensures l'.base == l.base && refreshes <= 1
    ensures l'.r.life.Attached? ==> !l'.busy && !l'.r.work.orphaned && (Doubled(l'.r) <==> Doubles(env, l.r, p))
    ensures p.ok && l'.out != [] ==>
              if Interrupts(env, l.r, p) then Announced(l.r, p.refresh, l'.r) else Current(env, l, l')
    ensures p.ok && LocalClose(p.first) ==> !l'.r.life.Attached?
    ensures Settles(env, l, p) ==> refreshes == 0 && Conveys(l.r, p, p.first, l')
    ensures refreshes == 1 <==> Renewing(env, l.r, p)
    ensures Renewing(env, l.r, p) ==> Reenters(l.r, p, l')
    ensures Settles(env, l, p) && Heeds(l.r, p, p.first) ==>
              Follows(l.r, SocketLevel(l.r, p.ok, p.first), p.node, l')
  {
    SameNews(l.r, Settle(l).r, p.refresh);
    l', refreshes := ProcessSnapshot(env, Settle(l), p);
  }

  /** `ep_sock_handle_completion` of a live socket. */
  method CompleteSocket(env: Env, l: Step, p: Packet) returns (l': Step, ghost refreshes: nat)
    requires l.r.poll.packets == 1 && l.out == [] && l.r.life.Attached? && !l.busy && l.base.orphaned && l.base.doubled
    requires l.r.id.kind.Socket? && !env.closing
    ensures l'.base == l.base && refreshes <= 1
    ensures l'.r.life.Attached? ==> !l'.busy && (l'.r.work.orphaned <==> Orphans(l.r, p))
    ensures l'.r.life.Attached? ==>
              (Doubled(l'.r) <==> l.r.poll.status.Pending? && !p.cancelled && Doubles(env, l.r, p))
    ensures Orphans(l.r, p) ==> Quiet(l') && !Alive(l'.r)
    ensures l.r.poll.status.Cancelled? ==> Resumes(env, Settle(l).r, p.again, l', true)
    ensures Succeeds(env, l.r, p) && l'.out != [] ==>
              if Interrupts(env, l.r, p) then Announced(l.r, p.refresh, l'.r) else Current(env, l, l')
    ensures Succeeds(env, l.r, p) && LocalClose(p.first) ==> !l'.r.life.Attached?
    ensures Settles(env, l, p) ==> refreshes == 0 && Conveys(l.r, p, p.first, l')
    ensures refreshes == 1 <==> Renewing(env, l.r, p)
    ensures Renewing(env, l.r, p) ==> Reenters(l.r, p, l')
    ensures Settles(env, l, p) && Heeds(l.r, p, p.first) ==>
              Follows(l.r, SocketLevel(l.r, p.ok, p.first), p.node, l')
  {
    refreshes := 0;
    if l.r.poll.status.Cancelled? || p.cancelled {
      l' := ProcessCancellation(env, Settle(l), p.again);
    } else {
      l', refreshes := CompletePoll(env, l, p);
    }
  }

  /** `ep_sock_handle_completion` of a live waitable handle. */
  method CompleteWaitable(env: Env, l: Step, p: Packet) returns (l': Step)
    requires l.r.poll.packets == 1 && l.out == [] && l.r.life.Attached? && !l.busy && l.base.orphaned && l.base.doubled
    requires l.r.id.kind.Waitable? && !env.closing
    ensures l'.base == l.base && !l'.busy && !l'.r.work.orphaned && !Doubled(l'.r)
    ensures l.r.poll.status.Cancelled? ==> Resumes(env, Settle(l).r, p.again, l', true)
    ensures Notifies(env, l.r) && p.node ==> l'.out != [] && l'.r.ready.pending == l.r.user.events * WAITABLE_BITS
    ensures Signals(env, l.r) ==> Shows(l.r, p, l')
  {
    assert !l.r.poll.status.Idle?;
    l' := Settle(l);
    if l.r.poll.status.Cancelled? {
      l' := ProcessCancellation(env, l', p.again);
    } else {
      l' := ProcessSignal(env, l', p);
    }
  }

  /** `ep_sock_handle_completion` for a packet the kernel owed. */
  method Complete(env: Env, l: Step, p: Packet) returns (l': Step, ghost refreshes: nat)
    requires l.r.poll.packets == 1 && l.out == [] && !l.r.life.Freed? && !l.busy && l.base.orphaned && l.base.doubled
    ensures l'.base == l.base && refreshes <= 1
    ensures l'.r.life.Attached? ==> !l'.busy
    ensures l.r.life.Detached? ==> l'.r.life.Freed?
    ensures l'.r.life.Attached? && !env.closing ==> (l'.r.work.orphaned <==> Orphans(l.r, p))
    ensures l'.r.life.Attached? ==> (Doubled(l'.r) <==> Crowds(env, l.r, p))
    ensures !env.closing && Orphans(l.r, p) ==> Quiet(l') && !Alive(l'.r)
    ensures !env.closing && l.r.life.Attached? && l.r.poll.status.Cancelled? ==>
              Resumes(env, Settle(l).r, p.again, l', true)
    ensures Completion(env, l, p, l', refreshes)
  {
    refreshes := 0;
    if l.r.life.Detached? {
      l' := Free(l);
    } else if env.closing {
      l' := Settle(l);
      l' := if Alive(l'.r) then Rest(l') else Orphan(l');
    } else if l.r.id.kind.Socket? {
      l', refreshes := CompleteSocket(env, l, p);
    } else {
      l' := CompleteWaitable(env, l, p);
    }
  }

  /** `ep_waitable_callback`: the armed wait fires once and posts a packet; a signal it consumes is owned. */
  method Callback(l: Step) returns (l': Step)
    requires l.r.poll.wait.Armed? && l.r.life.Attached? && l.out == []
    ensures l'.base == l.base && l'.out == [] && l'.busy == l.busy && l'.r.life.Attached?
    ensures l'.r.poll == l.r.poll.(wait := Fired, posted := true, packets := 1)
    ensures l'.r.ready.queued == l.r.ready.queued && (l'.r.ready.owned <==> Consumes(l.r.id.kind))
    ensures l'.r.log == if Consumes(l.r.id.kind) then Append(l.r.log, Signal) else l.r.log
  {
    l' := l.(r := l.r.(poll := l.r.poll.(wait := Fired, posted := true, packets := 1),
                       ready := if Consumes(l.r.id.kind) then l.r.ready.(owned := true) else l.r.ready,
                       log := if Consumes(l.r.id.kind) then Append(l.r.log, Signal) else l.r.log));
  }

  // ------------------------------------------------------- control operations

  /** What a control operation does with a pending request: keep it when it covers the new mask, else cancel. */
  function Covers(l: Local, mask: AfdMask, keepWaitable: bool, force: bool): bool {
    && l.r.poll.status.Pending?
    && if l.r.id.kind.Waitable? then keepWaitable else !force && l.r.shutdown == {} && mask <= l.r.poll.afd
  }

  /** The request in flight watches all of the interest, and no local shutdown waits to be reported. */
  predicate Covered(r: Reg) {
    AfdEvents(r) <= r.poll.afd && r.shutdown == {}
  }

  predicate Reconfigurable(r: Reg, u: User) {
    && !r.user.exclusive && !u.exclusive
    && !(r.id.kind.Waitable? && r.id.kind.semantics.EdgeUnsupported? && u.et && u.events * WAITABLE_BITS != {})
    && !(r.id.explicitPort && u.et && !r.id.kind.Socket?)
  }

  /** The registration holds a consumed notification in a ready node. */
  predicate NodeOwns(r: Reg) {
    r.ready.queued && Consumes(r.id.kind) && !(r.ready.pending <= TERMINAL_BITS)
  }

  /** Discard the latch, the queued node and the one-shot state under a fresh generation, for a MOD or a rearm; a
      notification held by the node is kept. */
  function Clear(l: Step, u: User, log: Log): Step
    requires l.r.life.Attached? && l.out == [] && UserFits(l.r.id, u)
    requires LogFits(log, u) && log.tally.edges == log.tally.node == {}
    requires log.tally.signals == l.r.log.tally.signals && log.tally.returned == l.r.log.tally.returned
    requires log.tally.roused == l.r.log.tally.roused
    requires Explicit(l.r.id, u) ==> log.tally.unacked <= l.r.ready.disarmed
  {
    assert l.r.ready.queued && Consumes(l.r.id.kind) ==> NodeOwns(l.r);
    l.(r := l.r.(user := u,
                 ready := Ready({}, {}, l.r.ready.disarmed, false, l.r.ready.owned || NodeOwns(l.r)),
                 work := l.r.work.(fired := false, holdoff := false, parked := false),
                 generation := l.nextGeneration + 1,
                 log := log),
       nextGeneration := l.nextGeneration + 1, busy := true, base := Rebase(l, u))
  }

  function Rebase(l: Local, u: User): Base {
    l.base.(kept := l.base.kept.(user := u))
  }

  /** Every class may be reported again. */
  function ArmAll(l: Step): Step
    requires l.r.life.Attached? && !l.r.ready.queued && !l.r.work.fired && l.r.log.tally.unacked == {}
  {
    l.(r := l.r.(ready := l.r.ready.(disarmed := {})), busy := true)
  }

  /** Leave a registration polled, or for the next wait to rearm, or with nothing to watch. */
  function Await(l: Step, rearm: bool): Step
    requires l.r.life.Attached?
    requires rearm ==> l.r.work.rearm || (!l.r.work.fired && (l.r.work.lost || !l.r.poll.status.Pending?))
    requires rearm || l.r.poll.status.Pending? || l.r.work.fired || Dormant(l.r) || Silent(l.r)
  {
    l.(r := l.r.(work := l.r.work.(rearm := rearm, orphaned := false)), busy := false)
  }

  /** MOD re-issues the node of a consumed notification under the new interest. */
  function Replace(l: Step, u: User): Step
    requires l.r.life.Attached? && l.out == [] && !u.exclusive && UserFits(l.r.id, u) && NodeOwns(l.r)
    requires u.events * WAITABLE_BITS != {}
  {
    var interest := u.events * WAITABLE_BITS;
    assert !(interest <= TERMINAL_BITS) by {
      var b :| b in interest;
      assert b !in TERMINAL_BITS;
    }
    var r' := l.r.(user := u,
                   ready := Ready(interest, if u.et then interest else {}, {}, true, l.r.ready.owned),
                   work := Work(false, u.oneshot, false, false, l.r.work.lost, false),
                   generation := l.nextGeneration + 1,
                   log := Append(l.r.log, Configured(u.data, u.ctx)));
    l.(r := r', nextGeneration := l.nextGeneration + 1, out := [NodeOf(r')], busy := false, base := Rebase(l, u))
  }

  /** The field updates of `ep_port_modify` between cancellation and submission. */
  function Reconfigure(l: Step, u: User, covered: bool): Step
    requires l.r.life.Attached? && l.out == [] && !u.exclusive && UserFits(l.r.id, u)
    requires covered || l.r.work.lost || !l.r.poll.status.Pending?
    requires covered ==> l.r.poll.status.Pending?
  {
    if NodeOwns(l.r) && u.events * WAITABLE_BITS != {} then Replace(l, u)
    else
      var dormant := l.r.id.kind.Waitable? && u.events * WAITABLE_BITS == {};
      var log := Append(l.r.log, Configured(u.data, u.ctx));
      Await(ArmAll(Clear(l, u, log)), !dormant && (covered ==> l.r.work.rearm))
  }

  /** MOD re-issued a queued notification: one node with the new interest, data and context, which fires the one-shot
      again if the new configuration asks for it. */
  predicate Reissued(u: User, out: seq<Node>, r': Reg) {
    var interest := u.events * WAITABLE_BITS;
    && out == [Node(r'.id.fd, r'.generation, interest, u.data, u.ctx, u.et, u.oneshot)]
    && r'.life.Attached? && r'.user == u && r'.ready.queued && r'.ready.pending == interest && !r'.ready.owned
    && r'.ready.observed == (if u.et then interest else {})
    && r'.work.fired == u.oneshot && !r'.work.rearm && !r'.work.holdoff && !r'.work.parked
  }

  /** MOD started a new observation: nothing is queued, latched, disarmed or parked, a notification that was queued is
      owned, and the next wait is to rearm the registration unless it has a request that will do, or no interest. */
  predicate Anew(r: Reg, u: User, covered: bool, r': Reg) {
    && r'.life.Attached? && r'.user == u && r'.poll == r.poll && r'.shutdown == r.shutdown
    && r'.ready == Ready({}, {}, {}, false, r.ready.owned || NodeOwns(r))
    && !r'.work.fired && !r'.work.holdoff && !r'.work.parked && !r'.work.orphaned
    && (r'.work.rearm <==> (covered ==> r.work.rearm) && !Dormant(r'))
  }

  /** The two ways in which MOD changes a registration, field by field. */
  lemma ReconfiguredAs(l: Step, u: User, covered: bool)
    requires l.r.life.Attached? && l.out == [] && !u.exclusive && UserFits(l.r.id, u)
    requires covered || l.r.work.lost || !l.r.poll.status.Pending?
    requires covered ==> l.r.poll.status.Pending?
    ensures var l' := Reconfigure(l, u, covered);
            if NodeOwns(l.r) && u.events * WAITABLE_BITS != {} then Reissued(u, l'.out, l'.r)
            else l'.out == [] && Anew(l.r, u, covered, l'.r)
  {
  }

  /** Everything a control operation saves before it prepares a submission. */
  predicate Prepared(l0: Local, l1: Local) {
    && l1 == l0.(r := l1.r, nextGeneration := l1.nextGeneration, out := l1.out, busy := l1.busy,
                 base := Rebase(l0, l1.r.user))
    && l0.nextGeneration <= l1.nextGeneration
    && l1.r == l0.r.(user := l1.r.user, ready := l1.r.ready, work := l1.r.work, generation := l1.r.generation,
                     log := l1.r.log)
    && l1.r.work.lost == l0.r.work.lost
  }

  /** Put the saved fields back after a submission failed. */
  function Restore(r: Reg, saved: Reg): Reg {
    r.(user := saved.user, ready := saved.ready, generation := saved.generation, log := saved.log,
       work := r.work.(rearm := saved.work.rearm, fired := saved.work.fired, holdoff := saved.work.holdoff,
                       parked := saved.work.parked, orphaned := saved.work.orphaned))
  }

  function SkipGenerations(l: Step, nextGeneration: nat): Step
    requires l.nextGeneration <= nextGeneration
  {
    l.(nextGeneration := nextGeneration)
  }

  /** Submit what a control operation prepared from `l0`, and undo the preparation if that fails. */
  method SubmitOrRestore(env: Env, l0: Step, l1: Step, a: Answer) returns (l': Step, ok: bool)
    requires Prepared(l0, l1) && l0.r.life.Attached? && l0.out == [] && !l0.busy && !l1.busy
    requires l1.out == [] || l1.r.ready.queued
    ensures l'.base == Rebase(l0, l'.r.user) && !l'.busy
    ensures !ok && l'.r.life.Attached? ==> l'.r == l0.r && l'.out == []
    ensures ok ==> l'.r.user == l1.r.user && l'.r.life.Attached?
    ensures !l'.r.life.Attached? ==> l'.r.user == l1.r.user
    ensures ok && l'.out == [] ==> Undelivered(l1.r, l'.r)
    ensures l1.out == [] ==> Resumes(env, l1.r, a, l', ok)
    ensures l1.r.ready.queued ==> ok && l' == l1
    ensures ok ==> Opens(l1.r, a, l'.r)
  {
    var l2, result, now := Submit(env, l1, a, false);
    if result.Failed? {
      assert Restore(l2.r, l0.r) == l0.r;
      l', ok := SkipGenerations(l0, l2.nextGeneration), false;
    } else {
      l', ok := l2, result.Done?;
    }
  }

  /** What MOD does with a queued notification: it is re-issued, or owned until interest is restored. */
  predicate Transfers(r: Reg, u: User, out: seq<Node>, r': Reg) {
    if u.events * WAITABLE_BITS != {} then Reissued(u, out, r')
    else out == [] && Anew(r, u, false, r') && r'.ready.owned && !r'.work.rearm
  }

  /** The second half of `ep_port_modify`: install the configuration, submit when idle, roll back on failure. */
  method Install(env: Env, l: Step, u: User, covered: bool, a: Answer) returns (l': Step, ok: bool)
    requires l.r.life.Attached? && l.out == [] && !u.exclusive && UserFits(l.r.id, u)
    requires covered || l.r.work.lost || !l.r.poll.status.Pending?
    requires covered ==> l.r.poll.status.Pending?
    requires l.busy ==> !l.r.poll.status.Idle? || (l.r.id.kind.Waitable? && u.events * WAITABLE_BITS == {})
    ensures l'.base == Rebase(l, l'.r.user) && !l'.busy
    ensures ok ==> l'.r.user == u && l'.r.life.Attached?
    ensures !ok && l'.r.life.Attached? ==> l'.out == [] && l'.r == l.r
    ensures !l.r.poll.status.Idle? ==> ok && l' == Reconfigure(l, u, covered)
    ensures l.r.id.kind.Waitable? && u.events * WAITABLE_BITS == {} ==> ok
    ensures env.submits && l.r.poll.status.Idle? ==> Resumes(env, Reconfigure(l, u, covered).r, a, l', ok)
    ensures NodeOwns(l.r) ==> ok && Transfers(l.r, u, l'.out, l'.r)
    ensures !env.submits && Rests(l.r) ==> Rests(l'.r) && l'.out == []
  {
    var dormant := l.r.id.kind.Waitable? && u.events * WAITABLE_BITS == {};
    l', ok := Reconfigure(l, u, covered), true;
    ReconfiguredAs(l, u, covered);
    if !dormant && env.submits && l.r.poll.status.Idle? {
      l', ok := SubmitOrRestore(env, l, l', a);
    }
  }

  /** The configuration is new, and the request is kept when it covers the new interest, or else cancelled. */
  ghost predicate Adapted(l: Step, u: User, cancel: Cancel, l': Step, ok: bool)
    requires l.r.life.Attached? && l.out == [] && l.r.id.kind.Socket? && l.r.poll.status.Pending? && !u.exclusive
  {
    if Covers(l, AfdEventsFor(l.r.id.kind, u.events, false, {}), true, false)
    then ok && l' == Reconfigure(l, u, true)
    else ok == !cancel.CancelFailed? && (ok ==> l' == Reconfigure(CancelPoll(l, cancel).0, u, false))
  }

  /** MOD of a socket with a request in flight. */
  predicate Amends(r: Reg, u: User) {
    Reconfigurable(r, u) && r.poll.status.Pending? && r.id.kind.Socket?
  }

  /** The request stays as it is when it covers the new interest, and also when its cancellation loses; in the second
      case the next wait is to rearm the registration besides. */
  predicate Retained(r: Reg, u: User, cancel: Cancel, r': Reg) {
    var covers := r.shutdown == {} && AfdEventsFor(r.id.kind, u.events, false, {}) <= r.poll.afd;
    covers || cancel.Lost? ==>
      && r'.life.Attached? && r'.poll == r.poll && r'.user == u && !r'.work.parked && !r'.work.fired
      && r'.id == r.id && r'.shutdown == r.shutdown && r'.ready.disarmed == {}
      && r'.work.rearm == (covers ==> r.work.rearm)
  }

  /** `ep_port_modify` with a socket request in flight: it is kept exactly when it covers the new interest. */
  method ModifyInFlight(l: Step, u: User, cancel: Cancel) returns (l': Step, ok: bool)
    requires l.r.life.Attached? && l.out == [] && !l.busy && !u.exclusive
    requires l.r.id.kind.Socket? && l.r.poll.status.Pending?
    ensures l'.base == Rebase(l, l'.r.user) && !l'.busy && l'.r.life.Attached?
    ensures Adapted(l, u, cancel, l', ok) && Retained(l.r, u, cancel, l'.r)
    ensures ok ==> l'.r.user == u && l'.out == []
    ensures !ok ==> l'.out == [] && l'.r == l.r.(work := l.r.work.(lost := l'.r.work.lost))
    ensures ok && cancel.Won? && l'.r.poll.status.Pending? ==> Covered(l'.r)
  {
    if Covers(l, AfdEventsFor(l.r.id.kind, u.events, false, {}), true, false) {
      l', ok := Reconfigure(l, u, true), true;
    } else {
      l', ok := CancelPoll(l, cancel).0, !cancel.CancelFailed?;
      if ok {
        l' := Reconfigure(l', u, false);
      }
    }
  }

  /** `ep_port_modify` of an idle or a waitable registration. */
  method ModifySettled(env: Env, l: Step, u: User, cancel: Cancel, node: bool, a: Answer) returns (l': Step, ok: bool)
    requires l.r.life.Attached? && l.out == [] && !l.busy && Reconfigurable(l.r, u)
    requires !(l.r.id.kind.Socket? && l.r.poll.status.Pending?)
    ensures l'.base == Rebase(l, l'.r.user) && !l'.busy
    ensures ok ==> l'.r.user == u && l'.r.life.Attached?
    ensures !ok && l'.r.life.Attached? ==> l'.out == [] && l'.r == l.r
    ensures l.r.poll.status.Idle? && (NodeOwns(l.r) ==> node) && env.submits ==>
              Resumes(env, Reconfigure(l, u, false).r, a, l', ok)
    ensures NodeOwns(l.r) ==> (ok <==> node || u.events * WAITABLE_BITS == {}) && (ok ==> Transfers(l.r, u, l'.out, l'.r))
    ensures !env.submits && Rests(l.r) ==> Rests(l'.r) && l'.out == []
  {
    var dormant := l.r.id.kind.Waitable? && u.events * WAITABLE_BITS == {};
    if NodeOwns(l.r) && !dormant && !node {
      return l, false;
    }
    if !l.r.poll.status.Pending? {
      l', ok := Install(env, l, u, false, a);
    } else if dormant {
      l', ok := Install(env, CancelPoll(l, cancel).0, u, false, a);
    } else {
      l', ok := Install(env, l, u, true, a);
    }
  }

  /** `ep_port_modify`: a failed call changes nothing the caller can see. */
  method Modify(env: Env, l: Step, u: User, cancel: Cancel, node: bool, a: Answer) returns (l': Step, ok: bool)
    requires l.r.life.Attached? && l.out == [] && !l.busy
    ensures l'.base == Rebase(l, l'.r.user) && !l'.busy
    ensures ok ==> l'.r.user == u && l'.r.life.Attached?
    ensures !ok && l'.r.life.Attached? ==> l'.out == [] && l'.r == l.r.(work := l.r.work.(lost := l'.r.work.lost))
    ensures Amends(l.r, u) ==> Adapted(l, u, cancel, l', ok) && Retained(l.r, u, cancel, l'.r)
    ensures Amends(l.r, u) ==> l'.r.life.Attached? && l'.out == []
    ensures Reconfigurable(l.r, u) && l.r.poll.status.Idle? && (NodeOwns(l.r) ==> node) && env.submits ==>
              Resumes(env, Reconfigure(l, u, false).r, a, l', ok)
    ensures NodeOwns(l.r) ==> (ok <==> Reconfigurable(l.r, u) && (node || u.events * WAITABLE_BITS == {}))
    ensures NodeOwns(l.r) && ok ==> Transfers(l.r, u, l'.out, l'.r)
    ensures !env.submits && Rests(l.r) ==> Rests(l'.r) && l'.out == []
  {
    if !Reconfigurable(l.r, u) {
      return l, false;
    }
    if Amends(l.r, u) {
      l', ok := ModifyInFlight(l, u, cancel);
    } else {
      l', ok := ModifySettled(env, l, u, cancel, node, a);
    }
  }

  /** DEL and a failed ADD retire the generation with the registration. */
  function Detach(l: Step): Step
    requires l.r.life.Attached? && l.out == [] && !l.r.poll.wait.Armed?
  {
    l.(r := l.r.(life := if l.r.poll.status.Idle? then Freed else Detached, generation := l.nextGeneration + 1,
                 work := l.r.work.(rearm := false)),
       nextGeneration := l.nextGeneration + 1)
  }

  /** The registration is no longer live; its storage outlives it exactly while a packet is owed, and the request is
      cancelled where that is up to the library. */
  predicate Leaves(l: Local, cancel: Cancel, l': Local) {
    && l'.base == l.base && l'.out == [] && !l'.r.life.Attached? && l'.r.poll.packets == l.r.poll.packets
    && (l'.r.life.Freed? <==> l.r.poll.packets == 0)
    && (l'.r.life.Detached? && (cancel.Won? || l.r.id.kind.Waitable?) ==> l'.r.poll.status.Cancelled?)
  }

  /** `ep_port_unregister` */
  method Unregister(l: Step, cancel: Cancel) returns (l': Step)
    requires l.r.life.Attached? && l.out == []
    ensures Leaves(l, cancel, l') && l'.r.generation > l.r.generation && !l'.r.work.rearm
  {
    l' := Detach(CancelPoll(l, cancel).0);
  }

  /** The per-registration part of the port teardown. */
  method Abandon(l: Step, cancel: Cancel) returns (l': Step)
    requires l.r.life.Attached? && l.out == []
    ensures Leaves(l, cancel, l') && !l'.r.work.rearm && !l'.r.work.fired
  {
    l' := CancelPoll(l, cancel).0;
    l' := l'.(r := l'.r.(life := if l'.r.poll.status.Idle? then Freed else Detached,
                         work := l'.r.work.(rearm := false, fired := false)));
  }

  function SetShutdown(l: Step, shutdown: set<Direction>): Step {
    l.(r := l.r.(shutdown := shutdown), base := l.base.(kept := l.base.kept.(shutdown := shutdown)))
  }

  /** The history says that a registration at rest was queued by a local shutdown; nothing was returned. */
  predicate NotesRoused(log: Log, log': Log) {
    && |log.history| < |log'.history| && log.history <= log'.history && log'.history[|log'.history| - 1] == Roused
    && (forall k :: |log.history| <= k < |log'.history| - 1 ==> log'.history[k].Told?)
    && log'.tally.returned == log.tally.returned && log'.tally.roused == log.tally.roused + 1
  }

  method NoteRoused(l: Step) returns (l': Step)
    ensures l' == l.(r := l.r.(log := l'.r.log), base := l.base.(kept := KeptOf(l'.r)))
    ensures l'.r.log == Append(l.r.log, Roused)
  {
    var log := LogRoused(l.r.log);
    l' := l.(r := l.r.(log := log), base := l.base.(kept := l.base.kept.(roused := l.base.kept.roused + 1)));
  }

  method LogRoused(log: Log) returns (log': Log)
    ensures log' == Append(log, Roused) && log'.tally == log.tally.(roused := log.tally.roused + 1)
    ensures log.tally == Sum(log.history) ==> log'.tally == Sum(log'.history)
  {
    log' := Append(log, Roused);
  }

  /** `ep_port_shutdown_socket` on a registered handle; `native` is the Winsock result. */
  method Shutdown(l: Step, mask: set<Direction>, node: bool, native: bool, cancel: Cancel, a: Answer)
    returns (l': Step, ok: bool)
    requires l.r.life.Attached? && l.out == [] && !l.busy
    ensures l'.base == l.base.(kept := KeptOf(l'.r)) && l'.r.life.Attached? && l'.r.user == l.r.user && !l'.busy
    ensures !(Rests(l.r) && Tells(l.r, mask, node, native, a)) ==> Sampled(l.r.log, l'.r.log)
    ensures ok <==> Shuts(l.r, mask, node, native, cancel)
    ensures ok ==> l'.r.shutdown == if l.r.id.kind.protocol.Tcp? then l.r.shutdown + mask else l.r.shutdown
    ensures l'.r.poll.status.Pending? && l'.r.work.rearm && !(l.r.poll.status.Pending? && l.r.work.rearm) ==>
              l'.r.work.lost
    ensures ok && (l'.r.shutdown != l.r.shutdown || (l.r.work.rearm && l.r.id.kind.protocol.Tcp?)) ==>
              ShutdownTold(l.r.(shutdown := l'.r.shutdown), cancel, a, l')
    ensures Rests(l.r) ==> if Tells(l.r, mask, node, native, a) then ok && l'.out != [] && Rouses(l.r, mask, a, l'.r)
                           else Rests(l'.r) && l'.out == []
    ensures l.r.ready.queued && Tells(l.r, mask, node, native, a) ==>
              ok && l'.out != [] && Publishes(l.r.(shutdown := l.r.shutdown + mask), a, l'.r)
  {
    l', ok := l, false;
    if l.r.id.kind.Socket? {
      var tcp := l.r.id.kind.protocol.Tcp?;
      var changed := tcp && l.r.shutdown + mask != l.r.shutdown;
      var publish := tcp && (changed || l.r.work.rearm);
      var reserve := publish && (l.r.poll.status.Idle? || l.r.ready.queued) && (l.r.ready.queued || !l.r.work.fired);
      if !((reserve && !node) || ((!tcp || changed) && !native)) {
        ok := true;
        if publish {
          l', ok := RecordShutdown(l, mask, reserve, cancel, a);
        }
      }
    }
  }

  /** The call succeeds: the system shut the socket down if there was anything new to shut down, there is a node for
      what is to be reported, and the request in flight does not resist its cancellation. */
  predicate Shuts(r: Reg, mask: set<Direction>, node: bool, native: bool, cancel: Cancel) {
    var tcp := r.id.kind.Socket? && r.id.kind.protocol.Tcp?;
    var changed := tcp && !(mask <= r.shutdown);
    var publish := tcp && (changed || r.work.rearm);
    && r.id.kind.Socket? && ((tcp && !changed) || native)
    && (publish && r.poll.status.Idle? && (r.ready.queued || !r.work.fired) ==> node)
    && (publish && r.poll.status.Pending? ==> !cancel.CancelFailed?)
  }

  /** The directions are recorded, and told. */
  method RecordShutdown(l: Step, mask: set<Direction>, reserve: bool, cancel: Cancel, a: Answer)
    returns (l': Step, ok: bool)
    requires l.r.life.Attached? && l.out == [] && l.r.id.kind.Socket? && !l.busy
    requires l.r.poll.status.Idle? && (l.r.ready.queued || !l.r.work.fired) ==> reserve
    ensures l'.base == l.base.(kept := KeptOf(l'.r)) && l'.r.life.Attached? && !l'.busy
    ensures l'.r.user == l.r.user && l'.r.shutdown == l.r.shutdown + mask
    ensures l'.r.poll.status.Pending? && l'.r.work.rearm ==> l.r.work.rearm || l'.r.work.lost
    ensures ok <==> !(l.r.poll.status.Pending? && cancel.CancelFailed?)
    ensures l'.r.poll.status.Pending? ==> l.r.poll.status.Pending?
    ensures ShutdownTold(l.r.(shutdown := l.r.shutdown + mask), cancel, a, l')
    ensures !Rests(l.r) ==> Sampled(l.r.log, l'.r.log)
    ensures Rests(l.r) ==> ok && if l'.out != [] then l'.r.ready.queued && NotesRoused(l.r.log, l'.r.log)
                                 else Rests(l'.r) && Sampled(l.r.log, l'.r.log)
    ensures l.r.ready.queued && l'.out != [] ==> ok && Publishes(l.r.(shutdown := l.r.shutdown + mask), a, l'.r)
  {
    l', ok := TellShutdown(SetShutdown(l, l.r.shutdown + mask), reserve, cancel, a);
  }

  /** A local shutdown of a resting registration is reported at once. */
  predicate Tells(r: Reg, mask: set<Direction>, node: bool, native: bool, a: Answer) {
    && r.id.kind.Socket? && r.id.kind.protocol.Tcp? && node
    && var r' := r.(shutdown := r.shutdown + mask);
       && (if r'.shutdown != r.shutdown then native else r.work.rearm)
       && HasShutdownNews(r', a.level) && NewsGranted(r', a) != {}
  }

  /** It is queued with the granted news, and the history says so. */
  predicate Rouses(r: Reg, mask: set<Direction>, a: Answer, r': Reg) {
    && r'.life.Attached? && r'.ready.queued && r'.id == r.id && r'.user == r.user
    && r'.ready.pending == NewsGranted(r.(shutdown := r.shutdown + mask), a) && NotesRoused(r.log, r'.log)
  }

  /** The shutdown is reported at once, or the request in flight is cancelled and submitted anew. */
  predicate ShutdownTold(r: Reg, cancel: Cancel, a: Answer, l': Local) {
    && (r.poll.status.Pending? && cancel.Won? ==> l'.r.poll.status.Cancelled? && l'.r.work.rearm)
    && (r.poll.status.Idle? ==>
          (l'.out != [] <==> HasShutdownNews(r, a.level) && NewsGranted(r, a) != {}) &&
          (l'.out != [] ==> l'.r.ready.pending == NewsGranted(r, a)))
  }

  /** Cancel the request in flight, or report the shutdown of an idle socket now.  The source requests the rearm
      before it cancels, and keeps the request whatever the cancellation does. */
  method PublishShutdown(l: Step, reserve: bool, cancel: Cancel, a: Answer) returns (l': Step, ok: bool)
    requires l.r.life.Attached? && l.out == [] && l.r.id.kind.Socket? && !l.busy
    requires l.r.poll.status.Idle? && (l.r.ready.queued || !l.r.work.fired) ==> reserve
    ensures l'.base == l.base && l'.r.life.Attached? && l'.r.user == l.r.user && l'.r.shutdown == l.r.shutdown && !l'.busy
    ensures l.r.poll.status.Pending? && cancel.Lost? ==> ok && l'.r.poll == l.r.poll && l'.r.work.rearm && l'.r.work.lost
    ensures ShutdownTold(l.r, cancel, a, l') && Sampled(l.r.log, l'.r.log)
    ensures l.r.poll.status.Idle? ==> ok && l'.r.poll == l.r.poll
    ensures l.r.poll.status.Idle? && l'.out != [] ==> Publishes(l.r, a, l'.r)
    ensures l.r.poll.status.Idle? ==> l'.r.ready.queued == (l.r.ready.queued || l'.out != [])
    ensures l'.r.poll.status.Pending? && l'.r.work.rearm ==> l.r.work.rearm || l'.r.work.lost
    ensures ok <==> !(l.r.poll.status.Pending? && cancel.CancelFailed?)
    ensures l'.r.poll.status.Pending? ==> l.r.poll.status.Pending?
  {
    if l.r.poll.status.Pending? {
      var (l0, cancelled) := CancelPoll(l, cancel);
      l', ok := SetRearm(l0), cancelled;
    } else if l.r.poll.status.Idle? {
      var r;
      l', r := QueueShutdown(l, reserve, a);
      assert !r.NoMemory?;
      ok := true;
    } else {
      l', ok := l, true;
    }
  }

  lemma SampledThenRoused(log: Log, log': Log)
    requires Sampled(log, log')
    ensures NotesRoused(log, Append(log', Roused))
  {
    var h := Append(log', Roused).history;
    assert h[..|log.history|] == log'.history[..|log.history|];
    assert forall k :: |log.history| <= k < |log'.history| ==> h[k] == log'.history[k];
  }

  /** The same, and the history of a registration that rested says whether it was queued. */
  method TellShutdown(l: Step, reserve: bool, cancel: Cancel, a: Answer) returns (l': Step, ok: bool)
    requires l.r.life.Attached? && l.out == [] && l.r.id.kind.Socket? && !l.busy
    requires l.r.poll.status.Idle? && (l.r.ready.queued || !l.r.work.fired) ==> reserve
    ensures l'.base == l.base.(kept := KeptOf(l'.r)) && l'.r.life.Attached? && !l'.busy
    ensures l'.r.user == l.r.user && l'.r.shutdown == l.r.shutdown
    ensures l'.r.poll.status.Pending? && l'.r.work.rearm ==> l.r.work.rearm || l'.r.work.lost
    ensures ok <==> !(l.r.poll.status.Pending? && cancel.CancelFailed?)
    ensures l'.r.poll.status.Pending? ==> l.r.poll.status.Pending?
    ensures ShutdownTold(l.r, cancel, a, l')
    ensures !Rests(l.r) ==> Sampled(l.r.log, l'.r.log)
    ensures Rests(l.r) ==> ok && if l'.out != [] then l'.r.ready.queued && NotesRoused(l.r.log, l'.r.log)
                                 else Rests(l'.r) && Sampled(l.r.log, l'.r.log)
    ensures l.r.ready.queued && l'.out != [] ==> ok && Publishes(l.r, a, l'.r)
  {
    l', ok := PublishShutdown(l, reserve, cancel, a);
    if Rests(l.r) && l'.r.ready.queued {
      SampledThenRoused(l.r.log, l'.r.log);
      l' := NoteRoused(l');
    }
  }

  /** The native mask with other parked and disarmed state. */
  function Watches(r: Reg, parked: bool, disarmed: Classes): AfdMask {
    AfdEventsFor(r.id.kind, r.user.events, parked, disarmed)
  }

  /** The acknowledgement as such. */
  function NoteAck(l: Step, classes: Classes): Step
    requires l.r.life.Attached? && !l.r.ready.queued && l.out == [] && Explicit(l.r.id, l.r.user)
  {
    FilterClasses(l.r.log.tally.edges, classes);
    l.(r := l.r.(log := Append(l.r.log, Acked(classes))))
  }

  /** Arm acknowledged classes again. */
  function Uncover(l: Step, classes: Classes): Step
    requires l.r.life.Attached? && !l.r.ready.queued && l.out == []
    requires classes !! l.r.log.tally.unacked && (l.r.work.fired ==> l.r.ready.disarmed - classes != {})
  {
    l.(r := l.r.(ready := l.r.ready.(disarmed := l.r.ready.disarmed - classes)), busy := true)
  }

  /** Acknowledge some classes of a registration that stays armed, or stays fired. */
  method Acknowledge(l: Step, classes: Classes, parked: bool, rearm: bool) returns (l': Step)
    requires l.r.life.Attached? && !l.r.ready.queued && l.out == [] && Explicit(l.r.id, l.r.user)
    requires l.r.work.fired ==> l.r.ready.disarmed - classes != {}
    requires rearm ==> l.r.work.rearm || (!l.r.work.fired && (l.r.work.lost || !l.r.poll.status.Pending?))
    requires || rearm || l.r.poll.status.Pending? || l.r.work.fired
             || Watches(l.r, parked, l.r.ready.disarmed - classes) == {}
    ensures !l'.busy
    ensures Prepared(l, l') && l'.out == [] && l'.r.user == l.r.user && l'.r.life.Attached? && !l'.r.ready.queued
    ensures l'.r.work.fired == l.r.work.fired && l'.r.ready.disarmed == l.r.ready.disarmed - classes
    ensures l'.r.work.parked == parked && ClassesOf(l'.r.ready.observed) == ClassesOf(l.r.ready.observed) - classes
    ensures l'.r.ready.observed == Filter(l.r.ready.observed, classes)
    ensures l'.r.work.rearm == rearm && !l'.r.work.holdoff
    ensures l'.r.log.history == l.r.log.history + [Acked(classes)]
  {
    FilterClasses(l.r.ready.observed, classes);
    FilterMonotone(l.r.log.tally.edges, l.r.ready.observed, classes);
    l' := Uncover(NoteAck(l, classes), classes);
    l' := SetHoldoff(SetParked(SetObserved(l', Filter(l.r.ready.observed, classes)), parked), false);
    l' := Await(l', rearm);
  }

  /** The registration with these classes acknowledged, and to be rearmed. */
  function Unmuted(r: Reg, classes: Classes, parked: bool): Reg {
    r.(ready := r.ready.(disarmed := r.ready.disarmed - classes, observed := Filter(r.ready.observed, classes)),
       work := r.work.(rearm := true, holdoff := false, parked := parked))
  }

  /** A fired one-shot enabled again, with every class armed and nothing latched. */
  function Revived(r: Reg): Reg {
    r.(ready := r.ready.(pending := {}, observed := {}, disarmed := {}),
       work := r.work.(rearm := true, fired := false, holdoff := false, parked := false))
  }

  /** What is left of a parked datagram: a read or terminal acknowledgement lets it count again. */
  predicate StaysParked(r: Reg, classes: Classes) {
    r.work.parked && classes * {Read, Terminal} == {}
  }

  /** The registration that an acknowledgement leaves to be polled. */
  function Acknowledged(r: Reg, classes: Classes): Reg {
    if r.work.fired then Revived(r) else Unmuted(r, classes, StaysParked(r, classes))
  }

  /** The acknowledgement changes something, and does not leave a one-shot partly acknowledged. */
  predicate Reopens(r: Reg, classes: Classes) {
    && r.poll.status.Idle? && !r.ready.queued && r.ready.disarmed * classes != {}
    && (r.work.fired ==> r.ready.disarmed <= classes)
  }

  /** A fired one-shot with nothing left to acknowledge starts over under a fresh generation. */
  function Revive(l: Step, rearm: bool): Step
    requires l.r.life.Attached? && !l.r.ready.queued && l.out == [] && l.r.work.fired && l.r.log.tally.unacked == {}
    requires Explicit(l.r.id, l.r.user) && (rearm || Watches(l.r, false, {}) == {})
  {
    l.(r := l.r.(ready := l.r.ready.(pending := {}, observed := {}, disarmed := {}),
                 work := Work(rearm, false, false, false, l.r.work.lost, false),
                 generation := l.nextGeneration + 1,
                 log := Append(l.r.log, Renewed)),
       nextGeneration := l.nextGeneration + 1, busy := false)
  }

  /** Acknowledge the last classes of a fired one-shot. */
  function Renew(l: Step, classes: Classes, rearm: bool): Step
    requires l.r.life.Attached? && !l.r.ready.queued && l.out == []
    requires l.r.work.fired && l.r.ready.disarmed - classes == {}
    requires Explicit(l.r.id, l.r.user) && (rearm || Watches(l.r, false, {}) == {})
  {
    Revive(NoteAck(l, classes), rearm)
  }

  /** Submit the acknowledged registration when it is idle and something is to be watched. */
  method Reopen(env: Env, l0: Step, l1: Step, wanted: bool, a: Answer) returns (l': Step, ok: bool)
    requires Prepared(l0, l1) && l0.r.life.Attached? && l0.out == [] && l1.out == [] && !l0.busy && !l1.busy
    requires l1.r.user == l0.r.user
    ensures l'.base == l0.base && !l'.busy && (ok ==> l'.r.user == l1.r.user && l'.r.life.Attached?)
    ensures !ok && l'.r.life.Attached? ==> l'.r == l0.r && l'.out == []
    ensures !l0.r.poll.status.Idle? ==> ok
    ensures !env.submits ==> ok && l' == l1
    ensures ok && l'.out == [] ==> Undelivered(l1.r, l'.r)
    ensures wanted && env.submits ==> Resumes(env, l1.r, a, l', ok)
    ensures ok ==> Opens(l1.r, a, l'.r)
  {
    l', ok := l1, true;
    if l1.r.poll.status.Idle? && wanted && env.submits {
      l', ok := SubmitOrRestore(env, l0, l1, a);
    }
  }

  /** With a request in flight: it is kept or cancelled, and nothing is submitted. */
  method RewatchPending(l: Step, classes: Classes, parked: bool, mask: AfdMask, cancel: Cancel)
    returns (l': Step, ok: bool)
    requires l.r.life.Attached? && l.out == [] && !l.r.ready.queued && !l.r.work.fired && !l.busy
    requires Explicit(l.r.id, l.r.user) && mask == Watches(l.r, parked, l.r.ready.disarmed - classes)
    requires l.r.poll.status.Pending?
    ensures l'.base == l.base && !l'.busy && l'.r.life.Attached? && l'.out == [] && l'.r.user == l.r.user
    ensures !ok ==> l'.r == l.r.(work := l.r.work.(lost := l'.r.work.lost))
    ensures ok ==> l'.r.ready.disarmed == l.r.ready.disarmed - classes && l'.r.work.parked == parked
    ensures ok ==> l'.r.ready.observed == Filter(l.r.ready.observed, classes)
    ensures ok && cancel.Won? && l'.r.poll.status.Pending? ==> Covered(l'.r)
    ensures var kept := l.r.shutdown == {} && mask <= l.r.poll.afd;
            && (ok <==> kept || !cancel.CancelFailed?)
            && (kept || !cancel.Won? ==> l'.r.poll == l.r.poll) && (!kept && cancel.Won? ==> l'.r.poll.status.Cancelled?)
            && (ok ==> l'.r.work.rearm == if kept then l.r.work.rearm else mask != {} || l.r.shutdown != {})
  {
    if Covers(l, mask, false, false) {
      l' := Acknowledge(l, classes, parked, l.r.work.rearm);
      ok := true;
    } else {
      var (l0, cancelled) := CancelPoll(l, cancel);   // never idle afterwards
      l', ok := l0, cancelled;
      if ok {
        l' := Acknowledge(l0, classes, parked, mask != {} || l.r.shutdown != {});
      }
    }
  }

  /** Without one: it is submitted inside a wait if there is something to watch. */
  method RewatchIdle(env: Env, l: Step, classes: Classes, parked: bool, mask: AfdMask, a: Answer)
    returns (l': Step, ok: bool)
    requires l.r.life.Attached? && l.out == [] && !l.r.ready.queued && !l.r.work.fired && !l.busy
    requires Explicit(l.r.id, l.r.user) && mask == Watches(l.r, parked, l.r.ready.disarmed - classes)
    requires !l.r.poll.status.Pending?
    ensures l'.base == l.base && !l'.busy && (ok ==> l'.r.user == l.r.user && l'.r.life.Attached?)
    ensures !ok && l'.r.life.Attached? ==> l'.out == [] && l'.r == l.r
    ensures ok && l'.out == [] ==> l'.r.ready.disarmed == l.r.ready.disarmed - classes && l'.r.work.parked == parked
    ensures env.submits && l.r.poll.status.Idle? ==> Resumes(env, Unmuted(l.r, classes, parked), a, l', ok)
    ensures !env.submits ==> ok && l'.r.ready.observed == Filter(l.r.ready.observed, classes)
    ensures ok ==> Opens(Unmuted(l.r, classes, parked), a, l'.r)
    ensures !env.submits && Rests(l.r) ==> Rests(l'.r) && l'.out == []
  {
    var wanted := mask != {} || l.r.shutdown != {};
    var l1 := Acknowledge(l, classes, parked, wanted);
    l', ok := Reopen(env, l, l1, wanted, a);
    if env.submits && wanted {
      AlikeResumes(env, l1.r, Unmuted(l.r, classes, parked), a, l', ok);
    }
  }

  /** The part of `ep_sock_rearm_classes_locked` that may cancel or submit, for a registration that is not fired. */
  method Rewatch(env: Env, l: Step, classes: Classes, parked: bool, mask: AfdMask, cancel: Cancel, a: Answer)
    returns (l': Step, ok: bool)
    requires l.r.life.Attached? && l.out == [] && !l.r.ready.queued && !l.r.work.fired && !l.busy
    requires Explicit(l.r.id, l.r.user) && mask == Watches(l.r, parked, l.r.ready.disarmed - classes)
    ensures l'.base == l.base && !l'.busy && (ok ==> l'.r.user == l.r.user && l'.r.life.Attached?)
    ensures !ok && l'.r.life.Attached? ==> l'.out == [] && l'.r == l.r.(work := l.r.work.(lost := l'.r.work.lost))
    ensures ok && l'.out == [] ==> l'.r.ready.disarmed == l.r.ready.disarmed - classes && l'.r.work.parked == parked
    ensures ok && cancel.Won? && l.r.poll.status.Pending? && l'.r.poll.status.Pending? ==> Covered(l'.r)
    ensures env.submits && l.r.poll.status.Idle? ==> Resumes(env, Unmuted(l.r, classes, parked), a, l', ok)
    ensures ok && (l.r.poll.status.Pending? || !env.submits) ==>
              l'.r.ready.observed == Filter(l.r.ready.observed, classes)
    ensures ok ==> Opens(Unmuted(l.r, classes, parked), a, l'.r)
    ensures !env.submits && Rests(l.r) ==> Rests(l'.r) && l'.out == []
  {
    if l.r.poll.status.Pending? {
      l', ok := RewatchPending(l, classes, parked, mask, cancel);
    } else {
      l', ok := RewatchIdle(env, l, classes, parked, mask, a);
    }
  }

  /** The last classes of a fired one-shot: it starts over. */
  method RenewAll(env: Env, l: Step, classes: Classes, a: Answer) returns (l': Step, ok: bool)
    requires l.r.life.Attached? && l.out == [] && Explicit(l.r.id, l.r.user) && !l.busy && !l.r.ready.queued
    requires l.r.work.fired && l.r.ready.disarmed - classes == {}
    ensures l'.base == l.base && !l'.busy && (ok ==> l'.r.user == l.r.user && l'.r.life.Attached?)
    ensures !ok && l'.r.life.Attached? ==> l'.out == [] && l'.r == l.r
    ensures ok && l'.out == [] ==> l'.r.ready.disarmed == {} && !l'.r.work.parked
    ensures ok ==> !l'.r.work.fired || l'.out != []
    ensures env.submits ==> Resumes(env, Revived(l.r), a, l', ok)
    ensures !env.submits ==> ok && l'.r.ready == Revived(l.r).ready && l'.r.generation > l.r.generation
    ensures ok && l.r.shutdown == {} ==> Opens(Revived(l.r), a, l'.r)
    ensures !env.submits && Rests(l.r) ==> Rests(l'.r) && l'.out == []
  {
    var wanted := Watches(l.r, false, {}) != {} || l.r.shutdown != {};
    l', ok := Reopen(env, l, Renew(l, classes, wanted), wanted, a);
    if env.submits && wanted {
      AlikeResumes(env, Renew(l, classes, wanted).r, Revived(l.r), a, l', ok);
    }
  }

  /** `ep_sock_rearm_classes_locked` on an edge-triggered socket of an explicit-rearm port.  Acknowledging
      everything re-enables a fired one-shot: it is no longer fired, unless it fired again. */
  method RearmClasses(env: Env, l: Step, classes: Classes, cancel: Cancel, a: Answer) returns (l': Step, ok: bool)
    requires l.r.life.Attached? && l.out == [] && Explicit(l.r.id, l.r.user) && !l.busy
    ensures l'.base == l.base && !l'.busy && (ok ==> l'.r.user == l.r.user && l'.r.life.Attached?)
    ensures l.r.ready.queued ==> !ok && l' == l
    ensures !ok && l'.r.life.Attached? ==> l'.out == [] && l'.r == l.r.(work := l.r.work.(lost := l'.r.work.lost))
    ensures ok && l'.out == [] ==> l'.r.ready.disarmed == l.r.ready.disarmed - classes
    ensures ok && l'.out == [] && l.r.ready.disarmed * classes * {Read, Terminal} != {} ==> !l'.r.work.parked
    ensures ok && l.r.work.fired && l.r.ready.disarmed <= classes ==> !l'.r.work.fired || l'.out != []
    ensures !l.r.ready.queued && l.r.ready.disarmed * classes == {} ==> ok && l' == l
    ensures !l.r.ready.queued && l.r.work.fired && !(l.r.ready.disarmed <= classes) ==> ok && l'.r.work.fired
    ensures env.submits && Reopens(l.r, classes) ==> Resumes(env, Acknowledged(l.r, classes), a, l', ok)
    ensures ok && l.r.ready.disarmed * classes != {} && (l.r.work.fired ==> !(l.r.ready.disarmed <= classes)) &&
            (l.r.work.fired || l.r.poll.status.Pending? || !env.submits) ==>
              l'.r.ready.observed == Filter(l.r.ready.observed, classes)
    ensures ok && Reopens(l.r, classes) && !l.r.work.fired ==> Opens(Acknowledged(l.r, classes), a, l'.r)
    ensures !env.submits && Rests(l.r) ==> Rests(l'.r) && l'.out == []
  {
    var left := l.r.ready.disarmed - classes;
    Sets.Difference(l.r.ready.disarmed, classes);
    if l.r.ready.queued {
      return l, false;
    }
    if left == l.r.ready.disarmed {
      return l, true;
    }
    var whole := l.r.work.fired && left == {};
    var parked := l.r.work.parked && !whole && classes * {Read, Terminal} == {};
    if whole {
      l', ok := RenewAll(env, l, classes, a);
    } else if l.r.work.fired {
      l' := Acknowledge(l, classes, parked, l.r.work.rearm);
      ok := true;
    } else {
      l', ok := Rewatch(env, l, classes, parked, Watches(l.r, parked, left), cancel, a);
    }
  }

  /** The renewal of `ep_port_rearm`. */
  function Restart(l: Step): Step
    requires l.r.life.Attached? && l.out == [] && l.r.work.fired
  {
    SetRearm(Clear(l, l.r.user, Append(l.r.log, Renewed)))
  }

  /** A fired one-shot whose observation starts over; a notification in its queued node is owned again. */
  function Restarted(r: Reg): Reg {
    r.(ready := Ready({}, {}, r.ready.disarmed, false, r.ready.owned || NodeOwns(r)),
       work := r.work.(rearm := true, fired := false, holdoff := false, parked := false))
  }

  /** The registration that a rearm leaves to be polled. */
  function Rearmed(r: Reg, classes: Classes): Reg {
    if Explicit(r.id, r.user) then Acknowledged(r, classes) else Restarted(r)
  }

  /** The rearm changes something, and leaves the registration to be polled. */
  predicate Rearmable(r: Reg, classes: Classes, all: bool) {
    if Explicit(r.id, r.user) then Reopens(r, classes) else all && r.work.fired
  }

  /** `ep_port_rearm` */
  method Rearm(env: Env, l: Step, cancel: Cancel, a: Answer) returns (l': Step, ok: bool)
    requires l.r.life.Attached? && l.out == [] && !l.busy
    ensures l'.base == l.base && !l'.busy && (ok ==> l'.r.user == l.r.user && l'.r.life.Attached?)
    ensures !ok && l'.r.life.Attached? ==> l'.out == [] && l'.r == l.r.(work := l.r.work.(lost := l'.r.work.lost))
    ensures ok && l.r.work.fired ==> !l'.r.work.fired || l'.out != []
    ensures env.submits && Rearmable(l.r, ALL, true) ==> Resumes(env, Rearmed(l.r, ALL), a, l', ok)
    ensures !env.submits && l.r.work.fired && !Explicit(l.r.id, l.r.user) ==>
              && ok && l'.r.ready == Restarted(l.r).ready && l'.r.work == Restarted(l.r).work.(orphaned := false)
              && l'.r.generation > l.r.generation
    ensures !l.r.work.fired && !Explicit(l.r.id, l.r.user) ==> ok && l' == l
    ensures !env.submits && Rests(l.r) ==> Rests(l'.r) && l'.out == []
  {
    l', ok := l, true;
    if Explicit(l.r.id, l.r.user) {
      EveryClass(l.r.ready.disarmed);
      l', ok := RearmClasses(env, l, ALL, cancel, a);
    } else if l.r.work.fired {
      l' := Restart(l);
      if env.submits {
        l', ok := SubmitOrRestore(env, l, l', a);
        AlikeResumes(env, Restart(l).r, Restarted(l.r), a, l', ok);
      }
    }
  }

  function NewLog(u: User): (log: Log)
    ensures log.tally == Sum(log.history)
    ensures log.tally == Tally(0, 0, 0, false, {}, u.data, u.ctx, {}, {}, true)
  {
    Append(Log([], Sum([])), Configured(u.data, u.ctx))
  }

  /** A new registration, before its first submission. */
  function NewReg(id: Ident, u: User, generation: nat): Reg {
    Reg(id, u, Poll(Idle, {}, 0, Unarmed, false, 0), Ready({}, {}, {}, false, false),
        Work(!(id.kind.Waitable? && u.events * WAITABLE_BITS == {}), false, false, false, false, false), {},
        generation, Attached, NewLog(u))
  }

  lemma NewIsValid(id: Ident, u: User, generation: nat)
    requires Registrable(id.explicitPort, id.kind, u)
    ensures Valid(NewReg(id, u, generation)) && Alive(NewReg(id, u, generation))
  {
  }

  function Begin(id: Ident, u: User, nextGeneration: nat, pendingCount: int): Step
    requires Registrable(id.explicitPort, id.kind, u)
  {
    var g := nextGeneration + 1;
    var r := NewReg(id, u, g);
    NewIsValid(id, u, g);
    Local(r, g, pendingCount, [], false, Base(id, g, None, g, pendingCount, false, false, KeptOf(r)))
  }

  /** `ep_port_register` from the table insertion on: a failed ADD leaves nothing behind. */
  method Register(env: Env, l: Step, a: Answer) returns (l': Step, ok: bool)
    requires Quiet(l) && l.r.shutdown == {} && !l.busy
    ensures l'.base == l.base && l'.r.user == l.r.user && !l'.busy
    ensures ok <==> l'.r.life.Attached?
    ensures l'.out == [] && l'.r.shutdown == {} && Undelivered(l.r, l'.r) && Opens(l.r, a, l'.r)
    ensures l.r.id.kind.Socket? || env.submits ==> Resumes(env, l.r, a, l', ok)
    ensures Dormant(l.r) || (l.r.id.kind.Waitable? && !env.submits) ==> ok && l' == l
  {
    l', ok := l, true;
    if !Dormant(l.r) && (l.r.id.kind.Socket? || env.submits) {
      var result, now;
      l', result, now := Submit(env, l, a, false);
      if result.Failed? {
        l' := Detach(l');
      }
      ok := result.Done?;
    }
  }

  /** An edge-triggered registration of an object that gives up a notification with every event: each one is an edge. */
  predicate Takes(r: Reg) {
    r.id.kind.Waitable? && r.user.et && r.id.kind.semantics.Consumptive?
  }

  /** The per-node part of `ep_drain_to_buffer`, once the registration's current node was taken off the queue. */
  function Return(r: Reg, n: Node): (r': Reg)
    requires Valid(r) && r.life.Attached? && r.ready.queued && n == NodeOf(r)
    ensures Valid(r') && Rests(r') && Alive(r') && (Doubled(r') ==> Doubled(r))
    ensures !r.work.fired && !Silent(r') ==> r'.work.rearm && !r'.work.holdoff
    ensures r'.id == r.id && r'.user == r.user && r'.poll == r.poll && r'.generation == r.generation
    ensures r'.shutdown == r.shutdown && r'.work.parked == r.work.parked && r'.ready.disarmed == r.ready.disarmed
    ensures r'.ready.owned == r.ready.owned && r'.work.fired == r.work.fired && r'.ready.pending == {}
    ensures r'.ready.observed == if Takes(r) then {} else r.ready.observed
    ensures r'.log.history ==
              r.log.history + [Returned(n.events, n.data, n.ctx, Explicit(r.id, r.user), Edged(r.id, r.user))]
    ensures r'.log.tally.returned == r.log.tally.returned + 1 && r'.log.tally.roused == r.log.tally.roused
  {
    var kind := r.id.kind;
    var observed := if kind.Waitable? && r.user.et && kind.semantics.Consumptive? then {} else r.ready.observed;
    var log := Append(r.log, Returned(n.events, n.data, n.ctx, Explicit(r.id, r.user), Edged(r.id, r.user)));
    var back := r.(ready := r.ready.(pending := {}, queued := false, observed := observed), log := log);
    if r.work.fired || (kind.Waitable? && r.user.et && kind.semantics.ObjectTerminal?) then back
    else back.(work := r.work.(holdoff := false, rearm := !(Explicit(r.id, r.user) && AfdEvents(back) == {})))
  }

  // ---------------------------------------------------------- two broken promises

  /** What the arm pass of some wait has for the registration. */
  datatype Pass = Pass(env: Env, answer: Answer)

  /** A request the kernel gives up unasked is not submitted again: neither by its completion nor by the arm passes
      of later waits, however many there are and whatever the kernel answers. */
  method GivenUp(env: Env, l: Step, p: Packet, later: seq<Pass>) returns (l': Step)
    requires Orphans(l.r, p) && !env.closing && l.out == [] && !l.busy && l.base.orphaned && l.base.doubled
    ensures l'.r.life.Attached? && l'.r.poll.status.Idle? && !Alive(l'.r) && l'.out == []
  {
    ghost var refreshes;
    l', refreshes := Complete(env, l, p);
    for k := 0 to |later|
      invariant Quiet(l') && l'.r.id.kind.Socket? && !l'.busy && !Alive(l'.r)
    {
      var result, now;
      l', result, now := Submit(later[k].env, l', later[k].answer, false);
    }
  }

  /** A pending socket is reconfigured beyond its request, the cancellation loses, and the original interest is
      restored: the request is as before, and besides the next wait is to rearm it. */
  method WidenAndBack(env: Env, l: Step, wide: User, a: Answer) returns (l': Step)
    requires l.r.life.Attached? && l.r.id.kind.Socket? && l.r.shutdown == {} && l.r.poll.status.Pending?
    requires l.out == [] && !l.busy && !l.r.user.exclusive && !l.r.user.et && !l.r.work.parked && !wide.exclusive
    requires !(AfdEventsFor(l.r.id.kind, wide.events, false, {}) <= l.r.poll.afd) && AfdEvents(l.r) <= l.r.poll.afd
    ensures l'.base == l.base && l'.out == [] && !l'.busy && l'.r.work.rearm && !l'.r.work.parked
    ensures l'.r == l.r.(ready := l'.r.ready, work := l'.r.work, generation := l'.r.generation, log := l'.r.log)
  {
    var l1, ok := Modify(env, l, wide, Lost, true, a);
    l', ok := Modify(env, l1, l.r.user, Won, true, a);
  }

  /** The worklists are not exclusive: after such a detour the completion of a one-shot leaves it on both. */
  method BothLists(env: Env, l: Step, wide: User, p: Packet) returns (l': Step)
    requires l.r.life.Attached? && l.r.id.kind.Socket? && l.r.shutdown == {} && l.r.poll.status.Pending?
    requires l.out == [] && !l.busy && l.base.orphaned && l.base.doubled
    requires l.r.user.oneshot && !l.r.user.exclusive && !l.r.user.et && !l.r.work.parked && !wide.exclusive
    requires !(AfdEventsFor(l.r.id.kind, wide.events, false, {}) <= l.r.poll.afd) && AfdEvents(l.r) <= l.r.poll.afd
    requires Settles(env, l, p) && Reports(l.r, p, p.first) && p.node
    ensures l'.r.life.Attached? && l'.r.work.rearm && l'.r.work.fired
  {
    var l1 := WidenAndBack(env, l, wide, p.again);
    assert AfdEvents(l1.r) == AfdEvents(l.r);
    ghost var refreshes;
    l', refreshes := Complete(env, l1, p);
  }

  const WAITING := Env(false, true, 1)
  const ACCEPTING := Answer(ProbeOk, {}, true, Denied, true, AfdPending, TimedOut, true)
  const READABLE := Snapshot(true, {RECEIVE}, false, NotProbed, {}, Unsampled, Unsampled)
  const ONCE := User({IN}, false, true, false, 7, 8)

  /** A TCP one-shot interested in input, just added inside a wait. */
  method AddOnce() returns (l: Step)
    ensures l.r.life.Attached? && l.r.id == Ident(3, Socket(Tcp, false), false) && !l.r.work.rearm
    ensures l.r.shutdown == {} && l.r.poll.status.Pending?
    ensures l.r.user == ONCE && !l.r.work.parked && l.out == [] && !l.busy
    ensures l.r.poll.afd == AfdEvents(l.r) && l.r.poll.epoch == WAITING.epoch
  {
    var id := Ident(3, Socket(Tcp, false), false);
    var l0 := Begin(id, ONCE, 0, 0);
    var ok;
    l, ok := Register(WAITING, l0, ACCEPTING);
  }

  /** The detour: widened to output while the cancellation loses, and narrowed again. */
  method DetourOnce(l: Step) returns (l': Step)
    requires l.r.life.Attached? && l.out == [] && !l.busy && l.r.id.kind == Socket(Tcp, false) && l.r.shutdown == {}
    requires l.r.user == ONCE && l.r.poll.status.Pending? && !l.r.work.parked
    requires l.r.poll.afd == AfdEvents(l.r) && l.r.poll.epoch == WAITING.epoch
    ensures l'.r.life.Attached? && !l'.busy && l'.r.id == l.r.id && l'.r.user == ONCE && l'.r.poll == l.r.poll
    ensures l'.r.shutdown == {} && l'.r.work.rearm && AfdEvents(l'.r) <= l'.r.poll.afd
  {
    l' := WidenAndBack(WAITING, l, ONCE.(events := {IN, OUT}), ACCEPTING);
  }

  const PACKET := Packet(true, false, READABLE, ACCEPTING, READABLE, TimedOut, true, Denied, ACCEPTING)

  lemma OnceCrowds(r: Reg)
    requires r.id.kind == Socket(Tcp, false) && r.shutdown == {} && r.user == ONCE && r.poll.status.Pending?
    requires r.work.rearm && AfdEvents(r) <= r.poll.afd && r.poll.epoch == WAITING.epoch
    ensures Crowds(WAITING, r, PACKET)
  {
    assert RECEIVE in READABLE.afd * {RECEIVE, ACCEPT};
    assert IN in NativeLevel(Tcp, ONCE.events, true, READABLE);
    assert IN in SocketLevel(r, true, READABLE);
  }

  method FinishOnce(l: Step) returns (r: Reg)
    requires l.r.life.Attached? && l.out == [] && !l.busy && l.base.orphaned && l.base.doubled
    requires l.r.id.kind == Socket(Tcp, false) && l.r.shutdown == {} && l.r.user == ONCE && l.r.poll.status.Pending?
    requires l.r.work.rearm && AfdEvents(l.r) <= l.r.poll.afd && l.r.poll.epoch == WAITING.epoch
    ensures r.life.Attached? && Doubled(r)
  {
    OnceCrowds(l.r);
    ghost var refreshes;
    var l';
    l', refreshes := Complete(WAITING, l, PACKET);
    r := l'.r;
  }

  /** Such a request is that of a fresh registration, given up at once. */
  method GivenUpReached(later: seq<Pass>) returns (r: Reg)
    ensures r.life.Attached? && r.poll.status.Idle? && !Alive(r)
  {
    var l := AddOnce();
    l := GivenUp(WAITING, Enter(l.r, l.pendingCount, l.nextGeneration, true), PACKET.(cancelled := true), later);
    r := l.r;
  }

  /** The same from a fresh registration on, section by section: the one-shot is widened to output while the
      cancellation loses, narrowed again, and completed. */
  method BothListsReached() returns (r: Reg)
    ensures r.life.Attached? && Doubled(r)
  {
    var l := AddOnce();
    l := DetourOnce(Enter(l.r, l.pendingCount, l.nextGeneration, false));
    r := FinishOnce(Enter(l.r, l.pendingCount, l.nextGeneration, true));
  }
}
