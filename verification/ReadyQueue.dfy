/**
 The intrusive multi-producer, single-consumer ready queue of src/wepoll_ex_pool.c.

 Every atomic access of the C code is one step of a sequentially consistent
 state machine, so producers and the consumer interleave between any two of
 them.  The state keeps, beside the real fields, the order in which nodes were
 exchanged into `head`; `order[at]` is the node `tail` points to.
 */
module ReadyQueue {
  import Sets

  type Node = nat
  type Thread = nat

  /** The permanent sentinel; every other node belongs to callers. */
  const STUB: Node := 0

  datatype Option<+T> = None | Some(value: T)

  /** What a producer inside `ep_ready_link` has done so far. */
  datatype Producer =
    | Holding(node: Node)
    | Cleared(node: Node)
    | Counted(node: Node)
    | Exchanged(node: Node, prev: Node, pos: int)

  /** Where the single consumer is inside `ep_ready_drain`. */
  datatype Phase =
    | Idle
    | Load
    | LoadAfterStub
    | CheckHead
    | StubClear
    | StubExchange
    | StubLink(prev: Node, pos: int)
    | Reload
    | Unlink(node: Node)
    | LoadQueued(node: Node)
    | Account(node: Node, seen: nat)
    | Append(node: Node)

  /** History of the queue; nothing in the C code reads it. */
  datatype History = History(
    order: seq<Node>,                  // every node exchanged into `head`, the stub included
    at: nat,                           // `tail` is `order[at]`
    owed: map<int, Option<Thread>>,    // positions whose outgoing link is unpublished, and by whom
    pushed: seq<Node>,                 // caller-owned nodes in exchange order
    popped: seq<Node>,                 // nodes the consumer has taken off the chain
    returned: seq<Node>,               // nodes handed to the caller of a drain
    overlapped: bool)                  // a producer was mid-link at some instant of this pop

  datatype State = State(
    next: map<Node, Node>,             // a node outside the map has next == NULL
    head: Node,
    tail: Node,
    queued: nat,
    producers: map<Thread, Producer>,
    phase: Phase,
    left: nat,                         // pops the current drain may still make
    out: seq<Node>,                    // nodes chained by the current drain
    h: History)

  datatype Action =
    | Push(thread: Thread, node: Node)
    | Produce(thread: Thread)
    | Drain(maxevents: int)
    | Consume(spurious: bool)

  function Init(): State {
    State(map[], STUB, STUB, 0, map[], Idle, 0, [], History([STUB], 0, map[], [], [], [], false))
  }

  /** The caller-owned nodes among `s`, in the same order. */
  function Real(s: seq<Node>): (r: seq<Node>) {
    if s == [] then []
    else
      var last := s[|s| - 1];
      Real(s[..|s| - 1]) + (if last == STUB then [] else [last])
  }

  /** `n` is not in the chain from `tail` to `head`. */
  ghost predicate Fresh(order: seq<Node>, at: nat, n: Node) {
    forall k :: at <= k < |order| ==> order[k] != n
  }

  predicate Popping(phase: Phase) {
    phase.Unlink? || phase.LoadQueued? || phase.Account? || phase.Append?
  }

  predicate Held(out: seq<Node>, phase: Phase, n: Node) {
    n in out || (Popping(phase) && phase.node == n)
  }

  ghost predicate Busy(s: State, n: Node) {
    || n == STUB || !Fresh(s.h.order, s.h.at, n) || Held(s.out, s.phase, n)
    || exists p :: p in s.producers && s.producers[p].node == n
  }

  predicate MidLink(producers: map<Thread, Producer>) {
    exists p :: p in producers && producers[p].Exchanged?
  }

  /** A caller may push any node that is not already in the queue's hands. */
  ghost predicate Enabled(s: State, a: Action) {
    match a
    case Push(p, n) => p !in s.producers && !Busy(s, n)
    case Produce(p) => p in s.producers
    case Drain(_) => s.phase.Idle?
    case Consume(_) => !s.phase.Idle?
  }

  function Exchange(h: History, n: Node, owner: Option<Thread>): History {
    h.(order := h.order + [n], owed := h.owed[|h.order| - 1 := owner],
       pushed := if n == STUB then h.pushed else h.pushed + [n])
  }

  /** The consumer moves `tail` past `n`. */
  function Advance(h: History, n: Node): History {
    h.(at := h.at + 1, popped := if n == STUB then h.popped else h.popped + [n])
  }

  function StepProducer(s: State, p: Thread): State
    requires p in s.producers
  {
    match s.producers[p]
    case Holding(n) => s.(next := s.next - {n}, producers := s.producers[p := Cleared(n)])
    case Cleared(n) => s.(queued := s.queued + 1, producers := s.producers[p := Counted(n)])
    case Counted(n) =>
      s.(head := n, producers := s.producers[p := Exchanged(n, s.head, |s.h.order| - 1)],
         h := Exchange(s.h, n, Some(p)))
    case Exchanged(n, prev, pos) =>
      s.(next := s.next[prev := n], producers := s.producers - {p}, h := s.h.(owed := s.h.owed - {pos}))
  }

  /** `ep_ready_drain` returns its chain and the consumer leaves the queue. */
  function Finish(s: State): State {
    s.(phase := Idle, h := s.h.(returned := s.h.returned + s.out), out := [])
  }

  /** The tail node is taken: `q->tail = next` and the old tail is now the consumer's. */
  function Take(s: State): State
    requires s.tail in s.next
  {
    s.(tail := s.next[s.tail], phase := Unlink(s.tail), h := Advance(s.h, s.tail))
  }

  /** The drain loop appends a popped node to its output list and goes round again. */
  function Chained(s: State, n: Node): State {
    s.(next := if s.out == [] then s.next else s.next[s.out[|s.out| - 1] := n], out := s.out + [n],
       left := if s.left > 0 then s.left - 1 else 0, phase := Load, h := s.h.(overlapped := false))
  }

  function StepConsumer(s: State, spurious: bool): State
    requires !s.phase.Idle?
  {
    match s.phase
    case Load =>
      if s.tail == STUB then
        if STUB !in s.next then Finish(s)
        else s.(tail := s.next[STUB], phase := LoadAfterStub, h := Advance(s.h, STUB))
      else if s.tail in s.next then Take(s)
      else s.(phase := CheckHead)
    case LoadAfterStub =>
      if s.tail in s.next then Take(s) else s.(phase := CheckHead)
    case CheckHead =>
      if s.tail != s.head then Finish(s) else s.(phase := StubClear)
    case StubClear =>
      s.(next := s.next - {STUB}, phase := StubExchange)
    case StubExchange =>
      s.(head := STUB, phase := StubLink(s.head, |s.h.order| - 1), h := Exchange(s.h, STUB, None))
    case StubLink(prev, pos) =>
      s.(next := s.next[prev := STUB], phase := Reload, h := s.h.(owed := s.h.owed - {pos}))
    case Reload =>
      if s.tail in s.next then Take(s) else Finish(s)
    case Unlink(n) =>
      s.(next := s.next - {n}, phase := LoadQueued(n))
    case LoadQueued(n) =>
      s.(phase := Account(n, s.queued))
    case Account(n, seen) =>
      if seen == 0 then s.(phase := Append(n))
      else if spurious || seen != s.queued then s.(phase := Account(n, s.queued))
      else s.(queued := seen - 1, phase := Append(n))
    case Append(n) =>
      var s' := Chained(s, n);
      if s'.left == 0 then Finish(s') else s'
  }

  function Act(s: State, a: Action): State
    requires a.Produce? ==> a.thread in s.producers
    requires a.Consume? ==> !s.phase.Idle?
  {
    match a
    case Push(p, n) => s.(producers := s.producers[p := Holding(n)])
    case Produce(p) => StepProducer(s, p)
    case Drain(max) => if max <= 0 then s else s.(phase := Load, left := max, h := s.h.(overlapped := false))
    case Consume(spurious) => StepConsumer(s, spurious)
  }

  /** One step; `overlapped` remembers whether any instant of the current pop saw a producer mid-link. */
  function Step(s: State, a: Action): State
    requires a.Produce? ==> a.thread in s.producers
    requires a.Consume? ==> !s.phase.Idle?
  {
    var s' := Act(s, a);
    s'.(h := s'.h.(overlapped := s'.h.overlapped || MidLink(s'.producers)))
  }

  /** The consumer's next step makes `ep_ready_pop_one` return NULL. */
  predicate ReturnsNull(s: State) {
    match s.phase
    case Load => s.tail == STUB && STUB !in s.next
    case CheckHead => s.tail != s.head
    case Reload => s.tail !in s.next
    case _ => false
  }

  predicate NonEmpty(s: State) {
    |s.h.popped| < |s.h.pushed|
  }

  // ---------------------------------------------------------------- invariant

  predicate LinkOk(order: seq<Node>, next: map<Node, Node>, owed: map<int, Option<Thread>>, j: int)
    requires 0 <= j < |order| - 1
  {
    if j in owed then order[j] !in next else order[j] in next && next[order[j]] == order[j + 1]
  }

  /** The chain from `tail` to `head`: distinct nodes, each link either published or owed. */
  ghost predicate ChainOk(order: seq<Node>, at: nat, next: map<Node, Node>, owed: map<int, Option<Thread>>) {
    && at < |order|
    && (forall i, j :: at <= i < j < |order| ==> order[i] != order[j])
    && (forall j :: at <= j < |order| - 1 ==> LinkOk(order, next, owed, j))
    && order[|order| - 1] !in next
  }

  /** Each unpublished link is owed by exactly the thread that exchanged the position after it. */
  ghost predicate OwedOk(order: seq<Node>, at: nat, owed: map<int, Option<Thread>>,
                         producers: map<Thread, Producer>, phase: Phase)
  {
    forall j :: j in owed ==>
                  && at <= j < |order| - 1
                  && match owed[j]
                     case Some(p) => p in producers && producers[p].Exchanged? && producers[p].pos == j
                     case None => phase.StubLink? && phase.pos == j
  }

  ghost predicate ProducerOk(p: Thread, producer: Producer, order: seq<Node>, at: nat, next: map<Node, Node>,
                             owed: map<int, Option<Thread>>, out: seq<Node>, phase: Phase)
  {
    && producer.node != STUB
    && match producer
       case Exchanged(n, prev, pos) =>
         && at <= pos < |order| - 1
         && order[pos] == prev
         && order[pos + 1] == n
         && pos in owed && owed[pos] == Some(p)
       case _ =>
         && Fresh(order, at, producer.node)
         && !Held(out, phase, producer.node)
         && (producer.Holding? || producer.node !in next)
  }

  ghost predicate ProducersOk(producers: map<Thread, Producer>, order: seq<Node>, at: nat, next: map<Node, Node>,
                              owed: map<int, Option<Thread>>, out: seq<Node>, phase: Phase)
  {
    forall p :: p in producers ==> ProducerOk(p, producers[p], order, at, next, owed, out, phase)
  }

  ghost predicate DistinctNodes(producers: map<Thread, Producer>) {
    forall p, q :: p in producers && q in producers && p != q ==> producers[p].node != producers[q].node
  }

  predicate PastStub(phase: Phase) {
    || phase.LoadAfterStub? || phase.CheckHead? || phase.StubClear?
    || phase.StubExchange? || phase.StubLink? || phase.Reload?
  }

  ghost predicate PhaseOk(phase: Phase, order: seq<Node>, at: nat, next: map<Node, Node>, owed: map<int, Option<Thread>>)
    requires at < |order|
  {
    && (PastStub(phase) ==> order[at] != STUB)
    && (phase.StubClear? || phase.StubExchange? ==> Fresh(order, at, STUB))
    && (phase.StubExchange? ==> STUB !in next)
    && (phase.StubLink? ==>
          && at <= phase.pos < |order| - 1
          && order[phase.pos] == phase.prev && order[phase.pos + 1] == STUB
          && phase.pos in owed && owed[phase.pos] == None)
    && (phase.Reload? ==> at + 1 < |order|)
    && (phase.Account? ==> phase.seen > 0)
    && (phase.LoadQueued? || phase.Account? || phase.Append? ==> phase.node !in next)
  }

  /** Nodes in the consumer's hands have left the chain. */
  ghost predicate HeldOk(out: seq<Node>, phase: Phase, order: seq<Node>, at: nat) {
    && (forall i :: 0 <= i < |out| ==> out[i] != STUB && Fresh(order, at, out[i]))
    && (Popping(phase) ==> phase.node != STUB && Fresh(order, at, phase.node) && phase.node !in out)
  }

  predicate OutLink(out: seq<Node>, next: map<Node, Node>, i: int)
    requires 0 <= i < |out| - 1
  {
    out[i] in next && next[out[i]] == out[i + 1]
  }

  /** `out` is a NULL-terminated list of distinct nodes. */
  ghost predicate OutOk(out: seq<Node>, next: map<Node, Node>) {
    && (forall i, j :: 0 <= i < j < |out| ==> out[i] != out[j])
    && (forall i :: 0 <= i < |out| - 1 ==> OutLink(out, next, i))
    && (out != [] ==> out[|out| - 1] !in next)
  }

  function CountedThreads(producers: map<Thread, Producer>): set<Thread> {
    set p | p in producers && producers[p].Counted?
  }

  predicate Unaccounted(phase: Phase) {
    phase.Unlink? || phase.LoadQueued? || phase.Account?
  }

  /** `queued` counts the exchanged and unpopped nodes, the producers about to exchange, and a pop not yet accounted. */
  ghost predicate AccountOk(s: State) {
    s.queued + |s.h.popped| == |s.h.pushed| + |CountedThreads(s.producers)| + (if Unaccounted(s.phase) then 1 else 0)
  }

  ghost predicate TraceOk(order: seq<Node>, at: nat, pushed: seq<Node>, popped: seq<Node>) {
    at <= |order| && pushed == Real(order) && popped == Real(order[..at])
  }

  ghost predicate Traced(h: History) {
    TraceOk(h.order, h.at, h.pushed, h.popped)
  }

  function InHand(out: seq<Node>, phase: Phase): seq<Node> {
    out + (if Popping(phase) then [phase.node] else [])
  }

  ghost predicate HandOk(h: History, out: seq<Node>, phase: Phase) {
    h.popped == h.returned + InHand(out, phase) && (phase.Idle? ==> out == [])
  }

  ghost predicate HistoryOk(s: State) {
    && HandOk(s.h, s.out, s.phase)
    && (s.phase.CheckHead? && s.h.at + 1 < |s.h.order| ==> s.h.overlapped)
    && (MidLink(s.producers) ==> s.h.overlapped)
  }

  ghost predicate Structure(s: State) {
    && ChainOk(s.h.order, s.h.at, s.next, s.h.owed)
    && s.head == s.h.order[|s.h.order| - 1]
    && s.tail == s.h.order[s.h.at]
    && OwedOk(s.h.order, s.h.at, s.h.owed, s.producers, s.phase)
    && ProducersOk(s.producers, s.h.order, s.h.at, s.next, s.h.owed, s.out, s.phase)
    && DistinctNodes(s.producers)
    && PhaseOk(s.phase, s.h.order, s.h.at, s.next, s.h.owed)
    && HeldOk(s.out, s.phase, s.h.order, s.h.at)
    && OutOk(s.out, s.next)
  }

  ghost predicate Inv(s: State) {
    Structure(s) && Traced(s.h) && AccountOk(s) && HistoryOk(s)
  }

  // ------------------------------------------------------------------- proofs

  lemma {:induction false} RealPrefix(s: seq<Node>, k: nat)
    requires k <= |s|
    ensures Real(s[..k]) <= Real(s)
  {
    if k == |s| {
      assert s[..k] == s;
    } else {
      RealPrefix(s[..|s| - 1], k);
      assert s[..|s| - 1][..k] == s[..k];
    }
  }

  lemma RealSnoc(s: seq<Node>, n: Node)
    ensures Real(s + [n]) == Real(s) + (if n == STUB then [] else [n])
  {
    assert (s + [n])[..|s|] == s;
  }

  lemma InitInv()
    ensures Inv(Init())
  {
    assert Init().h.order[..0] == [];
  }

  /** `next'` differs from `next` at most at `n`. */
  ghost predicate SameBut(next: map<Node, Node>, next': map<Node, Node>, n: Node) {
    forall m :: m != n ==> (m in next' <==> m in next) && (m in next ==> next'[m] == next[m])
  }

  /** Writing the link of a node outside the chain leaves the chain's links alone. */
  lemma ChainFrame(order: seq<Node>, at: nat, next: map<Node, Node>, next': map<Node, Node>,
                   owed: map<int, Option<Thread>>, n: Node)
    requires ChainOk(order, at, next, owed) && Fresh(order, at, n) && SameBut(next, next', n)
    ensures ChainOk(order, at, next', owed)
  {
    forall j | at <= j < |order| - 1 ensures LinkOk(order, next', owed, j) {
      assert LinkOk(order, next, owed, j);
    }
  }

  lemma OutFrame(out: seq<Node>, next: map<Node, Node>, next': map<Node, Node>, n: Node)
    requires OutOk(out, next) && n !in out && SameBut(next, next', n)
    ensures OutOk(out, next')
  {
    forall i | 0 <= i < |out| - 1 ensures OutLink(out, next', i) {
      assert OutLink(out, next, i);
    }
  }

  /** A head exchange extends the chain by an unlinked node and owes the link to it. */
  lemma ChainExtend(order: seq<Node>, at: nat, next: map<Node, Node>, owed: map<int, Option<Thread>>, n: Node,
                    owner: Option<Thread>)
    requires ChainOk(order, at, next, owed) && Fresh(order, at, n) && n !in next
    ensures ChainOk(order + [n], at, next, owed[|order| - 1 := owner])
  {
    var order', owed' := order + [n], owed[|order| - 1 := owner];
    forall j | at <= j < |order| ensures LinkOk(order', next, owed', j) {
      assert j < |order| - 1 ==> LinkOk(order, next, owed, j);
    }
  }

  /** Publishing an owed link completes that position and touches no other. */
  lemma ChainPublish(order: seq<Node>, at: nat, next: map<Node, Node>, owed: map<int, Option<Thread>>, pos: int)
    requires ChainOk(order, at, next, owed) && at <= pos < |order| - 1
    ensures ChainOk(order, at, next[order[pos] := order[pos + 1]], owed - {pos})
  {
    var next', owed' := next[order[pos] := order[pos + 1]], owed - {pos};
    forall j | at <= j < |order| - 1 ensures LinkOk(order, next', owed', j) {
      assert LinkOk(order, next, owed, j);
    }
  }

  /** Dropping the first node leaves a chain when its successor is published. */
  lemma ChainAdvance(order: seq<Node>, at: nat, next: map<Node, Node>, owed: map<int, Option<Thread>>)
    requires ChainOk(order, at, next, owed) && order[at] in next
    ensures at + 1 < |order| && next[order[at]] == order[at + 1] && at !in owed
    ensures ChainOk(order, at + 1, next, owed)
    ensures Fresh(order, at + 1, order[at])
  {
    assert LinkOk(order, next, owed, at);
  }

  lemma PushStructure(s: State, p: Thread, n: Node)
    requires Structure(s) && p !in s.producers && !Busy(s, n)
    ensures Structure(s.(producers := s.producers[p := Holding(n)]))
  {
  }

  lemma ClearStructure(s: State, p: Thread)
    requires Structure(s) && p in s.producers && s.producers[p].Holding?
    ensures Structure(StepProducer(s, p))
  {
    var n := s.producers[p].node;
    ChainFrame(s.h.order, s.h.at, s.next, s.next - {n}, s.h.owed, n);
    OutFrame(s.out, s.next, s.next - {n}, n);
  }

  lemma CountStructure(s: State, p: Thread)
    requires Structure(s) && p in s.producers && s.producers[p].Cleared?
    ensures Structure(StepProducer(s, p))
  {
  }

  lemma ProducersExtend(producers: map<Thread, Producer>, p: Thread, order: seq<Node>, at: nat, next: map<Node, Node>,
                        owed: map<int, Option<Thread>>, out: seq<Node>, phase: Phase)
    requires ProducersOk(producers, order, at, next, owed, out, phase) && DistinctNodes(producers)
    requires at < |order| && |order| - 1 !in owed && p in producers && producers[p].Counted?
    ensures var n := producers[p].node;
            ProducersOk(producers[p := Exchanged(n, order[|order| - 1], |order| - 1)], order + [n], at, next,
                        owed[|order| - 1 := Some(p)], out, phase)
  {
    var n, last := producers[p].node, |order| - 1;
    var producers', order', owed' := producers[p := Exchanged(n, order[last], last)], order + [n], owed[last := Some(p)];
    forall q | q in producers' ensures ProducerOk(q, producers'[q], order', at, next, owed', out, phase) {
      assert ProducerOk(q, producers[q], order, at, next, owed, out, phase);
    }
  }

  lemma OwedExtend(producers: map<Thread, Producer>, p: Thread, order: seq<Node>, at: nat,
                   owed: map<int, Option<Thread>>, phase: Phase)
    requires OwedOk(order, at, owed, producers, phase) && at < |order| && p in producers && producers[p].Counted?
    ensures var n, last := producers[p].node, |order| - 1;
            OwedOk(order + [n], at, owed[last := Some(p)], producers[p := Exchanged(n, order[last], last)], phase)
  {
  }

  lemma HandsExtend(out: seq<Node>, phase: Phase, order: seq<Node>, at: nat, next: map<Node, Node>,
                    owed: map<int, Option<Thread>>, n: Node, p: Thread)
    requires at < |order| && PhaseOk(phase, order, at, next, owed) && HeldOk(out, phase, order, at)
    requires n != STUB && n !in out && (Popping(phase) ==> phase.node != n) && |order| - 1 !in owed
    ensures PhaseOk(phase, order + [n], at, next, owed[|order| - 1 := Some(p)]) && HeldOk(out, phase, order + [n], at)
  {
  }

  lemma ExchangeStructure(s: State, p: Thread)
    requires Structure(s) && p in s.producers && s.producers[p].Counted?
    ensures Structure(StepProducer(s, p))
  {
    assert ProducerOk(p, s.producers[p], s.h.order, s.h.at, s.next, s.h.owed, s.out, s.phase);
    ChainExtend(s.h.order, s.h.at, s.next, s.h.owed, s.producers[p].node, Some(p));
    ProducersExtend(s.producers, p, s.h.order, s.h.at, s.next, s.h.owed, s.out, s.phase);
    OwedExtend(s.producers, p, s.h.order, s.h.at, s.h.owed, s.phase);
    HandsExtend(s.out, s.phase, s.h.order, s.h.at, s.next, s.h.owed, s.producers[p].node, p);
  }

  lemma LinkStructure(s: State, p: Thread)
    requires Structure(s) && p in s.producers && s.producers[p].Exchanged?
    ensures Structure(StepProducer(s, p))
  {
    var Exchanged(n, prev, pos) := s.producers[p];
    assert s.h.order[pos] == prev;
    ChainPublish(s.h.order, s.h.at, s.next, s.h.owed, pos);
    OutFrame(s.out, s.next, s.next[prev := n], prev);
  }

  lemma TakeStructure(s: State)
    requires Structure(s) && s.tail in s.next && s.tail != STUB && !Popping(s.phase) && !s.phase.StubLink?
    ensures Structure(Take(s))
  {
    assert s.h.order[s.h.at] == s.tail;
    ChainAdvance(s.h.order, s.h.at, s.next, s.h.owed);
  }

  lemma SkipStructure(s: State)
    requires Structure(s) && s.phase.Load? && s.tail == STUB && STUB in s.next
    ensures Structure(StepConsumer(s, false))
  {
    ChainAdvance(s.h.order, s.h.at, s.next, s.h.owed);
  }

  lemma LoadStructure(s: State)
    requires Structure(s) && (s.phase.Load? || s.phase.LoadAfterStub? || s.phase.CheckHead? || s.phase.Reload?)
    ensures Structure(StepConsumer(s, false))
  {
    if s.phase.CheckHead? {
      assert s.tail == s.head ==> s.h.at == |s.h.order| - 1;
    } else if s.tail == STUB && STUB in s.next {
      SkipStructure(s);
    } else if s.tail in s.next {
      TakeStructure(s);
    }
  }

  lemma StubClearStructure(s: State)
    requires Structure(s) && s.phase.StubClear?
    ensures Structure(StepConsumer(s, false))
  {
    ChainFrame(s.h.order, s.h.at, s.next, s.next - {STUB}, s.h.owed, STUB);
    OutFrame(s.out, s.next, s.next - {STUB}, STUB);
  }

  lemma StubExchangeStructure(s: State)
    requires Structure(s) && s.phase.StubExchange?
    ensures Structure(StepConsumer(s, false))
  {
    ChainExtend(s.h.order, s.h.at, s.next, s.h.owed, STUB, None);
  }

  lemma StubLinkStructure(s: State)
    requires Structure(s) && s.phase.StubLink?
    ensures Structure(StepConsumer(s, false))
  {
    var StubLink(prev, pos) := s.phase;
    assert s.h.order[pos] == prev;
    ChainPublish(s.h.order, s.h.at, s.next, s.h.owed, pos);
    OutFrame(s.out, s.next, s.next[prev := STUB], prev);
  }

  lemma UnlinkStructure(s: State)
    requires Structure(s) && s.phase.Unlink?
    ensures Structure(StepConsumer(s, false))
  {
    var n := s.phase.node;
    ChainFrame(s.h.order, s.h.at, s.next, s.next - {n}, s.h.owed, n);
    OutFrame(s.out, s.next, s.next - {n}, n);
  }

  lemma AccountStructure(s: State, spurious: bool)
    requires Structure(s) && (s.phase.LoadQueued? || s.phase.Account?) && s.queued > 0
    ensures Structure(StepConsumer(s, spurious))
  {
  }

  lemma OutAppend(out: seq<Node>, next: map<Node, Node>, n: Node)
    requires OutOk(out, next) && n !in out && n !in next
    ensures OutOk(out + [n], if out == [] then next else next[out[|out| - 1] := n])
  {
    var out', next' := out + [n], if out == [] then next else next[out[|out| - 1] := n];
    forall i | 0 <= i < |out'| - 1 ensures OutLink(out', next', i) {
      assert i < |out| - 1 ==> OutLink(out, next, i);
    }
  }

  lemma ChainedStructure(s: State)
    requires Structure(s) && s.phase.Append?
    ensures Structure(Chained(s, s.phase.node))
  {
    var n := s.phase.node;
    var next' := Chained(s, n).next;
    OutAppend(s.out, s.next, n);
    if s.out != [] {
      var last := s.out[|s.out| - 1];
      ChainFrame(s.h.order, s.h.at, s.next, next', s.h.owed, last);
    }
    var out' := s.out + [n];
    forall p | p in s.producers ensures ProducerOk(p, s.producers[p], s.h.order, s.h.at, next', s.h.owed, out', Load) {
      assert ProducerOk(p, s.producers[p], s.h.order, s.h.at, s.next, s.h.owed, s.out, s.phase);
    }
  }

  lemma FinishStructure(s: State)
    requires Structure(s) && !s.phase.StubLink?
    ensures Structure(Finish(s))
  {
  }

  lemma {:induction false} RealConcat(s: seq<Node>, k: nat)
    requires k <= |s|
    ensures Real(s) == Real(s[..k]) + Real(s[k..])
  {
    if k == |s| {
      assert s[..k] == s && s[k..] == [];
    } else {
      RealConcat(s[..|s| - 1], k);
      assert s[..|s| - 1][..k] == s[..k];
      assert s[..|s| - 1][k..] == s[k..][..|s[k..]| - 1];
    }
  }

  lemma {:induction false} RealHasNoStub(s: seq<Node>)
    ensures STUB !in Real(s)
  {
    if s != [] {
      RealHasNoStub(s[..|s| - 1]);
    }
  }

  lemma TraceExchange(h: History, n: Node, owner: Option<Thread>)
    requires Traced(h)
    ensures Traced(Exchange(h, n, owner))
  {
    RealSnoc(h.order, n);
    assert (h.order + [n])[..h.at] == h.order[..h.at];
  }

  lemma TraceAdvance(h: History)
    requires Traced(h) && h.at < |h.order|
    ensures Traced(Advance(h, h.order[h.at]))
  {
    assert h.order[..h.at + 1] == h.order[..h.at] + [h.order[h.at]];
    RealSnoc(h.order[..h.at], h.order[h.at]);
  }

  /** While a pop is unaccounted `queued` is positive, so the compare-and-swap loop never gives up. */
  lemma QueuedPositive(s: State)
    requires Traced(s.h) && AccountOk(s) && Unaccounted(s.phase)
    ensures s.queued > 0
  {
    RealPrefix(s.h.order, s.h.at);
  }

  lemma ConsumeStructure(s: State, spurious: bool)
    requires Structure(s) && !s.phase.Idle? && (Unaccounted(s.phase) ==> s.queued > 0)
    ensures Structure(StepConsumer(s, spurious))
  {
    match s.phase
    case StubClear => StubClearStructure(s);
    case StubExchange => StubExchangeStructure(s);
    case StubLink(_, _) => StubLinkStructure(s);
    case Unlink(_) => UnlinkStructure(s);
    case LoadQueued(_) => AccountStructure(s, spurious);
    case Account(_, _) => AccountStructure(s, spurious);
    case Append(n) =>
      ChainedStructure(s);
      FinishStructure(Chained(s, n));
    case _ => LoadStructure(s);
  }

  lemma ActStructure(s: State, a: Action)
    requires Structure(s) && Enabled(s, a) && (Unaccounted(s.phase) ==> s.queued > 0)
    ensures Structure(Act(s, a))
  {
    match a
    case Push(p, n) => PushStructure(s, p, n);
    case Produce(p) =>
      match s.producers[p] {
        case Holding(_) => ClearStructure(s, p);
        case Cleared(_) => CountStructure(s, p);
        case Counted(_) => ExchangeStructure(s, p);
        case Exchanged(_, _, _) => LinkStructure(s, p);
      }
    case Drain(_) =>
    case Consume(spurious) => ConsumeStructure(s, spurious);
  }

  ghost predicate EndsOk(s: State) {
    && s.h.at < |s.h.order| && s.tail == s.h.order[s.h.at]
    && (PastStub(s.phase) ==> s.tail != STUB)
    && (s.phase.Account? ==> s.phase.seen > 0)
    && (Unaccounted(s.phase) ==> s.queued > 0)
  }

  lemma ProduceTrace(s: State, p: Thread)
    requires Traced(s.h) && p in s.producers
    ensures Traced(StepProducer(s, p).h)
  {
    TraceExchange(s.h, s.producers[p].node, Some(p));
  }

  ghost predicate SameTrace(h: History, h': History) {
    h'.order == h.order && h'.at == h.at && h'.pushed == h.pushed && h'.popped == h.popped
  }

  /** What one consumer step does to the trace. */
  ghost predicate Effect(h: History, h': History) {
    SameTrace(h, h') || h' == Exchange(h, STUB, None) || (h.at < |h.order| && h' == Advance(h, h.order[h.at]))
  }

  lemma LoadEffect(s: State, spurious: bool)
    requires (s.phase.Load? || s.phase.LoadAfterStub? || s.phase.Reload?) && EndsOk(s)
    ensures Effect(s.h, StepConsumer(s, spurious).h)
  {
  }

  lemma ConsumeEffect(s: State, spurious: bool)
    requires !s.phase.Idle? && EndsOk(s)
    ensures Effect(s.h, StepConsumer(s, spurious).h)
  {
    if s.phase.Load? || s.phase.LoadAfterStub? || s.phase.Reload? {
      LoadEffect(s, spurious);
    }
  }

  lemma EffectTraced(h: History, h': History)
    requires Traced(h) && Effect(h, h')
    ensures Traced(h')
  {
    if h' == Exchange(h, STUB, None) {
      TraceExchange(h, STUB, None);
    } else if !SameTrace(h, h') {
      TraceAdvance(h);
    }
  }

  lemma ConsumeTrace(s: State, spurious: bool)
    requires Traced(s.h) && !s.phase.Idle? && EndsOk(s)
    ensures Traced(StepConsumer(s, spurious).h)
  {
    ConsumeEffect(s, spurious);
    EffectTraced(s.h, StepConsumer(s, spurious).h);
  }

  lemma ProduceAccount(s: State, p: Thread)
    requires AccountOk(s) && p in s.producers && s.producers[p].node != STUB
    ensures AccountOk(StepProducer(s, p))
  {
    CountedChange(s.producers, StepProducer(s, p).producers, p);
  }

  lemma CountedChange(a: map<Thread, Producer>, b: map<Thread, Producer>, p: Thread)
    requires forall q :: q != p ==> (q in a <==> q in b) && (q in a ==> a[q] == b[q])
    ensures |CountedThreads(b)| == |CountedThreads(a)|
              - (if p in a && a[p].Counted? then 1 else 0) + (if p in b && b[p].Counted? then 1 else 0)
  {
    assert CountedThreads(a) - {p} == CountedThreads(b) - {p};
    Sets.CardinalityWithout(CountedThreads(a), p);
    Sets.CardinalityWithout(CountedThreads(b), p);
  }

  lemma AccountAccount(s: State, spurious: bool)
    requires AccountOk(s) && (s.phase.Account? || s.phase.Append? || Unaccounted(s.phase)) && EndsOk(s)
    ensures AccountOk(StepConsumer(s, spurious))
  {
  }

  lemma SearchAccount(s: State, spurious: bool)
    requires AccountOk(s) && !(s.phase.Idle? || s.phase.Append? || Unaccounted(s.phase)) && EndsOk(s)
    ensures AccountOk(StepConsumer(s, spurious))
  {
  }

  lemma ConsumeAccount(s: State, spurious: bool)
    requires AccountOk(s) && !s.phase.Idle? && EndsOk(s)
    ensures AccountOk(StepConsumer(s, spurious))
  {
    if s.phase.Append? || Unaccounted(s.phase) {
      AccountAccount(s, spurious);
    } else {
      SearchAccount(s, spurious);
    }
  }

  /** A position after `tail` that is not linked is owed by a producer, unless the consumer owes it itself. */
  lemma UnlinkedIsMidLink(s: State)
    requires Structure(s) && s.h.at + 1 < |s.h.order| && s.tail !in s.next && !s.phase.StubLink?
    ensures MidLink(s.producers)
  {
    assert LinkOk(s.h.order, s.next, s.h.owed, s.h.at);
    assert s.producers[s.h.owed[s.h.at].value].Exchanged?;
  }

  ghost predicate Unread(s: State) {
    s.phase.CheckHead? && s.h.at + 1 < |s.h.order| ==> s.h.overlapped || MidLink(s.producers)
  }

  lemma HandTake(h: History, out: seq<Node>, phase: Phase, n: Node)
    requires HandOk(h, out, phase) && !Popping(phase) && n != STUB
    ensures HandOk(Advance(h, n), out, Unlink(n))
  {
    assert h.returned + out + [n] == h.returned + (out + [n]);
  }

  lemma HandFinish(h: History, out: seq<Node>, phase: Phase)
    requires HandOk(h, out, phase) && !Popping(phase)
    ensures HandOk(h.(returned := h.returned + out), [], Idle)
  {
  }

  lemma ConsumeInHand(s: State, spurious: bool)
    requires HandOk(s.h, s.out, s.phase) && !s.phase.Idle? && EndsOk(s)
    ensures var s' := StepConsumer(s, spurious); HandOk(s'.h, s'.out, s'.phase)
  {
    match s.phase
    case Append(n) =>
      var s' := Chained(s, n);
      HandFinish(s'.h, s'.out, s'.phase);
    case Unlink(_) =>
    case LoadQueued(_) =>
    case Account(_, _) =>
    case _ =>
      HandFinish(s.h, s.out, s.phase);
      if s.tail != STUB { HandTake(s.h, s.out, s.phase, s.tail); }
  }

  lemma ConsumeUnread(s: State, spurious: bool)
    requires HistoryOk(s) && !s.phase.Idle?
    requires s.h.at + 1 < |s.h.order| && s.tail !in s.next && !s.phase.StubLink? ==> MidLink(s.producers)
    ensures Unread(StepConsumer(s, spurious))
  {
  }

  lemma ProduceHistory(s: State, p: Thread)
    requires HistoryOk(s) && p in s.producers
    ensures var s' := StepProducer(s, p); HandOk(s'.h, s'.out, s'.phase) && Unread(s')
  {
    assert s.producers[p].Counted? ==> StepProducer(s, p).producers[p].Exchanged?;
  }

  lemma OverlapFrame(s: State, b: bool)
    requires Structure(s)
    ensures Structure(s.(h := s.h.(overlapped := b)))
  {
  }

  lemma StructureEnds(s: State)
    requires Structure(s) && (Unaccounted(s.phase) ==> s.queued > 0)
    ensures EndsOk(s)
    ensures forall p :: p in s.producers ==> s.producers[p].node != STUB
    ensures s.h.at + 1 < |s.h.order| && s.tail !in s.next && !s.phase.StubLink? ==> MidLink(s.producers)
  {
    if s.h.at + 1 < |s.h.order| && s.tail !in s.next && !s.phase.StubLink? {
      UnlinkedIsMidLink(s);
    }
  }

  lemma ActInv(s: State, a: Action)
    requires Structure(s) && Traced(s.h) && AccountOk(s) && HistoryOk(s) && Enabled(s, a)
    ensures var s' := Act(s, a);
            Structure(s') && Traced(s'.h) && AccountOk(s') &&
            HandOk(s'.h, s'.out, s'.phase) && Unread(s')
  {
    if Unaccounted(s.phase) { QueuedPositive(s); }
    StructureEnds(s);
    ActStructure(s, a);
    match a
    case Push(p, n) =>
      assert CountedThreads(s.producers[p := Holding(n)]) == CountedThreads(s.producers);
    case Produce(p) =>
      ProduceTrace(s, p);
      ProduceAccount(s, p);
      ProduceHistory(s, p);
    case Consume(spurious) =>
      ConsumeTrace(s, spurious);
      ConsumeAccount(s, spurious);
      ConsumeInHand(s, spurious);
      ConsumeUnread(s, spurious);
    case Drain(_) =>
  }

  lemma StepInv(s: State, a: Action)
    requires Inv(s) && Enabled(s, a)
    ensures Inv(Step(s, a))
  {
    ActInv(s, a);
    OverlapFrame(Act(s, a), Step(s, a).h.overlapped);
  }

  // ----------------------------------------------------------------- theorems

  /** The state after a run of enabled steps; None when some step was not enabled. */
  ghost function Exec(actions: seq<Action>): Option<State> {
    if actions == [] then Some(Init())
    else
      var a := actions[|actions| - 1];
      match Exec(actions[..|actions| - 1])
      case Some(s) => if Enabled(s, a) then Some(Step(s, a)) else None
      case None => None
  }

  lemma {:induction false} ExecInv(actions: seq<Action>)
    requires Exec(actions).Some?
    ensures Inv(Exec(actions).value)
  {
    if actions == [] {
      InitInv();
    } else {
      ExecInv(actions[..|actions| - 1]);
      StepInv(Exec(actions[..|actions| - 1]).value, actions[|actions| - 1]);
    }
  }

  /** No loss, no duplicate, first in first out: in every run the exchange order of the caller's nodes is
      exactly the returned nodes, then those in the consumer's hands, then those still chained. */
  lemma FifoRefinement(actions: seq<Action>)
    requires Exec(actions).Some?
    ensures var s := Exec(actions).value;
            && s.h.at <= |s.h.order|
            && s.h.pushed == s.h.returned + InHand(s.out, s.phase) + Real(s.h.order[s.h.at..])
            && STUB !in s.h.returned
  {
    ExecInv(actions);
    var s := Exec(actions).value;
    RealConcat(s.h.order, s.h.at);
    RealHasNoStub(s.h.order[..s.h.at]);
    assert forall n :: n in s.h.returned ==> n in s.h.popped;
  }

  /** The sentinel is in the chain at most once. */
  lemma StubAtMostOnce(actions: seq<Action>, i: nat, j: nat)
    requires Exec(actions).Some?
    requires var h := Exec(actions).value.h;
             h.at <= i < |h.order| && h.at <= j < |h.order| && h.order[i] == h.order[j] == STUB
    ensures i == j
  {
    ExecInv(actions);
  }

  /** Whoever still owes a link writes through a node of the live chain, never through a popped one. */
  lemma PoppedNodeIsNotWritten(actions: seq<Action>, n: Node)
    requires Exec(actions).Some?
    requires var s := Exec(actions).value; Held(s.out, s.phase, n) || !Busy(s, n)
    ensures var s := Exec(actions).value;
            && (forall p :: p in s.producers && s.producers[p].Exchanged? ==> s.producers[p].prev != n)
            && (s.phase.StubLink? ==> s.phase.prev != n)
            && s.head != n && s.tail != n
  {
    ExecInv(actions);
    var s := Exec(actions).value;
    assert Fresh(s.h.order, s.h.at, n);
    forall p | p in s.producers && s.producers[p].Exchanged? ensures s.producers[p].prev != n {
      assert ProducerOk(p, s.producers[p], s.h.order, s.h.at, s.next, s.h.owed, s.out, s.phase);
    }
  }

  /** A NULL pop of a non-empty queue overlaps a producer that was between exchange and link at some instant of
      that pop. */
  lemma NullNeedsOverlap(actions: seq<Action>)
    requires Exec(actions).Some?
    requires ReturnsNull(Exec(actions).value) && NonEmpty(Exec(actions).value)
    ensures Exec(actions).value.h.overlapped
  {
    ExecInv(actions);
    var s := Exec(actions).value;
    RealConcat(s.h.order, s.h.at);
    assert Real(s.h.order[s.h.at..]) != [];
    if s.h.at + 1 < |s.h.order| && !s.phase.CheckHead? {
      UnlinkedIsMidLink(s);
    }
  }

  /** A producer has exchanged the head after `tail` and not yet linked through it. */
  ghost predicate OwesTail(s: State) {
    exists p :: p in s.producers && s.producers[p].Exchanged? && s.producers[p].prev == s.tail
  }

  lemma TailOwedIffUnlinked(s: State)
    requires Structure(s) && s.h.at + 1 < |s.h.order| && !s.phase.StubLink?
    ensures OwesTail(s) <==> s.tail !in s.next
  {
    assert LinkOk(s.h.order, s.next, s.h.owed, s.h.at);
    if s.tail !in s.next {
      var p := s.h.owed[s.h.at].value;
      assert ProducerOk(p, s.producers[p], s.h.order, s.h.at, s.next, s.h.owed, s.out, s.phase);
    } else {
      forall p | p in s.producers && s.producers[p].Exchanged?
        ensures s.producers[p].prev != s.tail
      {
        assert ProducerOk(p, s.producers[p], s.h.order, s.h.at, s.next, s.h.owed, s.out, s.phase);
      }
    }
  }

  /** When NULL comes out of a non-empty queue, a producer is between exchange and link at `tail` exactly when the
      link of `tail` is still missing: the push that NULL overlapped may have completed in the meantime. */
  lemma NullMidLinkExactly(actions: seq<Action>)
    requires Exec(actions).Some?
    requires ReturnsNull(Exec(actions).value) && NonEmpty(Exec(actions).value)
    ensures OwesTail(Exec(actions).value) <==> Exec(actions).value.tail !in Exec(actions).value.next
  {
    ExecInv(actions);
    var s := Exec(actions).value;
    RealConcat(s.h.order, s.h.at);
    assert Real(s.h.order[s.h.at..]) != [];
    TailOwedIffUnlinked(s);
  }

  /** `queued` is exact: unpopped nodes, counted producers about to exchange, and a pop about to be accounted. */
  lemma QueuedIsExact(actions: seq<Action>)
    requires Exec(actions).Some?
    ensures var s := Exec(actions).value;
            && |s.h.popped| <= |s.h.pushed|
            && s.queued == |s.h.pushed| - |s.h.popped| + |CountedThreads(s.producers)|
                             + (if Unaccounted(s.phase) then 1 else 0)
            && (s.phase.Idle? && s.producers == map[] ==> s.queued == |s.h.pushed| - |s.h.returned|)
  {
    ExecInv(actions);
    var s := Exec(actions).value;
    RealPrefix(s.h.order, s.h.at);
    assert s.producers == map[] ==> CountedThreads(s.producers) == {};
  }

  /** A drain ends exactly with a NULL, or with the last node it was asked for. */
  lemma EndsExactly(actions: seq<Action>, spurious: bool)
    requires Exec(actions).Some? && !Exec(actions).value.phase.Idle?
    ensures var s := Exec(actions).value;
            Step(s, Consume(spurious)).phase.Idle? <==> ReturnsNull(s) || (s.phase.Append? && s.left <= 1)
  {
    ExecInv(actions);
    var s := Exec(actions).value;
    if Unaccounted(s.phase) {
      QueuedPositive(s);
    }
  }

  lemma ExecSnoc(actions: seq<Action>, a: Action)
    requires Exec(actions).Some? && Enabled(Exec(actions).value, a)
    ensures Exec(actions + [a]) == Some(Step(Exec(actions).value, a))
  {
    assert (actions + [a])[..|actions|] == actions;
  }

  /** Thread `p` pushes `n` without interruption. */
  lemma PushWhole(actions: seq<Action>, p: Thread, n: Node) returns (actions': seq<Action>)
    requires Exec(actions).Some? && Enabled(Exec(actions).value, Push(p, n))
    ensures Exec(actions').Some?
    ensures var s, s' := Exec(actions).value, Exec(actions').value;
            && s'.producers == s.producers && s'.phase == s.phase && s'.tail == s.tail && s'.head == n
            && s'.left == s.left
            && s'.next == (s.next - {n})[s.head := n] && s'.out == s.out
            && s'.h.order == s.h.order + [n] && s'.h.at == s.h.at && s'.h.pushed == s.h.pushed + [n]
            && s'.h.popped == s.h.popped
  {
    ExecSnoc(actions, Push(p, n));
    actions' := actions + [Push(p, n)];
    for i := 0 to 4
      invariant Exec(actions').Some?
      invariant var s, s' := Exec(actions).value, Exec(actions').value;
                && s'.phase == s.phase && s'.tail == s.tail && s'.left == s.left && s'.out == s.out
                && s'.h.at == s.h.at && s'.h.popped == s.h.popped
                && s'.next == (if i == 0 then s.next else if i < 4 then s.next - {n} else (s.next - {n})[s.head := n])
                && s'.head == (if i < 3 then s.head else n)
                && s'.h.order == (if i < 3 then s.h.order else s.h.order + [n])
                && s'.h.pushed == (if i < 3 then s.h.pushed else s.h.pushed + [n])
                && s'.producers - {p} == s.producers && (i < 4 <==> p in s'.producers)
                && (i == 0 ==> s'.producers[p] == Holding(n)) && (i == 1 ==> s'.producers[p] == Cleared(n))
                && (i == 2 ==> s'.producers[p] == Counted(n))
                && (i == 3 ==> s'.producers[p] == Exchanged(n, s.head, |s.h.order| - 1))
    {
      ExecSnoc(actions', Produce(p));
      actions' := actions' + [Produce(p)];
    }
  }

  /** A run in which the consumer has read an empty link behind the only node and is about to compare `head`. */
  lemma BeforeHead() returns (actions: seq<Action>)
    ensures Exec(actions).Some?
    ensures var s := Exec(actions).value;
            s.phase.CheckHead? && s.producers == map[] && s.tail == s.head == 5 && s.out == [] && s.next == map[STUB := 5]
            && s.h.order == [STUB, 5] && s.h.at == 1 && s.h.popped == []
  {
    assert Exec([]) == Some(Init());
    actions := PushWhole([], 1, 5);
    ExecSnoc(actions, Drain(1));
    actions := actions + [Drain(1)];
    ExecSnoc(actions, Consume(false));
    actions := actions + [Consume(false)];
    ExecSnoc(actions, Consume(false));
    actions := actions + [Consume(false)];
  }

  /** The overlap cannot be sharpened to the instant of the NULL: here a push starts and completes between the
      consumer's load of `tail->next` and its load of `head`, and no producer is mid-link when NULL is returned. */
  lemma NullWithoutMidLink() returns (actions: seq<Action>)
    ensures Exec(actions).Some?
    ensures var s := Exec(actions).value; ReturnsNull(s) && NonEmpty(s) && !MidLink(s.producers)
  {
    actions := BeforeHead();
    actions := PushWhole(actions, 2, 6);
  }

  // --------------------------------------------------------- the consumer alone

  /** A drain with nobody else near the queue; `flags` say which compare-and-swaps fail spuriously. */
  function Alone(max: int, flags: seq<bool>): seq<Action> {
    [Drain(max)] + seq(|flags|, k requires 0 <= k < |flags| => Consume(flags[k]))
  }

  /** The drain is under way, and no producer has come near it. */
  ghost predicate Under(s0: State, max: int, s: State) {
    && s.producers == map[] && !s.h.overlapped && !s.phase.Idle? && s.left > 0 && s.left + |s.out| == max
    && s.h.pushed == s0.h.pushed && s.h.returned == s0.h.returned
  }

  /** The nodes that a drain of a queue in this state returns: the oldest ones, as many as it is asked for. */
  function Due(s: State, max: int): seq<Node>
    requires |s.h.popped| <= |s.h.pushed|
  {
    var rest := s.h.pushed[|s.h.popped|..];
    if max <= 0 then [] else if max <= |rest| then rest[..max] else rest
  }

  /** The drain is under way, or done with exactly what was due. */
  ghost predicate Progress(s0: State, max: int, s: State) {
    && |s0.h.popped| <= |s0.h.pushed|
    && if s.phase.Idle? then s.h.returned == s0.h.returned + Due(s0, max) else Under(s0, max, s)
  }

  lemma PoppedFirst(s: State)
    requires Inv(s)
    ensures s.h.popped <= s.h.pushed && s.h.popped == s.h.returned + InHand(s.out, s.phase)
  {
    RealPrefix(s.h.order, s.h.at);
  }

  /** A NULL met by a consumer that is alone means that the queue is empty. */
  lemma NullAlone(s: State)
    requires Inv(s) && ReturnsNull(s) && !s.h.overlapped
    ensures !NonEmpty(s)
  {
    if NonEmpty(s) {
      RealConcat(s.h.order, s.h.at);
      assert Real(s.h.order[s.h.at..]) != [];
      if s.h.at + 1 < |s.h.order| && !s.phase.CheckHead? {
        UnlinkedIsMidLink(s);
      }
    }
  }

  lemma StepUnder(s0: State, max: int, s: State, spurious: bool)
    requires Under(s0, max, s) && !Step(s, Consume(spurious)).phase.Idle?
    ensures Under(s0, max, Step(s, Consume(spurious)))
  {
    var s' := StepConsumer(s, spurious);
    if s.phase.Append? {
      assert s' == Chained(s, s.phase.node);
    } else {
      KeepsOut(s, spurious);
    }
    assert !MidLink(s'.producers);
  }

  lemma KeepsOut(s: State, spurious: bool)
    requires !s.phase.Idle? && !s.phase.Append? && !StepConsumer(s, spurious).phase.Idle?
    ensures var s' := StepConsumer(s, spurious);
            && s'.producers == s.producers && s'.left == s.left && s'.out == s.out
            && s'.h.pushed == s.h.pushed && s'.h.returned == s.h.returned && s'.h.overlapped == s.h.overlapped
  {
  }

  /** The last step of the drain. */
  lemma StepDone(s0: State, max: int, s: State, spurious: bool)
    requires Inv(s0) && s0.phase.Idle? && Inv(s) && Under(s0, max, s)
    requires Step(s, Consume(spurious)).phase.Idle?
    ensures |s0.h.popped| <= |s0.h.pushed|
    ensures Step(s, Consume(spurious)).h.returned == s0.h.returned + Due(s0, max)
  {
    PoppedFirst(s0);
    PoppedFirst(s);
    if s.phase.Append? {
      DueFull(s0.h.returned, s.out + [s.phase.node], s0.h.pushed, max);
    } else {
      NullEnds(s, spurious);
      NullAlone(s);
      DueAll(s0.h.returned, s.out, s0.h.pushed);
    }
  }

  lemma NullEnds(s: State, spurious: bool)
    requires Inv(s) && !s.phase.Idle? && !s.phase.Append? && Step(s, Consume(spurious)).phase.Idle?
    ensures ReturnsNull(s) && Step(s, Consume(spurious)).h.returned == s.h.returned + s.out
  {
    if Unaccounted(s.phase) {
      QueuedPositive(s);
    }
  }

  lemma DueFull(returned: seq<Node>, out: seq<Node>, pushed: seq<Node>, max: int)
    requires returned + out <= pushed && |out| == max
    ensures out == pushed[|returned|..][..max]
  {
  }

  lemma DueAll(returned: seq<Node>, out: seq<Node>, pushed: seq<Node>)
    requires returned + out <= pushed && |returned + out| >= |pushed|
    ensures out == pushed[|returned|..]
  {
  }

  lemma AloneStart(actions: seq<Action>, max: int)
    requires Exec(actions).Some? && Exec(actions).value.phase.Idle? && Exec(actions).value.producers == map[]
    requires Inv(Exec(actions).value)
    ensures Exec(actions + Alone(max, [])).Some?
    ensures Progress(Exec(actions).value, max, Exec(actions + Alone(max, [])).value)
  {
    PoppedFirst(Exec(actions).value);
    assert actions + Alone(max, []) == actions + [Drain(max)];
    ExecSnoc(actions, Drain(max));
  }

  /** For every run of an undisturbed drain, whatever compare-and-swaps fail. */
  lemma {:induction false} AloneRun(actions: seq<Action>, max: int, flags: seq<bool>)
    requires Exec(actions + Alone(max, flags)).Some? && Exec(actions).Some?
    requires Exec(actions).value.phase.Idle? && Exec(actions).value.producers == map[]
    ensures Progress(Exec(actions).value, max, Exec(actions + Alone(max, flags)).value)
    decreases |flags|
  {
    var s0 := Exec(actions).value;
    ExecInv(actions);
    var all := actions + Alone(max, flags);
    if flags == [] {
      AloneStart(actions, max);
    } else {
      var before, last := flags[..|flags| - 1], flags[|flags| - 1];
      assert all[..|all| - 1] == actions + Alone(max, before) && all[|all| - 1] == Consume(last);
      AloneRun(actions, max, before);
      var s := Exec(actions + Alone(max, before)).value;
      ExecInv(actions + Alone(max, before));
      AloneStep(s0, max, s, last);
      assert Exec(all) == Some(Step(s, Consume(last)));
    }
  }

  lemma AloneStep(s0: State, max: int, s: State, spurious: bool)
    requires Inv(s0) && s0.phase.Idle? && Inv(s) && Under(s0, max, s)
    ensures Progress(s0, max, Step(s, Consume(spurious)))
  {
    PoppedFirst(s0);
    if Step(s, Consume(spurious)).phase.Idle? {
      StepDone(s0, max, s, spurious);
    } else {
      StepUnder(s0, max, s, spurious);
    }
  }

  /** How far the consumer is from the end of its drain. */
  function Distance(s: State): nat {
    12 * s.left +
    match s.phase
    case Idle => 0
    case Load => 11
    case LoadAfterStub => 10
    case CheckHead => 9
    case StubClear => 8
    case StubExchange => 7
    case StubLink(_, _) => 6
    case Reload => 5
    case Unlink(_) => 4
    case LoadQueued(_) => 3
    case Account(_, seen) => if seen == s.queued then 1 else 2
    case Append(_) => 0
  }

  lemma Nearer(s: State)
    requires !s.phase.Idle? && s.left > 0
    ensures Distance(Step(s, Consume(false))) < Distance(s)
  {
    if s.phase.Append? {
      assert StepConsumer(s, false).left == s.left - 1;
    } else if !StepConsumer(s, false).phase.Idle? {
      KeepsOut(s, false);
    }
  }

  /** One more step of the drain. */
  lemma AloneNext(actions: seq<Action>, max: int, flags: seq<bool>, spurious: bool)
    requires Exec(actions + Alone(max, flags)).Some? && !Exec(actions + Alone(max, flags)).value.phase.Idle?
    ensures Exec(actions + Alone(max, flags + [spurious])) ==
              Some(Step(Exec(actions + Alone(max, flags)).value, Consume(spurious)))
  {
    ExecSnoc(actions + Alone(max, flags), Consume(spurious));
    assert actions + Alone(max, flags) + [Consume(spurious)] == actions + Alone(max, flags + [spurious]);
  }

  lemma {:induction false} DrainsOn(actions: seq<Action>, max: int, flags: seq<bool>) returns (flags': seq<bool>)
    requires Exec(actions + Alone(max, flags)).Some? && Exec(actions).Some?
    requires Exec(actions).value.phase.Idle? && Exec(actions).value.producers == map[]
    ensures Exec(actions + Alone(max, flags')).Some? && Exec(actions + Alone(max, flags')).value.phase.Idle?
    decreases Distance(Exec(actions + Alone(max, flags)).value)
  {
    var s := Exec(actions + Alone(max, flags)).value;
    if s.phase.Idle? {
      flags' := flags;
    } else {
      AloneRun(actions, max, flags);
      Nearer(s);
      AloneNext(actions, max, flags, false);
      flags' := DrainsOn(actions, max, flags + [false]);
    }
  }

  /** From every reachable state in which the queue is at rest, a drain that is left alone ends, and returns exactly
      the oldest nodes, as many as it is asked for or as there are. */
  lemma DrainsAll(actions: seq<Action>, max: int) returns (flags: seq<bool>)
    requires Exec(actions).Some? && Exec(actions).value.phase.Idle? && Exec(actions).value.producers == map[]
    ensures |Exec(actions).value.h.popped| <= |Exec(actions).value.h.pushed|
    ensures var last := Exec(actions + Alone(max, flags));
            && last.Some? && last.value.phase.Idle?
            && last.value.h.returned == Exec(actions).value.h.returned + Due(Exec(actions).value, max)
  {
    ExecInv(actions);
    AloneStart(actions, max);
    flags := DrainsOn(actions, max, []);
    AloneRun(actions, max, flags);
  }
}
