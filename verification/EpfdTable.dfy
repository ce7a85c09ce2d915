/**
 Lifetime of Windows ports behind virtual descriptors (src/wepoll_ex_api.c):
 aliases, API references, a close that waits with a timeout, and deferred
 destruction.  Each step is one critical section under `g_epfd_lock`, or the
 unlocked destruction of a port.
 */
module EpfdTable {
  import opened Registry
  import opened Sets

  const INT_MAX := 0x7FFF_FFFF

  type Sid = nat        // identity of an `epfd_shared_t`, never reused

  datatype Shared = Shared(aliases: nat, refs: nat, closing: bool, detached: bool)

  /** Where a thread is in the API. */
  datatype Phase =
    | Outside
    | Using(s: Sid)           // between epfd_acquire and epfd_put
    | PutDestroys(s: Sid)     // the last put of a detached port, about to destroy it
    | CloseBegan(s: Sid)      // closed the final alias, about to look at the references
    | CloseWaits(s: Sid)      // waiting for the references to drain
    | CloseDestroys(s: Sid)   // about to destroy the port

  datatype State = State(
    fds: map<Fd, Sid>, shared: map<Sid, Shared>, threads: map<Thread, Phase>, destroyed: seq<Sid>)

  datatype Action =
    | Create(s: Sid, fd: Fd)
    | Duplicate(fd: Fd, copy: Fd)
    | Acquire(t: Thread, fd: Fd)
    | Put(t: Thread)
    | Close(t: Thread, fd: Fd)
    | Look(t: Thread)             // a closer takes the lock again
    | Wake(t: Thread)             // the event fired, or the wait timed out or failed
    | Destroy(t: Thread)

  function Init(): State {
    State(map[], map[], map[], [])
  }

  function PhaseOf(threads: map<Thread, Phase>, t: Thread): Phase {
    if t in threads then threads[t] else Outside
  }

  function Move(s: State, t: Thread, p: Phase): State {
    s.(threads := s.threads[t := p])
  }

  /** The descriptor names a port that is not closing. */
  predicate Usable(s: State, fd: Fd) {
    fd in s.fds && s.fds[fd] in s.shared && !s.shared[s.fds[fd]].closing
  }

  function StepCreate(s: State, id: Sid, fd: Fd): State {
    if id in s.shared || id in s.destroyed || fd in s.fds then s
    else s.(fds := s.fds[fd := id], shared := s.shared[id := Shared(1, 0, false, false)])
  }

  /** `epfd_duplicate` */
  function StepDuplicate(s: State, fd: Fd, copy: Fd): State {
    if !Usable(s, fd) || copy in s.fds then s
    else
      var id := s.fds[fd];
      s.(fds := s.fds[copy := id], shared := s.shared[id := s.shared[id].(aliases := s.shared[id].aliases + 1)])
  }

  /** `epfd_acquire` */
  function StepAcquire(s: State, t: Thread, fd: Fd): State {
    if !PhaseOf(s.threads, t).Outside? || !Usable(s, fd) then s
    else
      var id := s.fds[fd];
      Move(s.(shared := s.shared[id := s.shared[id].(refs := s.shared[id].refs + 1)]), t, Using(id))
  }

  /** `epfd_put` */
  function StepPut(s: State, t: Thread): State {
    if !PhaseOf(s.threads, t).Using? || s.threads[t].s !in s.shared then s
    else
      var id := s.threads[t].s;
      var h := s.shared[id].(refs := if s.shared[id].refs > 0 then s.shared[id].refs - 1 else 0);
      Move(s.(shared := s.shared[id := h]), t,
           if h.closing && h.refs == 0 && h.detached then PutDestroys(id) else Outside)
  }

  /** The first critical section of `wepoll_close`. */
  function StepClose(s: State, t: Thread, fd: Fd): State {
    if !PhaseOf(s.threads, t).Outside? || !Usable(s, fd) then s
    else
      var id := s.fds[fd];
      var left := if s.shared[id].aliases > 0 then s.shared[id].aliases - 1 else 0;
      Move(s.(fds := s.fds - {fd}, shared := s.shared[id := s.shared[id].(aliases := left, closing := left == 0)]), t,
           if left == 0 then CloseBegan(id) else Outside)
  }

  /** The second: wait if there are references. */
  function StepLook(s: State, t: Thread): State {
    if !PhaseOf(s.threads, t).CloseBegan? || s.threads[t].s !in s.shared then s
    else
      var id := s.threads[t].s;
      Move(s, t, if s.shared[id].refs != 0 then CloseWaits(id) else CloseDestroys(id))
  }

  /** The third, after the wait: destroy, or leave it to the last put. */
  function StepWake(s: State, t: Thread): State {
    if !PhaseOf(s.threads, t).CloseWaits? || s.threads[t].s !in s.shared then s
    else
      var id := s.threads[t].s;
      if s.shared[id].refs == 0 then Move(s, t, CloseDestroys(id))
      else Move(s.(shared := s.shared[id := s.shared[id].(detached := true)]), t, Outside)
  }

  /** `epfd_destroy` */
  function StepDestroy(s: State, t: Thread): State {
    var p := PhaseOf(s.threads, t);
    if p.PutDestroys? || p.CloseDestroys? then
      Move(s.(shared := s.shared - {p.s}, destroyed := s.destroyed + [p.s]), t, Outside)
    else s
  }

  /** One step; an action that is not enabled changes nothing. */
  function Step(s: State, a: Action): State {
    match a
    case Create(id, fd) => StepCreate(s, id, fd)
    case Duplicate(fd, copy) => StepDuplicate(s, fd, copy)
    case Acquire(t, fd) => StepAcquire(s, t, fd)
    case Put(t) => StepPut(s, t)
    case Close(t, fd) => StepClose(s, t, fd)
    case Look(t) => StepLook(s, t)
    case Wake(t) => StepWake(s, t)
    case Destroy(t) => StepDestroy(s, t)
  }

  function Run(actions: seq<Action>): State {
    if actions == [] then Init() else Step(Run(actions[..|actions| - 1]), actions[|actions| - 1])
  }

  /** `epfd_allocate_id_locked`: the search starts where the last one ended, wraps, and fails exactly when every
      positive descriptor is taken. */
  method AllocateId(fds: map<Fd, Sid>, next: Fd) returns (fd: Fd, next': Fd)
    requires 1 <= next <= INT_MAX
    ensures 1 <= next' <= INT_MAX
    ensures fd == -1 <==> forall i :: 1 <= i <= INT_MAX ==> i in fds
    ensures fd != -1 ==> 1 <= fd <= INT_MAX && fd !in fds
  {
    next', fd := next, -1;
    for attempts := 0 to INT_MAX
      invariant next' == (if next + attempts <= INT_MAX then next + attempts else next + attempts - INT_MAX)
      invariant forall i :: (next <= i < next + attempts && i <= INT_MAX) || 1 <= i < next + attempts - INT_MAX ==>
                              i in fds
    {
      var candidate := next';
      next' := if next' == INT_MAX then 1 else next' + 1;
      if candidate !in fds {
        return candidate, next';
      }
    }
  }

  // ---------------------------------------------------------------- invariant

  /** The threads in a given phase. */
  function At(threads: map<Thread, Phase>, p: Phase): set<Thread> {
    set t | t in threads && threads[t] == p
  }

  predicate Closer(p: Phase, id: Sid) {
    p == CloseBegan(id) || p == CloseWaits(id) || p == CloseDestroys(id)
  }

  predicate Destroyer(p: Phase, id: Sid) {
    p == CloseDestroys(id) || p == PutDestroys(id)
  }

  /** A thread responsible for the teardown of a closing port: its closer, or the last put after a timeout. */
  predicate Owner(p: Phase, id: Sid) {
    Closer(p, id) || p == PutDestroys(id)
  }

  function Owners(threads: map<Thread, Phase>, id: Sid): set<Thread> {
    set t | t in threads && Owner(threads[t], id)
  }

  /** One port: counts are exact; a closing port has exactly one owner, unless it is detached and in use. */
  ghost predicate PortFits(h: Shared, threads: map<Thread, Phase>, names: nat, id: Sid) {
    && h.refs == |At(threads, Using(id))| && h.aliases == names
    && (h.closing <==> h.aliases == 0)
    && (h.detached ==> h.closing)
    && |Owners(threads, id)| == (if h.closing && (h.detached ==> h.refs == 0) then 1 else 0)
    && (forall t :: t in threads && Owner(threads[t], id) ==>
          h.closing && (threads[t].PutDestroys? <==> h.detached) && (Destroyer(threads[t], id) ==> h.refs == 0))
  }

  ghost predicate PortsFit(s: State) {
    forall id :: id in s.shared ==> PortFits(s.shared[id], s.threads, |Names(s.fds, id)|, id)
  }

  /** Whatever a thread is doing, the port it does it to exists. */
  ghost predicate Grounded(s: State) {
    && (forall fd :: fd in s.fds ==> s.fds[fd] in s.shared)
    && (forall t :: t in s.threads && !s.threads[t].Outside? ==> s.threads[t].s in s.shared)
  }

  ghost predicate DestroyedOnce(s: State) {
    && (forall i, j :: 0 <= i < j < |s.destroyed| ==> s.destroyed[i] != s.destroyed[j])
    && (forall i :: 0 <= i < |s.destroyed| ==> s.destroyed[i] !in s.shared)
  }

  ghost predicate Inv(s: State) {
    PortsFit(s) && Grounded(s) && DestroyedOnce(s)
  }

  // ------------------------------------------------------------------ counting

  lemma AtMove(threads: map<Thread, Phase>, t: Thread, p: Phase, q: Phase)
    requires !q.Outside?
    ensures |At(threads[t := p], q)| ==
              |At(threads, q)| - (if PhaseOf(threads, t) == q then 1 else 0) + (if p == q then 1 else 0)
  {
    CardinalityMove(At(threads, q), At(threads[t := p], q), t);
  }

  lemma OwnersMove(threads: map<Thread, Phase>, t: Thread, p: Phase, id: Sid)
    ensures |Owners(threads[t := p], id)| ==
              |Owners(threads, id)| - (if Owner(PhaseOf(threads, t), id) then 1 else 0) + (if Owner(p, id) then 1 else 0)
  {
    CardinalityMove(Owners(threads, id), Owners(threads[t := p], id), t);
  }

  /** Ports that a step is not about do not notice it. */
  lemma OtherPort(h: Shared, threads: map<Thread, Phase>, names: nat, id: Sid, t: Thread, p: Phase)
    requires PortFits(h, threads, names, id)
    requires p.Outside? || p.s != id
    requires PhaseOf(threads, t).Outside? || PhaseOf(threads, t).s != id
    ensures PortFits(h, threads[t := p], names, id)
  {
    AtMove(threads, t, p, Using(id));
    OwnersMove(threads, t, p, id);
  }

  /** A step of thread `t` from and to phases of port `id` only, with aliases unchanged. */
  lemma MoveKeeps(s: State, t: Thread, p: Phase, id: Sid, h: Shared)
    requires Inv(s) && id in s.shared
    requires p.Outside? || p.s == id
    requires PhaseOf(s.threads, t).Outside? || PhaseOf(s.threads, t).s == id
    requires PortFits(h, s.threads[t := p], |Names(s.fds, id)|, id)
    ensures Inv(Move(s.(shared := s.shared[id := h]), t, p))
  {
    var s' := Move(s.(shared := s.shared[id := h]), t, p);
    forall x | x in s'.shared
      ensures PortFits(s'.shared[x], s'.threads, |Names(s'.fds, x)|, x)
    {
      if x != id {
        OtherPort(s.shared[x], s.threads, |Names(s.fds, x)|, x, t, p);
      }
    }
  }

  lemma StayKeeps(s: State, t: Thread, p: Phase, id: Sid)
    requires Inv(s) && id in s.shared
    requires p.Outside? || p.s == id
    requires PhaseOf(s.threads, t).Outside? || PhaseOf(s.threads, t).s == id
    requires PortFits(s.shared[id], s.threads[t := p], |Names(s.fds, id)|, id)
    ensures Inv(Move(s, t, p))
  {
    var s' := Move(s, t, p);
    forall x | x in s'.shared
      ensures PortFits(s'.shared[x], s'.threads, |Names(s'.fds, x)|, x)
    {
      if x != id {
        OtherPort(s.shared[x], s.threads, |Names(s.fds, x)|, x, t, p);
      }
    }
  }

  lemma AcquireKeeps(s: State, t: Thread, fd: Fd)
    requires Inv(s)
    ensures Inv(StepAcquire(s, t, fd))
  {
    if PhaseOf(s.threads, t).Outside? && Usable(s, fd) {
      var id := s.fds[fd];
      AtMove(s.threads, t, Using(id), Using(id));
      OwnersMove(s.threads, t, Using(id), id);
      MoveKeeps(s, t, Using(id), id, s.shared[id].(refs := s.shared[id].refs + 1));
    }
  }

  lemma PutFits(h: Shared, threads: map<Thread, Phase>, names: nat, id: Sid, t: Thread)
    requires PortFits(h, threads, names, id) && PhaseOf(threads, t) == Using(id)
    ensures h.refs > 0
    ensures var h' := h.(refs := h.refs - 1);
            var p := if h'.closing && h'.refs == 0 && h'.detached then PutDestroys(id) else Outside;
            PortFits(h', threads[t := p], names, id)
  {
    assert t in At(threads, Using(id));
    var h' := h.(refs := h.refs - 1);
    var p := if h'.closing && h'.refs == 0 && h'.detached then PutDestroys(id) else Outside;
    AtMove(threads, t, p, Using(id));
    OwnersMove(threads, t, p, id);
    NoOwners(threads, id);
  }

  lemma PutKeeps(s: State, t: Thread)
    requires Inv(s)
    ensures Inv(StepPut(s, t))
  {
    if PhaseOf(s.threads, t).Using? {
      var id := s.threads[t].s;
      var h := s.shared[id];
      PutFits(h, s.threads, |Names(s.fds, id)|, id, t);
      var h' := h.(refs := h.refs - 1);
      MoveKeeps(s, t, if h'.closing && h'.refs == 0 && h'.detached then PutDestroys(id) else Outside, id, h');
    }
  }

  lemma NoOwners(threads: map<Thread, Phase>, id: Sid)
    ensures |Owners(threads, id)| == 0 ==> forall t :: t in threads ==> !Owner(threads[t], id)
  {
    if |Owners(threads, id)| == 0 {
      forall t | t in threads
        ensures !Owner(threads[t], id)
      {
        assert t !in Owners(threads, id);
      }
    }
  }

  lemma OnlyOwner(threads: map<Thread, Phase>, id: Sid, t: Thread)
    requires |Owners(threads, id)| <= 1 && Owner(PhaseOf(threads, t), id)
    ensures forall u :: u in threads && u != t ==> !Owner(threads[u], id)
  {
    forall u | u in threads && u != t
      ensures !Owner(threads[u], id)
    {
      if Owner(threads[u], id) {
        assert {t, u} <= Owners(threads, id);
        CardinalityWithout(Owners(threads, id), t);
        CardinalityWithout(Owners(threads, id) - {t}, u);
      }
    }
  }

  lemma LookFits(h: Shared, threads: map<Thread, Phase>, names: nat, id: Sid, t: Thread)
    requires PortFits(h, threads, names, id) && PhaseOf(threads, t) in {CloseBegan(id), CloseWaits(id)}
    ensures PortFits(h, threads[t := if h.refs != 0 then CloseWaits(id) else CloseDestroys(id)], names, id)
  {
    var p := if h.refs != 0 then CloseWaits(id) else CloseDestroys(id);
    AtMove(threads, t, p, Using(id));
    OwnersMove(threads, t, p, id);
  }

  lemma LookKeeps(s: State, t: Thread)
    requires Inv(s)
    ensures Inv(StepLook(s, t))
  {
    if PhaseOf(s.threads, t).CloseBegan? {
      var id := s.threads[t].s;
      LookFits(s.shared[id], s.threads, |Names(s.fds, id)|, id, t);
      StayKeeps(s, t, if s.shared[id].refs != 0 then CloseWaits(id) else CloseDestroys(id), id);
    }
  }

  lemma TimeoutFits(h: Shared, threads: map<Thread, Phase>, names: nat, id: Sid, t: Thread)
    requires PortFits(h, threads, names, id) && PhaseOf(threads, t) == CloseWaits(id) && h.refs != 0
    ensures PortFits(h.(detached := true), threads[t := Outside], names, id)
  {
    AtMove(threads, t, Outside, Using(id));
    OwnersMove(threads, t, Outside, id);
    OnlyOwner(threads, id, t);
  }

  lemma WakeKeeps(s: State, t: Thread)
    requires Inv(s)
    ensures Inv(StepWake(s, t))
  {
    if PhaseOf(s.threads, t).CloseWaits? {
      var id := s.threads[t].s;
      if s.shared[id].refs == 0 {
        LookFits(s.shared[id], s.threads, |Names(s.fds, id)|, id, t);
        StayKeeps(s, t, CloseDestroys(id), id);
      } else {
        TimeoutFits(s.shared[id], s.threads, |Names(s.fds, id)|, id, t);
        MoveKeeps(s, t, Outside, id, s.shared[id].(detached := true));
      }
    }
  }

  lemma DestroyPorts(s: State, t: Thread)
    requires Inv(s) && (PhaseOf(s.threads, t).PutDestroys? || PhaseOf(s.threads, t).CloseDestroys?)
    ensures PortsFit(StepDestroy(s, t))
  {
    var s' := StepDestroy(s, t);
    forall x | x in s'.shared
      ensures PortFits(s'.shared[x], s'.threads, |Names(s'.fds, x)|, x)
    {
      OtherPort(s.shared[x], s.threads, |Names(s.fds, x)|, x, t, Outside);
    }
  }

  lemma DestroyKeeps(s: State, t: Thread)
    requires Inv(s)
    ensures Inv(StepDestroy(s, t))
  {
    if PhaseOf(s.threads, t).PutDestroys? || PhaseOf(s.threads, t).CloseDestroys? {
      DestroyPorts(s, t);
      DestroyRest(s, t);
    }
  }

  lemma DestroyRest(s: State, t: Thread)
    requires Inv(s) && (PhaseOf(s.threads, t).PutDestroys? || PhaseOf(s.threads, t).CloseDestroys?)
    ensures Grounded(StepDestroy(s, t)) && DestroyedOnce(StepDestroy(s, t))
  {
    Unreferenced(s, t);
    var id, s' := s.threads[t].s, StepDestroy(s, t);
    forall u | u in s'.threads && !s'.threads[u].Outside?
      ensures s'.threads[u].s in s'.shared
    {
      assert u != t && s'.threads[u] == s.threads[u] && s.threads[u].s != id;
    }
    assert id !in s.destroyed;
  }

  /** A port is destroyed only without aliases and references, and by the only thread that still knows it. */
  lemma Unreferenced(s: State, t: Thread)
    requires Inv(s) && (PhaseOf(s.threads, t).PutDestroys? || PhaseOf(s.threads, t).CloseDestroys?)
    ensures var id := s.threads[t].s;
            && id in s.shared && s.shared[id].aliases == 0 && s.shared[id].refs == 0
            && (forall fd :: fd in s.fds ==> s.fds[fd] != id)
            && (forall u :: u in s.threads && u != t && !s.threads[u].Outside? ==> s.threads[u].s != id)
  {
    var id := s.threads[t].s;
    assert PortFits(s.shared[id], s.threads, |Names(s.fds, id)|, id);
    OnlyOwner(s.threads, id, t);
    forall fd | fd in s.fds
      ensures s.fds[fd] != id
    {
      assert fd !in Names(s.fds, id);
    }
    forall u | u in s.threads && u != t && !s.threads[u].Outside?
      ensures s.threads[u].s != id
    {
      assert u !in At(s.threads, Using(id));
    }
  }

  lemma NobodyKnows(s: State, id: Sid)
    requires Grounded(s) && id !in s.shared
    ensures Names(s.fds, id) == {} && At(s.threads, Using(id)) == {} && Owners(s.threads, id) == {}
  {
    assert forall fd :: fd in s.fds ==> s.fds[fd] != id;
    forall t | t in s.threads
      ensures s.threads[t] != Using(id) && !Owner(s.threads[t], id)
    {
      assert s.threads[t].Outside? || s.threads[t].s != id;
    }
  }

  lemma NewPortFits(threads: map<Thread, Phase>, id: Sid)
    requires At(threads, Using(id)) == {} && Owners(threads, id) == {}
    ensures PortFits(Shared(1, 0, false, false), threads, 1, id)
  {
    NoOwners(threads, id);
  }

  lemma CreateKeeps(s: State, id: Sid, fd: Fd)
    requires Inv(s)
    ensures Inv(StepCreate(s, id, fd))
  {
    if !(id in s.shared || id in s.destroyed || fd in s.fds) {
      var s' := StepCreate(s, id, fd);
      forall x | x in s'.shared
        ensures PortFits(s'.shared[x], s'.threads, |Names(s'.fds, x)|, x)
      {
        NamesWith(s.fds, fd, id, x);
        if x == id {
          NobodyKnows(s, id);
          NewPortFits(s.threads, id);
        }
      }
    }
  }

  lemma DuplicateKeeps(s: State, fd: Fd, copy: Fd)
    requires Inv(s)
    ensures Inv(StepDuplicate(s, fd, copy))
  {
    if Usable(s, fd) && copy !in s.fds {
      var s' := StepDuplicate(s, fd, copy);
      forall x | x in s'.shared
        ensures PortFits(s'.shared[x], s'.threads, |Names(s'.fds, x)|, x)
      {
        NamesWith(s.fds, copy, s.fds[fd], x);
        assert PortFits(s.shared[x], s.threads, |Names(s.fds, x)|, x);
      }
    }
  }

  lemma CloseFits(h: Shared, threads: map<Thread, Phase>, names: nat, id: Sid, t: Thread)
    requires PortFits(h, threads, names, id) && !h.closing && PhaseOf(threads, t).Outside?
    ensures h.aliases > 0
    ensures PortFits(h.(aliases := h.aliases - 1, closing := h.aliases == 1),
                     threads[t := if h.aliases == 1 then CloseBegan(id) else Outside], names - 1, id)
  {
    var p := if h.aliases == 1 then CloseBegan(id) else Outside;
    AtMove(threads, t, p, Using(id));
    OwnersMove(threads, t, p, id);
    NoOwners(threads, id);
  }

  lemma ClosePorts(s: State, t: Thread, fd: Fd)
    requires Inv(s) && PhaseOf(s.threads, t).Outside? && Usable(s, fd)
    ensures PortsFit(StepClose(s, t, fd))
  {
    var s', id := StepClose(s, t, fd), s.fds[fd];
    CloseFits(s.shared[id], s.threads, |Names(s.fds, id)|, id, t);
    forall x | x in s'.shared
      ensures PortFits(s'.shared[x], s'.threads, |Names(s'.fds, x)|, x)
    {
      NamesWithout(s.fds, fd, x);
      if x != id {
        OtherPort(s.shared[x], s.threads, |Names(s.fds, x)|, x, t, s'.threads[t]);
      }
    }
  }

  lemma CloseKeeps(s: State, t: Thread, fd: Fd)
    requires Inv(s)
    ensures Inv(StepClose(s, t, fd))
  {
    if PhaseOf(s.threads, t).Outside? && Usable(s, fd) {
      ClosePorts(s, t, fd);
    }
  }

  lemma StepKeeps(s: State, a: Action)
    requires Inv(s)
    ensures Inv(Step(s, a))
  {
    match a
    case Create(id, fd) => CreateKeeps(s, id, fd);
    case Duplicate(fd, copy) => DuplicateKeeps(s, fd, copy);
    case Acquire(t, fd) => AcquireKeeps(s, t, fd);
    case Put(t) => PutKeeps(s, t);
    case Close(t, fd) => CloseKeeps(s, t, fd);
    case Look(t) => LookKeeps(s, t);
    case Wake(t) => WakeKeeps(s, t);
    case Destroy(t) => DestroyKeeps(s, t);
  }

  lemma {:induction false} RunKeeps(actions: seq<Action>)
    ensures Inv(Run(actions))
  {
    if actions != [] {
      RunKeeps(actions[..|actions| - 1]);
      StepKeeps(Run(actions[..|actions| - 1]), actions[|actions| - 1]);
    }
  }

  // -------------------------------------------------------------------- results

  /** In every interleaving a port is destroyed at most once, and whatever a thread is about to touch exists. */
  lemma NeverTouchedAfterDestroy(actions: seq<Action>)
    ensures var s := Run(actions);
            && (forall i, j :: 0 <= i < j < |s.destroyed| ==> s.destroyed[i] != s.destroyed[j])
            && (forall t :: t in s.threads && !s.threads[t].Outside? ==>
                  s.threads[t].s in s.shared && s.threads[t].s !in s.destroyed)
            && (forall fd :: fd in s.fds ==> s.fds[fd] in s.shared && s.fds[fd] !in s.destroyed)
  {
    RunKeeps(actions);
  }

  /** When a thread destroys a port there are no aliases, no references, and no other thread near it. */
  lemma DestroyedUnreferenced(actions: seq<Action>, t: Thread)
    requires PhaseOf(Run(actions).threads, t).PutDestroys? || PhaseOf(Run(actions).threads, t).CloseDestroys?
    ensures var s := Run(actions);
            var id := s.threads[t].s;
            && id in s.shared && s.shared[id].aliases == 0 && s.shared[id].refs == 0
            && (forall fd :: fd in s.fds ==> s.fds[fd] != id)
            && (forall u :: u in s.threads && u != t && !s.threads[u].Outside? ==> s.threads[u].s != id)
  {
    RunKeeps(actions);
    Unreferenced(Run(actions), t);
  }

  /** A port whose close timed out waits for its references, and the put that drops the last one destroys it;
      a port without aliases is never forgotten. */
  lemma TimedOutCloseIsDeferred(actions: seq<Action>, id: Sid)
    requires id in Run(actions).shared && Run(actions).shared[id].aliases == 0
    ensures var s := Run(actions);
            if s.shared[id].detached && s.shared[id].refs > 0 then
              (exists t :: t in s.threads && s.threads[t] == Using(id)) &&
              (forall t :: t in s.threads && s.threads[t] == Using(id) && s.shared[id].refs == 1 ==>
                 PhaseOf(StepPut(s, t).threads, t) == PutDestroys(id))
            else exists t :: t in s.threads && Owner(s.threads[t], id)
  {
    RunKeeps(actions);
    var s := Run(actions);
    assert PortFits(s.shared[id], s.threads, |Names(s.fds, id)|, id);
    if s.shared[id].detached && s.shared[id].refs > 0 {
      var t :| t in At(s.threads, Using(id));
      assert t in s.threads && s.threads[t] == Using(id);
    } else {
      var t :| t in Owners(s.threads, id);
      assert t in s.threads && Owner(s.threads[t], id);
    }
  }

  // ------------------------------------------------------------ what is granted

  /** A descriptor in the table leads to a port that is not closing, so nobody who names it is refused. */
  lemma NamedIsUsable(actions: seq<Action>, fd: Fd)
    requires fd in Run(actions).fds
    ensures Usable(Run(actions), fd)
  {
    RunKeeps(actions);
    var s := Run(actions);
    var id := s.fds[fd];
    assert PortFits(s.shared[id], s.threads, |Names(s.fds, id)|, id);
    assert fd in Names(s.fds, id);
  }

  /** An idle thread acquires and closes this descriptor, and it can be duplicated under every free number: the
      reference is counted, the copy leads to the same port, and the closed descriptor leads nowhere. */
  predicate Served(s: State, t: Thread, fd: Fd, copy: Fd)
    requires Usable(s, fd)
  {
    var id := s.fds[fd];
    var acquired, doubled, closed := Step(s, Acquire(t, fd)), Step(s, Duplicate(fd, copy)), Step(s, Close(t, fd));
    && id in acquired.shared && id in doubled.shared && id in closed.shared
    && PhaseOf(acquired.threads, t) == Using(id) && acquired.shared[id].refs == s.shared[id].refs + 1
    && doubled.fds == s.fds[copy := id] && doubled.shared[id].aliases == s.shared[id].aliases + 1
    && closed.fds == s.fds - {fd} && closed.shared[id].aliases == s.shared[id].aliases - 1
    && (closed.shared[id].closing <==> Names(s.fds, id) == {fd})
  }

  lemma UsableIsServed(s: State, t: Thread, fd: Fd, copy: Fd)
    requires Usable(s, fd) && PhaseOf(s.threads, t).Outside? && copy !in s.fds
    requires s.shared[s.fds[fd]].aliases == |Names(s.fds, s.fds[fd])|
    ensures Served(s, t, fd, copy)
  {
    Singleton(Names(s.fds, s.fds[fd]), fd);
  }

  /** Whatever a thread can name is served. */
  lemma NamedIsServed(actions: seq<Action>, t: Thread, fd: Fd, copy: Fd)
    requires fd in Run(actions).fds && PhaseOf(Run(actions).threads, t).Outside? && copy !in Run(actions).fds
    ensures Usable(Run(actions), fd) && Served(Run(actions), t, fd, copy)
  {
    NamedIsUsable(actions, fd);
    RunKeeps(actions);
    var s := Run(actions);
    var id := s.fds[fd];
    assert PortFits(s.shared[id], s.threads, |Names(s.fds, id)|, id);
    UsableIsServed(s, t, fd, copy);
  }

  /** Closing the last descriptor of a port that nobody uses destroys it, in three steps. */
  lemma LastCloseDestroys(actions: seq<Action>, t: Thread, fd: Fd)
    requires var s := Run(actions);
             fd in s.fds && PhaseOf(s.threads, t).Outside? && Names(s.fds, s.fds[fd]) == {fd} &&
             At(s.threads, Using(s.fds[fd])) == {}
    ensures var s := Run(actions);
            var s' := Step(Step(Step(s, Close(t, fd)), Look(t)), Destroy(t));
            s'.destroyed == s.destroyed + [s.fds[fd]] && s.fds[fd] !in s'.shared
  {
    NamedIsUsable(actions, fd);
    RunKeeps(actions);
    var s := Run(actions);
    assert PortFits(s.shared[s.fds[fd]], s.threads, |Names(s.fds, s.fds[fd])|, s.fds[fd]);
  }
}
