/**
 Lifetime of the POSIX metadata ports (src/wepoll_ex_posix.c): registry aliases,
 references, and a closer that waits on a condition variable and can be cancelled
 there (section 2.9.5 of POSIX.1-2008, System Interfaces).  Each step is one
 critical section under `g_posix_lock`, or the unlocked free of a port.
 */
module PosixPort {
  import opened Registry
  import opened Sets

  type Pid = nat        // identity of a `posix_port_t`, never reused

  datatype Port = Port(aliases: nat, refs: nat, closing: bool, retired: bool, waiter: bool)

  datatype Stage =
    | Away
    | Holding(p: Pid)      // between acquire and release
    | Marked(p: Pid)       // removed the last alias, about to wait
    | Waiting(p: Pid)      // in the condition wait
    | Freeing(p: Pid)      // about to free the port

  datatype World = World(names: map<Fd, Pid>, ports: map<Pid, Port>, threads: map<Thread, Stage>, freed: seq<Pid>)

  datatype Event =
    | Create(t: Thread, p: Pid, fd: Fd)
    | Alias(fd: Fd, copy: Fd)         // a descriptor is found to name the same epoll instance
    | Acquire(t: Thread, fd: Fd)
    | Unname(t: Thread, fd: Fd)       // wepoll_close, or a stale descriptor found while acquiring
    | Wait(t: Thread)
    | Wake(t: Thread)
    | Cancel(t: Thread)
    | Release(t: Thread)
    | Free(t: Thread)

  function Begin(): World {
    World(map[], map[], map[], [])
  }

  function StageOf(threads: map<Thread, Stage>, t: Thread): Stage {
    if t in threads then threads[t] else Away
  }

  function Go(w: World, t: Thread, q: Stage): World {
    w.(threads := w.threads[t := q])
  }

  function DoCreate(w: World, t: Thread, p: Pid, fd: Fd): World {
    if !StageOf(w.threads, t).Away? || p in w.ports || p in w.freed || fd in w.names then w
    else Go(w.(names := w.names[fd := p], ports := w.ports[p := Port(1, 1, false, false, false)]), t, Holding(p))
  }

  function DoAlias(w: World, fd: Fd, copy: Fd): World {
    if fd !in w.names || copy in w.names || w.names[fd] !in w.ports || w.ports[w.names[fd]].closing then w
    else
      var p := w.names[fd];
      w.(names := w.names[copy := p], ports := w.ports[p := w.ports[p].(aliases := w.ports[p].aliases + 1)])
  }

  /** `port_acquire_or_create` on a registered descriptor: a closing port is refused. */
  function DoAcquire(w: World, t: Thread, fd: Fd): World {
    if !StageOf(w.threads, t).Away? || fd !in w.names || w.names[fd] !in w.ports || w.ports[w.names[fd]].closing then w
    else
      var p := w.names[fd];
      Go(w.(ports := w.ports[p := w.ports[p].(refs := w.ports[p].refs + 1)]), t, Holding(p))
  }

  function DoUnname(w: World, t: Thread, fd: Fd): World {
    if !StageOf(w.threads, t).Away? || fd !in w.names || w.names[fd] !in w.ports || w.ports[w.names[fd]].closing then w
    else
      var p := w.names[fd];
      var left := if w.ports[p].aliases != 0 then w.ports[p].aliases - 1 else 0;
      Go(w.(names := w.names - {fd}, ports := w.ports[p := w.ports[p].(aliases := left, closing := left == 0)]), t,
         if left == 0 then Marked(p) else Away)
  }

  /** `port_wait_and_free` from its lock to its first wait. */
  function DoWait(w: World, t: Thread): World {
    if !StageOf(w.threads, t).Marked? || w.threads[t].p !in w.ports then w
    else
      var p := w.threads[t].p;
      if w.ports[p].refs != 0
      then Go(w.(ports := w.ports[p := w.ports[p].(retired := true, waiter := true)]), t, Waiting(p))
      else Go(w.(ports := w.ports[p := w.ports[p].(retired := false, waiter := false)]), t, Freeing(p))
  }

  /** The wait returns; with references left it waits again. */
  function DoWake(w: World, t: Thread): World {
    if !StageOf(w.threads, t).Waiting? || w.threads[t].p !in w.ports || w.ports[w.threads[t].p].refs != 0 then w
    else
      var p := w.threads[t].p;
      Go(w.(ports := w.ports[p := w.ports[p].(retired := false, waiter := false)]), t, Freeing(p))
  }

  /** The closer is cancelled in the wait: `posix_close_wait_cancel_cleanup`. */
  function DoCancel(w: World, t: Thread): World {
    if !StageOf(w.threads, t).Waiting? || w.threads[t].p !in w.ports then w
    else
      var p := w.threads[t].p;
      if w.ports[p].refs == 0
      then Go(w.(ports := w.ports[p := w.ports[p].(retired := false, waiter := false)]), t, Freeing(p))
      else Go(w.(ports := w.ports[p := w.ports[p].(waiter := false)]), t, Away)
  }

  /** `port_release` */
  function DoRelease(w: World, t: Thread): World {
    if !StageOf(w.threads, t).Holding? || w.threads[t].p !in w.ports || w.ports[w.threads[t].p].refs == 0 then w
    else
      var p := w.threads[t].p;
      var h := w.ports[p].(refs := w.ports[p].refs - 1);
      if h.retired && h.aliases == 0 && h.refs == 0 && !h.waiter
      then Go(w.(ports := w.ports[p := h.(retired := false)]), t, Freeing(p))
      else Go(w.(ports := w.ports[p := h]), t, Away)
  }

  function DoFree(w: World, t: Thread): World {
    if !StageOf(w.threads, t).Freeing? then w
    else
      var p := w.threads[t].p;
      Go(w.(ports := w.ports - {p}, freed := w.freed + [p]), t, Away)
  }

  function Do(w: World, e: Event): World {
    match e
    case Create(t, p, fd) => DoCreate(w, t, p, fd)
    case Alias(fd, copy) => DoAlias(w, fd, copy)
    case Acquire(t, fd) => DoAcquire(w, t, fd)
    case Unname(t, fd) => DoUnname(w, t, fd)
    case Wait(t) => DoWait(w, t)
    case Wake(t) => DoWake(w, t)
    case Cancel(t) => DoCancel(w, t)
    case Release(t) => DoRelease(w, t)
    case Free(t) => DoFree(w, t)
  }

  function After(events: seq<Event>): World {
    if events == [] then Begin() else Do(After(events[..|events| - 1]), events[|events| - 1])
  }

  // ---------------------------------------------------------------- invariant

  function Holders(threads: map<Thread, Stage>, p: Pid): set<Thread> {
    set t | t in threads && threads[t] == Holding(p)
  }

  predicate Closes(q: Stage, p: Pid) {
    q == Marked(p) || q == Waiting(p) || q == Freeing(p)
  }

  function Closers(threads: map<Thread, Stage>, p: Pid): set<Thread> {
    set t | t in threads && Closes(threads[t], p)
  }

  /** The closer was cancelled: the last holder has to free the port. */
  predicate Abandoned(h: Port) {
    h.closing && h.retired && !h.waiter
  }

  ghost predicate Fits(h: Port, threads: map<Thread, Stage>, names: nat, p: Pid) {
    && h.refs == |Holders(threads, p)| && h.aliases == names
    && (h.closing <==> h.aliases == 0) && (h.retired ==> h.closing) && (h.waiter ==> h.retired)
    && (Abandoned(h) ==> h.refs > 0)
    && |Closers(threads, p)| == (if h.closing && !Abandoned(h) then 1 else 0)
    && (forall t :: t in threads && Closes(threads[t], p) ==>
          h.closing && !Abandoned(h) && (threads[t].Waiting? <==> h.retired) && (threads[t].Freeing? ==> h.refs == 0))
  }

  ghost predicate PortsFit(w: World) {
    forall p :: p in w.ports ==> Fits(w.ports[p], w.threads, |Names(w.names, p)|, p)
  }

  ghost predicate Rooted(w: World) {
    && (forall fd :: fd in w.names ==> w.names[fd] in w.ports)
    && (forall t :: t in w.threads && !w.threads[t].Away? ==> w.threads[t].p in w.ports)
  }

  ghost predicate FreedOnce(w: World) {
    && (forall i, j :: 0 <= i < j < |w.freed| ==> w.freed[i] != w.freed[j])
    && (forall i :: 0 <= i < |w.freed| ==> w.freed[i] !in w.ports)
  }

  ghost predicate Sound(w: World) {
    PortsFit(w) && Rooted(w) && FreedOnce(w)
  }

  // ------------------------------------------------------------------ one step

  lemma HoldersMove(threads: map<Thread, Stage>, t: Thread, q: Stage, p: Pid)
    ensures |Holders(threads[t := q], p)| ==
              |Holders(threads, p)| - (if StageOf(threads, t) == Holding(p) then 1 else 0)
                + (if q == Holding(p) then 1 else 0)
  {
    CardinalityMove(Holders(threads, p), Holders(threads[t := q], p), t);
  }

  lemma ClosersMove(threads: map<Thread, Stage>, t: Thread, q: Stage, p: Pid)
    ensures |Closers(threads[t := q], p)| ==
              |Closers(threads, p)| - (if Closes(StageOf(threads, t), p) then 1 else 0) + (if Closes(q, p) then 1 else 0)
  {
    CardinalityMove(Closers(threads, p), Closers(threads[t := q], p), t);
  }

  lemma NoClosers(threads: map<Thread, Stage>, p: Pid)
    ensures |Closers(threads, p)| == 0 ==> forall t :: t in threads ==> !Closes(threads[t], p)
  {
    if |Closers(threads, p)| == 0 {
      forall t | t in threads
        ensures !Closes(threads[t], p)
      {
        assert t !in Closers(threads, p);
      }
    }
  }

  lemma OnlyCloser(threads: map<Thread, Stage>, p: Pid, t: Thread)
    requires |Closers(threads, p)| <= 1 && Closes(StageOf(threads, t), p)
    ensures forall u :: u in threads && u != t ==> !Closes(threads[u], p)
  {
    CardinalityWithout(Closers(threads, p), t);
    forall u | u in threads && u != t
      ensures !Closes(threads[u], p)
    {
      assert u !in Closers(threads, p) - {t};
    }
  }

  lemma Elsewhere(h: Port, threads: map<Thread, Stage>, names: nat, p: Pid, t: Thread, q: Stage)
    requires Fits(h, threads, names, p)
    requires q.Away? || q.p != p
    requires StageOf(threads, t).Away? || StageOf(threads, t).p != p
    ensures Fits(h, threads[t := q], names, p)
  {
    HoldersMove(threads, t, q, p);
    ClosersMove(threads, t, q, p);
  }

  lemma GoPorts(w: World, t: Thread, q: Stage, p: Pid, h: Port)
    requires PortsFit(w) && p in w.ports
    requires q.Away? || q.p == p
    requires StageOf(w.threads, t).Away? || StageOf(w.threads, t).p == p
    requires Fits(h, w.threads[t := q], |Names(w.names, p)|, p)
    ensures PortsFit(Go(w.(ports := w.ports[p := h]), t, q))
  {
    var w' := Go(w.(ports := w.ports[p := h]), t, q);
    forall x | x in w'.ports
      ensures Fits(w'.ports[x], w'.threads, |Names(w'.names, x)|, x)
    {
      if x != p {
        Elsewhere(w.ports[x], w.threads, |Names(w.names, x)|, x, t, q);
      }
    }
  }

  /** A step of `t` from and to stages of port `p` only, with names unchanged. */
  lemma GoKeeps(w: World, t: Thread, q: Stage, p: Pid, h: Port)
    requires Sound(w) && p in w.ports
    requires q.Away? || q.p == p
    requires StageOf(w.threads, t).Away? || StageOf(w.threads, t).p == p
    requires Fits(h, w.threads[t := q], |Names(w.names, p)|, p)
    ensures Sound(Go(w.(ports := w.ports[p := h]), t, q))
  {
    GoPorts(w, t, q, p, h);
    GoRooted(w, t, q, p, h);
  }

  lemma GoRooted(w: World, t: Thread, q: Stage, p: Pid, h: Port)
    requires Rooted(w) && FreedOnce(w) && p in w.ports && (q.Away? || q.p == p)
    ensures Rooted(Go(w.(ports := w.ports[p := h]), t, q)) && FreedOnce(Go(w.(ports := w.ports[p := h]), t, q))
  {
  }

  lemma AcquireKeeps(w: World, t: Thread, fd: Fd)
    requires Sound(w)
    ensures Sound(DoAcquire(w, t, fd))
  {
    if DoAcquire(w, t, fd) != w {
      var p := w.names[fd];
      HoldersMove(w.threads, t, Holding(p), p);
      ClosersMove(w.threads, t, Holding(p), p);
      GoKeeps(w, t, Holding(p), p, w.ports[p].(refs := w.ports[p].refs + 1));
    }
  }

  lemma WaitFits(h: Port, threads: map<Thread, Stage>, names: nat, p: Pid, t: Thread)
    requires Fits(h, threads, names, p) && Closes(StageOf(threads, t), p) && !StageOf(threads, t).Freeing?
    ensures if h.refs != 0 then Fits(h.(retired := true, waiter := true), threads[t := Waiting(p)], names, p)
            else Fits(h.(retired := false, waiter := false), threads[t := Freeing(p)], names, p)
  {
    OnlyCloser(threads, p, t);
    HoldersMove(threads, t, Waiting(p), p);
    ClosersMove(threads, t, Waiting(p), p);
    HoldersMove(threads, t, Freeing(p), p);
    ClosersMove(threads, t, Freeing(p), p);
  }

  lemma WaitKeeps(w: World, t: Thread)
    requires Sound(w)
    ensures Sound(DoWait(w, t)) && Sound(DoWake(w, t))
  {
    if StageOf(w.threads, t).Marked? || StageOf(w.threads, t).Waiting? {
      var p := w.threads[t].p;
      var h := w.ports[p];
      WaitFits(h, w.threads, |Names(w.names, p)|, p, t);
      if h.refs != 0 {
        GoKeeps(w, t, Waiting(p), p, h.(retired := true, waiter := true));
      } else {
        GoKeeps(w, t, Freeing(p), p, h.(retired := false, waiter := false));
      }
    }
  }

  lemma CancelFits(h: Port, threads: map<Thread, Stage>, names: nat, p: Pid, t: Thread)
    requires Fits(h, threads, names, p) && StageOf(threads, t) == Waiting(p) && h.refs != 0
    ensures Fits(h.(waiter := false), threads[t := Away], names, p)
  {
    OnlyCloser(threads, p, t);
    HoldersMove(threads, t, Away, p);
    ClosersMove(threads, t, Away, p);
  }

  lemma CancelKeeps(w: World, t: Thread)
    requires Sound(w)
    ensures Sound(DoCancel(w, t))
  {
    if StageOf(w.threads, t).Waiting? {
      var p := w.threads[t].p;
      var h := w.ports[p];
      if h.refs == 0 {
        WaitFits(h, w.threads, |Names(w.names, p)|, p, t);
        GoKeeps(w, t, Freeing(p), p, h.(retired := false, waiter := false));
      } else {
        CancelFits(h, w.threads, |Names(w.names, p)|, p, t);
        GoKeeps(w, t, Away, p, h.(waiter := false));
      }
    }
  }

  lemma ReleaseFits(h: Port, threads: map<Thread, Stage>, names: nat, p: Pid, t: Thread)
    requires Fits(h, threads, names, p) && StageOf(threads, t) == Holding(p)
    ensures h.refs > 0
    ensures if h.refs == 1 && Abandoned(h) then Fits(h.(refs := 0, retired := false), threads[t := Freeing(p)], names, p)
            else Fits(h.(refs := h.refs - 1), threads[t := Away], names, p)
  {
    assert t in Holders(threads, p);
    NoClosers(threads, p);
    HoldersMove(threads, t, Away, p);
    ClosersMove(threads, t, Away, p);
    HoldersMove(threads, t, Freeing(p), p);
    ClosersMove(threads, t, Freeing(p), p);
  }

  lemma ReleaseKeeps(w: World, t: Thread)
    requires Sound(w)
    ensures Sound(DoRelease(w, t))
  {
    if StageOf(w.threads, t).Holding? {
      var p := w.threads[t].p;
      var h := w.ports[p];
      ReleaseFits(h, w.threads, |Names(w.names, p)|, p, t);
      if h.refs == 1 && Abandoned(h) {
        GoKeeps(w, t, Freeing(p), p, h.(refs := 0, retired := false));
      } else {
        GoKeeps(w, t, Away, p, h.(refs := h.refs - 1));
      }
    }
  }

  /** A port is freed only without names and holders, and by the only thread that still knows it. */
  lemma Unreferenced(w: World, t: Thread)
    requires Sound(w) && StageOf(w.threads, t).Freeing?
    ensures var p := w.threads[t].p;
            && p in w.ports && w.ports[p].aliases == 0 && w.ports[p].refs == 0
            && (forall fd :: fd in w.names ==> w.names[fd] != p)
            && (forall u :: u in w.threads && u != t && !w.threads[u].Away? ==> w.threads[u].p != p)
  {
    var p := w.threads[t].p;
    assert Fits(w.ports[p], w.threads, |Names(w.names, p)|, p);
    OnlyCloser(w.threads, p, t);
    forall fd | fd in w.names
      ensures w.names[fd] != p
    {
      assert fd !in Names(w.names, p);
    }
    forall u | u in w.threads && u != t && !w.threads[u].Away?
      ensures w.threads[u].p != p
    {
      assert u !in Holders(w.threads, p);
    }
  }

  lemma FreePorts(w: World, t: Thread)
    requires Sound(w) && StageOf(w.threads, t).Freeing?
    ensures PortsFit(DoFree(w, t))
  {
    var w' := DoFree(w, t);
    forall x | x in w'.ports
      ensures Fits(w'.ports[x], w'.threads, |Names(w'.names, x)|, x)
    {
      Elsewhere(w.ports[x], w.threads, |Names(w.names, x)|, x, t, Away);
    }
  }

  lemma FreeKeeps(w: World, t: Thread)
    requires Sound(w)
    ensures Sound(DoFree(w, t))
  {
    if StageOf(w.threads, t).Freeing? {
      Unreferenced(w, t);
      FreePorts(w, t);
    }
  }

  lemma NobodyKnows(w: World, p: Pid)
    requires Rooted(w) && p !in w.ports
    ensures Names(w.names, p) == {} && Holders(w.threads, p) == {} && Closers(w.threads, p) == {}
  {
    assert forall fd :: fd in w.names ==> w.names[fd] != p;
    forall t | t in w.threads
      ensures w.threads[t] != Holding(p) && !Closes(w.threads[t], p)
    {
      assert w.threads[t].Away? || w.threads[t].p != p;
    }
  }

  lemma NewFits(threads: map<Thread, Stage>, t: Thread, p: Pid)
    requires Holders(threads, p) == {} && Closers(threads, p) == {} && StageOf(threads, t).Away?
    ensures Fits(Port(1, 1, false, false, false), threads[t := Holding(p)], 1, p)
  {
    HoldersMove(threads, t, Holding(p), p);
    ClosersMove(threads, t, Holding(p), p);
    NoClosers(threads[t := Holding(p)], p);
  }

  lemma CreateKeeps(w: World, t: Thread, p: Pid, fd: Fd)
    requires Sound(w)
    ensures Sound(DoCreate(w, t, p, fd))
  {
    if DoCreate(w, t, p, fd) != w {
      var w' := DoCreate(w, t, p, fd);
      forall x | x in w'.ports
        ensures Fits(w'.ports[x], w'.threads, |Names(w'.names, x)|, x)
      {
        NamesWith(w.names, fd, p, x);
        if x == p {
          NobodyKnows(w, p);
          NewFits(w.threads, t, p);
        } else {
          Elsewhere(w.ports[x], w.threads, |Names(w.names, x)|, x, t, Holding(p));
        }
      }
    }
  }

  lemma AliasKeeps(w: World, fd: Fd, copy: Fd)
    requires Sound(w)
    ensures Sound(DoAlias(w, fd, copy))
  {
    if DoAlias(w, fd, copy) != w {
      var w' := DoAlias(w, fd, copy);
      forall x | x in w'.ports
        ensures Fits(w'.ports[x], w'.threads, |Names(w'.names, x)|, x)
      {
        NamesWith(w.names, copy, w.names[fd], x);
        assert Fits(w.ports[x], w.threads, |Names(w.names, x)|, x);
      }
    }
  }

  lemma UnnameKeeps(w: World, t: Thread, fd: Fd)
    requires Sound(w)
    ensures Sound(DoUnname(w, t, fd))
  {
    if DoUnname(w, t, fd) != w {
      var w', p := DoUnname(w, t, fd), w.names[fd];
      var q := w'.threads[t];
      forall x | x in w'.ports
        ensures Fits(w'.ports[x], w'.threads, |Names(w'.names, x)|, x)
      {
        NamesWithout(w.names, fd, x);
        assert Fits(w.ports[x], w.threads, |Names(w.names, x)|, x);
        if x == p {
          HoldersMove(w.threads, t, q, p);
          ClosersMove(w.threads, t, q, p);
          NoClosers(w.threads, p);
        } else {
          Elsewhere(w.ports[x], w.threads, |Names(w.names, x)|, x, t, q);
        }
      }
    }
  }

  lemma DoKeeps(w: World, e: Event)
    requires Sound(w)
    ensures Sound(Do(w, e))
  {
    match e
    case Create(t, p, fd) => CreateKeeps(w, t, p, fd);
    case Alias(fd, copy) => AliasKeeps(w, fd, copy);
    case Acquire(t, fd) => AcquireKeeps(w, t, fd);
    case Unname(t, fd) => UnnameKeeps(w, t, fd);
    case Wait(t) => WaitKeeps(w, t);
    case Wake(t) => WaitKeeps(w, t);
    case Cancel(t) => CancelKeeps(w, t);
    case Release(t) => ReleaseKeeps(w, t);
    case Free(t) => FreeKeeps(w, t);
  }

  lemma {:induction false} AfterKeeps(events: seq<Event>)
    ensures Sound(After(events))
  {
    if events != [] {
      AfterKeeps(events[..|events| - 1]);
      DoKeeps(After(events[..|events| - 1]), events[|events| - 1]);
    }
  }

  // -------------------------------------------------------------------- results

  /** In every interleaving, cancellations included, a port is freed at most once, and never while a name or a
      thread still leads to it. */
  lemma FreedAtMostOnce(events: seq<Event>)
    ensures var w := After(events);
            && (forall i, j :: 0 <= i < j < |w.freed| ==> w.freed[i] != w.freed[j])
            && (forall t :: t in w.threads && !w.threads[t].Away? ==>
                  w.threads[t].p in w.ports && w.threads[t].p !in w.freed)
            && (forall fd :: fd in w.names ==> w.names[fd] in w.ports && w.names[fd] !in w.freed)
  {
    AfterKeeps(events);
  }

  /** A port about to be freed has no aliases, no references, and no other thread near it. */
  lemma FreedUnreferenced(events: seq<Event>, t: Thread)
    requires StageOf(After(events).threads, t).Freeing?
    ensures var w := After(events);
            var p := w.threads[t].p;
            && p in w.ports && w.ports[p].aliases == 0 && w.ports[p].refs == 0
            && (forall fd :: fd in w.names ==> w.names[fd] != p)
            && (forall u :: u in w.threads && u != t && !w.threads[u].Away? ==> w.threads[u].p != p)
  {
    AfterKeeps(events);
    Unreferenced(After(events), t);
  }

  /** Somebody will free a port without aliases: its closer, or, after a cancelled close, its last holder. */
  ghost predicate Tended(w: World, p: Pid)
    requires p in w.ports
  {
    if Abandoned(w.ports[p]) then
      (exists t :: t in w.threads && w.threads[t] == Holding(p)) &&
      (forall t :: t in w.threads && w.threads[t] == Holding(p) && w.ports[p].refs == 1 ==>
         StageOf(DoRelease(w, t).threads, t) == Freeing(p))
    else exists t :: t in w.threads && Closes(w.threads[t], p)
  }

  lemma ClosingIsTended(w: World, p: Pid)
    requires Sound(w) && p in w.ports && w.ports[p].aliases == 0
    ensures Tended(w, p)
  {
    assert Fits(w.ports[p], w.threads, |Names(w.names, p)|, p);
    if Abandoned(w.ports[p]) {
      var t :| t in Holders(w.threads, p);
      assert t in w.threads && w.threads[t] == Holding(p);
    } else {
      var t :| t in Closers(w.threads, p);
      assert t in w.threads && Closes(w.threads[t], p);
    }
  }

  /** In every interleaving no port without aliases is leaked. */
  lemma NeverLeaked(events: seq<Event>, p: Pid)
    requires p in After(events).ports && After(events).ports[p].aliases == 0
    ensures Tended(After(events), p)
  {
    AfterKeeps(events);
    ClosingIsTended(After(events), p);
  }

  /** Acquiring never hands out a closing port. */
  lemma AcquiredIsOpen(events: seq<Event>, t: Thread, fd: Fd)
    requires StageOf(After(events).threads, t).Away? && StageOf(After(events + [Acquire(t, fd)]).threads, t).Holding?
    ensures var w := After(events + [Acquire(t, fd)]);
            var p := w.threads[t].p;
            p in w.ports && !w.ports[p].closing && w.ports[p].aliases > 0
  {
    AfterKeeps(events);
    assert (events + [Acquire(t, fd)])[..|events|] == events;
    var p := After(events).names[fd];
    assert Fits(After(events).ports[p], After(events).threads, |Names(After(events).names, p)|, p);
  }

  // ------------------------------------------------------------ what is granted

  /** A registered descriptor leads to a port that is not closing. */
  lemma NamedIsOpen(events: seq<Event>, fd: Fd)
    requires fd in After(events).names
    ensures var w := After(events); w.names[fd] in w.ports && !w.ports[w.names[fd]].closing
  {
    AfterKeeps(events);
    var w := After(events);
    var p := w.names[fd];
    assert Fits(w.ports[p], w.threads, |Names(w.names, p)|, p);
    assert fd in Names(w.names, p);
  }

  /** An idle thread acquires and closes whatever is registered, and a free descriptor can become another name of it. */
  lemma NamedIsServed(events: seq<Event>, t: Thread, fd: Fd, copy: Fd)
    requires fd in After(events).names && StageOf(After(events).threads, t).Away? && copy !in After(events).names
    ensures var w := After(events);
            var p := w.names[fd];
            var acquired, aliased, unnamed := Do(w, Acquire(t, fd)), Do(w, Alias(fd, copy)), Do(w, Unname(t, fd));
            && p in w.ports
            && StageOf(acquired.threads, t) == Holding(p) && acquired.ports[p].refs == w.ports[p].refs + 1
            && aliased.names == w.names[copy := p] && aliased.ports[p].aliases == w.ports[p].aliases + 1
            && unnamed.names == w.names - {fd} && unnamed.ports[p].aliases == w.ports[p].aliases - 1
            && (unnamed.ports[p].closing <==> Names(w.names, p) == {fd})
  {
    NamedIsOpen(events, fd);
    AfterKeeps(events);
    var w := After(events);
    var p := w.names[fd];
    assert Fits(w.ports[p], w.threads, |Names(w.names, p)|, p);
    Singleton(Names(w.names, p), fd);
  }

  /** Closing the last name of a port that nobody holds frees it, in three steps. */
  lemma LastCloseFrees(events: seq<Event>, t: Thread, fd: Fd)
    requires var w := After(events);
             fd in w.names && StageOf(w.threads, t).Away? && Names(w.names, w.names[fd]) == {fd} &&
             Holders(w.threads, w.names[fd]) == {}
    ensures var w := After(events);
            var w' := Do(Do(Do(w, Unname(t, fd)), Wait(t)), Free(t));
            w'.freed == w.freed + [w.names[fd]] && w.names[fd] !in w'.ports
  {
    NamedIsOpen(events, fd);
    AfterKeeps(events);
    var w := After(events);
    assert Fits(w.ports[w.names[fd]], w.threads, |Names(w.names, w.names[fd])|, w.names[fd]);
  }
}
