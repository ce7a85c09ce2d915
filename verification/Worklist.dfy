/**
 The two intrusive worklists of a Windows port (src/wepoll_ex_port.c): registrations
 to be rearmed and fired one-shots, and the pass of a wait over both.
 */
module Worklist {
  import opened Chains

  /** The `prev`, `next` and flag fields a registration has for one of the lists. */
  class Link {
    var prev: Link?
    var next: Link?
    var flag: bool

    constructor ()
      ensures prev == null && next == null && !flag
    {
      prev, next, flag := null, null, false;
    }
  }

  /** Link `j` of the list `s` has the right neighbours. */
  ghost predicate Wired(s: seq<Link>, j: int)
    requires 0 <= j < |s|
    reads s
  {
    && s[j].flag
    && s[j].prev == (if j == 0 then null else s[j - 1])
    && s[j].next == (if j + 1 == |s| then null else s[j + 1])
  }

  class List {
    var head: Link?
    var tail: Link?
    var count: nat
    ghost var items: seq<Link>
    ghost var all: set<Link>       // one link for each registration of the port

    /** Head, tail, count and links describe the list. */
    ghost predicate Linked()
      reads this, items
    {
      && NoDuplicates(items) && count == |items|
      && head == (if items == [] then null else items[0])
      && tail == (if items == [] then null else items[|items| - 1])
      && (forall j :: 0 <= j < |items| ==> Wired(items, j))
    }

    /** Besides, no other registration is flagged or has a link set. */
    ghost predicate Valid()
      reads this, items, all
    {
      && Linked() && (forall x :: x in items ==> x in all)
      && (forall x :: x in all && x !in items ==> !x.flag && x.prev == null && x.next == null)
    }

    constructor (all: set<Link>)
      requires forall x :: x in all ==> !x.flag && x.prev == null && x.next == null
      ensures Valid() && items == [] && this.all == all
    {
      this.all := all;
      head, tail, count, items := null, null, 0, [];
    }

    method Append(x: Link)
      requires Linked() && x !in items && x.next == null
      modifies this`head, this`tail, this`count, this`items, items, x
      ensures Linked() && items == old(items) + [x] && x.flag
    {
      x.flag := true;
      x.prev := tail;
      if tail != null {
        tail.next := x;
      } else {
        head := x;
      }
      tail := x;
      count, items := count + 1, items + [x];
      forall j | 0 <= j < |items|
        ensures Wired(items, j)
      {
        assert j < |old(items)| ==> old(Wired(items, j));
      }
    }

    method Unlink(x: Link, ghost k: nat)
      requires Linked() && k < |items| && items[k] == x
      modifies this`head, this`tail, this`count, this`items, items
      ensures Linked() && items == old(items)[..k] + old(items)[k + 1..]
      ensures !x.flag && x.prev == null && x.next == null
    {
      ghost var s := items;
      assert Wired(s, k) && (k > 0 ==> Wired(s, k - 1)) && (k + 1 < |s| ==> Wired(s, k + 1));
      if x.prev != null {
        x.prev.next := x.next;
      } else {
        head := x.next;
      }
      if x.next != null {
        x.next.prev := x.prev;
      } else {
        tail := x.prev;
      }
      x.next, x.prev, x.flag := null, null, false;
      count, items := count - 1, s[..k] + s[k + 1..];
      forall j | 0 <= j < |items|
        ensures Wired(items, j)
      {
        if j < k {
          assert old(Wired(s, j)) && items[j] == s[j];
        } else {
          assert old(Wired(s, j + 1)) && items[j] == s[j + 1];
        }
      }
    }

    lemma FlagIsMembership(x: Link)
      requires Valid() && x in all
      ensures x.flag <==> x in items
    {
      if x in items {
        var k :| 0 <= k < |items| && items[k] == x;
        assert Wired(items, k);
      }
    }

    method Remove(x: Link) returns (ghost k: nat)
      requires Valid() && x in items
      modifies this`head, this`tail, this`count, this`items, items
      ensures k < |old(items)| && old(items)[k] == x && items == old(items)[..k] + old(items)[k + 1..]
      ensures Valid() && !x.flag
    {
      k :| k < |items| && items[k] == x;
      Cut(items, k);
      Unlink(x, k);
    }

    /** `ep_sock_set_needs_rearm_locked` and `ep_sock_set_oneshot_fired_locked`: the flag and membership move
        together, so a registration is linked once exactly when its flag is set. */
    method Set(x: Link, on: bool)
      requires Valid() && x in all
      modifies this`head, this`tail, this`count, this`items, items, x
      ensures Valid() && x.flag == on
      ensures items == if (x in old(items)) == on then old(items)
                       else if on then old(items) + [x] else Without(old(items), x)
    {
      FlagIsMembership(x);
      if x.flag == on {
        return;
      }
      if on {
        Append(x);
      } else {
        ghost var s := items;
        ghost var k := Remove(x);
        WithoutAt(s, k);
      }
    }

    /** Move the head to the tail. */
    method Rotate(x: Link)
      requires Valid() && items != [] && head == x
      modifies this`head, this`tail, this`items, items
      ensures Valid() && items == old(items)[1..] + [x]
    {
      if tail == x {
        return;
      }
      assert Wired(items, 0) && Wired(items, 1) && Wired(items, |items| - 1);
      head := x.next;
      head.prev := null;
      x.next := null;
      x.prev := tail;
      tail.next := x;
      tail := x;
      items := items[1..] + [x];
      forall j | 0 <= j < |items|
        ensures Wired(items, j)
      {
        assert j + 1 < |items| ==> old(Wired(items, j + 1));
      }
    }
  }

  // ------------------------------------------------------------------ the arm pass

  /** What one submission does to the two lists. */
  datatype Visit =
    | Submitted                   // no longer waiting to be rearmed
    | Deferred                    // failed, or cannot be submitted yet
    | Dropped                     // the handle is closed: off both lists
    | Published(fires: bool)      // a local shutdown became a ready node, firing a one-shot

  datatype Lists = Lists(rearm: seq<Id>, oneshot: seq<Id>)

  /** One turn of the first loop of `ep_port_arm_pending_locked`. */
  function RearmTurn(l: Lists, v: Visit): Lists
    requires l.rearm != []
  {
    var x, rest := l.rearm[0], l.rearm[1..];
    match v
    case Submitted => l.(rearm := rest)
    case Deferred => l.(rearm := rest + [x])
    case Dropped => Lists(rest, Without(l.oneshot, x))
    case Published(fires) => Lists(rest, if fires && x !in l.oneshot then l.oneshot + [x] else l.oneshot)
  }

  /** One turn of the second loop: the fired one-shot is kept, or its handle is closed. */
  function OneshotTurn(l: Lists, v: Visit): Lists
    requires l.oneshot != []
  {
    var x, rest := l.oneshot[0], l.oneshot[1..];
    if v.Dropped? then Lists(Without(l.rearm, x), rest) else l.(oneshot := rest + [x])
  }

  /** The first loop retires no registration of the second list. */
  predicate KeepsOneshots(l: Lists, first: seq<Visit>)
    requires |first| == |l.rearm|
  {
    forall k :: 0 <= k < |first| && first[k].Dropped? ==> l.rearm[k] !in l.oneshot
  }

  /** After `i` turns of the first loop, with `o` the second list: it starts as before unless one of its
      registrations was dropped, and a dropped one is out of it. */
  ghost predicate FirstLoop(l: Lists, first: seq<Visit>, i: nat, o: seq<Id>)
    requires |first| == |l.rearm| && i <= |first|
  {
    && (l.oneshot <= o || exists k :: 0 <= k < i && first[k].Dropped? && l.rearm[k] in l.oneshot)
    && (forall k :: 0 <= k < i && first[k].Dropped? ==> l.rearm[k] !in o)
    && ((forall k :: 0 <= k < i ==> first[k] != Published(true)) ==> forall y :: y in o ==> y in l.oneshot)
  }

  lemma FirstLoopTurn(l: Lists, first: seq<Visit>, i: nat, o: seq<Id>)
    requires NoDuplicates(l.rearm) && |first| == |l.rearm| && i < |first| && FirstLoop(l, first, i, o)
    ensures FirstLoop(l, first, i + 1, RearmTurn(Lists([l.rearm[i]], o), first[i]).oneshot)
  {
    var x := l.rearm[i];
    var o' := RearmTurn(Lists([x], o), first[i]).oneshot;
    if first[i].Dropped? {
      forall y
        ensures y in o' <==> y in o && y != x
      {
        WithoutIn(o, x, y);
      }
      assert x !in l.oneshot && l.oneshot <= o && x !in o ==> o' == o;
      assert x in o && x !in l.oneshot && l.oneshot <= o ==> l.oneshot <= o' by {
        if x in o && x !in l.oneshot && l.oneshot <= o {
          WithoutPrefix(o, x, |l.oneshot|);
        }
      }
    }
  }

  lemma {:induction false} WithoutPrefix(s: seq<Id>, x: Id, n: nat)
    requires n <= |s| && x !in s[..n]
    ensures s[..n] <= Without(s, x)
  {
    if n > 0 {
      assert s[..n][0] == s[0] && s[..n][1..] == s[1..][..n - 1];
      WithoutPrefix(s[1..], x, n - 1);
    }
  }

  /** Every fired one-shot is retired by the first loop, and none newly fires in it. */
  ghost predicate DropsAll(l: Lists, first: seq<Visit>)
    requires |first| == |l.rearm|
  {
    && (forall x :: x in l.oneshot ==> exists k :: 0 <= k < |first| && l.rearm[k] == x && first[k].Dropped?)
    && (forall k :: 0 <= k < |first| ==> first[k] != Published(true))
  }

  lemma DroppedAll(l: Lists, first: seq<Visit>, o: seq<Id>)
    requires |first| == |l.rearm| && FirstLoop(l, first, |first|, o) && DropsAll(l, first)
    ensures forall y :: y !in o
  {
    forall y | y in l.oneshot
      ensures y !in o
    {
      var k :| 0 <= k < |first| && l.rearm[k] == y && first[k].Dropped?;
    }
  }

  /** `ep_port_arm_pending_locked`.  The first loop visits the registrations queued at its start once each, in
      order.  The second takes its budget before the first loop runs: it does the same exactly when the first
      loop retires none of its registrations, and it can run out of list. */
  method ArmPass(l: Lists, first: seq<Visit>, second: seq<Visit>)
      returns (l': Lists, rearms: seq<Id>, probes: seq<Id>, stuck: bool)
    requires NoDuplicates(l.rearm) && NoDuplicates(l.oneshot) && |first| == |l.rearm| && |second| == |l.oneshot|
    ensures rearms == l.rearm
    ensures !stuck && probes == l.oneshot <==> KeepsOneshots(l, first)
    ensures l.oneshot != [] && DropsAll(l, first) ==> stuck
  {
    l', rearms := l, [];
    for i := 0 to |l.rearm|
      invariant rearms == l.rearm[..i] && l.rearm[i..] <= l'.rearm
      invariant FirstLoop(l, first, i, l'.oneshot)
    {
      var x := l'.rearm[0];
      assert x == l.rearm[i];
      FirstLoopTurn(l, first, i, l'.oneshot);
      l', rearms := RearmTurn(l', first[i]), rearms + [x];
    }
    if DropsAll(l, first) {
      DroppedAll(l, first, l'.oneshot);
    }
    l', probes, stuck := ProbeOneshots(l', l.oneshot, second);
  }

  /** The second loop, with the budget of the list `queued` as it was at the start of the pass. */
  method ProbeOneshots(l: Lists, queued: seq<Id>, second: seq<Visit>) returns (l': Lists, probes: seq<Id>, stuck: bool)
    requires |second| == |queued|
    ensures queued <= l.oneshot ==> !stuck && probes == queued
    ensures !stuck ==> |probes| == |queued|
    ensures (forall y :: y !in l.oneshot) && queued != [] ==> stuck
    ensures forall y :: y in probes ==> y in l.oneshot
  {
    l', probes, stuck := l, [], false;
    for i := 0 to |queued|
      invariant |probes| == i
      invariant queued <= l.oneshot ==> probes == queued[..i] && queued[i..] <= l'.oneshot
      invariant forall y :: y in probes || y in l'.oneshot ==> y in l.oneshot
      invariant (forall y :: y !in l.oneshot) ==> i == 0
    {
      if l'.oneshot == [] {
        stuck := true;
        break;
      }
      var x := l'.oneshot[0];
      assert x in l.oneshot;
      l', probes := OneshotTurn(l', second[i]), probes + [x];
    }
  }

  /** One registration on both lists whose handle is closed: the second loop has no head to visit. */
  method PassRunsOut() returns (stuck: bool)
    ensures stuck
  {
    var l, first := Lists([7], [7]), [Dropped];
    assert l.rearm[0] == 7 && first[0].Dropped?;
    var l', rearms, probes;
    l', rearms, probes, stuck := ArmPass(l, first, [Deferred]);
  }
}
