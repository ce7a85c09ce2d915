/**
 The open-addressing handle table of a Windows port (src/wepoll_ex_port.c): linear
 probing, growth at three quarters, and removal that reinserts the rest of the
 cluster, proved against a finite map.
 */
module FdTable {
  import opened Sets

  const SIZE_MAX := 0xFFFF_FFFF_FFFF_FFFF
  const INITIAL_FDS := 256

  datatype Cell = Free | Used(fd: nat, sock: nat)

  /** The next slot of a probe, which wraps around. */
  function Next(x: nat, n: nat): (y: nat)
    requires x < n
    ensures y == (x + 1) % n
  {
    if x + 1 == n then 0 else x + 1
  }

  /** `x` lies on the probe path from `h` up to, and not including, `k`. */
  predicate On(h: nat, x: nat, k: nat) {
    if h <= k then h <= x < k else h <= x || x < k
  }

  /** Probe steps from `x` to `e`. */
  function Dist(x: nat, e: nat, n: nat): nat
    requires x < n && e < n
  {
    if x <= e then e - x else e + n - x
  }

  // ---------------------------------------------------------------- cell arrays

  predicate Taken(c: seq<Cell>, x: nat) {
    x < |c| && c[x].Used?
  }

  /** No empty cell between an entry's home and the entry. */
  ghost predicate Reached(c: seq<Cell>, k: nat)
    requires Taken(c, k)
  {
    forall x: nat :: x < |c| && On(c[k].fd % |c|, x, k) ==> Taken(c, x)
  }

  ghost predicate Probable(c: seq<Cell>) {
    forall k: nat :: Taken(c, k) ==> Reached(c, k)
  }

  ghost predicate Distinct(c: seq<Cell>) {
    forall k: nat, m: nat :: Taken(c, k) && Taken(c, m) && k != m ==> c[k].fd != c[m].fd
  }

  /** The cells hold exactly the pairs of the map. */
  ghost predicate Holds(c: seq<Cell>, m: map<nat, nat>) {
    && (forall k: nat :: Taken(c, k) ==> c[k].fd in m && m[c[k].fd] == c[k].sock)
    && (forall fd :: fd in m ==> exists k: nat :: Taken(c, k) && c[k].fd == fd)
  }

  ghost predicate Represents(c: seq<Cell>, m: map<nat, nat>) {
    Probable(c) && Distinct(c) && Holds(c, m)
  }

  /** A probe that came to an empty cell without meeting the handle has searched the whole table. */
  lemma EmptyEndsProbe(c: seq<Cell>, m: map<nat, nat>, fd: nat, e: nat)
    requires Represents(c, m) && e < |c| && c[e].Free?
    requires forall x: nat :: x < |c| && On(fd % |c|, x, e) ==> Taken(c, x) && c[x].fd != fd
    ensures fd !in m
  {
    forall k: nat | Taken(c, k)
      ensures c[k].fd != fd
    {
      assert Reached(c, k);
      assert !On(c[k].fd % |c|, e, k) by { assert !Taken(c, e); }
    }
  }

  function Fds(c: seq<Cell>): set<nat> {
    set k | 0 <= k < |c| && c[k].Used? :: c[k].fd
  }

  lemma {:induction false} FullCount(c: seq<Cell>)
    requires Distinct(c) && forall k :: 0 <= k < |c| ==> c[k].Used?
    ensures |Fds(c)| == |c|
  {
    if c != [] {
      var d := c[..|c| - 1];
      assert forall k: nat :: Taken(d, k) ==> Taken(c, k) && d[k] == c[k];
      FullCount(d);
      var last := c[|c| - 1].fd;
      assert Fds(c) == Fds(d) + {last};
      assert last !in Fds(d) by {
        assert Taken(c, |c| - 1);
        assert forall k: nat :: Taken(d, k) ==> d[k].fd != last;
      }
    } else {
      assert Fds(c) == {};
    }
  }

  /** Fewer entries than cells leave an empty cell, so every probe loop ends. */
  lemma SomeFree(c: seq<Cell>, m: map<nat, nat>) returns (e: nat)
    requires Distinct(c) && Holds(c, m) && |m| < |c|
    ensures e < |c| && c[e].Free?
  {
    if k :| 0 <= k < |c| && c[k].Free? {
      e := k;
    } else {
      FullCount(c);
      assert forall k: nat :: k < |c| ==> Taken(c, k);
      assert Fds(c) <= m.Keys;
      Smaller(Fds(c), m.Keys);
      assert false;
    }
  }

  // ------------------------------------------------------- filling and clearing

  lemma FillHolds(c: seq<Cell>, m: map<nat, nat>, k: nat, fd: nat, sock: nat)
    requires Distinct(c) && Holds(c, m) && k < |c| && c[k].Free? && fd !in m
    ensures Distinct(c[k := Used(fd, sock)]) && Holds(c[k := Used(fd, sock)], m[fd := sock])
  {
    var d, m' := c[k := Used(fd, sock)], m[fd := sock];
    assert forall x: nat :: Taken(d, x) <==> x == k || Taken(c, x);
    forall f | f in m'
      ensures exists x: nat :: Taken(d, x) && d[x].fd == f
    {
      if f == fd {
        assert Taken(d, k);
      } else {
        var x: nat :| Taken(c, x) && c[x].fd == f;
        assert Taken(d, x);
      }
    }
  }

  lemma ClearHolds(c: seq<Cell>, m: map<nat, nat>, k: nat)
    requires Distinct(c) && Holds(c, m) && Taken(c, k)
    ensures Distinct(c[k := Free]) && Holds(c[k := Free], m - {c[k].fd})
  {
    var d, m' := c[k := Free], m - {c[k].fd};
    assert forall x: nat :: Taken(d, x) <==> x != k && Taken(c, x);
    forall f | f in m'
      ensures exists x: nat :: Taken(d, x) && d[x].fd == f
    {
      var x: nat :| Taken(c, x) && c[x].fd == f;
      assert Taken(d, x);
    }
  }

  /** The first empty cell of a probe is a place for a new entry. */
  lemma PlaceKeeps(c: seq<Cell>, m: map<nat, nat>, k: nat, fd: nat, sock: nat)
    requires Represents(c, m) && k < |c| && c[k].Free? && fd !in m
    requires forall x: nat :: x < |c| && On(fd % |c|, x, k) ==> Taken(c, x)
    ensures Represents(c[k := Used(fd, sock)], m[fd := sock])
  {
    var d := c[k := Used(fd, sock)];
    FillHolds(c, m, k, fd, sock);
    assert forall x: nat :: Taken(c, x) ==> Taken(d, x);
    forall j: nat | Taken(d, j)
      ensures Reached(d, j)
    {
      if j != k {
        assert Reached(c, j);
      }
    }
  }

  // --------------------------------------------------------- cluster reinsertion

  /** Reinsertion has come to `slot`: from there to the empty cell `e` the cluster is still to be done, and its
      probe paths may be broken only at cells already visited, from `start` on. */
  ghost predicate Repairing(c: seq<Cell>, start: nat, slot: nat, e: nat) {
    && start < |c| && slot < |c| && e < |c| && c[e].Free? && On(start, slot, e)
    && (forall x: nat :: x < |c| && On(Next(slot, |c|), x, e) ==> Taken(c, x))
    && (forall k: nat :: Taken(c, k) && !On(Next(slot, |c|), k, e) ==> Reached(c, k))
    && (forall k: nat :: Taken(c, k) && On(Next(slot, |c|), k, e) ==> Frayed(c, start, slot, k))
  }

  ghost predicate Frayed(c: seq<Cell>, start: nat, slot: nat, k: nat)
    requires Taken(c, k) && slot < |c|
  {
    forall x: nat :: x < |c| && On(c[k].fd % |c|, x, k) ==> Taken(c, x) || On(start, x, Next(slot, |c|))
  }

  lemma {:induction false} FirstFree(c: seq<Cell>, x: nat, e: nat) returns (f: nat)
    requires x < |c| && e < |c| && c[e].Free?
    ensures f < |c| && c[f].Free? && forall y: nat :: y < |c| && On(x, y, f) ==> Taken(c, y)
    decreases Dist(x, e, |c|)
  {
    f := x;
    if c[x].Used? {
      f := FirstFree(c, Next(x, |c|), e);
    }
  }

  lemma RepairStarts(c: seq<Cell>, start: nat, e: nat)
    requires Probable(c) && Taken(c, start) && e < |c| && c[e].Free?
    requires forall y: nat :: y < |c| && On(start, y, e) ==> Taken(c, y)
    ensures Repairing(c[start := Free], start, start, e)
  {
    var d := c[start := Free];
    assert forall x: nat :: Taken(d, x) <==> x != start && Taken(c, x);
    forall k: nat | Taken(d, k)
      ensures if On(Next(start, |c|), k, e) then Frayed(d, start, start, k) else Reached(d, k)
    {
      assert Reached(c, k);
      assert !On(c[k].fd % |c|, e, k);
    }
  }

  lemma RepairEnds(c: seq<Cell>, start: nat, slot: nat, e: nat)
    requires Repairing(c, start, slot, e) && c[Next(slot, |c|)].Free?
    ensures Probable(c)
  {
    var scan := Next(slot, |c|);
    assert !On(scan, scan, e) by { assert !Taken(c, scan); }
  }

  /** The entry at the next cell goes to the first empty cell of its probe, which is never `e`. */
  lemma RepairStep(c: seq<Cell>, start: nat, slot: nat, e: nat, target: nat)
    requires Repairing(c, start, slot, e)
    requires Taken(c, Next(slot, |c|)) && target < |c|
    requires var scan := Next(slot, |c|);
             var d := c[scan := Free];
             d[target].Free? && forall x: nat :: x < |c| && On(c[scan].fd % |c|, x, target) ==> Taken(d, x)
    ensures var scan := Next(slot, |c|);
            Repairing(c[scan := Free][target := c[scan]], start, scan, e)
  {
    var scan := Next(slot, |c|);
    var d := c[scan := Free];
    var f := d[target := c[scan]];
    assert Frayed(c, start, slot, scan);
    var h := c[scan].fd % |c|;
    assert !On(h, e, scan) by { assert !Taken(c, e); }
    assert target != e by { assert !Taken(d, scan); }
    assert forall x: nat :: Taken(d, x) <==> x != scan && Taken(c, x);
    assert forall x: nat :: Taken(f, x) <==> x == target || Taken(d, x);
    forall k: nat | Taken(f, k)
      ensures if On(Next(scan, |c|), k, e) then Frayed(f, start, scan, k) else Reached(f, k)
    {
      if k != target {
        if On(scan, k, e) {
          assert Frayed(c, start, slot, k);
        } else {
          assert Reached(c, k);
          assert !On(c[k].fd % |c|, e, k);
        }
      }
    }
  }

  // -------------------------------------------------------------------- the table

  class Table {
    var cells: array<Cell>
    var count: nat
    ghost var m: map<nat, nat>     // the registrations by handle

    ghost predicate Valid()
      reads this, cells
    {
      && Represents(cells[..], m) && count == |m|
      && (cells.Length == 0 ==> count == 0) && (cells.Length != 0 ==> cells.Length >= INITIAL_FDS)
      && 4 * count < 3 * cells.Length + 4
      && 8 * cells.Length <= SIZE_MAX
    }

    constructor ()
      ensures Valid() && m == map[] && cells.Length == 0 && fresh(cells)
    {
      cells, count, m := new Cell[0], 0, map[];
    }

    /** The first empty cell from `from` on; `e` witnesses that there is one. */
    static method Probe(a: array<Cell>, from: nat, ghost e: nat) returns (slot: nat)
      requires from < a.Length && e < a.Length && a[e].Free?
      ensures slot < a.Length && a[slot].Free?
      ensures forall x: nat :: x < a.Length && On(from, x, slot) ==> Taken(a[..], x)
    {
      slot := from;
      while a[slot].Used?
        invariant slot < a.Length
        invariant forall x: nat :: x < a.Length && On(from, x, slot) ==> Taken(a[..], x)
        invariant Dist(slot, e, a.Length) + Dist(from, slot, a.Length) == Dist(from, e, a.Length)
        decreases Dist(slot, e, a.Length)
      {
        slot := Next(slot, a.Length);
      }
    }

    /** The probe loop of `ep_fd_table_lookup`. */
    static method Search(a: array<Cell>, from: nat, fd: nat, ghost e: nat) returns (slot: nat)
      requires from < a.Length && e < a.Length && a[e].Free?
      ensures slot < a.Length && (a[slot].Used? ==> a[slot].fd == fd)
      ensures forall x: nat :: x < a.Length && On(from, x, slot) ==> Taken(a[..], x) && a[x].fd != fd
    {
      slot := from;
      var probes := 0;
      while probes < a.Length
        invariant slot < a.Length && probes == Dist(from, slot, a.Length) <= Dist(from, e, a.Length)
        invariant forall x: nat :: x < a.Length && On(from, x, slot) ==> Taken(a[..], x) && a[x].fd != fd
      {
        if a[slot].Free? || a[slot].fd == fd {
          return;
        }
        slot, probes := Next(slot, a.Length), probes + 1;
      }
    }

    /** `ep_fd_table_lookup` finds exactly the present handles. */
    method Lookup(fd: nat) returns (found: bool, sock: nat)
      requires Valid()
      ensures found == (fd in m)
      ensures found ==> sock == m[fd]
    {
      if cells.Length == 0 {
        return false, 0;
      }
      ghost var e := SomeFree(cells[..], m);
      var slot := Search(cells, fd % cells.Length, fd, e);
      if cells[slot].Free? {
        EmptyEndsProbe(cells[..], m, fd, slot);
        return false, 0;
      }
      assert Taken(cells[..], slot);
      return true, cells[slot].sock;
    }

    /** Insert into an array with room. */
    static method Place(a: array<Cell>, fd: nat, sock: nat, ghost part: map<nat, nat>)
      requires Represents(a[..], part) && |part| < a.Length && fd !in part
      modifies a
      ensures Represents(a[..], part[fd := sock])
    {
      ghost var e := SomeFree(a[..], part);
      ghost var c := a[..];
      var slot := Probe(a, fd % a.Length, e);
      PlaceKeeps(c, part, slot, fd, sock);
      a[slot] := Used(fd, sock);
      assert a[..] == c[slot := Used(fd, sock)];
    }

    /** Copy every entry into an empty larger array. */
    static method CopyAll(a: array<Cell>, b: array<Cell>, ghost m: map<nat, nat>)
      requires a != b && Represents(a[..], m) && |m| < b.Length && forall i :: 0 <= i < b.Length ==> b[i].Free?
      modifies b
      ensures Represents(b[..], m)
    {
      ghost var part: map<nat, nat> := map[];
      ghost var c := a[..];
      for i := 0 to a.Length
        invariant Represents(b[..], part) && Copied(c, i, part, m)
      {
        if a[i].Used? {
          CopyMore(c, i, part, m);
          Place(b, a[i].fd, a[i].sock, part);
          part := part[a[i].fd := a[i].sock];
        }
      }
      assert part == m;
    }

    /** `ep_fd_table_grow`; the allocation may fail. */
    method Grow(size: nat, memory: bool) returns (ok: bool)
      requires Valid() && size >= INITIAL_FDS && size > cells.Length
      modifies this
      ensures Valid() && m == old(m) && count == old(count)
      ensures ok == (memory && size <= SIZE_MAX / 8)
      ensures if ok then cells.Length == size && fresh(cells) else cells == old(cells)
    {
      if size > SIZE_MAX / 8 || !memory {
        return false;
      }
      var bigger := new Cell[size](_ => Free);
      CopyAll(cells, bigger, m);
      cells := bigger;
      return true;
    }

    /** `ep_fd_table_insert` of a handle that is not there. */
    method Insert(fd: nat, sock: nat, memory: bool) returns (ok: bool)
      requires Valid() && fd !in m
      modifies this, cells
      ensures Valid() && m == (if ok then old(m)[fd := sock] else old(m))
      ensures cells == old(cells) || fresh(cells)
      ensures memory && 16 * old(cells.Length) <= SIZE_MAX ==> ok
    {
      if cells.Length == 0 || count * 4 >= cells.Length * 3 {
        if cells.Length > SIZE_MAX / 2 {
          return false;
        }
        ok := Grow(if cells.Length == 0 then INITIAL_FDS else cells.Length * 2, memory);
        if !ok {
          return;
        }
      }
      Place(cells, fd, sock, m);
      count, m, ok := count + 1, m[fd := sock], true;
    }

    /** The search of `ep_fd_table_remove`, by entry and not by handle. */
    static method Find(a: array<Cell>, from: nat, fd: nat, sock: nat, ghost e: nat) returns (slot: nat)
      requires from < a.Length && e < a.Length && a[e].Free?
      ensures slot < a.Length && (a[slot].Used? ==> a[slot] == Used(fd, sock))
      ensures forall x: nat :: x < a.Length && On(from, x, slot) ==> Taken(a[..], x) && a[x] != Used(fd, sock)
    {
      slot := from;
      while a[slot] != Used(fd, sock)
        invariant slot < a.Length
        invariant forall x: nat :: x < a.Length && On(from, x, slot) ==> Taken(a[..], x) && a[x] != Used(fd, sock)
        invariant Dist(slot, e, a.Length) + Dist(from, slot, a.Length) == Dist(from, e, a.Length)
        decreases Dist(slot, e, a.Length)
      {
        if a[slot].Free? {
          return;
        }
        slot := Next(slot, a.Length);
      }
    }

    /** Reinsert the rest of the cluster behind the cell `start` just emptied; `e` ends the cluster. */
    static method Reinsert(a: array<Cell>, start: nat, ghost e: nat, ghost m: map<nat, nat>)
      requires Repairing(a[..], start, start, e) && Distinct(a[..]) && Holds(a[..], m)
      modifies a
      ensures Represents(a[..], m)
    {
      var slot := start;
      while true
        invariant Repairing(a[..], start, slot, e) && Distinct(a[..]) && Holds(a[..], m)
        decreases Dist(slot, e, a.Length)
      {
        ghost var c := a[..];
        var scan := Next(slot, a.Length);
        if a[scan].Free? {
          RepairEnds(c, start, slot, e);
          return;
        }
        assert Taken(c, scan);
        var moved := a[scan];
        a[scan] := Free;
        assert a[..] == c[scan := Free];
        var target := Probe(a, moved.fd % a.Length, scan);
        RepairStep(c, start, slot, e, target);
        MoveHolds(c, m, scan, target);
        a[target] := moved;
        assert a[..] == c[scan := Free][target := c[scan]];
        slot := scan;
      }
    }

    /** `ep_fd_table_remove` */
    method Remove(fd: nat, sock: nat)
      requires Valid()
      modifies this`count, this`m, cells
      ensures Valid() && m == (if fd in old(m) && old(m)[fd] == sock then old(m) - {fd} else old(m))
    {
      if cells.Length == 0 {
        return;
      }
      ghost var c := cells[..];
      ghost var e := SomeFree(c, m);
      var slot := Find(cells, fd % cells.Length, fd, sock, e);
      if cells[slot].Free? {
        EmptyEndsFind(c, m, fd, sock, slot);
        return;
      }
      e := FirstFree(c, slot, e);
      RepairStarts(c, slot, e);
      ClearHolds(c, m, slot);
      cells[slot] := Free;
      assert cells[..] == c[slot := Free];
      count, m := count - 1, m - {fd};
      Reinsert(cells, slot, e, m);
    }
  }

  lemma EmptyEndsFind(c: seq<Cell>, m: map<nat, nat>, fd: nat, sock: nat, e: nat)
    requires Represents(c, m) && e < |c| && c[e].Free?
    requires forall x: nat :: x < |c| && On(fd % |c|, x, e) ==> Taken(c, x) && c[x] != Used(fd, sock)
    ensures !(fd in m && m[fd] == sock)
  {
    forall k: nat | Taken(c, k)
      ensures c[k] != Used(fd, sock)
    {
      assert Reached(c, k);
      assert !On(c[k].fd % |c|, e, k) by { assert !Taken(c, e); }
    }
  }

  /** Moving one entry keeps the contents. */
  lemma MoveHolds(c: seq<Cell>, m: map<nat, nat>, scan: nat, target: nat)
    requires Distinct(c) && Holds(c, m) && Taken(c, scan) && target < |c| && c[scan := Free][target].Free?
    ensures Distinct(c[scan := Free][target := c[scan]]) && Holds(c[scan := Free][target := c[scan]], m)
  {
    ClearHolds(c, m, scan);
    FillHolds(c[scan := Free], m - {c[scan].fd}, target, c[scan].fd, c[scan].sock);
    assert (m - {c[scan].fd})[c[scan].fd := c[scan].sock] == m;
  }

  /** `part` has the first `i` cells' entries. */
  ghost predicate Copied(c: seq<Cell>, i: nat, part: map<nat, nat>, m: map<nat, nat>) {
    && part.Keys <= m.Keys && (forall fd :: fd in part ==> part[fd] == m[fd])
    && forall k: nat :: Taken(c, k) ==> (c[k].fd in part <==> k < i)
  }

  lemma CopyMore(c: seq<Cell>, i: nat, part: map<nat, nat>, m: map<nat, nat>)
    requires Distinct(c) && Holds(c, m) && Copied(c, i, part, m) && Taken(c, i)
    ensures Copied(c, i + 1, part[c[i].fd := c[i].sock], m)
    ensures c[i].fd !in part && |part| <= |m|
  {
    Smaller(part.Keys, m.Keys);
  }
}
