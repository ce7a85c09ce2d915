/**
 The process-wide index of AFD target handles (src/wepoll_ex_afd.c).  Two pending
 polls must not name the same handle value, so a submission whose socket handle is
 already polled duplicates it until the copy has a value nobody polls.
 */
module AfdKeys {
  import opened Chains
  import opened Sets

  type Handle = nat

  const BUCKETS := 256

  /** Owned keys are pairwise distinct. */
  ghost predicate Distinct(keys: map<Id, Handle>) {
    forall x, y :: x in keys && y in keys && x != y ==> keys[x] != keys[y]
  }

  /** The index, the reservations, and the handle table of the process. */
  datatype Table = Table(
    hash: Handle -> nat,              // any bucket function
    keys: map<Id, Handle>,            // afd_poll_target of the registrations that own a key
    chains: seq<seq<Id>>,
    reserved: map<Id, Handle>,        // afd_poll_key_reservation
    open: set<Handle>)

  /** A reservation holds its own key's handle value. */
  ghost predicate Fits(t: Table) {
    && |t.chains| == BUCKETS && (forall h :: t.hash(h) < BUCKETS)
    && Filed(t.hash, t.keys, t.chains) && Distinct(t.keys)
    && forall x :: x in t.reserved ==> x in t.keys && t.reserved[x] == t.keys[x] && t.reserved[x] in t.open
  }

  type Index = t: Table | Fits(t) ghost witness Table(_ => 0, map[], seq(BUCKETS, _ => []), map[], {})

  ghost predicate Active(t: Table, h: Handle) {
    exists x :: x in t.keys && t.keys[x] == h
  }

  function Claimed(t: Index, x: Id, k: Handle): Index
    requires x !in t.keys && !Active(t, k)
  {
    var b := t.hash(k);
    FiledWith(t.hash, t.keys, t.chains, x, k);
    t.(keys := t.keys[x := k], chains := t.chains[b := [x] + t.chains[b]])
  }

  function Drop(t: Table, x: Id): Table
    requires x in t.keys && t.hash(t.keys[x]) < |t.chains|
  {
    var h := t.hash(t.keys[x]);
    Table(t.hash, t.keys - {x}, t.chains[h := Without(t.chains[h], x)], t.reserved - {x},
          if x in t.reserved then t.open - {t.reserved[x]} else t.open)
  }

  lemma DropFits(t: Index, x: Id)
    requires x in t.keys
    ensures Fits(Drop(t, x))
  {
    FiledWithout(t.hash, t.keys, t.chains, x);
  }

  /** `ep_afd_poll_key_release`: a no-op without a key; a reservation is closed once. */
  function Released(t: Index, x: Id): (r: Index)
    ensures r.keys == t.keys - {x} && r.reserved == t.reserved - {x}
  {
    if x !in t.keys then t
    else
      DropFits(t, x);
      Drop(t, x)
  }

  function Opened(t: Index, h: Handle): Index {
    t.(open := t.open + {h})
  }

  function Closed(t: Index, h: Handle): Index
    requires h in t.open && forall x :: x in t.reserved ==> t.reserved[x] != h
  {
    t.(open := t.open - {h})
  }

  /** What releases of other registrations' keys leave: no new key, no new handle, and every handle that
      nobody had reserved. */
  ghost predicate Shrunk(t: Table, t': Table) {
    && t'.hash == t.hash
    && (forall x :: x in t'.keys ==> x in t.keys && t'.keys[x] == t.keys[x])
    && (forall x :: x in t'.reserved ==> x in t.reserved && t'.reserved[x] == t.reserved[x])
    && t'.open <= t.open
    && (forall h :: h in t.open && h !in t'.open ==> exists x :: x in t.reserved && t.reserved[x] == h)
  }

  lemma ShrunkMore(t0: Table, t: Index, y: Id)
    requires Shrunk(t0, t)
    ensures Shrunk(t0, Released(t, y))
  {
  }

  class Process {
    var t: Index

    constructor (t: Index)
      ensures this.t == t
    {
      this.t := t;
    }

    /** `ep_afd_poll_key_is_active_locked` */
    method IsActive(target: Handle) returns (active: bool)
      ensures active <==> Active(t, target)
    {
      var chain := t.chains[t.hash(target)];
      for i := 0 to |chain|
        invariant forall j :: 0 <= j < i ==> t.keys[chain[j]] != target
      {
        if t.keys[chain[i]] == target {
          assert chain[i] in t.keys;
          return true;
        }
      }
      forall x | x in t.keys
        ensures t.keys[x] != target
      {
        assert x in t.chains[t.hash(t.keys[x])];
      }
      return false;
    }

    /** `ep_afd_poll_key_try_claim` */
    method TryClaim(x: Id, target: Handle) returns (claimed: bool)
      requires x !in t.keys
      modifies this
      ensures claimed <==> !Active(old(t), target)
      ensures if claimed then t == Claimed(old(t), x, target) else t == old(t)
    {
      var active := IsActive(target);
      claimed := !active;
      if claimed {
        t := Claimed(t, x, target);
      }
    }

    /** Between two steps of a claim other threads may release keys of their own. */
    method OthersRelease()
      modifies this
      ensures Shrunk(old(t), t)
    {
      var n: int := *;
      while n > 0
        invariant Shrunk(old(t), t)
      {
        var y: Id := *;
        ShrunkMore(old(t), t, y);
        t := Released(t, y);
        n := n - 1;
      }
    }

    /** A kernel call that hands out some handle value not in use. */
    method Allocate() returns (h: Handle)
      modifies this
      ensures h !in old(t).open && t == Opened(old(t), h)
    {
      assert Bound(t.open) !in t.open;
      h :| h !in t.open;
      t := Opened(t, h);
    }

    /** The collision duplicates are closed, each once. */
    method CloseAll(collisions: seq<Handle>)
      requires NoDuplicates(collisions) && Elements(collisions) <= t.open && Unreserved(t, collisions)
      modifies this
      ensures t == old(t).(open := old(t).open - Elements(collisions))
    {
      for i := 0 to |collisions|
        invariant t == old(t).(open := old(t).open - Elements(collisions[..i]))
      {
        assert collisions[i] in Elements(collisions) && collisions[i] !in collisions[..i];
        t := Closed(t, collisions[i]);
        assert Elements(collisions[..i + 1]) == Elements(collisions[..i]) + {collisions[i]};
      }
      assert collisions[..|collisions|] == collisions;
    }

    /** One turn of the duplication loop. */
    method Try(x: Id, ghost t0: Table, ghost collisions: seq<Handle>) returns (r: Tried)
      requires Trying(t0, t, x, collisions)
      modifies this
      ensures r.GaveUp? ==> Trying(t0, t, x, collisions)
      ensures r.Collided? ==> Trying(t0, t, x, collisions + [r.h])
      ensures r.Got? ==> Holding(t0, t, x, collisions)
    {
      OthersRelease();
      TryingShrunk(t0, old(t), t, x, collisions);
      var made: bool := *;
      if !made {
        return GaveUp;
      }
      ghost var before := t;
      var h := Allocate();
      var ok := TryClaim(x, h);
      if ok {
        TryingHolds(t0, before, x, collisions, h);
        return Got;
      }
      var kept: bool := *;
      if kept {
        TryingMore(t0, before, x, collisions, h);
        return Collided(h);
      }
      t := Closed(t, h);
      assert t.open == before.open;
      return GaveUp;
    }

    /** `ep_afd_poll_key_claim`: with no new keys besides, it ends within the active keys and one more
        duplicates, and of the handles it made only the claimed one is left. */
    method Claim(x: Id, base: Handle) returns (ok: bool, duplicated: bool, ghost tries: nat)
      requires x !in t.keys
      modifies this
      ensures ok <==> x in t.keys
      ensures KeepsOthers(old(t), t, x)
      ensures tries <= |old(t).keys.Values| + 1
      ensures duplicated ==> ok && t.keys[x] in t.open && x !in t.reserved && t.open <= old(t).open + {t.keys[x]}
      ensures !duplicated ==> t.open <= old(t).open && (ok ==> t.keys[x] == base && t.open == old(t).open)
      ensures !Active(old(t), base) ==> ok && !duplicated
    {
      duplicated, tries := false, 0;
      ok := TryClaim(x, base);
      if ok {
        return;
      }
      var collisions: seq<Handle> := [];
      while true
        invariant Trying(old(t), t, x, collisions) && tries == |collisions|
        decreases |old(t).keys.Values| - |collisions|
      {
        CollisionsBounded(collisions, old(t).keys.Values);
        var r := Try(x, old(t), collisions);
        tries := tries + 1;
        if !r.Collided? {
          ok, duplicated := r.Got?, r.Got?;
          break;
        }
        collisions := collisions + [r.h];
        CollisionsBounded(collisions, old(t).keys.Values);
      }
      CloseAll(collisions);
    }

    /** `ep_afd_poll_duplicate_finish`: drop the duplicate and try to occupy its handle slot with an event. */
    method Finish(x: Id, reserve: bool, closes: bool)
      requires x in t.keys && x !in t.reserved && t.keys[x] in t.open
      modifies this
      ensures t.keys == old(t).keys && t.open <= old(t).open
      ensures closes ==> t.open <= old(t).open - {t.keys[x]} + (if x in t.reserved then {t.keys[x]} else {})
      ensures !reserve ==> t.reserved == old(t).reserved
    {
      var target := t.keys[x];
      if closes {
        t := Closed(t, target);
        var event: bool := *;
        if reserve && event {
          var h := Allocate();
          if h == target {
            t := t.(reserved := t.reserved[x := h]);
          } else {
            t := Closed(t, h);
          }
        }
      }
    }

    /** `ep_afd_poll_key_release`: the key is gone, the handle that reserved it is closed, and the handle value can be
        claimed again. */
    method Release(x: Id)
      modifies this
      ensures t.keys == old(t).keys - {x} && t.reserved == old(t).reserved - {x} && t.hash == old(t).hash
      ensures t.open == if x in old(t).reserved then old(t).open - {old(t).keys[x]} else old(t).open
      ensures x in old(t).keys ==> !Active(t, old(t).keys[x])
    {
      t := Released(t, x);
    }

    /** The key protocol of `ep_afd_poll_submit`: the registration owns a key afterwards exactly when its request
        is pending, and no handle is left over that a failed `CloseHandle` does not leave. */
    method Submit(x: Id, base: Handle, status: Status, closes: bool) returns (ok: bool, pending: bool)
      requires x !in t.keys
      modifies this
      ensures x in t.keys <==> ok && pending
      ensures (ok ==> pending == status.Pended? && !status.Refused?) && (pending ==> ok)
      ensures !Active(old(t), base) ==> (ok <==> !status.Refused?) && (ok && pending ==> t.keys[x] == base)
      ensures KeepsOthers(old(t), t, x)
      ensures closes ==> t.open <= old(t).open + (if x in t.reserved then {t.keys[x]} else {})
    {
      var duplicated;
      ghost var tries;
      pending := false;
      ok, duplicated, tries := Claim(x, base);
      if ok {
        pending := status.Pended?;
        if duplicated {
          Finish(x, pending, closes);
        }
        if !pending {
          Release(x);
        }
        ok := !status.Refused?;
      }
    }
  }

  datatype Status = Pended | Completed | Refused

  datatype Tried = GaveUp | Got | Collided(h: Handle)

  ghost predicate KeepsOthers(t0: Table, t: Table, x: Id) {
    forall y :: y in t.keys && y != x ==> y in t0.keys && t.keys[y] == t0.keys[y]
  }

  /** The claim succeeded with a duplicate that is none of the collisions. */
  ghost predicate Holding(t0: Table, t: Table, x: Id, collisions: seq<Handle>) {
    && x in t.keys && x !in t.reserved && t.keys[x] in t.open && t.keys[x] !in collisions
    && KeepsOthers(t0, t, x)
    && NoDuplicates(collisions) && Elements(collisions) <= t.open && Unreserved(t, collisions)
    && t.open <= t0.open + Elements(collisions) + {t.keys[x]}
  }

  lemma TryingShrunk(t0: Table, t: Table, t': Table, x: Id, collisions: seq<Handle>)
    requires Trying(t0, t, x, collisions) && Shrunk(t, t')
    ensures Trying(t0, t', x, collisions)
  {
  }

  lemma TryingMore(t0: Table, t: Index, x: Id, collisions: seq<Handle>, h: Handle)
    requires Trying(t0, t, x, collisions) && h !in t.open && Active(t, h)
    ensures Trying(t0, Opened(t, h), x, collisions + [h])
  {
    assert Elements(collisions + [h]) == Elements(collisions) + {h};
    assert h !in collisions by { assert h !in Elements(collisions); }
  }

  lemma TryingHolds(t0: Table, t: Index, x: Id, collisions: seq<Handle>, h: Handle)
    requires Trying(t0, t, x, collisions) && h !in t.open && !Active(t, h)
    ensures Holding(t0, Claimed(Opened(t, h), x, h), x, collisions)
  {
    assert h !in collisions by { assert h !in Elements(collisions); }
  }

  ghost predicate Unreserved(t: Table, hs: seq<Handle>) {
    forall x :: x in t.reserved ==> t.reserved[x] !in hs
  }

  /** The loop of a claim: the collisions are distinct, open, active keys, and nothing else was opened. */
  ghost predicate Trying(t0: Table, t: Table, x: Id, collisions: seq<Handle>) {
    && x !in t.keys && t.hash == t0.hash
    && (forall y :: y in t.keys ==> y in t0.keys && t.keys[y] == t0.keys[y])
    && NoDuplicates(collisions) && Elements(collisions) <= t.open && Elements(collisions) <= t0.keys.Values
    && Unreserved(t, collisions) && t.open <= t0.open + Elements(collisions)
  }

  ghost function Bound(s: set<Handle>): (b: nat)
    ensures forall h :: h in s ==> h < b
  {
    if s == {} then 0
    else
      var x :| x in s;
      var rest := Bound(s - {x});
      assert forall h :: h in s ==> h == x || h in s - {x};
      if rest <= x then x + 1 else rest
  }

  function Elements(s: seq<Handle>): set<Handle> {
    set h | h in s
  }

  lemma {:induction false} DistinctCount(s: seq<Handle>)
    requires NoDuplicates(s)
    ensures |Elements(s)| == |s|
  {
    if s != [] {
      var rest := s[..|s| - 1];
      DistinctCount(rest);
      assert Elements(s) == Elements(rest) + {s[|s| - 1]};
      assert s[|s| - 1] !in rest;
    }
  }

  /** Distinct handles that are all active keys are no more than the active keys. */
  lemma CollisionsBounded(collisions: seq<Handle>, active: set<Handle>)
    requires NoDuplicates(collisions) && Elements(collisions) <= active
    ensures |collisions| <= |active|
  {
    DistinctCount(collisions);
    Smaller(Elements(collisions), active);
  }
}
