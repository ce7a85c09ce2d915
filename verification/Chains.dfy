/**
 Hash chains: several indexes of the library keep intrusive nodes in bucket chains,
 each node in the chain of its key.
 */
module Chains {

  type Id = nat

  predicate NoDuplicates<T(==)>(s: seq<T>) {
    forall i, j :: 0 <= i < j < |s| ==> s[i] != s[j]
  }

  /** Unlink a node. */
  function Without<T(==)>(s: seq<T>, x: T): (r: seq<T>)
    ensures x !in s ==> r == s
  {
    if s == [] then [] else if s[0] == x then Without(s[1..], x) else [s[0]] + Without(s[1..], x)
  }

  lemma {:induction false} WithoutIn<T>(s: seq<T>, x: T, y: T)
    ensures y in Without(s, x) <==> y in s && y != x
  {
    if s != [] {
      WithoutIn(s[1..], x, y);
      assert y in s <==> y == s[0] || y in s[1..];
    }
  }

  lemma {:induction false} WithoutAt<T>(s: seq<T>, k: nat)
    requires NoDuplicates(s) && k < |s|
    ensures Without(s, s[k]) == s[..k] + s[k + 1..]
  {
    if k == 0 {
      assert s[0] !in s[1..];
    } else {
      WithoutAt(s[1..], k - 1);
      assert s == [s[0]] + s[1..];
      assert s[1..][k - 1] == s[k];
      assert s[1..][..k - 1] == s[1..k];
      assert s[1..][k..] == s[k + 1..];
      assert [s[0]] + s[1..k] == s[..k];
    }
  }

  /** What is left after one element has gone. */
  lemma Cut<T>(s: seq<T>, k: nat)
    requires NoDuplicates(s) && k < |s|
    ensures NoDuplicates(s[..k] + s[k + 1..])
    ensures forall x :: x in s[..k] + s[k + 1..] <==> x in s && x != s[k]
  {
    forall x | x in s && x != s[k]
      ensures x in s[..k] + s[k + 1..]
    {
      var j :| 0 <= j < |s| && s[j] == x;
      assert (s[..k] + s[k + 1..])[if j < k then j else j - 1] == x;
    }
  }

  lemma Unlinked<T>(s: seq<T>, x: T)
    requires NoDuplicates(s) && x in s
    ensures NoDuplicates(Without(s, x))
    ensures forall y :: y in Without(s, x) <==> y in s && y != x
  {
    var k :| 0 <= k < |s| && s[k] == x;
    WithoutAt(s, k);
    Cut(s, k);
  }

  /** The chains hold exactly the nodes, each once, in the bucket of its key. */
  ghost predicate Filed<K>(slot: K -> nat, keys: map<Id, K>, chains: seq<seq<Id>>) {
    && (forall i :: 0 <= i < |chains| ==> NoDuplicates(chains[i]))
    && (forall i, x :: 0 <= i < |chains| && x in chains[i] ==> x in keys && slot(keys[x]) == i)
    && (forall x :: x in keys ==> slot(keys[x]) < |chains| && x in chains[slot(keys[x])])
  }

  lemma FiledWithout<K>(slot: K -> nat, keys: map<Id, K>, chains: seq<seq<Id>>, x: Id)
    requires Filed(slot, keys, chains) && x in keys
    ensures var h := slot(keys[x]); Filed(slot, keys - {x}, chains[h := Without(chains[h], x)])
  {
    Unlinked(chains[slot(keys[x])], x);
  }

  lemma FiledWith<K>(slot: K -> nat, keys: map<Id, K>, chains: seq<seq<Id>>, x: Id, k: K)
    requires Filed(slot, keys, chains) && x !in keys && slot(k) < |chains|
    ensures Filed(slot, keys[x := k], chains[slot(k) := [x] + chains[slot(k)]])
  {
    assert x !in chains[slot(k)];
  }

  lemma Fresh(s: seq<Id>, k: nat)
    requires NoDuplicates(s) && k < |s|
    ensures s[k] !in s[..k]
  {
  }
}
