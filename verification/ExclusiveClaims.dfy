/**
 EPOLLEXCLUSIVE ownership (src/wepoll_ex_port.c): registrations claim readiness
 classes of a provider socket, and their claim nodes are chained in hash buckets.
 The results hold for every bucket function.
 */
module ExclusiveClaims {
  import opened Chains
  import opened Readiness

  const BUCKETS := 128

  type BucketNo = n: nat | n < BUCKETS

  // ------------------------------------------------------------------ claim chains

  /** The chain fields of a registration. */
  class Link {
    var next: Link?
    var prev: Link?

    constructor ()
      ensures next == null && prev == null
    {
      next, prev := null, null;
    }
  }

  ghost predicate Wired(s: seq<Link>, j: int)
    requires 0 <= j < |s|
    reads s
  {
    && s[j].prev == (if j == 0 then null else s[j - 1])
    && s[j].next == (if j + 1 == |s| then null else s[j + 1])
  }

  /** One bucket: a chain without a tail pointer. */
  class Bucket {
    var head: Link?
    ghost var items: seq<Link>

    ghost predicate Valid()
      reads this, items
    {
      && NoDuplicates(items)
      && head == (if items == [] then null else items[0])
      && forall j :: 0 <= j < |items| ==> Wired(items, j)
    }

    constructor ()
      ensures Valid() && items == []
    {
      head, items := null, [];
    }

    method Push(x: Link)
      requires Valid() && x !in items
      modifies this, x`next, x`prev, (set y | y in items)`prev
      ensures Valid() && items == [x] + old(items)
    {
      x.prev := null;
      x.next := head;
      if head != null {
        head.prev := x;
      }
      head := x;
      ghost var s := items;
      items := [x] + items;
      forall j | 0 <= j < |items|
        ensures Wired(items, j)
      {
        assert j > 0 ==> old(Wired(s, j - 1));
      }
    }

    method Unlink(x: Link, ghost k: nat)
      requires Valid() && k < |items| && items[k] == x
      modifies this, (set y | y in items)`prev, (set y | y in items)`next
      ensures Valid() && items == old(items)[..k] + old(items)[k + 1..] && x.next == null && x.prev == null
    {
      ghost var s := items;
      assert Wired(s, k) && (k > 0 ==> Wired(s, k - 1)) && (k + 1 < |s| ==> Wired(s, k + 1));
      if x.prev != null {
        x.prev.next := x.next;
      } else {
        head := x.next;
      }
      if x.next != null {
        x.next.prev := x.prev;
      }
      x.next, x.prev := null, null;
      items := s[..k] + s[k + 1..];
      forall j | 0 <= j < |items|
        ensures Wired(items, j)
      {
        if j < k {
          assert old(Wired(s, j)) && items[j] == s[j];
        } else {
          assert old(Wired(s, j + 1)) && items[j] == s[j + 1];
        }
      }
    }
  }

  // ----------------------------------------------------------------- the ownership

  datatype Claim = Claim(base: int, classes: Classes)

  type Claims = map<Id, Claim>

  predicate On(claims: Claims, x: Id, base: int) {
    x in claims && claims[x].base == base
  }

  /** Claims on one base are disjoint, and a terminal claim is the only one there. */
  ghost predicate Owners(claims: Claims) {
    && (forall x :: x in claims ==>
          claims[x].classes != {} && (Terminal in claims[x].classes ==> claims[x].classes == {Terminal}))
    && (forall x, y :: x in claims && y in claims && x != y && claims[x].base == claims[y].base ==>
          claims[x].classes !! claims[y].classes && Terminal !in claims[x].classes)
  }

  /** The chains hold exactly the claims, each in the bucket of its base, once. */
  ghost predicate Indexed(hash: int -> BucketNo, claims: Claims, chains: seq<seq<Id>>) {
    && |chains| == BUCKETS
    && (forall i :: 0 <= i < BUCKETS ==> NoDuplicates(chains[i]))
    && (forall i, x :: 0 <= i < BUCKETS && x in chains[i] ==> x in claims && hash(claims[x].base) == i)
    && (forall x :: x in claims ==> x in chains[hash(claims[x].base)])
  }

  /** Take classes away from one claim; an empty claim is none. */
  function Less(claims: Claims, x: Id, classes: Classes): Claims {
    if x !in claims then claims
    else if claims[x].classes <= classes then claims - {x}
    else claims[x := claims[x].(classes := claims[x].classes - classes)]
  }

  lemma LessKeeps(claims: Claims, x: Id, classes: Classes)
    requires Owners(claims)
    ensures Owners(Less(claims, x, classes))
  {
    if x in claims && !(claims[x].classes <= classes) {
      var left := claims[x].classes - classes;
      var c :| c in claims[x].classes && c !in classes;
      assert c in left;
      assert Terminal in left ==> left == {Terminal};
    }
  }

  /** Every claim of the list on the base has lost the classes; nothing else changed. */
  ghost predicate Stripped(claims: Claims, claims': Claims, done: seq<Id>, base: int, classes: Classes) {
    forall x: Id ::
      if x in done && On(claims, x, base)
      then (x in claims' <==> !(claims[x].classes <= classes)) &&
           (x in claims' ==> claims'[x] == Claim(base, claims[x].classes - classes))
      else (x in claims' <==> x in claims) && (x in claims' ==> claims'[x] == claims[x])
  }

  ghost predicate StrippedBase(claims: Claims, claims': Claims, base: int, classes: Classes) {
    forall x: Id ::
      if On(claims, x, base)
      then (x in claims' <==> !(claims[x].classes <= classes)) &&
           (x in claims' ==> claims'[x] == Claim(base, claims[x].classes - classes))
      else (x in claims' <==> x in claims) && (x in claims' ==> claims'[x] == claims[x])
  }

  lemma StripMore(claims: Claims, claims': Claims, done: seq<Id>, base: int, classes: Classes, x: Id)
    requires Stripped(claims, claims', done, base, classes) && x in claims && x !in done
    ensures x in claims' && claims'[x] == claims[x]
    ensures Stripped(claims, if claims[x].base == base then Less(claims', x, classes) else claims',
                     done + [x], base, classes)
  {
  }

  lemma TailsAgree(chain: seq<Id>, i: nat, s: seq<Id>, k: nat)
    requires i < |chain| && k <= |s| && chain[i..] == s[k..]
    ensures k < |s| && chain[i] == s[k] && chain[i + 1..] == s[k + 1..]
  {
    assert |chain[i..]| == |s[k..]|;
    assert chain[i..][0] == s[k..][0];
    assert chain[i..][1..] == chain[i + 1..] && s[k..][1..] == s[k + 1..];
  }

  lemma IndexedWithout(hash: int -> BucketNo, claims: Claims, chains: seq<seq<Id>>, x: Id, chain: seq<Id>)
    requires Indexed(hash, claims, chains) && x in claims && NoDuplicates(chain)
    requires forall y :: y in chain <==> y in chains[hash(claims[x].base)] && y != x
    ensures Indexed(hash, claims - {x}, chains[hash(claims[x].base) := chain])
  {
  }

  lemma IndexedLess(hash: int -> BucketNo, claims: Claims, chains: seq<seq<Id>>, x: Id, classes: Classes)
    requires Indexed(hash, claims, chains) && x in claims
    ensures var h := hash(claims[x].base);
            Indexed(hash, Less(claims, x, classes),
                    if claims[x].classes <= classes then chains[h := Without(chains[h], x)] else chains)
  {
    var h := hash(claims[x].base);
    if claims[x].classes <= classes {
      var chain := Without(chains[h], x);
      Unlinked(chains[h], x);
      IndexedWithout(hash, claims, chains, x, chain);
    } else {
      IndexedNarrower(hash, claims, chains, x, claims[x].classes - classes);
    }
  }

  lemma IndexedNarrower(hash: int -> BucketNo, claims: Claims, chains: seq<seq<Id>>, x: Id, classes: Classes)
    requires Indexed(hash, claims, chains) && x in claims
    ensures Indexed(hash, claims[x := Claim(claims[x].base, classes)], chains)
  {
  }

  /** The classes a pending request with this mask proves quiet: `ep_exclusive_quiescent_classes`. */
  function Quiescent(submitted: AfdMask): (classes: Classes)
    ensures forall c :: c in classes <==> ClassAfdEvents(c) - {RECEIVE_EXPEDITED} <= submitted
  {
    (if ClassAfdEvents(Read) - {RECEIVE_EXPEDITED} <= submitted then {Read} else {}) +
    (if ClassAfdEvents(Write) <= submitted then {Write} else {}) +
    (if ClassAfdEvents(Terminal) <= submitted then {Terminal} else {})
  }

  /** The claims and their chains. */
  datatype Book = Book(hash: int -> BucketNo, claims: Claims, chains: seq<seq<Id>>)

  ghost predicate Fits(b: Book) {
    Owners(b.claims) && Indexed(b.hash, b.claims, b.chains)
  }

  ghost function Nothing(): (b: Book)
    ensures Fits(b)
  {
    Book(_ => 0, map[], seq(BUCKETS, _ => []))
  }

  type Ledger = b: Book | Fits(b) ghost witness Nothing()

  /** `ep_exclusive_remove_classes_locked`, and `ep_exclusive_unlink_locked` when nothing is left. */
  function Reduced(b: Ledger, x: Id, classes: Classes): (r: Ledger)
    requires x in b.claims
  {
    ReducedFits(b, x, classes);
    Reduce(b, x, classes)
  }

  function Reduce(b: Book, x: Id, classes: Classes): Book
    requires x in b.claims && |b.chains| == BUCKETS
  {
    var h := b.hash(b.claims[x].base);
    Book(b.hash, Less(b.claims, x, classes),
         if b.claims[x].classes <= classes then b.chains[h := Without(b.chains[h], x)] else b.chains)
  }

  lemma ReducedFits(b: Book, x: Id, classes: Classes)
    requires Fits(b) && x in b.claims
    ensures Fits(Reduce(b, x, classes))
  {
    LessKeeps(b.claims, x, classes);
    IndexedLess(b.hash, b.claims, b.chains, x, classes);
  }

  /** `ep_exclusive_add_classes_locked` for a claim that is new or on the same base. */
  function Extended(b: Ledger, x: Id, base: int, classes: Classes): (r: Ledger)
    requires (x in b.claims ==> b.claims[x].base == base) && Addable(b.claims, x, base, classes)
  {
    if classes == {} then b
    else
      MoreKeeps(b.claims, x, base, classes);
      IndexedMore(b.hash, b.claims, b.chains, x, base, classes);
      var h := b.hash(base);
      Book(b.hash, More(b.claims, x, base, classes), if x in b.claims then b.chains else b.chains[h := [x] + b.chains[h]])
  }

  class Index {
    var b: Ledger

    constructor (b: Ledger)
      ensures this.b == b
    {
      this.b := b;
    }

    /** `ep_exclusive_unlink_locked` and `ep_exclusive_release_owner` */
    method Unlink(x: Id)
      modifies this
      ensures b.claims == old(b).claims - {x} && b.hash == old(b).hash
    {
      if x in b.claims {
        EveryClass(b.claims[x].classes);
        b := Reduced(b, x, ALL);
      }
    }

    /** One turn: strip the claim at position `i` if it is on the base, and return the position of the next. */
    method Visit(h: BucketNo, i: nat, base: int, classes: Classes) returns (i': nat)
      requires i < |b.chains[h]|
      modifies this
      ensures b.hash == old(b).hash && i' <= |b.chains[h]| && b.chains[h][i'..] == old(b).chains[h][i + 1..]
      ensures var x := old(b).chains[h][i];
              x in old(b).claims &&
              b.claims == if old(b).claims[x].base == base then Less(old(b).claims, x, classes) else old(b).claims
    {
      var x := b.chains[h][i];
      assert x in b.chains[h];
      i' := i + 1;
      if b.claims[x].base == base {
        WithoutAt(b.chains[h], i);
        b := Reduced(b, x, classes);
        if x !in b.claims {
          i' := i;
        }
      }
    }

    /** The loops of a terminal claim and of the quiescent and inactive releases: the next claim is read before
        the current one can leave the chain. */
    method Strip(base: int, classes: Classes)
      modifies this
      ensures b.hash == old(b).hash && StrippedBase(old(b).claims, b.claims, base, classes)
    {
      var h := b.hash(base);
      ghost var s := b.chains[h];
      var i: nat := 0;
      ghost var done: nat := 0;
      while i < |b.chains[h]|
        invariant b.hash == old(b).hash && done <= |s| && i <= |b.chains[h]| && b.chains[h][i..] == s[done..]
        invariant Stripped(old(b).claims, b.claims, s[..done], base, classes)
        decreases |s| - done
      {
        ghost var x := s[done];
        TailsAgree(b.chains[h], i, s, done);
        Fresh(s, done);
        StripMore(old(b).claims, b.claims, s[..done], base, classes, x);
        i := Visit(h, i, base, classes);
        assert s[..done + 1] == s[..done] + [x];
        done := done + 1;
      }
      assert s[..done] == s;
    }

    /** The first loop of `ep_exclusive_try_claim`. */
    method Survey(x: Id, base: int, requested: Classes) returns (owned: Classes, denied: Classes, terminal: bool)
      ensures owned == Owned(b.claims, x, base)
      ensures terminal <==> Held(b.claims, x, base, Terminal)
      ensures !terminal ==>
                forall c :: c in denied <==> c in requested && Terminal !in requested && Held(b.claims, x, base, c)
    {
      var chain := b.chains[b.hash(base)];
      var s: (Classes, Classes, bool) := ({}, {}, false);
      for i := 0 to |chain|
        invariant Seen(b.claims, chain[..i], x, base, requested, s.0, s.1, s.2)
      {
        Fresh(chain, i);
        assert chain[..i + 1] == chain[..i] + [chain[i]];
        LookSees(b.claims, chain[..i], chain[i], x, base, requested, s);
        s := Look(b.claims, chain[i], x, base, requested, s);
      }
      assert chain[..|chain|] == chain;
      forall c: Class
        ensures PeerHas(b.claims, chain, x, base, c) <==> Held(b.claims, x, base, c)
      {
        HeldInChain(b.hash, b.claims, b.chains, x, base, c);
      }
      owned, denied, terminal := s.0, s.1, s.2;
    }

    /** `ep_exclusive_release_quiescent` and `ep_exclusive_release_inactive`: a registration whose base changed
        gives up its old claim, and the quiet classes are free again on the new base. */
    method Release(x: Id, base: int, quiet: Classes)
      modifies this
      ensures StrippedBase(Moved(old(b).claims, x, base), b.claims, base, quiet)
    {
      if x in b.claims && b.claims[x].base != base {
        Unlink(x);
      }
      Strip(base, quiet);
    }

    /** The first terminal report supersedes the directional claims on its base. */
    method ClaimTerminal(x: Id, base: int)
      requires (x in b.claims ==> b.claims[x].base == base) && !Held(b.claims, x, base, Terminal)
      modifies this
      ensures Owned(b.claims, x, base) == {Terminal} && forall y :: On(b.claims, y, base) ==> y == x
    {
      ghost var before := b.claims;
      var held := Terminal in Owned(b.claims, x, base);
      Strip(base, {Read, Write});
      OnlyTerminalLeft(before, b.claims, x, base);
      if !held {
        AloneIsAddable(b.claims, x, base);
        b := Extended(b, x, base, {Terminal});
      }
    }

    /** Directional classes that no peer holds. */
    method ClaimDirections(x: Id, base: int, granted: Classes)
      requires (x in b.claims ==> b.claims[x].base == base) && Terminal !in granted
      requires !Held(b.claims, x, base, Terminal) && forall c :: c in granted ==> !Held(b.claims, x, base, c)
      modifies this
      ensures var owned := Owned(old(b).claims, x, base);
              Owned(b.claims, x, base) == if Terminal in owned then owned else owned + granted
      ensures forall y :: y != x ==> Same(old(b).claims, b.claims, y)
    {
      var owned := Owned(b.claims, x, base);
      if Terminal !in owned {
        FreeIsAddable(b.claims, x, base, granted - owned);
        b := Extended(b, x, base, granted - owned);
        assert owned + (granted - owned) == owned + granted;
      }
    }

    /** The claim on behalf of some classes, and which of them are denied. */
    method Claim(x: Id, base: int, requested: Classes) returns (ok: bool, denied: Classes)
      requires x in b.claims ==> b.claims[x].base == base
      modifies this
      ensures ok <==> !Denied(old(b).claims, x, base, requested)
      ensures !ok ==> b == old(b)
      ensures ok ==>
                forall c :: c in denied <==> c in requested && Terminal !in requested && Held(old(b).claims, x, base, c)
      ensures Owned(b.claims, x, base) == OwnedAfter(Owned(old(b).claims, x, base), requested, denied, ok)
      ensures ok ==> Peers(old(b).claims, b.claims, x, base, Terminal in requested)
    {
      var owned, terminal;
      owned, denied, terminal := Survey(x, base, requested);
      ok := true;
      if requested == {} {
        denied := {};
      } else if terminal || (Terminal !in requested && requested <= denied) {
        ok := false;
      } else if Terminal in requested {
        ClaimTerminal(x, base);
      } else {
        ClaimDirections(x, base, requested - denied);
      }
    }

    /** `ep_exclusive_try_claim`: `left` are the event bits the claimant may report. */
    method TryClaim(x: Id, base: int, delivered: Mask) returns (ok: bool, left: Mask)
      modifies this
      ensures Outcome(Moved(old(b).claims, x, base), b.claims, x, base, delivered, ok, left)
    {
      if x in b.claims && b.claims[x].base != base {
        Unlink(x);
      }
      var denied;
      ok, denied := Claim(x, base, ClassesOf(delivered));
      FilterClasses(delivered, denied);
      left := if ok then Filter(delivered, denied) else delivered;
      SameDenied(Owned(Moved(old(b).claims, x, base), x, base), ClassesOf(delivered), denied);
    }
  }

  /** Another registration of the list holds the class on the base. */
  ghost predicate PeerHas(claims: Claims, list: seq<Id>, x: Id, base: int, c: Class) {
    exists y :: y in list && y != x && On(claims, y, base) && c in claims[y].classes
  }

  ghost predicate Held(claims: Claims, x: Id, base: int, c: Class) {
    exists y :: y != x && On(claims, y, base) && c in claims[y].classes
  }

  /** The claimant's own classes: a terminal report leaves that class alone, any other adds what nobody denied, and a
      terminal claim already covers everything. */
  function OwnedAfter(owned: Classes, requested: Classes, denied: Classes, ok: bool): Classes {
    if !ok || requested == {} then owned
    else if Terminal in requested then {Terminal}
    else if Terminal in owned then owned
    else owned + (requested - denied)
  }

  lemma SameDenied(owned: Classes, requested: Classes, denied: Classes)
    ensures OwnedAfter(owned, requested, denied, true) ==
              OwnedAfter(owned, requested, requested - (requested - denied), true)
  {
    assert requested - (requested - (requested - denied)) == requested - denied;
  }

  /** A peer holds a terminal claim, or every class asked for. */
  ghost predicate Denied(claims: Claims, x: Id, base: int, requested: Classes) {
    && requested != {}
    && (|| Held(claims, x, base, Terminal)
        || (Terminal !in requested && forall c :: c in requested ==> Held(claims, x, base, c)))
  }

  /** A registration whose base changed has lost its claim. */
  function Moved(claims: Claims, x: Id, base: int): Claims {
    if x in claims && claims[x].base != base then claims - {x} else claims
  }

  predicate Same(claims: Claims, claims': Claims, y: Id) {
    (y in claims <==> y in claims') && (y in claims ==> claims[y] == claims'[y])
  }

  /** A terminal claim leaves nobody else on the base; any other claim leaves the peers alone. */
  ghost predicate Peers(claims: Claims, claims': Claims, x: Id, base: int, terminal: bool) {
    if terminal then forall y :: On(claims', y, base) ==> y == x else forall y :: y != x ==> Same(claims, claims', y)
  }

  /** What a claim for the reported bits comes to: denied exactly when a peer holds a terminal claim or every
      class asked for; otherwise the bits left are those of the classes no peer holds, or all of a terminal
      report, and the claimant's own claim covers them. */
  ghost predicate Outcome(claims: Claims, claims': Claims, x: Id, base: int, delivered: Mask, ok: bool, left: Mask) {
    && (ok <==> !Denied(claims, x, base, ClassesOf(delivered)))
    && if !ok then left == delivered && claims' == claims
       else
         && left <= delivered
         && (forall c :: c in ClassesOf(left) <==>
               c in ClassesOf(delivered) && (Terminal in ClassesOf(delivered) || !Held(claims, x, base, c)))
         && Owned(claims', x, base) ==
              OwnedAfter(Owned(claims, x, base), ClassesOf(delivered), ClassesOf(delivered) - ClassesOf(left), true)
         && Peers(claims, claims', x, base, Terminal in ClassesOf(delivered))
  }

  /** A granted report of some class is never empty. */
  lemma GrantedIsSomething(claims: Claims, claims': Claims, x: Id, base: int, delivered: Mask, left: Mask)
    requires Outcome(claims, claims', x, base, delivered, true, left) && ClassesOf(delivered) != {}
    ensures left != {} && ClassesOf(left) != {}
  {
    var c :| c in ClassesOf(delivered) && (Terminal in ClassesOf(delivered) || !Held(claims, x, base, c));
    assert c in ClassesOf(left);
    assert left * BitsOf(c) != {};
  }

  lemma AloneIsAddable(claims: Claims, x: Id, base: int)
    requires (forall y :: !On(claims, y, base)) && (x in claims ==> claims[x].base == base)
    ensures Addable(claims, x, base, {Terminal})
  {
    assert !On(claims, x, base);
    forall y | y in claims
      ensures claims[y].base != base
    {
      assert !On(claims, y, base);
    }
  }

  lemma FreeIsAddable(claims: Claims, x: Id, base: int, classes: Classes)
    requires Owners(claims) && !Held(claims, x, base, Terminal) && Terminal !in Owned(claims, x, base)
    requires (x in claims ==> claims[x].base == base) && Terminal !in classes
    requires forall c :: c in classes ==> !Held(claims, x, base, c)
    ensures Addable(claims, x, base, classes)
  {
    forall y | y in claims && y != x && claims[y].base == base
      ensures claims[y].classes !! classes && Terminal !in claims[y].classes
    {
      assert On(claims, y, base);
    }
  }

  lemma OnlyTerminalLeft(claims: Claims, claims': Claims, x: Id, base: int)
    requires Owners(claims) && StrippedBase(claims, claims', base, {Read, Write}) && !Held(claims, x, base, Terminal)
    ensures forall y :: On(claims', y, base) ==> y == x && claims'[y].classes == {Terminal} == claims[y].classes
    ensures forall y :: y in claims' ==> y in claims && claims'[y].base == claims[y].base
    ensures Terminal in Owned(claims, x, base) ==> Terminal in Owned(claims', x, base)
  {
    forall y | On(claims', y, base)
      ensures y == x && claims'[y].classes == {Terminal} == claims[y].classes
    {
      assert On(claims, y, base);
      EveryClass(claims[y].classes);
      assert claims[y].classes <= {Read, Write} || Terminal in claims[y].classes;
    }
  }

  function Owned(claims: Claims, x: Id, base: int): Classes {
    if On(claims, x, base) then claims[x].classes else {}
  }

  lemma HeldInChain(hash: int -> BucketNo, claims: Claims, chains: seq<seq<Id>>, x: Id, base: int, c: Class)
    requires Indexed(hash, claims, chains)
    ensures PeerHas(claims, chains[hash(base)], x, base, c) <==> Held(claims, x, base, c)
  {
    if Held(claims, x, base, c) {
      var y :| y != x && On(claims, y, base) && c in claims[y].classes;
      assert y in chains[hash(base)];
    }
  }

  /** What the first loop of a claim has seen in a prefix of the chain. */
  ghost predicate Seen(claims: Claims, list: seq<Id>, x: Id, base: int, requested: Classes,
                       owned: Classes, denied: Classes, terminal: bool)
  {
    && owned == (if x in list then Owned(claims, x, base) else {})
    && (terminal <==> PeerHas(claims, list, x, base, Terminal))
    && (!terminal ==>
          forall c :: c in denied <==> c in requested && Terminal !in requested && PeerHas(claims, list, x, base, c))
  }

  lemma PeerHasMore(claims: Claims, list: seq<Id>, y: Id, x: Id, base: int, c: Class)
    ensures PeerHas(claims, list + [y], x, base, c) <==>
              PeerHas(claims, list, x, base, c) || (y != x && On(claims, y, base) && c in claims[y].classes)
  {
    if PeerHas(claims, list, x, base, c) {
      var z :| z in list && z != x && On(claims, z, base) && c in claims[z].classes;
      assert z in list + [y];
    }
    if y != x && On(claims, y, base) && c in claims[y].classes {
      assert y in list + [y];
    }
  }

  /** One turn of the first loop of a claim. */
  function Look(claims: Claims, y: Id, x: Id, base: int, requested: Classes, s: (Classes, Classes, bool))
    : (Classes, Classes, bool)
  {
    if !On(claims, y, base) then s
    else if y == x then (s.0 + claims[y].classes, s.1, s.2)
    else if Terminal in claims[y].classes then (s.0, s.1, true)
    else if Terminal !in requested then (s.0, s.1 + claims[y].classes * requested, s.2)
    else s
  }

  lemma LookSees(claims: Claims, list: seq<Id>, y: Id, x: Id, base: int, requested: Classes, s: (Classes, Classes, bool))
    requires Seen(claims, list, x, base, requested, s.0, s.1, s.2) && y !in list
    ensures var t := Look(claims, y, x, base, requested, s);
            Seen(claims, list + [y], x, base, requested, t.0, t.1, t.2)
  {
    forall c
      ensures PeerHas(claims, list + [y], x, base, c) <==>
              PeerHas(claims, list, x, base, c) || (y != x && On(claims, y, base) && c in claims[y].classes)
    {
      PeerHasMore(claims, list, y, x, base, c);
    }
  }

  function More(claims: Claims, x: Id, base: int, classes: Classes): Claims {
    if classes == {} then claims
    else claims[x := Claim(base, (if x in claims then claims[x].classes else {}) + classes)]
  }

  /** No other claim on the base is in the way of these classes. */
  ghost predicate Addable(claims: Claims, x: Id, base: int, classes: Classes) {
    && (forall y :: y in claims && y != x && claims[y].base == base ==>
          claims[y].classes !! classes && Terminal !in claims[y].classes && Terminal !in classes)
    && (Terminal in classes ==> classes == {Terminal} && x !in claims)
    && (x in claims && classes != {} ==> Terminal !in claims[x].classes)
  }

  lemma MoreKeeps(claims: Claims, x: Id, base: int, classes: Classes)
    requires Owners(claims) && (x in claims ==> claims[x].base == base) && Addable(claims, x, base, classes)
    ensures Owners(More(claims, x, base, classes))
  {
  }

  lemma IndexedMore(hash: int -> BucketNo, claims: Claims, chains: seq<seq<Id>>, x: Id, base: int, classes: Classes)
    requires Indexed(hash, claims, chains) && (x in claims ==> claims[x].base == base) && classes != {}
    ensures Indexed(hash, More(claims, x, base, classes),
                  if x in claims then chains else chains[hash(base) := [x] + chains[hash(base)]])
  {
    if x !in claims {
      assert x !in chains[hash(base)];
    }
  }
}
