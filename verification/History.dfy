/**
 What a caller can observe of one registration, as a sequence of events, and the
 summary of that sequence which the registration machine keeps in step with its
 fields.
 */
module History {
  import opened Readiness

  datatype Event =
    | Configured(data: int, ctx: int)                              // ADD, or a MOD that succeeded
    | Signal                                                       // the kernel object gave up one notification
    | Returned(events: Mask, data: int, ctx: int, explicit: bool, edge: bool)  // an event reached the caller
    | Acked(classes: Classes)                                      // epoll_rearm_classes succeeded
    | Roused                                                       // a local shutdown queued it while it rested
    // The rest concerns edge-triggered sockets.
    | Found(level: Mask, news: Mask)                               // a completed poll: its level, and what it queued
    | Told(level: Mask, news: Mask, node: Mask)                    // a local shutdown: its level, what it added, the node
    | Watched                                                      // a poll went pending
    | Renewed                                                      // a fired one-shot was enabled again

  /** `told` says that an event was returned since the latest configuration; `unacked` are the classes delivered
      under explicit rearm and not yet acknowledged; `edges` are the bits queued for the caller and not seen to fall
      since, and `node` those of the queued node; `sound` says that every returned event carried the latest
      configuration, no unacknowledged class, and its node, and that only edges were queued. */
  datatype Tally = Tally(
    signals: nat, returned: nat, roused: nat, told: bool, unacked: Classes, data: int, ctx: int, edges: Mask, node: Mask,
    sound: bool)

  function Apply(t: Tally, e: Event): Tally {
    match e
    case Configured(data, ctx) => t.(data := data, ctx := ctx, told := false, unacked := {}, edges := {}, node := {})
    case Signal => t.(signals := t.signals + 1)
    case Returned(events, data, ctx, explicit, edge) =>
      t.(returned := t.returned + 1, told := true, node := {},
         sound := t.sound && data == t.data && ctx == t.ctx && (explicit ==> ClassesOf(events) !! t.unacked) &&
                  (edge ==> events == t.node),
         unacked := if explicit then t.unacked + DeliveryClasses(events) else t.unacked)
    case Acked(classes) =>
      t.(unacked := t.unacked - classes, edges := Filter(t.edges, classes), sound := t.sound && t.node == {})
    case Roused => t.(roused := t.roused + 1)
    case Found(level, news) =>
      t.(edges := t.edges * level + news, node := news,
         sound := t.sound && t.node == {} && news <= level && news !! t.edges)
    case Told(level, news, node) =>
      t.(edges := t.edges * level + news, node := node,
         sound := t.sound && news <= level && news !! t.edges && node <= t.node + news)
    case Watched => t.(edges := {}, sound := t.sound && t.node == {})
    case Renewed => t.(edges := {}, node := {})
  }

  function Sum(h: seq<Event>): Tally {
    if h == [] then Tally(0, 0, 0, false, {}, 0, 0, {}, {}, true) else Apply(Sum(h[..|h| - 1]), h[|h| - 1])
  }

  lemma SumAppend(h: seq<Event>, e: Event)
    ensures Sum(h + [e]) == Apply(Sum(h), e)
  {
    assert (h + [e])[..|h|] == h;
  }

  lemma {:induction false} SoundPrefix(h: seq<Event>, k: nat)
    requires k <= |h| && Sum(h).sound
    ensures Sum(h[..k]).sound
    decreases |h|
  {
    if k == |h| {
      assert h[..k] == h;
    } else {
      SoundPrefix(h[..|h| - 1], k);
      assert h[..|h| - 1][..k] == h[..k];
    }
  }

  predicate Clears(e: Event, c: Class) {
    e.Configured? || (e.Acked? && c in e.classes)
  }

  /** An unacknowledged class stays so until something clears it. */
  lemma {:induction false} UnackedPersists(h: seq<Event>, i: nat, j: nat, c: Class)
    requires i <= j <= |h|
    requires c in Sum(h[..i]).unacked
    requires forall k :: i <= k < j ==> !Clears(h[k], c)
    ensures c in Sum(h[..j]).unacked
    decreases j
  {
    if i < j {
      UnackedPersists(h, i, j - 1, c);
      SumAppend(h[..j - 1], h[j - 1]);
      assert h[..j - 1] + [h[j - 1]] == h[..j];
      assert !Clears(h[j - 1], c);
    }
  }

  lemma DeliveredIsUnacked(h: seq<Event>, i: nat, c: Class)
    requires i < |h| && h[i].Returned? && h[i].explicit && c in DeliveryClasses(h[i].events)
    ensures c in Sum(h[..i + 1]).unacked
  {
    SumAppend(h[..i], h[i]);
    assert h[..i] + [h[i]] == h[..i + 1];
  }

  lemma ReturnedWasAcked(h: seq<Event>, j: nat, c: Class)
    requires Sum(h).sound
    requires j < |h| && h[j].Returned? && h[j].explicit && c in ClassesOf(h[j].events)
    ensures c !in Sum(h[..j]).unacked
  {
    SoundPrefix(h, j + 1);
    SumAppend(h[..j], h[j]);
    assert h[..j] + [h[j]] == h[..j + 1];
  }

  /** Between two explicitly delivered events that report the same class there is an acknowledgement of that
      class or a MOD; after a terminal event the same holds for every class of the later event. */
  lemma AcknowledgedBetween(h: seq<Event>, i: nat, j: nat, c: Class)
    requires Sum(h).sound
    requires i < j < |h|
    requires h[i].Returned? && h[i].explicit && c in DeliveryClasses(h[i].events)
    requires h[j].Returned? && h[j].explicit && c in ClassesOf(h[j].events)
    ensures exists k :: i < k < j && Clears(h[k], c)
  {
    DeliveredIsUnacked(h, i, c);
    ReturnedWasAcked(h, j, c);
    if forall k :: i + 1 <= k < j ==> !Clears(h[k], c) {
      UnackedPersists(h, i + 1, j, c);
    }
  }

  /** The event queues the bit for the caller. */
  predicate Finds(e: Event, b: Bit) {
    (e.Found? || e.Told?) && b in e.news
  }

  /** After the event the bit may count as an edge again: the level was without it, the poll for it went pending, the
      caller acknowledged it, or the observation started over. */
  predicate Falls(e: Event, b: Bit) {
    || e.Watched? || e.Renewed? || e.Configured? || ((e.Found? || e.Told?) && b !in e.level)
    || (e.Acked? && !(ClassesOf({b}) !! e.classes))
  }

  /** A queued node stays in the queue over the event. */
  predicate Waits(e: Event) {
    e.Told? || e.Roused? || e.Signal?
  }

  lemma {:induction false} EdgePersists(h: seq<Event>, i: nat, j: nat, b: Bit)
    requires i <= j <= |h| && b in Sum(h[..i]).edges
    requires forall k :: i <= k < j ==> !Falls(h[k], b)
    ensures b in Sum(h[..j]).edges
    decreases j
  {
    if i < j {
      EdgePersists(h, i, j - 1, b);
      SumAppend(h[..j - 1], h[j - 1]);
      assert h[..j - 1] + [h[j - 1]] == h[..j] && !Falls(h[j - 1], b);
      if h[j - 1].Acked? {
        FilterExactly(Sum(h[..j - 1]).edges, h[j - 1].classes, b);
      }
    }
  }

  lemma FoundIsEdge(h: seq<Event>, i: nat, b: Bit)
    requires i < |h| && Finds(h[i], b)
    ensures b in Sum(h[..i + 1]).edges
  {
    SumAppend(h[..i], h[i]);
    assert h[..i] + [h[i]] == h[..i + 1];
  }

  lemma FoundWasNoEdge(h: seq<Event>, k: nat, b: Bit)
    requires Sum(h).sound && k < |h| && Finds(h[k], b)
    ensures b !in Sum(h[..k]).edges
  {
    SoundPrefix(h, k + 1);
    SumAppend(h[..k], h[k]);
    assert h[..k] + [h[k]] == h[..k + 1];
  }

  /** Between two events that queue the same bit there is one after which it may count as an edge again. */
  lemma FallsBetween(h: seq<Event>, i: nat, k: nat, b: Bit)
    requires Sum(h).sound && i < k < |h| && Finds(h[i], b) && Finds(h[k], b)
    ensures exists m :: i < m < k && Falls(h[m], b)
  {
    FoundIsEdge(h, i, b);
    FoundWasNoEdge(h, k, b);
    if forall m :: i + 1 <= m < k ==> !Falls(h[m], b) {
      EdgePersists(h, i + 1, k, b);
    }
  }

  /** A bit of the queued node was queued by some event, and the node has waited since. */
  lemma {:induction false} NodeWasFound(h: seq<Event>, j: nat, b: Bit) returns (i: nat)
    requires j <= |h| && Sum(h[..j]).sound && b in Sum(h[..j]).node
    ensures i < j && Finds(h[i], b) && forall m :: i < m < j ==> Waits(h[m])
    decreases j
  {
    assert h[..j][..j - 1] == h[..j - 1] && h[..j][j - 1] == h[j - 1];
    if Finds(h[j - 1], b) {
      i := j - 1;
    } else {
      i := NodeWasFound(h, j - 1, b);
    }
  }

  lemma ReturnedWasFound(h: seq<Event>, j: nat, b: Bit) returns (i: nat)
    requires Sum(h).sound && j < |h| && h[j].Returned? && h[j].edge && b in h[j].events
    ensures i < j && Finds(h[i], b) && forall m :: i < m < j ==> Waits(h[m])
  {
    SoundPrefix(h, j + 1);
    SumAppend(h[..j], h[j]);
    assert h[..j] + [h[j]] == h[..j + 1];
    SoundPrefix(h, j);
    i := NodeWasFound(h, j, b);
  }

  /** A local shutdown found the bit gone while its node waited to be returned at `j`. */
  predicate FellWaiting(h: seq<Event>, m: nat, j: nat) {
    m < j <= |h| && h[m].Told? && forall n :: m < n < j ==> Waits(h[n])
  }

  /** Between two returned events that both carry the bit it may have risen again: its level was found without it, its
      poll went pending, the caller acknowledged it, or the observation started over; in between, or at a local
      shutdown while the first event still waited to be returned. */
  lemma EdgeBetween(h: seq<Event>, j: nat, k: nat, b: Bit)
    requires Sum(h).sound && j < k < |h|
    requires h[j].Returned? && h[j].edge && b in h[j].events && h[k].Returned? && h[k].edge && b in h[k].events
    ensures exists m :: 0 <= m < k && Falls(h[m], b) && (j < m || FellWaiting(h, m, j))
  {
    var i := ReturnedWasFound(h, j, b);
    var i' := ReturnedWasFound(h, k, b);
    assert i' > j;
    FallsBetween(h, i, i', b);
    var m :| i < m < i' && Falls(h[m], b);
    assert m < j ==> Waits(h[m]);
  }

  /** The configuration in force after the first `j` events. */
  predicate LatestBefore(h: seq<Event>, j: nat, k: nat) {
    k < j <= |h| && h[k].Configured? && forall m :: k < m < j ==> !h[m].Configured?
  }

  lemma {:induction false} LatestData(h: seq<Event>, j: nat, k: nat)
    requires LatestBefore(h, j, k)
    ensures Sum(h[..j]).data == h[k].data && Sum(h[..j]).ctx == h[k].ctx
    decreases j
  {
    SumAppend(h[..j - 1], h[j - 1]);
    assert h[..j - 1] + [h[j - 1]] == h[..j];
    if k < j - 1 {
      LatestData(h, j - 1, k);
    }
  }

  /** Every returned event carries the data and context of the latest successful ADD or MOD before it. */
  lemma ReturnedIsLatest(h: seq<Event>, j: nat, k: nat)
    requires Sum(h).sound
    requires j < |h| && h[j].Returned? && LatestBefore(h, j, k)
    ensures h[j].data == h[k].data && h[j].ctx == h[k].ctx
  {
    LatestData(h, j, k);
    SumAppend(h[..j], h[j]);
    assert h[..j] + [h[j]] == h[..j + 1];
    SoundPrefix(h, j + 1);
  }

  function Count(h: seq<Event>, signal: bool): nat {
    if h == [] then 0
    else Count(h[..|h| - 1], signal) + (if (if signal then h[|h| - 1].Signal? else h[|h| - 1].Returned?) then 1 else 0)
  }

  /** The two counters are the numbers of signals and of returned events. */
  lemma {:induction false} TallyCounts(h: seq<Event>)
    ensures Sum(h).signals == Count(h, true) && Sum(h).returned == Count(h, false)
  {
    if h != [] {
      TallyCounts(h[..|h| - 1]);
    }
  }
}
