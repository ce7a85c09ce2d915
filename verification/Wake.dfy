/**
 Explicit wakes of a Windows port (src/wepoll_ex_port.c): requests coalesce into one
 pending wake and one control packet, and the single active wait takes it.  A step
 is one critical section under `wake_lock`, one packet posted or dequeued, or one
 read of the pending flag.
 */
module Wake {

  type Thread = nat

  datatype Option = None | Some(tag: int)

  datatype Pending = NoWake | Untagged | Tagged(payload: int)

  /** The thread inside `ep_port_wait_timeout_impl`, if any. */
  datatype Waiter =
    | Elsewhere                     // not waiting, or busy with other work
    | Dequeuing(blocking: bool)     // in the completion-port wait
    | Dequeued                      // back from it, about to look for a wake
    | Took(wake: Pending)           // took a wake, about to count it

  datatype Counters = Counters(requests: nat, coalesced: nat, returned: nat)

  /** `since` are the tags requested since the last take; `episode` numbers the pending wakes, and each of
      `packets` is a control packet, of the episode it was posted for. */
  datatype State = State(
    pending: Pending, episode: nat, posters: map<Thread, nat>, packets: seq<nat>, waiter: Waiter,
    counters: Counters, since: seq<Option>, results: seq<Pending>)

  datatype Action =
    | Request(t: Thread, tag: Option)
    | Post(t: Thread)
    | Look                 // the wait reads the pending flag and chooses its timeout
    | Dequeue(n: nat)      // some packets come off, `n` of them control packets
    | Expire               // none did in time
    | Leave                // the wait returns events or an error instead
    | Take
    | Count

  function Init(): State {
    State(NoWake, 0, map[], [], Elsewhere, Counters(0, 0, 0), [], [])
  }

  /** `ep_port_request_wake` under the lock. */
  function StepRequest(s: State, t: Thread, tag: Option): State {
    if t in s.posters then s
    else
      var asked := if tag.None? then Untagged else Tagged(tag.tag);
      var counted := s.counters.(requests := s.counters.requests + 1);
      if s.pending.NoWake? then
        s.(pending := asked, episode := s.episode + 1, posters := s.posters[t := s.episode + 1], counters := counted,
           since := s.since + [tag])
      else
        s.(pending := if s.pending.Untagged? then asked else s.pending,
           counters := counted.(coalesced := counted.coalesced + 1), since := s.since + [tag])
  }

  function Step(s: State, a: Action): State {
    match a
    case Request(t, tag) => StepRequest(s, t, tag)
    case Post(t) =>
      if t !in s.posters then s else s.(posters := s.posters - {t}, packets := s.packets + [s.posters[t]])
    case Look =>
      if s.waiter.Elsewhere? then s.(waiter := Dequeuing(s.pending.NoWake?)) else s
    case Dequeue(n) =>
      if s.waiter.Dequeuing? && n <= |s.packets| then s.(waiter := Dequeued, packets := s.packets[n..]) else s
    case Expire =>
      if s.waiter.Dequeuing? && s.packets == [] then s.(waiter := Dequeued) else s
    case Leave =>
      if s.waiter.Dequeued? then s.(waiter := Elsewhere) else s
    case Take =>
      if !s.waiter.Dequeued? then s
      else if s.pending.NoWake? then s.(waiter := Elsewhere)
      else s.(waiter := Took(s.pending), pending := NoWake, since := [])
    case Count =>
      if !s.waiter.Took? then s
      else s.(waiter := Elsewhere, counters := s.counters.(returned := s.counters.returned + 1),
              results := s.results + [s.waiter.wake])
  }

  function Run(actions: seq<Action>): State {
    if actions == [] then Init() else Step(Run(actions[..|actions| - 1]), actions[|actions| - 1])
  }

  /** The first tag among the requests. */
  function FirstTag(since: seq<Option>): Option {
    if since == [] then None else if since[0].Some? then since[0] else FirstTag(since[1..])
  }

  /** What should be pending: nothing, a wake, or the first tagged payload. */
  function Due(since: seq<Option>): Pending {
    if since == [] then NoWake else if FirstTag(since).Some? then Tagged(FirstTag(since).tag) else Untagged
  }

  lemma {:induction false} FirstTagAppend(since: seq<Option>, tag: Option)
    ensures FirstTag(since + [tag]) == if FirstTag(since).Some? then FirstTag(since) else tag
  {
    if since == [] {
      assert [tag][1..] == [];
    } else {
      FirstTagAppend(since[1..], tag);
      assert (since + [tag])[1..] == since[1..] + [tag];
    }
  }

  // ---------------------------------------------------------------- invariant

  function One(b: bool): nat {
    if b then 1 else 0
  }

  /** Requests are coalesced, returned, pending, or just taken. */
  predicate Conserved(s: State) {
    s.counters.requests == s.counters.coalesced + s.counters.returned + One(!s.pending.NoWake?) + One(s.waiter.Took?)
  }

  /** The packet of the pending wake is queued, or a thread is about to post it. */
  ghost predicate OnItsWay(s: State) {
    s.episode in s.packets || exists t :: t in s.posters && s.posters[t] == s.episode
  }

  ghost predicate Inv(s: State) {
    && Conserved(s)
    && s.pending == Due(s.since)
    && (s.waiter == Dequeuing(true) && !s.pending.NoWake? ==> OnItsWay(s))
    && (s.waiter.Took? ==> !s.waiter.wake.NoWake?)
  }

  lemma RequestKeeps(s: State, t: Thread, tag: Option)
    requires Inv(s)
    ensures Inv(StepRequest(s, t, tag))
  {
    if t !in s.posters {
      FirstTagAppend(s.since, tag);
      var s' := StepRequest(s, t, tag);
      if s.pending.NoWake? {
        assert t in s'.posters && s'.posters[t] == s'.episode;
      } else if OnItsWay(s) && s.episode !in s.packets {
        var u :| u in s.posters && s.posters[u] == s.episode;
        assert u in s'.posters;
      }
    }
  }

  lemma PostKeeps(s: State, t: Thread)
    requires Inv(s)
    ensures Inv(Step(s, Post(t)))
  {
    var s' := Step(s, Post(t));
    if t in s.posters && OnItsWay(s) {
      if s.episode !in s.packets {
        var u :| u in s.posters && s.posters[u] == s.episode;
        assert u == t || u in s'.posters;
      }
      assert OnItsWay(s');
    }
  }

  lemma StepKeeps(s: State, a: Action)
    requires Inv(s)
    ensures Inv(Step(s, a))
  {
    match a
    case Request(t, tag) => RequestKeeps(s, t, tag);
    case Post(t) => PostKeeps(s, t);
    case _ =>
  }

  lemma {:induction false} RunKeeps(actions: seq<Action>)
    ensures Inv(Run(actions))
  {
    if actions != [] {
      RunKeeps(actions[..|actions| - 1]);
      StepKeeps(Run(actions[..|actions| - 1]), actions[|actions| - 1]);
    }
  }

  // -------------------------------------------------------------------- results

  /** In every interleaving requests are conserved, and no wait blocks past a pending wake whose control packet is
      neither queued nor about to be posted. */
  lemma WakesConserved(actions: seq<Action>)
    ensures Conserved(Run(actions))
    ensures Run(actions).waiter == Dequeuing(true) && !Run(actions).pending.NoWake? ==> OnItsWay(Run(actions))
  {
    RunKeeps(actions);
  }

  /** A wait that takes a wake takes exactly what was asked for since the last take: the first tagged payload,
      or an untagged wake if there was none. */
  lemma FirstTagReturned(actions: seq<Action>)
    requires Run(actions).waiter.Dequeued? && Run(actions).since != []
    ensures var s := Run(actions);
            Step(s, Take).waiter ==
              Took(if FirstTag(s.since).Some? then Tagged(FirstTag(s.since).tag) else Untagged)
  {
    RunKeeps(actions);
  }

  function Play(s: State, actions: seq<Action>): State
    decreases |actions|
  {
    if actions == [] then s else Play(Step(s, actions[0]), actions[1..])
  }

  /** A wait blocked on a pending wake is at most three steps from taking it: the post still to be made, if any,
      the dequeue of what is queued, and the take. */
  lemma BlockedWaitGetsThrough(actions: seq<Action>) returns (rest: seq<Action>)
    requires Run(actions).waiter == Dequeuing(true) && !Run(actions).pending.NoWake?
    ensures |rest| <= 3 && Play(Run(actions), rest).waiter == Took(Run(actions).pending)
  {
    RunKeeps(actions);
    var s := Run(actions);
    if s.episode in s.packets {
      rest := [Dequeue(|s.packets|), Take];
      assert rest[1..] == [Take] && [Take][1..] == [];
      assert Play(s, rest) == Play(Step(s, Dequeue(|s.packets|)), [Take]);
    } else {
      var t :| t in s.posters && s.posters[t] == s.episode;
      var s1 := Step(s, Post(t));
      rest := [Post(t), Dequeue(|s1.packets|), Take];
      assert rest[1..] == [Dequeue(|s1.packets|), Take] && rest[1..][1..] == [Take] && [Take][1..] == [];
      assert Play(s, rest) == Play(s1, [Dequeue(|s1.packets|), Take]) == Play(Step(s1, Dequeue(|s1.packets|)), [Take]);
    }
  }

  /** The wakes taken in a run, each as it was due. */
  function Takes(actions: seq<Action>): seq<Pending> {
    if actions == [] then []
    else
      var s := Run(actions[..|actions| - 1]);
      Takes(actions[..|actions| - 1]) +
      if actions[|actions| - 1].Take? && s.waiter.Dequeued? && s.since != [] then [Due(s.since)] else []
  }

  /** A wake that was taken and is still to be counted. */
  function InHand(waiter: Waiter): seq<Pending> {
    if waiter.Took? then [waiter.wake] else []
  }

  /** Waits return the wakes they took, each once and in order, and count them. */
  lemma {:induction false} ResultsAreTakes(actions: seq<Action>)
    ensures var s := Run(actions);
            s.results + InHand(s.waiter) == Takes(actions) && s.counters.returned == |s.results|
  {
    if actions != [] {
      var before := actions[..|actions| - 1];
      ResultsAreTakes(before);
      RunKeeps(before);
      StepTakes(Run(before), actions[|actions| - 1]);
    }
  }

  lemma StepTakes(s: State, a: Action)
    requires Inv(s)
    ensures var s' := Step(s, a);
            var taken := if a.Take? && s.waiter.Dequeued? && s.since != [] then [Due(s.since)] else [];
            && s'.results + InHand(s'.waiter) == s.results + InHand(s.waiter) + taken
            && s'.counters.returned - |s'.results| == s.counters.returned - |s.results|
  {
  }

  /** What a run asked for and what it did to the completion port: requests made and those that found a wake pending,
      packets posted, and control packets taken off. */
  datatype Deeds = Deeds(requests: nat, coalesced: nat, posts: nat, removed: nat)

  function Did(s: State, d: Deeds, a: Action): Deeds {
    match a
    case Request(t, _) =>
      if t in s.posters then d
      else d.(requests := d.requests + 1, coalesced := d.coalesced + One(!s.pending.NoWake?))
    case Post(t) => if t in s.posters then d.(posts := d.posts + 1) else d
    case Dequeue(n) => if s.waiter.Dequeuing? && n <= |s.packets| then d.(removed := d.removed + n) else d
    case _ => d
  }

  function DeedsOf(actions: seq<Action>): Deeds {
    if actions == [] then Deeds(0, 0, 0, 0)
    else Did(Run(actions[..|actions| - 1]), DeedsOf(actions[..|actions| - 1]), actions[|actions| - 1])
  }

  /** The counters count the requests; every packet posted or still to be posted stands for one pending wake, and a
      packet comes off once. */
  predicate Counted(s: State, d: Deeds) {
    && s.counters.requests == d.requests && s.counters.coalesced == d.coalesced
    && d.posts + |s.posters| == s.episode && d.removed + |s.packets| == d.posts
  }

  lemma StepCounts(s: State, d: Deeds, a: Action)
    requires Counted(s, d)
    ensures Counted(Step(s, a), Did(s, d, a))
  {
    if a.Post? && a.t in s.posters {
      assert s.posters == (s.posters - {a.t})[a.t := s.posters[a.t]];
    }
  }

  lemma {:induction false} CountersExact(actions: seq<Action>)
    ensures Counted(Run(actions), DeedsOf(actions))
  {
    if actions != [] {
      CountersExact(actions[..|actions| - 1]);
      StepCounts(Run(actions[..|actions| - 1]), DeedsOf(actions[..|actions| - 1]), actions[|actions| - 1]);
    }
  }
}
