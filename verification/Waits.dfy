/**
 The arm pass at the start of a wait on a Windows port (src/wepoll_ex_port.c), on the
 registrations themselves.
 */
module Waits {
  import opened PortMachine
  import opened Readiness
  import opened Registration
  import opened Worklist
  import Chains

  /** The worklists hold exactly the flagged registrations, each once. */
  ghost predicate Listed(regs: map<Id, Reg>, l: Lists) {
    && Chains.NoDuplicates(l.rearm) && Chains.NoDuplicates(l.oneshot)
    && (forall i :: i in l.rearm <==> Live(regs, i) && regs[i].work.rearm)
    && (forall i :: i in l.oneshot <==> Live(regs, i) && regs[i].work.fired)
  }

  lemma RestListed(s: seq<Id>)
    requires Chains.NoDuplicates(s) && s != []
    ensures Chains.NoDuplicates(s[1..]) && forall i :: i in s[1..] <==> i in s && i != s[0]
  {
    assert s == [s[0]] + s[1..];
  }

  lemma WithoutListed(s: seq<Id>, x: Id)
    requires Chains.NoDuplicates(s)
    ensures Chains.NoDuplicates(Chains.Without(s, x)) && forall i :: i in Chains.Without(s, x) <==> i in s && i != x
  {
    if x in s {
      Chains.Unlinked(s, x);
    }
  }

  /** The lists after a turn of the first loop describe the registrations after its submission. */
  lemma RearmTurnListed(regs: map<Id, Reg>, regs': map<Id, Reg>, l: Lists, v: Visit)
    requires Listed(regs, l) && l.rearm != [] && Elsewhere(regs, regs', l.rearm[0])
    requires l.rearm[0] in regs && HasEffect(regs[l.rearm[0]], regs', l.rearm[0], v)
    ensures Listed(regs', RearmTurn(l, v))
  {
    var x := l.rearm[0];
    RestListed(l.rearm);
    WithoutListed(l.oneshot, x);
    assert x in l.rearm;
    assert forall i :: i != x ==> (Live(regs', i) <==> Live(regs, i));
  }

  /** Likewise for the second loop: a fired one-shot is kept or retired. */
  lemma OneshotTurnListed(regs: map<Id, Reg>, regs': map<Id, Reg>, l: Lists, v: Visit)
    requires Listed(regs, l) && l.oneshot != [] && Elsewhere(regs, regs', l.oneshot[0])
    requires var x := l.oneshot[0];
             x in regs &&
             if v.Dropped? then !Live(regs', x)
             else Live(regs', x) && regs'[x].work.fired && regs'[x].work.rearm == regs[x].work.rearm
    ensures Listed(regs', OneshotTurn(l, v))
  {
    var x := l.oneshot[0];
    RestListed(l.oneshot);
    WithoutListed(l.rearm, x);
    assert x in l.oneshot;
    assert forall i :: i != x ==> (Live(regs', i) <==> Live(regs, i));
  }

  /** The system refused the submission of a registration that wanted one. */
  ghost predicate Refused(env: Env, regs: map<Id, Reg>, order: seq<Id>, answers: seq<Answer>, i: Id)
    requires |answers| == |order|
  {
    i in regs && Wants(env, regs[i]) &&
    exists k :: 0 <= k < |order| && order[k] == i && !Accepted(env, regs[i], answers[k])
  }

  /** The registrations visited so far are tended or were refused, the others are as they were. */
  ghost predicate Visited(env: Env, regs0: map<Id, Reg>, regs: map<Id, Reg>, order: seq<Id>, answers: seq<Answer>)
    requires |answers| == |order|
  {
    forall i :: Live(regs, i) ==>
      i in regs0 && if i in order then Tended(regs[i]) || Refused(env, regs0, order, answers, i) else regs[i] == regs0[i]
  }

  lemma RefusedStill(env: Env, regs: map<Id, Reg>, order: seq<Id>, answers: seq<Answer>, n: nat, i: Id)
    requires |answers| == |order| && n < |order| && Refused(env, regs, order[..n], answers[..n], i)
    ensures Refused(env, regs, order[..n + 1], answers[..n + 1], i)
  {
    var k :| 0 <= k < n && order[..n][k] == i && !Accepted(env, regs[i], answers[..n][k]);
    assert order[..n + 1][k] == i && answers[..n + 1][k] == answers[..n][k];
  }

  lemma VisitedMore(env: Env, regs0: map<Id, Reg>, regs: map<Id, Reg>, regs': map<Id, Reg>,
                    order: seq<Id>, answers: seq<Answer>, n: nat)
    requires |answers| == |order| && n < |order| && Visited(env, regs0, regs, order[..n], answers[..n])
    requires !env.closing && Prompt(regs0) && Chains.NoDuplicates(order)
    requires Live(regs, order[n]) && regs[order[n]].work.rearm && Elsewhere(regs, regs', order[n])
    requires Live(regs', order[n]) ==> Attended(env, regs[order[n]], answers[n], regs'[order[n]])
    ensures Visited(env, regs0, regs', order[..n + 1], answers[..n + 1])
  {
    var x := order[n];
    Chains.Fresh(order, n);
    assert order[..n + 1] == order[..n] + [x];
    forall i | Live(regs', i)
      ensures i in regs0 &&
              if i in order[..n + 1] then Tended(regs'[i]) || Refused(env, regs0, order[..n + 1], answers[..n + 1], i)
              else regs'[i] == regs0[i]
    {
      if i == x {
        assert regs[x] == regs0[x] && Live(regs0, x);
        assert order[..n + 1][n] == x && answers[..n + 1][n] == answers[n];
      } else {
        assert Live(regs, i);
        if i in order[..n] && !Tended(regs[i]) {
          RefusedStill(env, regs0, order, answers, n, i);
        }
      }
    }
  }

  /** One turn of the first loop of `ep_port_arm_pending_locked`, on the registrations themselves. */
  method RearmOne(port: Port, l: Lists, order: seq<Id>, answers: seq<Answer>, n: nat, ghost regs0: map<Id, Reg>)
    returns (l': Lists, v: Visit)
    requires Listed(port.b.regs, l) && !port.env.closing && Prompt(regs0) && Chains.NoDuplicates(order)
    requires |answers| == |order| && n < |order| && l.rearm != [] && l.rearm[0] == order[n]
    requires Visited(port.env, regs0, port.b.regs, order[..n], answers[..n])
    modifies port`b
    ensures l' == RearmTurn(l, v) && Listed(port.b.regs, l')
    ensures Visited(port.env, regs0, port.b.regs, order[..n + 1], answers[..n + 1])
    ensures Unspoiled(old(port.b).regs, port.b.regs)
    ensures order[n] in regs0
    ensures regs0[order[n]].work.fired ==> (v.Dropped? <==> Retires(port.env, regs0[order[n]], answers[n]))
  {
    assert l.rearm[0] in l.rearm;
    Chains.Fresh(order, n);
    ghost var regs := port.b.regs;
    var result;
    result, v := port.Arm(l.rearm[0], answers[n]);
    VisitedMore(port.env, regs0, regs, port.b.regs, order, answers, n);
    RearmTurnListed(regs, port.b.regs, l, v);
    l' := RearmTurn(l, v);
  }

  /** The visits of the first loop so far, and what is left of the list. */
  ghost predicate Turning(l: Lists, visits: seq<Visit>, n: nat, rearms: seq<Id>, l': Lists) {
    && |visits| == |l.rearm| && n <= |visits| && rearms == l.rearm[..n] && l.rearm[n..] <= l'.rearm
    && FirstLoop(l, visits, n, l'.oneshot)
  }

  lemma TurningTurn(l: Lists, visits: seq<Visit>, n: nat, rearms: seq<Id>, l': Lists, v: Visit)
    requires Turning(l, visits, n, rearms, l') && n < |visits| && Chains.NoDuplicates(l.rearm)
    ensures l'.rearm != [] && l'.rearm[0] == l.rearm[n]
    ensures Turning(l, visits[n := v], n + 1, rearms + [l.rearm[n]], RearmTurn(l', v))
  {
    assert l.rearm[n..][0] == l.rearm[n] && l.rearm[n..][1..] == l.rearm[n + 1..];
    FirstLoopSame(l, visits, visits[n := v], n, l'.oneshot);
    FirstLoopTurn(l, visits[n := v], n, l'.oneshot);
  }

  lemma FirstLoopSame(l: Lists, first: seq<Visit>, first': seq<Visit>, n: nat, o: seq<Id>)
    requires |first| == |first'| == |l.rearm| && n <= |first| && first[..n] == first'[..n] && FirstLoop(l, first, n, o)
    ensures FirstLoop(l, first', n, o)
  {
    assert forall k :: 0 <= k < n ==> first[k] == first[..n][k] && first'[k] == first'[..n][k];
  }

  /** The first loop drops a fired one-shot exactly when its probe finds the handle closed. */
  ghost predicate Decided(env: Env, regs: map<Id, Reg>, l: Lists, answers: seq<Answer>, visits: seq<Visit>, n: nat)
    requires |visits| == |answers| == |l.rearm| && n <= |visits|
  {
    forall k :: 0 <= k < n ==>
      l.rearm[k] in regs &&
      (regs[l.rearm[k]].work.fired ==> (visits[k].Dropped? <==> Retires(env, regs[l.rearm[k]], answers[k])))
  }

  lemma DecidedMore(env: Env, regs: map<Id, Reg>, l: Lists, answers: seq<Answer>, visits: seq<Visit>, n: nat, v: Visit)
    requires |visits| == |answers| == |l.rearm| && n < |visits| && Decided(env, regs, l, answers, visits, n)
    requires l.rearm[n] in regs
    requires regs[l.rearm[n]].work.fired ==> (v.Dropped? <==> Retires(env, regs[l.rearm[n]], answers[n]))
    ensures Decided(env, regs, l, answers, visits[n := v], n + 1)
  {
  }

  /** The first loop. */
  method RearmAll(port: Port, l: Lists, answers: seq<Answer>) returns (l': Lists, rearms: seq<Id>, visits: seq<Visit>)
    requires Listed(port.b.regs, l) && |answers| == |l.rearm| && !port.env.closing && Prompt(port.b.regs)
    modifies port`b
    ensures Listed(port.b.regs, l') && rearms == l.rearm && |visits| == |l.rearm|
    ensures FirstLoop(l, visits, |visits|, l'.oneshot)
    ensures Decided(port.env, old(port.b).regs, l, answers, visits, |visits|)
    ensures Visited(port.env, old(port.b).regs, port.b.regs, l.rearm, answers)
    ensures Unspoiled(old(port.b).regs, port.b.regs)
  {
    l', rearms, visits := l, [], seq(|l.rearm|, _ => Deferred);
    for n := 0 to |l.rearm|
      invariant Listed(port.b.regs, l') && Turning(l, visits, n, rearms, l')
      invariant Decided(port.env, old(port.b).regs, l, answers, visits, n)
      invariant Visited(port.env, old(port.b).regs, port.b.regs, l.rearm[..n], answers[..n])
      invariant Unspoiled(old(port.b).regs, port.b.regs)
    {
      TurningTurn(l, visits, n, rearms, l', Deferred);
      ghost var before := l';
      var v;
      l', v := RearmOne(port, l', l.rearm, answers, n, old(port.b).regs);
      TurningTurn(l, visits, n, rearms, before, v);
      DecidedMore(port.env, old(port.b).regs, l, answers, visits, n, v);
      visits, rearms := visits[n := v], rearms + [l.rearm[n]];
    }
    assert l.rearm[..|l.rearm|] == l.rearm && answers[..|l.rearm|] == answers;
  }

  /** What the second loop may do: retire registrations, or leave them fired. */
  ghost predicate Probed(regs0: map<Id, Reg>, regs: map<Id, Reg>) {
    forall i :: Live(regs, i) ==> Live(regs0, i) && (regs[i] == regs0[i] || regs[i].work.fired)
  }

  lemma ProbedOn(regs0: map<Id, Reg>, regs: map<Id, Reg>, regs': map<Id, Reg>)
    requires Probed(regs0, regs) && Probed(regs, regs')
    ensures Probed(regs0, regs')
  {
  }

  /** One turn of the second loop. */
  method ProbeOne(port: Port, l: Lists, a: Answer) returns (l': Lists)
    requires Listed(port.b.regs, l) && l.oneshot != []
    modifies port`b
    ensures Listed(port.b.regs, l') && Probed(old(port.b).regs, port.b.regs) && Unspoiled(old(port.b).regs, port.b.regs)
    ensures l'.oneshot == l.oneshot[1..] || l'.oneshot == l.oneshot[1..] + [l.oneshot[0]]
  {
    assert l.oneshot[0] in l.oneshot;
    ghost var regs := port.b.regs;
    var result, v := port.Arm(l.oneshot[0], a);
    OneshotTurnListed(regs, port.b.regs, l, v);
    l' := OneshotTurn(l, v);
    assert forall i :: i != l.oneshot[0] ==> (Live(port.b.regs, i) <==> Live(regs, i));
  }

  /** The visits so far are a prefix of `queued` if the list started with it, and are of the list in any case. */
  ghost predicate Probing(queued: seq<Id>, o: seq<Id>, n: nat, probes: seq<Id>, o': seq<Id>) {
    && n <= |queued| && |probes| == n && (queued <= o ==> probes == queued[..n] && queued[n..] <= o')
    && (forall y :: y in probes || y in o' ==> y in o)
  }

  lemma ProbingTurn(queued: seq<Id>, o: seq<Id>, n: nat, probes: seq<Id>, o': seq<Id>, o'': seq<Id>)
    requires Probing(queued, o, n, probes, o') && n < |queued| && o' != []
    requires o'' == o'[1..] || o'' == o'[1..] + [o'[0]]
    ensures Probing(queued, o, n + 1, probes + [o'[0]], o'')
  {
    assert o'[0] in o';
    assert forall y :: y in o'' ==> y in o';
    if queued <= o {
      assert queued[n..][0] == queued[n] && queued[n..][1..] == queued[n + 1..];
    }
  }

  /** The second loop, with the budget of the list `queued` as it was at the start of the pass. */
  method ProbeAll(port: Port, l: Lists, queued: seq<Id>, answers: seq<Answer>)
    returns (l': Lists, probes: seq<Id>, stuck: bool)
    requires Listed(port.b.regs, l) && |answers| == |queued|
    modifies port`b
    ensures Listed(port.b.regs, l') && Probed(old(port.b).regs, port.b.regs)
    ensures Unspoiled(old(port.b).regs, port.b.regs)
    ensures queued <= l.oneshot ==> !stuck && probes == queued
    ensures if stuck then l'.oneshot == [] && |probes| < |queued| else |probes| == |queued|
    ensures forall y :: y in probes ==> y in l.oneshot
    ensures probes != [] ==> probes[0] in l.oneshot
  {
    l', probes, stuck := l, [], false;
    for n := 0 to |queued|
      invariant Listed(port.b.regs, l') && Probed(old(port.b).regs, port.b.regs)
      invariant Unspoiled(old(port.b).regs, port.b.regs)
      invariant Probing(queued, l.oneshot, n, probes, l'.oneshot)
    {
      if l'.oneshot == [] {
        stuck := true;
        break;
      }
      ghost var regs := port.b.regs;
      var o := l'.oneshot;
      l' := ProbeOne(port, l', answers[n]);
      ProbedOn(old(port.b).regs, regs, port.b.regs);
      ProbingTurn(queued, l.oneshot, n, probes, o, l'.oneshot);
      probes := probes + [o[0]];
    }
    assert probes != [] ==> probes[0] in probes;
  }

  lemma PassLeavesNone(env: Env, b: Ledger, regs: map<Id, Reg>, regs': map<Id, Reg>, l: Lists, answers: seq<Answer>)
    requires Listed(b.regs, l) && |answers| == |l.rearm|
    requires Visited(env, b.regs, regs, l.rearm, answers) && Probed(regs, regs')
    ensures forall i :: Live(regs', i) && i !in Orphaned(regs') ==>
              Tended(regs'[i]) || Refused(env, b.regs, l.rearm, answers, i)
  {
    forall i | Live(regs', i) && i !in Orphaned(regs')
      ensures Tended(regs'[i]) || Refused(env, b.regs, l.rearm, answers, i)
    {
      assert Live(regs, i);
      if i !in l.rearm {
        Stored(b, i);
      }
    }
  }

  /** No fired one-shot of the rearm list is found closed by the first loop. */
  predicate Spares(env: Env, regs: map<Id, Reg>, l: Lists, first: seq<Answer>)
    requires |first| == |l.rearm|
  {
    forall k :: 0 <= k < |first| && l.rearm[k] in l.oneshot && l.rearm[k] in regs ==>
      !Retires(env, regs[l.rearm[k]], first[k])
  }

  /** All of them are, and nothing else is on either list. */
  ghost predicate Wipes(env: Env, regs: map<Id, Reg>, l: Lists, first: seq<Answer>)
    requires |first| == |l.rearm|
  {
    && (forall i :: i in l.oneshot <==> i in l.rearm)
    && forall k :: 0 <= k < |first| ==> l.rearm[k] in regs && Retires(env, regs[l.rearm[k]], first[k])
  }

  lemma SparesKeeps(env: Env, regs: map<Id, Reg>, l: Lists, first: seq<Answer>, visits: seq<Visit>)
    requires |visits| == |first| == |l.rearm| && Listed(regs, l) && Decided(env, regs, l, first, visits, |visits|)
    ensures Spares(env, regs, l, first) <==> KeepsOneshots(l, visits)
  {
  }

  lemma WipesAll(env: Env, regs: map<Id, Reg>, l: Lists, first: seq<Answer>, visits: seq<Visit>)
    requires |visits| == |first| == |l.rearm| && Decided(env, regs, l, first, visits, |visits|)
    requires Wipes(env, regs, l, first)
    ensures DropsAll(l, visits)
  {
    forall k | 0 <= k < |visits|
      ensures visits[k].Dropped?
    {
      assert Retires(env, regs[l.rearm[k]], first[k]);
    }
    forall i | i in l.oneshot
      ensures exists k :: 0 <= k < |visits| && l.rearm[k] == i && visits[k].Dropped?
    {
      var k :| 0 <= k < |l.rearm| && l.rearm[k] == i;
    }
  }

  /** What the second loop visits, with `o` the list that the first loop left to it. */
  lemma LoopsVisit(l: Lists, visits: seq<Visit>, o: seq<Id>, probes: seq<Id>, stuck: bool)
    requires |visits| == |l.rearm| && FirstLoop(l, visits, |visits|, o)
    requires l.oneshot <= o ==> !stuck && probes == l.oneshot
    requires if stuck then |probes| < |l.oneshot| else |probes| == |l.oneshot|
    requires forall y :: y in probes ==> y in o
    requires probes != [] ==> probes[0] in o
    ensures !stuck && probes == l.oneshot <==> KeepsOneshots(l, visits)
    ensures l.oneshot != [] && DropsAll(l, visits) ==> stuck
  {
    if DropsAll(l, visits) {
      DroppedAll(l, visits, o);
    }
    forall k | 0 <= k < |visits| && visits[k].Dropped? && l.rearm[k] in l.oneshot
      ensures stuck || probes != l.oneshot
    {
      assert l.rearm[k] !in o;
    }
  }

  /** The two loops one after the other. */
  method TwoLoops(port: Port, l: Lists, first: seq<Answer>, second: seq<Answer>)
    returns (l': Lists, rearms: seq<Id>, probes: seq<Id>, stuck: bool, ghost visits: seq<Visit>)
    requires Listed(port.b.regs, l) && |first| == |l.rearm| && |second| == |l.oneshot|
    requires !port.env.closing && Prompt(port.b.regs)
    modifies port`b
    ensures Listed(port.b.regs, l') && rearms == l.rearm && |visits| == |l.rearm|
    ensures Decided(port.env, old(port.b).regs, l, first, visits, |visits|)
    ensures !stuck && probes == l.oneshot <==> KeepsOneshots(l, visits)
    ensures l.oneshot != [] && DropsAll(l, visits) ==> stuck
    ensures stuck ==> l'.oneshot == []
    ensures forall i :: Live(port.b.regs, i) && i !in Orphaned(port.b.regs) ==>
              Tended(port.b.regs[i]) || Refused(port.env, old(port.b).regs, l.rearm, first, i)
    ensures Unspoiled(old(port.b).regs, port.b.regs)
  {
    l', rearms, visits := RearmAll(port, l, first);
    ghost var o, regs := l'.oneshot, port.b.regs;
    l', probes, stuck := ProbeAll(port, l', l.oneshot, second);
    LoopsVisit(l, visits, o, probes, stuck);
    PassLeavesNone(port.env, old(port.b), regs, port.b.regs, l, first);
  }

  /** `ep_port_arm_pending_locked`.  Every live registration that the kernel has not given up is polled, has an event
      on its way, is disabled until the caller acts, or wanted a poll that the system refused.  The rearm list is
      visited once each, in order, and so is the other one exactly when the first loop finds none of it closed;
      otherwise the second loop may run out of list, and does so if nothing is left of it. */
  method ArmPort(port: Port, l: Lists, first: seq<Answer>, second: seq<Answer>)
    returns (l': Lists, rearms: seq<Id>, probes: seq<Id>, stuck: bool)
    requires Listed(port.b.regs, l) && |first| == |l.rearm| && |second| == |l.oneshot|
    requires !port.env.closing && Prompt(port.b.regs)
    modifies port`b
    ensures Listed(port.b.regs, l') && rearms == l.rearm
    ensures !stuck && probes == l.oneshot <==> Spares(port.env, old(port.b).regs, l, first)
    ensures l.oneshot != [] && Wipes(port.env, old(port.b).regs, l, first) ==> stuck
    ensures stuck ==> l'.oneshot == []
    ensures forall i :: Live(port.b.regs, i) && i !in Orphaned(port.b.regs) ==>
              Tended(port.b.regs[i]) || Refused(port.env, old(port.b).regs, l.rearm, first, i)
    ensures Unspoiled(old(port.b).regs, port.b.regs)
  {
    ghost var visits;
    l', rearms, probes, stuck, visits := TwoLoops(port, l, first, second);
    SparesKeeps(port.env, old(port.b).regs, l, first, visits);
    if Wipes(port.env, old(port.b).regs, l, first) {
      WipesAll(port.env, old(port.b).regs, l, first, visits);
    }
  }

  lemma ReleasedListed(b: Ledger, l: Lists)
    requires Listed(b.regs, l)
    ensures Listed(Released(b).regs, l)
  {
    var regs' := Released(b).regs;
    assert forall i :: Live(regs', i) <==> Live(b.regs, i);
  }

  /** The start of a wait: deferred registrations are released, then the arm pass leaves none of them out. */
  method StartWait(port: Port, epoch: nat, l: Lists, first: seq<Answer>, second: seq<Answer>)
    returns (l': Lists, stuck: bool)
    requires Listed(port.b.regs, l) && |first| == |l.rearm| && |second| == |l.oneshot| && !port.env.closing
    modifies port`b, port`env
    ensures Listed(port.b.regs, l')
    ensures forall i :: Live(port.b.regs, i) && i !in Orphaned(port.b.regs) ==>
              Tended(port.b.regs[i]) || Refused(port.env, Released(old(port.b)).regs, l.rearm, first, i)
  {
    ReleasedListed(port.b, l);
    port.BeginWait(epoch);
    var rearms, probes;
    l', rearms, probes, stuck := ArmPort(port, l, first, second);
  }
}
