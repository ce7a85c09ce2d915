/**
 Descriptors that name ports, and counting them: shared by the two lifetime
 protocols.
 */
module Registry {

  type Thread = nat
  type Fd = int

  function Names(fds: map<Fd, nat>, id: nat): set<Fd> {
    set fd | fd in fds && fds[fd] == id
  }

  lemma NamesWith(fds: map<Fd, nat>, fd: Fd, id: nat, x: nat)
    requires fd !in fds
    ensures |Names(fds[fd := id], x)| == |Names(fds, x)| + (if id == x then 1 else 0)
  {
    assert Names(fds[fd := id], x) == Names(fds, x) + (if id == x then {fd} else {});
  }

  lemma NamesWithout(fds: map<Fd, nat>, fd: Fd, x: nat)
    requires fd in fds
    ensures |Names(fds - {fd}, x)| == |Names(fds, x)| - (if fds[fd] == x then 1 else 0)
  {
    assert Names(fds, x) == Names(fds - {fd}, x) + (if fds[fd] == x then {fd} else {});
  }
}
