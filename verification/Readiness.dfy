/**
 Event masks, readiness classes and AFD translation: the near-pure helpers of
 src/wepoll_ex_port.c and src/wepoll_ex_afd.c.  A mask is the set of its bits.
 */
module Readiness {

  datatype Bit = IN | PRI | OUT | ERR | HUP | RDNORM | RDBAND | WRNORM | WRBAND | RDHUP

  datatype AfdBit = RECEIVE | RECEIVE_EXPEDITED | SEND | DISCONNECT | ABORT | LOCAL_CLOSE | ACCEPT | CONNECT_FAIL

  datatype Class = Read | Write | Terminal

  type Mask = set<Bit>
  type AfdMask = set<AfdBit>
  type Classes = set<Class>

  const READ_BITS: Mask := {IN, RDNORM, RDHUP, PRI}
  const WRITE_BITS: Mask := {OUT, WRNORM}
  const TERMINAL_BITS: Mask := {ERR, HUP}

  /** Everything a socket completion can report. */
  const SOCKET_BITS: Mask := READ_BITS + WRITE_BITS + TERMINAL_BITS

  const ALL: Classes := {Read, Write, Terminal}

  datatype Protocol = UnknownProtocol | Udp | Tcp

  function BitsOf(c: Class): Mask {
    match c
    case Read => READ_BITS
    case Write => WRITE_BITS
    case Terminal => TERMINAL_BITS
  }

  /** `ep_readiness_classes` */
  function ClassesOf(delivered: Mask): (classes: Classes)
    ensures forall c :: c in classes <==> delivered * BitsOf(c) != {}
  {
    (if delivered * READ_BITS != {} then {Read} else {}) +
    (if delivered * WRITE_BITS != {} then {Write} else {}) +
    (if delivered * TERMINAL_BITS != {} then {Terminal} else {})
  }

  /** `ep_readiness_filter_classes` */
  function Filter(delivered: Mask, denied: Classes): (left: Mask) {
    delivered - (if Read in denied then READ_BITS else {})
              - (if Write in denied then WRITE_BITS else {})
              - (if Terminal in denied then TERMINAL_BITS else {})
  }

  lemma FilterClasses(delivered: Mask, denied: Classes)
    ensures Filter(delivered, denied) <= delivered
    ensures ClassesOf(Filter(delivered, denied)) == ClassesOf(delivered) - denied
  {
    var left := Filter(delivered, denied);
    forall c
      ensures c in ClassesOf(left) <==> c in ClassesOf(delivered) && c !in denied
    {
      assert BitsOf(Read) !! BitsOf(Write) && BitsOf(Write) !! BitsOf(Terminal) && BitsOf(Read) !! BitsOf(Terminal);
      if c in denied {
        assert left * BitsOf(c) == {};
      } else {
        assert left * BitsOf(c) == delivered * BitsOf(c);
      }
    }
  }

  lemma FilterExactly(delivered: Mask, denied: Classes, b: Bit)
    ensures b in Filter(delivered, denied) <==> b in delivered && ClassesOf({b}) !! denied
  {
    assert b in READ_BITS ==> {b} * READ_BITS == {b};
    assert b in WRITE_BITS ==> {b} * WRITE_BITS == {b};
    assert b in TERMINAL_BITS ==> {b} * TERMINAL_BITS == {b};
    EveryClass(denied);
  }

  lemma FilterMonotone(a: Mask, b: Mask, denied: Classes)
    requires a <= b
    ensures Filter(a, denied) <= Filter(b, denied)
  {
  }

  /** `ep_explicit_delivery_classes`: a terminal condition disarms both directions as well. */
  function DeliveryClasses(delivered: Mask): (classes: Classes)
    ensures ClassesOf(delivered) <= classes
    ensures Terminal in classes ==> classes == ALL
    ensures classes == {} <==> ClassesOf(delivered) == {}
  {
    var classes := ClassesOf(delivered);
    if Terminal in classes then classes + {Read, Write} else classes
  }

  lemma EveryClass(classes: Classes)
    ensures classes <= ALL
  {
    forall c | c in classes
      ensures c in ALL
    {
      match c case Read => case Write => case Terminal =>
    }
  }

  /** A nonempty socket report names at least one class. */
  lemma ReportsSomeClass(delivered: Mask)
    requires delivered != {} && delivered <= SOCKET_BITS
    ensures ClassesOf(delivered) != {}
  {
    var b :| b in delivered;
    var c := if b in READ_BITS then Read else if b in WRITE_BITS then Write else Terminal;
    assert b in delivered * BitsOf(c);
    assert c in ClassesOf(delivered);
  }

  lemma ClassesMonotone(small: Mask, large: Mask)
    requires small <= large
    ensures ClassesOf(small) <= ClassesOf(large)
  {
    forall c | c in ClassesOf(small)
      ensures c in ClassesOf(large)
    {
      var b :| b in small * BitsOf(c);
      assert b in large * BitsOf(c);
    }
  }

  /** `ep_readiness_class_afd_events` */
  function ClassAfdEvents(c: Class): AfdMask {
    match c
    case Read => {RECEIVE, RECEIVE_EXPEDITED, ACCEPT, DISCONNECT}
    case Write => {SEND}
    case Terminal => {ABORT, CONNECT_FAIL, LOCAL_CLOSE}
  }

  /** `ep_readiness_classes_afd_events` */
  function ClassesAfdEvents(classes: Classes): AfdMask {
    (if Read in classes then ClassAfdEvents(Read) else {}) +
    (if Write in classes then ClassAfdEvents(Write) else {}) +
    (if Terminal in classes then ClassAfdEvents(Terminal) else {})
  }

  /** `ep_epoll_to_afd_events` */
  function EpollToAfd(events: Mask): (afd: AfdMask) {
    {ABORT, CONNECT_FAIL, LOCAL_CLOSE} +
    (if events * {IN, RDNORM} != {} then {RECEIVE, ACCEPT, DISCONNECT}
     else if RDHUP in events then {DISCONNECT}
     else {}) +
    (if PRI in events then {RECEIVE_EXPEDITED} else {}) +
    (if events * {OUT, WRNORM} != {} then {SEND} else {})
  }

  /** `ep_afd_to_epoll_events` */
  function AfdToEpoll(afd: AfdMask, failed: bool, protocol: Protocol): (events: Mask) {
    (if failed then {ERR} else {}) +
    (if afd * {RECEIVE, ACCEPT} != {} then {IN, RDNORM} else {}) +
    (if RECEIVE_EXPEDITED in afd then {PRI} else {}) +
    (if SEND in afd then {OUT, WRNORM} else {}) +
    (if DISCONNECT in afd then {IN, RDNORM, RDHUP} else {}) +
    (if ABORT in afd then {ERR} + (if protocol.Udp? then {} else {HUP}) else {}) +
    (if CONNECT_FAIL in afd then {IN, OUT, ERR, HUP, RDNORM, WRNORM, RDHUP} else {}) +
    (if LOCAL_CLOSE in afd then {HUP} else {})
  }

  /** What AFD's conditions mean, bit by bit: an abort is an error, and a hangup except for datagrams; a failed connect
      is everything but urgent data; a disconnect reads as the end of the stream. */
  lemma AfdMeans(afd: AfdMask, failed: bool, protocol: Protocol, b: Bit)
    ensures b in AfdToEpoll(afd, failed, protocol) <==>
              || (b in {IN, RDNORM} && (RECEIVE in afd || ACCEPT in afd || DISCONNECT in afd || CONNECT_FAIL in afd))
              || (b == RDHUP && (DISCONNECT in afd || CONNECT_FAIL in afd))
              || (b in {OUT, WRNORM} && (SEND in afd || CONNECT_FAIL in afd))
              || (b == PRI && RECEIVE_EXPEDITED in afd)
              || (b == ERR && (failed || ABORT in afd || CONNECT_FAIL in afd))
              || (b == HUP && ((ABORT in afd && !protocol.Udp?) || CONNECT_FAIL in afd || LOCAL_CLOSE in afd))
  {
    assert afd * {RECEIVE, ACCEPT} != {} <==> RECEIVE in afd || ACCEPT in afd by {
      assert RECEIVE in afd ==> RECEIVE in afd * {RECEIVE, ACCEPT};
      assert ACCEPT in afd ==> ACCEPT in afd * {RECEIVE, ACCEPT};
    }
  }

  /** Every bit of an interest has a class, and an AFD condition of that class alone armed for it. */
  lemma WatchedBy(events: Mask, b: Bit) returns (c: Class, e: AfdBit)
    requires b in SOCKET_BITS * (events + TERMINAL_BITS)
    ensures b in BitsOf(c) && e in EpollToAfd(events) && forall d :: e in ClassAfdEvents(d) <==> d == c
  {
    if b in TERMINAL_BITS {
      c, e := Terminal, ABORT;
    } else if b in WRITE_BITS {
      c, e := Write, SEND;
      assert b in events * {OUT, WRNORM};
    } else {
      c, e := Read, if b == PRI then RECEIVE_EXPEDITED else DISCONNECT;
      assert b in events && b in READ_BITS;
      assert b != PRI && b != RDHUP ==> b in events * {IN, RDNORM};
    }
  }

  /** Whatever is armed for an interest mask concerns it, or is a terminal condition. */
  lemma ArmedIsReportable(events: Mask, e: AfdBit, protocol: Protocol)
    requires e in EpollToAfd(events)
    ensures AfdToEpoll({e}, false, protocol) * (events + TERMINAL_BITS) != {}
  {
    var told := AfdToEpoll({e}, false, protocol) * (events + TERMINAL_BITS);
    match e {
      case RECEIVE => assert IN in told || RDNORM in told;
      case ACCEPT => assert IN in told || RDNORM in told;
      case DISCONNECT => assert IN in told || RDNORM in told || RDHUP in told;
      case RECEIVE_EXPEDITED => assert PRI in told;
      case SEND => assert OUT in told || WRNORM in told;
      case LOCAL_CLOSE => assert HUP in told;
      case ABORT => assert ERR in told;
      case CONNECT_FAIL => assert ERR in told;
    }
  }

  /** Whatever AFD can report that concerns an interest mask is among the conditions armed for that mask. */
  lemma ReportableIsArmed(events: Mask, afd: AfdMask, protocol: Protocol)
    requires AfdToEpoll(afd, false, protocol) * (events + TERMINAL_BITS) != {}
    ensures afd * EpollToAfd(events) != {}
  {
    var b :| b in AfdToEpoll(afd, false, protocol) * (events + TERMINAL_BITS);
    var armed := afd * EpollToAfd(events);
    if CONNECT_FAIL in afd {
      assert CONNECT_FAIL in armed;
    } else if b in {IN, RDNORM} {
      assert b in events * {IN, RDNORM};
      assert RECEIVE in armed || ACCEPT in armed || DISCONNECT in armed;
    } else if b == RDHUP {
      assert DISCONNECT in armed;
    } else if b == PRI {
      assert RECEIVE_EXPEDITED in armed;
    } else if b in {OUT, WRNORM} {
      assert b in events * {OUT, WRNORM};
      assert SEND in armed;
    } else {
      assert ABORT in armed || LOCAL_CLOSE in armed;
    }
  }
}
