/**
 Timeout arithmetic: the chunked POSIX wait (src/wepoll_ex_posix.c) and the Windows
 conversion (src/wepoll_ex_port.c).
 */
module Timeouts {

  const INT_MAX := 0x7FFF_FFFF
  const UINT64_MAX := 0xFFFF_FFFF_FFFF_FFFF
  const NANOS := 1_000_000_000

  datatype Timespec = Timespec(sec: int, nsec: int)

  predicate Valid(t: Timespec) {
    t.sec >= 0 && 0 <= t.nsec < NANOS
  }

  /** The duration in units of `unit` nanoseconds, rounded up. */
  function Ceil(t: Timespec, unit: int): int
    requires unit > 0
  {
    (t.sec * NANOS + t.nsec + unit - 1) / unit
  }

  const MILLI := 1_000_000

  // --------------------------------------------------------------------- POSIX

  /** `timeout_to_millisecond_chunk` on a valid timespec. */
  function Chunk(t: Timespec): (c: (int, bool))
    requires Valid(t)
    ensures 0 <= c.0 <= INT_MAX
    ensures if c.1 then c.0 == INT_MAX < Ceil(t, MILLI) else c.0 == Ceil(t, MILLI)
  {
    if t.sec > INT_MAX / 1000 || (t.sec == INT_MAX / 1000 && t.nsec > INT_MAX % 1000 * MILLI) then (INT_MAX, true)
    else (t.sec * 1000 + (if t.nsec != 0 then (t.nsec + 999_999) / MILLI else 0), false)
  }

  /** `timeout_subtract_millisecond_chunk` */
  function Subtract(t: Timespec, ms: int): (r: Timespec)
    requires Valid(t) && 0 <= ms <= INT_MAX && ms < Ceil(t, MILLI)
    ensures Valid(r) && Ceil(r, MILLI) == Ceil(t, MILLI) - ms
  {
    var s, n := ms / 1000, ms % 1000 * MILLI;
    assert s * NANOS + n == ms * MILLI;
    if t.nsec < n then Timespec(t.sec - s - 1, t.nsec + NANOS - n) else Timespec(t.sec - s, t.nsec - n)
  }

  function Sum(chunks: seq<int>): int {
    if chunks == [] then 0 else Sum(chunks[..|chunks| - 1]) + chunks[|chunks| - 1]
  }

  /** The loop of `posix_timespec_wait_chunks`: `answer(i)` is the result of the i-th native wait, 0 when it timed
      out.  If every chunk times out, they sum to the timespec rounded up to milliseconds; no result is passed over. */
  method WaitValid(t: Timespec, answer: nat -> int) returns (result: int, chunks: seq<int>)
    requires Valid(t)
    ensures chunks != [] && forall i :: 0 <= i < |chunks| ==> 0 <= chunks[i] <= INT_MAX
    ensures result == answer(|chunks| - 1) && forall i :: 0 <= i < |chunks| - 1 ==> answer(i) == 0
    ensures if result == 0 then Sum(chunks) == Ceil(t, MILLI) else Sum(chunks) <= Ceil(t, MILLI)
  {
    var remaining := t;
    chunks := [];
    while true
      invariant Valid(remaining) && Sum(chunks) + Ceil(remaining, MILLI) == Ceil(t, MILLI)
      invariant forall i :: 0 <= i < |chunks| ==> 0 <= chunks[i] <= INT_MAX && answer(i) == 0
      decreases Ceil(remaining, MILLI)
    {
      var (ms, more) := Chunk(remaining);
      result := answer(|chunks|);
      ghost var before := chunks;
      chunks := chunks + [ms];
      assert chunks[..|chunks| - 1] == before;
      if result != 0 || !more {
        return;
      }
      remaining := Subtract(remaining, ms);
    }
  }

  /** `posix_timespec_wait_chunks`: an invalid timespec is refused and waits for nothing. */
  method WaitChunks(t: Timespec, answer: nat -> int) returns (result: int, chunks: seq<int>)
    ensures chunks == [] <==> !Valid(t)
    ensures result == if chunks == [] then -1 else answer(|chunks| - 1)
    ensures forall i :: 0 <= i < |chunks| ==> 0 <= chunks[i] <= INT_MAX && (i + 1 < |chunks| ==> answer(i) == 0)
    ensures Valid(t) ==> if result == 0 then Sum(chunks) == Ceil(t, MILLI) else Sum(chunks) <= Ceil(t, MILLI)
  {
    if Valid(t) {
      result, chunks := WaitValid(t, answer);
    } else {
      result, chunks := -1, [];
    }
  }

  // ------------------------------------------------------------------- Windows

  function Min(a: int, b: int): int {
    if a < b then a else b
  }

  /** `ep_saturating_mul_add_u64` */
  function SaturatingMulAdd(value: nat, multiplier: nat, addend: nat): (r: nat)
    requires 0 < multiplier <= UINT64_MAX && value <= UINT64_MAX && addend <= UINT64_MAX
    ensures r == Min(value * multiplier + addend, UINT64_MAX)
  {
    Quotient(UINT64_MAX - addend, multiplier, value);
    if value > (UINT64_MAX - addend) / multiplier then UINT64_MAX else value * multiplier + addend
  }

  lemma Quotient(a: nat, m: nat, v: nat)
    requires m > 0
    ensures v <= a / m <==> v * m <= a
  {
    var q := a / m;
    assert q * m <= a < (q + 1) * m;
    if v <= q {
      assert v * m <= q * m;
    } else {
      assert v * m >= (q + 1) * m;
    }
  }

  datatype Timeout = Timeout(infinite: bool, milliseconds: nat, intervals: nat, precise: bool)

  datatype Option = None | Some(value: Timespec)

  /** `ep_wait_timeout_from_timespec`: both roundings are upward and saturate, and `precise` says that the
      100-nanosecond one did not. */
  function FromTimespec(t: Option): (r: (bool, Timeout))
    requires t.Some? ==> t.value.sec <= 0x7FFF_FFFF_FFFF_FFFF
    ensures r.0 <==> t.None? || Valid(t.value)
    ensures r.1.infinite <==> t.None?
    ensures t.None? || !r.0 ==> r.1.milliseconds == r.1.intervals == 0 && !r.1.precise
    ensures r.0 && t.Some? ==>
              && r.1.milliseconds == Min(Ceil(t.value, MILLI), UINT64_MAX)
              && r.1.intervals == Min(Ceil(t.value, 100), UINT64_MAX)
              && (r.1.precise <==> Ceil(t.value, 100) <= UINT64_MAX)
  {
    match t
    case None => (true, Timeout(true, 0, 0, false))
    case Some(v) =>
      if !Valid(v) then (false, Timeout(false, 0, 0, false))
      else
        var millis := (v.nsec + 999_999) / MILLI;
        var hundreds := (v.nsec + 99) / 100;
        Quotient(UINT64_MAX - hundreds, 10_000_000, v.sec);
        (true, Timeout(false, SaturatingMulAdd(v.sec, 1000, millis), SaturatingMulAdd(v.sec, 10_000_000, hundreds),
                       v.sec <= (UINT64_MAX - hundreds) / 10_000_000))
  }

  /** `ep_wait_timeout_from_milliseconds`: exact, since every int fits. */
  function FromMilliseconds(ms: int): (r: Timeout)
    requires -INT_MAX - 1 <= ms <= INT_MAX
    ensures (r.infinite <==> ms < 0) && !r.precise
    ensures ms >= 0 ==>
              r.milliseconds == ms && r.intervals == Ceil(Timespec(ms / 1000, ms % 1000 * MILLI), 100) <= UINT64_MAX
  {
    if ms < 0 then Timeout(true, 0, 0, false) else Timeout(false, ms, ms * 10_000, false)
  }
}
