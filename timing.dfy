/**
  Timing rules of the responder: the jitter drawn for an M-SEARCH reply from its
  MX header (ssdp_random and its caller) and the test that decides whether a
  periodic NOTIFY is due. The clock and rand() are inputs here.
*/
module Timing {
  import opened CText

  /** RAND_MAX of the C library on the ESP32. */
  const RAND_MAX: int := 0x7FFF_FFFF

  /** A value returned by rand(). */
  type RandValue = x: int | 0 <= x <= RAND_MAX

  function Abs(x: int): nat { if x < 0 then -x else x }

  /** The C quotient a / b, which truncates toward zero. */
  function CQuot(a: int, b: int): int
    requires b != 0
  {
    var q := Abs(a) / Abs(b);
    if (a >= 0) == (b > 0) then q else -q
  }

  /**
    The C remainder a % b, which truncates toward zero: its sign is that of a,
    it is smaller than b in magnitude, and a - r is a multiple of b.
  */
  function CRem(a: int, b: int): (r: int)
    requires b != 0
    ensures Abs(r) < Abs(b)
    ensures a >= 0 ==> r >= 0
    ensures a <= 0 ==> r <= 0
    ensures a == CQuot(a, b) * b + r
    ensures (a - r) % b == 0
  {
    var q := Abs(a) % Abs(b);
    assert Abs(a) == Abs(a) / Abs(b) * Abs(b) + q;
    MultipleMod(CQuot(a, b), b);
    if a >= 0 then q else -q
  }

  lemma AtLeastOnce(x: nat, y: nat)
    requires x >= 1
    ensures x * y >= y
  {
    assert x * y == (x - 1) * y + y;
  }

  lemma NonzeroMultiple(d: int, b: int)
    requires d != 0 && b != 0
    ensures Abs(d * b) >= Abs(b)
  {
    AtLeastOnce(Abs(d), Abs(b));
    if d < 0 { assert d * b == -(Abs(d) * b); }
    if b < 0 { assert d * b == -(d * Abs(b)); }
    assert Abs(d * b) == Abs(d) * Abs(b);
  }

  /** Dafny's Euclidean remainder of a multiple of b is 0. */
  lemma MultipleMod(k: int, b: int)
    requires b != 0
    ensures (k * b) % b == 0
  {
    var q := (k * b) / b;
    assert (k - q) * b == (k * b) % b;
    if k != q { NonzeroMultiple(k - q, b); }
  }

  /**
    ssdp_random(low, high) = low + rand() % (high - low + 1), where `draw` is the
    rand() value. ssdp_random re-seeds with the millisecond clock each time, so all
    draws made within one millisecond are the same value.
  */
  function Random(low: int, high: int, draw: RandValue): (r: int)
    requires high - low + 1 != 0
    ensures low <= high ==> low <= r <= high
  {
    low + CRem(draw, high - low + 1)
  }

  /**
    The MX arithmetic is defined in C: atoi's result fits an int, high - low + 1
    neither overflows nor is 0 (an MX of -1), and r * 1000L fits a 32-bit long.
  */
  predicate MxDefined(n: int, draw: RandValue)
  {
    INT_MIN <= n < INT_MAX && n != -1 && Random(0, n, draw) * 1000 <= INT_MAX
  }

  /** delay = ssdp_random(0, n) * 1000, then cut to mx_max_delay. */
  function MxDelay(n: int, draw: RandValue, maxDelay: uint16): (d: int)
    requires MxDefined(n, draw)
    ensures 0 <= d <= maxDelay
    ensures n >= 0 ==> d <= 1000 * n
    ensures d < maxDelay ==> d % 1000 == 0
  {
    var delay := Random(0, n, draw) * 1000;
    if delay > maxDelay then maxDelay else delay
  }

  /** For n >= 0 every whole number of seconds r in [0, n] is a possible delay, cut to the maximum. */
  lemma MxDelayReachable(n: int, r: int, maxDelay: uint16)
    requires 0 <= r <= n < INT_MAX && 1000 * r <= INT_MAX
    ensures MxDefined(n, r) && MxDelay(n, r, maxDelay) == Min(1000 * r, maxDelay)
  {
    ModSmall(r, n + 1);
    assert CRem(r, n + 1) == r;
  }

  lemma ModSmall(a: int, b: int)
    requires 0 <= a < b
    ensures a % b == a
  {
    assert a / b == 0;
  }

  /** Every delay drawn for n >= 0 is 1000 * r for some r in [0, n], cut to the maximum. */
  lemma MxDelayRange(n: int, draw: RandValue, maxDelay: uint16)
    requires n >= 0 && MxDefined(n, draw)
    ensures exists r :: 0 <= r <= n && MxDelay(n, draw, maxDelay) == Min(1000 * r, maxDelay)
  {
    var r := Random(0, n, draw);
    assert 0 <= r <= n && MxDelay(n, draw, maxDelay) == Min(1000 * r, maxDelay);
  }

  /** A missing or non-numeric MX value reads as 0, which gives no delay. */
  lemma MxZero(draw: RandValue, maxDelay: uint16)
    ensures MxDefined(0, draw) && MxDelay(0, draw, maxDelay) == 0
  {
  }

  const TWO_32: int := 0x1_0000_0000
  const TWO_64: int := 0x1_0000_0000_0000_0000

  /**
    The notify test of the receive loop: due when no notify was sent yet
    (notify_time == 0) or when now - notify_time, a 64-bit unsigned difference,
    exceeds interval * 1000L, which the ESP32 computes in 32 unsigned bits.
  */
  predicate NotifyDue(notifyTime: uint64, now: uint64, interval: uint32)
  {
    notifyTime == 0 || (now - notifyTime) % TWO_64 > (interval * 1000) % TWO_32
  }

  /** Within the normal range, a notify is due exactly when strictly more than interval seconds passed. */
  lemma NotifyDueIff(notifyTime: uint64, now: uint64, interval: uint32)
    requires 0 < notifyTime <= now
    requires interval * 1000 < TWO_32
    ensures NotifyDue(notifyTime, now, interval) <==> now - notifyTime > 1000 * interval
  {
  }

  /** Exactly interval seconds after the last notify, the next one is not yet due; one millisecond later it is. */
  lemma NotifyBoundary(notifyTime: uint64, interval: uint32)
    requires 0 < notifyTime && notifyTime + 1000 * interval + 1 < TWO_64
    requires interval * 1000 < TWO_32
    ensures !NotifyDue(notifyTime, notifyTime + 1000 * interval, interval)
    ensures NotifyDue(notifyTime, notifyTime + 1000 * interval + 1, interval)
  {
    NotifyDueIff(notifyTime, notifyTime + 1000 * interval, interval);
    NotifyDueIff(notifyTime, notifyTime + 1000 * interval + 1, interval);
  }

  /** Once due, a notify stays due as the clock advances (until one is sent). */
  lemma NotifyDueMonotonic(notifyTime: uint64, now: uint64, later: uint64, interval: uint32)
    requires 0 < notifyTime <= now <= later
    requires interval * 1000 < TWO_32
    requires NotifyDue(notifyTime, now, interval)
    ensures NotifyDue(notifyTime, later, interval)
  {
    NotifyDueIff(notifyTime, now, interval);
    NotifyDueIff(notifyTime, later, interval);
  }

  /**
    An interval above 4294967 seconds wraps in the 32-bit product: with
    interval = 4294968 the next notify is due after 705 ms.
  */
  lemma IntervalWrapExample()
    ensures (4294968 * 1000) % TWO_32 == 704
    ensures NotifyDue(1, 706, 4294968)
    ensures !NotifyDue(1, 705, 4294968)
  {
  }
}
