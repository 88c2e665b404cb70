/** Time arithmetic shared by the countdowns. Timestamps are whole
    milliseconds; the current time `now` is always a parameter. */
module Clock {

  /** `Math.floor(a / b)` for a positive divisor. */
  function FloorDiv(a: int, b: int): (q: int)
    requires b > 0
    ensures b * q <= a < b * q + b
  {
    a / b
  }

  /** `Math.max(a, b)`. */
  function Max(a: int, b: int): (r: int)
    ensures r >= a && r >= b && (r == a || r == b)
  {
    if a >= b then a else b
  }

  /** `Math.max(Math.floor((end - now) / 1000), 0)`: whole seconds left, never negative. */
  function SecondsLeft(end: int, now: int): (r: nat)
    ensures r == 0 <==> end - now < 1000
    ensures r > 0 ==> 1000 * r <= end - now < 1000 * r + 1000
  {
    Max(FloorDiv(end - now, 1000), 0)
  }

  /** A countdown is over once less than a whole second remains:
      `Math.floor((end - now) / 1000) <= 0`. */
  function IsExpiredAt(end: int, now: int): (r: bool)
    ensures r <==> end - now < 1000
    ensures r <==> SecondsLeft(end, now) == 0
  {
    FloorDiv(end - now, 1000) <= 0
  }

  /** A duration in seconds split into hours, minutes and seconds. */
  datatype Hms = Hms(hours: nat, minutes: nat, seconds: nat)

  /** `Math.floor(s / 3600)`, `Math.floor((s % 3600) / 60)`, `s % 60`. */
  function SplitHms(total: nat): (r: Hms)
    ensures r.minutes < 60 && r.seconds < 60
    ensures r.hours * 3600 + r.minutes * 60 + r.seconds == total
  {
    Hms(total / 3600, (total % 3600) / 60, total % 60)
  }

  /** There is only one such split: the fields shown are determined by the total. */
  lemma HmsUnique(total: nat, h: nat, m: nat, s: nat)
    requires m < 60 && s < 60 && h * 3600 + m * 60 + s == total
    ensures SplitHms(total) == Hms(h, m, s)
  {
    assert total / 3600 == h;
  }
}
