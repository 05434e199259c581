/** Time constants and the integer form of Math.round on an exact ratio. */
module Numeric {
  const MsPerMinute: int := 60_000
  const MsPerHour: int := 3_600_000
  const MsPerDay: int := 86_400_000

  /** Math.round(n / d) for d > 0: the integer nearest to n / d, halves rounded up
      (Math.round rounds half toward +infinity, for negative ratios too). */
  function RoundDiv(n: int, d: int): (r: int)
    requires d > 0
    ensures d * (2 * r - 1) <= 2 * n < d * (2 * r + 1)
  {
    var q := (2 * n + d) / (2 * d);
    var m := (2 * n + d) % (2 * d);
    assert 2 * d * q + m == 2 * n + d && 0 <= m < 2 * d;
    assert d * (2 * q - 1) == 2 * d * q - d && d * (2 * q + 1) == 2 * d * q + d;
    q
  }

  lemma MulCancel(a: int, x: int, y: int)
    requires a > 0 && a * x <= a * y
    ensures x <= y
  {
  }

  /** `whole ? Math.round(part / whole * 100) : 0`. */
  function Percentage(part: nat, whole: nat): (r: int)
    ensures whole == 0 ==> r == 0
    ensures whole > 0 ==> whole * (2 * r - 1) <= 200 * part < whole * (2 * r + 1)
    ensures part <= whole ==> 0 <= r <= 100
    ensures whole > 0 && part == whole ==> r == 100
    ensures part == 0 ==> r == 0
  {
    if whole == 0 then 0
    else
      var r := RoundDiv(100 * part, whole);
      assert part <= whole ==> 2 * r - 1 <= 200 by {
        if part <= whole { MulCancel(whole, 2 * r - 1, 200); }
      }
      MulCancel(whole, 0, 2 * r + 1);
      assert part == whole ==> 2 * r + 1 > 200 by {
        if part == whole { MulCancelStrict(whole, 200, 2 * r + 1); }
      }
      assert part == 0 ==> 2 * r - 1 <= 0 by {
        if part == 0 { MulCancel(whole, 2 * r - 1, 0); }
      }
      r
  }

  lemma MulCancelStrict(a: int, x: int, y: int)
    requires a > 0 && a * x < a * y
    ensures x < y
  {
  }

  lemma MulMono(a: int, x: int, y: int)
    requires a >= 0 && x <= y
    ensures a * x <= a * y
  {
  }

  /** Math.round(ms / 3 600 000): a duration in whole hours. */
  function HoursFromMs(ms: int): (r: int)
    ensures MsPerHour * (2 * r - 1) <= 2 * ms < MsPerHour * (2 * r + 1)
    ensures ms >= 0 ==> r >= 0
  {
    var r := RoundDiv(ms, MsPerHour);
    assert ms >= 0 ==> r >= 0 by {
      if ms >= 0 && r < 0 { MulMono(MsPerHour, 2 * r + 1, -1); }
    }
    r
  }

  /** `Math.floor(ms / 3 600 000)` hours and `Math.floor((ms % 3 600 000) / 60 000)`
      minutes of a positive span: the whole hours, then the whole minutes left. */
  function HoursMinutes(ms: int): (r: (int, int))
    requires ms > 0
    ensures r.0 >= 0 && 0 <= r.1 < 60
    ensures r.0 * MsPerHour + r.1 * MsPerMinute <= ms < r.0 * MsPerHour + (r.1 + 1) * MsPerMinute
  {
    (ms / MsPerHour, (ms % MsPerHour) / MsPerMinute)
  }

  /** Floor division by a positive divisor keeps the order. */
  lemma DivMono(a: int, b: int, d: int)
    requires a <= b && d > 0
    ensures a / d <= b / d
  {
    var qa, qb := a / d, b / d;
    assert d * qa <= a && b < d * (qb + 1);
    MulCancelStrict(d, qa, qb + 1);
  }

  function Min(a: int, b: int): int { if a <= b then a else b }

  /** The `%` operator of JavaScript for a positive divisor: the remainder takes
      the sign of the dividend. */
  function JsRem(a: int, b: int): (r: int)
    requires b > 0
    ensures (a - r) % b == 0
    ensures -b < r < b
    ensures a >= 0 ==> r >= 0
    ensures a <= 0 ==> r <= 0
  {
    if a >= 0 then
      assert a - a % b == b * (a / b);
      MultipleRemainder(b, a / b);
      a % b
    else
      assert a + (-a) % b == b * -((-a) / b);
      MultipleRemainder(b, -((-a) / b));
      -((-a) % b)
  }

  lemma MultipleRemainder(b: int, k: int)
    requires b > 0
    ensures (b * k) % b == 0
  {
    var p, m := (b * k) / b, (b * k) % b;
    assert b * k == b * p + m && 0 <= m < b;
    assert b * (k - p) == m;
    if k > p {
      MulMono(b, 1, k - p);
    } else if k < p {
      MulMono(b, 1, p - k);
    }
  }

  /** For a non-negative dividend JavaScript's `%` is the Euclidean remainder:
      the only remainder in `[0, b)` that leaves a multiple of `b`. */
  lemma JsRemNonNegative(a: int, b: int)
    requires b > 0 && a >= 0
    ensures JsRem(a, b) == a % b
  {
    RemainderUnique(a, b, JsRem(a, b));
  }

  /** A remainder in `[0, b)` that leaves a multiple of `b` is `a % b`. */
  lemma RemainderUnique(a: int, b: int, r: int)
    requires b > 0 && 0 <= r < b && (a - r) % b == 0
    ensures a % b == r
  {
    var q := (a - r) / b;
    assert a - r == b * q;
    assert a == b * q + r;
    var p := a / b;
    assert a == b * p + a % b;
    assert b * (q - p) == a % b - r;
    if q > p {
      MulMono(b, 1, q - p);
    } else if q < p {
      MulMono(b, 1, p - q);
    }
  }
}
