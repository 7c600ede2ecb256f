/** Due dates are computed from the billing anchor, never from the previous due date. */
module BillingAnchor {
  import opened Common

  /** math.ceil of a quotient, for a positive divisor. */
  function CeilDiv(a: int, b: int): int
    requires b > 0
  {
    -((-a) / b)
  }

  function Interval(days: int): Time {
    days * DAY
  }

  lemma IntervalTimes(n: int, days: int)
    ensures Interval(n * days) == n * Interval(days)
  {
  }

  function NextDue(anchor: Time, days: int, now: Time): Time
    requires days >= 0
  {
    if days == 0 then now
    else anchor + Max(1, CeilDiv(now - anchor, Interval(days))) * Interval(days)
  }

  function SkippedPeriods(start: Time, next: Time, days: int): int {
    if Interval(days) <= 0 then 0 else Max(0, (next - start) / Interval(days) - 1)
  }

  /** `x` is the `k`-th step of the grid that starts at `anchor`. */
  predicate OnGrid(anchor: Time, interval: Time, k: int, x: Time) {
    x == anchor + k * interval
  }

  lemma DivBounds(a: int, b: int)
    requires b > 0
    ensures (a / b) * b <= a < (a / b) * b + b
  {
  }

  lemma MulMonotone(j: int, k: int, b: int)
    requires j <= k && b > 0
    ensures j * b <= k * b
  {
    assert (k - j) * b >= 0;
    assert (k - j) * b == k * b - j * b;
  }

  lemma CeilDivBounds(a: int, b: int)
    requires b > 0
    ensures (CeilDiv(a, b) - 1) * b < a <= CeilDiv(a, b) * b
  {
    DivBounds(-a, b);
    var c := (-a) / b;
    assert CeilDiv(a, b) * b == -(c * b);
    assert (CeilDiv(a, b) - 1) * b == -(c * b) - b;
  }

  lemma DivOfMultiple(m: int, b: int)
    requires b > 0
    ensures (m * b) / b == m
  {
    DivBounds(m * b, b);
    var q := (m * b) / b;
    if q < m {
      MulMonotone(q + 1, m, b);
    } else if q > m {
      MulMonotone(m + 1, q, b);
    }
  }

  /** The due date is the first step of the grid, from the first one on, that is not before `now`. */
  lemma NextDueIsLeast(anchor: Time, days: int, now: Time) returns (k: int)
    requires days > 0
    ensures k >= 1 && OnGrid(anchor, Interval(days), k, NextDue(anchor, days, now))
    ensures NextDue(anchor, days, now) >= now
    ensures forall j, x :: j >= 1 && OnGrid(anchor, Interval(days), j, x) && x >= now ==>
              NextDue(anchor, days, now) <= x
  {
    var b := Interval(days);
    var c := CeilDiv(now - anchor, b);
    k := Max(1, c);
    CeilDivBounds(now - anchor, b);
    MulMonotone(c, k, b);
    forall j, x | j >= 1 && OnGrid(anchor, b, j, x) && x >= now ensures NextDue(anchor, days, now) <= x {
      if j < k {
        MulMonotone(j, c - 1, b);
      } else {
        MulMonotone(k, j, b);
      }
    }
  }

  /** No drift: after the anchor, the due date is less than one interval away. */
  lemma NextDueIsClose(anchor: Time, days: int, now: Time)
    requires days > 0 && now > anchor
    ensures now <= NextDue(anchor, days, now) < now + days * 86_400_000_000
  {
    var b := Interval(days);
    var c := CeilDiv(now - anchor, b);
    CeilDivBounds(now - anchor, b);
    if c <= 0 { MulMonotone(c, 0, b); }
    assert c * b == (c - 1) * b + b;
  }

  /** Up to one interval after the anchor, and before it, the due date is one interval after the anchor. */
  lemma FirstDueIsOneIntervalOn(anchor: Time, days: int, now: Time)
    requires days > 0 && now <= anchor + days * 86_400_000_000
    ensures NextDue(anchor, days, now) == anchor + days * 86_400_000_000
  {
    var k := NextDueIsLeast(anchor, days, now);
    assert OnGrid(anchor, Interval(days), 1, anchor + Interval(days));
    MulMonotone(1, k, Interval(days));
  }

  lemma NextDueIsMonotone(anchor: Time, days: int, now: Time, later: Time)
    requires days > 0 && now <= later
    ensures NextDue(anchor, days, now) <= NextDue(anchor, days, later)
  {
    var _ := NextDueIsLeast(anchor, days, now);
    var k := NextDueIsLeast(anchor, days, later);
    assert OnGrid(anchor, Interval(days), k, NextDue(anchor, days, later));
  }

  /** Skipped periods are the whole intervals that fit between the end of the billed one and the due date. */
  lemma SkippedPeriodsFit(start: Time, next: Time, days: int, m: int)
    requires days > 0 && m >= 1
    ensures m <= SkippedPeriods(start, next, days) <==> start + Interval(days) + m * Interval(days) <= next
  {
    var b := Interval(days);
    DivBounds(next - start, b);
    var q := (next - start) / b;
    assert (m + 1) * b == m * b + b;
    if m + 1 <= q {
      MulMonotone(m + 1, q, b);
    } else {
      MulMonotone(q + 1, m + 1, b);
      assert (q + 1) * b == q * b + b;
    }
  }

  /** On the grid the skipped periods are exactly the steps jumped over. */
  lemma SkippedOnGrid(start: Time, next: Time, days: int, m: int)
    requires days > 0 && m >= 1 && OnGrid(start, Interval(days), m, next)
    ensures SkippedPeriods(start, next, days) == m - 1
  {
    DivOfMultiple(m, Interval(days));
  }
}
