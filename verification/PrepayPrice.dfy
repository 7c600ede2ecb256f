/** The price of a prepayment, in exact decimals rounded down to the piconero. */
module PrepayPrice {
  import opened Common
  import opened Billing
  import S = Settlement

  function AtomicToXmr(atomic: int): real {
    atomic as real / PICONERO as real
  }

  /** Decimal.quantize to twelve places, rounding down, for a non-negative value. */
  function QuantizeDown(x: real): real
    requires x >= 0.0
  {
    AtomicToXmr(ToAtomic(x))
  }

  datatype Price = Price(xmr: real, atomic: int)

  function PrepayAmount(perPeriod: real, periods: int, discount: int): Price
    requires perPeriod >= 0.0 && periods >= 0 && discount <= 100
  {
    Nonnegative(perPeriod, periods as real);
    var total := perPeriod * periods as real;
    if discount > 0 then
      var factor := (100 - discount) as real / 100.0;
      Nonnegative(total, factor);
      var rounded := QuantizeDown(total * factor);
      Price(rounded, ToAtomic(rounded))
    else Price(total, ToAtomic(total))
  }

  lemma Nonnegative(x: real, y: real)
    requires x >= 0.0 && y >= 0.0
    ensures x * y >= 0.0
  {
  }

  /** A piconero is a trillionth of an XMR. */
  lemma AtomicIsATrillionth(a: int)
    ensures AtomicToXmr(a) * 1_000_000_000_000.0 == a as real
  {
  }

  /** Converting piconero to XMR and back is the identity. */
  lemma AtomicRoundTrip(a: int)
    requires a >= 0
    ensures AtomicToXmr(a) >= 0.0 && ToAtomic(AtomicToXmr(a)) == a
  {
    assert AtomicToXmr(a) * PICONERO as real == a as real;
  }

  lemma QuantizeDownIsFloor(x: real)
    requires x >= 0.0
    ensures ToAtomic(QuantizeDown(x)) == ToAtomic(x)
    ensures QuantizeDown(x) <= x < QuantizeDown(x) + AtomicToXmr(1)
  {
    AtomicRoundTrip(ToAtomic(x));
    var y := x * PICONERO as real;
    assert y.Floor as real <= y < y.Floor as real + 1.0;
    assert QuantizeDown(x) * PICONERO as real == y.Floor as real;
    assert AtomicToXmr(1) * PICONERO as real == 1.0;
  }

  lemma RatioFloor(n: int, x: real)
    requires n >= 0 && x == n as real / 100.0
    ensures x.Floor == n / 100
  {
    var q := n / 100;
    assert n == 100 * q + n % 100;
    assert q as real <= x < q as real + 1.0;
  }

  /**
    For a per-period amount of whole piconero, the charge is the exact discounted price rounded
    down to the piconero: `floor(n * a * (100 - d) / 100)`.
   */
  lemma PrepayAmountIsFloor(a: int, n: int, d: int)
    requires a >= 0 && n >= 0 && 0 <= d <= 99
    ensures AtomicToXmr(a) >= 0.0
    ensures PrepayAmount(AtomicToXmr(a), n, d).atomic == (n * a * (100 - d)) / 100
  {
    var per := AtomicToXmr(a);
    AtomicRoundTrip(a);
    assert n * a >= 0;
    var total := per * n as real;
    assert total * PICONERO as real == (n * a) as real by {
      assert per * PICONERO as real == a as real;
      assert total * PICONERO as real == per * PICONERO as real * n as real;
      assert (n * a) as real == n as real * a as real;
    }
    if d == 0 {
      assert (n * a * 100) / 100 == n * a;
    } else {
      var factor := (100 - d) as real / 100.0;
      Nonnegative(total, factor);
      QuantizeDownIsFloor(total * factor);
      var m := n * a * (100 - d);
      assert m >= 0 by { ProductNonnegative(n * a, 100 - d); }
      assert total * factor * PICONERO as real == m as real / 100.0 by {
        assert total * factor * PICONERO as real == total * PICONERO as real * factor;
        assert (n * a) as real * (100 - d) as real == m as real;
      }
      RatioFloor(m, total * factor * PICONERO as real);
    }
  }

  lemma ProductNonnegative(x: int, y: int)
    requires x >= 0 && y >= 0
    ensures x * y >= 0
  {
  }

  /** The discount never costs the merchant a whole piconero of rounding. */
  lemma PrepayRoundingIsSmall(a: int, n: int, d: int)
    requires a >= 0 && n >= 0 && 0 <= d <= 99
    ensures AtomicToXmr(a) >= 0.0
    ensures var charged := PrepayAmount(AtomicToXmr(a), n, d).atomic;
            100 * charged <= n * a * (100 - d) < 100 * charged + 100
  {
    PrepayAmountIsFloor(a, n, d);
  }

  /** More periods never cost less, and a larger discount never costs more. */
  lemma PrepayAmountIsMonotone(a: int, n: int, n': int, d: int, d': int)
    requires a >= 0 && 0 <= n <= n' && 0 <= d' <= d <= 99
    ensures AtomicToXmr(a) >= 0.0
    ensures PrepayAmount(AtomicToXmr(a), n, d).atomic <= PrepayAmount(AtomicToXmr(a), n', d').atomic
  {
    PrepayAmountIsFloor(a, n, d);
    PrepayAmountIsFloor(a, n', d');
    TimesMonotone(n, n', a);
    ProductNonnegative(n', a);
    TimesMonotone(n * a, n' * a, 100 - d);
    TimesMonotone(100 - d, 100 - d', n' * a);
    DivMonotone(n * a * (100 - d), n' * a * (100 - d'));
  }

  lemma TimesMonotone(x: int, y: int, k: int)
    requires x <= y && k >= 0
    ensures x * k <= y * k
    ensures k * x <= k * y
  {
    ProductNonnegative(y - x, k);
    assert (y - x) * k == y * k - x * k;
  }

  lemma DivMonotone(x: int, y: int)
    requires x <= y
    ensures x / 100 <= y / 100
  {
  }

  // ---------------------------------------------------------------- plans

  datatype Plan = Plan(periods: int, discount: int)

  /** The first configured plan for this many periods. */
  function PlanFor(plans: seq<Plan>, periods: int): Option<Plan> {
    if plans == [] then None
    else if plans[0].periods == periods then Some(plans[0])
    else PlanFor(plans[1..], periods)
  }

  predicate MayPrepay(sub: Subscription) {
    (sub.status.Active? || sub.status.PastDue?) && sub.prepayInvoice.None?
  }

  function PrepaySeconds(sub: Subscription, periods: int): int {
    Min(Max(periods * sub.intervalDays * 86400, 86400), 30 * 86400)
  }

  /** Opening a prepay invoice for `periods` periods. */
  function PrepayOpened(t: Timeline, periods: int, plans: seq<Plan>, wallet: Option<InvoiceId>, now: Time)
    : (r: Result<Timeline, SubscriptionError>)
    requires t.sub.amountXmr >= 0.0
    ensures r.Ok? ==> wallet.Some? && periods >= 1 && r.value.rows == t.rows && r.value.skips == t.skips
  {
    if !MayPrepay(t.sub) then Err(StateError)
    else if periods < 1 then Err(ValidationError)
    else
      var plan := PlanFor(plans, periods);
      if plan.None? || !(0 <= plan.value.discount <= 99) then Err(ValidationError)
      else
        var price := PrepayAmount(t.sub.amountXmr, periods, plan.value.discount);
        if !S.ValidAmount(price.xmr) then Err(ValidationError)
        else if wallet.None? then Err(WalletError)
        else Ok(WithPrepay(t, wallet.value, periods, now + PrepaySeconds(t.sub, periods) * SECOND))
  }
}
