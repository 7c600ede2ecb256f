/** Conservation: billed and skipped windows tile the time from the anchor to the due date. */
module BillingTiling {
  import opened Common
  import opened BillingAnchor
  import opened Billing
  import opened BillingRuns

  /** Where the windows opened by row `i` end: its own period and the periods skipped after it. */
  function Until(t: Timeline, i: int): Time
    requires 0 <= i < |t.rows|
  {
    if i + 1 < |t.rows| then t.rows[i + 1].start else t.sub.nextDue
  }

  predicate Tile(t: Timeline, i: int)
    requires 0 <= i < |t.rows| == |t.skips|
  {
    var b := Interval(t.sub.intervalDays);
    && t.skips[i] >= 0
    && t.rows[i].end == t.rows[i].start + b
    && Until(t, i) == t.rows[i].end + t.skips[i] * b
  }

  /** The windows of the rows from `n` on tile the time from step `j` of the anchor's grid to the due date. */
  predicate TiledFrom(t: Timeline, n: nat, j: int) {
    && |t.skips| == |t.rows| && n <= |t.rows|
    && OnGrid(t.sub.anchor, Interval(t.sub.intervalDays), j, if n == |t.rows| then t.sub.nextDue else t.rows[n].start)
    && forall i | n <= i < |t.rows| :: Tile(t, i)
  }

  /** The windows of all rows tile the time from the anchor to the due date. */
  predicate Tiled(t: Timeline) {
    TiledFrom(t, 0, 0)
  }

  /** Out of trial, and with no change of interval pending. */
  predicate Steady(sub: Subscription) {
    !sub.status.Trialing? && (sub.pendingInterval.Some? ==> sub.pendingInterval.value == sub.intervalDays)
  }

  predicate KeepsGrid(t: Timeline, a: Action) {
    match a
    case Resume(now) => t.sub.status.Paused? ==> now <= t.sub.nextDue
    case Patch(e) => e.interval.Set? ==> e.interval.value == t.sub.intervalDays
    case _ => true
  }

  predicate GridRun(t: Timeline, actions: seq<Action>)
    requires Sound(t.sub)
    decreases |actions|
  {
    actions == [] || (Legal(t, actions[0]) && KeepsGrid(t, actions[0]) && GridRun(Next(t, actions[0]), actions[1..]))
  }

  function Sum(xs: seq<int>): int {
    if xs == [] then 0 else Sum(xs[..|xs| - 1]) + xs[|xs| - 1]
  }

  lemma Distribute(x: int, y: int, b: int)
    ensures x * b + y * b == (x + y) * b
  {
  }

  /** Billed and skipped periods since row `n`. */
  function Windows(t: Timeline, n: nat): int
    requires n <= |t.rows| == |t.skips|
  {
    |t.rows| - n + Sum(t.skips[n..])
  }

  /** Periods billed plus periods skipped account for every interval; the due date is a step of the grid. */
  lemma {:induction false} TiledCounts(t: Timeline, n: nat, j: int)
    requires TiledFrom(t, n, j)
    ensures OnGrid(t.sub.anchor, Interval(t.sub.intervalDays), j + Windows(t, n), t.sub.nextDue)
    decreases |t.rows|
  {
    var m, b := |t.rows|, Interval(t.sub.intervalDays);
    if n < m {
      var init := t.(rows := t.rows[..m - 1], skips := t.skips[..m - 1], sub := t.sub.(nextDue := t.rows[m - 1].start));
      forall i | n <= i < m - 1 ensures Tile(init, i) {
        assert Tile(t, i);
      }
      TiledCounts(init, n, j);
      assert Tile(t, m - 1);
      assert t.skips[n..][..m - n - 1] == init.skips[n..];
      Distribute(j + Windows(init, n), 1 + t.skips[m - 1], b);
      Distribute(1, t.skips[m - 1], b);
    }
  }

  lemma AppendingTiles(t: Timeline, n: nat, j: int, row: Period, skip: int, next: Time)
    requires TiledFrom(t, n, j) && row.start == t.sub.nextDue && skip >= 0
    requires row.end == row.start + Interval(t.sub.intervalDays)
    requires next == row.end + skip * Interval(t.sub.intervalDays)
    ensures TiledFrom(t.(rows := t.rows + [row], skips := t.skips + [skip], sub := t.sub.(nextDue := next)), n, j)
  {
    var t' := t.(rows := t.rows + [row], skips := t.skips + [skip], sub := t.sub.(nextDue := next));
    forall i | n <= i < |t'.rows| ensures Tile(t', i) {
      assert i < |t.rows| ==> Tile(t, i);
    }
  }

  /** Tiling looks at the rows, the skips, the dates and the interval. */
  lemma TiledFrame(t: Timeline, t': Timeline, n: nat, j: int)
    requires TiledFrom(t, n, j) && t'.rows == t.rows && t'.skips == t.skips
    requires t'.sub.nextDue == t.sub.nextDue && t'.sub.anchor == t.sub.anchor
    requires t'.sub.intervalDays == t.sub.intervalDays
    ensures TiledFrom(t', n, j)
  {
    forall i | n <= i < |t'.rows| ensures Tile(t', i) { assert Tile(t, i); }
  }

  lemma RenewalTiles(t: Timeline, n: nat, j: int, wallet: Option<InvoiceId>, now: Time)
    requires Sound(t.sub) && TiledFrom(t, n, j) && Steady(t.sub) && t.sub.nextDue < now
    ensures TiledFrom(WithRenewal(t, wallet, now), n, j) && Steady(WithRenewal(t, wallet, now).sub)
  {
    var t' := WithRenewal(t, wallet, now);
    var days, b := t.sub.intervalDays, Interval(t.sub.intervalDays);
    assert Applied(t.sub).intervalDays == days;
    if RenewalOutcome(t, wallet).Renewed? {
      var m := j + Windows(t, n);
      TiledCounts(t, n, j);
      var k := NextDueIsLeast(t.sub.anchor, days, now);
      var next := t'.sub.nextDue;
      if k <= m { MulMonotone(k, m, b); }
      assert (k - m) * b == k * b - m * b;
      SkippedOnGrid(t.sub.nextDue, next, days, k - m);
      assert next == t.sub.nextDue + b + (k - m - 1) * b;
      var row := t'.rows[|t.rows|];
      AppendingTiles(t, n, j, row, k - m - 1, next);
      TiledFrame(t.(rows := t.rows + [row], skips := t.skips + [k - m - 1], sub := t.sub.(nextDue := next)), t', n, j);
    } else {
      TiledFrame(t, t', n, j);
    }
  }

  /** `n` periods appended without a gap. */
  function WithBlock(t: Timeline, v: InvoiceId, n: nat): Timeline {
    var b := Interval(t.sub.intervalDays);
    t.(rows := t.rows + Block(v, t.sub.nextDue, b, n), skips := t.skips + Zeros(n),
       sub := t.sub.(nextDue := t.sub.nextDue + n * b))
  }

  lemma {:induction false} BlockTiles(t: Timeline, n: nat, j: int, v: InvoiceId, count: nat)
    requires TiledFrom(t, n, j)
    ensures TiledFrom(WithBlock(t, v, count), n, j)
    decreases count
  {
    var b := Interval(t.sub.intervalDays);
    if count == 0 {
      assert t.rows + Block(v, t.sub.nextDue, b, 0) == t.rows && t.skips + Zeros(0) == t.skips;
    } else {
      var m := count - 1;
      var mid := WithBlock(t, v, m);
      var row := Period(v, t.sub.nextDue + m * b, t.sub.nextDue + count * b);
      BlockTiles(t, n, j, v, m);
      BlockGrows(v, t.sub.nextDue, b, m);
      Distribute(m, 1, b);
      AppendingTiles(mid, n, j, row, 0, t.sub.nextDue + count * b);
      assert t.rows + (Block(v, t.sub.nextDue, b, m) + [row]) == mid.rows + [row];
      assert t.skips + (Zeros(m) + [0]) == mid.skips + [0];
    }
  }

  lemma FulfilmentTiles(t: Timeline, n: nat, j: int, v: InvoiceId, count: int)
    requires TiledFrom(t, n, j) && count >= 1
    ensures TiledFrom(Fulfilled(t, v, count), n, j)
  {
    if Linked(t, v) {
      TiledFrame(t, Fulfilled(t, v, count), n, j);
    } else {
      BlockTiles(t, n, j, v, count);
      IntervalTimes(count, t.sub.intervalDays);
      TiledFrame(WithBlock(t, v, count), Fulfilled(t, v, count), n, j);
    }
  }

  /** Steps that neither bill nor fulfil leave the timeline where it was, unless a resumption is late. */
  lemma QuietStepKeepsDates(t: Timeline, a: Action)
    requires Sound(t.sub) && Legal(t, a) && IsQuiet(a) && KeepsGrid(t, a) && Steady(t.sub)
    ensures Next(t, a).sub.nextDue == t.sub.nextDue && Next(t, a).sub.intervalDays == t.sub.intervalDays
    ensures Steady(Next(t, a).sub)
  {
    match a
    case Patch(_) =>
    case _ => StepKeepsTerms(t, a);
  }

  lemma StepTiles(t: Timeline, n: nat, j: int, a: Action)
    requires Inv(t) && Legal(t, a) && KeepsGrid(t, a) && TiledFrom(t, n, j) && Steady(t.sub)
    ensures TiledFrom(Next(t, a), n, j) && Steady(Next(t, a).sub)
    ensures Next(t, a).sub.intervalDays == t.sub.intervalDays
  {
    if IsQuiet(a) {
      QuietStepKeepsRows(t, a);
      QuietStepKeepsDates(t, a);
      TiledFrame(t, Next(t, a), n, j);
    } else {
      match a
      case Sweep(queryAt, wallet, now) => SweepTiles(t, n, j, queryAt, wallet, now);
      case EndTrial(_, _, _, _) =>
      case Hook(v) => HookTiles(t, n, j, v);
    }
  }

  lemma SweepTiles(t: Timeline, n: nat, j: int, queryAt: Time, wallet: Option<InvoiceId>, now: Time)
    requires Sound(t.sub) && TiledFrom(t, n, j) && Steady(t.sub) && queryAt < now
    ensures var t' := Swept(t, queryAt, wallet, now);
            TiledFrom(t', n, j) && Steady(t'.sub) && t'.sub.intervalDays == t.sub.intervalDays
  {
    if IsDue(t.sub, queryAt) && !GuardHolds(t) {
      TiledFrame(t, Guarded(t), n, j);
      RenewalTiles(Guarded(t), n, j, wallet, now);
    }
  }

  lemma HookTiles(t: Timeline, n: nat, j: int, v: InvoiceId)
    requires TiledFrom(t, n, j) && Steady(t.sub) && BillOk(t, v)
    ensures var t' := Hooked(t, v);
            TiledFrom(t', n, j) && Steady(t'.sub) && t'.sub.intervalDays == t.sub.intervalDays
  {
    if v in t.bills && t.bills[v].kind.Prepay? {
      FulfilmentTiles(t, n, j, v, t.bills[v].kind.periods);
    } else {
      TiledFrame(t, Hooked(t, v), n, j);
    }
  }

  /**
    Conservation over every run in which no edit changes the interval and no resumption is late:
    however late the renewals, billed plus skipped periods are exactly the intervals elapsed.
    With `n == j == 0` these are all the periods and the time since the anchor.
   */
  lemma {:induction false} PeriodsAreConserved(t: Timeline, n: nat, j: int, actions: seq<Action>)
    requires Inv(t) && TiledFrom(t, n, j) && Steady(t.sub) && GridRun(t, actions)
    ensures var t' := Run(t, actions);
            && TiledFrom(t', n, j) && t'.sub.anchor == t.sub.anchor && t'.sub.intervalDays == t.sub.intervalDays
            && t'.sub.nextDue - t.sub.anchor == (j + Windows(t', n)) * Interval(t.sub.intervalDays)
    decreases |actions|
  {
    if actions == [] {
      TiledCounts(t, n, j);
    } else {
      StepKeepsInv(t, actions[0]);
      StepTiles(t, n, j, actions[0]);
      PeriodsAreConserved(Next(t, actions[0]), n, j, actions[1..]);
    }
  }

  /** Whatever took the due date off the grid, a renewal that is issued puts it back on. */
  lemma BillingReturnsToGrid(t: Timeline, a: Action) returns (k: int)
    requires Inv(t) && Legal(t, a) && (a.Sweep? || a.EndTrial?) && |Next(t, a).rows| > |t.rows|
    ensures k >= 1 && TiledFrom(Next(t, a), |Next(t, a).rows|, k) && Steady(Next(t, a).sub)
  {
    StepKeepsInv(t, a);
    k := NextDueIsLeast(t.sub.anchor, Next(t, a).sub.intervalDays, a.now);
  }

  /**
    Trials, late resumptions and changes of the interval cost at most the window of the next
    renewal: from the end of that one on, periods are conserved again.
   */
  lemma ConservationResumesWithBilling(t: Timeline, a: Action, actions: seq<Action>)
    requires Inv(t) && Legal(t, a) && (a.Sweep? || a.EndTrial?) && |Next(t, a).rows| > |t.rows|
    requires GridRun(Next(t, a), actions)
    ensures var t1 := Next(t, a);
            var t2 := Run(t1, actions);
            && |t1.rows| <= |t2.rows| == |t2.skips|
            && t2.sub.nextDue - t1.sub.nextDue == Windows(t2, |t1.rows|) * Interval(t1.sub.intervalDays)
  {
    var k := BillingReturnsToGrid(t, a);
    StepKeepsInv(t, a);
    ConservedFromHere(Next(t, a), k, actions);
  }

  /** Conservation of what a run adds to a timeline whose due date is step `j` of the grid. */
  lemma ConservedFromHere(t: Timeline, j: int, actions: seq<Action>)
    requires Inv(t) && TiledFrom(t, |t.rows|, j) && Steady(t.sub) && GridRun(t, actions)
    ensures var t' := Run(t, actions);
            && |t.rows| <= |t'.rows| == |t'.skips|
            && t'.sub.nextDue - t.sub.nextDue == Windows(t', |t.rows|) * Interval(t.sub.intervalDays)
  {
    PeriodsAreConserved(t, |t.rows|, j, actions);
    WindowsSince(t, Run(t, actions), j);
  }

  lemma WindowsSince(t: Timeline, t': Timeline, j: int)
    requires |t.rows| <= |t'.rows| == |t'.skips|
    requires OnGrid(t.sub.anchor, Interval(t.sub.intervalDays), j, t.sub.nextDue)
    requires t'.sub.nextDue - t.sub.anchor == (j + Windows(t', |t.rows|)) * Interval(t.sub.intervalDays)
    ensures t'.sub.nextDue - t.sub.nextDue == Windows(t', |t.rows|) * Interval(t.sub.intervalDays)
  {
    Distribute(j, Windows(t', |t.rows|), Interval(t.sub.intervalDays));
  }

  /** A subscription created without a trial starts tiled. */
  lemma SubscribedTiled(r: Request, at: Time, wallet: Option<InvoiceId>, now: Time)
    requires at < now && !IsTrial(r) && Subscribed(r, at, wallet, now).Ok?
    ensures Tiled(Subscribed(r, at, wallet, now).value) && Steady(Subscribed(r, at, wallet, now).value.sub)
    ensures Subscribed(r, at, wallet, now).value.sub.intervalDays == r.interval
  {
    var t := Timeline(Blank(r, at), [], [], map[]);
    if Or(r.startAt, at) <= at {
      RenewalTiles(t, 0, 0, wallet, now);
    }
  }

  /** Conservation from the start: every subscription created without a trial, over every such run. */
  lemma CreatedPeriodsAreConserved(r: Request, at: Time, wallet: Option<InvoiceId>, now: Time, actions: seq<Action>)
    requires LegalHistory(r, at, wallet, now, actions) && !IsTrial(r)
    requires GridRun(Subscribed(r, at, wallet, now).value, actions)
    ensures var t := History(r, at, wallet, now, actions);
            Tiled(t) && t.sub.nextDue - t.sub.anchor == Windows(t, 0) * Interval(r.interval)
  {
    SubscribedInv(r, at, wallet, now);
    SubscribedTiled(r, at, wallet, now);
    PeriodsAreConserved(Subscribed(r, at, wallet, now).value, 0, 0, actions);
  }

  lemma {:induction false} StartsIncrease(t: Timeline, n: nat, j: int, i: int, k: int)
    requires TiledFrom(t, n, j) && Sound(t.sub) && n <= i < k < |t.rows|
    ensures Until(t, i) <= t.rows[k].start
    decreases k - i
  {
    assert Tile(t, i) && Tile(t, k - 1);
    if i + 1 < k {
      StartsIncrease(t, n, j, i, k - 1);
      assert Until(t, k - 1) >= t.rows[k - 1].start by { MulMonotone(0, t.skips[k - 1], Interval(t.sub.intervalDays)); }
    }
  }

  /** Every instant from the start of row `n` to the due date lies in the window of exactly one row. */
  lemma EveryInstantIsCoveredOnce(t: Timeline, n: nat, j: int, x: Time) returns (i: int)
    requires TiledFrom(t, n, j) && Sound(t.sub) && n < |t.rows| && t.rows[n].start <= x < t.sub.nextDue
    ensures n <= i < |t.rows| && t.rows[i].start <= x < Until(t, i)
    ensures forall k :: n <= k < |t.rows| && t.rows[k].start <= x < Until(t, k) ==> k == i
  {
    i := n;
    while x >= Until(t, i)
      invariant n <= i < |t.rows| && t.rows[i].start <= x
      decreases |t.rows| - i
    {
      i := i + 1;
    }
    forall k | n <= k < |t.rows| && t.rows[k].start <= x < Until(t, k) ensures k == i {
      if k < i { StartsIncrease(t, n, j, k, i); }
      if i < k { StartsIncrease(t, n, j, i, k); }
    }
  }

  /** A resumption keeps the tiling exactly when it comes no later than the due date. */
  lemma ResumeTilesIff(t: Timeline, n: nat, j: int, now: Time)
    requires TiledFrom(t, n, j) && t.sub.status.Paused?
    ensures TiledFrom(Resumed(t, now), n, j) <==> now <= t.sub.nextDue
  {
    var t' := Resumed(t, now);
    if now <= t.sub.nextDue {
      TiledFrame(t, t', n, j);
    } else if n < |t.rows| {
      assert Tile(t, |t.rows| - 1);
      assert !Tile(t', |t.rows| - 1);
    }
  }

  /**
    When a renewal bills past its next due date: exactly when the due date lies after the anchor but
    off its grid, as after a late resumption or a trial, and the renewal comes before the next grid step.
   */
  lemma RenewalOverlapsIff(t: Timeline, wallet: Option<InvoiceId>, now: Time)
    requires Sound(t.sub) && t.sub.nextDue < now && RenewalOutcome(t, wallet).Renewed?
    ensures var step := NextDue(t.sub.anchor, Applied(t.sub).intervalDays, t.sub.nextDue);
            var t' := WithRenewal(t, wallet, now);
            t'.sub.nextDue < t'.rows[|t.rows|].end <==> t.sub.anchor < t.sub.nextDue < step && now <= step
  {
    var days := Applied(t.sub).intervalDays;
    var b := Interval(days);
    var s, step, next := t.sub.nextDue, NextDue(t.sub.anchor, days, t.sub.nextDue), NextDue(t.sub.anchor, days, now);
    var k := NextDueIsLeast(t.sub.anchor, days, now);
    if s <= t.sub.anchor {
      MulMonotone(1, k, b);
    } else {
      var j := NextDueIsLeast(t.sub.anchor, days, s);
      NextDueIsClose(t.sub.anchor, days, s);
      NextDueIsMonotone(t.sub.anchor, days, s, now);
      if now <= step {
        assert OnGrid(t.sub.anchor, b, j, step);
        assert next == step;
      } else {
        if k <= j { MulMonotone(k, j, b); }
        MulMonotone(j + 1, k, b);
        assert (j + 1) * b == j * b + b;
      }
    }
  }
}
