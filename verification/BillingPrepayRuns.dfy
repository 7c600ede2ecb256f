/** Prepayments over whole runs, and what a renewal needs. */
module BillingPrepayRuns {
  import opened Common
  import opened BillingAnchor
  import opened Billing
  import opened BillingRuns

  /** The first fulfilment: exactly `n` contiguous periods from the due date, which moves past them. */
  lemma FirstFulfilment(t: Timeline, v: InvoiceId)
    requires Inv(t) && v in t.bills && t.bills[v].kind.Prepay? && !Linked(t, v)
    ensures var n, interval := t.bills[v].kind.periods, Interval(t.sub.intervalDays);
            && IsBlock(RowsOf(Hooked(t, v).rows, v), v, t.sub.nextDue, interval, n)
            && Hooked(t, v).sub.nextDue == t.sub.nextDue + n * interval
            && Hooked(t, v).sub.prepayInvoice.None?
            && Hooked(t, v).sub.prepaidUntil == Some(t.sub.nextDue + n * interval)
            && Linked(Hooked(t, v), v)
  {
    assert BillOk(t, v);
    FulfilmentAddsBlock(t, v, t.bills[v].kind.periods);
  }

  lemma FulfilmentAddsBlock(t: Timeline, v: InvoiceId, n: int)
    requires Sound(t.sub) && n >= 1 && !Linked(t, v)
    ensures IsBlock(RowsOf(Fulfilled(t, v, n).rows, v), v, t.sub.nextDue, Interval(t.sub.intervalDays), n)
    ensures Fulfilled(t, v, n).sub.nextDue == t.sub.nextDue + n * Interval(t.sub.intervalDays)
    ensures Linked(Fulfilled(t, v, n), v)
  {
    RowsOfLinked(t, v);
    RowsOfBlock(t.rows, v, t.sub.nextDue, Interval(t.sub.intervalDays), n);
    IntervalTimes(n, t.sub.intervalDays);
    assert Fulfilled(t, v, n).rows[|t.rows|].invoice == v;
  }

  /** Only new rows are added, none of them for `v`, and no invoice disappears or changes kind. */
  predicate GrowsWithout(t: Timeline, t': Timeline, v: InvoiceId) {
    && t.rows <= t'.rows
    && (forall i | |t.rows| <= i < |t'.rows| :: t'.rows[i].invoice != v)
    && (forall u | u in t.bills :: u in t'.bills && t'.bills[u].kind == t.bills[u].kind)
  }

  lemma RenewalGrowsWithout(t: Timeline, wallet: Option<InvoiceId>, now: Time, v: InvoiceId)
    requires Sound(t.sub) && Fresh(t, wallet) && v in t.bills
    ensures GrowsWithout(t, WithRenewal(t, wallet, now), v)
  {
  }

  lemma StepGrowsWithout(t: Timeline, a: Action, v: InvoiceId)
    requires Sound(t.sub) && Legal(t, a) && v in t.bills
    requires a == Hook(v) ==> Linked(t, v)
    ensures GrowsWithout(t, Next(t, a), v)
  {
    match a
    case Sweep(queryAt, wallet, now) => RenewalGrowsWithout(Guarded(t), wallet, now, v);
    case EndTrial(queryAt, setAt, wallet, now) =>
      RenewalGrowsWithout(t.(sub := t.sub.(status := Active, nextDue := setAt)), wallet, now, v);
    case Hook(u) =>
    case Pause =>
    case Resume(_) =>
    case End(_) =>
    case Patch(_) =>
    case OpenPrepay(_, _, _, _) =>
    case BillsMove(_) =>
    case Grace(_) =>
  }

  /** Steps keep the rows of a fulfilled prepay invoice; those of an open one appear by its hook only. */
  lemma StepKeepsPrepaidRows(t: Timeline, a: Action, v: InvoiceId)
    requires Sound(t.sub) && Legal(t, a) && v in t.bills && t.bills[v].kind.Prepay?
    requires Linked(t, v) || a != Hook(v)
    ensures RowsOf(Next(t, a).rows, v) == RowsOf(t.rows, v)
    ensures v in Next(t, a).bills && Next(t, a).bills[v].kind == t.bills[v].kind
    ensures Linked(Next(t, a), v) <==> Linked(t, v)
    ensures a == Hook(v) ==> Next(t, a).rows == t.rows && Next(t, a).sub.nextDue == t.sub.nextDue
  {
    StepGrowsWithout(t, a, v);
    AppendedRowsAreForeign(t, Next(t, a), v);
  }

  lemma AppendedRowsAreForeign(t: Timeline, t': Timeline, v: InvoiceId)
    requires t.rows <= t'.rows
    requires forall i :: |t.rows| <= i < |t'.rows| ==> t'.rows[i].invoice != v
    ensures RowsOf(t'.rows, v) == RowsOf(t.rows, v)
    ensures Linked(t', v) <==> Linked(t, v)
  {
    var tail := t'.rows[|t.rows|..];
    assert t'.rows == t.rows + tail;
    RowsOfConcat(t.rows, tail, v);
    NoRowsOf(tail, v);
    assert RowsOf(t.rows, v) + [] == RowsOf(t.rows, v);
    RowsOfLinked(t, v);
    RowsOfLinked(t', v);
  }

  lemma {:induction false} NoRowsOf(rows: seq<Period>, v: InvoiceId)
    requires forall i :: 0 <= i < |rows| ==> rows[i].invoice != v
    ensures RowsOf(rows, v) == []
    decreases |rows|
  {
    if rows != [] { NoRowsOf(rows[..|rows| - 1], v); }
  }

  /** How far the due date was moved by the hooks of invoice `v`. */
  function AdvanceBy(t: Timeline, actions: seq<Action>, v: InvoiceId): int
    requires Sound(t.sub)
    decreases |actions|
  {
    if actions == [] then 0
    else
      var t' := Next(t, actions[0]);
      (if actions[0] == Hook(v) then t'.sub.nextDue - t.sub.nextDue else 0) + AdvanceBy(t', actions[1..], v)
  }

  lemma {:induction false} FulfilledStaysFulfilled(t: Timeline, actions: seq<Action>, v: InvoiceId)
    requires Inv(t) && LegalRun(t, actions) && v in t.bills && t.bills[v].kind.Prepay? && Linked(t, v)
    ensures RowsOf(Run(t, actions).rows, v) == RowsOf(t.rows, v) && AdvanceBy(t, actions, v) == 0
    decreases |actions|
  {
    if actions != [] {
      StepKeepsInv(t, actions[0]);
      StepKeepsPrepaidRows(t, actions[0], v);
      FulfilledStaysFulfilled(Next(t, actions[0]), actions[1..], v);
    }
  }

  /** `own` is one block of `n` periods, and `advance` is its length. */
  ghost predicate IsOneFulfilment(own: seq<Period>, v: InvoiceId, n: int, advance: int) {
    exists start, interval :: IsBlock(own, v, start, interval, n) && advance == n * interval
  }

  lemma HookFulfils(t: Timeline, v: InvoiceId, rest: seq<Action>)
    requires Inv(t) && v in t.bills && t.bills[v].kind.Prepay? && !Linked(t, v)
    requires LegalRun(Next(t, Hook(v)), rest)
    ensures var n, t' := t.bills[v].kind.periods, Next(t, Hook(v));
            var advance := t'.sub.nextDue - t.sub.nextDue + AdvanceBy(t', rest, v);
            IsOneFulfilment(RowsOf(Run(t', rest).rows, v), v, n, advance)
  {
    FirstFulfilment(t, v);
    StepKeepsInv(t, Hook(v));
    FulfilledStaysFulfilled(Next(t, Hook(v)), rest, v);
  }

  /**
    Exactly once.  However often a prepay invoice settles, is reverted and settles again: it is
    linked to no period while its hook has not run, and to exactly its `n` contiguous periods from
    the first time on; over the whole run its hooks move the due date by `n` intervals in total.
   */
  lemma {:induction false} PrepayIsFulfilledExactlyOnce(t: Timeline, actions: seq<Action>, v: InvoiceId)
    requires Inv(t) && LegalRun(t, actions) && v in t.bills && t.bills[v].kind.Prepay? && !Linked(t, v)
    ensures var own, n := RowsOf(Run(t, actions).rows, v), t.bills[v].kind.periods;
            if Hook(v) in actions
            then IsOneFulfilment(own, v, n, AdvanceBy(t, actions, v))
            else own == [] && AdvanceBy(t, actions, v) == 0
    decreases |actions|
  {
    RowsOfLinked(t, v);
    if actions != [] {
      var a, t' := actions[0], Next(t, actions[0]);
      StepKeepsInv(t, a);
      if a == Hook(v) {
        HookFulfils(t, v, actions[1..]);
        assert AdvanceBy(t, actions, v) == t'.sub.nextDue - t.sub.nextDue + AdvanceBy(t', actions[1..], v);
      } else {
        StepKeepsPrepaidRows(t, a, v);
        PrepayIsFulfilledExactlyOnce(t', actions[1..], v);
      }
    }
  }

  // ---------------------------------------------------------------- what a renewal needs

  /** A due, unguarded subscription gets its period row exactly when nothing linked is unpaid, the
      wallet answers, and the terms in force afterwards pass the invoice service's own limits. */
  lemma RenewalIssuesIff(t: Timeline, queryAt: Time, wallet: Option<InvoiceId>, now: Time)
    requires Inv(t) && IsDue(t.sub, queryAt) && !GuardHolds(t) && queryAt < now
    ensures |Swept(t, queryAt, wallet, now).rows| == |t.rows| + 1
       <==> !HasUnpaidRow(t) && wallet.Some? && Billable(Applied(t.sub))
    ensures var t' := Swept(t, queryAt, wallet, now);
            |t'.rows| != |t.rows| + 1 ==> t'.rows == t.rows && t'.sub.nextDue == t.sub.nextDue
  {
    DuePeriodIsUnbilled(Guarded(t));
  }

  predicate NothingPending(sub: Subscription) {
    && sub.pendingAtomic.None? && sub.pendingXmr.None? && sub.pendingInterval.None?
    && sub.pendingSoft.None? && sub.pendingHard.None?
  }

  /**
    What a sweep that bills nothing does to the terms, whether the wallet is down or the invoice is
    refused.  They stay as they were exactly if an unpaid invoice stopped it before, if nothing was
    pending, or if the database refused the pending amount; otherwise the pending terms are in force.
   */
  lemma FailedSweepKeepsTermsIff(t: Timeline, queryAt: Time, wallet: Option<InvoiceId>, now: Time)
    requires Inv(t) && IsDue(t.sub, queryAt) && !GuardHolds(t) && queryAt < now
    requires Swept(t, queryAt, wallet, now).rows == t.rows
    ensures var sub := Swept(t, queryAt, wallet, now).sub;
            && (SameTerms(t.sub, sub) <==>
                  HasUnpaidRow(t) || NothingPending(t.sub) || t.sub.pendingAtomic == Some(0))
            && (!SameTerms(t.sub, sub) ==> SameTerms(Applied(t.sub), sub))
  {
    var g := Guarded(t);
    DuePeriodIsUnbilled(g);
    ApplyingChangesIff(t.sub);
    GuardingKeepsTerms(t);
    assert !RenewalOutcome(g, wallet).Renewed?;
    FailedRenewal(g, wallet, now);
  }

  lemma GuardingKeepsTerms(t: Timeline)
    ensures SameTerms(t.sub, Guarded(t).sub) && SameTerms(Applied(t.sub), Applied(Guarded(t).sub))
    ensures HasUnpaidRow(Guarded(t)) <==> HasUnpaidRow(t)
  {
  }

  lemma FailedRenewal(t: Timeline, wallet: Option<InvoiceId>, now: Time)
    requires Sound(t.sub) && !AlreadyBilled(t) && !RenewalOutcome(t, wallet).Renewed?
    ensures RenewalOutcome(t, wallet).FailedDatabase? <==> !HasUnpaidRow(t) && !Storable(Applied(t.sub))
    ensures WithRenewal(t, wallet, now)
         == if HasUnpaidRow(t) || !Storable(Applied(t.sub)) then t else t.(sub := Applied(t.sub))
  {
  }

  lemma ApplyingChangesIff(sub: Subscription)
    requires Sound(sub)
    ensures SameTerms(sub, Applied(sub)) <==> NothingPending(sub)
    ensures Storable(Applied(sub)) <==> sub.pendingAtomic != Some(0)
  {
  }

  // ---------------------------------------------------------------- terms that are never billed

  function EffectiveGraceDays(sub: Subscription): int {
    Or(sub.pendingSoft, sub.graceSoft) + Or(sub.pendingHard, sub.graceHard)
  }

  /**
    The terms the edit endpoint accepts and the invoice service does not.  It caps lifetimes at thirty
    days, and a renewal invoice lives for the whole grace; it caps amounts at a billion, and refuses
    those below a piconero.
   */
  lemma BillableIff(sub: Subscription)
    requires Sound(sub)
    ensures Billable(Applied(sub)) <==>
              && Or(sub.pendingAtomic, sub.amountAtomic) > 0
              && Or(sub.pendingXmr, sub.amountXmr) <= 1_000_000_000.0
              && EffectiveGraceDays(sub) <= 30
  {
    assert GraceSeconds(Applied(sub)) == EffectiveGraceDays(sub) * 86400;
  }

  lemma SameTermsSameBills(a: Subscription, b: Subscription)
    requires SameTerms(a, b)
    ensures Billable(Applied(a)) <==> Billable(Applied(b))
  {
  }

  lemma RenewalKeepsBillable(t: Timeline, wallet: Option<InvoiceId>, now: Time)
    requires Sound(t.sub)
    ensures Billable(Applied(WithRenewal(t, wallet, now).sub)) <==> Billable(Applied(t.sub))
  {
    assert Applied(Applied(t.sub)) == Applied(t.sub);
  }

  lemma StepKeepsBillable(t: Timeline, a: Action)
    requires Sound(t.sub) && !a.Patch?
    ensures Billable(Applied(Next(t, a).sub)) <==> Billable(Applied(t.sub))
  {
    if a.Sweep? {
      SameTermsSameBills(t.sub, Guarded(t).sub);
      RenewalKeepsBillable(Guarded(t), a.wallet, a.now);
    } else if a.EndTrial? {
      var t1 := t.(sub := t.sub.(status := Active, nextDue := a.setAt));
      SameTermsSameBills(t.sub, t1.sub);
      RenewalKeepsBillable(t1, a.wallet, a.now);
    } else {
      StepKeepsTerms(t, a);
      SameTermsSameBills(t.sub, Next(t, a).sub);
    }
  }

  predicate OnlyPrepaidSince(t: Timeline, t': Timeline) {
    && t.rows <= t'.rows
    && forall i | |t.rows| <= i < |t'.rows| ::
         t'.rows[i].invoice in t'.bills && t'.bills[t'.rows[i].invoice].kind.Prepay?
  }

  lemma UnbillableRenewalFails(t: Timeline, wallet: Option<InvoiceId>, now: Time)
    requires Sound(t.sub) && !Billable(Applied(t.sub))
    ensures WithRenewal(t, wallet, now).rows == t.rows && WithRenewal(t, wallet, now).bills == t.bills
  {
  }

  lemma UnbillableStep(t: Timeline, a: Action)
    requires Sound(t.sub) && Legal(t, a) && !Billable(Applied(t.sub))
    ensures OnlyPrepaidSince(t, Next(t, a))
    ensures forall v :: v in t.bills ==> v in Next(t, a).bills && Next(t, a).bills[v].kind == t.bills[v].kind
  {
    match a
    case Sweep(queryAt, wallet, now) =>
      SameTermsSameBills(t.sub, Guarded(t).sub);
      UnbillableRenewalFails(Guarded(t), wallet, now);
    case EndTrial(_, setAt, wallet, now) =>
      var t1 := t.(sub := t.sub.(status := Active, nextDue := setAt));
      SameTermsSameBills(t.sub, t1.sub);
      UnbillableRenewalFails(t1, wallet, now);
    case Hook(_) =>
    case Pause =>
    case Resume(_) =>
    case End(_) =>
    case Patch(_) =>
    case OpenPrepay(_, _, _, _) =>
    case BillsMove(_) =>
    case Grace(_) =>
  }

  /**
    So a subscription whose terms in force or pending are not billable in the sense of `BillableIff` is
    never renewed again until it is edited, whatever else happens: only prepayments still add periods.
   */
  lemma {:induction false} UnbillableNeverRenews(t: Timeline, actions: seq<Action>)
    requires Inv(t) && LegalRun(t, actions) && !Billable(Applied(t.sub))
    requires forall a :: a in actions ==> !a.Patch?
    ensures OnlyPrepaidSince(t, Run(t, actions))
    ensures forall v :: v in t.bills ==> v in Run(t, actions).bills && Run(t, actions).bills[v].kind == t.bills[v].kind
    decreases |actions|
  {
    if actions != [] {
      var a, t' := actions[0], Next(t, actions[0]);
      StepKeepsInv(t, a);
      UnbillableStep(t, a);
      StepKeepsBillable(t, a);
      UnbillableNeverRenews(t', actions[1..]);
    }
  }

  /** At creation such terms are refused when the first invoice is made at once, and only then. */
  lemma CreationAcceptsIff(r: Request, at: Time, wallet: Option<InvoiceId>, now: Time)
    ensures Subscribed(r, at, wallet, now).Ok? <==>
              && ValidRequest(r) && ToAtomic(r.amount) > 0
              && (IsTrial(r) || at < Or(r.startAt, at) || (r.amount <= 1_000_000_000.0 && r.soft + r.hard <= 30))
  {
  }
}
