/**
  What the subscription steps mean, in plain table contents, days and microseconds: who is billed and
  who is not, when a subscription becomes past due, what cancelling, pausing, editing and paying do.
  None of these laws mentions the function it is about.
 */
module BillingLaws {
  import opened Common
  import opened Billing
  import opened BillingRuns
  import opened BillingPrepayRuns
  import opened BillingGrace
  import P = PrepayPrice
  import S = Settlement

  /** Row `i` is on an invoice that is pending or partially paid. */
  predicate Owed(t: Timeline, i: int)
    requires 0 <= i < |t.rows|
  {
    && t.rows[i].invoice in t.bills
    && (t.bills[t.rows[i].invoice].status.Pending? || t.bills[t.rows[i].invoice].status.PartiallyPaid?)
  }

  /** Row `i` is on an invoice that is paid, overpaid or late paid. */
  predicate PaidRow(t: Timeline, i: int)
    requires 0 <= i < |t.rows|
  {
    && t.rows[i].invoice in t.bills
    && (t.bills[t.rows[i].invoice].status.Paid? || t.bills[t.rows[i].invoice].status.Overpaid?
        || t.bills[t.rows[i].invoice].status.LatePaid?)
  }

  // ---------------------------------------------------------------- who is billed

  /** No prepay invoice is referred to, or it is gone, partially paid, expired or cancelled. */
  predicate NoPrepayInForce(t: Timeline) {
    t.sub.prepayInvoice.Some? && t.sub.prepayInvoice.value in t.bills ==>
      var status := t.bills[t.sub.prepayInvoice.value].status;
      status.PartiallyPaid? || status.Expired? || status.Cancelled?
  }

  /** The terms that come into force with the next renewal can be billed. */
  predicate TermsPass(sub: Subscription) {
    && Or(sub.pendingAtomic, sub.amountAtomic) > 0
    && Or(sub.pendingXmr, sub.amountXmr) <= 1_000_000_000.0
    && Or(sub.pendingSoft, sub.graceSoft) + Or(sub.pendingHard, sub.graceHard) <= 30
  }

  /**
    From `t` to `t'` one period was billed on invoice `v`: one interval of the terms then in force from
    the due date on.  The invoice lives for both grace periods, ten minutes at least.
   */
  predicate IsBilled(t: Timeline, t': Timeline, v: InvoiceId, now: Time) {
    var days := Or(t.sub.pendingInterval, t.sub.intervalDays);
    var grace := Or(t.sub.pendingSoft, t.sub.graceSoft) + Or(t.sub.pendingHard, t.sub.graceHard);
    && t'.rows == t.rows + [Period(v, t.sub.nextDue, t.sub.nextDue + days * 86_400_000_000)]
    && t'.bills == t.bills[v := Bill(Renewal, S.Pending, now + Max(grace * 86400, 600) * 1_000_000)]
  }

  /** A sweep touches active subscriptions that are due, and no others. */
  lemma SweepTouchesOnlyDue(t: Timeline, queryAt: Time, wallet: Option<InvoiceId>, now: Time)
    requires Sound(t.sub)
    ensures Next(t, Sweep(queryAt, wallet, now)) != t ==> t.sub.status.Active? && t.sub.nextDue <= queryAt
  {
  }

  /**
    Who is billed by a sweep: exactly the active subscriptions that are due, with no prepayment in
    force, nothing owed, a wallet that answers and terms that pass.
   */
  lemma SweepBillsIff(t: Timeline, queryAt: Time, wallet: Option<InvoiceId>, now: Time)
    requires Inv(t) && queryAt < now
    ensures var t' := Next(t, Sweep(queryAt, wallet, now));
            if && t.sub.status.Active? && t.sub.nextDue <= queryAt && NoPrepayInForce(t)
               && (forall i :: 0 <= i < |t.rows| ==> !Owed(t, i))
               && wallet.Some? && TermsPass(t.sub)
            then
              IsBilled(t, t', wallet.value, now)
            else
              t'.rows == t.rows && t'.bills == t.bills && t'.sub.nextDue == t.sub.nextDue
  {
    NothingOwedIff(t);
    GuardHoldsIff(t);
    SweptIsRenewed(t, queryAt, wallet, now);
    if t.sub.status.Active? && t.sub.nextDue <= queryAt && NoPrepayInForce(t) {
      DuePeriodIsUnbilled(Guarded(t));
      RenewsIff(Guarded(t), wallet, now);
    }
  }

  lemma SweptIsRenewed(t: Timeline, queryAt: Time, wallet: Option<InvoiceId>, now: Time)
    requires Sound(t.sub)
    ensures var g, t' := Guarded(t), Swept(t, queryAt, wallet, now);
            && g.rows == t.rows && g.bills == t.bills && g.sub.nextDue == t.sub.nextDue
            && SameTerms(g.sub, t.sub) && (HasUnpaidRow(g) <==> HasUnpaidRow(t))
            && if t.sub.status.Active? && t.sub.nextDue <= queryAt && !GuardHolds(t)
               then var r := WithRenewal(g, wallet, now);
                    t'.rows == r.rows && t'.bills == r.bills && t'.sub.nextDue == r.sub.nextDue
               else t' == t
  {
    GuardingKeepsTerms(t);
  }

  /** A sweep of a due, active subscription drops a prepay reference that is not in force, unless it is rolled back. */
  lemma SweepDropsPrepayIff(t: Timeline, queryAt: Time, wallet: Option<InvoiceId>, now: Time)
    requires Inv(t) && queryAt < now
    ensures var t' := Next(t, Sweep(queryAt, wallet, now));
            var rolledBack := t.sub.pendingAtomic == Some(0) && forall i :: 0 <= i < |t.rows| ==> !Owed(t, i);
            var drops := t.sub.status.Active? && t.sub.nextDue <= queryAt && NoPrepayInForce(t) && !rolledBack;
            && t'.sub.prepayInvoice == (if drops then None else t.sub.prepayInvoice)
            && t'.sub.prepaidUntil == if drops && t.sub.prepayInvoice.Some? then None else t.sub.prepaidUntil
  {
    NothingOwedIff(t);
    GuardHoldsIff(t);
    RollsBackIff(t, wallet);
    RenewalKeepsPrepay(Guarded(t), wallet, now);
  }

  lemma RollsBackIff(t: Timeline, wallet: Option<InvoiceId>)
    requires Inv(t)
    ensures RenewalOutcome(Guarded(t), wallet).FailedDatabase? <==>
              !HasUnpaidRow(t) && t.sub.pendingAtomic == Some(0)
  {
    DuePeriodIsUnbilled(Guarded(t));
    GuardingKeepsTerms(t);
    ApplyingChangesIff(Guarded(t).sub);
  }

  lemma RenewalKeepsPrepay(t: Timeline, wallet: Option<InvoiceId>, now: Time)
    requires Sound(t.sub)
    ensures WithRenewal(t, wallet, now).sub.prepayInvoice == t.sub.prepayInvoice
    ensures WithRenewal(t, wallet, now).sub.prepaidUntil == t.sub.prepaidUntil
  {
  }

  /** The outcome reported for a renewal: the first of these obstacles, in this order. */
  lemma OutcomeIff(t: Timeline, wallet: Option<InvoiceId>)
    requires Inv(t)
    ensures RenewalOutcome(t, wallet)
         == if exists i :: 0 <= i < |t.rows| && Owed(t, i) then SkippedUnpaid
            else if t.sub.pendingAtomic == Some(0) then FailedDatabase
            else if !TermsPass(t.sub) then FailedValidation
            else if wallet.None? then FailedWallet
            else Renewed
  {
    DuePeriodIsUnbilled(t);
    NothingOwedIff(t);
    ApplyingChangesIff(t.sub);
    BillableIff(t.sub);
  }

  lemma NothingOwedIff(t: Timeline)
    ensures HasUnpaidRow(t) <==> exists i :: 0 <= i < |t.rows| && Owed(t, i)
  {
    if HasUnpaidRow(t) {
      var i :| 0 <= i < |t.rows| && t.rows[i].invoice in t.bills && IsUnpaid(t.bills[t.rows[i].invoice].status);
      assert Owed(t, i);
    }
  }

  lemma GuardHoldsIff(t: Timeline)
    ensures GuardHolds(t) <==> !NoPrepayInForce(t)
  {
  }

  lemma RenewsIff(t: Timeline, wallet: Option<InvoiceId>, now: Time)
    requires Sound(t.sub) && !AlreadyBilled(t)
    ensures var t' := WithRenewal(t, wallet, now);
            if !HasUnpaidRow(t) && wallet.Some? && TermsPass(t.sub)
            then
              IsBilled(t, t', wallet.value, now)
            else
              t'.rows == t.rows && t'.bills == t.bills && t'.sub.nextDue == t.sub.nextDue
  {
    BillableIff(t.sub);
    ApplyingChangesIff(t.sub);
  }

  // ---------------------------------------------------------------- who is never billed

  /** Only prepaid rows were added, no invoice was made, and none changed its kind. */
  predicate NothingBilledSince(t: Timeline, t': Timeline) {
    && OnlyPrepaidSince(t, t')
    && t'.bills.Keys == t.bills.Keys
    && forall v | v in t.bills :: t'.bills[v].kind == t.bills[v].kind
  }

  lemma TerminalStep(t: Timeline, a: Action)
    requires Sound(t.sub) && (t.sub.status.Cancelled? || t.sub.status.Expired?)
    ensures Next(t, a).sub.status == t.sub.status && NothingBilledSince(t, Next(t, a))
  {
    match a
    case Sweep(_, _, _) =>
    case EndTrial(_, _, _, _) =>
    case Pause =>
    case Resume(_) =>
    case End(_) =>
    case Patch(_) =>
    case OpenPrepay(_, _, _, _) =>
    case Hook(_) =>
    case BillsMove(_) =>
    case Grace(_) =>
  }

  /** Whatever comes: a cancelled or expired subscription stays so and is never billed again. */
  lemma {:induction false} TerminalIsFinal(t: Timeline, actions: seq<Action>)
    requires Sound(t.sub) && LegalRun(t, actions) && (t.sub.status.Cancelled? || t.sub.status.Expired?)
    ensures Run(t, actions).sub.status == t.sub.status && NothingBilledSince(t, Run(t, actions))
    decreases |actions|
  {
    if actions != [] {
      TerminalStep(t, actions[0]);
      TerminalIsFinal(Next(t, actions[0]), actions[1..]);
    }
  }

  /**
    Cancelling ends the subscription for ever: it is refused exactly when it is over already, and
    afterwards, whatever comes, the status is cancelled (or still expired) and nothing is billed.
    Of its invoices exactly the linked, pending ones that have no payments are cancelled with it.
   */
  lemma CancelledIsNeverBilledAgain(t: Timeline, refused: set<InvoiceId>, actions: seq<Action>)
    requires Sound(t.sub) && LegalRun(Next(t, End(refused)), actions)
    ensures var t1 := Next(t, End(refused));
            && t1.sub.status == (if t.sub.status.Expired? then t.sub.status else SubStatus.Cancelled)
            && Run(t1, actions).sub.status == t1.sub.status
            && NothingBilledSince(t, Run(t1, actions))
  {
    var t1 := Next(t, End(refused));
    TerminalIsFinal(t1, actions);
  }

  lemma EndingCancelsIff(t: Timeline, refused: set<InvoiceId>, v: InvoiceId)
    requires Sound(t.sub) && !t.sub.status.Cancelled? && !t.sub.status.Expired? && v in t.bills
    ensures var t' := Next(t, End(refused));
            var linked := exists i :: 0 <= i < |t.rows| && t.rows[i].invoice == v;
            && t'.rows == t.rows && v in t'.bills
            && t'.bills[v] == if t.bills[v].status.Pending? && linked && v !in refused
                              then t.bills[v].(status := S.Cancelled) else t.bills[v]
  {
  }

  lemma PausedStep(t: Timeline, a: Action)
    requires Sound(t.sub) && t.sub.status.Paused? && !a.Resume?
    ensures Next(t, a).sub.status == (if a.End? then SubStatus.Cancelled else Paused)
    ensures NothingBilledSince(t, Next(t, a))
  {
    match a
    case Sweep(_, _, _) =>
    case EndTrial(_, _, _, _) =>
    case Pause =>
    case End(_) =>
    case Patch(_) =>
    case OpenPrepay(_, _, _, _) =>
    case Hook(_) =>
    case BillsMove(_) =>
    case Grace(_) =>
  }

  /** A paused subscription stays paused, or is cancelled, and is not billed, until it is resumed. */
  lemma {:induction false} PausedIsNotBilled(t: Timeline, actions: seq<Action>)
    requires Sound(t.sub) && LegalRun(t, actions) && t.sub.status.Paused?
    requires forall a :: a in actions ==> !a.Resume?
    ensures Run(t, actions).sub.status
         == if exists a :: a in actions && a.End? then SubStatus.Cancelled else Paused
    ensures NothingBilledSince(t, Run(t, actions))
    decreases |actions|
  {
    if actions != [] {
      var a, t' := actions[0], Next(t, actions[0]);
      assert a in actions;
      assert forall b :: b in actions <==> b == a || b in actions[1..];
      PausedStep(t, a);
      if a.End? { TerminalIsFinal(t', actions[1..]); } else { PausedIsNotBilled(t', actions[1..]); }
    }
  }

  /** During its trial a subscription is not billed, and the trial lasts to its end. */
  lemma TrialStep(t: Timeline, a: Action)
    requires Inv(t) && t.sub.status.Trialing? && (a.EndTrial? ==> a.queryAt < t.sub.nextDue)
    ensures Next(t, a).sub.status == (if a.End? then SubStatus.Cancelled else Trialing)
    ensures Next(t, a).rows == [] && Next(t, a).bills == map[] && Next(t, a).sub.nextDue == t.sub.nextDue
  {
    match a
    case Sweep(_, _, _) =>
    case EndTrial(_, _, _, _) =>
    case Pause =>
    case Resume(_) =>
    case End(_) =>
    case Patch(_) =>
    case OpenPrepay(_, _, _, _) =>
    case Hook(v) => assert BillOk(t, v);
    case BillsMove(_) =>
    case Grace(_) =>
  }

  /** No trial is cut short: until a trial sweep comes at or after its end, nothing is billed or owed. */
  lemma {:induction false} TrialIsFree(t: Timeline, actions: seq<Action>)
    requires Inv(t) && LegalRun(t, actions) && t.sub.status.Trialing?
    requires forall a :: a in actions && a.EndTrial? ==> a.queryAt < t.sub.nextDue
    ensures Run(t, actions).sub.status
         == if exists a :: a in actions && a.End? then SubStatus.Cancelled else Trialing
    ensures Run(t, actions).rows == [] && Run(t, actions).bills == map[]
    decreases |actions|
  {
    if actions != [] {
      var a, t' := actions[0], Next(t, actions[0]);
      assert a in actions;
      assert forall b :: b in actions <==> b == a || b in actions[1..];
      TrialStep(t, a);
      StepKeepsInv(t, a);
      if a.End? {
        TerminalIsFinal(t', actions[1..]);
        NoBillsNoRows(t', Run(t', actions[1..]));
      } else {
        TrialIsFree(t', actions[1..]);
      }
    }
  }

  lemma NoBillsNoRows(t: Timeline, t': Timeline)
    requires NothingBilledSince(t, t') && t.rows == [] && t.bills == map[]
    ensures t'.rows == [] && t'.bills == map[]
  {
    FirstIsThere(t'.rows);
  }

  lemma FirstIsThere(rows: seq<Period>)
    ensures rows == [] || rows[0] in rows
  {
  }

  /** When the trial is over, the sweep activates the subscription and bills it from that moment on. */
  lemma TrialEndBillsIff(t: Timeline, queryAt: Time, setAt: Time, wallet: Option<InvoiceId>, now: Time)
    requires Inv(t) && t.sub.status.Trialing? && queryAt < setAt < now && t.sub.nextDue <= queryAt
    ensures var t' := Next(t, EndTrial(queryAt, setAt, wallet, now));
            var days := Or(t.sub.pendingInterval, t.sub.intervalDays);
            && t'.sub.status == (if Or(t.sub.pendingAtomic, t.sub.amountAtomic) > 0 then Active else Trialing)
            && t'.rows == if wallet.Some? && TermsPass(t.sub)
                          then [Period(wallet.value, setAt, setAt + days * 86_400_000_000)] else []
  {
    var t1 := t.(sub := t.sub.(status := Active, nextDue := setAt));
    RenewsIff(t1, wallet, now);
    ApplyingChangesIff(t1.sub);
    assert t.rows + [] == t.rows;
  }

  // ---------------------------------------------------------------- past due

  /** An owed period is more than soft grace old. */
  predicate SoftOver(t: Timeline, now: Time) {
    exists i | 0 <= i < |t.rows| :: Owed(t, i) && t.rows[i].start + t.sub.graceSoft * 86_400_000_000 < now
  }

  /** An owed period is more than hard grace old, and the time of its invoice is up. */
  predicate HardOver(t: Timeline, now: Time) {
    exists i | 0 <= i < |t.rows| ::
      && Owed(t, i) && t.rows[i].start + t.sub.graceHard * 86_400_000_000 < now
      && t.bills[t.rows[i].invoice].expiresAt <= now
  }

  predicate SomePaid(t: Timeline) {
    exists i | 0 <= i < |t.rows| :: PaidRow(t, i)
  }

  lemma SoftBreachInDays(t: Timeline, now: Time)
    ensures SoftBreach(t, now) <==> SoftOver(t, now)
  {
    if SoftBreach(t, now) {
      var i :| 0 <= i < |t.rows| && t.rows[i].invoice in t.bills && IsUnpaid(t.bills[t.rows[i].invoice].status)
        && t.rows[i].start + t.sub.graceSoft * DAY < now;
      assert Owed(t, i);
    }
  }

  lemma HardBreachInDays(t: Timeline, now: Time)
    ensures HardBreach(t, now) <==> HardOver(t, now)
  {
    if HardBreach(t, now) {
      var i :| 0 <= i < |t.rows| && t.rows[i].invoice in t.bills && IsUnpaid(t.bills[t.rows[i].invoice].status)
        && t.rows[i].start + t.sub.graceHard * DAY < now && t.bills[t.rows[i].invoice].expiresAt <= now;
      assert Owed(t, i);
    }
  }

  lemma PaidRowsInPlain(t: Timeline)
    ensures HasPaidRow(t) <==> SomePaid(t)
  {
    if HasPaidRow(t) {
      var i :| 0 <= i < |t.rows| && t.rows[i].invoice in t.bills && S.IsSettled(t.bills[t.rows[i].invoice].status);
      assert PaidRow(t, i);
    }
  }

  /**
    What a grace pass does to a subscription with ordered grace periods.  It ends past due exactly if it
    was so or an active one has an owed period more than soft grace old, no owed period is beyond hard
    grace with its invoice's time up, and nothing was ever paid; it is expired exactly if it was active or
    past due and hard grace is over; and it changes nothing else.
   */
  lemma GracePassIff(t: Timeline, now: Time)
    requires Sound(t.sub) && GraceOk(t.sub)
    ensures var t' := Next(t, Grace(now));
            && (t'.sub.status.PastDue? <==>
                  && (t.sub.status.PastDue? || (t.sub.status.Active? && SoftOver(t, now)))
                  && !HardOver(t, now) && !SomePaid(t))
            && (t'.sub.status.Expired? <==>
                  t.sub.status.Expired? || ((t.sub.status.Active? || t.sub.status.PastDue?) && HardOver(t, now)))
            && (t'.sub.status != t.sub.status ==> t.sub.status.Active? || t.sub.status.PastDue?)
            && t' == t.(sub := t.sub.(status := t'.sub.status))
  {
    SoftBreachInDays(t, now);
    HardBreachInDays(t, now);
    PaidRowsInPlain(t);
    if HardBreach(t, now) { HardImpliesSoft(t, now); }
  }

  /** A pass within soft grace of every owed period leaves an active subscription as it is. */
  lemma EarlyPassLeavesActive(t: Timeline, now: Time)
    requires Sound(t.sub) && GraceOk(t.sub) && t.sub.status.Active?
    requires forall i :: 0 <= i < |t.rows| && Owed(t, i) ==> now <= t.rows[i].start + t.sub.graceSoft * 86_400_000_000
    ensures Next(t, Grace(now)) == t
  {
    GracePassIff(t, now);
    assert !HardOver(t, now) by {
      forall i | 0 <= i < |t.rows| && Owed(t, i) ensures now <= t.rows[i].start + t.sub.graceHard * 86_400_000_000 {
        LongerGrace(t.sub.graceSoft, t.sub.graceHard);
      }
    }
  }

  lemma LongerGrace(a: int, b: int)
    requires a <= b
    ensures a * 86_400_000_000 <= b * 86_400_000_000
  {
  }

  /** Every period starts at `from` or later, and soft grace is and will be at least `days`. */
  predicate WithinGrace(t: Timeline, from: Time, days: int) {
    && from <= t.sub.nextDue
    && (forall i | 0 <= i < |t.rows| :: from <= t.rows[i].start)
    && days <= t.sub.graceSoft && days <= Or(t.sub.pendingSoft, t.sub.graceSoft)
    && !t.sub.status.PastDue? && !t.sub.status.Expired?
  }

  /** Grace passes come no later than `days` days after `from`, and edits do not set soft grace below that. */
  predicate Patient(a: Action, from: Time, days: int) {
    && (a.Grace? ==> a.now <= from + days * 86_400_000_000)
    && (a.Patch? && a.edit.soft.Set? ==> days <= a.edit.soft.value)
  }

  lemma PatientPass(t: Timeline, from: Time, days: int, now: Time)
    requires Sound(t.sub) && GraceOk(t.sub) && WithinGrace(t, from, days) && now <= from + days * 86_400_000_000
    ensures Next(t, Grace(now)) == t
  {
    if t.sub.status.Active? {
      LongerGrace(days, t.sub.graceSoft);
      EarlyPassLeavesActive(t, now);
    } else {
      GracePassIff(t, now);
    }
  }

  lemma RenewalAddsFromDue(t: Timeline, wallet: Option<InvoiceId>, now: Time)
    requires Sound(t.sub)
    ensures var t' := WithRenewal(t, wallet, now);
            && t.rows <= t'.rows && t'.sub.status == t.sub.status
            && (forall i :: |t.rows| <= i < |t'.rows| ==> t'.rows[i].start == t.sub.nextDue)
            && (SameTerms(t'.sub, t.sub) || SameTerms(t'.sub, Applied(t.sub)))
  {
  }

  /** Whatever a step bills or fulfils starts at the due date or later. */
  lemma NewRowsStartLater(t: Timeline, a: Action)
    requires Inv(t) && Legal(t, a)
    ensures t.rows <= Next(t, a).rows
    ensures forall i :: |t.rows| <= i < |Next(t, a).rows| ==> Next(t, a).rows[i].start >= t.sub.nextDue
  {
    if IsQuiet(a) {
      QuietStepKeepsRows(t, a);
    } else {
      match a
      case Sweep(queryAt, wallet, now) => RenewalAddsFromDue(Guarded(t), wallet, now);
      case EndTrial(queryAt, setAt, wallet, now) =>
        RenewalAddsFromDue(t.(sub := t.sub.(status := Active, nextDue := setAt)), wallet, now);
      case Hook(v) => HookAddsFromDue(t, v);
    }
  }

  lemma HookAddsFromDue(t: Timeline, v: InvoiceId)
    requires Inv(t)
    ensures t.rows <= Hooked(t, v).rows
    ensures forall i :: |t.rows| <= i < |Hooked(t, v).rows| ==> Hooked(t, v).rows[i].start >= t.sub.nextDue
  {
    var t' := Hooked(t, v);
    HookKeepsInv(t, v);
    if |t'.rows| > |t.rows| {
      assert t'.rows[|t.rows|].start == t.sub.nextDue;
    }
  }

  /** Over every run: what it bills or fulfils starts at the due date it began with, or later. */
  lemma {:induction false} LaterRowsStartLater(t: Timeline, actions: seq<Action>)
    requires Inv(t) && LegalRun(t, actions)
    ensures t.rows <= Run(t, actions).rows
    ensures forall i :: |t.rows| <= i < |Run(t, actions).rows| ==> Run(t, actions).rows[i].start >= t.sub.nextDue
    decreases |actions|
  {
    if actions != [] {
      StepKeepsInv(t, actions[0]);
      NewRowsStartLater(t, actions[0]);
      LaterRowsStartLater(Next(t, actions[0]), actions[1..]);
      var t1, t2 := Next(t, actions[0]), Run(t, actions);
      forall i | |t.rows| <= i < |t2.rows| ensures t2.rows[i].start >= t.sub.nextDue {
        if i < |t1.rows| { assert t2.rows[i] == t1.rows[i]; }
      }
    }
  }

  lemma PatientStep(t: Timeline, a: Action, from: Time, days: int)
    requires Inv(t) && GraceOk(t.sub) && Legal(t, a) && WithinGrace(t, from, days) && Patient(a, from, days)
    ensures WithinGrace(Next(t, a), from, days)
  {
    StepKeepsInv(t, a);
    NewRowsStartLater(t, a);
    var t' := Next(t, a);
    forall i | 0 <= i < |t'.rows| ensures from <= t'.rows[i].start {
      if i < |t.rows| { assert t'.rows[i] == t.rows[i]; }
    }
    PatientTerms(t, a, from, days);
  }

  lemma PatientTerms(t: Timeline, a: Action, from: Time, days: int)
    requires Sound(t.sub) && GraceOk(t.sub) && WithinGrace(t, from, days) && Patient(a, from, days)
    ensures var sub := Next(t, a).sub;
            && days <= sub.graceSoft && days <= Or(sub.pendingSoft, sub.graceSoft)
            && !sub.status.PastDue? && !sub.status.Expired?
  {
    StatusMovesOnlyBy(t, a);
    if a.Sweep? {
      RenewalKeepsPatience(t.sub, Guarded(t), a.wallet, a.now, days);
    } else if a.EndTrial? {
      RenewalKeepsPatience(t.sub, t.(sub := t.sub.(status := Active, nextDue := a.setAt)), a.wallet, a.now, days);
    } else if a.Grace? {
      PatientPass(t, from, days, a.now);
    } else if !a.Patch? {
      StepKeepsTerms(t, a);
    }
  }

  lemma RenewalKeepsPatience(sub: Subscription, t: Timeline, wallet: Option<InvoiceId>, now: Time, days: int)
    requires Sound(t.sub) && SameTerms(sub, t.sub)
    requires days <= sub.graceSoft && days <= Or(sub.pendingSoft, sub.graceSoft)
    ensures var after := WithRenewal(t, wallet, now).sub;
            days <= after.graceSoft && days <= Or(after.pendingSoft, after.graceSoft)
  {
    RenewalAddsFromDue(t, wallet, now);
  }

  /** No run with patient passes makes a subscription in good standing past due or expires it. */
  lemma {:induction false} NeverPastDueWithinGrace(t: Timeline, actions: seq<Action>, from: Time, days: int)
    requires Inv(t) && GraceOk(t.sub) && LegalRun(t, actions) && WithinGrace(t, from, days)
    requires forall a :: a in actions ==> Patient(a, from, days)
    ensures WithinGrace(Run(t, actions), from, days)
    decreases |actions|
  {
    if actions != [] {
      assert actions[0] in actions;
      PatientStep(t, actions[0], from, days);
      StepKeepsInv(t, actions[0]);
      StepKeepsGraceOk(t, actions[0]);
      NeverPastDueWithinGrace(Next(t, actions[0]), actions[1..], from, days);
    }
  }

  /**
    From creation: until the soft grace of the first period is over, whoever pays nothing is neither
    past due nor expired, however often the passes run.
   */
  lemma NewSubscriptionsHaveTheirGrace(r: Request, at: Time, wallet: Option<InvoiceId>, now: Time, actions: seq<Action>)
    requires LegalHistory(r, at, wallet, now, actions)
    requires var first := if IsTrial(r) then at + r.trialDays.value * 86_400_000_000 else Or(r.startAt, at);
             forall a :: a in actions ==> Patient(a, first, r.soft)
    ensures var status := History(r, at, wallet, now, actions).sub.status;
            !status.PastDue? && !status.Expired?
  {
    var first := if IsTrial(r) then at + r.trialDays.value * 86_400_000_000 else Or(r.startAt, at);
    var t := Timeline(Blank(r, at), [], [], map[]);
    SubscribedInv(r, at, wallet, now);
    SubscribedGraceOk(r, at, wallet, now);
    RenewalAddsFromDue(t, wallet, now);
    if !IsTrial(r) && Or(r.startAt, at) <= at { RenewalMovesForward(t, wallet, now); }
    NeverPastDueWithinGrace(Subscribed(r, at, wallet, now).value, actions, first, r.soft);
  }

  // ---------------------------------------------------------------- payments, pauses, status

  /** When the payment hook brings a past-due subscription back, and what else a renewal's hook does: nothing. */
  lemma HookRecoversIff(t: Timeline, v: InvoiceId)
    requires Sound(t.sub)
    ensures var t' := Next(t, Hook(v));
            var linked := exists i :: 0 <= i < |t.rows| && t.rows[i].invoice == v;
            && t'.sub.status == (if t.sub.status.PastDue? && v in t.bills && (t.bills[v].kind.Renewal? <==> linked)
                                 then Active else t.sub.status)
            && (v !in t.bills || t.bills[v].kind.Renewal? ==> t' == t.(sub := t.sub.(status := t'.sub.status)))
  {
  }

  /** Which hooks free the prepay guard: a first fulfilment any reference, a repeated one its own. */
  lemma HookFreesGuardIff(t: Timeline, v: InvoiceId)
    requires Sound(t.sub)
    ensures var linked := exists i :: 0 <= i < |t.rows| && t.rows[i].invoice == v;
            var frees := v in t.bills && t.bills[v].kind.Prepay? && (!linked || t.sub.prepayInvoice == Some(v));
            Next(t, Hook(v)).sub.prepayInvoice == if frees then None else t.sub.prepayInvoice
  {
  }

  /** The invoice that guards the subscription has no periods yet. */
  predicate GuardIsOpen(t: Timeline) {
    t.sub.prepayInvoice.Some? ==> forall i | 0 <= i < |t.rows| :: t.rows[i].invoice != t.sub.prepayInvoice.value
  }

  lemma StepKeepsGuardOpen(t: Timeline, a: Action)
    requires Inv(t) && Legal(t, a) && GuardIsOpen(t)
    ensures GuardIsOpen(Next(t, a))
  {
    if a.OpenPrepay? {
      if a.wallet.Some? {
        assert BillOk(t, a.wallet.value);
        RowsOfLinked(t, a.wallet.value);
      }
    } else if a.Sweep? {
      RenewalKeepsGuardOpen(Guarded(t), a.wallet, a.now);
    } else if a.EndTrial? {
      RenewalKeepsGuardOpen(t.(sub := t.sub.(status := Active, nextDue := a.setAt)), a.wallet, a.now);
    } else if a.Hook? {
      HookFreesGuardIff(t, a.v);
    } else {
      QuietStepKeepsRows(t, a);
    }
  }

  lemma RenewalKeepsGuardOpen(t: Timeline, wallet: Option<InvoiceId>, now: Time)
    requires Sound(t.sub) && PrepayOk(t) && Fresh(t, wallet) && GuardIsOpen(t)
    ensures GuardIsOpen(WithRenewal(t, wallet, now))
  {
    RenewalKeepsPrepay(t, wallet, now);
  }

  /** No stuck guard: in no run does a prepay invoice that was fulfilled go on blocking renewals. */
  lemma {:induction false} GuardIsNeverStuck(t: Timeline, actions: seq<Action>)
    requires Inv(t) && LegalRun(t, actions) && GuardIsOpen(t)
    ensures GuardIsOpen(Run(t, actions))
    decreases |actions|
  {
    if actions != [] {
      StepKeepsGuardOpen(t, actions[0]);
      StepKeepsInv(t, actions[0]);
      GuardIsNeverStuck(Next(t, actions[0]), actions[1..]);
    }
  }

  /**
    Time spent paused is not billed.  A resumption after the due date makes that moment the due date, an
    earlier one leaves it; and over every run that follows no period starts before either.
   */
  lemma ResumedTimeIsNotBilled(t: Timeline, now: Time, actions: seq<Action>)
    requires Inv(t) && t.sub.status.Paused? && LegalRun(Next(t, Resume(now)), actions)
    ensures var t1 := Next(t, Resume(now));
            && t1.sub.status.Active? && t1.rows == t.rows
            && t1.sub.nextDue == (if now > t.sub.nextDue then now else t.sub.nextDue)
            && forall i :: |t.rows| <= i < |Run(t1, actions).rows| ==>
                 Run(t1, actions).rows[i].start >= now && Run(t1, actions).rows[i].start >= t.sub.nextDue
  {
    StepKeepsInv(t, Resume(now));
    LaterRowsStartLater(Next(t, Resume(now)), actions);
  }

  /** Every change of status, and what alone can bring it about. */
  lemma StatusMovesOnlyBy(t: Timeline, a: Action)
    requires Sound(t.sub)
    ensures var from, to := t.sub.status, Next(t, a).sub.status;
            || from == to
            || (from.Trialing? && to.Active? && a.EndTrial?)
            || (from.Active? && to.Paused? && a.Pause?)
            || (from.Paused? && to.Active? && a.Resume?)
            || (!from.Cancelled? && !from.Expired? && to.Cancelled? && a.End?)
            || (from.Active? && (to.PastDue? || to.Expired?) && a.Grace?)
            || (from.PastDue? && (to.Active? || to.Expired?) && a.Grace?)
            || (from.PastDue? && to.Active? && a.Hook?)
  {
    match a
    case Sweep(queryAt, wallet, now) => RenewalAddsFromDue(Guarded(t), wallet, now);
    case EndTrial(queryAt, setAt, wallet, now) =>
      RenewalAddsFromDue(t.(sub := t.sub.(status := Active, nextDue := setAt)), wallet, now);
    case Pause =>
    case Resume(_) =>
    case End(_) =>
    case Patch(_) =>
    case OpenPrepay(_, _, _, _) =>
    case Hook(_) =>
    case BillsMove(_) =>
    case Grace(_) =>
  }

  /** Merchant actions that apply do apply. */
  lemma MerchantActionsApply(t: Timeline, refused: set<InvoiceId>)
    requires Sound(t.sub)
    ensures Next(t, Pause) == if t.sub.status.Active? then t.(sub := t.sub.(status := Paused)) else t
    ensures Next(t, End(refused)).sub
         == if t.sub.status.Cancelled? || t.sub.status.Expired? then t.sub else t.sub.(status := SubStatus.Cancelled)
  {
  }

  // ---------------------------------------------------------------- edits

  /** Accepted are edits of live subscriptions with sensible values that leave hard grace no shorter than soft. */
  predicate Acceptable(sub: Subscription, e: Edit) {
    && !sub.status.Cancelled? && !sub.status.Expired?
    && (e.amount.Set? ==> e.amount.value > 0.0)
    && (e.interval.Set? ==> e.interval.value >= 1)
    && (e.soft.Set? ==> e.soft.value >= 0)
    && (e.hard.Set? ==> e.hard.value >= 0)
    && InForce(e.soft, sub.graceSoft, Or(sub.pendingSoft, sub.graceSoft))
    <= InForce(e.hard, sub.graceHard, Or(sub.pendingHard, sub.graceHard))
  }

  /** A refused edit is told why: the subscription is over, or the values are wrong. */
  lemma EditRefusedIff(sub: Subscription, e: Edit)
    ensures Patched(sub, e)
         == if sub.status.Cancelled? || sub.status.Expired? then Err(StateError)
            else if !Acceptable(sub, e) then Err(ValidationError)
            else Ok(Edited(sub, e))
  {
  }

  /** An edit changes nothing but pending terms, and those only when it is accepted. */
  lemma EditsWait(t: Timeline, e: Edit)
    requires Sound(t.sub)
    ensures var t' := Next(t, Patch(e));
            && (!Acceptable(t.sub, e) ==> t' == t)
            && t' == t.(sub := t.sub.(pendingAtomic := t'.sub.pendingAtomic, pendingXmr := t'.sub.pendingXmr,
                                      pendingInterval := t'.sub.pendingInterval,
                                      pendingSoft := t'.sub.pendingSoft, pendingHard := t'.sub.pendingHard))
            && (Acceptable(t.sub, e) ==>
                  && (e.soft.Set? ==> t'.sub.pendingSoft == Some(e.soft.value))
                  && (e.hard.Set? ==> t'.sub.pendingHard == Some(e.hard.value))
                  && (e.interval.Set? ==> t'.sub.pendingInterval == Some(e.interval.value))
                  && (e.amount.Set? ==>
                        && t'.sub.pendingXmr == Some(e.amount.value)
                        && t'.sub.pendingAtomic == Some((e.amount.value * 1_000_000_000_000.0).Floor)))
  {
  }

  // ---------------------------------------------------------------- prepayment

  /** Plan `k` is the first one for this many periods. */
  predicate IsFirstPlan(plans: seq<P.Plan>, periods: int, k: int) {
    0 <= k < |plans| && plans[k].periods == periods && forall j :: 0 <= j < k ==> plans[j].periods != periods
  }

  lemma {:induction false} PlanForIsFirst(plans: seq<P.Plan>, periods: int)
    ensures P.PlanFor(plans, periods).None? <==> forall k :: 0 <= k < |plans| ==> plans[k].periods != periods
    ensures forall k :: IsFirstPlan(plans, periods, k) ==> P.PlanFor(plans, periods) == Some(plans[k])
    decreases |plans|
  {
    if plans != [] && plans[0].periods != periods {
      var rest := plans[1..];
      PlanForIsFirst(rest, periods);
      assert forall k :: 0 <= k < |rest| ==> plans[k + 1] == rest[k];
      forall k | IsFirstPlan(plans, periods, k) ensures P.PlanFor(plans, periods) == Some(plans[k]) {
        assert IsFirstPlan(rest, periods, k - 1);
      }
      if k :| 0 <= k < |plans| && plans[k].periods == periods { assert rest[k - 1].periods == periods; }
    }
  }

  /** A price that can be asked for: at least a piconero, at most a billion XMR. */
  predicate Askable(price: P.Price) {
    0.0 < price.xmr <= 1_000_000_000.0 && price.atomic > 0
  }

  /**
    When a prepay invoice is opened: for an active or past-due subscription with none open, a positive
    number of periods whose first plan has a discount of 0 to 99 percent, an askable price and a wallet
    that answers.  It lives for the time prepaid, a day at least and thirty days at most, and guards the
    subscription; nothing else changes.
   */
  lemma PrepayOpensIff(t: Timeline, periods: int, plans: seq<P.Plan>, k: int, wallet: Option<InvoiceId>, now: Time)
    requires Sound(t.sub)
    requires IsFirstPlan(plans, periods, k) || (k < 0 && forall j :: 0 <= j < |plans| ==> plans[j].periods != periods)
    ensures var t' := Next(t, OpenPrepay(periods, plans, wallet, now));
            if && (t.sub.status.Active? || t.sub.status.PastDue?) && t.sub.prepayInvoice.None?
               && periods >= 1 && k >= 0 && 0 <= plans[k].discount <= 99
               && Askable(P.PrepayAmount(t.sub.amountXmr, periods, plans[k].discount)) && wallet.Some?
            then
              var seconds := Min(Max(periods * t.sub.intervalDays * 86400, 86400), 2592000);
              var until := t.sub.nextDue + periods * t.sub.intervalDays * 86_400_000_000;
              && t'.bills == t.bills[wallet.value := Bill(Prepay(periods), S.Pending, now + seconds * 1_000_000)]
              && t'.sub == t.sub.(prepayInvoice := wallet, prepaidUntil := Some(until))
              && t'.rows == t.rows && t'.skips == t.skips
            else t' == t
  {
    PlanForIsFirst(plans, periods);
    if periods >= 1 && k >= 0 && 0 <= plans[k].discount <= 99 {
      PriceIsConsistent(t.sub.amountXmr, periods, plans[k].discount);
    }
  }

  /** Why a prepay invoice is refused: the subscription's state first, the wallet last. */
  lemma PrepayRefusedIff(t: Timeline, periods: int, plans: seq<P.Plan>, wallet: Option<InvoiceId>, now: Time)
    requires Sound(t.sub)
    ensures var r := P.PrepayOpened(t, periods, plans, wallet, now);
            && (r == Err(StateError) <==>
                  !(t.sub.status.Active? || t.sub.status.PastDue?) || t.sub.prepayInvoice.Some?)
            && (r == Err(WalletError) <==> wallet.None? && P.PrepayOpened(t, periods, plans, Some(0), now).Ok?)
            && r != Err(DatabaseError)
  {
  }

  lemma PriceIsConsistent(perPeriod: real, periods: int, discount: int)
    requires perPeriod >= 0.0 && periods >= 0 && 0 <= discount <= 99
    ensures P.PrepayAmount(perPeriod, periods, discount).xmr >= 0.0
    ensures P.PrepayAmount(perPeriod, periods, discount).atomic
         == ToAtomic(P.PrepayAmount(perPeriod, periods, discount).xmr)
  {
    P.Nonnegative(perPeriod, periods as real);
    if discount > 0 {
      var total, factor := perPeriod * periods as real, (100 - discount) as real / 100.0;
      P.Nonnegative(total, factor);
      P.QuantizeDownIsFloor(total * factor);
      P.AtomicRoundTrip(ToAtomic(total * factor));
    }
  }

  // ---------------------------------------------------------------- creation

  /**
    What a new subscription starts with.  The anchor is the requested start, or now.  A trial puts the
    first due date at its end and bills nothing; a start in the future bills nothing yet; else the
    period that starts at the anchor is billed at once, unless the wallet fails.
   */
  lemma CreationStarts(r: Request, at: Time, wallet: Option<InvoiceId>, now: Time)
    requires at < now && Subscribed(r, at, wallet, now).Ok?
    ensures var t := Subscribed(r, at, wallet, now).value;
            var start := if r.startAt.Some? then r.startAt.value else at;
            var trial := r.trialDays.Some? && r.trialDays.value > 0;
            && t.sub.anchor == start && t.sub.status == (if trial then Trialing else Active)
            && t.sub.amountXmr == r.amount && t.sub.amountAtomic == (r.amount * 1_000_000_000_000.0).Floor
            && t.sub.intervalDays == r.interval && t.sub.graceSoft == r.soft && t.sub.graceHard == r.hard
            && NothingPending(t.sub) && t.sub.prepayInvoice.None?
            && (trial ==> t.rows == [] && t.sub.nextDue == at + r.trialDays.value * 86_400_000_000
                          && t.sub.trialEnd == Some(t.sub.nextDue))
            && (!trial && start > at ==> t.rows == [] && t.sub.nextDue == start)
            && (!trial && start <= at && wallet.None? ==> t.rows == [] && t.sub.nextDue == start)
            && (!trial && start <= at && wallet.Some? ==>
                  t.rows == [Period(wallet.value, start, start + r.interval * 86_400_000_000)])
  {
    var t := Timeline(Blank(r, at), [], [], map[]);
    BillableIff(t.sub);
    RenewsIff(t, wallet, now);
    assert t.rows + [] == t.rows;
  }
}
