/** The subscription services, over one subscription and its tables updated in place. */
module BillingServices {
  import opened Common
  import opened BillingAnchor
  import opened Billing
  import opened PrepayPrice
  import opened BillingRuns
  import S = Settlement

  class BillingAccount {
    var sub: Subscription
    var rows: seq<Period>
    var skips: seq<int>
    var bills: map<InvoiceId, Bill>

    ghost function State(): Timeline
      reads this
    {
      Timeline(sub, rows, skips, bills)
    }

    constructor (t: Timeline)
      ensures State() == t
    {
      sub, rows, skips, bills := t.sub, t.rows, t.skips, t.bills;
    }

    // -------------------------------------------------------------- renewal

    /** Each pending field, one after the other. */
    method ApplyPendingChanges() returns (changed: bool)
      requires sub.pendingAtomic.Some? ==> sub.pendingXmr.Some?
      modifies this`sub
      ensures sub == Applied(old(sub))
      ensures changed <==> old(sub.pendingAtomic.Some? || sub.pendingInterval.Some?
                               || sub.pendingSoft.Some? || sub.pendingHard.Some?)
      ensures !changed ==> sub == old(sub)
    {
      changed := false;
      if sub.pendingAtomic.Some? {
        changed := true;
        sub := sub.(amountAtomic := sub.pendingAtomic.value);
        sub := sub.(amountXmr := sub.pendingXmr.value);
        sub := sub.(pendingAtomic := None);
        sub := sub.(pendingXmr := None);
      }
      if sub.pendingInterval.Some? {
        changed := true;
        sub := sub.(intervalDays := sub.pendingInterval.value);
        sub := sub.(pendingInterval := None);
      }
      if sub.pendingSoft.Some? {
        changed := true;
        sub := sub.(graceSoft := sub.pendingSoft.value);
        sub := sub.(pendingSoft := None);
      }
      if sub.pendingHard.Some? {
        changed := true;
        sub := sub.(graceHard := sub.pendingHard.value);
        sub := sub.(pendingHard := None);
      }
    }

    /** `wallet` is the id of the new invoice when wallet-rpc hands out an address, None when it fails. */
    method CreateRenewalInvoice(wallet: Option<InvoiceId>, now: Time) returns (outcome: Outcome)
      requires Sound(sub)
      modifies this
      ensures State() == WithRenewal(old(State()), wallet, now)
      ensures outcome == old(RenewalOutcome(State(), wallet))
    {
      var start := sub.nextDue;
      var end := start + Interval(sub.intervalDays);
      if exists i | 0 <= i < |rows| :: rows[i].start == start {
        return SkippedIdempotent;
      }
      if exists i | 0 <= i < |rows| :: rows[i].invoice in bills && IsUnpaid(bills[rows[i].invoice].status) {
        return SkippedUnpaid;
      }
      var saved := sub;
      var changed := ApplyPendingChanges();
      if changed {
        if sub.amountAtomic <= 0 {
          sub := saved;
          return FailedDatabase;
        }
        end := start + Interval(sub.intervalDays);
      }
      var expiresIn := (sub.graceSoft + sub.graceHard) * 86400;
      expiresIn := Max(expiresIn, S.EXPIRES_IN_MIN);
      if !S.ValidAmount(sub.amountXmr) || expiresIn > S.EXPIRES_IN_MAX {
        return FailedValidation;
      }
      if wallet.None? {
        return FailedWallet;
      }
      var invoice := wallet.value;
      bills := bills[invoice := Bill(Renewal, S.Pending, now + expiresIn * SECOND)];
      rows := rows + [Period(invoice, start, end)];
      var next := NextDue(sub.anchor, sub.intervalDays, now);
      var skipped := SkippedPeriods(start, next, sub.intervalDays);
      sub := sub.(nextDue := next);
      skips := skips + [skipped];
      return Renewed;
    }

    method ClearExpiredPrepay()
      modifies this`sub
      ensures sub == PrepayCleared(old(sub))
    {
      sub := sub.(prepayInvoice := None);
      sub := sub.(prepaidUntil := None);
    }

    method CheckPrepayGuard() returns (skip: bool)
      modifies this`sub
      ensures skip <==> old(GuardHolds(State()))
      ensures State() == Guarded(old(State()))
    {
      if sub.prepayInvoice.None? {
        return false;
      }
      var v := sub.prepayInvoice.value;
      if v !in bills {
        ClearExpiredPrepay();
        return false;
      }
      if bills[v].status == S.Pending {
        return true;
      }
      if bills[v].status in {S.Paid, S.Overpaid, S.LatePaid} {
        return true;
      }
      ClearExpiredPrepay();
      return false;
    }

    /** This subscription's part of the sweep: selected if due at `queryAt`, renewed at `now`. */
    method Sweep(queryAt: Time, wallet: Option<InvoiceId>, now: Time)
      requires Sound(sub)
      modifies this
      ensures State() == Swept(old(State()), queryAt, wallet, now)
      ensures State() != old(State()) ==> old(sub).status.Active? && old(sub).nextDue <= queryAt
    {
      if sub.status != Active || sub.nextDue > queryAt {
        return;
      }
      var saved := sub;
      var skip := CheckPrepayGuard();
      if skip {
        return;
      }
      var outcome := CreateRenewalInvoice(wallet, now);
      if outcome.FailedDatabase? {
        sub := saved;
      }
    }

    method MoveTo(to: SubStatus) returns (r: Result<(), SubscriptionError>)
      modifies this`sub
      ensures r == if old(sub.status) == to || CanTransition(old(sub.status), to) then Ok(()) else Err(StateError)
      ensures sub == if r.Ok? then old(sub).(status := to) else old(sub)
    {
      var moved := TransitionStatus(sub, to);
      if moved.Err? {
        return Err(moved.error);
      }
      sub := moved.value;
      return Ok(());
    }

    method EndTrial(queryAt: Time, setAt: Time, wallet: Option<InvoiceId>, now: Time)
      requires Sound(sub)
      modifies this
      ensures State() == TrialEnded(old(State()), queryAt, setAt, wallet, now)
    {
      if sub.status != Trialing || sub.trialEnd.None? || sub.trialEnd.value > queryAt {
        return;
      }
      var saved := sub;
      var _ := MoveTo(Active);
      sub := sub.(nextDue := setAt);
      var outcome := CreateRenewalInvoice(wallet, now);
      if outcome.FailedDatabase? {
        sub := saved;
      }
    }

    // -------------------------------------------------------------- merchant actions

    method PauseSubscription() returns (r: Result<(), SubscriptionError>)
      modifies this`sub
      ensures State() == Stopped(old(State())) && (r.Ok? <==> old(sub.status).Active?)
      ensures sub == if r.Ok? then old(sub).(status := Paused) else old(sub)
    {
      if sub.status != Active {
        return Err(StateError);
      }
      r := MoveTo(Paused);
    }

    method ResumeSubscription(now: Time) returns (r: Result<(), SubscriptionError>)
      modifies this`sub
      ensures State() == Resumed(old(State()), now) && (r.Ok? <==> old(sub.status).Paused?)
      ensures r.Ok? ==>
                sub == old(sub).(status := Active, nextDue := if old(sub.nextDue) < now then now else old(sub.nextDue))
      ensures r.Err? ==> sub == old(sub)
    {
      if sub.status != Paused {
        return Err(StateError);
      }
      if sub.nextDue < now {
        sub := sub.(nextDue := now);
      }
      r := MoveTo(Active);
    }

    method CancelSubscription(refused: set<InvoiceId>) returns (r: Result<(), SubscriptionError>)
      modifies this
      ensures State() == Ended(old(State()), refused)
      ensures r.Ok? <==> !old(sub.status).Cancelled? && !old(sub.status).Expired?
      ensures sub == if r.Ok? then old(sub).(status := SubStatus.Cancelled) else old(sub)
    {
      if IsTerminal(sub.status) {
        return Err(StateError);
      }
      r := MoveTo(SubStatus.Cancelled);
      CancelInvoices(refused);
    }

    /** The linked pending invoices, one after the other; those in `refused` the invoice service does not cancel. */
    method CancelInvoices(refused: set<InvoiceId>)
      modifies this`bills
      ensures bills == Ended(old(State()).(sub := old(sub).(status := Active)), refused).bills
    {
      ghost var s0 := old(State());
      for k := 0 to |rows|
        invariant bills.Keys == s0.bills.Keys
        invariant forall v :: v in bills ==>
                    bills[v] == (if Linked(s0.(rows := rows[..k]), v) && s0.bills[v].status.Pending? && v !in refused
                                 then s0.bills[v].(status := S.Cancelled) else s0.bills[v])
      {
        var v := rows[k].invoice;
        LinkedStep(s0, k);
        if v in bills && bills[v].status == S.Pending && v !in refused {
          bills := bills[v := bills[v].(status := S.Cancelled)];
        }
      }
      assert s0.(rows := rows[..|rows|]) == s0;
    }

    method UpdateSubscription(e: Edit) returns (r: Result<(), SubscriptionError>)
      modifies this`sub
      ensures match Patched(old(sub), e)
              case Ok(s) => r.Ok? && sub == s
              case Err(x) => r == Err(x) && sub == old(sub)
    {
      var saved := sub;
      r := AssignPending(e);
      if r.Err? {
        sub := saved;
      }
    }

    /** The body of the endpoint: fields are assigned one by one before the last check can fail. */
    method AssignPending(e: Edit) returns (r: Result<(), SubscriptionError>)
      modifies this`sub
      ensures match Patched(old(sub), e) case Ok(s) => r.Ok? && sub == s case Err(x) => r == Err(x)
    {
      if IsTerminal(sub.status) {
        return Err(StateError);
      }
      var ok := AssignPendingAmount(e.amount);
      if !ok {
        return Err(ValidationError);
      }
      match e.interval {
        case Unset =>
        case Clear => sub := sub.(pendingInterval := None);
        case Set(d) =>
          if d < 1 { return Err(ValidationError); }
          sub := sub.(pendingInterval := Some(d));
      }
      match e.soft {
        case Unset =>
        case Clear => sub := sub.(pendingSoft := None);
        case Set(d) =>
          if d < 0 { return Err(ValidationError); }
          sub := sub.(pendingSoft := Some(d));
      }
      match e.hard {
        case Unset =>
        case Clear => sub := sub.(pendingHard := None);
        case Set(d) =>
          if d < 0 { return Err(ValidationError); }
          sub := sub.(pendingHard := Some(d));
      }
      var effSoft := if sub.pendingSoft.Some? then sub.pendingSoft.value else sub.graceSoft;
      var effHard := if sub.pendingHard.Some? then sub.pendingHard.value else sub.graceHard;
      if effHard < effSoft {
        return Err(ValidationError);
      }
      return Ok(());
    }

    method AssignPendingAmount(amount: Field<real>) returns (ok: bool)
      modifies this`sub
      ensures ok <==> (amount.Set? ==> amount.value > 0.0)
      ensures ok ==> sub == Edited(old(sub), Edit(amount, Unset, Unset, Unset))
    {
      match amount {
        case Unset =>
        case Clear => sub := sub.(pendingAtomic := None, pendingXmr := None);
        case Set(x) =>
          if x <= 0.0 { return false; }
          sub := sub.(pendingAtomic := Some(ToAtomic(x)), pendingXmr := Some(x));
      }
      return true;
    }

    // -------------------------------------------------------------- prepayment

    method FindPlan(plans: seq<Plan>, periods: int) returns (plan: Option<Plan>)
      ensures plan == PlanFor(plans, periods)
    {
      for k := 0 to |plans|
        invariant PlanFor(plans, periods) == PlanFor(plans[k..], periods)
      {
        if plans[k].periods == periods {
          return Some(plans[k]);
        }
      }
      return None;
    }

    method CreatePrepayInvoice(periods: int, plans: seq<Plan>, wallet: Option<InvoiceId>, now: Time)
      returns (r: Result<InvoiceId, SubscriptionError>)
      requires Sound(sub)
      modifies this
      ensures match old(PrepayOpened(State(), periods, plans, wallet, now))
              case Ok(t) => State() == t && r.Ok? && Some(r.value) == wallet
              case Err(x) => State() == old(State()) && r == Err(x)
    {
      if sub.status !in {Active, PastDue} {
        return Err(StateError);
      }
      if sub.prepayInvoice.Some? {
        return Err(StateError);
      }
      if periods < 1 {
        return Err(ValidationError);
      }
      var plan := FindPlan(plans, periods);
      if plan.None? {
        return Err(ValidationError);
      }
      var discount := plan.value.discount;
      if discount < 0 || discount > 99 {
        return Err(ValidationError);
      }
      var price := PrepayAmount(sub.amountXmr, periods, discount);
      var expiresIn := Max(periods * sub.intervalDays * 86400, 86400);
      expiresIn := Min(expiresIn, 30 * 86400);
      if !S.ValidAmount(price.xmr) {
        return Err(ValidationError);
      }
      if wallet.None? {
        return Err(WalletError);
      }
      var v := wallet.value;
      bills := bills[v := Bill(Prepay(periods), S.Pending, now + expiresIn * SECOND)];
      var prepaidEnd := sub.nextDue + Interval(periods * sub.intervalDays);
      sub := sub.(prepayInvoice := Some(v));
      sub := sub.(prepaidUntil := Some(prepaidEnd));
      return Ok(v);
    }

    method HandlePrepayPayment(v: InvoiceId, periods: int)
      modifies this
      ensures State() == Fulfilled(old(State()), v, periods)
    {
      if exists i | 0 <= i < |rows| :: rows[i].invoice == v {
        if sub.prepayInvoice == Some(v) {
          sub := sub.(prepayInvoice := None);
        }
        return;
      }
      var currentStart := sub.nextDue;
      ghost var b := Interval(sub.intervalDays);
      var i := 0;
      assert rows + Block(v, currentStart, b, 0) == rows && skips + Zeros(0) == skips;
      while i < periods
        invariant 0 <= i <= Max(0, periods)
        invariant sub == old(sub) && bills == old(bills)
        invariant rows == old(rows) + Block(v, currentStart, b, i)
        invariant skips == old(skips) + Zeros(i)
      {
        var start := currentStart + Interval(i * sub.intervalDays);
        var end := currentStart + Interval((i + 1) * sub.intervalDays);
        BlockGrows(v, currentStart, b, i);
        IntervalTimes(i, sub.intervalDays);
        IntervalTimes(i + 1, sub.intervalDays);
        rows := rows + [Period(v, start, end)];
        skips := skips + [0];
        i := i + 1;
      }
      assert Block(v, currentStart, b, i) == Block(v, currentStart, b, periods) && Zeros(i) == Zeros(periods);
      var newNextDue := currentStart + Interval(periods * sub.intervalDays);
      sub := sub.(nextDue := newNextDue);
      sub := sub.(prepaidUntil := Some(newNextDue));
      sub := sub.(prepayInvoice := None);
      if sub.status == PastDue {
        sub := sub.(status := Active);
      }
    }

    method HandleSubscriptionPayment(v: InvoiceId)
      modifies this
      ensures State() == Hooked(old(State()), v)
    {
      if v !in bills {
        return;
      }
      match bills[v].kind
      case Prepay(periods) =>
        HandlePrepayPayment(v, periods);
        // The caller's own clearing of a reference still pointing here has nothing left to do.
        assert sub.prepayInvoice != Some(v);
      case Renewal =>
        if exists i | 0 <= i < |rows| :: rows[i].invoice == v {
          if sub.status == PastDue {
            var _ := MoveTo(Active);
          }
        }
    }
  }

  lemma LinkedStep(t: Timeline, k: int)
    requires 0 <= k < |t.rows|
    ensures var a, b := t.(rows := t.rows[..k]), t.(rows := t.rows[..k + 1]);
            forall v :: Linked(b, v) <==> Linked(a, v) || v == t.rows[k].invoice
  {
    var a, b := t.(rows := t.rows[..k]), t.(rows := t.rows[..k + 1]);
    forall v ensures Linked(b, v) <==> Linked(a, v) || v == t.rows[k].invoice {
      if Linked(a, v) {
        var i :| 0 <= i < |a.rows| && a.rows[i].invoice == v;
        assert b.rows[i].invoice == v;
      }
      if Linked(b, v) {
        var i :| 0 <= i < |b.rows| && b.rows[i].invoice == v;
        assert i < k ==> a.rows[i].invoice == v;
      }
      assert b.rows[k].invoice == t.rows[k].invoice;
    }
  }
}
