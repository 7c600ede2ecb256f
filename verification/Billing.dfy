/**
  The billing timeline of one subscription and what one step of the subscription services does to it.

  A `Timeline` is the subscription row, its linked period rows in the order they were added, the
  `skipped_periods` value logged with each of them (zero for a prepaid one), and the invoices made for it.
 */
module Billing {
  import opened Common
  import opened BillingAnchor
  import S = Settlement

  type InvoiceId = S.InvoiceId

  datatype SubStatus = Trialing | Active | Paused | PastDue | Cancelled | Expired

  datatype Subscription = Subscription(
    status: SubStatus,
    amountAtomic: int, amountXmr: real,
    intervalDays: int, graceSoft: int, graceHard: int,
    nextDue: Time, anchor: Time, trialEnd: Option<Time>,
    pendingAtomic: Option<int>, pendingXmr: Option<real>,
    pendingInterval: Option<int>, pendingSoft: Option<int>, pendingHard: Option<int>,
    prepayInvoice: Option<InvoiceId>, prepaidUntil: Option<Time>)

  datatype Kind = Renewal | Prepay(periods: int)

  datatype Bill = Bill(kind: Kind, status: S.InvoiceStatus, expiresAt: Time)

  datatype Period = Period(invoice: InvoiceId, start: Time, end: Time)

  datatype Timeline = Timeline(
    sub: Subscription, rows: seq<Period>, skips: seq<int>, bills: map<InvoiceId, Bill>)

  datatype Outcome = Renewed | SkippedIdempotent | SkippedUnpaid | FailedWallet | FailedValidation | FailedDatabase

  datatype SubscriptionError = StateError | ValidationError | WalletError | DatabaseError

  predicate IsTerminal(status: SubStatus) {
    status.Cancelled? || status.Expired?
  }

  predicate CanTransition(from: SubStatus, to: SubStatus) {
    match from
    case Active => to in {Paused, PastDue, SubStatus.Cancelled}
    case Paused => to in {Active, SubStatus.Cancelled}
    case PastDue => to in {Active, SubStatus.Expired, SubStatus.Cancelled}
    case Trialing => to in {Active, SubStatus.Cancelled}
    case Cancelled => false
    case Expired => false
  }

  /**
    The table in one sentence: a live subscription can be cancelled; one on trial, paused or past due can
    become active; an active one paused or past due; and a past-due one expired.
   */
  lemma TransitionsIff(from: SubStatus, to: SubStatus)
    ensures CanTransition(from, to) <==>
              || (to.Cancelled? && !from.Cancelled? && !from.Expired?)
              || (to.Active? && (from.Trialing? || from.Paused? || from.PastDue?))
              || ((to.Paused? || to.PastDue?) && from.Active?)
              || (to.Expired? && from.PastDue?)
  {
  }

  /** Every change of a subscription's status goes through the table above. */
  method TransitionStatus(sub: Subscription, to: SubStatus) returns (r: Result<Subscription, SubscriptionError>)
    ensures r == if sub.status == to || CanTransition(sub.status, to) then Ok(sub.(status := to)) else Err(StateError)
  {
    if sub.status == to {
      return Ok(sub);
    }
    if !CanTransition(sub.status, to) {
      return Err(StateError);
    }
    return Ok(sub.(status := to));
  }

  predicate IsUnpaid(status: S.InvoiceStatus) {
    status.Pending? || status.PartiallyPaid?
  }

  /**
    Amounts come in pairs and are positive, the current one also in whole piconero, as the table's
    CHECK constraint demands; intervals are at least a day.
   */
  predicate Sound(sub: Subscription) {
    && sub.intervalDays >= 1
    && (sub.pendingInterval.Some? ==> sub.pendingInterval.value >= 1)
    && sub.amountXmr > 0.0 && sub.amountAtomic == ToAtomic(sub.amountXmr) && Storable(sub)
    && (sub.pendingAtomic.Some? <==> sub.pendingXmr.Some?)
    && (sub.pendingXmr.Some? ==>
          sub.pendingXmr.value > 0.0 && sub.pendingAtomic.value == ToAtomic(sub.pendingXmr.value))
  }

  /** The database refuses a row with another amount. */
  predicate Storable(sub: Subscription) {
    sub.amountAtomic > 0
  }

  // ---------------------------------------------------------------- pending changes

  function Or<T>(pending: Option<T>, current: T): T {
    if pending.Some? then pending.value else current
  }

  /** The subscription with every pending change moved into its current fields. */
  function Applied(sub: Subscription): (sub': Subscription)
    ensures Sound(sub) && Storable(sub') ==> Sound(sub')
  {
    sub.(amountAtomic := Or(sub.pendingAtomic, sub.amountAtomic),
         amountXmr := if sub.pendingAtomic.Some? then Or(sub.pendingXmr, sub.amountXmr) else sub.amountXmr,
         intervalDays := Or(sub.pendingInterval, sub.intervalDays),
         graceSoft := Or(sub.pendingSoft, sub.graceSoft),
         graceHard := Or(sub.pendingHard, sub.graceHard),
         pendingAtomic := None,
         pendingXmr := if sub.pendingAtomic.Some? then None else sub.pendingXmr,
         pendingInterval := None, pendingSoft := None, pendingHard := None)
  }

  // ---------------------------------------------------------------- renewal

  predicate AlreadyBilled(t: Timeline) {
    exists i | 0 <= i < |t.rows| :: t.rows[i].start == t.sub.nextDue
  }

  predicate HasUnpaidRow(t: Timeline) {
    exists i | 0 <= i < |t.rows| :: t.rows[i].invoice in t.bills && IsUnpaid(t.bills[t.rows[i].invoice].status)
  }

  function GraceSeconds(sub: Subscription): int {
    (sub.graceSoft + sub.graceHard) * 86400
  }

  /** The invoice service accepts the amount and the lifetime of the renewal invoice. */
  predicate Billable(sub: Subscription) {
    S.ValidAmount(sub.amountXmr) && Max(GraceSeconds(sub), S.EXPIRES_IN_MIN) <= S.EXPIRES_IN_MAX
  }

  function RenewalOutcome(t: Timeline, wallet: Option<InvoiceId>): Outcome {
    if AlreadyBilled(t) then SkippedIdempotent
    else if HasUnpaidRow(t) then SkippedUnpaid
    else if !Storable(Applied(t.sub)) then FailedDatabase
    else if !Billable(Applied(t.sub)) then FailedValidation
    else if wallet.None? then FailedWallet
    else Renewed
  }

  /**
    Creating the renewal invoice.  Pending changes stay applied when the invoice cannot be made,
    unless the database refuses them: then the transaction is rolled back.
   */
  function WithRenewal(t: Timeline, wallet: Option<InvoiceId>, now: Time): (t': Timeline)
    requires Sound(t.sub)
    ensures Sound(t'.sub) && t'.sub.anchor == t.sub.anchor && t'.sub.trialEnd == t.sub.trialEnd
  {
    match RenewalOutcome(t, wallet)
    case SkippedIdempotent => t
    case SkippedUnpaid => t
    case FailedDatabase => t
    case FailedValidation => t.(sub := Applied(t.sub))
    case FailedWallet => t.(sub := Applied(t.sub))
    case Renewed =>
      var sub := Applied(t.sub);
      var next := NextDue(sub.anchor, sub.intervalDays, now);
      t.(sub := sub.(nextDue := next),
         rows := t.rows + [Period(wallet.value, sub.nextDue, sub.nextDue + Interval(sub.intervalDays))],
         skips := t.skips + [SkippedPeriods(sub.nextDue, next, sub.intervalDays)],
         bills := t.bills[wallet.value := Bill(Renewal, S.Pending,
                                               now + Max(GraceSeconds(sub), S.EXPIRES_IN_MIN) * SECOND)])
  }

  // ---------------------------------------------------------------- the prepay guard

  function PrepayCleared(sub: Subscription): Subscription {
    sub.(prepayInvoice := None, prepaidUntil := None)
  }

  predicate GuardHolds(t: Timeline) {
    && t.sub.prepayInvoice.Some?
    && var v := t.sub.prepayInvoice.value;
    && v in t.bills
    && (t.bills[v].status.Pending? || S.IsSettled(t.bills[v].status))
  }

  function Guarded(t: Timeline): Timeline {
    if t.sub.prepayInvoice.None? || GuardHolds(t) then t else t.(sub := PrepayCleared(t.sub))
  }

  predicate IsDue(sub: Subscription, queryAt: Time) {
    sub.status.Active? && sub.nextDue <= queryAt
  }

  /** One subscription of the renewal sweep: due query, prepay guard, renewal; nothing if the database refuses. */
  function Swept(t: Timeline, queryAt: Time, wallet: Option<InvoiceId>, now: Time): Timeline
    requires Sound(t.sub)
  {
    if !IsDue(t.sub, queryAt) || GuardHolds(t) || RenewalOutcome(Guarded(t), wallet).FailedDatabase? then t
    else WithRenewal(Guarded(t), wallet, now)
  }

  function TrialEnded(t: Timeline, queryAt: Time, setAt: Time, wallet: Option<InvoiceId>, now: Time): Timeline
    requires Sound(t.sub)
  {
    var t1 := t.(sub := t.sub.(status := Active, nextDue := setAt));
    if !(t.sub.status.Trialing? && t.sub.trialEnd.Some? && t.sub.trialEnd.value <= queryAt)
       || RenewalOutcome(t1, wallet).FailedDatabase? then t
    else WithRenewal(t1, wallet, now)
  }

  // ---------------------------------------------------------------- merchant actions

  function Stopped(t: Timeline): Timeline {
    if t.sub.status.Active? then t.(sub := t.sub.(status := Paused)) else t
  }

  function Resumed(t: Timeline, now: Time): Timeline {
    if t.sub.status.Paused? then t.(sub := t.sub.(status := Active, nextDue := Max(t.sub.nextDue, now))) else t
  }

  /** `refused` are the invoices that have payments, which the invoice service does not cancel. */
  function Ended(t: Timeline, refused: set<InvoiceId>): Timeline {
    if IsTerminal(t.sub.status) then t
    else t.(sub := t.sub.(status := SubStatus.Cancelled),
            bills := map v | v in t.bills ::
                       if Linked(t, v) && t.bills[v].status.Pending? && v !in refused
                       then t.bills[v].(status := S.Cancelled) else t.bills[v])
  }

  predicate Linked(t: Timeline, v: InvoiceId) {
    exists i | 0 <= i < |t.rows| :: t.rows[i].invoice == v
  }

  // ---------------------------------------------------------------- prepayment

  /** `n` consecutive periods from `start`, all on invoice `v`. */
  function Block(v: InvoiceId, start: Time, interval: Time, n: int): (b: seq<Period>)
    ensures |b| == Max(0, n)
    ensures forall i :: 0 <= i < |b| ==> b[i] == Period(v, start + i * interval, start + (i + 1) * interval)
  {
    seq(Max(0, n), i => Period(v, start + i * interval, start + (i + 1) * interval))
  }

  function Zeros(n: int): (z: seq<int>)
    ensures |z| == Max(0, n) && forall i :: 0 <= i < |z| ==> z[i] == 0
  {
    seq(Max(0, n), i => 0)
  }

  function WithPrepay(t: Timeline, v: InvoiceId, periods: int, expiresAt: Time): Timeline {
    t.(sub := t.sub.(prepayInvoice := Some(v),
                     prepaidUntil := Some(t.sub.nextDue + Interval(periods * t.sub.intervalDays))),
       bills := t.bills[v := Bill(Prepay(periods), S.Pending, expiresAt)])
  }

  /** Fulfilling a paid prepay invoice, or recognising that it was fulfilled before. */
  function Fulfilled(t: Timeline, v: InvoiceId, periods: int): Timeline {
    if Linked(t, v) then
      if t.sub.prepayInvoice == Some(v) then t.(sub := t.sub.(prepayInvoice := None)) else t
    else
      var next := t.sub.nextDue + Interval(periods * t.sub.intervalDays);
      t.(sub := t.sub.(nextDue := next, prepaidUntil := Some(next), prepayInvoice := None,
                       status := if t.sub.status.PastDue? then Active else t.sub.status),
         rows := t.rows + Block(v, t.sub.nextDue, Interval(t.sub.intervalDays), periods),
         skips := t.skips + Zeros(periods))
  }

  /** The hook the payment service calls when an invoice becomes settled. */
  function Hooked(t: Timeline, v: InvoiceId): Timeline {
    if v !in t.bills then t
    else match t.bills[v].kind
      case Prepay(n) => Fulfilled(t, v, n)
      case Renewal => if Linked(t, v) && t.sub.status.PastDue? then t.(sub := t.sub.(status := Active)) else t
  }

  // ---------------------------------------------------------------- grace

  predicate SoftBreach(t: Timeline, now: Time) {
    exists i | 0 <= i < |t.rows| ::
      && t.rows[i].invoice in t.bills && IsUnpaid(t.bills[t.rows[i].invoice].status)
      && t.rows[i].start + t.sub.graceSoft * DAY < now
  }

  predicate HardBreach(t: Timeline, now: Time) {
    exists i | 0 <= i < |t.rows| ::
      && t.rows[i].invoice in t.bills && IsUnpaid(t.bills[t.rows[i].invoice].status)
      && t.rows[i].start + t.sub.graceHard * DAY < now
      && t.bills[t.rows[i].invoice].expiresAt <= now
  }

  predicate HasPaidRow(t: Timeline) {
    exists i | 0 <= i < |t.rows| :: t.rows[i].invoice in t.bills && S.IsSettled(t.bills[t.rows[i].invoice].status)
  }

  /** What a grace pass decides about one subscription. */
  function GraceDecision(t: Timeline, now: Time): SubStatus {
    if t.sub.status.PastDue? || (t.sub.status.Active? && SoftBreach(t, now)) then
      if HardBreach(t, now) then SubStatus.Expired
      else if HasPaidRow(t) then Active
      else PastDue
    else t.sub.status
  }

  function Graced(t: Timeline, now: Time): Timeline {
    t.(sub := t.sub.(status := GraceDecision(t, now)))
  }

  // ---------------------------------------------------------------- edits

  datatype Field<+T> = Unset | Clear | Set(value: T)

  datatype Edit = Edit(amount: Field<real>, interval: Field<int>, soft: Field<int>, hard: Field<int>)

  predicate ValidEdit(e: Edit) {
    && (e.amount.Set? ==> e.amount.value > 0.0)
    && (e.interval.Set? ==> e.interval.value >= 1)
    && (e.soft.Set? ==> e.soft.value >= 0)
    && (e.hard.Set? ==> e.hard.value >= 0)
  }

  function Merge<T>(f: Field<T>, pending: Option<T>): Option<T> {
    match f
    case Unset => pending
    case Clear => None
    case Set(v) => Some(v)
  }

  function Edited(sub: Subscription, e: Edit): (sub': Subscription)
    requires ValidEdit(e)
    ensures Sound(sub) ==> Sound(sub')
  {
    sub.(pendingAtomic := (match e.amount
                           case Unset => sub.pendingAtomic
                           case Clear => None
                           case Set(x) => Some(ToAtomic(x))),
         pendingXmr := Merge(e.amount, sub.pendingXmr),
         pendingInterval := Merge(e.interval, sub.pendingInterval),
         pendingSoft := Merge(e.soft, sub.pendingSoft),
         pendingHard := Merge(e.hard, sub.pendingHard))
  }

  predicate EffectiveOrder(sub: Subscription) {
    Or(sub.pendingHard, sub.graceHard) >= Or(sub.pendingSoft, sub.graceSoft)
  }

  /** What a PATCH commits: a rejected one is rolled back. */
  function Patched(sub: Subscription, e: Edit): Result<Subscription, SubscriptionError> {
    if IsTerminal(sub.status) then Err(StateError)
    else if !ValidEdit(e) || !EffectiveOrder(Edited(sub, e)) then Err(ValidationError)
    else Ok(Edited(sub, e))
  }
}
