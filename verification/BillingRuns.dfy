/**
  Safety of the billing timeline over every run: due dates never move back, no period is billed
  twice, and a prepayment is fulfilled exactly once.
 */
module BillingRuns {
  import opened Common
  import opened BillingAnchor
  import opened Billing
  import opened PrepayPrice
  import S = Settlement

  datatype Action =
    | Sweep(queryAt: Time, wallet: Option<InvoiceId>, now: Time)
    | EndTrial(queryAt: Time, setAt: Time, wallet: Option<InvoiceId>, now: Time)
    | Pause
    | Resume(now: Time)
    | End(refused: set<InvoiceId>)
    | Patch(edit: Edit)
    | OpenPrepay(periods: int, plans: seq<Plan>, wallet: Option<InvoiceId>, now: Time)
    | Hook(v: InvoiceId)
    | BillsMove(statuses: map<InvoiceId, S.InvoiceStatus>)
    | Grace(now: Time)

  predicate Fresh(t: Timeline, wallet: Option<InvoiceId>) {
    wallet.Some? ==> wallet.value !in t.bills
  }

  /** Each reading of the clock is later than the one before; invoice ids are new. */
  predicate Legal(t: Timeline, a: Action) {
    match a
    case Sweep(queryAt, wallet, now) => queryAt < now && Fresh(t, wallet)
    case EndTrial(queryAt, setAt, wallet, now) => queryAt < setAt < now && Fresh(t, wallet)
    case OpenPrepay(_, _, wallet, _) => Fresh(t, wallet)
    case _ => true
  }

  function Next(t: Timeline, a: Action): (t': Timeline)
    requires Sound(t.sub)
    ensures Sound(t'.sub)
    ensures t'.sub.anchor == t.sub.anchor && t'.sub.trialEnd == t.sub.trialEnd
  {
    match a
    case Sweep(queryAt, wallet, now) => Swept(t, queryAt, wallet, now)
    case EndTrial(queryAt, setAt, wallet, now) => TrialEnded(t, queryAt, setAt, wallet, now)
    case Pause => Stopped(t)
    case Resume(now) => Resumed(t, now)
    case End(refused) => Ended(t, refused)
    case Patch(edit) => (match Patched(t.sub, edit) case Ok(sub) => t.(sub := sub) case Err(_) => t)
    case OpenPrepay(periods, plans, wallet, now) =>
      (match PrepayOpened(t, periods, plans, wallet, now) case Ok(t') => t' case Err(_) => t)
    case Hook(v) => Hooked(t, v)
    case BillsMove(statuses) => Moved(t, statuses)
    case Grace(now) => Graced(t, now)
  }

  /** The invoices of the subscription change their statuses. */
  function Moved(t: Timeline, statuses: map<InvoiceId, S.InvoiceStatus>): Timeline {
    t.(bills := map v | v in t.bills :: if v in statuses then t.bills[v].(status := statuses[v]) else t.bills[v])
  }

  function Run(t: Timeline, actions: seq<Action>): (t': Timeline)
    requires Sound(t.sub)
    ensures Sound(t'.sub)
    decreases |actions|
  {
    if actions == [] then t else Run(Next(t, actions[0]), actions[1..])
  }

  predicate LegalRun(t: Timeline, actions: seq<Action>)
    requires Sound(t.sub)
    decreases |actions|
  {
    actions == [] || (Legal(t, actions[0]) && LegalRun(Next(t, actions[0]), actions[1..]))
  }

  /** Same price, interval and grace, current and pending. */
  predicate SameTerms(a: Subscription, b: Subscription) {
    && a.amountAtomic == b.amountAtomic && a.amountXmr == b.amountXmr && a.intervalDays == b.intervalDays
    && a.graceSoft == b.graceSoft && a.graceHard == b.graceHard
    && a.pendingAtomic == b.pendingAtomic && a.pendingXmr == b.pendingXmr && a.pendingInterval == b.pendingInterval
    && a.pendingSoft == b.pendingSoft && a.pendingHard == b.pendingHard
  }

  /** Terms change by editing, and by the renewals that apply the edits. */
  lemma StepKeepsTerms(t: Timeline, a: Action)
    requires Sound(t.sub) && !a.Sweep? && !a.EndTrial? && !a.Patch?
    ensures SameTerms(t.sub, Next(t, a).sub)
  {
    match a
    case Hook(_) =>
    case Pause =>
    case Resume(_) =>
    case End(_) =>
    case OpenPrepay(_, _, _, _) =>
    case BillsMove(_) =>
    case Grace(_) =>
  }

  // ---------------------------------------------------------------- creation

  datatype Request = Request(
    amount: real, interval: int, soft: int, hard: int, startAt: Option<Time>, trialDays: Option<int>)

  predicate ValidRequest(r: Request) {
    r.amount > 0.0 && r.interval >= 1 && 0 <= r.soft <= r.hard
  }

  /** The new row meets the CHECK constraint on amounts. */
  predicate StorableRequest(r: Request)
    requires ValidRequest(r)
  {
    ToAtomic(r.amount) > 0
  }

  function IsTrial(r: Request): bool {
    r.trialDays.Some? && r.trialDays.value > 0
  }

  function Blank(r: Request, at: Time): Subscription
    requires ValidRequest(r)
  {
    var start := Or(r.startAt, at);
    var trialEnd := if IsTrial(r) then Some(at + r.trialDays.value * DAY) else None;
    Subscription(if IsTrial(r) then Trialing else Active, ToAtomic(r.amount), r.amount, r.interval, r.soft, r.hard,
                 if IsTrial(r) then trialEnd.value else start, start, trialEnd,
                 None, None, None, None, None, None, None)
  }

  /** Creation at time `at`, with a first invoice made at `now` when the subscription is due at once. */
  function Subscribed(r: Request, at: Time, wallet: Option<InvoiceId>, now: Time)
    : (result: Result<Timeline, SubscriptionError>)
    ensures result.Ok? ==> Sound(result.value.sub)
  {
    if !ValidRequest(r) then Err(ValidationError)
    else if !StorableRequest(r) then Err(DatabaseError)
    else
      var t := Timeline(Blank(r, at), [], [], map[]);
      if IsTrial(r) || at < Or(r.startAt, at) then Ok(t)
      else if RenewalOutcome(t, wallet).FailedValidation? then Err(ValidationError)
      else Ok(WithRenewal(t, wallet, now))
  }

  // ---------------------------------------------------------------- the invariant

  /** Period starts increase strictly and all lie before the due date. */
  predicate Ordered(t: Timeline) {
    && |t.skips| == |t.rows|
    && (forall i, j | 0 <= i < j < |t.rows| :: t.rows[i].start < t.rows[j].start)
    && (forall i | 0 <= i < |t.rows| :: t.rows[i].start < t.sub.nextDue && t.rows[i].start < t.rows[i].end)
  }

  function RowsOf(rows: seq<Period>, v: InvoiceId): seq<Period> {
    if rows == [] then []
    else
      var last := rows[|rows| - 1];
      RowsOf(rows[..|rows| - 1], v) + if last.invoice == v then [last] else []
  }

  predicate IsBlock(rows: seq<Period>, v: InvoiceId, start: Time, interval: Time, n: int) {
    interval > 0 && n >= 1 && rows == Block(v, start, interval, n)
  }

  /** A prepay invoice has no period rows, or exactly its `n` contiguous ones; another has at most one. */
  ghost predicate BillOk(t: Timeline, v: InvoiceId) {
    var own := RowsOf(t.rows, v);
    if v !in t.bills then own == []
    else match t.bills[v].kind
      case Renewal => |own| <= 1
      case Prepay(n) => n >= 1 && (own == [] || exists start, interval :: IsBlock(own, v, start, interval, n))
  }

  predicate TrialOk(t: Timeline) {
    t.sub.status.Trialing? ==>
      t.sub.trialEnd == Some(t.sub.nextDue) && t.rows == [] && t.bills == map[]
  }

  predicate PrepayOk(t: Timeline) {
    t.sub.prepayInvoice.Some? ==>
      t.sub.prepayInvoice.value in t.bills && t.bills[t.sub.prepayInvoice.value].kind.Prepay?
  }

  ghost predicate Inv(t: Timeline) {
    && Sound(t.sub) && Ordered(t) && TrialOk(t) && PrepayOk(t)
    && forall v :: BillOk(t, v)
  }

  // ---------------------------------------------------------------- rows of one invoice

  lemma {:induction false} RowsOfConcat(a: seq<Period>, b: seq<Period>, v: InvoiceId)
    ensures RowsOf(a + b, v) == RowsOf(a, v) + RowsOf(b, v)
    decreases |b|
  {
    if b == [] {
      assert a + b == a;
    } else {
      assert (a + b)[..|a + b| - 1] == a + b[..|b| - 1];
      RowsOfConcat(a, b[..|b| - 1], v);
    }
  }

  /** A longer block is a shorter one and its last period. */
  lemma BlockGrows(v: InvoiceId, start: Time, interval: Time, n: nat)
    ensures Block(v, start, interval, n + 1)
         == Block(v, start, interval, n) + [Period(v, start + n * interval, start + (n + 1) * interval)]
    ensures Zeros(n + 1) == Zeros(n) + [0]
  {
  }

  /** An invoice that had no rows has exactly the block that is appended for it. */
  lemma RowsOfBlock(rows: seq<Period>, v: InvoiceId, start: Time, interval: Time, n: int)
    requires RowsOf(rows, v) == []
    ensures RowsOf(rows + Block(v, start, interval, n), v) == Block(v, start, interval, n)
  {
    var block := Block(v, start, interval, n);
    RowsOfConcat(rows, block, v);
    RowsOfOneInvoice(block, v, v);
    assert [] + block == block;
  }

  lemma {:induction false} RowsOfOneInvoice(b: seq<Period>, u: InvoiceId, v: InvoiceId)
    requires forall i :: 0 <= i < |b| ==> b[i].invoice == u
    ensures RowsOf(b, v) == if u == v then b else []
    decreases |b|
  {
    if b != [] {
      RowsOfOneInvoice(b[..|b| - 1], u, v);
      assert b == b[..|b| - 1] + [b[|b| - 1]];
    }
  }

  lemma {:induction false} RowsOfLinked(t: Timeline, v: InvoiceId)
    ensures Linked(t, v) <==> RowsOf(t.rows, v) != []
    decreases |t.rows|
  {
    if t.rows != [] {
      var init := t.(rows := t.rows[..|t.rows| - 1]);
      RowsOfLinked(init, v);
      if Linked(t, v) {
        var i :| 0 <= i < |t.rows| && t.rows[i].invoice == v;
        assert i < |init.rows| ==> init.rows[i].invoice == v;
      }
      if Linked(init, v) {
        var i :| 0 <= i < |init.rows| && init.rows[i].invoice == v;
        assert t.rows[i].invoice == v;
      }
    }
  }

  // ---------------------------------------------------------------- renewal

  /** The renewal's idempotency check never fires: the due period has no row yet. */
  lemma DuePeriodIsUnbilled(t: Timeline)
    requires Ordered(t)
    ensures !AlreadyBilled(t)
  {
  }

  lemma RenewalMovesForward(t: Timeline, wallet: Option<InvoiceId>, now: Time)
    requires Sound(t.sub) && t.sub.nextDue < now
    ensures WithRenewal(t, wallet, now).sub.nextDue >= t.sub.nextDue
    ensures RenewalOutcome(t, wallet).Renewed? ==> WithRenewal(t, wallet, now).sub.nextDue >= now
  {
    var sub := Applied(t.sub);
    var _ := NextDueIsLeast(sub.anchor, sub.intervalDays, now);
  }

  lemma RenewalKeepsInv(t: Timeline, wallet: Option<InvoiceId>, now: Time)
    requires Inv(t) && Fresh(t, wallet) && t.sub.nextDue < now && !t.sub.status.Trialing?
    ensures Inv(WithRenewal(t, wallet, now))
  {
    var t' := WithRenewal(t, wallet, now);
    RenewalMovesForward(t, wallet, now);
    if RenewalOutcome(t, wallet).Renewed? {
      RenewedIsOrdered(t, wallet, now);
      forall v ensures BillOk(t', v) { RenewedBillOk(t, wallet, now, v); }
    } else {
      RowsFrame(t, t');
    }
  }

  lemma RenewedBillOk(t: Timeline, wallet: Option<InvoiceId>, now: Time, v: InvoiceId)
    requires Sound(t.sub) && Fresh(t, wallet) && RenewalOutcome(t, wallet).Renewed?
    requires BillOk(t, v) && BillOk(t, wallet.value)
    ensures BillOk(WithRenewal(t, wallet, now), v)
  {
    var row := WithRenewal(t, wallet, now).rows[|t.rows|];
    assert WithRenewal(t, wallet, now).rows == t.rows + [row];
    RowsOfConcat(t.rows, [row], v);
    RowsOfOneInvoice([row], wallet.value, v);
    assert RowsOf(t.rows, v) + [] == RowsOf(t.rows, v);
  }

  lemma RenewedIsOrdered(t: Timeline, wallet: Option<InvoiceId>, now: Time)
    requires Sound(t.sub) && Ordered(t) && t.sub.nextDue < now
    ensures Ordered(WithRenewal(t, wallet, now))
  {
    RenewalMovesForward(t, wallet, now);
  }

  // ---------------------------------------------------------------- prepayment

  lemma FulfilledIsOrdered(t: Timeline, v: InvoiceId, n: int)
    requires Sound(t.sub) && Ordered(t) && n >= 1
    ensures Ordered(Fulfilled(t, v, n))
    ensures Fulfilled(t, v, n).sub.nextDue >= t.sub.nextDue
  {
    var t' := Fulfilled(t, v, n);
    if !Linked(t, v) {
      var b := Interval(t.sub.intervalDays);
      var block := Block(v, t.sub.nextDue, b, n);
      var m := |t.rows|;
      assert Interval(n * t.sub.intervalDays) == n * b;
      forall i | 0 <= i < n ensures block[i].start < t.sub.nextDue + n * b && block[i].start < block[i].end
                            ensures block[i].start >= t.sub.nextDue {
        MulMonotone(i + 1, n, b);
        MulMonotone(0, i, b);
        assert (i + 1) * b == i * b + b;
      }
      forall i, j | 0 <= i < j < n ensures block[i].start < block[j].start {
        MulMonotone(i + 1, j, b);
        assert (i + 1) * b == i * b + b;
      }
      MulMonotone(1, n, b);
      forall i, j | 0 <= i < j < |t'.rows| ensures t'.rows[i].start < t'.rows[j].start {
        if i < m && j >= m { assert t'.rows[j] == block[j - m]; }
        if i >= m { assert t'.rows[i] == block[i - m] && t'.rows[j] == block[j - m]; }
      }
      forall i | 0 <= i < |t'.rows| ensures t'.rows[i].start < t'.sub.nextDue && t'.rows[i].start < t'.rows[i].end {
        if i >= m { assert t'.rows[i] == block[i - m]; }
      }
    }
  }

  lemma FulfilledKeepsInv(t: Timeline, v: InvoiceId)
    requires Inv(t) && v in t.bills && t.bills[v].kind.Prepay?
    ensures Inv(Fulfilled(t, v, t.bills[v].kind.periods))
  {
    var n := t.bills[v].kind.periods;
    var t' := Fulfilled(t, v, n);
    assert BillOk(t, v);
    FulfilledIsOrdered(t, v, n);
    if Linked(t, v) {
      forall u ensures BillOk(t', u) { assert BillOk(t, u); }
    } else {
      var block := Block(v, t.sub.nextDue, Interval(t.sub.intervalDays), n);
      forall u ensures BillOk(t', u) {
        assert BillOk(t, u);
        RowsOfLinked(t, v);
        RowsOfConcat(t.rows, block, u);
        RowsOfOneInvoice(block, v, u);
        assert RowsOf(t.rows, u) + [] == RowsOf(t.rows, u);
        if u == v {
          assert RowsOf(t'.rows, v) == block;
          assert IsBlock(RowsOf(t'.rows, v), v, t.sub.nextDue, Interval(t.sub.intervalDays), n);
        }
      }
    }
  }

  // ---------------------------------------------------------------- every step

  /** Changing subscription fields other than the due date keeps the books. */
  lemma RowsFrame(t: Timeline, t': Timeline)
    requires Inv(t) && t'.rows == t.rows && t'.skips == t.skips
    requires forall v :: v in t.bills ==> v in t'.bills && t'.bills[v].kind == t.bills[v].kind
    requires forall v :: v in t'.bills && v !in t.bills ==> t'.bills[v].kind.Prepay? && t'.bills[v].kind.periods >= 1
    requires t'.sub.nextDue >= t.sub.nextDue
    ensures Ordered(t') && forall v :: BillOk(t', v)
  {
    forall v ensures BillOk(t', v) { assert BillOk(t, v); }
  }

  /** Steps that neither bill nor fulfil. */
  predicate IsQuiet(a: Action) {
    !a.Sweep? && !a.EndTrial? && !a.Hook?
  }

  lemma QuietStepKeepsRows(t: Timeline, a: Action)
    requires Sound(t.sub) && Legal(t, a) && IsQuiet(a)
    ensures var t' := Next(t, a);
            && t'.rows == t.rows && t'.skips == t.skips && t'.sub.nextDue >= t.sub.nextDue
            && (forall v :: v in t.bills ==> v in t'.bills && t'.bills[v].kind == t.bills[v].kind)
            && (forall v :: v in t'.bills && v !in t.bills ==>
                  t'.bills[v].kind.Prepay? && t'.bills[v].kind.periods >= 1)
            && (PrepayOk(t) ==> PrepayOk(t'))
            && (TrialOk(t) ==> TrialOk(t'))
  {
    match a
    case Pause =>
    case Resume(_) =>
    case End(_) =>
    case Patch(_) =>
    case OpenPrepay(_, _, _, _) =>
    case BillsMove(_) =>
    case Grace(_) =>
  }

  lemma SweepKeepsInv(t: Timeline, queryAt: Time, wallet: Option<InvoiceId>, now: Time)
    requires Inv(t) && queryAt < now && Fresh(t, wallet)
    ensures Inv(Swept(t, queryAt, wallet, now)) && Swept(t, queryAt, wallet, now).sub.nextDue >= t.sub.nextDue
  {
    if IsDue(t.sub, queryAt) && !GuardHolds(t) {
      RowsFrame(t, Guarded(t));
      RenewalMovesForward(Guarded(t), wallet, now);
      RenewalKeepsInv(Guarded(t), wallet, now);
    }
  }

  lemma TrialEndKeepsInv(t: Timeline, queryAt: Time, setAt: Time, wallet: Option<InvoiceId>, now: Time)
    requires Inv(t) && queryAt < setAt < now && Fresh(t, wallet)
    ensures Inv(TrialEnded(t, queryAt, setAt, wallet, now))
    ensures TrialEnded(t, queryAt, setAt, wallet, now).sub.nextDue >= t.sub.nextDue
  {
    if t.sub.status.Trialing? && t.sub.trialEnd.value <= queryAt {
      var t1 := t.(sub := t.sub.(status := Active, nextDue := setAt));
      RowsFrame(t, t1);
      RenewalMovesForward(t1, wallet, now);
      RenewalKeepsInv(t1, wallet, now);
    }
  }

  lemma HookKeepsInv(t: Timeline, v: InvoiceId)
    requires Inv(t)
    ensures Inv(Hooked(t, v)) && Hooked(t, v).sub.nextDue >= t.sub.nextDue
  {
    if v in t.bills && t.bills[v].kind.Prepay? {
      assert BillOk(t, v);
      FulfilledKeepsInv(t, v);
      FulfilledIsOrdered(t, v, t.bills[v].kind.periods);
    } else {
      RowsFrame(t, Hooked(t, v));
    }
  }

  lemma StepKeepsInv(t: Timeline, a: Action)
    requires Inv(t) && Legal(t, a)
    ensures Inv(Next(t, a))
    ensures Next(t, a).sub.nextDue >= t.sub.nextDue
  {
    if IsQuiet(a) {
      QuietStepKeepsRows(t, a);
      RowsFrame(t, Next(t, a));
    } else {
      match a
      case Sweep(queryAt, wallet, now) => SweepKeepsInv(t, queryAt, wallet, now);
      case EndTrial(queryAt, setAt, wallet, now) => TrialEndKeepsInv(t, queryAt, setAt, wallet, now);
      case Hook(v) => HookKeepsInv(t, v);
    }
  }

  lemma {:induction false} RunKeepsInv(t: Timeline, actions: seq<Action>)
    requires Inv(t) && LegalRun(t, actions)
    ensures Inv(Run(t, actions))
    ensures Run(t, actions).sub.nextDue >= t.sub.nextDue
    decreases |actions|
  {
    if actions != [] {
      StepKeepsInv(t, actions[0]);
      RunKeepsInv(Next(t, actions[0]), actions[1..]);
    }
  }

  lemma RunFirst(t: Timeline, a: Action, rest: seq<Action>)
    requires Sound(t.sub)
    ensures Run(t, [a] + rest) == Run(Next(t, a), rest)
    ensures LegalRun(t, [a] + rest) <==> Legal(t, a) && LegalRun(Next(t, a), rest)
  {
    assert ([a] + rest)[1..] == rest;
  }

  lemma {:induction false} RunConcat(t: Timeline, a: seq<Action>, b: seq<Action>)
    requires Sound(t.sub)
    ensures Run(t, a + b) == Run(Run(t, a), b)
    ensures LegalRun(t, a + b) <==> LegalRun(t, a) && LegalRun(Run(t, a), b)
    decreases |a|
  {
    if a == [] {
      assert a + b == b;
    } else {
      assert (a + b)[1..] == a[1..] + b;
      RunConcat(Next(t, a[0]), a[1..], b);
    }
  }

  lemma SubscribedInv(r: Request, at: Time, wallet: Option<InvoiceId>, now: Time)
    requires at < now && Subscribed(r, at, wallet, now).Ok?
    ensures Inv(Subscribed(r, at, wallet, now).value)
  {
    var t := Timeline(Blank(r, at), [], [], map[]);
    assert Inv(t);
    if !IsTrial(r) && Or(r.startAt, at) <= at {
      RenewalKeepsInv(t, wallet, now);
    }
  }

  /** The timeline of a subscription created by `r` after the run `actions`. */
  function History(r: Request, at: Time, wallet: Option<InvoiceId>, now: Time, actions: seq<Action>): (t: Timeline)
    requires at < now && Subscribed(r, at, wallet, now).Ok?
    ensures Sound(t.sub)
  {
    Run(Subscribed(r, at, wallet, now).value, actions)
  }

  predicate LegalHistory(r: Request, at: Time, wallet: Option<InvoiceId>, now: Time, actions: seq<Action>) {
    && at < now && Subscribed(r, at, wallet, now).Ok?
    && LegalRun(Subscribed(r, at, wallet, now).value, actions)
  }

  lemma HistoryInv(r: Request, at: Time, wallet: Option<InvoiceId>, now: Time, actions: seq<Action>)
    requires LegalHistory(r, at, wallet, now, actions)
    ensures Inv(History(r, at, wallet, now, actions))
  {
    SubscribedInv(r, at, wallet, now);
    RunKeepsInv(Subscribed(r, at, wallet, now).value, actions);
  }

  /**
    No double billing.  In every run of a subscription, however renewals, trial ends, pauses, edits,
    prepayments, payment hooks and grace passes interleave, no two period rows start at the same
    time, the due date is after all of them, and whatever happens `later` never moves it back.
   */
  lemma NoPeriodIsBilledTwice(r: Request, at: Time, wallet: Option<InvoiceId>, now: Time,
                              actions: seq<Action>, later: seq<Action>)
    requires LegalHistory(r, at, wallet, now, actions)
    requires LegalRun(History(r, at, wallet, now, actions), later)
    ensures var t := History(r, at, wallet, now, actions);
            && (forall i, j :: 0 <= i < |t.rows| && 0 <= j < |t.rows| && i != j ==> t.rows[i].start != t.rows[j].start)
            && (forall i :: 0 <= i < |t.rows| ==> t.rows[i].start < t.sub.nextDue)
            && t.sub.nextDue <= Run(t, later).sub.nextDue
  {
    var t := History(r, at, wallet, now, actions);
    HistoryInv(r, at, wallet, now, actions);
    RunKeepsInv(t, later);
    forall i, j | 0 <= i < |t.rows| && 0 <= j < |t.rows| && i != j ensures t.rows[i].start != t.rows[j].start {
      if i < j { assert t.rows[i].start < t.rows[j].start; } else { assert t.rows[j].start < t.rows[i].start; }
    }
  }
}
