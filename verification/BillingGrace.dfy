/** Grace periods: their ordering through edits, and the pass that enforces them. */
module BillingGrace {
  import opened Common
  import opened BillingAnchor
  import opened Billing
  import opened BillingRuns
  import S = Settlement

  // ---------------------------------------------------------------- ordering

  /** Hard grace is never shorter than soft grace, now or once the pending changes apply. */
  predicate GraceOk(sub: Subscription) {
    && 0 <= sub.graceSoft <= sub.graceHard
    && (sub.pendingSoft.Some? ==> sub.pendingSoft.value >= 0)
    && (sub.pendingHard.Some? ==> sub.pendingHard.value >= 0)
    && EffectiveOrder(sub)
  }

  lemma RenewalKeepsGraceOk(t: Timeline, wallet: Option<InvoiceId>, now: Time)
    requires Sound(t.sub) && GraceOk(t.sub)
    ensures GraceOk(WithRenewal(t, wallet, now).sub)
  {
  }

  lemma StepKeepsGraceOk(t: Timeline, a: Action)
    requires Sound(t.sub) && GraceOk(t.sub)
    ensures GraceOk(Next(t, a).sub)
  {
    match a
    case Sweep(queryAt, wallet, now) => RenewalKeepsGraceOk(Guarded(t), wallet, now);
    case EndTrial(queryAt, setAt, wallet, now) =>
      RenewalKeepsGraceOk(t.(sub := t.sub.(status := Active, nextDue := setAt)), wallet, now);
    case Patch(_) =>
    case _ => StepKeepsTerms(t, a);
  }

  lemma {:induction false} RunKeepsGraceOk(t: Timeline, actions: seq<Action>)
    requires Sound(t.sub) && GraceOk(t.sub)
    ensures GraceOk(Run(t, actions).sub)
    decreases |actions|
  {
    if actions != [] {
      StepKeepsGraceOk(t, actions[0]);
      RunKeepsGraceOk(Next(t, actions[0]), actions[1..]);
    }
  }

  lemma SubscribedGraceOk(r: Request, at: Time, wallet: Option<InvoiceId>, now: Time)
    requires Subscribed(r, at, wallet, now).Ok?
    ensures GraceOk(Subscribed(r, at, wallet, now).value.sub)
  {
    RenewalKeepsGraceOk(Timeline(Blank(r, at), [], [], map[]), wallet, now);
  }

  /** In every committed state of every subscription the grace periods are ordered and the amounts paired. */
  lemma GraceStaysOrdered(r: Request, at: Time, wallet: Option<InvoiceId>, now: Time, actions: seq<Action>)
    requires LegalHistory(r, at, wallet, now, actions)
    ensures var sub := History(r, at, wallet, now, actions).sub;
            && 0 <= sub.graceSoft <= sub.graceHard
            && 0 <= Or(sub.pendingSoft, sub.graceSoft) <= Or(sub.pendingHard, sub.graceHard)
            && (sub.pendingAtomic.Some? <==> sub.pendingXmr.Some?)
            && sub.amountAtomic == ToAtomic(sub.amountXmr) > 0
  {
    SubscribedGraceOk(r, at, wallet, now);
    RunKeepsGraceOk(Subscribed(r, at, wallet, now).value, actions);
  }

  /** A value set by an edit, the current one if the edit clears it, else what was to come into force anyway. */
  function InForce<T>(f: Field<T>, current: T, coming: T): T {
    match f
    case Set(v) => v
    case Clear => current
    case Unset => coming
  }

  /** An edit that is accepted takes effect in full at the next renewal: old pending values it leaves alone survive. */
  lemma EditTakesEffect(sub: Subscription, e: Edit)
    requires Sound(sub) && Patched(sub, e).Ok?
    ensures var after := Applied(Patched(sub, e).value);
            && after.graceSoft == InForce(e.soft, sub.graceSoft, Applied(sub).graceSoft)
            && after.graceHard == InForce(e.hard, sub.graceHard, Applied(sub).graceHard)
            && after.intervalDays == InForce(e.interval, sub.intervalDays, Applied(sub).intervalDays)
            && after.amountXmr == InForce(e.amount, sub.amountXmr, Applied(sub).amountXmr)
            && after.amountAtomic == ToAtomic(after.amountXmr)
            && after.graceHard >= after.graceSoft
            && after.pendingAtomic.None? && after.pendingXmr.None? && after.pendingInterval.None?
            && after.pendingSoft.None? && after.pendingHard.None?
  {
  }

  // ---------------------------------------------------------------- one decision

  /** Whoever is past hard grace is past soft grace. */
  lemma HardImpliesSoft(t: Timeline, now: Time)
    requires GraceOk(t.sub) && HardBreach(t, now)
    ensures SoftBreach(t, now)
  {
    var i :| 0 <= i < |t.rows|
      && t.rows[i].invoice in t.bills && IsUnpaid(t.bills[t.rows[i].invoice].status)
      && t.rows[i].start + t.sub.graceHard * DAY < now;
    MulMonotone(t.sub.graceSoft, t.sub.graceHard, DAY);
  }

  lemma BreachesIgnoreStatus(t: Timeline, status: SubStatus, now: Time)
    ensures var t' := t.(sub := t.sub.(status := status));
            && (SoftBreach(t', now) <==> SoftBreach(t, now))
            && (HardBreach(t', now) <==> HardBreach(t, now))
            && (HasPaidRow(t') <==> HasPaidRow(t))
  {
  }

  /** Running the pass twice at the same time changes nothing more. */
  lemma GraceIsIdempotent(t: Timeline, now: Time)
    ensures Graced(Graced(t, now), now) == Graced(t, now)
  {
    BreachesIgnoreStatus(t, GraceDecision(t, now), now);
  }

  /**
    Who is expired, exactly: with ordered grace periods, a live subscription that is active or past
    due and has an unpaid invoice past both the hard grace and the invoice's own expiry.
   */
  lemma ExpiredByGraceIff(t: Timeline, now: Time)
    requires GraceOk(t.sub) && !IsTerminal(t.sub.status)
    ensures GraceDecision(t, now).Expired? <==> (t.sub.status.Active? || t.sub.status.PastDue?) && HardBreach(t, now)
  {
    if HardBreach(t, now) { HardImpliesSoft(t, now); }
  }

  /**
    A renewal invoice lives for soft plus hard grace from its issue, so by the time it has expired the
    hard grace of its period is over as well: of the two hard-grace conditions the expiry decides, and
    nobody is expired before soft plus hard grace have passed since the issue.
   */
  lemma RenewalInvoiceOutlivesHardGrace(t: Timeline, wallet: Option<InvoiceId>, now: Time, later: Time)
    requires Sound(t.sub) && GraceOk(t.sub) && t.sub.nextDue < now && RenewalOutcome(t, wallet).Renewed?
    ensures var t' := WithRenewal(t, wallet, now);
            var row, bill := t'.rows[|t.rows|], t'.bills[wallet.value];
            && bill.expiresAt >= now + (t'.sub.graceSoft + t'.sub.graceHard) * DAY
            && (bill.expiresAt <= later ==> row.start + t'.sub.graceHard * DAY < later)
  {
    RenewalKeepsGraceOk(t, wallet, now);
    var sub := Applied(t.sub);
    assert GraceSeconds(sub) * SECOND == (sub.graceSoft + sub.graceHard) * DAY;
    assert (sub.graceSoft + sub.graceHard) * DAY >= sub.graceHard * DAY by {
      MulMonotone(sub.graceHard, sub.graceSoft + sub.graceHard, DAY);
    }
  }

  /** Invoice `v` is settled, and one of the periods is on it. */
  predicate PaidFor(t: Timeline, v: InvoiceId) {
    Linked(t, v) && v in t.bills && S.IsSettled(t.bills[v].status)
  }

  /** The run never takes the settlement of `v` back. */
  predicate KeepsPaid(actions: seq<Action>, v: InvoiceId) {
    forall a | a in actions :: a.BillsMove? && v in a.statuses ==> S.IsSettled(a.statuses[v])
  }

  lemma RenewalKeepsPaid(t: Timeline, wallet: Option<InvoiceId>, now: Time, v: InvoiceId)
    requires Sound(t.sub) && Fresh(t, wallet) && PaidFor(t, v)
    ensures PaidFor(WithRenewal(t, wallet, now), v)
    ensures WithRenewal(t, wallet, now).sub.status == t.sub.status
  {
    var i :| 0 <= i < |t.rows| && t.rows[i].invoice == v;
    assert WithRenewal(t, wallet, now).rows[i].invoice == v;
  }

  lemma StepKeepsPaid(t: Timeline, a: Action, v: InvoiceId)
    requires Sound(t.sub) && Legal(t, a) && PaidFor(t, v) && KeepsPaid([a], v)
    ensures PaidFor(Next(t, a), v)
    ensures Next(t, a).sub.status.PastDue? ==> t.sub.status.PastDue? && !a.Grace?
  {
    var i :| 0 <= i < |t.rows| && t.rows[i].invoice == v;
    match a
    case Sweep(queryAt, wallet, now) => RenewalKeepsPaid(Guarded(t), wallet, now, v);
    case EndTrial(queryAt, setAt, wallet, now) =>
      RenewalKeepsPaid(t.(sub := t.sub.(status := Active, nextDue := setAt)), wallet, now, v);
    case Hook(_) => assert Next(t, a).rows[i].invoice == v;
    case Pause =>
    case Resume(_) =>
    case End(_) => assert Next(t, a).rows[i].invoice == v;
    case Patch(_) =>
    case OpenPrepay(_, _, _, _) => assert Next(t, a).rows[i].invoice == v;
    case BillsMove(_) => assert a in [a]; assert Next(t, a).rows[i].invoice == v;
    case Grace(_) => assert HasPaidRow(t);
  }

  /**
    One paid invoice disarms soft grace for good: in every later run in which it stays paid, however
    many newer invoices are overdue, no grace pass leaves the subscription past due, and past due it
    is only if it was so before and no pass has run since.
   */
  lemma {:induction false} OncePaidNeverPastDue(t: Timeline, actions: seq<Action>, v: InvoiceId)
    requires Sound(t.sub) && LegalRun(t, actions) && PaidFor(t, v) && KeepsPaid(actions, v)
    ensures PaidFor(Run(t, actions), v)
    ensures Run(t, actions).sub.status.PastDue? ==> t.sub.status.PastDue? && forall a | a in actions :: !a.Grace?
    decreases |actions|
  {
    if actions != [] {
      var a := actions[0];
      assert forall b | b in [a] :: b == actions[0];
      StepKeepsPaid(t, a, v);
      OncePaidNeverPastDue(Next(t, a), actions[1..], v);
      assert forall b | b in actions :: b == a || b in actions[1..];
    }
  }

  /** And what a pass then does with a live subscription that is active or past due: hard grace alone matters. */
  lemma OncePaidOnlyHardGraceCounts(t: Timeline, now: Time, v: InvoiceId)
    requires GraceOk(t.sub) && PaidFor(t, v) && (t.sub.status.Active? || t.sub.status.PastDue?)
    ensures GraceDecision(t, now) == if HardBreach(t, now) then SubStatus.Expired else Active
  {
    ExpiredByGraceIff(t, now);
    assert HasPaidRow(t);
  }

  // ---------------------------------------------------------------- the pass over all subscriptions

  type SubId = nat

  predicate NeedsSoft(t: Timeline, now: Time) {
    t.sub.status.Active? && SoftBreach(t, now)
  }

  predicate NeedsHard(t: Timeline, now: Time) {
    t.sub.status.PastDue? && HardBreach(t, now)
  }

  predicate NeedsRecovery(t: Timeline) {
    t.sub.status.PastDue? && HasPaidRow(t)
  }

  function WithStatus(t: Timeline, status: SubStatus): Timeline {
    t.(sub := t.sub.(status := status))
  }

  function SoftSet(accounts: map<SubId, Timeline>, now: Time): set<SubId> {
    set id | id in accounts && NeedsSoft(accounts[id], now)
  }

  function HardSet(accounts: map<SubId, Timeline>, now: Time): set<SubId> {
    set id | id in accounts && NeedsHard(accounts[id], now)
  }

  function RecoverySet(accounts: map<SubId, Timeline>): set<SubId> {
    set id | id in accounts && NeedsRecovery(accounts[id])
  }

  function RecoveredSet(accounts: map<SubId, Timeline>, now: Time): set<SubId> {
    set id | id in accounts && Recovered(accounts[id], now)
  }

  function ExpiringSet(accounts: map<SubId, Timeline>, now: Time): set<SubId> {
    set id | id in accounts && NewlyExpired(accounts[id], now)
  }

  /** The table after moving the subscriptions `ids`. */
  function MovedAll(accounts: map<SubId, Timeline>, ids: set<SubId>, to: SubStatus): map<SubId, Timeline> {
    map id | id in accounts :: if id in ids then WithStatus(accounts[id], to) else accounts[id]
  }

  lemma MovingNone(accounts: map<SubId, Timeline>, ids: set<SubId>, to: SubStatus)
    ensures MovedAll(accounts, ids - ids, to) == accounts
  {
  }

  lemma MovingOneMore(accounts: map<SubId, Timeline>, ids: set<SubId>, rest: set<SubId>, to: SubStatus, id: SubId)
    requires id in rest && rest <= ids <= accounts.Keys
    ensures MovedAll(accounts, ids - rest, to)[id] == accounts[id]
    ensures MovedAll(accounts, ids - (rest - {id}), to)
         == MovedAll(accounts, ids - rest, to)[id := WithStatus(accounts[id], to)]
  {
  }

  class GraceDesk {
    var accounts: map<SubId, Timeline>

    constructor (accounts: map<SubId, Timeline>)
      ensures this.accounts == accounts
    {
      this.accounts := accounts;
    }

    /** The transition table is asked, and never refuses what the queries select. */
    method Move(id: SubId, to: SubStatus)
      requires id in accounts && CanTransition(accounts[id].sub.status, to)
      modifies this
      ensures accounts == old(accounts)[id := WithStatus(old(accounts)[id], to)]
    {
      var moved := TransitionStatus(accounts[id].sub, to);
      accounts := accounts[id := accounts[id].(sub := moved.value)];
    }

    /** One of the three query loops: every selected subscription is moved, none of the moves is refused. */
    method MoveAll(ids: set<SubId>, to: SubStatus) returns (count: nat)
      requires ids <= accounts.Keys
      requires forall id :: id in ids ==> CanTransition(accounts[id].sub.status, to)
      modifies this
      ensures accounts == MovedAll(old(accounts), ids, to) && count == |ids|
    {
      ghost var before := accounts;
      count := 0;
      var rest := ids;
      MovingNone(before, ids, to);
      while rest != {}
        invariant rest <= ids && count + |rest| == |ids|
        invariant accounts == MovedAll(before, ids - rest, to)
      {
        var id :| id in rest;
        MovingOneMore(before, ids, rest, to, id);
        Move(id, to);
        rest := rest - {id};
        count := count + 1;
      }
      assert ids - rest == ids;
    }

    method SoftPass(now: Time) returns (count: nat)
      modifies this
      ensures accounts == map id | id in old(accounts) :: AfterSoft(old(accounts)[id], now)
      ensures count == |SoftSet(old(accounts), now)|
    {
      count := MoveAll(SoftSet(accounts, now), PastDue);
    }

    method HardPass(now: Time) returns (count: nat)
      modifies this
      ensures accounts == map id | id in old(accounts) :: AfterHard(old(accounts)[id], now)
      ensures count == |HardSet(old(accounts), now)|
    {
      count := MoveAll(HardSet(accounts, now), SubStatus.Expired);
    }

    method RecoveryPass() returns (count: nat)
      modifies this
      ensures accounts == map id | id in old(accounts) :: AfterRecovery(old(accounts)[id])
      ensures count == |RecoverySet(old(accounts))|
    {
      count := MoveAll(RecoverySet(accounts), Active);
    }

    /** Three loops over the whole table are one decision per subscription, each taken on its own. */
    method CheckGracePeriods(now: Time) returns (soft: nat, hard: nat, recovered: nat)
      modifies this
      ensures accounts == map id | id in old(accounts) :: Graced(old(accounts)[id], now)
      ensures soft == |SoftSet(old(accounts), now)|
      ensures hard == |ExpiringSet(old(accounts), now)|
      ensures recovered == |RecoveredSet(old(accounts), now)|
    {
      ghost var before := accounts;
      soft := SoftPass(now);
      HardPassExpires(before, accounts, now);
      hard := HardPass(now);
      RecoveryPassRecovers(before, accounts, now);
      recovered := RecoveryPass();
      PassesDecide(before, accounts, now);
    }
  }

  lemma HardPassExpires(before: map<SubId, Timeline>, mid: map<SubId, Timeline>, now: Time)
    requires mid == map id | id in before :: AfterSoft(before[id], now)
    ensures HardSet(mid, now) == ExpiringSet(before, now)
  {
    forall id | id in before ensures NeedsHard(mid[id], now) <==> NewlyExpired(before[id], now) {
      HardSelects(before[id], now);
    }
  }

  lemma RecoveryPassRecovers(before: map<SubId, Timeline>, mid: map<SubId, Timeline>, now: Time)
    requires mid.Keys == before.Keys
    requires forall id :: id in before ==> mid[id] == AfterHard(AfterSoft(before[id], now), now)
    ensures RecoverySet(mid) == RecoveredSet(before, now)
  {
    forall id | id in before ensures NeedsRecovery(mid[id]) <==> Recovered(before[id], now) {
      RecoverySelects(before[id], now);
    }
  }

  lemma PassesDecide(before: map<SubId, Timeline>, after: map<SubId, Timeline>, now: Time)
    requires after.Keys == before.Keys
    requires forall id :: id in before ==> after[id] == AfterRecovery(AfterHard(AfterSoft(before[id], now), now))
    ensures after == map id | id in before :: Graced(before[id], now)
  {
    forall id | id in before ensures after[id] == Graced(before[id], now) {
      ThreeLoopsDecide(before[id], now);
    }
  }

  function AfterSoft(t: Timeline, now: Time): Timeline {
    if NeedsSoft(t, now) then WithStatus(t, PastDue) else t
  }

  function AfterHard(t: Timeline, now: Time): Timeline {
    if NeedsHard(t, now) then WithStatus(t, SubStatus.Expired) else t
  }

  function AfterRecovery(t: Timeline): Timeline {
    if NeedsRecovery(t) then WithStatus(t, Active) else t
  }

  predicate NewlyExpired(t: Timeline, now: Time) {
    !t.sub.status.Expired? && GraceDecision(t, now).Expired?
  }

  /** Back to active in this pass, from past due or from a breach of soft grace noticed just before. */
  predicate Recovered(t: Timeline, now: Time) {
    (t.sub.status.PastDue? || (t.sub.status.Active? && SoftBreach(t, now))) && GraceDecision(t, now).Active?
  }

  lemma RecoverySelects(t: Timeline, now: Time)
    ensures NeedsRecovery(AfterHard(AfterSoft(t, now), now)) <==> Recovered(t, now)
  {
    BreachesIgnoreStatus(t, PastDue, now);
    BreachesIgnoreStatus(t, SubStatus.Expired, now);
  }

  lemma HardSelects(t: Timeline, now: Time)
    ensures NeedsHard(AfterSoft(t, now), now) <==> NewlyExpired(t, now)
  {
    BreachesIgnoreStatus(t, PastDue, now);
  }

  lemma ThreeLoopsDecide(t: Timeline, now: Time)
    ensures AfterRecovery(AfterHard(AfterSoft(t, now), now)) == Graced(t, now)
  {
    BreachesIgnoreStatus(t, PastDue, now);
    BreachesIgnoreStatus(t, SubStatus.Expired, now);
  }
}
