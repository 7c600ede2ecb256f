/**
  Settlement and billing together: one subscription whose invoices live in the settlement tables.

  A settlement step moves the statuses of the subscription's invoices and calls its payment hook; a
  billing step opens and cancels invoices.  Each component's own results hold in every joint run,
  because a joint run is a run of each (`JointRunsProject`).
 */
module Backend {
  import opened Common
  import opened PrepayPrice
  import S = Settlement
  import I = SettlementInvariant
  import R = SettlementRuns
  import V = SettlementReversal
  import B = Billing
  import T = BillingRuns
  import P = BillingPrepayRuns
  import G = BillingGrace
  import L = BillingLaws

  type InvoiceId = S.InvoiceId

  datatype State = State(store: S.Store, timeline: B.Timeline)

  /** A step of the settlement services, or one of the subscription services with the wallet's new address. */
  datatype Action = Settle(settlement: S.Action) | Bill(billing: T.Action, address: S.Subaddress)

  function Statuses(s: S.Store): map<InvoiceId, S.InvoiceStatus> {
    map v | v in s.invoices :: s.invoices[v].status
  }

  function NewHooks(before: S.Store, after: S.Store): seq<T.Action> {
    seq(Max(0, |after.hooks| - |before.hooks|), i requires 0 <= i < Max(0, |after.hooks| - |before.hooks|) =>
      T.Hook(after.hooks[|before.hooks| + i]))
  }

  /** What a settlement step means for the subscription: its invoices move, and its hook is called. */
  function Effects(before: S.Store, after: S.Store): seq<T.Action> {
    [T.BillsMove(Statuses(after))] + NewHooks(before, after)
  }

  function Cancellations(rows: seq<B.Period>): seq<S.Action> {
    seq(|rows|, i requires 0 <= i < |rows| => S.Cancel(rows[i].invoice))
  }

  function WalletOf(a: T.Action): Option<InvoiceId> {
    match a
    case Sweep(_, wallet, _) => wallet
    case EndTrial(_, _, wallet, _) => wallet
    case OpenPrepay(_, _, wallet, _) => wallet
    case _ => None
  }

  /** What the invoice opened by `a` asks for. */
  function Required(t: B.Timeline, a: T.Action): int
    requires B.Sound(t.sub)
  {
    if a.OpenPrepay? then
      var plan := PlanFor(a.plans, a.periods);
      if plan.None? || plan.value.discount > 100 || a.periods < 0 then 0
      else PrepayAmount(t.sub.amountXmr, a.periods, plan.value.discount).atomic
    else T.Next(t, a).sub.amountAtomic
  }

  predicate OpensInvoice(t: B.Timeline, a: T.Action)
    requires B.Sound(t.sub)
  {
    WalletOf(a).Some? && WalletOf(a).value !in t.bills && WalletOf(a).value in T.Next(t, a).bills
  }

  /** What a billing step asks of the invoice service. */
  function Orders(t: B.Timeline, a: T.Action, address: S.Subaddress): seq<S.Action>
    requires B.Sound(t.sub)
  {
    if OpensInvoice(t, a) then
      var v := WalletOf(a).value;
      [S.Open(v, address, Max(0, Required(t, a)), T.Next(t, a).bills[v].expiresAt)]
    else if a.End? && !B.IsTerminal(t.sub.status) then Cancellations(t.rows)
    else []
  }

  ghost function Next(st: State, a: Action): (st': State)
    requires B.Sound(st.timeline.sub)
    ensures B.Sound(st'.timeline.sub)
  {
    match a
    case Settle(step) =>
      var after := S.Next(st.store, step);
      State(after, T.Run(st.timeline, Effects(st.store, after)))
    case Bill(step, address) =>
      State(S.Run(st.store, Orders(st.timeline, step, address)), T.Next(st.timeline, step))
  }

  /** Addresses and invoice ids are new; cancelling is refused for exactly the invoices with payments. */
  ghost predicate Legal(st: State, a: Action) {
    match a
    case Settle(step) => S.Legal(st.store, step)
    case Bill(step, address) =>
      && T.Legal(st.timeline, step) && !step.Hook? && !step.BillsMove?
      && (WalletOf(step).Some? ==> WalletOf(step).value !in st.store.invoices && address !in st.store.addresses)
      && (step.End? ==> step.refused == set v | v in st.timeline.bills && S.HasActivePayment(st.store.payments, v))
  }

  ghost function Run(st: State, actions: seq<Action>): (st': State)
    requires B.Sound(st.timeline.sub)
    ensures B.Sound(st'.timeline.sub)
    decreases |actions|
  {
    if actions == [] then st else Run(Next(st, actions[0]), actions[1..])
  }

  ghost predicate LegalRun(st: State, actions: seq<Action>)
    requires B.Sound(st.timeline.sub)
    decreases |actions|
  {
    actions == [] || (Legal(st, actions[0]) && LegalRun(Next(st, actions[0]), actions[1..]))
  }

  // ---------------------------------------------------------------- the joint invariant

  /** The subscription's view of its invoices is what the settlement tables say. */
  predicate Mirrored(st: State) {
    BillsMirror(st.timeline.bills, st.store.invoices)
  }

  predicate BillsMirror(bills: map<InvoiceId, B.Bill>, invoices: map<InvoiceId, S.Invoice>) {
    forall v | v in bills ::
      v in invoices && bills[v].status == invoices[v].status && bills[v].expiresAt == invoices[v].expiresAt
  }

  ghost predicate Joint(st: State) {
    I.Regular(st.store) && T.Inv(st.timeline) && Mirrored(st)
  }

  /** What the orders of a billing step do to the invoices that were there. */
  predicate OnlyCancels(s: S.Store, s': S.Store, ids: set<InvoiceId>) {
    && s'.payments == s.payments && s'.hooks == s.hooks && s'.outbox == s.outbox
    && (forall v | v in s.invoices ::
          && v in s'.invoices
          && s'.invoices[v] == if v in ids && S.Cancellable(s, v) then s.invoices[v].(status := S.Cancelled)
                               else s.invoices[v])
  }

  function InvoicesOf(rows: seq<B.Period>): set<InvoiceId> {
    set i | 0 <= i < |rows| :: rows[i].invoice
  }

  lemma {:induction false} CancellationsCancel(s: S.Store, rows: seq<B.Period>)
    ensures S.LegalRun(s, Cancellations(rows))
    ensures OnlyCancels(s, S.Run(s, Cancellations(rows)), InvoicesOf(rows))
    ensures S.Run(s, Cancellations(rows)).addresses == s.addresses
    decreases |rows|
  {
    if rows != [] {
      var s1 := S.CancelledIn(s, rows[0].invoice);
      assert Cancellations(rows)[1..] == Cancellations(rows[1..]);
      CancellationsCancel(s1, rows[1..]);
      assert InvoicesOf(rows) == {rows[0].invoice} + InvoicesOf(rows[1..]) by {
        forall v | v in InvoicesOf(rows) ensures v in {rows[0].invoice} + InvoicesOf(rows[1..]) {
          var i :| 0 <= i < |rows| && rows[i].invoice == v;
          if i > 0 { assert rows[1..][i - 1].invoice == v; }
        }
        forall v | v in InvoicesOf(rows[1..]) ensures v in InvoicesOf(rows) {
          var i :| 0 <= i < |rows[1..]| && rows[1..][i].invoice == v;
          assert rows[i + 1].invoice == v;
        }
        assert rows[0].invoice in InvoicesOf(rows);
      }
    }
  }

  /** Opened invoices ask for something. */
  lemma RequiredIsPositive(t: B.Timeline, a: T.Action)
    requires B.Sound(t.sub) && OpensInvoice(t, a)
    ensures Required(t, a) > 0
  {
  }

  /** One order at most opens an invoice: the store afterwards. */
  lemma OpeningOpens(s: S.Store, open: S.Action)
    requires open.Open?
    ensures S.Run(s, [open]) == S.Next(s, open)
    ensures S.LegalRun(s, [open]) <==> S.Legal(s, open)
  {
    assert [open][1..] == [];
  }

  /** Which of the invoices that were there a billing step cancels. */
  function EndedIds(t: B.Timeline, a: T.Action): set<InvoiceId> {
    if a.End? && !B.IsTerminal(t.sub.status) then InvoicesOf(t.rows) else {}
  }

  lemma OrdersAreLegal(st: State, a: T.Action, address: S.Subaddress)
    requires B.Sound(st.timeline.sub) && Legal(st, Bill(a, address))
    ensures S.LegalRun(st.store, Orders(st.timeline, a, address))
    ensures OnlyCancels(st.store, S.Run(st.store, Orders(st.timeline, a, address)), EndedIds(st.timeline, a))
  {
    var t := st.timeline;
    if OpensInvoice(t, a) {
      RequiredIsPositive(t, a);
      OpeningOpens(st.store, Orders(t, a, address)[0]);
    } else if a.End? && !B.IsTerminal(t.sub.status) {
      CancellationsCancel(st.store, t.rows);
    }
  }

  /** A billing step other than ending adds at most the invoice it has a wallet address for. */
  lemma BillsAfter(t: B.Timeline, a: T.Action)
    requires B.Sound(t.sub) && T.Legal(t, a) && !a.Hook? && !a.BillsMove? && !a.End?
    ensures forall v :: v in t.bills ==> v in T.Next(t, a).bills && T.Next(t, a).bills[v] == t.bills[v]
    ensures forall v :: v in T.Next(t, a).bills && v !in t.bills ==>
              WalletOf(a) == Some(v) && T.Next(t, a).bills[v].status.Pending?
  {
    match a
    case Sweep(_, _, _) =>
    case EndTrial(_, _, _, _) =>
    case Pause =>
    case Resume(_) =>
    case Patch(_) =>
    case OpenPrepay(_, _, _, _) =>
    case Grace(_) =>
  }

  lemma BillMirrors(st: State, a: T.Action, address: S.Subaddress)
    requires Joint(st) && Legal(st, Bill(a, address))
    ensures Mirrored(Next(st, Bill(a, address)))
  {
    var t, s, st' := st.timeline, st.store, Next(st, Bill(a, address));
    OrdersAreLegal(st, a, address);
    if a.End? {
      EndingMirrors(st, a.refused, st'.store);
    } else {
      BillsAfter(t, a);
      if OpensInvoice(t, a) { OpeningOpens(s, Orders(t, a, address)[0]); }
    }
  }

  lemma EndingMirrors(st: State, refused: set<InvoiceId>, after: S.Store)
    requires Mirrored(st) && OnlyCancels(st.store, after, EndedIds(st.timeline, T.End(refused)))
    requires refused == set v | v in st.timeline.bills && S.HasActivePayment(st.store.payments, v)
    ensures BillsMirror(B.Ended(st.timeline, refused).bills, after.invoices)
  {
    forall v | v in st.timeline.bills ensures B.Linked(st.timeline, v) <==> v in InvoicesOf(st.timeline.rows) {
    }
  }

  lemma {:induction false} EffectsKeepBills(t: B.Timeline, hooks: seq<T.Action>)
    requires B.Sound(t.sub) && forall a :: a in hooks ==> a.Hook?
    ensures T.Run(t, hooks).bills == t.bills && T.LegalRun(t, hooks)
    decreases |hooks|
  {
    if hooks != [] {
      assert hooks[0] in hooks;
      EffectsKeepBills(T.Next(t, hooks[0]), hooks[1..]);
    }
  }

  lemma MovingThenHooks(t: B.Timeline, statuses: map<InvoiceId, S.InvoiceStatus>, hooks: seq<T.Action>)
    requires B.Sound(t.sub) && forall a :: a in hooks ==> a.Hook?
    ensures var run := [T.BillsMove(statuses)] + hooks;
            && T.Run(t, run) == T.Run(T.Moved(t, statuses), hooks) && T.LegalRun(t, run)
            && T.Run(t, run).bills == T.Moved(t, statuses).bills
  {
    T.RunFirst(t, T.BillsMove(statuses), hooks);
    EffectsKeepBills(T.Moved(t, statuses), hooks);
  }

  lemma EffectsUnfold(t: B.Timeline, before: S.Store, after: S.Store)
    requires B.Sound(t.sub)
    ensures T.Run(t, Effects(before, after)) == T.Run(T.Moved(t, Statuses(after)), NewHooks(before, after))
    ensures T.LegalRun(t, Effects(before, after))
    ensures T.Run(t, Effects(before, after)).bills == T.Moved(t, Statuses(after)).bills
  {
    MovingThenHooks(t, Statuses(after), NewHooks(before, after));
  }

  lemma SettleMirrors(st: State, a: S.Action)
    requires Joint(st) && Legal(st, Settle(a))
    ensures Mirrored(Next(st, Settle(a)))
  {
    var after := S.Next(st.store, a);
    EffectsUnfold(st.timeline, st.store, after);
    forall v | v in st.timeline.bills
      ensures v in after.invoices && after.invoices[v].expiresAt == st.store.invoices[v].expiresAt
    {
      R.StepKeepsInvoice(st.store, a, v);
    }
    MovingMirrors(st.timeline, st.store, after);
  }

  lemma MovingMirrors(t: B.Timeline, before: S.Store, after: S.Store)
    requires BillsMirror(t.bills, before.invoices)
    requires forall v :: v in t.bills ==>
               v in after.invoices && after.invoices[v].expiresAt == before.invoices[v].expiresAt
    ensures BillsMirror(T.Moved(t, Statuses(after)).bills, after.invoices)
  {
  }

  // ---------------------------------------------------------------- projections

  ghost function StepBilling(st: State, a: Action): seq<T.Action> {
    match a
    case Settle(step) => Effects(st.store, S.Next(st.store, step))
    case Bill(step, _) => [step]
  }

  ghost function StepSettling(st: State, a: Action): seq<S.Action>
    requires B.Sound(st.timeline.sub)
  {
    match a
    case Settle(step) => [step]
    case Bill(step, address) => Orders(st.timeline, step, address)
  }

  /** The billing steps of a joint run. */
  ghost function Billing(st: State, actions: seq<Action>): seq<T.Action>
    requires B.Sound(st.timeline.sub)
    decreases |actions|
  {
    if actions == [] then [] else StepBilling(st, actions[0]) + Billing(Next(st, actions[0]), actions[1..])
  }

  /** The settlement steps of a joint run. */
  ghost function Settling(st: State, actions: seq<Action>): seq<S.Action>
    requires B.Sound(st.timeline.sub)
    decreases |actions|
  {
    if actions == [] then [] else StepSettling(st, actions[0]) + Settling(Next(st, actions[0]), actions[1..])
  }

  lemma StepProjects(st: State, a: Action)
    requires B.Sound(st.timeline.sub) && Legal(st, a)
    ensures T.LegalRun(st.timeline, StepBilling(st, a))
    ensures Next(st, a).timeline == T.Run(st.timeline, StepBilling(st, a))
    ensures S.LegalRun(st.store, StepSettling(st, a))
    ensures Next(st, a).store == S.Run(st.store, StepSettling(st, a))
  {
    match a
    case Settle(step) =>
      EffectsUnfold(st.timeline, st.store, S.Next(st.store, step));
      assert [step][1..] == [];
    case Bill(step, address) =>
      OrdersAreLegal(st, step, address);
      assert [step][1..] == [];
  }

  /** A joint run is a legal run of the subscription and a legal run of the settlement tables. */
  lemma {:induction false} JointRunsProject(st: State, actions: seq<Action>)
    requires B.Sound(st.timeline.sub) && LegalRun(st, actions)
    ensures var t := Billing(st, actions);
            T.LegalRun(st.timeline, t) && Run(st, actions).timeline == T.Run(st.timeline, t)
    ensures var s := Settling(st, actions);
            S.LegalRun(st.store, s) && Run(st, actions).store == S.Run(st.store, s)
    decreases |actions|
  {
    if actions != [] {
      var st' := Next(st, actions[0]);
      StepProjects(st, actions[0]);
      JointRunsProject(st', actions[1..]);
      T.RunConcat(st.timeline, StepBilling(st, actions[0]), Billing(st', actions[1..]));
      R.RunConcat(st.store, StepSettling(st, actions[0]), Settling(st', actions[1..]));
    }
  }

  lemma StepKeepsJoint(st: State, a: Action)
    requires Joint(st) && Legal(st, a)
    ensures Joint(Next(st, a))
  {
    StepProjects(st, a);
    T.RunKeepsInv(st.timeline, StepBilling(st, a));
    R.RunKeepsRegular(st.store, StepSettling(st, a));
    match a
    case Settle(step) => SettleMirrors(st, step);
    case Bill(step, address) => BillMirrors(st, step, address);
  }

  lemma {:induction false} RunKeepsJoint(st: State, actions: seq<Action>)
    requires Joint(st) && LegalRun(st, actions)
    ensures Joint(Run(st, actions))
    decreases |actions|
  {
    if actions != [] {
      StepKeepsJoint(st, actions[0]);
      RunKeepsJoint(Next(st, actions[0]), actions[1..]);
    }
  }

  // ---------------------------------------------------------------- creation

  /** The subscription of request `r`, and its first invoice if it is due at once. */
  ghost function Founded(s: S.Store, r: T.Request, at: Time, wallet: Option<InvoiceId>, address: S.Subaddress,
                         now: Time): State
    requires T.Subscribed(r, at, wallet, now).Ok?
  {
    var t := T.Subscribed(r, at, wallet, now).value;
    var store := if wallet.Some? && wallet.value in t.bills
                 then S.Opened(s, wallet.value, address, t.sub.amountAtomic, t.bills[wallet.value].expiresAt)
                 else s;
    State(store, t)
  }

  lemma FoundedIsJoint(s: S.Store, r: T.Request, at: Time, wallet: Option<InvoiceId>, address: S.Subaddress, now: Time)
    requires I.Regular(s) && at < now && T.Subscribed(r, at, wallet, now).Ok?
    requires (wallet.Some? ==> wallet.value !in s.invoices) && address !in s.addresses
    ensures Joint(Founded(s, r, at, wallet, address, now))
  {
    var t := T.Subscribed(r, at, wallet, now).value;
    T.SubscribedInv(r, at, wallet, now);
    if wallet.Some? && wallet.value in t.bills {
      R.OpenKeepsInv(s, wallet.value, address, t.sub.amountAtomic, t.bills[wallet.value].expiresAt);
    }
  }

  // ---------------------------------------------------------------- prepayment, end to end

  predicate Settled(st: State, v: InvoiceId) {
    v in st.store.invoices && S.IsSettled(st.store.invoices[v].status)
  }

  /** At some time of the run, perhaps only for a while, invoice `v` was settled. */
  ghost predicate EverSettled(st: State, actions: seq<Action>, v: InvoiceId)
    requires B.Sound(st.timeline.sub)
    decreases |actions|
  {
    Settled(st, v) || (actions != [] && EverSettled(Next(st, actions[0]), actions[1..], v))
  }

  lemma NewHooksTell(s: S.Store, step: S.Action, v: InvoiceId)
    requires S.Legal(s, step) && v in s.invoices
    ensures v in S.Next(s, step).invoices
    ensures T.Hook(v) in NewHooks(s, S.Next(s, step)) <==>
              !S.IsSettled(s.invoices[v].status) && S.IsSettled(S.Next(s, step).invoices[v].status)
  {
    var s' := S.Next(s, step);
    R.StepKeepsInvoice(s, step, v);
    R.StepCallsOneHook(s, step);
    if |s'.hooks| > |s.hooks| {
      var h := s'.hooks[|s.hooks|];
      assert s'.hooks == s.hooks + [h];
      I.CallsAppend(s.hooks, h, v);
      assert NewHooks(s, s') == [T.Hook(h)];
    } else {
      assert s'.hooks == s.hooks;
      assert NewHooks(s, s') == [];
    }
  }

  /** The hook of an invoice is called in exactly the steps that settle it. */
  lemma HookedIffNewlySettled(st: State, a: Action, v: InvoiceId)
    requires Joint(st) && Legal(st, a) && v in st.store.invoices
    ensures T.Hook(v) in StepBilling(st, a) <==> !Settled(st, v) && Settled(Next(st, a), v)
    ensures v in Next(st, a).store.invoices
  {
    match a
    case Settle(step) =>
      NewHooksTell(st.store, step, v);
    case Bill(step, address) => OrdersAreLegal(st, step, address);
  }

  lemma {:induction false} HookedIffEverSettled(st: State, actions: seq<Action>, v: InvoiceId)
    requires Joint(st) && LegalRun(st, actions) && v in st.store.invoices && !Settled(st, v)
    ensures T.Hook(v) in Billing(st, actions) <==> EverSettled(st, actions, v)
    decreases |actions|
  {
    if actions != [] {
      var a, st' := actions[0], Next(st, actions[0]);
      HookedIffNewlySettled(st, a, v);
      StepKeepsJoint(st, a);
      if !Settled(st', v) { HookedIffEverSettled(st', actions[1..], v); }
    }
  }

  /**
    Prepaid exactly when paid, once and for all.  Over every joint run, whatever transfers, reorgs,
    expiries and billing steps come in whatever order: if the prepay invoice was settled at any time,
    even if that was reverted or repeated, it has exactly its `n` contiguous periods and moved the due
    date by `n` intervals in total; if it never was, it has none and moved nothing.
   */
  lemma PrepaidIffEverSettled(st: State, actions: seq<Action>, v: InvoiceId)
    requires Joint(st) && LegalRun(st, actions) && !Settled(st, v)
    requires v in st.timeline.bills && st.timeline.bills[v].kind.Prepay? && !B.Linked(st.timeline, v)
    ensures var own, n := T.RowsOf(Run(st, actions).timeline.rows, v), st.timeline.bills[v].kind.periods;
            var moved := P.AdvanceBy(st.timeline, Billing(st, actions), v);
            if EverSettled(st, actions, v) then P.IsOneFulfilment(own, v, n, moved) else own == [] && moved == 0
  {
    JointRunsProject(st, actions);
    HookedIffEverSettled(st, actions, v);
    P.PrepayIsFulfilledExactlyOnce(st.timeline, Billing(st, actions), v);
  }

  /** Every prepay invoice starts like that. */
  lemma OpenedPrepayAwaitsPayment(st: State, a: T.Action, address: S.Subaddress)
    requires Joint(st) && Legal(st, Bill(a, address)) && a.OpenPrepay? && OpensInvoice(st.timeline, a)
    ensures var st', v := Next(st, Bill(a, address)), WalletOf(a).value;
            && Joint(st') && v in st'.timeline.bills && !Settled(st', v)
            && st'.timeline.bills[v].kind == B.Prepay(a.periods) && !B.Linked(st'.timeline, v)
  {
    var v := WalletOf(a).value;
    StepKeepsJoint(st, Bill(a, address));
    OpeningOpens(st.store, Orders(st.timeline, a, address)[0]);
    assert T.BillOk(st.timeline, v);
    T.RowsOfLinked(st.timeline, v);
  }

  // ---------------------------------------------------------------- payment and price, end to end

  /**
    Paying brings a past-due subscription back at once: the very step that settles an invoice it has a
    period on, or a prepay invoice not yet fulfilled, makes it active.
   */
  lemma PaymentRecovers(st: State, step: S.Action, v: InvoiceId)
    requires Joint(st) && Legal(st, Settle(step)) && st.timeline.sub.status.PastDue?
    requires v in st.timeline.bills && !Settled(st, v)
    requires st.timeline.bills[v].kind.Renewal? <==> B.Linked(st.timeline, v)
    ensures Settled(Next(st, Settle(step)), v) ==> Next(st, Settle(step)).timeline.sub.status.Active?
  {
    var s, s', t := st.store, S.Next(st.store, step), st.timeline;
    if Settled(Next(st, Settle(step)), v) {
      SettlingCallsTheHook(s, step, v);
      EffectsUnfold(t, s, s');
      OneHookRecovers(T.Moved(t, Statuses(s')), v);
    }
  }

  lemma SettlingCallsTheHook(s: S.Store, step: S.Action, v: InvoiceId)
    requires S.Legal(s, step) && v in s.invoices && !S.IsSettled(s.invoices[v].status)
    requires v in S.Next(s, step).invoices && S.IsSettled(S.Next(s, step).invoices[v].status)
    ensures NewHooks(s, S.Next(s, step)) == [T.Hook(v)]
  {
    NewHooksTell(s, step, v);
    R.StepCallsOneHook(s, step);
  }

  lemma OneHookRecovers(t: B.Timeline, v: InvoiceId)
    requires B.Sound(t.sub) && t.sub.status.PastDue? && v in t.bills
    requires t.bills[v].kind.Renewal? <==> B.Linked(t, v)
    ensures T.Run(t, [T.Hook(v)]).sub.status.Active?
  {
    L.HookRecoversIff(t, v);
    T.RunFirst(t, T.Hook(v), []);
    assert [T.Hook(v)] + [] == [T.Hook(v)];
  }

  /** A renewal asks for the amount then in force, to the piconero, and its invoice is open and unpaid. */
  lemma RenewalAsksForThePrice(st: State, a: T.Action, address: S.Subaddress)
    requires Joint(st) && Legal(st, Bill(a, address)) && (a.Sweep? || a.EndTrial?) && OpensInvoice(st.timeline, a)
    ensures var st', v := Next(st, Bill(a, address)), WalletOf(a).value;
            && v in st'.store.invoices
            && st'.store.invoices[v].required == B.Or(st.timeline.sub.pendingAtomic, st.timeline.sub.amountAtomic)
            && st'.store.invoices[v].status.Pending? && st'.store.addresses == st.store.addresses[address := v]
  {
    RequiredIsPositive(st.timeline, a);
    OpeningOpens(st.store, Orders(st.timeline, a, address)[0]);
  }

  /** A prepayment of `n` periods of `amount` piconero asks for the discounted total, rounded down. */
  lemma PrepayAsksForThePrice(st: State, a: T.Action, address: S.Subaddress, amount: int, k: int)
    requires Joint(st) && Legal(st, Bill(a, address)) && a.OpenPrepay? && OpensInvoice(st.timeline, a)
    requires amount >= 0 && st.timeline.sub.amountXmr == AtomicToXmr(amount)
    requires L.IsFirstPlan(a.plans, a.periods, k) && 0 <= a.plans[k].discount <= 99
    ensures var st', v := Next(st, Bill(a, address)), WalletOf(a).value;
            && v in st'.store.invoices
            && st'.store.invoices[v].required == a.periods * amount * (100 - a.plans[k].discount) / 100
            && st'.store.invoices[v].status.Pending? && st'.store.addresses == st.store.addresses[address := v]
  {
    L.PlanForIsFirst(a.plans, a.periods);
    PrepayAmountIsFloor(amount, a.periods, a.plans[k].discount);
    RequiredIsPositive(st.timeline, a);
    OpeningOpens(st.store, Orders(st.timeline, a, address)[0]);
  }

  // ---------------------------------------------------------------- expiry by grace, end to end

  /** An unpaid invoice that the expirer leaves open although its time is up. */
  predicate Lingers(s: S.Store, v: InvoiceId, now: Time) {
    && v in s.invoices && s.invoices[v].expiresAt <= now
    && (s.invoices[v].status.PartiallyPaid?
        || (s.invoices[v].status.Pending? && (S.HasActivePayment(s.payments, v) || s.invoices[v].expiresAt == now)))
  }

  lemma {:induction false} RowsHaveBills(t: B.Timeline, i: int)
    requires T.Inv(t) && 0 <= i < |t.rows|
    ensures t.rows[i].invoice in t.bills
  {
    assert T.BillOk(t, t.rows[i].invoice);
    T.RowsOfLinked(t, t.rows[i].invoice);
  }

  /** What is unpaid and over after the expirer, in terms of the tables before it. */
  lemma ExpirerLeavesLingering(s: S.Store, order: seq<InvoiceId>, now: Time, v: InvoiceId)
    requires S.ListsExpirable(s, order, now) && v in s.invoices
    ensures var inv := S.BatchExpired(s, order).invoices[v];
            B.IsUnpaid(inv.status) && inv.expiresAt <= now <==> Lingers(s, v, now)
  {
  }

  lemma HardBreachAfterTheExpirer(st: State, order: seq<InvoiceId>, now: Time)
    requires T.Inv(st.timeline) && Mirrored(st) && S.ListsExpirable(st.store, order, now)
    ensures var t := st.timeline;
            B.HardBreach(T.Moved(t, Statuses(S.BatchExpired(st.store, order))), now) <==>
              exists i :: 0 <= i < |t.rows| && t.rows[i].start + t.sub.graceHard * DAY < now
                       && Lingers(st.store, t.rows[i].invoice, now)
  {
    var t := st.timeline;
    var t' := T.Moved(t, Statuses(S.BatchExpired(st.store, order)));
    forall i | 0 <= i < |t.rows|
      ensures t.rows[i].invoice in t'.bills && t.rows[i].invoice in st.store.invoices
      ensures B.IsUnpaid(t'.bills[t.rows[i].invoice].status) && t'.bills[t.rows[i].invoice].expiresAt <= now
         <==> Lingers(st.store, t.rows[i].invoice, now)
    {
      RowsHaveBills(t, i);
      ExpirerLeavesLingering(st.store, order, now, t.rows[i].invoice);
    }
  }

  /**
    Who is expired by a grace pass that follows the invoice expirer: exactly the subscriptions, active
    or past due, with a period beyond hard grace whose overdue invoice somebody has begun to pay, be it
    confirmed or only detected, or whose time is up this very instant.
   */
  lemma ExpiredAfterTheExpirerIff(st: State, order: seq<InvoiceId>, address: S.Subaddress, now: Time)
    requires Joint(st) && G.GraceOk(st.timeline.sub) && !B.IsTerminal(st.timeline.sub.status)
    requires Legal(st, Settle(S.Expire(order, now)))
    ensures var t := st.timeline;
            var swept := Next(Next(st, Settle(S.Expire(order, now))), Bill(T.Grace(now), address));
            swept.timeline.sub.status.Expired? <==>
              && (t.sub.status.Active? || t.sub.status.PastDue?)
              && exists i :: 0 <= i < |t.rows| && t.rows[i].start + t.sub.graceHard * DAY < now
                          && Lingers(st.store, t.rows[i].invoice, now)
  {
    var t, after := st.timeline, S.BatchExpired(st.store, order);
    EffectsUnfold(t, st.store, after);
    assert NewHooks(st.store, after) == [];
    G.ExpiredByGraceIff(T.Moved(t, Statuses(after)), now);
    HardBreachAfterTheExpirer(st, order, now);
  }

  // ---------------------------------------------------------------- one paid invoice, end to end

  ghost predicate LoopRun(actions: seq<Action>) {
    forall a | a in actions :: a.Settle? ==> !a.settlement.Reorg?
  }

  lemma SettlingKeepsPaid(st: State, step: S.Action, v: InvoiceId)
    requires B.Sound(st.timeline.sub) && Mirrored(st) && S.Legal(st.store, step) && !step.Reorg?
    requires G.PaidFor(st.timeline, v) && V.Covered(st.store, v)
    ensures var st' := Next(st, Settle(step));
            && G.PaidFor(st'.timeline, v) && V.Covered(st'.store, v)
            && (st'.timeline.sub.status.PastDue? ==> st.timeline.sub.status.PastDue?)
  {
    var after := S.Next(st.store, step);
    V.LoopsKeepSettlements(st.store, step, v);
    EffectsUnfold(st.timeline, st.store, after);
    G.OncePaidNeverPastDue(st.timeline, Effects(st.store, after), v);
  }

  lemma StepKeepsPaid(st: State, a: Action, v: InvoiceId)
    requires Joint(st) && Legal(st, a) && (a.Settle? ==> !a.settlement.Reorg?)
    requires G.PaidFor(st.timeline, v) && V.Covered(st.store, v)
    ensures G.PaidFor(Next(st, a).timeline, v) && V.Covered(Next(st, a).store, v)
    ensures Next(st, a).timeline.sub.status.PastDue? ==>
              st.timeline.sub.status.PastDue? && !(a.Bill? && a.billing.Grace?)
  {
    match a
    case Settle(step) =>
      SettlingKeepsPaid(st, step, v);
    case Bill(step, address) =>
      OrdersAreLegal(st, step, address);
      assert forall b | b in [step] :: b == step;
      G.StepKeepsPaid(st.timeline, step, v);
  }

  /**
    One payment is enough for ever.  Under the deployed loops, once one linked invoice is settled, no
    number of overdue invoices makes the subscription past due again.
   */
  lemma {:induction false} LoopsNeverMakePaidPastDue(st: State, actions: seq<Action>, v: InvoiceId)
    requires Joint(st) && LegalRun(st, actions) && LoopRun(actions)
    requires G.PaidFor(st.timeline, v) && V.Covered(st.store, v)
    ensures var t := Run(st, actions).timeline;
            && G.PaidFor(t, v)
            && (t.sub.status.PastDue? ==>
                  st.timeline.sub.status.PastDue? && forall a | a in actions :: !(a.Bill? && a.billing.Grace?))
    decreases |actions|
  {
    if actions != [] {
      var a := actions[0];
      assert a in actions;
      StepKeepsPaid(st, a, v);
      StepKeepsJoint(st, a);
      LoopsNeverMakePaidPastDue(Next(st, a), actions[1..], v);
      assert forall b | b in actions :: b == a || b in actions[1..];
    }
  }
}
