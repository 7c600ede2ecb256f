/** Safety of the settlement services over every run. */
module SettlementRuns {
  import opened Common
  import opened Settlement
  import opened SettlementSums
  import opened SettlementInvariant

  /** `s1` differs from `s` by one table update about invoice `id` and payment `t`, still unannounced. */
  predicate OneUpdate(s: Store, s1: Store, id: InvoiceId, t: TxId) {
    && s1.outbox == s.outbox
    && id in s.invoices && s1.invoices.Keys == s.invoices.Keys
    && (forall i | i in s.invoices :: i != id ==> s1.invoices[i] == s.invoices[i])
    && Reachable(s.invoices[id].status, s1.invoices[id].status)
    && s1.hooks
    == s.hooks + (if IsSettled(s1.invoices[id].status) && !IsSettled(s.invoices[id].status) then [id] else [])
    && s1.payments.Keys == s.payments.Keys + {t}
    && (forall u | u in s.payments :: u != t ==> s1.payments[u] == s.payments[u])
    && (t in s.payments && s1.payments[t].status.Detected? ==> s.payments[t].status.Detected?)
  }

  lemma AnnouncingStaysFaithful(s: Store, s1: Store, id: InvoiceId, t: TxId)
    requires Faithful(s) && OneUpdate(s, s1, id, t)
    ensures Faithful(Announced(s, s1, id, t))
  {
    var s2 := Announced(s, s1, id, t);
    var old', new' := s.invoices[id].status, s1.invoices[id].status;
    var before, after := StatusOf(s, t), s1.payments[t].status;
    var events := EventsFor(before, after, old', new');
    HeardBatch(s.outbox, events, id, t);
    EventsTell(before, after, old', new');
    assert InvoiceFaithful(s, id) && PaymentFaithful(s, t);
    assert s.hooks + [] == s.hooks;
    forall i
      ensures Calls(s1.hooks, i)
           == Calls(s.hooks, i) + if i == id && IsSettled(new') && !IsSettled(old') then 1 else 0
    {
      CallsAppend(s.hooks, id, i);
    }
    forall i | i in s2.invoices ensures InvoiceFaithful(s2, i) {
      assert InvoiceFaithful(s, i);
    }
    forall i | i !in s2.invoices ensures Unheard(s2, i) {
      assert Unheard(s, i);
    }
    forall u ensures PaymentFaithful(s2, u) {
      assert PaymentFaithful(s, u);
    }
  }

  lemma RecalculateIsOneUpdate(s: Store, id: InvoiceId, t: TxId, p: Payment, now: Time)
    requires id in s.invoices
    requires t in s.payments && p.status.Detected? ==> s.payments[t].status.Detected?
    ensures OneUpdate(s, Recalculated(s.(payments := s.payments[t := p]), id, now), id, t)
  {
    assert s.hooks + [] == s.hooks;
  }

  /** Holds for any sighting, also one under the address of another invoice than the recorded one. */
  lemma ScanKeepsFaith(s: Store, tx: Transfer, now: Time)
    requires Regular(s)
    ensures Faithful(Scanned(s, tx, now))
  {
    if Relevant(s, tx) {
      var id := s.addresses[tx.address];
      var p := if tx.txid in s.payments then Refreshed(s.payments[tx.txid], tx.confirmations, tx.height)
               else Recorded(tx, id);
      RecalculateIsOneUpdate(s, id, tx.txid, p, now);
      assert s.hooks + [] == s.hooks;
      assert OneUpdate(s, Transferred(s, tx, now), id, tx.txid);
      AnnouncingStaysFaithful(s, Transferred(s, tx, now), id, tx.txid);
    }
  }

  lemma DropKeepsFaith(s: Store, t: TxId, now: Time)
    requires Regular(s) && t in s.payments
    ensures Faithful(Dropped(s, t, now))
  {
    var p := s.payments[t];
    assert PaymentOk(s, p);
    if p.status.Orphaned? {
      assert s.hooks + [] == s.hooks;
    } else {
      RecalculateIsOneUpdate(s, p.invoice, t, p.(status := Orphaned), now);
    }
    AnnouncingStaysFaithful(s, Reorged(s, t, now), p.invoice, t);
  }

  /** Faithfulness speaks of the statuses, the events and the hooks only. */
  lemma FaithfulFrame(s: Store, s': Store)
    requires Faithful(s) && s'.outbox == s.outbox && s'.hooks == s.hooks
    requires s'.invoices.Keys == s.invoices.Keys && s'.payments.Keys == s.payments.Keys
    requires forall i :: i in s.invoices ==> IsSettled(s'.invoices[i].status) == IsSettled(s.invoices[i].status)
    requires forall t :: t in s.payments ==> s'.payments[t].status == s.payments[t].status
    ensures Faithful(s')
  {
    forall i | i in s'.invoices ensures InvoiceFaithful(s', i) { assert InvoiceFaithful(s, i); }
    forall i | i !in s'.invoices ensures Unheard(s', i) { assert Unheard(s, i); }
    forall t ensures PaymentFaithful(s', t) { assert PaymentFaithful(s, t); }
  }

  lemma MissingKeepsInv(s: Store, t: TxId, now: Time)
    requires Regular(s) && t in s.payments && s.payments[t].status.Detected?
    ensures Regular(Polled(s, t, Missing, now))
    ensures Settles(s) ==> Settles(Polled(s, t, Missing, now))
  {
    var s' := Polled(s, t, Missing, now);
    var d := Dropped(s, t, now);
    assert PaymentOk(s, s.payments[t]);
    if t in s'.misses {
      MissesDoNotMatter(s, s');
    } else {
      DropKeepsInv(s, t, now);
      MissesDoNotMatter(d, s');
    }
  }

  lemma UpdateKeepsWellFormed(s: Store, t: TxId, p: Payment)
    requires WellFormed(s) && PaymentOk(s, p)
    ensures WellFormed(s.(payments := s.payments[t := p]))
  {
    var s1 := s.(payments := s.payments[t := p]);
    forall u | u in s1.payments ensures PaymentOk(s1, s1.payments[u]) {
      assert u != t ==> PaymentOk(s, s.payments[u]);
    }
  }

  lemma RecalculateKeepsWellFormed(s: Store, id: InvoiceId, now: Time)
    requires WellFormed(s) && id in s.invoices
    ensures WellFormed(Recalculated(s, id, now))
  {
    var s1 := Recalculated(s, id, now);
    forall u | u in s1.payments ensures PaymentOk(s1, s1.payments[u]) {
      assert PaymentOk(s, s.payments[u]);
    }
  }

  lemma TransferKeepsWellFormed(s: Store, tx: Transfer, now: Time)
    requires WellFormed(s)
    ensures WellFormed(Transferred(s, tx, now))
  {
    if Relevant(s, tx) {
      var id := s.addresses[tx.address];
      var p := if tx.txid in s.payments then Refreshed(s.payments[tx.txid], tx.confirmations, tx.height)
               else Recorded(tx, id);
      assert tx.txid in s.payments ==> PaymentOk(s, s.payments[tx.txid]);
      UpdateKeepsWellFormed(s, tx.txid, p);
      RecalculateKeepsWellFormed(s.(payments := s.payments[tx.txid := p]), id, now);
    }
  }

  lemma AnnouncementKeepsWellFormed(s: Store, s1: Store, id: InvoiceId, t: TxId)
    requires id in s.invoices && id in s1.invoices && t in s1.payments
    requires WellFormed(s1)
    ensures WellFormed(Announced(s, s1, id, t))
  {
    var s2 := Announced(s, s1, id, t);
    forall u | u in s2.payments ensures PaymentOk(s2, s2.payments[u]) {
      assert PaymentOk(s1, s1.payments[u]);
    }
  }

  lemma ConfirmKeepsInv(s: Store, t: TxId, p: Payment, now: Time)
    requires Regular(s) && t in s.payments && s.payments[t].invoice == p.invoice
    requires PaymentOk(s, p) && p.status.Confirmed?
    ensures var r := Recalculated(s.(payments := s.payments[t := p]), p.invoice, now);
            Regular(Announced(s, r, p.invoice, t)) && (Settles(s) ==> Settles(Announced(s, r, p.invoice, t)))
  {
    var s1 := s.(payments := s.payments[t := p]);
    var r := Recalculated(s1, p.invoice, now);
    if Settles(s) {
      UpdateThenRecalculateSettles(s, t, p, now);
      AnnouncementSettles(s, r, p.invoice, t);
    }
    RecalculateIsOneUpdate(s, p.invoice, t, p, now);
    AnnouncingStaysFaithful(s, r, p.invoice, t);
    UpdateKeepsWellFormed(s, t, p);
    RecalculateKeepsWellFormed(s1, p.invoice, now);
    AnnouncementKeepsWellFormed(s, r, p.invoice, t);
  }

  lemma StillUnconfirmedKeepsInv(s: Store, t: TxId, p: Payment)
    requires Regular(s) && t in s.payments && s.payments[t].invoice == p.invoice
    requires PaymentOk(s, p) && p.status.Detected? && s.payments[t].status.Detected?
    ensures Regular(s.(payments := s.payments[t := p]))
    ensures Settles(s) ==> Settles(s.(payments := s.payments[t := p]))
  {
    if Settles(s) { SilentUpdateSettles(s, t, p); }
    FaithfulFrame(s, s.(payments := s.payments[t := p]));
    UpdateKeepsWellFormed(s, t, p);
  }

  lemma ForgettingMissesKeepsInv(s: Store, t: TxId)
    requires Regular(s)
    ensures Regular(s.(misses := s.misses - {t}))
    ensures Settles(s) ==> Settles(s.(misses := s.misses - {t}))
  {
    var m := s.(misses := s.misses - {t});
    MissesDoNotMatter(s, m);
    forall u | u in m.payments ensures PaymentOk(m, m.payments[u]) { assert PaymentOk(s, s.payments[u]); }
  }

  lemma FoundKeepsInv(s: Store, t: TxId, confirmations: nat, height: Option<nat>, now: Time)
    requires Regular(s) && t in s.payments && s.payments[t].status.Detected?
    ensures Regular(Polled(s, t, Found(confirmations, height), now))
    ensures Settles(s) ==> Settles(Polled(s, t, Found(confirmations, height), now))
  {
    var p := Refreshed(s.payments[t], confirmations, height);
    var m := s.(misses := s.misses - {t});
    assert PaymentOk(s, s.payments[t]);
    assert PaymentOk(m, p);
    ForgettingMissesKeepsInv(s, t);
    if p.status.Confirmed? {
      ConfirmKeepsInv(m, t, p, now);
      var r := Recalculated(m.(payments := m.payments[t := p]), p.invoice, now);
      assert Polled(s, t, Found(confirmations, height), now) == Announced(m, r, p.invoice, t);
    } else {
      StillUnconfirmedKeepsInv(m, t, p);
    }
  }

  lemma ReorgKeepsWellFormed(s: Store, t: TxId, now: Time)
    requires WellFormed(s) && t in s.payments
    ensures WellFormed(Reorged(s, t, now))
  {
    var p := s.payments[t];
    assert PaymentOk(s, p);
    if !p.status.Orphaned? {
      UpdateKeepsWellFormed(s, t, p.(status := Orphaned));
      RecalculateKeepsWellFormed(s.(payments := s.payments[t := p.(status := Orphaned)]), p.invoice, now);
    }
  }

  lemma DropKeepsInv(s: Store, t: TxId, now: Time)
    requires Regular(s) && t in s.payments
    ensures Regular(Dropped(s, t, now))
    ensures Settles(s) ==> Settles(Dropped(s, t, now))
  {
    var id := s.payments[t].invoice;
    assert PaymentOk(s, s.payments[t]);
    DropKeepsFaith(s, t, now);
    ReorgKeepsWellFormed(s, t, now);
    AnnouncementKeepsWellFormed(s, Reorged(s, t, now), id, t);
    if Settles(s) {
      ReorgSettles(s, t, now);
      AnnouncementSettles(s, Reorged(s, t, now), id, t);
    }
  }

  lemma ScanKeepsInv(s: Store, tx: Transfer, now: Time)
    requires Regular(s)
    ensures Regular(Scanned(s, tx, now))
    ensures Settles(s) && !Foreign(s, tx) ==> Settles(Scanned(s, tx, now))
  {
    ScanKeepsFaith(s, tx, now);
    TransferKeepsWellFormed(s, tx, now);
    if Relevant(s, tx) {
      AnnouncementKeepsWellFormed(s, Transferred(s, tx, now), s.addresses[tx.address], tx.txid);
      if Settles(s) && !Foreign(s, tx) {
        TransferSettles(s, tx, now);
        AnnouncementSettles(s, Transferred(s, tx, now), s.addresses[tx.address], tx.txid);
      }
    }
  }

  lemma MissesDoNotMatter(s: Store, s': Store)
    requires s' == s.(misses := s'.misses)
    ensures Settles(s) ==> Settles(s')
    ensures Faithful(s) ==> Faithful(s')
  {
    if Settles(s) {
      forall i | i in s'.invoices ensures StatusFollowsSum(s', i) { assert StatusFollowsSum(s, i); }
    }
    if Faithful(s) { FaithfulFrame(s, s'); }
  }

  lemma AnnouncementSettles(s: Store, s1: Store, id: InvoiceId, t: TxId)
    requires id in s.invoices && id in s1.invoices && t in s1.payments
    ensures Settles(s1) ==> Settles(Announced(s, s1, id, t))
  {
    if Settles(s1) {
      var s2 := Announced(s, s1, id, t);
      forall i | i in s2.invoices ensures StatusFollowsSum(s2, i) { assert StatusFollowsSum(s1, i); }
    }
  }

  lemma {:induction false} NoticesAreQuiet(es: seq<Emission>, order: seq<InvoiceId>)
    ensures var out := es + ExpiryNotices(order);
            && (forall i :: Heard(out, i) == Heard(es, i) && Reversals(out, i) == Reversals(es, i))
            && (forall v, t :: Count(out, v, t) == Count(es, v, t))
    decreases |order|
  {
    if order == [] {
      assert es + ExpiryNotices(order) == es;
    } else {
      var init := order[..|order| - 1];
      var e := Emission(InvoiceExpired, order[|order| - 1], None);
      NoticesAreQuiet(es, init);
      assert es + ExpiryNotices(order) == es + ExpiryNotices(init) + [e];
      forall i, t, v { HeardAppend(es + ExpiryNotices(init), e, i, t, v); }
    }
  }

  lemma ExpireKeepsInv(s: Store, order: seq<InvoiceId>, now: Time)
    requires Regular(s) && ListsExpirable(s, order, now)
    ensures Regular(BatchExpired(s, order))
    ensures Settles(s) ==> Settles(BatchExpired(s, order))
  {
    var s' := BatchExpired(s, order);
    if Settles(s) { ExpireSettles(s, order, now); }
    NoticesAreQuiet(s.outbox, order);
    forall t | t in s'.payments ensures PaymentOk(s', s'.payments[t]) { assert PaymentOk(s, s.payments[t]); }
    forall i | i in s'.invoices ensures InvoiceFaithful(s', i) { assert InvoiceFaithful(s, i); }
    forall i | i !in s'.invoices ensures Unheard(s', i) { assert Unheard(s, i); }
    forall t ensures PaymentFaithful(s', t) { assert PaymentFaithful(s, t); }
  }

  lemma CancelKeepsInv(s: Store, id: InvoiceId)
    requires Regular(s)
    ensures Regular(CancelledIn(s, id))
    ensures Settles(s) ==> Settles(CancelledIn(s, id))
  {
    if Cancellable(s, id) {
      var s' := CancelledIn(s, id);
      FaithfulFrame(s, s');
      if Settles(s) {
        forall i | i in s'.invoices ensures StatusFollowsSum(s', i) {
          assert i != id ==> StatusFollowsSum(s, i);
        }
      }
      forall t | t in s'.payments ensures PaymentOk(s', s'.payments[t]) { assert PaymentOk(s, s.payments[t]); }
    }
  }

  lemma {:induction false} StrangerHasNoSum(payments: map<TxId, Payment>, id: InvoiceId)
    requires forall t :: t in payments ==> payments[t].invoice != id
    ensures ConfirmedSum(payments, id) == 0
  {
    NoActivePaymentNoSum(payments, id);
  }

  lemma OpenKeepsInv(s: Store, id: InvoiceId, address: Subaddress, required: nat, expiresAt: Time)
    requires Regular(s) && id !in s.invoices && address !in s.addresses && required > 0
    ensures Regular(Opened(s, id, address, required, expiresAt))
    ensures Settles(s) ==> Settles(Opened(s, id, address, required, expiresAt))
  {
    var s' := Opened(s, id, address, required, expiresAt);
    forall t | t in s'.payments ensures PaymentOk(s', s'.payments[t]) { assert PaymentOk(s, s.payments[t]); }
    if Settles(s) {
      forall t | t in s.payments ensures s.payments[t].invoice != id { assert PaymentOk(s, s.payments[t]); }
      StrangerHasNoSum(s.payments, id);
      forall i | i in s'.invoices ensures StatusFollowsSum(s', i) { assert i != id ==> StatusFollowsSum(s, i); }
    }
    forall i | i in s'.invoices ensures InvoiceFaithful(s', i) {
      if i == id { assert Unheard(s, i); } else { assert InvoiceFaithful(s, i); }
    }
    forall i | i !in s'.invoices ensures Unheard(s', i) { assert Unheard(s, i); }
    forall t ensures PaymentFaithful(s', t) { assert PaymentFaithful(s, t); }
  }

  // ---------------------------------------------------------------- main results

  lemma StepKeepsInv(s: Store, a: Action)
    requires Regular(s) && Legal(s, a)
    ensures Regular(Next(s, a))
    ensures Settles(s) && (a.Scan? ==> !Foreign(s, a.tx)) ==> Settles(Next(s, a))
  {
    match a
    case Open(id, address, required, expiresAt) => OpenKeepsInv(s, id, address, required, expiresAt);
    case Scan(tx, now) => ScanKeepsInv(s, tx, now);
    case Poll(t, reply, now) =>
      if Linked(s, t) && s.payments[t].status.Detected? {
        match reply
        case Failed =>
        case Missing => MissingKeepsInv(s, t, now);
        case Found(confirmations, height) => FoundKeepsInv(s, t, confirmations, height, now);
      }
    case Reorg(t, now) => if Linked(s, t) { DropKeepsInv(s, t, now); }
    case Expire(order, now) => ExpireKeepsInv(s, order, now);
    case Cancel(id) => CancelKeepsInv(s, id);
  }

  lemma {:induction false} RunKeepsRegular(s: Store, actions: seq<Action>)
    requires Regular(s) && LegalRun(s, actions)
    ensures Regular(Run(s, actions))
    decreases |actions|
  {
    if actions != [] {
      StepKeepsInv(s, actions[0]);
      RunKeepsRegular(Next(s, actions[0]), actions[1..]);
    }
  }

  lemma {:induction false} RunKeepsInv(s: Store, actions: seq<Action>)
    requires Inv(s) && LegalRun(s, actions) && OneOutputRun(s, actions)
    ensures Inv(Run(s, actions))
    decreases |actions|
  {
    if actions != [] {
      StepKeepsInv(s, actions[0]);
      RunKeepsInv(Next(s, actions[0]), actions[1..]);
    }
  }

  lemma EmptyStoreInv()
    ensures Inv(EMPTY)
  {
  }

  /**
    Over every run from the empty tables, in whatever order transfers, confirmations, reorgs,
    expiries and cancellations come: every live invoice has the status its confirmed payments
    call for, and settled invoices carry the time of settlement.
   */
  lemma StatusIsAlwaysTheRecomputedOne(actions: seq<Action>, id: InvoiceId)
    requires LegalRun(EMPTY, actions) && OneOutputRun(EMPTY, actions) && id in Run(EMPTY, actions).invoices
    ensures var s := Run(EMPTY, actions);
            var inv := s.invoices[id];
            var sum := ConfirmedSum(s.payments, id);
            && (inv.status.Paid? ==> sum == inv.required)
            && (inv.status.Overpaid? ==> sum > inv.required)
            && (inv.status.PartiallyPaid? ==> 0 < sum < inv.required)
            && (inv.status.Pending? ==> sum == 0)
            && (inv.status.LatePaid? ==> sum >= inv.required)
            && (inv.status.Expired? ==> sum < inv.required)
            && (IsSettled(inv.status) && !inv.status.Cancelled? ==> inv.paidAt.Some?)
            && (!inv.status.Cancelled? ==> (IsSettled(inv.status) <==> sum >= inv.required))
  {
    EmptyStoreInv();
    RunKeepsInv(EMPTY, actions);
    assert StatusFollowsSum(Run(EMPTY, actions), id);
  }

  /** Over every run, foreign sightings included, receivers of the webhooks know which invoices are settled. */
  lemma ReceiversKnowWhatIsSettled(actions: seq<Action>, id: InvoiceId, t: TxId)
    requires LegalRun(EMPTY, actions)
    ensures var s := Run(EMPTY, actions);
            && (id in s.invoices ==> Heard(s.outbox, id) == IsSettled(s.invoices[id].status))
            && (id in s.invoices ==>
                  Calls(s.hooks, id) == Reversals(s.outbox, id) + if IsSettled(s.invoices[id].status) then 1 else 0)
            && Count(s.outbox, PaymentDetected, t) == (if t in s.payments then 1 else 0)
            && Count(s.outbox, PaymentConfirmed, t) <= 1
  {
    EmptyStoreInv();
    RunKeepsRegular(EMPTY, actions);
    var s := Run(EMPTY, actions);
    assert id in s.invoices ==> InvoiceFaithful(s, id);
    assert PaymentFaithful(s, t);
  }

  /** What one step may do to an invoice and to the calls of its hook. */
  predicate KeepsInvoice(s: Store, s': Store, id: InvoiceId)
    requires id in s.invoices
  {
    && id in s'.invoices
    && var before, after := s.invoices[id], s'.invoices[id];
    && after.required == before.required && after.expiresAt == before.expiresAt
    && (before.status.Cancelled? ==> after == before)
    && (InLateLane(before.status) ==> InLateLane(after.status))
    && (IsSettled(before.status) ==> !after.status.Cancelled?)
    && Calls(s'.hooks, id) == Calls(s.hooks, id) + if IsSettled(after.status) && !IsSettled(before.status) then 1 else 0
  }

  lemma RecalculateKeepsInvoice(s: Store, s1: Store, i: InvoiceId, now: Time, id: InvoiceId)
    requires s1.invoices == s.invoices && s1.hooks == s.hooks
    requires i in s.invoices && id in s.invoices
    ensures KeepsInvoice(s, Recalculated(s1, i, now), id)
  {
    CallsAppend(s.hooks, i, id);
  }

  lemma TransferKeepsInvoice(s: Store, tx: Transfer, now: Time, id: InvoiceId)
    requires id in s.invoices
    ensures KeepsInvoice(s, Transferred(s, tx, now), id)
  {
    if Relevant(s, tx) {
      var i := s.addresses[tx.address];
      var p := if tx.txid in s.payments then Refreshed(s.payments[tx.txid], tx.confirmations, tx.height)
               else Recorded(tx, i);
      RecalculateKeepsInvoice(s, s.(payments := s.payments[tx.txid := p]), i, now, id);
    }
  }

  lemma ReorgKeepsInvoice(s: Store, t: TxId, now: Time, id: InvoiceId)
    requires Linked(s, t) && id in s.invoices
    ensures KeepsInvoice(s, Reorged(s, t, now), id)
  {
    var p := s.payments[t].(status := Orphaned);
    RecalculateKeepsInvoice(s, s.(payments := s.payments[t := p]), p.invoice, now, id);
  }

  lemma PollKeepsInvoice(s: Store, t: TxId, reply: Reply, now: Time, id: InvoiceId)
    requires Linked(s, t) && id in s.invoices
    ensures KeepsInvoice(s, Polled(s, t, reply, now), id)
  {
    match reply
    case Failed =>
    case Missing => ReorgKeepsInvoice(s, t, now, id);
    case Found(confirmations, height) =>
      var p := Refreshed(s.payments[t], confirmations, height);
      RecalculateKeepsInvoice(s, s.(misses := s.misses - {t}, payments := s.payments[t := p]), p.invoice, now, id);
  }

  lemma StepKeepsInvoice(s: Store, a: Action, id: InvoiceId)
    requires Legal(s, a) && id in s.invoices
    ensures KeepsInvoice(s, Next(s, a), id)
  {
    match a
    case Open(_, _, _, _) =>
    case Scan(tx, now) => TransferKeepsInvoice(s, tx, now, id);
    case Poll(t, reply, now) => if Linked(s, t) { PollKeepsInvoice(s, t, reply, now, id); }
    case Reorg(t, now) => if Linked(s, t) { ReorgKeepsInvoice(s, t, now, id); }
    case Expire(order, now) => assert id in order ==> Expirable(s, id, now);
    case Cancel(_) =>
  }

  /** A step calls the hook for at most one invoice, and forgets no call. */
  lemma StepCallsOneHook(s: Store, a: Action)
    ensures s.hooks <= Next(s, a).hooks && |Next(s, a).hooks| <= |s.hooks| + 1
    ensures s.invoices.Keys <= Next(s, a).invoices.Keys
  {
    match a
    case Open(_, _, _, _) =>
    case Scan(tx, now) =>
    case Poll(t, reply, now) =>
    case Reorg(t, now) =>
    case Expire(order, now) =>
    case Cancel(_) =>
  }

  lemma {:induction false} RunConcat(s: Store, a: seq<Action>, b: seq<Action>)
    ensures Run(s, a + b) == Run(Run(s, a), b)
    ensures LegalRun(s, a + b) <==> LegalRun(s, a) && LegalRun(Run(s, a), b)
    decreases |a|
  {
    if a == [] {
      assert a + b == b;
    } else {
      assert (a + b)[1..] == a[1..] + b;
      RunConcat(Next(s, a[0]), a[1..], b);
    }
  }

  /** The late lane and cancellation are never left; a cancelled invoice is frozen. */
  lemma {:induction false} LanesAreFinal(s: Store, actions: seq<Action>, id: InvoiceId)
    requires LegalRun(s, actions) && id in s.invoices
    ensures id in Run(s, actions).invoices
    ensures s.invoices[id].status.Cancelled? ==> Run(s, actions).invoices[id] == s.invoices[id]
    ensures InLateLane(s.invoices[id].status) ==> InLateLane(Run(s, actions).invoices[id].status)
    decreases |actions|
  {
    if actions != [] {
      StepKeepsInvoice(s, actions[0], id);
      LanesAreFinal(Next(s, actions[0]), actions[1..], id);
    }
  }
}
