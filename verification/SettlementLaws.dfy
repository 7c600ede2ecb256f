/**
  What the settlement steps mean, in plain numbers and table contents: ten blocks, the dust limit,
  the moment of expiry, the time of settlement.  None of these laws mentions the function it is about.
 */
module SettlementLaws {
  import opened Common
  import opened Settlement
  import opened SettlementSums
  import opened SettlementInvariant
  import opened SettlementRuns

  // ---------------------------------------------------------------- ten blocks

  /** Whatever `a` reports about transaction `t`, it is less than ten confirmations. */
  predicate ReportsBelowTen(a: Action, t: TxId) {
    && (a.Scan? && a.tx.txid == t ==> a.tx.confirmations < 10)
    && (a.Poll? && a.t == t && a.reply.Found? ==> a.reply.confirmations < 10)
  }

  lemma StepConfirmsFromTenOn(s: Store, a: Action, t: TxId)
    requires ReportsBelowTen(a, t) && !(t in s.payments && s.payments[t].status.Confirmed?)
    ensures !(t in Next(s, a).payments && Next(s, a).payments[t].status.Confirmed?)
  {
    match a
    case Open(_, _, _, _) =>
    case Scan(_, _) =>
    case Poll(_, _, _) =>
    case Reorg(_, _) =>
    case Expire(_, _) =>
    case Cancel(_) =>
  }

  /** A payment that no report of the run gives ten confirmations does not get confirmed in it. */
  lemma {:induction false} ConfirmedNeedsTenBlocks(s: Store, actions: seq<Action>, t: TxId)
    requires !(t in s.payments && s.payments[t].status.Confirmed?)
    requires forall a :: a in actions ==> ReportsBelowTen(a, t)
    ensures !(t in Run(s, actions).payments && Run(s, actions).payments[t].status.Confirmed?)
    decreases |actions|
  {
    if actions != [] {
      assert actions[0] in actions;
      StepConfirmsFromTenOn(s, actions[0], t);
      ConfirmedNeedsTenBlocks(Next(s, actions[0]), actions[1..], t);
    }
  }

  lemma {:induction false} NoConfirmedNoSum(payments: map<TxId, Payment>, id: InvoiceId)
    requires forall t :: t in payments ==> !payments[t].status.Confirmed?
    ensures ConfirmedSum(payments, id) == 0
    decreases |payments|
  {
    if payments != map[] {
      NoConfirmedNoSum(payments - {AnyTx(payments)}, id);
    }
  }

  /** Nobody has paid: no payment is confirmed, no hook was called, no invoice shows money. */
  predicate NothingPaid(s: Store) {
    && (forall t | t in s.payments :: !s.payments[t].status.Confirmed?)
    && s.hooks == []
    && (forall id | id in s.invoices ::
          s.invoices[id].required > 0 && s.invoices[id].status in {Pending, InvoiceStatus.Expired, Cancelled})
  }

  lemma RecalculateFindsNothing(s: Store, id: InvoiceId, now: Time)
    requires NothingPaid(s) && id in s.invoices
    ensures Recalculated(s, id, now) == s
  {
    NoConfirmedNoSum(s.payments, id);
    assert s.invoices[id := s.invoices[id]] == s.invoices;
  }

  predicate BelowTen(a: Action) {
    && (a.Scan? ==> a.tx.confirmations < 10)
    && (a.Poll? && a.reply.Found? ==> a.reply.confirmations < 10)
  }

  lemma ScanBelowTenPaysNothing(s: Store, tx: Transfer, now: Time)
    requires NothingPaid(s) && tx.confirmations < 10
    ensures NothingPaid(Next(s, Scan(tx, now)))
  {
    if Relevant(s, tx) {
      var id := s.addresses[tx.address];
      if tx.txid !in s.payments {
        RecalculateFindsNothing(s.(payments := s.payments[tx.txid := Recorded(tx, id)]), id, now);
      }
    }
  }

  lemma DropPaysNothing(s: Store, t: TxId, now: Time)
    requires NothingPaid(s) && Linked(s, t)
    ensures NothingPaid(Dropped(s, t, now))
  {
    var p := s.payments[t];
    if !p.status.Orphaned? {
      RecalculateFindsNothing(s.(payments := s.payments[t := p.(status := Orphaned)]), p.invoice, now);
    }
  }

  lemma StepBelowTenPaysNothing(s: Store, a: Action)
    requires NothingPaid(s) && Legal(s, a) && BelowTen(a)
    ensures NothingPaid(Next(s, a))
  {
    match a
    case Open(_, _, _, _) =>
    case Scan(tx, now) => ScanBelowTenPaysNothing(s, tx, now);
    case Poll(t, reply, now) => if Linked(s, t) && reply.Missing? { DropPaysNothing(s, t, now); }
    case Reorg(t, now) => if Linked(s, t) { DropPaysNothing(s, t, now); }
    case Expire(_, _) =>
    case Cancel(_) =>
  }

  lemma {:induction false} RunBelowTenPaysNothing(s: Store, actions: seq<Action>)
    requires NothingPaid(s) && LegalRun(s, actions)
    requires forall a :: a in actions ==> BelowTen(a)
    ensures NothingPaid(Run(s, actions))
    decreases |actions|
  {
    if actions != [] {
      assert actions[0] in actions;
      StepBelowTenPaysNothing(s, actions[0]);
      RunBelowTenPaysNothing(Next(s, actions[0]), actions[1..]);
    }
  }

  /**
    Ten blocks.  Over every run in which no scan and no poll reports ten confirmations: no payment is
    confirmed, every confirmed sum is zero, no invoice is partially or fully paid, and no hook is called.
   */
  lemma NothingSettlesBeforeTenBlocks(actions: seq<Action>)
    requires LegalRun(EMPTY, actions) && forall a :: a in actions ==> BelowTen(a)
    ensures var s := Run(EMPTY, actions);
            && (forall t :: t in s.payments ==> !s.payments[t].status.Confirmed?)
            && (forall id :: ConfirmedSum(s.payments, id) == 0)
            && (forall id :: id in s.invoices ==>
                  s.invoices[id].status.Pending? || s.invoices[id].status.Expired? || s.invoices[id].status.Cancelled?)
            && s.hooks == []
  {
    RunBelowTenPaysNothing(EMPTY, actions);
    var s := Run(EMPTY, actions);
    forall id ensures ConfirmedSum(s.payments, id) == 0 { NoConfirmedNoSum(s.payments, id); }
  }

  /** And ten are enough: a sighting of more than dust for a known address confirms, unless recorded as orphaned. */
  lemma TenBlocksConfirm(s: Store, tx: Transfer, now: Time)
    requires WellFormed(s) && tx.amount >= 100_000_000 && tx.address in s.addresses && tx.confirmations >= 10
    ensures var s' := Next(s, Scan(tx, now));
            && tx.txid in s'.payments
            && (s'.payments[tx.txid].status.Confirmed?
                <==> !(tx.txid in s.payments && s.payments[tx.txid].status.Orphaned?))
  {
  }

  /** So does a poll: it confirms the detected payment it finds exactly from ten confirmations on. */
  lemma PollConfirmsIff(s: Store, t: TxId, confirmations: nat, height: Option<nat>, now: Time)
    requires Linked(s, t) && s.payments[t].status.Detected?
    ensures var s' := Next(s, Poll(t, Found(confirmations, height), now));
            t in s'.payments && (s'.payments[t].status.Confirmed? <==> confirmations >= 10)
  {
  }

  /** End to end: a new transfer of at least the amount asked for settles its invoice exactly from ten blocks on. */
  lemma FullPaymentSettlesIff(s: Store, tx: Transfer, now: Time)
    requires Inv(s) && tx.amount >= 100_000_000 && tx.address in s.addresses && tx.txid !in s.payments
    requires var inv := s.invoices[s.addresses[tx.address]];
             !IsSettled(inv.status) && !inv.status.Cancelled? && tx.amount >= inv.required
    ensures var id, s' := s.addresses[tx.address], Next(s, Scan(tx, now));
            && id in s'.invoices
            && (IsSettled(s'.invoices[id].status) <==> tx.confirmations >= 10)
            && s'.hooks == if tx.confirmations >= 10 then s.hooks + [id] else s.hooks
  {
    var id := s.addresses[tx.address];
    var p := Recorded(tx, id);
    assert StatusFollowsSum(s, id);
    SumInsert(s.payments, id, tx.txid, p);
    RecalculateSettlesIff(s.(payments := s.payments[tx.txid := p]), id, now);
  }

  lemma RecalculateSettlesIff(s: Store, id: InvoiceId, now: Time)
    requires id in s.invoices && !IsSettled(s.invoices[id].status) && !s.invoices[id].status.Cancelled?
    requires s.invoices[id].required > 0
    ensures var s' := Recalculated(s, id, now);
            && (IsSettled(s'.invoices[id].status) <==> ConfirmedSum(s.payments, id) >= s.invoices[id].required)
            && s'.hooks == if IsSettled(s'.invoices[id].status) then s.hooks + [id] else s.hooks
  {
  }

  // ---------------------------------------------------------------- dust and strangers

  /** Which sightings leave a payment row: exactly those of 0.0001 XMR or more for an address given out. */
  lemma SightingIsRecordedIff(s: Store, tx: Transfer, now: Time)
    requires WellFormed(s)
    ensures var s' := Next(s, Scan(tx, now));
            && (tx.txid in s'.payments <==>
                  tx.txid in s.payments || (tx.amount >= 100_000_000 && tx.address in s.addresses))
            && (tx.amount < 100_000_000 || tx.address !in s.addresses ==> s' == s)
  {
  }

  // ---------------------------------------------------------------- expiry and cancellation

  /** A detected or confirmed payment names the invoice. */
  predicate HasMoney(s: Store, id: InvoiceId) {
    exists t | t in s.payments ::
      s.payments[t].invoice == id && (s.payments[t].status.Detected? || s.payments[t].status.Confirmed?)
  }

  /** The expirer closes exactly the pending invoices whose time is over and that nobody has begun to pay. */
  lemma ExpiresIff(s: Store, order: seq<InvoiceId>, now: Time, id: InvoiceId)
    requires Legal(s, Expire(order, now)) && id in s.invoices
    ensures var inv := s.invoices[id];
            && id in Next(s, Expire(order, now)).invoices
            && Next(s, Expire(order, now)).invoices[id]
            == if inv.status.Pending? && inv.expiresAt < now && !HasMoney(s, id)
               then inv.(status := InvoiceStatus.Expired) else inv
  {
    assert HasMoney(s, id) <==> HasActivePayment(s.payments, id);
    assert id in order <==> Expirable(s, id, now);
  }

  /** A new invoice is pending, unpaid, open until the time asked for, and alone at its address. */
  lemma OpensAsAsked(s: Store, id: InvoiceId, address: Subaddress, required: nat, expiresAt: Time)
    requires Regular(s) && Legal(s, Open(id, address, required, expiresAt))
    ensures var s' := Next(s, Open(id, address, required, expiresAt));
            && id in s'.invoices && s'.invoices[id].status.Pending? && s'.invoices[id].paidAt.None?
            && s'.invoices[id].required == required && s'.invoices[id].expiresAt == expiresAt
            && ConfirmedSum(s'.payments, id) == 0
            && (forall a :: a in s'.addresses && s'.addresses[a] == id ==> a == address)
            && (forall i :: i in s.invoices ==> i in s'.invoices && s'.invoices[i] == s.invoices[i])
  {
    forall t | t in s.payments ensures s.payments[t].invoice != id { assert PaymentOk(s, s.payments[t]); }
    StrangerHasNoSum(s.payments, id);
  }

  /** Cancelling works exactly on pending invoices that nobody has begun to pay, and on nothing else. */
  lemma CancelsIff(s: Store, i: InvoiceId, id: InvoiceId)
    requires id in s.invoices
    ensures var inv := s.invoices[id];
            && id in Next(s, Cancel(i)).invoices
            && Next(s, Cancel(i)).invoices[id]
            == if i == id && inv.status.Pending? && !HasMoney(s, id) then inv.(status := Cancelled) else inv
  {
    assert HasMoney(s, id) <==> HasActivePayment(s.payments, id);
  }

  predicate SameLane(s: Store, s': Store, id: InvoiceId)
    requires id in s.invoices
  {
    id in s'.invoices && (InLateLane(s'.invoices[id].status) <==> InLateLane(s.invoices[id].status))
  }

  lemma RecalculateKeepsLane(s: Store, s1: Store, i: InvoiceId, now: Time, id: InvoiceId)
    requires s1.invoices == s.invoices && i in s.invoices && id in s.invoices
    ensures SameLane(s, Recalculated(s1, i, now), id)
  {
  }

  lemma ScanKeepsLane(s: Store, tx: Transfer, now: Time, id: InvoiceId)
    requires id in s.invoices
    ensures SameLane(s, Scanned(s, tx, now), id)
  {
    if Relevant(s, tx) {
      var i := s.addresses[tx.address];
      var p := if tx.txid in s.payments then Refreshed(s.payments[tx.txid], tx.confirmations, tx.height)
               else Recorded(tx, i);
      RecalculateKeepsLane(s, s.(payments := s.payments[tx.txid := p]), i, now, id);
    }
  }

  lemma DropKeepsLane(s: Store, t: TxId, now: Time, id: InvoiceId)
    requires Linked(s, t) && id in s.invoices
    ensures SameLane(s, Dropped(s, t, now), id)
  {
    var p := s.payments[t].(status := Orphaned);
    RecalculateKeepsLane(s, s.(payments := s.payments[t := p]), p.invoice, now, id);
  }

  lemma PollKeepsLane(s: Store, t: TxId, reply: Reply, now: Time, id: InvoiceId)
    requires Linked(s, t) && id in s.invoices
    ensures SameLane(s, Polled(s, t, reply, now), id)
  {
    match reply
    case Failed =>
    case Missing => DropKeepsLane(s, t, now, id);
    case Found(confirmations, height) =>
      var p := Refreshed(s.payments[t], confirmations, height);
      RecalculateKeepsLane(s, s.(misses := s.misses - {t}, payments := s.payments[t := p]), p.invoice, now, id);
  }

  /** Only the expirer changes lanes. */
  lemma StepKeepsLane(s: Store, a: Action, id: InvoiceId)
    requires Legal(s, a) && id in s.invoices && !a.Expire?
    ensures SameLane(s, Next(s, a), id)
  {
    match a
    case Open(_, _, _, _) =>
    case Scan(tx, now) => ScanKeepsLane(s, tx, now, id);
    case Poll(t, reply, now) => if Linked(s, t) { PollKeepsLane(s, t, reply, now, id); }
    case Reorg(t, now) => if Linked(s, t) { DropKeepsLane(s, t, now, id); }
    case Cancel(_) =>
  }

  /** An invoice is never expired, nor paid late, while every pass of the expirer comes within its time. */
  lemma {:induction false} NotExpiredBeforeItsTime(s: Store, actions: seq<Action>, id: InvoiceId)
    requires LegalRun(s, actions) && id in s.invoices && !InLateLane(s.invoices[id].status)
    requires forall a :: a in actions && a.Expire? ==> a.now <= s.invoices[id].expiresAt
    ensures id in Run(s, actions).invoices
    ensures !Run(s, actions).invoices[id].status.Expired? && !Run(s, actions).invoices[id].status.LatePaid?
    decreases |actions|
  {
    if actions != [] {
      var a := actions[0];
      assert a in actions;
      StepKeepsInvoice(s, a, id);
      if a.Expire? { ExpiresIff(s, a.order, a.now, id); } else { StepKeepsLane(s, a, id); }
      NotExpiredBeforeItsTime(Next(s, a), actions[1..], id);
    }
  }

  // ---------------------------------------------------------------- notices of expiry

  function Expirations(es: seq<Emission>, id: InvoiceId): nat {
    if es == [] then 0
    else Expirations(es[..|es| - 1], id) +
         if es[|es| - 1].event == InvoiceExpired && es[|es| - 1].invoice == id then 1 else 0
  }

  lemma ExpirationsAppend(es: seq<Emission>, e: Emission, id: InvoiceId)
    ensures Expirations(es + [e], id)
         == Expirations(es, id) + if e.event == InvoiceExpired && e.invoice == id then 1 else 0
  {
    assert (es + [e])[..|es|] == es;
  }

  lemma {:induction false} OtherEventsAreNoExpirations(es: seq<Emission>, events: seq<Event>, i: InvoiceId, t: TxId,
                                                      id: InvoiceId)
    requires InvoiceExpired !in events
    ensures Expirations(es + Emissions(events, i, Some(t)), id) == Expirations(es, id)
    decreases |events|
  {
    var batch := Emissions(events, i, Some(t));
    if events == [] {
      assert es + batch == es;
    } else {
      var n := |events| - 1;
      var init := Emissions(events[..n], i, Some(t));
      assert events[n] in events;
      OtherEventsAreNoExpirations(es, events[..n], i, t, id);
      assert es + batch == es + init + [Emission(events[n], i, Some(t))];
      ExpirationsAppend(es + init, Emission(events[n], i, Some(t)), id);
    }
  }

  lemma {:induction false} NoticesAreExpirations(es: seq<Emission>, order: seq<InvoiceId>, id: InvoiceId)
    requires forall j, k :: 0 <= j < k < |order| ==> order[j] != order[k]
    ensures Expirations(es + ExpiryNotices(order), id) == Expirations(es, id) + if id in order then 1 else 0
    decreases |order|
  {
    if order == [] {
      assert es + ExpiryNotices(order) == es;
    } else {
      var n := |order| - 1;
      var init := es + ExpiryNotices(order[..n]);
      NoticesAreExpirations(es, order[..n], id);
      assert es + ExpiryNotices(order) == init + [Emission(InvoiceExpired, order[n], None)];
      ExpirationsAppend(init, Emission(InvoiceExpired, order[n], None), id);
      assert order == order[..n] + [order[n]];
    }
  }

  /** As many notices as there were entries into the late lane: one, or none. */
  predicate NoticesTell(s: Store, id: InvoiceId) {
    Expirations(s.outbox, id) == if id in s.invoices && InLateLane(s.invoices[id].status) then 1 else 0
  }

  lemma AnnouncingExpiresNobody(s: Store, s1: Store, i: InvoiceId, t: TxId, id: InvoiceId)
    requires i in s.invoices && i in s1.invoices && t in s1.payments && s1.outbox == s.outbox
    requires Reachable(s.invoices[i].status, s1.invoices[i].status)
    ensures Expirations(Announced(s, s1, i, t).outbox, id) == Expirations(s.outbox, id)
  {
    var before, after := StatusOf(s, t), s1.payments[t].status;
    var old', new' := s.invoices[i].status, s1.invoices[i].status;
    EventsExactly(before, after, old', new', InvoiceExpired);
    OtherEventsAreNoExpirations(s.outbox, EventsFor(before, after, old', new'), i, t, id);
  }

  lemma StepKeepsNotices(s: Store, a: Action, id: InvoiceId)
    requires Legal(s, a) && NoticesTell(s, id)
    ensures NoticesTell(Next(s, a), id)
  {
    match a
    case Open(_, _, _, _) =>
    case Scan(tx, now) =>
      ScanExpiresNobody(s, tx, now, id);
      if id in s.invoices { StepKeepsLane(s, a, id); }
    case Poll(t, reply, now) =>
      if Linked(s, t) { PollExpiresNobody(s, t, reply, now, id); }
      if id in s.invoices { StepKeepsLane(s, a, id); }
    case Reorg(t, now) =>
      if Linked(s, t) { ReorgExpiresNobody(s, t, now, id); }
      if id in s.invoices { StepKeepsLane(s, a, id); }
    case Expire(order, now) =>
      NoticesAreExpirations(s.outbox, order, id);
      if id in s.invoices { ExpiresIff(s, order, now, id); }
    case Cancel(_) =>
  }

  lemma ScanExpiresNobody(s: Store, tx: Transfer, now: Time, id: InvoiceId)
    ensures Expirations(Scanned(s, tx, now).outbox, id) == Expirations(s.outbox, id)
    ensures Scanned(s, tx, now).invoices.Keys == s.invoices.Keys
  {
    if Relevant(s, tx) {
      AnnouncingExpiresNobody(s, Transferred(s, tx, now), s.addresses[tx.address], tx.txid, id);
    }
  }

  lemma ReorgExpiresNobody(s: Store, t: TxId, now: Time, id: InvoiceId)
    requires Linked(s, t)
    ensures Expirations(Dropped(s, t, now).outbox, id) == Expirations(s.outbox, id)
    ensures Dropped(s, t, now).invoices.Keys == s.invoices.Keys
  {
    AnnouncingExpiresNobody(s, Reorged(s, t, now), s.payments[t].invoice, t, id);
  }

  lemma PollExpiresNobody(s: Store, t: TxId, reply: Reply, now: Time, id: InvoiceId)
    requires Linked(s, t)
    ensures Expirations(Polled(s, t, reply, now).outbox, id) == Expirations(s.outbox, id)
    ensures Polled(s, t, reply, now).invoices.Keys == s.invoices.Keys
  {
    match reply
    case Failed =>
    case Missing => AnnouncingExpiresNobody(s, Reorged(s, t, now), s.payments[t].invoice, t, id);
    case Found(confirmations, height) =>
      var p := Refreshed(s.payments[t], confirmations, height);
      var s1 := s.(misses := s.misses - {t}, payments := s.payments[t := p]);
      AnnouncingExpiresNobody(s, Recalculated(s1, p.invoice, now), p.invoice, t, id);
  }

  lemma {:induction false} RunKeepsNotices(s: Store, actions: seq<Action>, id: InvoiceId)
    requires LegalRun(s, actions) && NoticesTell(s, id)
    ensures NoticesTell(Run(s, actions), id)
    decreases |actions|
  {
    if actions != [] {
      StepKeepsNotices(s, actions[0], id);
      RunKeepsNotices(Next(s, actions[0]), actions[1..], id);
    }
  }

  /** Over every run `invoice.expired` is queued once for each invoice in the late lane, and for no other. */
  lemma ExpiryIsAnnouncedOnce(actions: seq<Action>, id: InvoiceId)
    requires LegalRun(EMPTY, actions)
    ensures var s := Run(EMPTY, actions);
            var late := id in s.invoices && (s.invoices[id].status.Expired? || s.invoices[id].status.LatePaid?);
            Expirations(s.outbox, id) == if late then 1 else 0
  {
    RunKeepsNotices(EMPTY, actions, id);
  }

  // ---------------------------------------------------------------- the time of settlement

  function TimeOf(a: Action): Time {
    match a
    case Scan(_, now) => now
    case Poll(_, _, now) => now
    case Reorg(_, now) => now
    case Expire(_, now) => now
    case _ => 0
  }

  /** The step from `s` to `s'` moves the invoice to another status, one of the paid ones. */
  predicate Settling(s: Store, s': Store, id: InvoiceId) {
    && id in s.invoices && id in s'.invoices
    && s'.invoices[id].status != s.invoices[id].status
    && s'.invoices[id].status in {Paid, Overpaid, LatePaid}
  }

  /** The time of the last step of the run that moved the invoice to a paid status; `known` if none did. */
  ghost function SettledAt(s: Store, actions: seq<Action>, id: InvoiceId, known: Option<Time>): Option<Time>
    decreases |actions|
  {
    if actions == [] then known
    else
      var s' := Next(s, actions[0]);
      SettledAt(s', actions[1..], id, if Settling(s, s', id) then Some(TimeOf(actions[0])) else known)
  }

  predicate Stamps(s: Store, s': Store, id: InvoiceId, now: Time)
    requires id in s.invoices
  {
    && id in s'.invoices
    && s'.invoices[id].paidAt == if Settling(s, s', id) then Some(now) else s.invoices[id].paidAt
  }

  lemma RecalculateStamps(s: Store, s1: Store, i: InvoiceId, now: Time, id: InvoiceId)
    requires s1.invoices == s.invoices && i in s.invoices && id in s.invoices
    ensures Stamps(s, Recalculated(s1, i, now), id, now)
  {
  }

  lemma ScanStamps(s: Store, tx: Transfer, now: Time, id: InvoiceId)
    requires id in s.invoices
    ensures Stamps(s, Scanned(s, tx, now), id, now)
  {
    if Relevant(s, tx) {
      var i := s.addresses[tx.address];
      var p := if tx.txid in s.payments then Refreshed(s.payments[tx.txid], tx.confirmations, tx.height)
               else Recorded(tx, i);
      RecalculateStamps(s, s.(payments := s.payments[tx.txid := p]), i, now, id);
    }
  }

  lemma DropStamps(s: Store, t: TxId, now: Time, id: InvoiceId)
    requires Linked(s, t) && id in s.invoices
    ensures Stamps(s, Dropped(s, t, now), id, now)
  {
    var p := s.payments[t].(status := Orphaned);
    RecalculateStamps(s, s.(payments := s.payments[t := p]), p.invoice, now, id);
  }

  lemma PollStamps(s: Store, t: TxId, reply: Reply, now: Time, id: InvoiceId)
    requires Linked(s, t) && id in s.invoices
    ensures Stamps(s, Polled(s, t, reply, now), id, now)
  {
    match reply
    case Failed =>
    case Missing => DropStamps(s, t, now, id);
    case Found(confirmations, height) =>
      var p := Refreshed(s.payments[t], confirmations, height);
      RecalculateStamps(s, s.(misses := s.misses - {t}, payments := s.payments[t := p]), p.invoice, now, id);
  }

  lemma StepStamps(s: Store, a: Action, id: InvoiceId)
    requires Legal(s, a) && id in s.invoices
    ensures Stamps(s, Next(s, a), id, TimeOf(a))
  {
    match a
    case Open(_, _, _, _) =>
    case Scan(tx, now) => ScanStamps(s, tx, now, id);
    case Poll(t, reply, now) => if Linked(s, t) { PollStamps(s, t, reply, now, id); }
    case Reorg(t, now) => if Linked(s, t) { DropStamps(s, t, now, id); }
    case Expire(_, _) =>
    case Cancel(_) =>
  }

  /** Over every run `paid_at` is the time of the last step that made the invoice paid, overpaid or late paid. */
  lemma {:induction false} PaidAtIsTheLastSettlement(s: Store, actions: seq<Action>, id: InvoiceId)
    requires LegalRun(s, actions) && id in s.invoices
    ensures id in Run(s, actions).invoices
    ensures Run(s, actions).invoices[id].paidAt == SettledAt(s, actions, id, s.invoices[id].paidAt)
    decreases |actions|
  {
    if actions != [] {
      StepStamps(s, actions[0], id);
      PaidAtIsTheLastSettlement(Next(s, actions[0]), actions[1..], id);
    }
  }
}
