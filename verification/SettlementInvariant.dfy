/**
  What every run of the settlement services keeps.

  The status of an invoice is maintained step by step; `StatusFollowsSum` says that it is
  nevertheless always the one a recomputation from the confirmed sum would give.
 */
module SettlementInvariant {
  import opened Common
  import opened Settlement
  import opened SettlementSums

  predicate PaymentOk(s: Store, p: Payment) {
    && p.invoice in s.invoices
    && p.amount >= DUST_THRESHOLD_ATOMIC
    && (p.status.Confirmed? ==> p.confirmations >= CONFIRMATION_THRESHOLD)
    && (p.status.Detected? ==> p.confirmations < CONFIRMATION_THRESHOLD)
  }

  predicate WellFormed(s: Store) {
    && (forall a | a in s.addresses :: s.addresses[a] in s.invoices)
    && (forall id | id in s.invoices :: s.invoices[id].required > 0)
    && (forall t | t in s.payments :: PaymentOk(s, s.payments[t]))
    && (forall t | t in s.misses :: 0 < s.misses[t] < TX_MISS_ORPHAN_THRESHOLD)
  }

  ghost predicate StatusFollowsSum(s: Store, id: InvoiceId)
    requires id in s.invoices
  {
    var inv := s.invoices[id];
    && inv.status == Target(inv.status, ConfirmedSum(s.payments, id), inv.required)
    && (IsSettled(inv.status) ==> inv.paidAt.Some?)
  }

  ghost predicate Settles(s: Store) {
    forall id :: id in s.invoices ==> StatusFollowsSum(s, id)
  }

  // ---------------------------------------------------------------- listening to the events

  function Hear(heard: bool, e: Emission, id: InvoiceId): bool {
    if e.invoice != id then heard
    else match e.event
      case InvoicePaid => true
      case InvoiceOverpaid => true
      case InvoiceLatePaid => true
      case InvoiceReverted => false
      case _ => heard
  }

  /** What a receiver of the events `es` believes about "invoice `id` is settled". */
  function Heard(es: seq<Emission>, id: InvoiceId): bool {
    if es == [] then false else Hear(Heard(es[..|es| - 1], id), es[|es| - 1], id)
  }

  function Count(es: seq<Emission>, e: Event, t: TxId): nat {
    if es == [] then 0
    else Count(es[..|es| - 1], e, t) +
         if es[|es| - 1].event == e && es[|es| - 1].payment == Some(t) then 1 else 0
  }

  function Reversals(es: seq<Emission>, id: InvoiceId): nat {
    if es == [] then 0
    else Reversals(es[..|es| - 1], id) +
         if es[|es| - 1].event == InvoiceReverted && es[|es| - 1].invoice == id then 1 else 0
  }

  function Calls(hooks: seq<InvoiceId>, id: InvoiceId): nat {
    if hooks == [] then 0 else Calls(hooks[..|hooks| - 1], id) + if hooks[|hooks| - 1] == id then 1 else 0
  }

  /** Receivers of the events, and the hooks called, agree with the invoice table. */
  predicate InvoiceFaithful(s: Store, id: InvoiceId)
    requires id in s.invoices
  {
    var settled := IsSettled(s.invoices[id].status);
    && Heard(s.outbox, id) == settled
    && Calls(s.hooks, id) == Reversals(s.outbox, id) + if settled then 1 else 0
  }

  predicate PaymentFaithful(s: Store, t: TxId) {
    && Count(s.outbox, PaymentDetected, t) == (if t in s.payments then 1 else 0)
    && Count(s.outbox, PaymentConfirmed, t) <= 1
    && (t in s.payments && s.payments[t].status.Detected? ==> Count(s.outbox, PaymentConfirmed, t) == 0)
    && (t !in s.payments ==> Count(s.outbox, PaymentConfirmed, t) == 0)
  }

  predicate Unheard(s: Store, id: InvoiceId) {
    !Heard(s.outbox, id) && Calls(s.hooks, id) == 0 && Reversals(s.outbox, id) == 0
  }

  ghost predicate Faithful(s: Store) {
    && (forall id :: id in s.invoices ==> InvoiceFaithful(s, id))
    && (forall id :: id !in s.invoices ==> Unheard(s, id))
    && (forall t :: PaymentFaithful(s, t))
  }

  /** What every run keeps, whatever the transactions look like. */
  ghost predicate Regular(s: Store) {
    WellFormed(s) && Faithful(s)
  }

  ghost predicate Inv(s: Store) {
    Regular(s) && Settles(s)
  }

  // ---------------------------------------------------------------- the table and the target

  /** Recomputing one invoice leaves it, and nothing else, at its target. */
  lemma RecalculateSettles(s: Store, id: InvoiceId, now: Time)
    requires id in s.invoices
    requires IsSettled(s.invoices[id].status) ==> s.invoices[id].paidAt.Some?
    requires forall i :: i in s.invoices && i != id ==> StatusFollowsSum(s, i)
    ensures Settles(Recalculated(s, id, now))
  {
    var s' := Recalculated(s, id, now);
    forall i | i in s'.invoices ensures StatusFollowsSum(s', i) {
      assert i != id ==> s'.invoices[i] == s.invoices[i] && StatusFollowsSum(s, i);
    }
  }

  /** Changing a payment of invoice `id` leaves the other invoices' sums alone. */
  lemma OtherInvoicesKeepTheirSum(s: Store, t: TxId, p: Payment)
    requires t in s.payments ==> s.payments[t].invoice == p.invoice
    ensures forall i :: i != p.invoice ==> ConfirmedSum(s.payments[t := p], i) == ConfirmedSum(s.payments, i)
  {
    forall i | i != p.invoice ensures ConfirmedSum(s.payments[t := p], i) == ConfirmedSum(s.payments, i) {
      if t in s.payments { SumReplace(s.payments, i, t, p); } else { SumInsert(s.payments, i, t, p); }
    }
  }

  lemma UpdateThenRecalculateSettles(s: Store, t: TxId, p: Payment, now: Time)
    requires Settles(s) && p.invoice in s.invoices
    requires t in s.payments ==> s.payments[t].invoice == p.invoice
    ensures Settles(Recalculated(s.(payments := s.payments[t := p]), p.invoice, now))
  {
    var s1 := s.(payments := s.payments[t := p]);
    OtherInvoicesKeepTheirSum(s, t, p);
    assert StatusFollowsSum(s, p.invoice);
    forall i | i in s1.invoices && i != p.invoice ensures StatusFollowsSum(s1, i) {
      assert StatusFollowsSum(s, i);
    }
    RecalculateSettles(s1, p.invoice, now);
  }

  /** A payment change that moves no credit moves no sum. */
  lemma SilentUpdateSettles(s: Store, t: TxId, p: Payment)
    requires Settles(s) && t in s.payments && s.payments[t].invoice == p.invoice
    requires Credit(p, p.invoice) == Credit(s.payments[t], p.invoice)
    ensures Settles(s.(payments := s.payments[t := p]))
  {
    var s1 := s.(payments := s.payments[t := p]);
    OtherInvoicesKeepTheirSum(s, t, p);
    SumReplace(s.payments, p.invoice, t, p);
    forall i | i in s1.invoices ensures StatusFollowsSum(s1, i) {
      assert StatusFollowsSum(s, i);
    }
  }

  lemma TransferSettles(s: Store, tx: Transfer, now: Time)
    requires WellFormed(s) && Settles(s) && !Foreign(s, tx)
    ensures Settles(Transferred(s, tx, now))
  {
    if Relevant(s, tx) {
      var id := s.addresses[tx.address];
      if tx.txid in s.payments {
        var p := Refreshed(s.payments[tx.txid], tx.confirmations, tx.height);
        if p.status.Confirmed? {
          UpdateThenRecalculateSettles(s, tx.txid, p, now);
        } else {
          SilentUpdateSettles(s, tx.txid, p);
        }
      } else {
        UpdateThenRecalculateSettles(s, tx.txid, Recorded(tx, id), now);
      }
    }
  }

  lemma ReorgSettles(s: Store, t: TxId, now: Time)
    requires WellFormed(s) && Settles(s) && t in s.payments
    ensures Settles(Reorged(s, t, now))
  {
    var p := s.payments[t];
    if !p.status.Orphaned? {
      UpdateThenRecalculateSettles(s, t, p.(status := Orphaned), now);
    }
  }

  lemma ExpireSettles(s: Store, order: seq<InvoiceId>, now: Time)
    requires WellFormed(s) && Settles(s) && ListsExpirable(s, order, now)
    ensures Settles(BatchExpired(s, order))
  {
    var s' := BatchExpired(s, order);
    forall id | id in s'.invoices ensures StatusFollowsSum(s', id) {
      assert StatusFollowsSum(s, id);
      if id in order {
        NoActivePaymentNoSum(s.payments, id);
      }
    }
  }

  // ---------------------------------------------------------------- the events of one step

  lemma HeardAppend(es: seq<Emission>, e: Emission, id: InvoiceId, t: TxId, v: Event)
    ensures Heard(es + [e], id) == Hear(Heard(es, id), e, id)
    ensures Reversals(es + [e], id)
         == Reversals(es, id) + if e.event == InvoiceReverted && e.invoice == id then 1 else 0
    ensures Count(es + [e], v, t) == Count(es, v, t) + if e.event == v && e.payment == Some(t) then 1 else 0
  {
    assert (es + [e])[..|es|] == es;
  }

  lemma CallsAppend(hooks: seq<InvoiceId>, h: InvoiceId, id: InvoiceId)
    ensures Calls(hooks + [h], id) == Calls(hooks, id) + if h == id then 1 else 0
  {
    assert (hooks + [h])[..|hooks|] == hooks;
  }

  function Gain(events: seq<Event>, v: Event): nat {
    if events == [] then 0 else Gain(events[..|events| - 1], v) + if events[|events| - 1] == v then 1 else 0
  }

  function Belief(start: bool, events: seq<Event>): bool {
    if events == [] then start
    else
      var b := Belief(start, events[..|events| - 1]);
      match events[|events| - 1]
      case InvoicePaid => true
      case InvoiceOverpaid => true
      case InvoiceLatePaid => true
      case InvoiceReverted => false
      case _ => b
  }

  /** Folding a batch of emissions about one invoice and one payment. */
  lemma {:induction false} HeardBatch(es: seq<Emission>, events: seq<Event>, id: InvoiceId, t: TxId)
    ensures var out := es + Emissions(events, id, Some(t));
            && Heard(out, id) == Belief(Heard(es, id), events)
            && Reversals(out, id) == Reversals(es, id) + Gain(events, InvoiceReverted)
            && (forall i :: i != id ==> Heard(out, i) == Heard(es, i) && Reversals(out, i) == Reversals(es, i))
            && (forall v :: Count(out, v, t) == Count(es, v, t) + Gain(events, v))
            && (forall v, u :: u != t ==> Count(out, v, u) == Count(es, v, u))
    decreases |events|
  {
    var batch := Emissions(events, id, Some(t));
    if events == [] {
      assert es + batch == es;
    } else {
      var init := events[..|events| - 1];
      var e := Emission(events[|events| - 1], id, Some(t));
      HeardBatch(es, init, id, t);
      var mid := es + Emissions(init, id, Some(t));
      assert es + batch == mid + [e];
      forall i, u, v {
        HeardAppend(mid, e, i, u, v);
      }
    }
  }

  lemma {:induction false} BeliefConcat(start: bool, a: seq<Event>, b: seq<Event>, v: Event)
    ensures Belief(start, a + b) == Belief(Belief(start, a), b)
    ensures Gain(a + b, v) == Gain(a, v) + Gain(b, v)
    decreases |b|
  {
    if b == [] {
      assert a + b == a;
    } else {
      assert (a + b)[..|a + b| - 1] == a + b[..|b| - 1];
      BeliefConcat(start, a, b[..|b| - 1], v);
    }
  }

  lemma BeliefOne(start: bool, e: Event, v: Event)
    ensures Belief(start, [e]) == Hear(start, Emission(e, 0, None), 0)
    ensures Gain([e], v) == if e == v then 1 else 0
  {
    assert [e][..0] == [];
  }

  predicate IsOnly(events: seq<Event>, v: Event) {
    |events| == 1 && events[0] == v
  }

  lemma InvoiceEventsTell(old': InvoiceStatus, new': InvoiceStatus, v: Event)
    requires Reachable(old', new')
    ensures Belief(IsSettled(old'), InvoiceEvents(old', new')) == IsSettled(new')
    ensures Gain(InvoiceEvents(old', new'), v) ==
            if IsOnly(InvoiceEvents(old', new'), v) then 1 else 0
  {
    var i := InvoiceEvents(old', new');
    if i != [] {
      assert i == [i[0]];
      BeliefOne(IsSettled(old'), i[0], v);
    }
  }

  lemma PaymentEventsTell(start: bool, before: Option<PaymentStatus>, after: PaymentStatus, inv: InvoiceStatus,
                          v: Event)
    ensures Belief(start, PaymentEvents(before, after) + ExceptionEvents(before, inv)) == start
    ensures Gain(PaymentEvents(before, after) + ExceptionEvents(before, inv), v)
         == (if IsOnly(PaymentEvents(before, after), v) then 1 else 0)
          + (if IsOnly(ExceptionEvents(before, inv), v) then 1 else 0)
  {
    var p, x := PaymentEvents(before, after), ExceptionEvents(before, inv);
    BeliefConcat(start, p, x, v);
    if p != [] { BeliefOne(start, p[0], v); assert p == [p[0]]; }
    if x != [] { BeliefOne(start, x[0], v); assert x == [x[0]]; }
  }

  /** The events of one step carry the receiver from the old settled flag to the new one. */
  lemma EventsTell(before: Option<PaymentStatus>, after: PaymentStatus, old': InvoiceStatus, new': InvoiceStatus)
    requires Reachable(old', new')
    ensures var events := EventsFor(before, after, old', new');
            && Belief(IsSettled(old'), events) == IsSettled(new')
            && Gain(events, InvoiceReverted) == (if IsSettled(old') && !IsSettled(new') then 1 else 0)
            && Gain(events, PaymentDetected) == (if before.None? then 1 else 0)
            && Gain(events, PaymentConfirmed) == (if before == Some(Detected) && after.Confirmed? then 1 else 0)
  {
    Beliefs(before, after, old', new');
    ReversalsGained(before, after, old', new');
    DetectionsGained(before, after, old', new');
    ConfirmationsGained(before, after, old', new');
  }

  lemma ReversalsGained(before: Option<PaymentStatus>, after: PaymentStatus, old': InvoiceStatus, new': InvoiceStatus)
    requires Reachable(old', new')
    ensures Gain(EventsFor(before, after, old', new'), InvoiceReverted)
         == if IsSettled(old') && !IsSettled(new') then 1 else 0
  {
    Gains(before, after, old', new', InvoiceReverted);
  }

  lemma DetectionsGained(before: Option<PaymentStatus>, after: PaymentStatus, old': InvoiceStatus, new': InvoiceStatus)
    requires Reachable(old', new')
    ensures Gain(EventsFor(before, after, old', new'), PaymentDetected) == if before.None? then 1 else 0
  {
    Gains(before, after, old', new', PaymentDetected);
  }

  lemma ConfirmationsGained(before: Option<PaymentStatus>, after: PaymentStatus,
                            old': InvoiceStatus, new': InvoiceStatus)
    requires Reachable(old', new')
    ensures Gain(EventsFor(before, after, old', new'), PaymentConfirmed)
         == if before == Some(Detected) && after.Confirmed? then 1 else 0
  {
    Gains(before, after, old', new', PaymentConfirmed);
  }

  lemma Beliefs(before: Option<PaymentStatus>, after: PaymentStatus, old': InvoiceStatus, new': InvoiceStatus)
    requires Reachable(old', new')
    ensures Belief(IsSettled(old'), EventsFor(before, after, old', new')) == IsSettled(new')
  {
    BeliefConcat(IsSettled(old'), PaymentEvents(before, after) + ExceptionEvents(before, old'),
                 InvoiceEvents(old', new'), PaymentDetected);
    PaymentEventsTell(IsSettled(old'), before, after, old', PaymentDetected);
    InvoiceEventsTell(old', new', PaymentDetected);
  }

  lemma Gains(before: Option<PaymentStatus>, after: PaymentStatus, old': InvoiceStatus, new': InvoiceStatus, v: Event)
    requires Reachable(old', new')
    ensures Gain(EventsFor(before, after, old', new'), v)
         == (if IsOnly(PaymentEvents(before, after), v) then 1 else 0)
          + (if IsOnly(ExceptionEvents(before, old'), v) then 1 else 0)
          + (if IsOnly(InvoiceEvents(old', new'), v) then 1 else 0)
  {
    var head, i := PaymentEvents(before, after) + ExceptionEvents(before, old'), InvoiceEvents(old', new');
    BeliefConcat(true, head, i, v);
    assert Gain(head, v) == (if IsOnly(PaymentEvents(before, after), v) then 1 else 0)
                          + if IsOnly(ExceptionEvents(before, old'), v) then 1 else 0 by {
      PaymentEventsTell(true, before, after, old', v);
    }
    assert Gain(i, v) == if IsOnly(i, v) then 1 else 0 by { InvoiceEventsTell(old', new', v); }
  }

  /** Which event is queued when, exactly. */
  lemma EventsExactly(before: Option<PaymentStatus>, after: PaymentStatus,
                      old': InvoiceStatus, new': InvoiceStatus, e: Event)
    requires Reachable(old', new')
    ensures e in EventsFor(before, after, old', new') <==>
              match e
              case PaymentDetected => before.None?
              case PaymentConfirmed => before == Some(Detected) && after.Confirmed?
              case PaymentOrphaned => before.Some? && after.Orphaned?
              case InvoiceExceptionPayment => before.None? && old'.Cancelled?
              case InvoiceReverted => IsSettled(old') && !IsSettled(new')
              case InvoicePaid => new'.Paid? && !old'.Paid?
              case InvoicePartiallyPaid => new'.PartiallyPaid? && old'.Pending?
              case InvoiceOverpaid => new'.Overpaid? && !old'.Overpaid?
              case InvoiceLatePaid => new'.LatePaid? && !old'.LatePaid?
              case InvoiceExpired => false
  {
    var head, i := PaymentEvents(before, after) + ExceptionEvents(before, old'), InvoiceEvents(old', new');
    assert e in EventsFor(before, after, old', new') <==> e in head || e in i;
    assert e in head <==> e in PaymentEvents(before, after) || e in ExceptionEvents(before, old');
  }

  /** The statuses a recomputation can lead to: cancelled and the late lane are never left. */
  predicate Reachable(old': InvoiceStatus, new': InvoiceStatus) {
    && (old'.Cancelled? <==> new'.Cancelled?)
    && (InLateLane(old') <==> InLateLane(new'))
  }
}
