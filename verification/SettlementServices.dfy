/** The payment, invoice and expiry services and the detection loops, over tables updated in place. */
module SettlementServices {
  import opened Common
  import opened Settlement
  import opened SettlementSums
  import opened SettlementInvariant

  datatype InvoiceError = InvoiceNotFound | InvoiceState | InvoiceValidation | WalletUnavailable

  function ValidTransitions(current: InvoiceStatus): set<InvoiceStatus> {
    match current
    case Pending => {Paid, PartiallyPaid, InvoiceStatus.Expired, Cancelled}
    case PartiallyPaid => {Paid, Overpaid, Pending}
    case Expired => {LatePaid}
    case Paid => {Overpaid, PartiallyPaid, Pending}
    case Overpaid => {Paid, PartiallyPaid, Pending}
    case LatePaid => {InvoiceStatus.Expired}
    case Cancelled => {}
  }

  predicate CanTransition(current: InvoiceStatus, target: InvoiceStatus) {
    target in ValidTransitions(current)
  }

  /**
    The table in one sentence: among pending, partially paid, paid and overpaid every change but the one
    from pending to overpaid; between expired and late paid both; and from pending to expired or cancelled.
   */
  lemma TransitionsIff(current: InvoiceStatus, target: InvoiceStatus)
    ensures CanTransition(current, target) <==>
              var lane := {Pending, PartiallyPaid, Paid, Overpaid};
              || (current in lane && target in lane && current != target && !(current.Pending? && target.Overpaid?))
              || (current.Expired? && target.LatePaid?) || (current.LatePaid? && target.Expired?)
              || (current.Pending? && (target.Expired? || target.Cancelled?))
  {
  }

  /** Folding the scan step over a list of transfers, last one outermost. */
  ghost function ScannedAll(s: Store, txs: seq<Transfer>, now: Time): Store
    decreases |txs|
  {
    if txs == [] then s else Scanned(ScannedAll(s, txs[..|txs| - 1], now), txs[|txs| - 1], now)
  }

  ghost function PolledAll(s: Store, order: seq<TxId>, ask: TxId -> Reply, now: Time): Store
    decreases |order|
  {
    if order == [] then s
    else
      var t := order[|order| - 1];
      Next(PolledAll(s, order[..|order| - 1], ask, now), Poll(t, ask(t), now))
  }

  /** How many of `txs` lead to a payment row. */
  function Matching(s: Store, txs: seq<Transfer>): nat {
    if txs == [] then 0
    else Matching(s, txs[..|txs| - 1]) + if Relevant(s, txs[|txs| - 1]) then 1 else 0
  }

  /** The count goes up by one for each transfer of 0.0001 XMR or more to a known address, and only then. */
  lemma MatchingGrows(s: Store, txs: seq<Transfer>, tx: Transfer)
    requires WellFormed(s)
    ensures Matching(s, txs + [tx])
         == Matching(s, txs) + if tx.amount >= 100_000_000 && tx.address in s.addresses then 1 else 0
  {
    assert (txs + [tx])[..|txs|] == txs;
  }

  /** How many of the payments `order` are confirmed. */
  function ConfirmedAmong(payments: map<TxId, Payment>, order: seq<TxId>): nat {
    if order == [] then 0
    else
      var t := order[|order| - 1];
      ConfirmedAmong(payments, order[..|order| - 1]) + if t in payments && payments[t].status.Confirmed? then 1 else 0
  }

  lemma {:induction false} ConfirmedAmongFrame(a: map<TxId, Payment>, b: map<TxId, Payment>, order: seq<TxId>)
    requires forall t :: t in order ==> t in a && t in b && a[t] == b[t]
    ensures ConfirmedAmong(a, order) == ConfirmedAmong(b, order)
    decreases |order|
  {
    if order != [] {
      assert order[|order| - 1] in order;
      ConfirmedAmongFrame(a, b, order[..|order| - 1]);
    }
  }

  class SettlementEngine {
    var addresses: map<Subaddress, InvoiceId>
    var invoices: map<InvoiceId, Invoice>
    var payments: map<TxId, Payment>
    var outbox: seq<Emission>
    var hooks: seq<InvoiceId>
    var misses: map<TxId, nat>

    ghost function State(): Store
      reads this
    {
      Store(addresses, invoices, payments, outbox, hooks, misses)
    }

    constructor ()
      ensures State() == EMPTY
    {
      addresses, invoices, payments, outbox, hooks, misses := map[], map[], map[], [], [], map[];
    }

    // -------------------------------------------------------------- invoices

    method ParseAmountXmr(xmr: real) returns (ok: bool)
      ensures ok <==> 0.0 < xmr <= 1_000_000_000.0
    {
      if xmr <= 0.0 {
        return false;
      }
      if xmr > 1_000_000_000.0 {
        return false;
      }
      return true;
    }

    method ValidateExpiresIn(expiresIn: Option<int>) returns (seconds: Option<int>)
      ensures var asked := if expiresIn.None? then EXPIRES_IN_DEFAULT else expiresIn.value;
              seconds == if EXPIRES_IN_MIN <= asked <= EXPIRES_IN_MAX then Some(asked) else None
    {
      if expiresIn.None? {
        return Some(EXPIRES_IN_DEFAULT);
      }
      if expiresIn.value < EXPIRES_IN_MIN || expiresIn.value > EXPIRES_IN_MAX {
        return None;
      }
      return expiresIn;
    }

    /** The row is inserted before wallet-rpc is asked, and deleted again when it fails. */
    method CreateInvoice(id: InvoiceId, xmr: real, expiresIn: Option<int>, wallet: Option<Subaddress>, now: Time)
      returns (r: Result<InvoiceId, InvoiceError>)
      requires id !in invoices
      requires wallet.Some? ==> wallet.value !in addresses
      modifies this
      ensures var seconds := if expiresIn.None? then 3600 else expiresIn.value;
              if !(600 <= seconds <= 2592000) || !ValidAmount(xmr) then
                r == Err(InvoiceValidation) && State() == old(State())
              else if wallet.None? then
                r == Err(WalletUnavailable) && State() == old(State())
              else
                && r == Ok(id)
                && State() == Opened(old(State()), id, wallet.value, ToAtomic(xmr), now + seconds * SECOND)
                && invoices[id] == Invoice((xmr * 1_000_000_000_000.0).Floor, Pending, now + seconds * 1_000_000, None)
                && addresses == old(addresses)[wallet.value := id]
    {
      var ok := ParseAmountXmr(xmr);
      if !ok {
        return Err(InvoiceValidation);
      }
      var seconds := ValidateExpiresIn(expiresIn);
      if seconds.None? {
        return Err(InvoiceValidation);
      }
      var amount := ToAtomic(xmr);
      if amount <= 0 {
        return Err(InvoiceValidation);
      }
      invoices := invoices[id := Invoice(amount, Pending, now + seconds.value * SECOND, None)];
      if wallet.None? {
        invoices := invoices - {id};
        assert invoices == old(invoices);
        return Err(WalletUnavailable);
      }
      addresses := addresses[wallet.value := id];
      r := Ok(id);
    }

    method UpdateStatus(id: InvoiceId, target: InvoiceStatus, now: Time) returns (r: Result<(), InvoiceError>)
      requires id in invoices
      modifies this`invoices
      ensures r.Ok? <==> old(invoices)[id].status == target || CanTransition(old(invoices)[id].status, target)
      ensures invoices == if r.Ok? then old(invoices)[id := Moved(old(invoices)[id], target, now)] else old(invoices)
    {
      var inv := invoices[id];
      if inv.status == target {
        assert invoices == invoices[id := inv];
        return Ok(());
      }
      if !CanTransition(inv.status, target) {
        return Err(InvoiceState);
      }
      inv := inv.(status := target);
      if target == Paid || target == Overpaid || target == LatePaid {
        inv := inv.(paidAt := Some(now));
      }
      invoices := invoices[id := inv];
      return Ok(());
    }

    method CancelInvoice(id: InvoiceId) returns (r: Result<InvoiceId, InvoiceError>)
      modifies this`invoices
      ensures State() == CancelledIn(old(State()), id)
      ensures r.Ok? <==>
                && id in old(invoices) && old(invoices)[id].status.Pending?
                && forall t :: t in payments && payments[t].invoice == id ==> payments[t].status.Orphaned?
      ensures r.Ok? ==> invoices == old(invoices)[id := old(invoices)[id].(status := Cancelled)]
      ensures r.Err? ==> invoices == old(invoices)
      ensures r == Err(InvoiceNotFound) <==> id !in old(invoices)
    {
      if id !in invoices {
        return Err(InvoiceNotFound);
      }
      if invoices[id].status != Pending {
        return Err(InvoiceState);
      }
      if HasActivePayment(payments, id) {
        return Err(InvoiceState);
      }
      invoices := invoices[id := invoices[id].(status := Cancelled)];
      return Ok(id);
    }

    /** UPDATE invoices SET status = expired WHERE ... RETURNING id. */
    method UpdateExpired(now: Time) returns (expired: seq<InvoiceId>)
      modifies this`invoices
      ensures old(ListsExpirable(State(), expired, now))
      ensures invoices == BatchExpired(old(State()), expired).invoices
    {
      expired := [];
      var rest := invoices.Keys;
      ghost var s0 := State();
      while rest != {}
        invariant rest <= s0.invoices.Keys
        invariant forall id :: id in expired <==> id in s0.invoices && id !in rest && Expirable(s0, id, now)
        invariant forall j, k :: 0 <= j < k < |expired| ==> expired[j] != expired[k]
        invariant invoices == BatchExpired(s0, expired).invoices
      {
        var id :| id in rest;
        if invoices[id].status == Pending && invoices[id].expiresAt < now && !HasActivePayment(payments, id) {
          invoices := invoices[id := invoices[id].(status := InvoiceStatus.Expired)];
          expired := expired + [id];
        }
        rest := rest - {id};
      }
    }

    method ExpirePendingInvoices(now: Time) returns (expired: seq<InvoiceId>)
      modifies this
      ensures old(ListsExpirable(State(), expired, now))
      ensures State() == BatchExpired(old(State()), expired)
      ensures forall id :: id in old(invoices) ==>
                (id in expired <==>
                   && old(invoices)[id].status.Pending? && old(invoices)[id].expiresAt < now
                   && forall t :: t in payments && payments[t].invoice == id ==> payments[t].status.Orphaned?)
      ensures invoices.Keys == old(invoices).Keys
      ensures forall id :: id in old(invoices) ==>
                invoices[id] == if id in expired then old(invoices)[id].(status := InvoiceStatus.Expired)
                                else old(invoices)[id]
    {
      ghost var s0 := State();
      expired := UpdateExpired(now);
      forall id | id in s0.invoices ensures id in expired <==> Expirable(s0, id, now) {
      }
      for k := 0 to |expired|
        invariant outbox == old(outbox) + ExpiryNotices(expired)[..k]
        invariant State() == old(State()).(invoices := BatchExpired(old(State()), expired).invoices, outbox := outbox)
      {
        outbox := outbox + [Emission(InvoiceExpired, expired[k], None)];
      }
    }

    // -------------------------------------------------------------- payments

    method SumInvoicePayments(id: InvoiceId) returns (sum: nat)
      ensures sum == ConfirmedSum(payments, id)
    {
      sum := 0;
      var rest := payments;
      while rest != map[]
        invariant sum + ConfirmedSum(rest, id) == ConfirmedSum(payments, id)
        decreases |rest|
      {
        var t :| t in rest;
        SumSplit(rest, id, t);
        if rest[t].invoice == id && rest[t].status == Confirmed {
          sum := sum + rest[t].amount;
        }
        rest := rest - {t};
      }
    }

    /**
      The transition table and the pending-to-paid-to-overpaid double step together never lose a
      target: the invoice always ends at the status its confirmed sum calls for.
     */
    method RecalculateInvoiceStatus(id: InvoiceId, now: Time)
      requires id in invoices
      modifies this
      ensures State() == Recalculated(old(State()), id, now)
    {
      if invoices[id].status == Cancelled {
        assert invoices == invoices[id := invoices[id]];
        return;
      }
      var cumulative := SumInvoicePayments(id);
      var oldStatus := invoices[id].status;
      var newStatus := DetermineTarget(oldStatus, cumulative, invoices[id].required);
      MoveTo(id, newStatus, now);
      var settled := {Paid, Overpaid, LatePaid};
      if invoices[id].status in settled && oldStatus !in settled && oldStatus != invoices[id].status {
        hooks := hooks + [id];
      }
    }

    method DetermineTarget(current: InvoiceStatus, cumulative: nat, required: nat) returns (target: InvoiceStatus)
      requires !current.Cancelled?
      ensures target == Target(current, cumulative, required)
    {
      if current == InvoiceStatus.Expired {
        if cumulative >= required { target := LatePaid; } else { target := InvoiceStatus.Expired; }
      } else if current == LatePaid {
        if cumulative >= required { target := LatePaid; } else { target := InvoiceStatus.Expired; }
      } else if cumulative > required {
        target := Overpaid;
      } else if cumulative >= required {
        target := Paid;
      } else if cumulative > 0 {
        target := PartiallyPaid;
      } else {
        target := Pending;
      }
    }

    /** Any status of the same lane is reached, although the table has no step from pending to overpaid. */
    method MoveTo(id: InvoiceId, target: InvoiceStatus, now: Time)
      requires id in invoices && !invoices[id].status.Cancelled? && Reachable(invoices[id].status, target)
      requires InLateLane(target) || target in {Pending, PartiallyPaid, Paid, Overpaid}
      modifies this`invoices
      ensures invoices == old(invoices)[id := Moved(old(invoices)[id], target, now)]
    {
      var current := invoices[id].status;
      if current != target {
        if CanTransition(current, target) {
          var _ := UpdateStatus(id, target, now);
        } else if current == Pending && target == Overpaid {
          var _ := UpdateStatus(id, Paid, now);
          var _ := UpdateStatus(id, Overpaid, now);
        }
      } else {
        assert invoices == invoices[id := invoices[id]];
      }
    }

    method UpdateConfirmations(t: TxId, confirmations: nat, height: Option<nat>) returns (transitioned: bool)
      requires t in payments
      modifies this`payments
      ensures payments == old(payments)[t := Refreshed(old(payments)[t], confirmations, height)]
      ensures transitioned <==> payments[t] != old(payments)[t] && payments[t].status.Confirmed?
    {
      var payment := payments[t];
      if payment.status == Orphaned {
        assert payments == payments[t := payment];
        return false;
      }
      var changed := false;
      if confirmations > payment.confirmations {
        payment := payment.(confirmations := confirmations);
        changed := true;
      }
      if height.Some? && payment.height.None? {
        payment := payment.(height := height);
        changed := true;
      }
      if payment.status == Detected && confirmations >= CONFIRMATION_THRESHOLD {
        payment := payment.(status := Confirmed);
        changed := true;
      }
      payments := payments[t := payment];
      transitioned := payment.status == Confirmed && changed;
    }

    method CreatePayment(tx: Transfer, id: InvoiceId)
      modifies this`payments
      ensures payments == old(payments)[tx.txid := Recorded(tx, id)]
    {
      var status := Detected;
      if tx.confirmations >= CONFIRMATION_THRESHOLD {
        status := Confirmed;
      }
      payments := payments[tx.txid := Payment(id, tx.amount, status, tx.confirmations, tx.height)];
    }

    method FindInvoiceBySubaddress(address: Subaddress) returns (id: Option<InvoiceId>)
      ensures id == if address in addresses && addresses[address] in invoices then Some(addresses[address]) else None
    {
      if address !in addresses || addresses[address] !in invoices {
        return None;
      }
      return Some(addresses[address]);
    }

    method ProcessTransfer(tx: Transfer, now: Time) returns (found: bool)
      modifies this
      ensures State() == Transferred(old(State()), tx, now)
      ensures found <==>
                && tx.amount >= 100_000_000
                && tx.address in old(addresses) && old(addresses)[tx.address] in old(invoices)
      ensures found && tx.txid !in old(payments) ==>
                payments == old(payments)[tx.txid :=
                  Payment(old(addresses)[tx.address], tx.amount,
                          if tx.confirmations >= 10 then Confirmed else Detected, tx.confirmations, tx.height)]
    {
      if tx.amount < DUST_THRESHOLD_ATOMIC {
        return false;
      }
      var lookup := FindInvoiceBySubaddress(tx.address);
      if lookup.None? {
        return false;
      }
      var id := lookup.value;
      if tx.txid in payments {
        var transitioned := UpdateConfirmations(tx.txid, tx.confirmations, tx.height);
        if invoices[id].status != Cancelled && (transitioned || payments[tx.txid].status == Confirmed) {
          RecalculateInvoiceStatus(id, now);
        } else {
          assert invoices == invoices[id := invoices[id]];
        }
        return true;
      }
      CreatePayment(tx, id);
      if invoices[id].status != Cancelled {
        RecalculateInvoiceStatus(id, now);
      } else {
        assert invoices == invoices[id := invoices[id]];
      }
      return true;
    }

    method HandleReorg(t: TxId, now: Time)
      requires Linked(State(), t)
      modifies this
      ensures State() == Reorged(old(State()), t, now)
    {
      if payments[t].status == Orphaned {
        return;
      }
      payments := payments[t := payments[t].(status := Orphaned)];
      RecalculateInvoiceStatus(payments[t].invoice, now);
    }

    // -------------------------------------------------------------- events

    method DetermineWebhookEvents(after: PaymentStatus, invoice: InvoiceStatus,
                                  oldInvoice: InvoiceStatus, before: Option<PaymentStatus>)
      returns (events: seq<Event>)
      ensures events == EventsFor(before, after, oldInvoice, invoice)
    {
      events := [];
      if before.None? {
        events := events + [PaymentDetected];
      } else if before.value == Detected && after == Confirmed {
        events := events + [PaymentConfirmed];
      } else if after == Orphaned {
        events := events + [PaymentOrphaned];
      }
      if before.None? && oldInvoice == Cancelled {
        events := events + [InvoiceExceptionPayment];
      }
      ghost var head := PaymentEvents(before, after) + ExceptionEvents(before, oldInvoice);
      assert events == head;
      if oldInvoice in {Paid, Overpaid, LatePaid} && invoice in {Pending, PartiallyPaid, InvoiceStatus.Expired} {
        events := events + [InvoiceReverted];
        return;
      }
      if invoice != oldInvoice {
        var byStatus := map[Paid := InvoicePaid, PartiallyPaid := InvoicePartiallyPaid, Overpaid := InvoiceOverpaid,
                            LatePaid := InvoiceLatePaid, InvoiceStatus.Expired := InvoiceExpired];
        if invoice in byStatus {
          events := events + [byStatus[invoice]];
        }
      }
    }

    method DispatchEvents(events: seq<Event>, id: InvoiceId, t: TxId)
      modifies this`outbox
      ensures outbox == old(outbox) + Emissions(events, id, Some(t))
    {
      for k := 0 to |events|
        invariant outbox == old(outbox) + Emissions(events, id, Some(t))[..k]
      {
        outbox := outbox + [Emission(events[k], id, Some(t))];
      }
    }

    // -------------------------------------------------------------- loops

    method ScanTransfers(txs: seq<Transfer>, now: Time) returns (processed: nat)
      modifies this
      ensures State() == ScannedAll(old(State()), txs, now)
      ensures processed == old(Matching(State(), txs))
    {
      processed := 0;
      for k := 0 to |txs|
        invariant State() == ScannedAll(old(State()), txs[..k], now)
        invariant processed == old(Matching(State(), txs[..k]))
        invariant addresses == old(addresses) && invoices.Keys == old(invoices).Keys
      {
        var tx := txs[k];
        assert txs[..k + 1][..k] == txs[..k];
        label step:
        var invoice := FindInvoiceBySubaddress(tx.address);
        var before := if tx.txid in payments then Some(payments[tx.txid].status) else None;
        var oldStatus := if invoice.Some? then Some(invoices[invoice.value].status) else None;
        var found := ProcessTransfer(tx, now);
        if found {
          processed := processed + 1;
          var events := DetermineWebhookEvents(payments[tx.txid].status, invoices[invoice.value].status,
                                               oldStatus.value, before);
          DispatchEvents(events, invoice.value, tx.txid);
        }
        assert State() == Scanned(old@step(State()), tx, now);
      }
      assert txs[..|txs|] == txs;
    }

    /** One selected payment of the confirmation loop. */
    method PollOne(t: TxId, reply: Reply, now: Time) returns (transitioned: bool)
      requires Linked(State(), t)
      modifies this
      ensures State() == Polled(old(State()), t, reply, now)
      ensures old(payments)[t].status.Detected? ==> (transitioned <==> payments[t].status.Confirmed?)
      ensures t in payments && payments - {t} == old(payments) - {t} && invoices.Keys == old(invoices).Keys
    {
      transitioned := false;
      var before := payments[t].status;
      match reply
      case Failed =>
      case Missing =>
        var count := (if t in misses then misses[t] else 0) + 1;
        misses := misses[t := count];
        if count >= TX_MISS_ORPHAN_THRESHOLD {
          var id := payments[t].invoice;
          var oldStatus := invoices[id].status;
          HandleReorg(t, now);
          misses := misses - {t};
          assert misses == old(misses) - {t};
          var events := DetermineWebhookEvents(payments[t].status, invoices[id].status, oldStatus, Some(before));
          DispatchEvents(events, id, t);
        }
      case Found(confirmations, height) =>
        misses := misses - {t};
        transitioned := UpdateConfirmations(t, confirmations, height);
        if transitioned {
          var id := payments[t].invoice;
          var oldStatus := invoices[id].status;
          RecalculateInvoiceStatus(id, now);
          var events := DetermineWebhookEvents(payments[t].status, invoices[id].status, oldStatus, Some(before));
          DispatchEvents(events, id, t);
        }
    }

    /** `order` is the list of detected payments as the query returned it, `ask` is wallet-rpc. */
    method UpdateUnconfirmed(order: seq<TxId>, ask: TxId -> Reply, now: Time) returns (confirmed: nat)
      requires forall t :: t in order ==> Linked(State(), t) && payments[t].status.Detected?
      requires forall j, k :: 0 <= j < k < |order| ==> order[j] != order[k]
      modifies this
      ensures State() == PolledAll(old(State()), order, ask, now)
      ensures confirmed == ConfirmedAmong(payments, order)
    {
      confirmed := 0;
      assert order[..0] == [];
      for k := 0 to |order|
        invariant State() == PolledAll(old(State()), order[..k], ask, now)
        invariant forall j :: k <= j < |order| ==> Linked(State(), order[j]) && payments[order[j]].status.Detected?
        invariant forall j :: 0 <= j < k ==> order[j] in payments
        invariant confirmed == ConfirmedAmong(payments, order[..k])
      {
        ghost var done, before, t := order[..k], payments, order[k];
        assert order[..k + 1][..k] == done;
        var transitioned := PollOne(order[k], ask(order[k]), now);
        forall u | u in before && u != t ensures u in payments && payments[u] == before[u] {
          assert u in before - {t} && (before - {t})[u] == before[u];
        }
        ConfirmedAmongFrame(before, payments, done);
        if transitioned {
          confirmed := confirmed + 1;
        }
      }
      assert order[..|order|] == order;
    }
  }
}
