/**
  The settlement tables and what one step of the payment services does to them.

  A `Store` is the content of the tables `invoices`, `invoice_addresses` and `payments`, the
  webhook events queued so far, the calls made to the subscription hook, and the in-memory
  miss counters of the confirmation checker.  Every step below is one database transaction.
 */
module Settlement {
  import opened Common

  type TxId = nat
  type InvoiceId = nat

  const CONFIRMATION_THRESHOLD: nat := 10
  const DUST_THRESHOLD_ATOMIC: nat := 100_000_000
  const TX_MISS_ORPHAN_THRESHOLD: nat := 3

  /** Limits on the lifetime of an invoice, in seconds. */
  const EXPIRES_IN_MIN: int := 600
  const EXPIRES_IN_MAX: int := 2592000
  const EXPIRES_IN_DEFAULT: int := 3600

  datatype Subaddress = Subaddress(account: nat, index: nat)

  datatype PaymentStatus = Detected | Confirmed | Orphaned

  datatype InvoiceStatus =
    | Pending | PartiallyPaid | Paid | Overpaid | Expired | LatePaid | Cancelled

  datatype Payment = Payment(
    invoice: InvoiceId, amount: nat, status: PaymentStatus, confirmations: nat, height: Option<nat>)

  datatype Invoice = Invoice(required: nat, status: InvoiceStatus, expiresAt: Time, paidAt: Option<Time>)

  /** One entry of wallet-rpc's get_transfers. */
  datatype Transfer = Transfer(
    txid: TxId, amount: nat, address: Subaddress, confirmations: nat, height: Option<nat>)

  /** wallet-rpc's answer to get_transfer_by_txid. */
  datatype Reply = Failed | Missing | Found(confirmations: nat, height: Option<nat>)

  datatype Event =
    | PaymentDetected | PaymentConfirmed | PaymentOrphaned
    | InvoiceExceptionPayment | InvoiceReverted
    | InvoicePaid | InvoicePartiallyPaid | InvoiceOverpaid | InvoiceLatePaid | InvoiceExpired

  datatype Emission = Emission(event: Event, invoice: InvoiceId, payment: Option<TxId>)

  datatype Store = Store(
    addresses: map<Subaddress, InvoiceId>,
    invoices: map<InvoiceId, Invoice>,
    payments: map<TxId, Payment>,
    outbox: seq<Emission>,
    hooks: seq<InvoiceId>,
    misses: map<TxId, nat>)

  const EMPTY := Store(map[], map[], map[], [], [], map[])

  // ---------------------------------------------------------------- invoice status

  predicate IsSettled(status: InvoiceStatus) {
    status.Paid? || status.Overpaid? || status.LatePaid?
  }

  predicate InLateLane(status: InvoiceStatus) {
    status.Expired? || status.LatePaid?
  }

  /** The status an invoice must have, given the lane it is in and its confirmed sum. */
  function Target(current: InvoiceStatus, sum: nat, required: nat): InvoiceStatus {
    if current.Cancelled? then Cancelled
    else if InLateLane(current) then if sum >= required then LatePaid else Expired
    else if sum > required then Overpaid
    else if sum == required then Paid
    else if sum > 0 then PartiallyPaid
    else Pending
  }

  /** The invoice once its status is `target`; settling stamps `paid_at`. */
  function Moved(inv: Invoice, target: InvoiceStatus, now: Time): Invoice {
    if inv.status == target then inv
    else inv.(status := target, paidAt := if IsSettled(target) then Some(now) else inv.paidAt)
  }

  /** The amounts an invoice can be opened for. */
  predicate ValidAmount(xmr: real) {
    0.0 < xmr <= 1_000_000_000.0 && ToAtomic(xmr) > 0
  }

  // ---------------------------------------------------------------- the confirmed sum

  function Credit(p: Payment, id: InvoiceId): nat {
    if p.invoice == id && p.status.Confirmed? then p.amount else 0
  }

  ghost function AnyTx(payments: map<TxId, Payment>): (t: TxId)
    requires payments != map[]
    ensures t in payments
  {
    var t :| t in payments; t
  }

  /** SUM(amount_atomic) over the confirmed payments of an invoice. */
  ghost function ConfirmedSum(payments: map<TxId, Payment>, id: InvoiceId): nat
    decreases |payments|
  {
    if payments == map[] then 0
    else
      var t := AnyTx(payments);
      Credit(payments[t], id) + ConfirmedSum(payments - {t}, id)
  }

  predicate HasActivePayment(payments: map<TxId, Payment>, id: InvoiceId) {
    exists t | t in payments :: payments[t].invoice == id && !payments[t].status.Orphaned?
  }

  // ---------------------------------------------------------------- one step each

  ghost function Recalculated(s: Store, id: InvoiceId, now: Time): Store
    requires id in s.invoices
  {
    var inv := s.invoices[id];
    var target := Target(inv.status, ConfirmedSum(s.payments, id), inv.required);
    s.(invoices := s.invoices[id := Moved(inv, target, now)],
       hooks := if IsSettled(target) && !IsSettled(inv.status) then s.hooks + [id] else s.hooks)
  }

  function StatusFor(confirmations: nat): PaymentStatus {
    if confirmations >= CONFIRMATION_THRESHOLD then Confirmed else Detected
  }

  function Recorded(tx: Transfer, id: InvoiceId): Payment {
    Payment(id, tx.amount, StatusFor(tx.confirmations), tx.confirmations, tx.height)
  }

  function Refreshed(p: Payment, confirmations: nat, height: Option<nat>): Payment {
    if p.status.Orphaned? then p
    else p.(
           confirmations := Max(p.confirmations, confirmations),
           height := if p.height.None? then height else p.height,
           status := if confirmations >= CONFIRMATION_THRESHOLD then Confirmed else p.status)
  }

  predicate Relevant(s: Store, tx: Transfer) {
    tx.amount >= DUST_THRESHOLD_ATOMIC && tx.address in s.addresses && s.addresses[tx.address] in s.invoices
  }

  /** What processing one transfer leaves in the tables. */
  ghost function Transferred(s: Store, tx: Transfer, now: Time): Store {
    if !Relevant(s, tx) then s
    else
      var id := s.addresses[tx.address];
      if tx.txid in s.payments then
        var p := Refreshed(s.payments[tx.txid], tx.confirmations, tx.height);
        var s' := s.(payments := s.payments[tx.txid := p]);
        if p.status.Confirmed? then Recalculated(s', id, now) else s'
      else
        Recalculated(s.(payments := s.payments[tx.txid := Recorded(tx, id)]), id, now)
  }

  /** What marking a payment as reorganised away leaves in the tables. */
  ghost function Reorged(s: Store, t: TxId, now: Time): Store
    requires t in s.payments && s.payments[t].invoice in s.invoices
  {
    var p := s.payments[t];
    if p.status.Orphaned? then s
    else Recalculated(s.(payments := s.payments[t := p.(status := Orphaned)]), p.invoice, now)
  }

  // ---------------------------------------------------------------- webhook events

  function PaymentEvents(before: Option<PaymentStatus>, after: PaymentStatus): seq<Event> {
    if before.None? then [PaymentDetected]
    else if before.value.Detected? && after.Confirmed? then [PaymentConfirmed]
    else if after.Orphaned? then [PaymentOrphaned]
    else []
  }

  function InvoiceEvents(before: InvoiceStatus, after: InvoiceStatus): seq<Event> {
    if IsSettled(before) && (after.Pending? || after.PartiallyPaid? || after.Expired?) then [InvoiceReverted]
    else if before == after then []
    else match after
      case Paid => [InvoicePaid]
      case PartiallyPaid => [InvoicePartiallyPaid]
      case Overpaid => [InvoiceOverpaid]
      case LatePaid => [InvoiceLatePaid]
      case Expired => [InvoiceExpired]
      case Pending => []
      case Cancelled => []
  }

  function ExceptionEvents(before: Option<PaymentStatus>, invoice: InvoiceStatus): seq<Event> {
    if before.None? && invoice.Cancelled? then [InvoiceExceptionPayment] else []
  }

  function EventsFor(before: Option<PaymentStatus>, after: PaymentStatus,
                     invoiceBefore: InvoiceStatus, invoiceAfter: InvoiceStatus): seq<Event> {
    PaymentEvents(before, after) + ExceptionEvents(before, invoiceBefore) + InvoiceEvents(invoiceBefore, invoiceAfter)
  }

  function Emissions(events: seq<Event>, id: InvoiceId, t: Option<TxId>): (es: seq<Emission>)
    ensures |es| == |events|
    ensures forall k :: 0 <= k < |es| ==> es[k] == Emission(events[k], id, t)
  {
    seq(|events|, k requires 0 <= k < |events| => Emission(events[k], id, t))
  }

  function StatusOf(s: Store, t: TxId): Option<PaymentStatus> {
    if t in s.payments then Some(s.payments[t].status) else None
  }

  /** `after`, with the events that its difference from `before` calls for queued. */
  ghost function Announced(before: Store, after: Store, id: InvoiceId, t: TxId): Store
    requires id in before.invoices && id in after.invoices && t in after.payments
  {
    var events := EventsFor(StatusOf(before, t), after.payments[t].status,
                            before.invoices[id].status, after.invoices[id].status);
    after.(outbox := after.outbox + Emissions(events, id, Some(t)))
  }

  /** One iteration of the scan loop. */
  ghost function Scanned(s: Store, tx: Transfer, now: Time): Store {
    if !Relevant(s, tx) then s
    else Announced(s, Transferred(s, tx, now), s.addresses[tx.address], tx.txid)
  }

  ghost function Dropped(s: Store, t: TxId, now: Time): Store
    requires t in s.payments && s.payments[t].invoice in s.invoices
  {
    Announced(s, Reorged(s, t, now), s.payments[t].invoice, t)
  }

  /** One iteration of the confirmation loop, for a payment it selected. */
  ghost function Polled(s: Store, t: TxId, reply: Reply, now: Time): Store
    requires t in s.payments && s.payments[t].invoice in s.invoices
  {
    match reply
    case Failed => s
    case Missing =>
      var count := (if t in s.misses then s.misses[t] else 0) + 1;
      if count < TX_MISS_ORPHAN_THRESHOLD then s.(misses := s.misses[t := count])
      else Dropped(s, t, now).(misses := s.misses - {t})
    case Found(confirmations, height) =>
      var p := Refreshed(s.payments[t], confirmations, height);
      var s' := s.(misses := s.misses - {t}, payments := s.payments[t := p]);
      if p.status.Confirmed? && p != s.payments[t]
      then Announced(s, Recalculated(s', p.invoice, now), p.invoice, t)
      else s'
  }

  // ---------------------------------------------------------------- expiry, cancellation, creation

  predicate Expirable(s: Store, id: InvoiceId, now: Time)
    requires id in s.invoices
  {
    s.invoices[id].status.Pending? && s.invoices[id].expiresAt < now && !HasActivePayment(s.payments, id)
  }

  /** `order` lists every expirable invoice once, in the order the UPDATE returned them. */
  ghost predicate ListsExpirable(s: Store, order: seq<InvoiceId>, now: Time) {
    && (forall id :: id in order <==> id in s.invoices && Expirable(s, id, now))
    && (forall j, k :: 0 <= j < k < |order| ==> order[j] != order[k])
  }

  function ExpiryNotices(order: seq<InvoiceId>): (es: seq<Emission>)
    ensures |es| == |order|
    ensures forall k :: 0 <= k < |es| ==> es[k] == Emission(InvoiceExpired, order[k], None)
  {
    seq(|order|, k requires 0 <= k < |order| => Emission(InvoiceExpired, order[k], None))
  }

  function BatchExpired(s: Store, order: seq<InvoiceId>): Store {
    s.(invoices := map id | id in s.invoices ::
                     if id in order then s.invoices[id].(status := InvoiceStatus.Expired) else s.invoices[id],
       outbox := s.outbox + ExpiryNotices(order))
  }

  predicate Cancellable(s: Store, id: InvoiceId) {
    id in s.invoices && s.invoices[id].status.Pending? && !HasActivePayment(s.payments, id)
  }

  function CancelledIn(s: Store, id: InvoiceId): Store {
    if Cancellable(s, id) then s.(invoices := s.invoices[id := s.invoices[id].(status := Cancelled)]) else s
  }

  function Opened(s: Store, id: InvoiceId, address: Subaddress, required: nat, expiresAt: Time): Store {
    s.(addresses := s.addresses[address := id],
       invoices := s.invoices[id := Invoice(required, Pending, expiresAt, None)])
  }

  // ---------------------------------------------------------------- runs

  datatype Action =
    | Open(id: InvoiceId, address: Subaddress, required: nat, expiresAt: Time)
    | Scan(tx: Transfer, now: Time)
    | Poll(t: TxId, reply: Reply, now: Time)
    | Reorg(t: TxId, now: Time)
    | Expire(order: seq<InvoiceId>, now: Time)
    | Cancel(id: InvoiceId)

  /** What the surroundings guarantee of each action. */
  ghost predicate Legal(s: Store, a: Action) {
    match a
    case Open(id, address, required, _) => id !in s.invoices && address !in s.addresses && required > 0
    case Scan(_, _) => true
    case Poll(t, _, _) => true
    case Reorg(t, _) => true
    case Expire(order, now) => ListsExpirable(s, order, now)
    case Cancel(id) => true
  }

  predicate Linked(s: Store, t: TxId) {
    t in s.payments && s.payments[t].invoice in s.invoices
  }

  ghost function Next(s: Store, a: Action): Store {
    match a
    case Open(id, address, required, expiresAt) => Opened(s, id, address, required, expiresAt)
    case Scan(tx, now) => Scanned(s, tx, now)
    case Poll(t, reply, now) =>
      if Linked(s, t) && s.payments[t].status.Detected? then Polled(s, t, reply, now) else s
    case Reorg(t, now) => if Linked(s, t) then Dropped(s, t, now) else s
    case Expire(order, now) => BatchExpired(s, order)
    case Cancel(id) => CancelledIn(s, id)
  }

  ghost function Run(s: Store, actions: seq<Action>): Store
    decreases |actions|
  {
    if actions == [] then s else Run(Next(s, actions[0]), actions[1..])
  }

  ghost predicate LegalRun(s: Store, actions: seq<Action>)
    decreases |actions|
  {
    actions == [] || (Legal(s, actions[0]) && LegalRun(Next(s, actions[0]), actions[1..]))
  }

  /** The hash of this sighting is recorded for another invoice than the one whose address it pays. */
  predicate Foreign(s: Store, tx: Transfer) {
    Relevant(s, tx) && tx.txid in s.payments && s.payments[tx.txid].invoice != s.addresses[tx.address]
  }

  /** No sighting of the run is foreign, as when every transaction pays one subaddress. */
  ghost predicate OneOutputRun(s: Store, actions: seq<Action>)
    decreases |actions|
  {
    actions == [] ||
    ((actions[0].Scan? ==> !Foreign(s, actions[0].tx)) && OneOutputRun(Next(s, actions[0]), actions[1..]))
  }
}
