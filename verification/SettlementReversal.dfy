/**
  When a settlement is taken back.

  The services can revert a settled invoice, and do so exactly when a confirmed payment it
  cannot spare is handed to the reorg handler.  The background loops never do that: they poll
  detected payments only, so under the loops alone a settlement is final.
 */
module SettlementReversal {
  import opened Common
  import opened Settlement
  import opened SettlementSums
  import opened SettlementInvariant
  import opened SettlementRuns

  /** Taking a confirmed payment away unsettles its invoice exactly when the rest falls short. */
  lemma ReorgRevertsIff(s: Store, t: TxId, now: Time)
    requires Inv(s) && t in s.payments && s.payments[t].status.Confirmed?
    ensures var id := s.payments[t].invoice;
            var id' := Reorged(s, t, now).invoices[id].status;
            && ConfirmedSum(s.payments, id) >= s.payments[t].amount
            && (IsSettled(s.invoices[id].status) && !IsSettled(id') <==>
                  && IsSettled(s.invoices[id].status)
                  && ConfirmedSum(s.payments, id) - s.payments[t].amount < s.invoices[id].required)
  {
    var p := s.payments[t];
    assert PaymentOk(s, p);
    assert StatusFollowsSum(s, p.invoice);
    SumSplit(s.payments, p.invoice, t);
    SumReplace(s.payments, p.invoice, t, p.(status := Orphaned));
  }

  /** A payment update that keeps the credit it already gave. */
  lemma SumGrows(s: Store, t: TxId, p: Payment, id: InvoiceId)
    requires t in s.payments ==> Credit(s.payments[t], id) <= Credit(p, id)
    ensures ConfirmedSum(s.payments, id) <= ConfirmedSum(s.payments[t := p], id)
  {
    if t in s.payments { SumReplace(s.payments, id, t, p); } else { SumInsert(s.payments, id, t, p); }
  }

  /** A settled invoice is covered by its confirmed sum; foreign sightings do not break this half of `Settles`. */
  ghost predicate Covered(s: Store, id: InvoiceId) {
    id in s.invoices && IsSettled(s.invoices[id].status) ==> ConfirmedSum(s.payments, id) >= s.invoices[id].required
  }

  /** Recomputing any invoice keeps `id` covered, and settled if it was. */
  lemma RecalculateCovers(s: Store, i: InvoiceId, now: Time, id: InvoiceId)
    requires i in s.invoices && id in s.invoices && Covered(s, id)
    ensures var r := Recalculated(s, i, now);
            Covered(r, id) && (IsSettled(s.invoices[id].status) ==> IsSettled(r.invoices[id].status))
  {
  }

  lemma ScanCovers(s: Store, tx: Transfer, now: Time, id: InvoiceId)
    requires id in s.invoices && Covered(s, id)
    ensures var s' := Scanned(s, tx, now);
            && id in s'.invoices && Covered(s', id)
            && (IsSettled(s.invoices[id].status) ==> IsSettled(s'.invoices[id].status))
  {
    if Relevant(s, tx) {
      var i := s.addresses[tx.address];
      var p := if tx.txid in s.payments then Refreshed(s.payments[tx.txid], tx.confirmations, tx.height)
               else Recorded(tx, i);
      SumGrows(s, tx.txid, p, id);
      RecalculateCovers(s.(payments := s.payments[tx.txid := p]), i, now, id);
    }
  }

  lemma PollCovers(s: Store, t: TxId, reply: Reply, now: Time, id: InvoiceId)
    requires Linked(s, t) && s.payments[t].status.Detected? && id in s.invoices && Covered(s, id)
    ensures var s' := Polled(s, t, reply, now);
            && id in s'.invoices && Covered(s', id)
            && (IsSettled(s.invoices[id].status) ==> IsSettled(s'.invoices[id].status))
  {
    match reply
    case Failed =>
    case Missing =>
      var p := s.payments[t].(status := Orphaned);
      SumGrows(s, t, p, id);
      RecalculateCovers(s.(payments := s.payments[t := p]), p.invoice, now, id);
    case Found(confirmations, height) =>
      var p := Refreshed(s.payments[t], confirmations, height);
      SumGrows(s, t, p, id);
      RecalculateCovers(s.(misses := s.misses - {t}, payments := s.payments[t := p]), p.invoice, now, id);
  }

  lemma LoopsKeepSettlements(s: Store, a: Action, id: InvoiceId)
    requires Legal(s, a) && !a.Reorg? && id in s.invoices && Covered(s, id)
    ensures id in Next(s, a).invoices && Covered(Next(s, a), id)
    ensures IsSettled(s.invoices[id].status) ==> IsSettled(Next(s, a).invoices[id].status)
  {
    match a
    case Open(_, _, _, _) =>
    case Scan(tx, now) => ScanCovers(s, tx, now, id);
    case Poll(t, reply, now) =>
      if Linked(s, t) && s.payments[t].status.Detected? { PollCovers(s, t, reply, now, id); }
    case Expire(order, now) => assert id in order ==> Expirable(s, id, now);
    case Cancel(_) =>
  }

  ghost predicate LoopRun(actions: seq<Action>) {
    forall a | a in actions :: !a.Reorg?
  }

  /**
    Under the loops of the deployed service alone (scans, confirmation polls, expiry, creation
    and cancellation) a settled invoice stays settled, whatever happens on the chain.
   */
  lemma {:induction false} LoopsNeverUnsettle(s: Store, actions: seq<Action>, id: InvoiceId)
    requires LegalRun(s, actions) && LoopRun(actions) && Covered(s, id)
    requires id in s.invoices && IsSettled(s.invoices[id].status)
    ensures id in Run(s, actions).invoices && IsSettled(Run(s, actions).invoices[id].status)
    ensures Covered(Run(s, actions), id)
    decreases |actions|
  {
    if actions != [] {
      assert actions[0] in actions;
      LoopsKeepSettlements(s, actions[0], id);
      LoopsNeverUnsettle(Next(s, actions[0]), actions[1..], id);
    }
  }

  /** So `invoice.reverted` is never queued, and the subscription hook runs at most once per invoice. */
  lemma {:induction false} LoopsNeverAnnounceReversal(actions: seq<Action>, id: InvoiceId)
    requires LegalRun(EMPTY, actions) && LoopRun(actions)
    ensures Reversals(Run(EMPTY, actions).outbox, id) == 0
    ensures Calls(Run(EMPTY, actions).hooks, id) <= 1
  {
    EmptyStoreInv();
    HooksAtMostOnce(EMPTY, actions, id);
    RunKeepsRegular(EMPTY, actions);
    var s := Run(EMPTY, actions);
    assert if id in s.invoices then InvoiceFaithful(s, id) else Unheard(s, id);
  }

  lemma OnlyOpeningAddsInvoices(s: Store, a: Action, id: InvoiceId)
    requires Legal(s, a) && id !in s.invoices && !(a.Open? && a.id == id)
    ensures id !in Next(s, a).invoices
  {
    match a
    case Open(_, _, _, _) =>
    case Scan(tx, now) =>
    case Poll(t, reply, now) =>
    case Reorg(t, now) =>
    case Expire(order, now) =>
    case Cancel(_) =>
  }

  lemma StrangersAreOpenedPending(s: Store, a: Action, id: InvoiceId)
    requires Regular(s) && Legal(s, a) && id !in s.invoices
    ensures Calls(Next(s, a).hooks, id) == 0
    ensures id in Next(s, a).invoices ==> Next(s, a).invoices[id].status.Pending?
  {
    if a.Open? && a.id == id {
      assert Unheard(s, id);
    } else {
      OnlyOpeningAddsInvoices(s, a, id);
      StepKeepsInv(s, a);
      var s' := Next(s, a);
      assert Unheard(s', id);
    }
  }

  lemma {:induction false} HooksAtMostOnce(s: Store, actions: seq<Action>, id: InvoiceId)
    requires Regular(s) && LegalRun(s, actions) && LoopRun(actions) && Covered(s, id)
    requires Calls(s.hooks, id) == if id in s.invoices && IsSettled(s.invoices[id].status) then 1 else 0
    ensures var s' := Run(s, actions);
            Calls(s'.hooks, id) == if id in s'.invoices && IsSettled(s'.invoices[id].status) then 1 else 0
    decreases |actions|
  {
    if actions != [] {
      var a := actions[0];
      assert a in actions;
      StepKeepsInv(s, a);
      if id in s.invoices {
        StepKeepsInvoice(s, a, id);
        LoopsKeepSettlements(s, a, id);
      } else {
        StrangersAreOpenedPending(s, a, id);
      }
      HooksAtMostOnce(Next(s, a), actions[1..], id);
    }
  }

  lemma {:induction false} LoopsCover(s: Store, actions: seq<Action>, id: InvoiceId)
    requires LegalRun(s, actions) && LoopRun(actions) && Covered(s, id)
    ensures Covered(Run(s, actions), id)
    decreases |actions|
  {
    if actions != [] {
      var a := actions[0];
      assert a in actions;
      if id in s.invoices {
        LoopsKeepSettlements(s, a, id);
      } else if !(a.Open? && a.id == id) {
        OnlyOpeningAddsInvoices(s, a, id);
      }
      LoopsCover(Next(s, a), actions[1..], id);
    }
  }

  /**
    A confirmed payment that later vanishes from the chain is not noticed: the confirmation loop
    does not select it, whatever wallet-rpc would answer.
   */
  lemma VanishedConfirmedPaymentGoesUnnoticed(s: Store, t: TxId, replies: seq<Reply>, now: Time)
    requires Inv(s) && t in s.payments && s.payments[t].status.Confirmed?
    requires s.invoices[s.payments[t].invoice].status.Paid?
    ensures PollRun(s, t, replies, now) == s
    ensures !IsSettled(Reorged(s, t, now).invoices[s.payments[t].invoice].status)
  {
    var id := s.payments[t].invoice;
    assert PaymentOk(s, s.payments[t]) && StatusFollowsSum(s, id);
    ConfirmedIsNotPolled(s, t, replies, now);
    ReorgRevertsIff(s, t, now);
  }

  /** The situation above arises: one transfer of the full amount with twelve confirmations. */
  lemma PaidByOneTransfer() returns (s: Store)
    ensures Inv(s) && 7 in s.payments && s.payments[7].status.Confirmed?
    ensures s.payments[7].invoice == 1 && s.invoices[1].status.Paid?
  {
    var address := Subaddress(0, 1);
    var tx := Transfer(7, DUST_THRESHOLD_ATOMIC, address, 12, Some(100));
    EmptyStoreInv();
    OpenKeepsInv(EMPTY, 1, address, DUST_THRESHOLD_ATOMIC, 0);
    var before := Opened(EMPTY, 1, address, DUST_THRESHOLD_ATOMIC, 0);
    ScanKeepsInv(before, tx, 5);
    SumInsert(before.payments, 1, 7, Recorded(tx, 1));
    s := Scanned(before, tx, 5);
  }

  ghost function PollRun(s: Store, t: TxId, replies: seq<Reply>, now: Time): Store
    decreases |replies|
  {
    if replies == [] then s
    else Next(PollRun(s, t, replies[..|replies| - 1], now), Poll(t, replies[|replies| - 1], now))
  }

  lemma {:induction false} ConfirmedIsNotPolled(s: Store, t: TxId, replies: seq<Reply>, now: Time)
    requires t in s.payments && s.payments[t].status.Confirmed?
    ensures PollRun(s, t, replies, now) == s
    decreases |replies|
  {
    if replies != [] { ConfirmedIsNotPolled(s, t, replies[..|replies| - 1], now); }
  }

  // ---------------------------------------------------------------- when a detected payment is dropped

  /** How many times in a row the transaction has been missing; failed calls say nothing. */
  function Streak(replies: seq<Reply>): nat {
    if replies == [] then 0
    else match replies[|replies| - 1]
      case Failed => Streak(replies[..|replies| - 1])
      case Missing => Streak(replies[..|replies| - 1]) + 1
      case Found(_, _) => 0
  }

  /** What becomes of a detected payment given wallet-rpc's answers: the first verdict is final. */
  function Verdict(replies: seq<Reply>): PaymentStatus {
    if replies == [] then Detected
    else
      var before := Verdict(replies[..|replies| - 1]);
      var last := replies[|replies| - 1];
      if !before.Detected? then before
      else if last.Found? && last.confirmations >= 10 then Confirmed
      else if Streak(replies) >= 3 then Orphaned
      else Detected
  }

  /** Payment `t` is where the answers `replies` put it, and its miss counter is the streak. */
  predicate FollowsVerdict(s: Store, t: TxId, replies: seq<Reply>) {
    && Linked(s, t)
    && s.payments[t].status == Verdict(replies)
    && (Verdict(replies).Detected? ==>
          (if t in s.misses then s.misses[t] else 0) == Streak(replies) < 3)
  }

  lemma PollFollowsVerdict(s: Store, t: TxId, replies: seq<Reply>, now: Time)
    requires replies != [] && FollowsVerdict(s, t, replies[..|replies| - 1])
    ensures FollowsVerdict(Next(s, Poll(t, replies[|replies| - 1], now)), t, replies)
  {
    match replies[|replies| - 1]
    case Failed =>
    case Missing =>
    case Found(_, _) =>
  }

  /** The miss counter implements the streak: polling reaches exactly the verdict. */
  lemma {:induction false} PollingReachesVerdict(s: Store, t: TxId, replies: seq<Reply>, now: Time)
    requires WellFormed(s) && t in s.payments && s.payments[t].status.Detected? && t !in s.misses
    ensures FollowsVerdict(PollRun(s, t, replies, now), t, replies)
    decreases |replies|
  {
    if replies == [] {
      assert PaymentOk(s, s.payments[t]);
    } else {
      PollingReachesVerdict(s, t, replies[..|replies| - 1], now);
      PollFollowsVerdict(PollRun(s, t, replies[..|replies| - 1], now), t, replies, now);
    }
  }

  /** `k` misses, the first at index `from`, and no sighting since. */
  predicate MissedSince(replies: seq<Reply>, from: nat, k: nat) {
    && from <= |replies|
    && (forall m :: from <= m < |replies| ==> !replies[m].Found?)
    && Misses(replies[from..]) == k
  }

  function Misses(replies: seq<Reply>): nat {
    if replies == [] then 0
    else Misses(replies[..|replies| - 1]) + if replies[|replies| - 1].Missing? then 1 else 0
  }

  lemma {:induction false} StreakIsRecent(replies: seq<Reply>) returns (from: nat)
    ensures MissedSince(replies, from, Streak(replies))
    decreases |replies|
  {
    if replies == [] || replies[|replies| - 1].Found? {
      from := |replies|;
    } else {
      var init := replies[..|replies| - 1];
      from := StreakIsRecent(init);
      assert replies[from..][..|replies| - 1 - from] == init[from..];
    }
  }

  /** Only three missing answers with no sighting in between make a payment orphaned. */
  lemma {:induction false} OrphanedOnlyAfterThreeMisses(replies: seq<Reply>) returns (from: nat, to: nat)
    requires Verdict(replies).Orphaned?
    ensures to <= |replies| && exists k :: k >= 3 && MissedSince(replies[..to], from, k)
    decreases |replies|
  {
    var init := replies[..|replies| - 1];
    if Verdict(init).Orphaned? {
      from, to := OrphanedOnlyAfterThreeMisses(init);
      assert replies[..to] == init[..to];
    } else {
      from := StreakIsRecent(replies);
      to := |replies|;
      assert replies[..to] == replies;
      assert MissedSince(replies[..to], from, Streak(replies));
    }
  }
}
