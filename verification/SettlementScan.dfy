/**
  Scans overlap: a transfer is seen many times, in any order.  What is left in the tables is
  what one recomputation from the largest confirmation count of each transaction gives.
 */
module SettlementScan {
  import opened Common
  import opened Settlement
  import opened SettlementSums
  import opened SettlementInvariant
  import opened SettlementRuns

  datatype Observation = Observation(tx: Transfer, now: Time)

  /** What does not change between two sightings of a transaction. */
  datatype Fact = Fact(amount: nat, address: Subaddress)

  predicate Consistent(obs: seq<Observation>, facts: map<TxId, Fact>) {
    forall o | o in obs :: o.tx.txid in facts && facts[o.tx.txid] == Fact(o.tx.amount, o.tx.address)
  }

  /** A fact that leads to a payment row: not dust, and for an address we gave out. */
  predicate Counts(s: Store, f: Fact) {
    f.amount >= DUST_THRESHOLD_ATOMIC && f.address in s.addresses && s.addresses[f.address] in s.invoices
  }

  predicate Agrees(s: Store, facts: map<TxId, Fact>) {
    forall t | t in s.payments && t in facts ::
      Counts(s, facts[t]) && s.payments[t].invoice == s.addresses[facts[t].address]
  }

  predicate Seen(obs: seq<Observation>, t: TxId) {
    exists o | o in obs :: o.tx.txid == t
  }

  function MaxConfirmations(obs: seq<Observation>, t: TxId): nat {
    if obs == [] then 0
    else
      var rest := MaxConfirmations(obs[..|obs| - 1], t);
      var o := obs[|obs| - 1];
      if o.tx.txid == t then Max(rest, o.tx.confirmations) else rest
  }

  function FirstHeight(known: Option<nat>, obs: seq<Observation>, t: TxId): Option<nat> {
    if obs == [] then known
    else
      var before := FirstHeight(known, obs[..|obs| - 1], t);
      var o := obs[|obs| - 1];
      if before.None? && o.tx.txid == t then o.tx.height else before
  }

  ghost function ScanAll(s: Store, obs: seq<Observation>): Store
    decreases |obs|
  {
    if obs == [] then s
    else Transferred(ScanAll(s, obs[..|obs| - 1]), obs[|obs| - 1].tx, obs[|obs| - 1].now)
  }

  predicate Present(s: Store, facts: map<TxId, Fact>, obs: seq<Observation>, t: TxId) {
    t in s.payments || (Seen(obs, t) && t in facts && Counts(s, facts[t]))
  }

  /** The row of transaction `t`, recomputed at once from everything that was observed. */
  function Merged(s: Store, facts: map<TxId, Fact>, obs: seq<Observation>, t: TxId): Payment
    requires Present(s, facts, obs, t)
  {
    if t in s.payments then
      var p := s.payments[t];
      var c := Max(p.confirmations, MaxConfirmations(obs, t));
      if p.status.Orphaned? then p
      else p.(confirmations := c, status := StatusFor(c), height := FirstHeight(p.height, obs, t))
    else
      var c := MaxConfirmations(obs, t);
      Payment(s.addresses[facts[t].address], facts[t].amount, StatusFor(c), c, FirstHeight(None, obs, t))
  }

  function Recomputed(s: Store, facts: map<TxId, Fact>, obs: seq<Observation>): map<TxId, Payment> {
    map t | t in s.payments.Keys + facts.Keys && Present(s, facts, obs, t) :: Merged(s, facts, obs, t)
  }

  predicate SameBooks(s: Store, s': Store) {
    && s'.addresses == s.addresses && s'.invoices.Keys == s.invoices.Keys
    && forall i | i in s.invoices ::
         && s'.invoices[i].required == s.invoices[i].required
         && Reachable(s.invoices[i].status, s'.invoices[i].status)
  }

  lemma TransferSameBooks(s: Store, tx: Transfer, now: Time)
    ensures SameBooks(s, Transferred(s, tx, now))
  {
  }

  lemma UnseenMeansNothing(obs: seq<Observation>, t: TxId, known: Option<nat>)
    requires !Seen(obs, t)
    ensures MaxConfirmations(obs, t) == 0 && FirstHeight(known, obs, t) == known
    decreases |obs|
  {
    if obs != [] {
      var init := obs[..|obs| - 1];
      assert forall o :: o in init ==> o in obs;
      assert obs[|obs| - 1] in obs;
      UnseenMeansNothing(init, t, known);
    }
  }

  lemma SeenLast(obs: seq<Observation>, t: TxId)
    requires obs != []
    ensures Seen(obs, t) <==> Seen(obs[..|obs| - 1], t) || obs[|obs| - 1].tx.txid == t
  {
    var init, last := obs[..|obs| - 1], obs[|obs| - 1];
    assert obs == init + [last];
    assert last in obs;
    assert forall o :: o in obs <==> o in init || o == last;
  }

  /** One more observation turns one merged row into the next. */
  lemma MergeStep(s: Store, facts: map<TxId, Fact>, obs: seq<Observation>, t: TxId)
    requires WellFormed(s) && obs != [] && Consistent(obs, facts) && Agrees(s, facts)
    requires var init := obs[..|obs| - 1]; Present(s, facts, init, t) && obs[|obs| - 1].tx.txid == t
    requires Counts(s, facts[t])
    ensures Present(s, facts, obs, t)
    ensures Merged(s, facts, obs, t)
         == Refreshed(Merged(s, facts, obs[..|obs| - 1], t), obs[|obs| - 1].tx.confirmations, obs[|obs| - 1].tx.height)
  {
    SeenLast(obs, t);
    if t in s.payments {
      assert PaymentOk(s, s.payments[t]);
    }
  }

  /** The payment table `payments` is the one recomputed from `obs`. */
  ghost predicate TableIs(s: Store, facts: map<TxId, Fact>, obs: seq<Observation>, payments: map<TxId, Payment>) {
    && (forall t :: t in payments <==> Present(s, facts, obs, t))
    && (forall t :: t in payments ==> payments[t] == Merged(s, facts, obs, t))
  }

  lemma TableIsRecomputed(s: Store, facts: map<TxId, Fact>, obs: seq<Observation>, payments: map<TxId, Payment>)
    requires TableIs(s, facts, obs, payments)
    ensures payments == Recomputed(s, facts, obs)
  {
  }

  lemma ScanTableStart(s: Store, facts: map<TxId, Fact>)
    requires WellFormed(s)
    ensures TableIs(s, facts, [], s.payments)
  {
    forall t | t in s.payments ensures s.payments[t] == Merged(s, facts, [], t) {
      assert PaymentOk(s, s.payments[t]);
    }
  }

  lemma SameBooksTransitive(a: Store, b: Store, c: Store)
    requires SameBooks(a, b) && SameBooks(b, c)
    ensures SameBooks(a, c)
  {
  }

  lemma {:induction false} ScanTable(s: Store, facts: map<TxId, Fact>, obs: seq<Observation>)
    requires WellFormed(s) && Settles(s) && Agrees(s, facts) && Consistent(obs, facts)
    ensures WellFormed(ScanAll(s, obs)) && Settles(ScanAll(s, obs)) && SameBooks(s, ScanAll(s, obs))
    ensures TableIs(s, facts, obs, ScanAll(s, obs).payments)
    decreases |obs|
  {
    if obs == [] {
      ScanTableStart(s, facts);
    } else {
      var init, last := obs[..|obs| - 1], obs[|obs| - 1];
      var s1 := ScanAll(s, init);
      ConsistentInit(obs, facts);
      ScanTable(s, facts, init);
      ScanTableStep(s, facts, obs, s1);
      TransferKeepsWellFormed(s1, last.tx, last.now);
      TransferSettles(s1, last.tx, last.now);
      TransferSameBooks(s1, last.tx, last.now);
      SameBooksTransitive(s, s1, ScanAll(s, obs));
    }
  }

  lemma ConsistentInit(obs: seq<Observation>, facts: map<TxId, Fact>)
    requires Consistent(obs, facts) && obs != []
    ensures Consistent(obs[..|obs| - 1], facts)
  {
    assert forall o :: o in obs[..|obs| - 1] ==> o in obs;
  }

  lemma ScanTableStep(s: Store, facts: map<TxId, Fact>, obs: seq<Observation>, s1: Store)
    requires WellFormed(s) && Agrees(s, facts) && Consistent(obs, facts) && obs != []
    requires SameBooks(s, s1) && TableIs(s, facts, obs[..|obs| - 1], s1.payments)
    ensures !Foreign(s1, obs[|obs| - 1].tx)
    ensures TableIs(s, facts, obs, Transferred(s1, obs[|obs| - 1].tx, obs[|obs| - 1].now).payments)
  {
    var last := obs[|obs| - 1];
    var s2 := Transferred(s1, last.tx, last.now);
    assert last in obs;
    forall t ensures t in s2.payments <==> Present(s, facts, obs, t) { ScanKeysStep(s, facts, obs, s1, t); }
    forall t | t in s2.payments ensures s2.payments[t] == Merged(s, facts, obs, t) {
      if t == last.tx.txid {
        ScanRowStep(s, facts, obs, s1);
      } else {
        SeenLast(obs, t);
      }
    }
    assert Relevant(s1, last.tx) <==> Counts(s, facts[last.tx.txid]);
  }

  lemma ScanKeysStep(s: Store, facts: map<TxId, Fact>, obs: seq<Observation>, s1: Store, t: TxId)
    requires Consistent(obs, facts) && obs != [] && SameBooks(s, s1)
    requires t in s1.payments <==> Present(s, facts, obs[..|obs| - 1], t)
    ensures t in Transferred(s1, obs[|obs| - 1].tx, obs[|obs| - 1].now).payments <==> Present(s, facts, obs, t)
  {
    var last := obs[|obs| - 1];
    assert last in obs;
    SeenLast(obs, t);
    assert Relevant(s1, last.tx) <==> Counts(s, facts[last.tx.txid]);
  }

  lemma ScanRowStep(s: Store, facts: map<TxId, Fact>, obs: seq<Observation>, s1: Store)
    requires WellFormed(s) && Agrees(s, facts) && Consistent(obs, facts) && obs != []
    requires SameBooks(s, s1) && TableIs(s, facts, obs[..|obs| - 1], s1.payments)
    ensures var t := obs[|obs| - 1].tx.txid;
            var s2 := Transferred(s1, obs[|obs| - 1].tx, obs[|obs| - 1].now);
            t in s2.payments ==> Present(s, facts, obs, t) && s2.payments[t] == Merged(s, facts, obs, t)
  {
    var init, last := obs[..|obs| - 1], obs[|obs| - 1];
    var t := last.tx.txid;
    assert last in obs;
    SeenLast(obs, t);
    if t in s1.payments {
      assert Present(s, facts, init, t);
      if Counts(s, facts[t]) { MergeStep(s, facts, obs, t); }
    } else if Counts(s, facts[t]) {
      assert !Present(s, facts, init, t);
      UnseenMeansNothing(init, t, None);
    }
  }

  /** Scanning, in any order and with any repetition, is one recomputation. */
  lemma ScanningIsRecomputing(s: Store, facts: map<TxId, Fact>, obs: seq<Observation>, i: InvoiceId)
    requires WellFormed(s) && Settles(s) && Agrees(s, facts) && Consistent(obs, facts)
    requires i in s.invoices
    ensures ScanAll(s, obs).payments == Recomputed(s, facts, obs)
    ensures i in ScanAll(s, obs).invoices
    ensures ScanAll(s, obs).invoices[i].status
         == Target(s.invoices[i].status, ConfirmedSum(Recomputed(s, facts, obs), i), s.invoices[i].required)
  {
    var s' := ScanAll(s, obs);
    ScanTable(s, facts, obs);
    TableIsRecomputed(s, facts, obs, s'.payments);
    assert StatusFollowsSum(s', i);
  }

  predicate Observed(obs: seq<Observation>, tx: Transfer) {
    exists o | o in obs :: o.tx == tx
  }

  ghost predicate SameObservations(a: seq<Observation>, b: seq<Observation>) {
    forall tx :: Observed(a, tx) <==> Observed(b, tx)
  }

  lemma {:induction false} MaxConfirmationsIsAttained(obs: seq<Observation>, t: TxId)
    ensures forall o :: o in obs && o.tx.txid == t ==> o.tx.confirmations <= MaxConfirmations(obs, t)
    ensures MaxConfirmations(obs, t) > 0 ==>
              exists o :: o in obs && o.tx.txid == t && o.tx.confirmations == MaxConfirmations(obs, t)
    decreases |obs|
  {
    if obs != [] {
      var init, last := obs[..|obs| - 1], obs[|obs| - 1];
      MaxConfirmationsIsAttained(init, t);
      assert obs == init + [last];
      assert last in obs;
      assert forall o :: o in obs <==> o in init || o == last;
    }
  }

  lemma MaxConfirmationsAtMost(a: seq<Observation>, b: seq<Observation>, t: TxId)
    requires SameObservations(a, b)
    ensures MaxConfirmations(a, t) <= MaxConfirmations(b, t)
    ensures Seen(a, t) ==> Seen(b, t)
  {
    MaxConfirmationsIsAttained(a, t);
    MaxConfirmationsIsAttained(b, t);
    forall o | o in a && o.tx.txid == t
      ensures exists o' :: o' in b && o'.tx == o.tx
    {
      assert Observed(a, o.tx);
      assert Observed(b, o.tx);
    }
    if MaxConfirmations(a, t) > 0 {
      var o :| o in a && o.tx.txid == t && o.tx.confirmations == MaxConfirmations(a, t);
    }
  }

  function WithoutHeight(p: Payment): Payment {
    p.(height := None)
  }

  lemma SameObservationsSameRows(s: Store, facts: map<TxId, Fact>, a: seq<Observation>, b: seq<Observation>, t: TxId)
    requires SameObservations(a, b)
    ensures Present(s, facts, a, t) <==> Present(s, facts, b, t)
    ensures Present(s, facts, a, t) ==>
              WithoutHeight(Merged(s, facts, a, t)) == WithoutHeight(Merged(s, facts, b, t))
  {
    assert SameObservations(b, a);
    MaxConfirmationsAtMost(a, b, t);
    MaxConfirmationsAtMost(b, a, t);
  }

  /**
    Confluence: two scans that saw the same transfers, in whatever order and however often, leave
    the same payment rows, up to the block height first reported, and the same invoice statuses.
   */
  lemma ScansAreConfluent(s: Store, facts: map<TxId, Fact>, a: seq<Observation>, b: seq<Observation>,
                          t: TxId, i: InvoiceId)
    requires WellFormed(s) && Settles(s) && Agrees(s, facts)
    requires Consistent(a, facts) && Consistent(b, facts) && SameObservations(a, b)
    requires i in s.invoices
    ensures t in ScanAll(s, a).payments <==> t in ScanAll(s, b).payments
    ensures t in ScanAll(s, a).payments ==>
              WithoutHeight(ScanAll(s, a).payments[t]) == WithoutHeight(ScanAll(s, b).payments[t])
    ensures i in ScanAll(s, a).invoices && i in ScanAll(s, b).invoices
    ensures ScanAll(s, a).invoices[i].status == ScanAll(s, b).invoices[i].status
  {
    ScanningIsRecomputing(s, facts, a, i);
    ScanningIsRecomputing(s, facts, b, i);
    RecomputedIsConfluent(s, facts, a, b, t, i);
  }

  lemma RecomputedIsConfluent(s: Store, facts: map<TxId, Fact>, a: seq<Observation>, b: seq<Observation>,
                              t: TxId, i: InvoiceId)
    requires SameObservations(a, b)
    ensures t in Recomputed(s, facts, a) <==> t in Recomputed(s, facts, b)
    ensures t in Recomputed(s, facts, a) ==>
              WithoutHeight(Recomputed(s, facts, a)[t]) == WithoutHeight(Recomputed(s, facts, b)[t])
    ensures ConfirmedSum(Recomputed(s, facts, a), i) == ConfirmedSum(Recomputed(s, facts, b), i)
  {
    var x, y := Recomputed(s, facts, a), Recomputed(s, facts, b);
    forall u ensures u in x <==> u in y {
      SameObservationsSameRows(s, facts, a, b, u);
      InRecomputed(s, facts, a, u);
      InRecomputed(s, facts, b, u);
    }
    forall u | u in x ensures WithoutHeight(x[u]) == WithoutHeight(y[u]) {
      SameObservationsSameRows(s, facts, a, b, u);
    }
    forall u | u in x ensures Credit(x[u], i) == Credit(y[u], i) {
      assert WithoutHeight(x[u]) == WithoutHeight(y[u]);
    }
    SumCongruence(x, y, i);
  }

  lemma InRecomputed(s: Store, facts: map<TxId, Fact>, obs: seq<Observation>, t: TxId)
    ensures t in Recomputed(s, facts, obs) <==> Present(s, facts, obs, t)
  {
  }

  /** What the rows mean: confirmed from ten confirmations on, dust nowhere. */
  lemma RowsAfterScan(s: Store, facts: map<TxId, Fact>, obs: seq<Observation>, t: TxId)
    requires WellFormed(s) && Settles(s) && Agrees(s, facts) && Consistent(obs, facts)
    requires t in ScanAll(s, obs).payments
    ensures var p := ScanAll(s, obs).payments[t];
            && p.amount >= 100_000_000
            && (!p.status.Orphaned? ==> (p.status.Confirmed? <==> p.confirmations >= 10))
            && (!p.status.Orphaned? ==> p.confirmations >= MaxConfirmations(obs, t))
  {
    ScanTable(s, facts, obs);
    assert PaymentOk(ScanAll(s, obs), ScanAll(s, obs).payments[t]);
    MergedReachesMax(s, facts, obs, t);
  }

  lemma MergedReachesMax(s: Store, facts: map<TxId, Fact>, obs: seq<Observation>, t: TxId)
    requires Present(s, facts, obs, t)
    ensures var p := Merged(s, facts, obs, t);
            !p.status.Orphaned? ==> p.confirmations >= MaxConfirmations(obs, t)
  {
  }

  // ---------------------------------------------------------------- transactions with two outputs

  /** Recomputing an invoice whose sum did not change changes nothing. */
  lemma RecalculateIsIdle(s: Store, id: InvoiceId, now: Time)
    requires id in s.invoices && StatusFollowsSum(s, id)
    ensures Recalculated(s, id, now).invoices == s.invoices && Recalculated(s, id, now).payments == s.payments
  {
  }

  lemma ForeignSightingMovesOnlyThePayment(s: Store, tx: Transfer, now: Time)
    requires Settles(s) && Foreign(s, tx)
    ensures var q := Refreshed(s.payments[tx.txid], tx.confirmations, tx.height);
            && Transferred(s, tx, now).invoices == s.invoices
            && Transferred(s, tx, now).payments == s.payments[tx.txid := q]
  {
    var q := Refreshed(s.payments[tx.txid], tx.confirmations, tx.height);
    var id := s.addresses[tx.address];
    OtherInvoicesKeepTheirSum(s, tx.txid, q);
    assert StatusFollowsSum(s, id);
    RecalculateIsIdle(s.(payments := s.payments[tx.txid := q]), id, now);
  }

  /**
    Rows are looked up by hash alone.  When a transaction that pays a second subaddress is seen
    again under that address, the wrong invoice is recomputed: the statuses still match the recorded
    payments exactly when this sighting does not confirm one its own invoice would have to react to.
   */
  lemma ForeignSightingSettlesIff(s: Store, tx: Transfer, now: Time)
    requires WellFormed(s) && Settles(s) && Foreign(s, tx)
    ensures var p := s.payments[tx.txid];
            var owner := s.invoices[p.invoice];
            var confirms := p.status.Detected? && tx.confirmations >= 10;
            Settles(Transferred(s, tx, now)) <==>
              !(confirms
                && Target(owner.status, ConfirmedSum(s.payments, p.invoice) + p.amount, owner.required) != owner.status)
  {
    var p := s.payments[tx.txid];
    var q := Refreshed(p, tx.confirmations, tx.height);
    var s2 := Transferred(s, tx, now);
    assert PaymentOk(s, p);
    ForeignSightingMovesOnlyThePayment(s, tx, now);
    SumReplace(s.payments, p.invoice, tx.txid, q);
    OtherInvoicesKeepTheirSum(s, tx.txid, q);
    assert StatusFollowsSum(s, p.invoice);
    assert Settles(s2) ==> StatusFollowsSum(s2, p.invoice);
    forall i | i in s2.invoices && i != p.invoice ensures StatusFollowsSum(s2, i) {
      assert StatusFollowsSum(s, i);
    }
  }

  /** A sighting under the address of the recorded invoice that leaves the payment confirmed repairs its status. */
  lemma OwnSightingRepairs(s: Store, tx: Transfer, now: Time)
    requires Relevant(s, tx) && tx.txid in s.payments && !Foreign(s, tx)
    requires Refreshed(s.payments[tx.txid], tx.confirmations, tx.height).status.Confirmed?
    ensures var id, s' := s.addresses[tx.address], Transferred(s, tx, now);
            var sum := ConfirmedSum(s'.payments, id);
            s'.invoices[id].status == Target(s.invoices[id].status, sum, s.invoices[id].required)
  {
  }

  /** The invoice whose address a foreign sighting pays gets nothing for it. */
  lemma ForeignSightingIsNotCredited(s: Store, tx: Transfer, now: Time)
    requires Foreign(s, tx)
    ensures var id := s.addresses[tx.address];
            ConfirmedSum(Transferred(s, tx, now).payments, id) == ConfirmedSum(s.payments, id)
  {
    SumReplace(s.payments, s.addresses[tx.address], tx.txid,
               Refreshed(s.payments[tx.txid], tx.confirmations, tx.height));
  }

  /**
    Whether a transaction seen with enough confirmations counts for the invoice whose address it
    pays: exactly unless its hash is already recorded for another invoice, or as orphaned.
   */
  lemma TransferIsCreditedIff(s: Store, tx: Transfer, now: Time)
    requires WellFormed(s) && Relevant(s, tx) && tx.confirmations >= 10
    ensures var id, s' := s.addresses[tx.address], Transferred(s, tx, now);
            && tx.txid in s'.payments
            && (ConfirmedSum(s'.payments, id) == ConfirmedSum(s.payments - {tx.txid}, id) + s'.payments[tx.txid].amount
                <==> !Foreign(s, tx) && !(tx.txid in s.payments && s.payments[tx.txid].status.Orphaned?))
  {
    var id, s' := s.addresses[tx.address], Transferred(s, tx, now);
    assert tx.txid in s.payments ==> PaymentOk(s, s.payments[tx.txid]);
    SumSplit(s'.payments, id, tx.txid);
    assert s'.payments - {tx.txid} == s.payments - {tx.txid};
  }

  /** A row, once there, stays and keeps its invoice and amount, whatever is seen or answered later. */
  lemma StepKeepsOwner(s: Store, a: Action, t: TxId)
    requires t in s.payments
    ensures t in Next(s, a).payments
    ensures Next(s, a).payments[t].invoice == s.payments[t].invoice
    ensures Next(s, a).payments[t].amount == s.payments[t].amount
  {
    match a
    case Open(_, _, _, _) =>
    case Scan(tx, now) =>
    case Poll(u, reply, now) =>
    case Reorg(u, now) =>
    case Expire(_, _) =>
    case Cancel(_) =>
  }

  lemma {:induction false} RunKeepsOwner(s: Store, actions: seq<Action>, t: TxId)
    requires t in s.payments
    ensures t in Run(s, actions).payments
    ensures Run(s, actions).payments[t].invoice == s.payments[t].invoice
    ensures Run(s, actions).payments[t].amount == s.payments[t].amount
    decreases |actions|
  {
    if actions != [] {
      StepKeepsOwner(s, actions[0], t);
      RunKeepsOwner(Next(s, actions[0]), actions[1..], t);
    }
  }

  predicate Records(s: Store, a: Action, t: TxId) {
    a.Scan? && a.tx.txid == t && Relevant(s, a.tx)
  }

  /** The first sighting of `t` in the run that pays one of our addresses more than dust. */
  ghost function FirstSighting(s: Store, actions: seq<Action>, t: TxId): Option<Fact>
    decreases |actions|
  {
    if actions == [] then None
    else if Records(s, actions[0], t) then Some(Fact(actions[0].tx.amount, actions[0].tx.address))
    else FirstSighting(Next(s, actions[0]), actions[1..], t)
  }

  /** Addresses are given out once. */
  lemma StepKeepsAddress(s: Store, a: Action, address: Subaddress)
    requires Legal(s, a) && address in s.addresses
    ensures address in Next(s, a).addresses && Next(s, a).addresses[address] == s.addresses[address]
  {
  }

  lemma {:induction false} RunKeepsAddress(s: Store, actions: seq<Action>, address: Subaddress)
    requires LegalRun(s, actions) && address in s.addresses
    ensures address in Run(s, actions).addresses && Run(s, actions).addresses[address] == s.addresses[address]
    decreases |actions|
  {
    if actions != [] {
      StepKeepsAddress(s, actions[0], address);
      RunKeepsAddress(Next(s, actions[0]), actions[1..], address);
    }
  }

  lemma UnrecordedStaysUnrecorded(s: Store, a: Action, t: TxId)
    requires t !in s.payments
    ensures t in Next(s, a).payments <==> Records(s, a, t)
    ensures Records(s, a, t) ==> Next(s, a).payments[t] == Recorded(a.tx, s.addresses[a.tx.address])
  {
    match a
    case Open(_, _, _, _) =>
    case Scan(tx, now) =>
    case Poll(u, reply, now) =>
    case Reorg(u, now) =>
    case Expire(_, _) =>
    case Cancel(_) =>
  }

  lemma {:induction false} FirstSightingOwns(s: Store, actions: seq<Action>, t: TxId)
    requires LegalRun(s, actions) && t !in s.payments
    ensures var first, s' := FirstSighting(s, actions, t), Run(s, actions);
            && (t in s'.payments <==> first.Some?)
            && (first.Some? ==>
                  && first.value.address in s'.addresses
                  && s'.payments[t].invoice == s'.addresses[first.value.address]
                  && s'.payments[t].amount == first.value.amount)
    decreases |actions|
  {
    if actions != [] {
      var a := actions[0];
      UnrecordedStaysUnrecorded(s, a, t);
      if Records(s, a, t) {
        StepKeepsAddress(s, a, a.tx.address);
        RunKeepsOwner(Next(s, a), actions[1..], t);
        RunKeepsAddress(Next(s, a), actions[1..], a.tx.address);
      } else {
        FirstSightingOwns(Next(s, a), actions[1..], t);
      }
    }
  }

  /**
    Over every run, however often and under whatever addresses a transaction is seen: it adds its
    first amount to the confirmed sum of the invoice it was first seen for, while its row is
    confirmed, and adds nothing to any other invoice it may also pay.
   */
  lemma OnlyTheFirstOutputCounts(actions: seq<Action>, t: TxId, id: InvoiceId)
    requires LegalRun(EMPTY, actions)
    ensures var s, first := Run(EMPTY, actions), FirstSighting(EMPTY, actions, t);
            && (first.Some? <==> t in s.payments)
            && ConfirmedSum(s.payments, id) == ConfirmedSum(s.payments - {t}, id) +
               if first.Some? && first.value.address in s.addresses && s.addresses[first.value.address] == id
                  && s.payments[t].status.Confirmed?
               then first.value.amount else 0
  {
    var s := Run(EMPTY, actions);
    FirstSightingOwns(EMPTY, actions, t);
    if t in s.payments {
      SumSplit(s.payments, id, t);
    } else {
      assert s.payments - {t} == s.payments;
    }
  }

  lemma RunFirst(s: Store, a: Action, rest: seq<Action>)
    ensures Run(s, [a] + rest) == Run(Next(s, a), rest)
    ensures LegalRun(s, [a] + rest) <==> Legal(s, a) && LegalRun(Next(s, a), rest)
  {
    assert ([a] + rest)[1..] == rest;
  }

  function FirstOutput(confirmations: nat): Transfer {
    Transfer(7, DUST_THRESHOLD_ATOMIC, Subaddress(0, 1), confirmations, None)
  }

  function SecondOutput(confirmations: nat): Transfer {
    Transfer(7, DUST_THRESHOLD_ATOMIC, Subaddress(0, 2), confirmations, None)
  }

  /** Two invoices are opened, and one transaction that pays both in full is seen first for one, then for the other. */
  function TwoOutputRun(now: Time): seq<Action> {
    [Open(1, Subaddress(0, 1), DUST_THRESHOLD_ATOMIC, now)] +
    ([Open(2, Subaddress(0, 2), DUST_THRESHOLD_ATOMIC, now)] +
     ([Scan(FirstOutput(0), now)] + ([Scan(SecondOutput(10), now)] + [])))
  }

  ghost function BeforeSecondOutput(now: Time): Store {
    var amount := DUST_THRESHOLD_ATOMIC;
    var before := Opened(Opened(EMPTY, 1, Subaddress(0, 1), amount, now), 2, Subaddress(0, 2), amount, now);
    Scanned(before, FirstOutput(0), now)
  }

  lemma TwoOutputRunUnfolds(now: Time)
    ensures LegalRun(EMPTY, TwoOutputRun(now))
    ensures Run(EMPTY, TwoOutputRun(now)) == Scanned(BeforeSecondOutput(now), SecondOutput(10), now)
  {
    var amount := DUST_THRESHOLD_ATOMIC;
    var s1 := Opened(EMPTY, 1, Subaddress(0, 1), amount, now);
    var s2 := Opened(s1, 2, Subaddress(0, 2), amount, now);
    var tail := [Scan(SecondOutput(10), now)] + [];
    RunFirst(BeforeSecondOutput(now), Scan(SecondOutput(10), now), []);
    RunFirst(s2, Scan(FirstOutput(0), now), tail);
    RunFirst(s1, Open(2, Subaddress(0, 2), amount, now), [Scan(FirstOutput(0), now)] + tail);
    RunFirst(EMPTY, Open(1, Subaddress(0, 1), amount, now),
             [Open(2, Subaddress(0, 2), amount, now)] + ([Scan(FirstOutput(0), now)] + tail));
  }

  lemma BothStillPending(now: Time)
    ensures var s := BeforeSecondOutput(now);
            && Settles(s) && s.payments == map[7 := Payment(1, DUST_THRESHOLD_ATOMIC, Detected, 0, None)]
            && s.addresses == map[Subaddress(0, 1) := 1, Subaddress(0, 2) := 2]
            && 1 in s.invoices && 2 in s.invoices
            && s.invoices[1].status.Pending? && s.invoices[2].status.Pending?
            && s.invoices[1].required == DUST_THRESHOLD_ATOMIC
            && ConfirmedSum(s.payments, 1) == ConfirmedSum(s.payments, 2) == 0
  {
    var amount := DUST_THRESHOLD_ATOMIC;
    var s1 := Opened(EMPTY, 1, Subaddress(0, 1), amount, now);
    var s2 := Opened(s1, 2, Subaddress(0, 2), amount, now);
    EmptyStoreInv();
    OpenKeepsInv(EMPTY, 1, Subaddress(0, 1), amount, now);
    OpenKeepsInv(s1, 2, Subaddress(0, 2), amount, now);
    ScanKeepsInv(s2, FirstOutput(0), now);
    SumInsert(s2.payments, 1, 7, Recorded(FirstOutput(0), 1));
    SumInsert(s2.payments, 2, 7, Recorded(FirstOutput(0), 1));
  }

  /** Its tenth confirmation, read off the second output, is lost on the first invoice; the second gets nothing. */
  lemma TwoOutputsBreakTheBooks(now: Time)
    ensures LegalRun(EMPTY, TwoOutputRun(now)) && !Settles(Run(EMPTY, TwoOutputRun(now)))
    ensures var s := Run(EMPTY, TwoOutputRun(now));
            && 1 in s.invoices && s.invoices[1].status.Pending?
            && ConfirmedSum(s.payments, 1) == s.invoices[1].required
            && 2 in s.invoices && s.invoices[2].status.Pending? && ConfirmedSum(s.payments, 2) == 0
  {
    var s := BeforeSecondOutput(now);
    var tx := SecondOutput(10);
    TwoOutputRunUnfolds(now);
    BothStillPending(now);
    ForeignSightingMovesOnlyThePayment(s, tx, now);
    SumReplace(s.payments, 1, 7, Refreshed(s.payments[7], 10, None));
    ForeignSightingIsNotCredited(s, tx, now);
    ForeignSightingSettlesIff(s, tx, now);
    SameButAnnounced(Transferred(s, tx, now), Scanned(s, tx, now));
  }

  /** Queued events do not enter the books. */
  lemma SameButAnnounced(s: Store, s': Store)
    requires s'.invoices == s.invoices && s'.payments == s.payments
    ensures Settles(s) <==> Settles(s')
  {
    if Settles(s) { forall i | i in s'.invoices ensures StatusFollowsSum(s', i) { assert StatusFollowsSum(s, i); } }
    if Settles(s') { forall i | i in s.invoices ensures StatusFollowsSum(s, i) { assert StatusFollowsSum(s', i); } }
  }
}
