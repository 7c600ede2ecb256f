/** Webhook deliveries and their dead letters: two tables linked both ways. */
module Webhooks {
  import opened Common

  type MerchantId = nat
  type DeliveryId = nat
  type LetterId = nat
  type EventType = nat

  const MAX_ATTEMPTS: nat := 7
  const RETRY_DELAYS: seq<int> := [60, 300, 1800, 7200, 43200, 86400]

  datatype Status = Pending | Delivered | Failed | DeadLettered

  datatype Delivery = Delivery(
    merchant: MerchantId, event: EventType, status: Status, attempts: nat, maxAttempts: nat, nextRetry: Option<Time>)

  datatype Letter = Letter(
    delivery: DeliveryId, merchant: MerchantId, event: EventType,
    retryCount: nat, retryDelivery: Option<DeliveryId>, resolved: bool)

  /** The two tables, and the log of dead-letterings. */
  datatype Tables = Tables(
    deliveries: map<DeliveryId, Delivery>, letters: map<LetterId, Letter>, deaths: seq<DeliveryId>)

  datatype RetryError = NotFound | Conflict | InvalidState

  // ---------------------------------------------------------------- one delivery

  function Queued(merchant: MerchantId, event: EventType, now: Time): Delivery {
    Delivery(merchant, event, Pending, 0, MAX_ATTEMPTS, Some(now))
  }

  function NextRetry(attempts: nat, now: Time): Option<Time>
    requires attempts >= 1
  {
    if attempts - 1 >= |RETRY_DELAYS| then None else Some(now + RETRY_DELAYS[attempts - 1] * SECOND)
  }

  /** The delivery row after one result. */
  function Resulted(d: Delivery, success: bool, now: Time): Delivery {
    var n := d.attempts + 1;
    if success then d.(attempts := n, status := Delivered, nextRetry := None)
    else if n >= d.maxAttempts then d.(attempts := n, status := DeadLettered, nextRetry := None)
    else d.(attempts := n, nextRetry := NextRetry(n, now))
  }

  predicate IsDue(d: Delivery, now: Time) {
    d.status.Pending? && d.nextRetry.Some? && d.nextRetry.value <= now
  }

  function LetterFor(d: Delivery, id: DeliveryId): Letter {
    Letter(id, d.merchant, d.event, 0, None, false)
  }

  // ---------------------------------------------------------------- steps

  /** The delivery row is replaced; a newly dead one gets its letter. */
  function Buried(t: Tables, id: DeliveryId, d: Delivery, letter: LetterId): Tables {
    t.(deliveries := t.deliveries[id := d],
       letters := t.letters[letter := LetterFor(d, id)],
       deaths := t.deaths + [id])
  }

  /** Every open letter of the same merchant that waits for delivery `id` is resolved. */
  function LettersResolved(t: Tables, id: DeliveryId, merchant: MerchantId): map<LetterId, Letter> {
    map l | l in t.letters ::
      if t.letters[l].retryDelivery == Some(id) && t.letters[l].merchant == merchant
      then t.letters[l].(resolved := true)
      else t.letters[l]
  }

  datatype Attempt = MerchantGone | Answered(success: bool)

  /** One delivery of the worker loop, in one transaction. */
  function Worked(t: Tables, id: DeliveryId, attempt: Attempt, letter: LetterId, now: Time): Tables {
    if id !in t.deliveries || !IsDue(t.deliveries[id], now) then t
    else
      var d := t.deliveries[id];
      match attempt
      case MerchantGone => Buried(t, id, d.(status := DeadLettered, nextRetry := None), letter)
      case Answered(success) =>
        var d' := Resulted(d, success, now);
        if success then t.(deliveries := t.deliveries[id := d'], letters := LettersResolved(t, id, d.merchant))
        else if d'.status.DeadLettered? then Buried(t, id, d', letter)
        else t.(deliveries := t.deliveries[id := d'])
  }

  function QueuedIn(t: Tables, id: DeliveryId, merchant: MerchantId, event: EventType, reachable: bool, now: Time)
    : Tables
  {
    if reachable then t.(deliveries := t.deliveries[id := Queued(merchant, event, now)]) else t
  }

  function RetryRefusal(t: Tables, merchant: MerchantId, id: DeliveryId): Option<RetryError> {
    if id !in t.deliveries || t.deliveries[id].merchant != merchant then Some(NotFound)
    else if t.deliveries[id].status.Delivered? then Some(Conflict)
    else if t.deliveries[id].status.Pending? then Some(InvalidState)
    else None
  }

  function Retried(t: Tables, merchant: MerchantId, id: DeliveryId, now: Time): Tables {
    if RetryRefusal(t, merchant, id).Some? then t
    else
      var d := t.deliveries[id].(status := Pending, attempts := 0, nextRetry := Some(now));
      t.(deliveries := t.deliveries[id := d])
  }

  function LetterRefusal(t: Tables, merchant: MerchantId, l: LetterId, reachable: bool): Option<RetryError> {
    if l !in t.letters || t.letters[l].merchant != merchant then Some(NotFound)
    else if t.letters[l].resolved then Some(Conflict)
    else if !reachable then Some(InvalidState)
    else None
  }

  function LetterRetried(t: Tables, merchant: MerchantId, l: LetterId, id: DeliveryId, reachable: bool, now: Time)
    : Tables
  {
    if LetterRefusal(t, merchant, l, reachable).Some? then t
    else
      var e := t.letters[l];
      t.(deliveries := t.deliveries[id := Queued(merchant, e.event, now)],
         letters := t.letters[l := e.(retryCount := e.retryCount + 1, retryDelivery := Some(id))])
  }

  // ---------------------------------------------------------------- runs

  datatype Action =
    | Queue(id: DeliveryId, merchant: MerchantId, event: EventType, reachable: bool, now: Time)
    | Work(id: DeliveryId, attempt: Attempt, letter: LetterId, now: Time)
    | Retry(merchant: MerchantId, id: DeliveryId, now: Time)
    | RetryLetter(merchant: MerchantId, l: LetterId, id: DeliveryId, reachable: bool, now: Time)

  /** New rows get new ids. */
  predicate Legal(t: Tables, a: Action) {
    match a
    case Queue(id, _, _, _, _) => id !in t.deliveries
    case Work(_, _, letter, _) => letter !in t.letters
    case Retry(_, _, _) => true
    case RetryLetter(_, _, id, _, _) => id !in t.deliveries
  }

  function Next(t: Tables, a: Action): Tables {
    match a
    case Queue(id, merchant, event, reachable, now) => QueuedIn(t, id, merchant, event, reachable, now)
    case Work(id, attempt, letter, now) => Worked(t, id, attempt, letter, now)
    case Retry(merchant, id, now) => Retried(t, merchant, id, now)
    case RetryLetter(merchant, l, id, reachable, now) => LetterRetried(t, merchant, l, id, reachable, now)
  }

  function Run(t: Tables, actions: seq<Action>): Tables
    decreases |actions|
  {
    if actions == [] then t else Run(Next(t, actions[0]), actions[1..])
  }

  predicate LegalRun(t: Tables, actions: seq<Action>)
    decreases |actions|
  {
    actions == [] || (Legal(t, actions[0]) && LegalRun(Next(t, actions[0]), actions[1..]))
  }

  const EMPTY := Tables(map[], map[], [])

  // ---------------------------------------------------------------- invariant

  predicate DeliveryOk(d: Delivery) {
    && d.maxAttempts == MAX_ATTEMPTS
    && (d.status.Pending? <==> d.nextRetry.Some?)
    && (d.status.Pending? ==> d.attempts < d.maxAttempts)
    && !d.status.Failed?
  }

  /** A dead letter is resolved exactly when the delivery that retries it has been delivered. */
  predicate LetterOk(t: Tables, e: Letter) {
    && e.delivery in t.deliveries
    && t.deliveries[e.delivery].merchant == e.merchant && t.deliveries[e.delivery].event == e.event
    && e.retryDelivery != Some(e.delivery)
    && (e.retryDelivery.Some? ==>
          e.retryDelivery.value in t.deliveries
          && t.deliveries[e.retryDelivery.value].merchant == e.merchant
          && t.deliveries[e.retryDelivery.value].event == e.event)
    && (e.resolved <==> e.retryDelivery.Some? && t.deliveries[e.retryDelivery.value].status.Delivered?)
  }

  predicate DistinctRetries(t: Tables) {
    forall k, l | k in t.letters && l in t.letters && k != l ::
      t.letters[k].retryDelivery.Some? ==> t.letters[k].retryDelivery != t.letters[l].retryDelivery
  }

  function LettersOf(t: Tables, id: DeliveryId): set<LetterId> {
    set l | l in t.letters && t.letters[l].delivery == id
  }

  function Deaths(log: seq<DeliveryId>, id: DeliveryId): nat {
    if log == [] then 0 else Deaths(log[..|log| - 1], id) + if log[|log| - 1] == id then 1 else 0
  }

  predicate CountOk(t: Tables, id: DeliveryId) {
    && |LettersOf(t, id)| == Deaths(t.deaths, id)
    && (id in t.deliveries && t.deliveries[id].status.DeadLettered? ==> LettersOf(t, id) != {})
  }

  ghost predicate Inv(t: Tables) {
    && (forall id :: id in t.deliveries ==> DeliveryOk(t.deliveries[id]))
    && (forall l :: l in t.letters ==> LetterOk(t, t.letters[l]))
    && DistinctRetries(t)
    && forall id :: CountOk(t, id)
  }

  /** Replacing a delivery row by one of the same merchant, event and "delivered" flag keeps the letters right. */
  lemma ReplaceKeepsLetters(t: Tables, id: DeliveryId, d: Delivery)
    requires Inv(t) && DeliveryOk(d)
    requires id in t.deliveries ==>
               d.merchant == t.deliveries[id].merchant && d.event == t.deliveries[id].event
               && (d.status.Delivered? <==> t.deliveries[id].status.Delivered?)
    requires d.status.DeadLettered? ==> LettersOf(t, id) != {}
    ensures Inv(t.(deliveries := t.deliveries[id := d]))
  {
    var t' := t.(deliveries := t.deliveries[id := d]);
    forall l | l in t'.letters ensures LetterOk(t', t'.letters[l]) { assert LetterOk(t, t.letters[l]); }
    forall i ensures CountOk(t', i) {
      assert CountOk(t, i);
      assert LettersOf(t', i) == LettersOf(t, i);
    }
  }

  lemma DeathsAppend(log: seq<DeliveryId>, d: DeliveryId, id: DeliveryId)
    ensures Deaths(log + [d], id) == Deaths(log, id) + if d == id then 1 else 0
  {
    assert (log + [d])[..|log|] == log;
  }

  lemma BuriedKeepsInv(t: Tables, id: DeliveryId, d: Delivery, letter: LetterId)
    requires Inv(t) && id in t.deliveries && letter !in t.letters
    requires DeliveryOk(d) && d.status.DeadLettered? && !t.deliveries[id].status.Delivered?
    requires d.merchant == t.deliveries[id].merchant && d.event == t.deliveries[id].event
    ensures Inv(Buried(t, id, d, letter))
  {
    var t' := Buried(t, id, d, letter);
    forall l | l in t'.letters ensures LetterOk(t', t'.letters[l]) {
      assert l != letter ==> LetterOk(t, t.letters[l]);
    }
    forall i ensures CountOk(t', i) {
      assert CountOk(t, i);
      DeathsAppend(t.deaths, id, i);
      if i == id {
        assert LettersOf(t', i) == LettersOf(t, i) + {letter};
      } else {
        assert LettersOf(t', i) == LettersOf(t, i);
      }
    }
  }

  lemma DeliveredKeepsInv(t: Tables, id: DeliveryId, now: Time)
    requires Inv(t) && id in t.deliveries && IsDue(t.deliveries[id], now)
    ensures var d := t.deliveries[id];
            Inv(t.(deliveries := t.deliveries[id := Resulted(d, true, now)],
                   letters := LettersResolved(t, id, d.merchant)))
  {
    var d := t.deliveries[id];
    var t' := t.(deliveries := t.deliveries[id := Resulted(d, true, now)],
                 letters := LettersResolved(t, id, d.merchant));
    forall l | l in t'.letters ensures LetterOk(t', t'.letters[l]) { assert LetterOk(t, t.letters[l]); }
    forall i ensures CountOk(t', i) {
      assert CountOk(t, i);
      assert LettersOf(t', i) == LettersOf(t, i);
    }
  }

  lemma WorkKeepsInv(t: Tables, id: DeliveryId, attempt: Attempt, letter: LetterId, now: Time)
    requires Inv(t) && letter !in t.letters
    ensures Inv(Worked(t, id, attempt, letter, now))
  {
    if id in t.deliveries && IsDue(t.deliveries[id], now) {
      var d := t.deliveries[id];
      assert DeliveryOk(d);
      match attempt
      case MerchantGone => BuriedKeepsInv(t, id, d.(status := DeadLettered, nextRetry := None), letter);
      case Answered(success) =>
        var d' := Resulted(d, success, now);
        if success { DeliveredKeepsInv(t, id, now); }
        else if d'.status.DeadLettered? { BuriedKeepsInv(t, id, d', letter); }
        else { ReplaceKeepsLetters(t, id, d'); }
    }
  }

  lemma LetterRetryKeepsInv(t: Tables, merchant: MerchantId, l: LetterId, id: DeliveryId, reachable: bool, now: Time)
    requires Inv(t) && id !in t.deliveries
    ensures Inv(LetterRetried(t, merchant, l, id, reachable, now))
  {
    var t' := LetterRetried(t, merchant, l, id, reachable, now);
    if LetterRefusal(t, merchant, l, reachable).None? {
      forall k | k in t'.letters ensures LetterOk(t', t'.letters[k]) { assert LetterOk(t, t.letters[k]); }
      forall k, m | k in t'.letters && m in t'.letters && k != m && t'.letters[k].retryDelivery.Some?
        ensures t'.letters[k].retryDelivery != t'.letters[m].retryDelivery
      {
        assert LetterOk(t, t.letters[k]) && LetterOk(t, t.letters[m]);
      }
      forall i ensures CountOk(t', i) {
        assert CountOk(t, i);
        assert LettersOf(t', i) == LettersOf(t, i);
      }
    }
  }

  lemma StepKeepsInv(t: Tables, a: Action)
    requires Inv(t) && Legal(t, a)
    ensures Inv(Next(t, a))
  {
    match a
    case Queue(id, merchant, event, reachable, now) =>
      if reachable { ReplaceKeepsLetters(t, id, Queued(merchant, event, now)); }
    case Work(id, attempt, letter, now) => WorkKeepsInv(t, id, attempt, letter, now);
    case Retry(merchant, id, now) =>
      if RetryRefusal(t, merchant, id).None? {
        assert DeliveryOk(t.deliveries[id]);
        ReplaceKeepsLetters(t, id, t.deliveries[id].(status := Pending, attempts := 0, nextRetry := Some(now)));
      }
    case RetryLetter(merchant, l, id, reachable, now) => LetterRetryKeepsInv(t, merchant, l, id, reachable, now);
  }

  lemma {:induction false} RunKeepsInv(t: Tables, actions: seq<Action>)
    requires Inv(t) && LegalRun(t, actions)
    ensures Inv(Run(t, actions))
    decreases |actions|
  {
    if actions != [] {
      StepKeepsInv(t, actions[0]);
      RunKeepsInv(Next(t, actions[0]), actions[1..]);
    }
  }

  /**
    Over every run of queuing, delivering, retrying and requeuing: a dead letter is resolved exactly
    when the delivery it names as its retry was delivered, no two letters name the same retry, and a
    delivery has as many letters as times it was dead-lettered.
   */
  lemma LettersAgreeWithDeliveries(actions: seq<Action>, l: LetterId, k: LetterId, id: DeliveryId)
    requires LegalRun(EMPTY, actions)
    ensures var t := Run(EMPTY, actions);
            && (l in t.letters ==>
                  (t.letters[l].resolved <==>
                     t.letters[l].retryDelivery.Some?
                     && t.letters[l].retryDelivery.value in t.deliveries
                     && t.deliveries[t.letters[l].retryDelivery.value].status.Delivered?))
            && (l in t.letters && k in t.letters && l != k && t.letters[l].retryDelivery.Some? ==>
                  t.letters[l].retryDelivery != t.letters[k].retryDelivery)
            && |LettersOf(t, id)| == Deaths(t.deaths, id)
  {
    EmptyInv();
    RunKeepsInv(EMPTY, actions);
    var t := Run(EMPTY, actions);
    assert l in t.letters ==> LetterOk(t, t.letters[l]);
    assert CountOk(t, id);
  }

  lemma EmptyInv()
    ensures Inv(EMPTY)
  {
    forall id ensures CountOk(EMPTY, id) { assert LettersOf(EMPTY, id) == {}; }
  }

  /** No pending delivery is ever stranded: it has attempts left and a time for the next one. */
  lemma PendingIsNeverStranded(actions: seq<Action>, id: DeliveryId)
    requires LegalRun(EMPTY, actions)
    requires id in Run(EMPTY, actions).deliveries && Run(EMPTY, actions).deliveries[id].status.Pending?
    ensures var d := Run(EMPTY, actions).deliveries[id];
            d.attempts < 7 && d.nextRetry.Some?
  {
    EmptyInv();
    RunKeepsInv(EMPTY, actions);
    assert DeliveryOk(Run(EMPTY, actions).deliveries[id]);
  }

  lemma StepKeepsDelivered(t: Tables, a: Action, id: DeliveryId)
    requires Legal(t, a) && id in t.deliveries && t.deliveries[id].status.Delivered?
    ensures id in Next(t, a).deliveries && Next(t, a).deliveries[id] == t.deliveries[id]
  {
  }

  lemma {:induction false} DeliveredIsFinal(t: Tables, actions: seq<Action>, id: DeliveryId)
    requires LegalRun(t, actions) && id in t.deliveries && t.deliveries[id].status.Delivered?
    ensures id in Run(t, actions).deliveries && Run(t, actions).deliveries[id] == t.deliveries[id]
    decreases |actions|
  {
    if actions != [] {
      StepKeepsDelivered(t, actions[0], id);
      DeliveredIsFinal(Next(t, actions[0]), actions[1..], id);
    }
  }

  /**
    Delivering a dead-lettered delivery by retrying it directly does not resolve its own letter:
    only the delivery named as the letter's retry does.
   */
  lemma DirectRetryLeavesLetterOpen(t: Tables, l: LetterId, letter: LetterId, now: Time)
    requires Inv(t) && l in t.letters && !t.letters[l].resolved && letter !in t.letters
    requires t.letters[l].delivery in t.deliveries && t.deliveries[t.letters[l].delivery].status.DeadLettered?
    ensures var id := t.letters[l].delivery;
            var t' := Worked(Retried(t, t.deliveries[id].merchant, id, now), id, Answered(true), letter, now);
            && t'.deliveries[id].status.Delivered?
            && t'.letters[l] == t.letters[l]
            && LetterRefusal(t', t.letters[l].merchant, l, true).None?
  {
    assert LetterOk(t, t.letters[l]);
  }

  // ---------------------------------------------------------------- manual retries

  /** A merchant can requeue its own dead-lettered or failed deliveries, and thereby changes nothing else. */
  lemma RetryIff(t: Tables, merchant: MerchantId, id: DeliveryId, now: Time)
    ensures var t' := Next(t, Retry(merchant, id, now));
            if && id in t.deliveries && t.deliveries[id].merchant == merchant
               && (t.deliveries[id].status.DeadLettered? || t.deliveries[id].status.Failed?)
            then
              var d := t.deliveries[id].(status := Pending, attempts := 0, nextRetry := Some(now));
              t' == t.(deliveries := t.deliveries[id := d])
            else t' == t
  {
  }

  /** And its own open letters, each time as a fresh delivery of the same event. */
  lemma RetryLetterIff(t: Tables, merchant: MerchantId, l: LetterId, id: DeliveryId, reachable: bool, now: Time)
    ensures var t' := Next(t, RetryLetter(merchant, l, id, reachable, now));
            if l in t.letters && t.letters[l].merchant == merchant && !t.letters[l].resolved && reachable
            then
              var e := t.letters[l];
              var d := Delivery(merchant, e.event, Pending, 0, 7, Some(now));
              && t'.deliveries == t.deliveries[id := d]
              && t'.letters == t.letters[l := e.(retryCount := e.retryCount + 1, retryDelivery := Some(id))]
              && t'.deaths == t.deaths
            else t' == t
  {
  }

  /** An action of another merchant, or of the worker for another merchant's delivery. */
  predicate Concerns(t: Tables, a: Action, m: MerchantId) {
    match a
    case Queue(_, merchant, _, _, _) => merchant == m
    case Work(id, _, _, _) => id in t.deliveries && t.deliveries[id].merchant == m
    case Retry(merchant, _, _) => merchant == m
    case RetryLetter(merchant, _, _, _, _) => merchant == m
  }

  function DeliveriesOf(t: Tables, m: MerchantId): map<DeliveryId, Delivery> {
    map id | id in t.deliveries && t.deliveries[id].merchant == m :: t.deliveries[id]
  }

  function LettersFor(t: Tables, m: MerchantId): map<LetterId, Letter> {
    map l | l in t.letters && t.letters[l].merchant == m :: t.letters[l]
  }

  ghost predicate NoneConcerns(t: Tables, actions: seq<Action>, m: MerchantId)
    decreases |actions|
  {
    actions == [] || (!Concerns(t, actions[0], m) && NoneConcerns(Next(t, actions[0]), actions[1..], m))
  }

  lemma StepKeepsToItsMerchant(t: Tables, a: Action, m: MerchantId)
    requires Legal(t, a) && !Concerns(t, a, m)
    ensures DeliveriesOf(Next(t, a), m) == DeliveriesOf(t, m)
    ensures LettersFor(Next(t, a), m) == LettersFor(t, m)
  {
  }

  /** Merchants are apart: no run of the others' deliveries and retries changes a row of this one. */
  lemma {:induction false} MerchantsAreApart(t: Tables, actions: seq<Action>, m: MerchantId)
    requires LegalRun(t, actions) && NoneConcerns(t, actions, m)
    ensures DeliveriesOf(Run(t, actions), m) == DeliveriesOf(t, m)
    ensures LettersFor(Run(t, actions), m) == LettersFor(t, m)
    decreases |actions|
  {
    if actions != [] {
      StepKeepsToItsMerchant(t, actions[0], m);
      MerchantsAreApart(Next(t, actions[0]), actions[1..], m);
    }
  }

  // ---------------------------------------------------------------- progress of one delivery

  /** A delivery given results one after the other, each at its time, without manual retries. */
  function Delivering(d: Delivery, results: seq<bool>, times: seq<Time>): Delivery
    requires |times| >= |results|
    decreases results
  {
    if results == [] || !d.status.Pending? then d
    else Delivering(Resulted(d, results[0], times[0]), results[1..], times[1..])
  }

  predicate SucceedsWithin(results: seq<bool>, left: int)
    decreases |results|
  {
    left > 0 && results != [] && (results[0] || SucceedsWithin(results[1..], left - 1))
  }

  lemma {:induction false} SucceedsWithinMeans(results: seq<bool>, left: int)
    ensures SucceedsWithin(results, left) <==> exists k :: 0 <= k < Min(left, |results|) && results[k]
    decreases |results|
  {
    if left > 0 && results != [] && !results[0] {
      SucceedsWithinMeans(results[1..], left - 1);
      assert forall k :: 0 <= k < |results| - 1 ==> results[1..][k] == results[k + 1];
      if exists k :: 0 <= k < Min(left, |results|) && results[k] {
        var k :| 0 <= k < Min(left, |results|) && results[k];
        assert results[1..][k - 1];
      }
    } else if left > 0 && results != [] {
      assert results[0];
    }
  }

  lemma {:induction false} DeliveryFollows(d: Delivery, results: seq<bool>, times: seq<Time>)
    requires DeliveryOk(d) && d.status.Pending? && |times| >= |results|
    ensures var d', left := Delivering(d, results, times), MAX_ATTEMPTS - d.attempts;
            && DeliveryOk(d')
            && (d'.status.Delivered? <==> SucceedsWithin(results, left))
            && (d'.status.DeadLettered? <==> |results| >= left && !SucceedsWithin(results, left))
            && (d'.status.Pending? ==> d'.attempts == d.attempts + |results| < MAX_ATTEMPTS)
    decreases |results|
  {
    if results != [] && Resulted(d, results[0], times[0]).status.Pending? {
      DeliveryFollows(Resulted(d, results[0], times[0]), results[1..], times[1..]);
    }
  }

  /**
    A delivery with `7 - attempts` attempts left ends delivered exactly when one of the next so many
    results is a success, and dead-lettered exactly when all of them came and failed.
   */
  lemma DeliverySettles(d: Delivery, results: seq<bool>, times: seq<Time>)
    requires DeliveryOk(d) && d.status.Pending? && |times| >= |results|
    ensures var d', left := Delivering(d, results, times), 7 - d.attempts;
            var success := exists k :: 0 <= k < Min(left, |results|) && results[k];
            && (d'.status.Delivered? <==> success)
            && (d'.status.DeadLettered? <==> |results| >= left && !success)
            && (|results| >= 7 ==> !d'.status.Pending?)
  {
    DeliveryFollows(d, results, times);
    SucceedsWithinMeans(results, MAX_ATTEMPTS - d.attempts);
  }

  /** `k` failures in a row, each attempt made exactly when due. */
  function FailingOnTime(d: Delivery, k: nat): Delivery
    decreases k
  {
    if k == 0 then d
    else
      var before := FailingOnTime(d, k - 1);
      if before.nextRetry.None? then before else Resulted(before, false, before.nextRetry.value)
  }

  function DelaySum(k: nat): int
    requires k <= |RETRY_DELAYS|
  {
    if k == 0 then 0 else DelaySum(k - 1) + RETRY_DELAYS[k - 1]
  }

  lemma {:induction false} FailingSchedule(merchant: MerchantId, event: EventType, now: Time, k: nat)
    requires k <= |RETRY_DELAYS|
    ensures FailingOnTime(Queued(merchant, event, now), k)
         == Queued(merchant, event, now).(attempts := k, nextRetry := Some(now + DelaySum(k) * SECOND))
    decreases k
  {
    if k > 0 {
      FailingSchedule(merchant, event, now, k - 1);
    }
  }

  /** The delays one by one: a minute, five, half an hour, two hours, twelve, a day. */
  function Delay(failures: int): int {
    if failures == 1 then 60
    else if failures == 2 then 300
    else if failures == 3 then 1800
    else if failures == 4 then 7200
    else if failures == 5 then 43200
    else 86400
  }

  function AfterResult(d: Delivery, attempt: Attempt, now: Time): Delivery {
    match attempt
    case MerchantGone => d.(status := DeadLettered, nextRetry := None)
    case Answered(success) =>
      if success then d.(attempts := d.attempts + 1, status := Delivered, nextRetry := None)
      else if d.attempts == 6 then d.(attempts := 7, status := DeadLettered, nextRetry := None)
      else d.(attempts := d.attempts + 1, nextRetry := Some(now + Delay(d.attempts + 1) * 1_000_000))
  }

  /**
    What one result makes of a due delivery: delivered, or after the seventh failure dead-lettered, or
    pending again until the delay for so many failures is over.  One that is not due is left alone, and
    one whose merchant is gone is dead-lettered at once.
   */
  lemma WorkIff(t: Tables, id: DeliveryId, attempt: Attempt, letter: LetterId, now: Time)
    requires Inv(t) && id in t.deliveries
    ensures var d, t' := t.deliveries[id], Next(t, Work(id, attempt, letter, now));
            var due := d.status.Pending? && d.nextRetry.Some? && d.nextRetry.value <= now;
            if due then id in t'.deliveries && t'.deliveries[id] == AfterResult(d, attempt, now) else t' == t
  {
    assert DeliveryOk(t.deliveries[id]);
  }

  /** What it makes of the letters: a death adds one, open and untried; a success resolves the one waiting for it. */
  lemma WorkOnLettersIff(t: Tables, id: DeliveryId, attempt: Attempt, letter: LetterId, now: Time, l: LetterId)
    requires Inv(t) && id in t.deliveries && letter !in t.letters
    requires var d := t.deliveries[id]; d.status.Pending? && d.nextRetry.Some? && d.nextRetry.value <= now
    ensures var d, t' := t.deliveries[id], Next(t, Work(id, attempt, letter, now));
            var dies := attempt.MerchantGone? || (!attempt.success && d.attempts == 6);
            && (letter in t'.letters <==> dies)
            && (dies ==> t'.letters[letter] == Letter(id, d.merchant, d.event, 0, None, false))
            && (l in t.letters ==>
                  && l in t'.letters
                  && t'.letters[l] == if attempt == Answered(true) && t.letters[l].retryDelivery == Some(id)
                                      then t.letters[l].(resolved := true) else t.letters[l])
  {
    assert DeliveryOk(t.deliveries[id]);
    if l in t.letters { assert LetterOk(t, t.letters[l]); }
  }

  /** Queuing makes a delivery that is due at once with seven attempts to go, if the merchant can be reached. */
  lemma QueueIff(t: Tables, id: DeliveryId, merchant: MerchantId, event: EventType, reachable: bool, now: Time)
    ensures Next(t, Queue(id, merchant, event, reachable, now))
         == if reachable
            then t.(deliveries := t.deliveries[id := Delivery(merchant, event, Pending, 0, 7, Some(now))]) else t
  {
  }

  /** A delivery that always fails and is attempted exactly when due makes its seventh and last
      attempt 138960 seconds after it was queued, and is dead-lettered then. */
  lemma HopelessDeliverySpan(merchant: MerchantId, event: EventType, now: Time)
    ensures FailingOnTime(Queued(merchant, event, now), 6).nextRetry == Some(now + 138960 * 1_000_000)
    ensures FailingOnTime(Queued(merchant, event, now), 6).status.Pending?
    ensures FailingOnTime(Queued(merchant, event, now), 7).status.DeadLettered?
  {
    FailingSchedule(merchant, event, now, 6);
    assert DelaySum(3) == 60 + 300 + 1800;
    assert DelaySum(6) == 138960;
  }
}
