/** The webhook service and the body of its worker loop, over tables updated in place. */
module WebhookServices {
  import opened Common
  import opened Webhooks

  /** Working through a claimed batch; `letters` are the ids of the rows a dead-lettering would add. */
  function WorkedAll(t: Tables, batch: seq<DeliveryId>, ask: DeliveryId -> Attempt, letters: seq<LetterId>, now: Time)
    : Tables
    requires |letters| == |batch|
    decreases |batch|
  {
    if batch == [] then t
    else
      var n := |batch| - 1;
      Worked(WorkedAll(t, batch[..n], ask, letters[..n], now), batch[n], ask(batch[n]), letters[n], now)
  }

  class WebhookDesk {
    var deliveries: map<DeliveryId, Delivery>
    var letters: map<LetterId, Letter>
    ghost var deaths: seq<DeliveryId>

    ghost function State(): Tables
      reads this
    {
      Tables(deliveries, letters, deaths)
    }

    constructor ()
      ensures State() == EMPTY
    {
      deliveries, letters, deaths := map[], map[], [];
    }

    /** `reachable`: the merchant has a webhook URL that passes validation, and a secret. */
    method QueueWebhook(id: DeliveryId, merchant: MerchantId, event: EventType, reachable: bool, now: Time)
      returns (queued: bool)
      modifies this`deliveries
      ensures State() == QueuedIn(old(State()), id, merchant, event, reachable, now)
      ensures queued <==> reachable
    {
      if !reachable {
        return false;
      }
      deliveries := deliveries[id := Delivery(merchant, event, Pending, 0, MAX_ATTEMPTS, Some(now))];
      return true;
    }

    method MoveToDlq(id: DeliveryId, letter: LetterId)
      requires id in deliveries
      modifies this
      ensures State()
           == Buried(old(State()), id, old(deliveries)[id].(status := DeadLettered, nextRetry := None), letter)
    {
      var d := deliveries[id];
      d := d.(status := DeadLettered);
      d := d.(nextRetry := None);
      deliveries := deliveries[id := d];
      letters := letters[letter := Letter(id, d.merchant, d.event, 0, None, false)];
      deaths := deaths + [id];
    }

    method ProcessDeliveryResult(id: DeliveryId, success: bool, letter: LetterId, now: Time)
      requires id in deliveries && deliveries[id].status.Pending?
      modifies this
      ensures var d := Resulted(old(deliveries)[id], success, now);
              State() == if d.status.DeadLettered? then Buried(old(State()), id, d, letter)
                         else old(State()).(deliveries := old(deliveries)[id := d])
    {
      var d := deliveries[id];
      d := d.(attempts := d.attempts + 1);
      if success {
        d := d.(status := Delivered);
        d := d.(nextRetry := None);
        deliveries := deliveries[id := d];
      } else if d.attempts >= d.maxAttempts {
        deliveries := deliveries[id := d];
        MoveToDlq(id, letter);
        assert deliveries == old(deliveries)[id := Resulted(old(deliveries)[id], success, now)];
      } else {
        d := d.(nextRetry := NextRetry(d.attempts, now));
        deliveries := deliveries[id := d];
      }
    }

    /** The query expects at most one row, and by the agreement invariant there is at most one. */
    method MarkDlqResolvedForDelivery(id: DeliveryId)
      requires id in deliveries && DistinctRetries(State())
      modifies this`letters
      ensures letters == LettersResolved(old(State()), id, deliveries[id].merchant)
    {
      if l :| l in letters && letters[l].retryDelivery == Some(id)
              && letters[l].merchant == deliveries[id].merchant && !letters[l].resolved {
        letters := letters[l := letters[l].(resolved := true)];
      }
    }

    /** One claimed delivery: the result and the resolution of its letter in one transaction. */
    method WorkOne(id: DeliveryId, attempt: Attempt, letter: LetterId, now: Time) returns (processed: bool)
      requires Inv(State()) && letter !in letters
      modifies this
      ensures State() == Worked(old(State()), id, attempt, letter, now)
      ensures Inv(State())
    {
      WorkKeepsInv(State(), id, attempt, letter, now);
      if id !in deliveries || deliveries[id].status != Pending
         || deliveries[id].nextRetry.None? || deliveries[id].nextRetry.value > now {
        return false;
      }
      match attempt
      case MerchantGone =>
        MoveToDlq(id, letter);
        return false;
      case Answered(success) =>
        ProcessDeliveryResult(id, success, letter, now);
        if success {
          MarkDlqResolvedForDelivery(id);
        }
        return true;
    }

    method WorkBatch(batch: seq<DeliveryId>, ask: DeliveryId -> Attempt, ids: seq<LetterId>, now: Time)
      requires Inv(State()) && |ids| == |batch|
      requires forall k :: 0 <= k < |ids| ==> ids[k] !in letters
      requires forall j, k :: 0 <= j < k < |ids| ==> ids[j] != ids[k]
      modifies this
      ensures State() == WorkedAll(old(State()), batch, ask, ids, now)
      ensures Inv(State())
    {
      for k := 0 to |batch|
        invariant Inv(State())
        invariant State() == WorkedAll(old(State()), batch[..k], ask, ids[..k], now)
        invariant forall j :: k <= j < |ids| ==> ids[j] !in letters
      {
        assert batch[..k + 1][..k] == batch[..k] && ids[..k + 1][..k] == ids[..k];
        var _ := WorkOne(batch[k], ask(batch[k]), ids[k], now);
      }
      assert batch[..|batch|] == batch && ids[..|ids|] == ids;
    }

    method RetryDelivery(merchant: MerchantId, id: DeliveryId, now: Time) returns (r: Result<DeliveryId, RetryError>)
      modifies this`deliveries
      ensures State() == Retried(old(State()), merchant, id, now)
      ensures r == if id !in old(deliveries) || old(deliveries)[id].merchant != merchant then Err(NotFound)
                   else if old(deliveries)[id].status.Delivered? then Err(Conflict)
                   else if old(deliveries)[id].status.Pending? then Err(InvalidState)
                   else Ok(id)
    {
      if id !in deliveries || deliveries[id].merchant != merchant {
        return Err(NotFound);
      }
      var d := deliveries[id];
      if d.status == Delivered {
        return Err(Conflict);
      }
      if d.status !in {Failed, DeadLettered} {
        return Err(InvalidState);
      }
      d := d.(status := Pending);
      d := d.(attempts := 0);
      d := d.(nextRetry := Some(now));
      deliveries := deliveries[id := d];
      return Ok(id);
    }

    method RetryDeadLetter(merchant: MerchantId, l: LetterId, id: DeliveryId, reachable: bool, now: Time)
      returns (r: Result<DeliveryId, RetryError>)
      modifies this
      ensures State() == LetterRetried(old(State()), merchant, l, id, reachable, now)
      ensures r == if l !in old(letters) || old(letters)[l].merchant != merchant then Err(NotFound)
                   else if old(letters)[l].resolved then Err(Conflict)
                   else if !reachable then Err(InvalidState)
                   else Ok(id)
    {
      if l !in letters || letters[l].merchant != merchant {
        return Err(NotFound);
      }
      var entry := letters[l];
      if entry.resolved {
        return Err(Conflict);
      }
      var queued := QueueWebhook(id, merchant, entry.event, reachable, now);
      if !queued {
        return Err(InvalidState);
      }
      entry := entry.(retryCount := entry.retryCount + 1);
      entry := entry.(retryDelivery := Some(id));
      letters := letters[l := entry];
      return Ok(id);
    }
  }
}
