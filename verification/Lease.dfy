/** The background-task lease: a Redis key set with NX and EX, and never released. */
module Lease {
  import opened Common

  /** One call of acquire: when, with which time to live, and whether Redis answered. */
  datatype Poll = Poll(at: Time, ttl: Time, reachable: bool)

  /** When the key in force after these calls expires. */
  function Key(polls: seq<Poll>): Option<Time> {
    if polls == [] then None
    else
      var before, p := Key(polls[..|polls| - 1]), polls[|polls| - 1];
      if p.reachable && Free(before, p.at) then Some(p.at + p.ttl) else before
  }

  predicate Free(key: Option<Time>, now: Time) {
    key.None? || key.value <= now
  }

  predicate Granted(polls: seq<Poll>, i: nat)
    requires i < |polls|
  {
    polls[i].reachable && Free(Key(polls[..i]), polls[i].at)
  }

  /** Redis sees the calls one after the other. */
  predicate Timed(polls: seq<Poll>) {
    && (forall i, j | 0 <= i < j < |polls| :: polls[i].at <= polls[j].at)
    && (forall i | 0 <= i < |polls| :: polls[i].ttl > 0)
  }

  class TaskLease {
    var key: Option<Time>
    ghost var polls: seq<Poll>

    ghost predicate Valid()
      reads this
    {
      key == Key(polls)
    }

    constructor ()
      ensures Valid() && polls == []
    {
      key, polls := None, [];
    }

    method AcquireTaskLease(now: Time, ttl: Time, reachable: bool) returns (acquired: bool)
      requires Valid()
      modifies this
      ensures Valid() && polls == old(polls) + [Poll(now, ttl, reachable)]
      ensures acquired <==> Granted(polls, |old(polls)|)
    {
      polls := polls + [Poll(now, ttl, reachable)];
      assert polls[..|polls| - 1] == old(polls);
      if !reachable {
        return false;
      }
      if key.Some? && key.value > now {
        return false;
      }
      key := Some(now + ttl);
      return true;
    }
  }

  lemma PrefixGrants(polls: seq<Poll>, k: nat, i: nat)
    requires i < k <= |polls|
    ensures Granted(polls[..k], i) <==> Granted(polls, i)
  {
    assert polls[..k][..i] == polls[..i];
  }

  /** The key is the one set by the last call that was granted. */
  lemma {:induction false} KeyIsLastGrant(polls: seq<Poll>) returns (last: int)
    requires Timed(polls)
    ensures -1 <= last < |polls| && (Key(polls).None? <==> last == -1)
    ensures last >= 0 ==> Granted(polls, last) && Key(polls) == Some(polls[last].at + polls[last].ttl)
    ensures forall j :: last < j < |polls| ==> !Granted(polls, j)
    ensures forall j :: 0 <= j < last && Granted(polls, j) ==> polls[j].at + polls[j].ttl <= polls[last].at
    decreases |polls|
  {
    if polls == [] {
      last := -1;
    } else {
      var n := |polls| - 1;
      var init := polls[..n];
      last := KeyIsLastGrant(init);
      forall j: nat | j < n ensures Granted(init, j) <==> Granted(polls, j) { PrefixGrants(polls, n, j); }
      if Granted(polls, n) {
        last := n;
      }
    }
  }

  /** A call is granted exactly when Redis answers and every earlier grant has run out. */
  lemma GrantedIff(polls: seq<Poll>, i: nat)
    requires Timed(polls) && i < |polls|
    ensures Granted(polls, i) <==>
              && polls[i].reachable
              && forall j :: 0 <= j < i && Granted(polls, j) ==> polls[j].at + polls[j].ttl <= polls[i].at
  {
    var init := polls[..i];
    var last := KeyIsLastGrant(init);
    forall j: nat | j < i ensures Granted(init, j) <==> Granted(polls, j) { PrefixGrants(polls, i, j); }
  }

  /** When an iteration that starts at a grant ends. */
  predicate Overlap(polls: seq<Poll>, i: nat, j: nat, length: Time)
    requires i < j < |polls|
  {
    polls[j].at < polls[i].at + length
  }

  /** Mutual exclusion: two granted iterations overlap only if the first one outlives its lease. */
  lemma IterationsOverlapOnlyPastTtl(polls: seq<Poll>, i: nat, j: nat, length: Time)
    requires Timed(polls) && i < j < |polls| && Granted(polls, i) && Granted(polls, j)
    ensures Overlap(polls, i, j, length) ==> length > polls[i].ttl
  {
    GrantedIff(polls, j);
  }

  /** The bound is sharp: an iteration longer than its lease can be joined by another. */
  lemma LongIterationsCanOverlap(ttl: Time, length: Time)
    requires 0 < ttl < length
    ensures var polls := [Poll(0, ttl, true), Poll(ttl, ttl, true)];
            Timed(polls) && Granted(polls, 0) && Granted(polls, 1) && Overlap(polls, 0, 1, length)
  {
    var polls := [Poll(0, ttl, true), Poll(ttl, ttl, true)];
    assert polls[..1] == [Poll(0, ttl, true)];
    assert polls[..1][..0] == [] && polls[..0] == [];
  }

  /** Calls by one worker, at least half a lease but less than a whole lease apart. */
  ghost predicate LoneWorker(polls: seq<Poll>, ttl: Time) {
    && (forall i | 0 <= i < |polls| :: polls[i].ttl == ttl && polls[i].reachable)
    && (forall i, j | 0 <= i < j < |polls| && j == i + 1 ::
          ttl <= 2 * (polls[j].at - polls[i].at) && polls[j].at - polls[i].at < ttl)
  }

  lemma TwoTurnsAreALease(polls: seq<Poll>, ttl: Time, j: nat, i: nat)
    requires Timed(polls) && LoneWorker(polls, ttl) && j + 2 <= i < |polls|
    ensures polls[j].at + ttl <= polls[i].at
  {
    var mid := i - 1;
    assert ttl <= 2 * (polls[mid].at - polls[i - 2].at) && ttl <= 2 * (polls[i].at - polls[mid].at);
    assert j == i - 2 || polls[j].at <= polls[i - 2].at;
  }

  /** A lone worker is granted its turn exactly when it was not granted the one before. */
  lemma TurnsAlternate(polls: seq<Poll>, ttl: Time, i: nat)
    requires Timed(polls) && LoneWorker(polls, ttl) && 1 <= i < |polls|
    ensures Granted(polls, i) <==> !Granted(polls, i - 1)
  {
    GrantedIff(polls, i);
    var before := i - 1;
    if Granted(polls, before) {
      assert polls[i].at - polls[before].at < ttl;
    } else {
      forall j: nat | j < i && Granted(polls, j) ensures polls[j].at + polls[j].ttl <= polls[i].at {
        assert j != before;
        TwoTurnsAreALease(polls, ttl, j, i);
      }
    }
  }

  /**
    Every loop asks for a lease of twice its own interval and then sleeps one interval, so a lone
    worker is refused on every second turn: it runs half as often as its interval says.
   */
  lemma {:induction false} LoneWorkerRunsEverySecondTurn(polls: seq<Poll>, ttl: Time, i: nat)
    requires Timed(polls) && LoneWorker(polls, ttl) && i < |polls|
    ensures Granted(polls, i) <==> i % 2 == 0
    decreases i
  {
    if i == 0 {
      assert polls[..0] == [];
    } else {
      LoneWorkerRunsEverySecondTurn(polls, ttl, i - 1);
      TurnsAlternate(polls, ttl, i);
    }
  }
}
