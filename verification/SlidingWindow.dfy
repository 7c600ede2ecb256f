/** The sliding-window rate limiter: a sorted set that is pruned, counted, added to and sometimes undone. */
module SlidingWindow {
  import opened Common

  /** The window length and the number of requests allowed in it. */
  datatype Tier = Tier(window: Time, limit: nat)

  predicate ValidTier(tier: Tier) {
    tier.window > 0 && tier.limit > 0
  }

  datatype RateTier = Starter | Growth | Enterprise | Unauthenticated | TorUnauthenticated | PublicApi

  function TierFor(rate: RateTier): (tier: Tier)
    ensures ValidTier(tier) && tier.window == 60_000_000
  {
    Tier(60 * SECOND,
         match rate
         case Starter => 100
         case Growth => 300
         case Enterprise => 1000
         case Unauthenticated => 10
         case TorUnauthenticated => 30
         case PublicApi => 300)
  }

  /**
    The sorted set with its expiry, and what it stands for: the requests allowed so far, the rejected
    ones whose entry is still to be removed, and the time of the last request.
   */
  datatype Limiter = Limiter(
    entries: set<Time>, expireAt: Option<Time>, allowed: set<Time>, undo: set<Time>, clock: Time)

  const IDLE := Limiter({}, None, {}, {}, 0)

  function Since(s: set<Time>, bound: Time): set<Time> {
    set x | x in s && x > bound
  }

  /** The requests of `s` in the window of length `w` that ends at `t`. */
  function InWindow(s: set<Time>, t: Time, w: Time): set<Time> {
    set x | x in s && t - w < x <= t
  }

  function Live(l: Limiter, now: Time): set<Time> {
    if l.expireAt.Some? && l.expireAt.value <= now then {} else l.entries
  }

  function Kept(l: Limiter, tier: Tier, now: Time): set<Time> {
    Since(Live(l, now), now - tier.window)
  }

  predicate Allows(l: Limiter, tier: Tier, now: Time) {
    |Kept(l, tier, now)| < tier.limit
  }

  /** The pipeline of one check, with its verdict. */
  function Admitted(l: Limiter, tier: Tier, now: Time): Limiter {
    var ok := Allows(l, tier, now);
    Limiter(Kept(l, tier, now) + {now}, Some(now + tier.window + SECOND),
            if ok then l.allowed + {now} else l.allowed,
            if ok then l.undo else l.undo + {now}, now)
  }

  /** The separate removal that follows a rejection. */
  function Undone(l: Limiter, x: Time): Limiter {
    if x in l.undo then l.(entries := l.entries - {x}, undo := l.undo - {x}) else l
  }

  datatype Action = Check(now: Time) | Undo(x: Time)

  predicate Legal(l: Limiter, a: Action) {
    a.Check? ==> a.now > l.clock
  }

  function Next(l: Limiter, tier: Tier, a: Action): Limiter {
    match a
    case Check(now) => Admitted(l, tier, now)
    case Undo(x) => Undone(l, x)
  }

  function Run(l: Limiter, tier: Tier, actions: seq<Action>): Limiter
    decreases |actions|
  {
    if actions == [] then l else Run(Next(l, tier, actions[0]), tier, actions[1..])
  }

  predicate LegalRun(l: Limiter, tier: Tier, actions: seq<Action>)
    decreases |actions|
  {
    actions == [] || (Legal(l, actions[0]) && LegalRun(Next(l, tier, actions[0]), tier, actions[1..]))
  }

  // ---------------------------------------------------------------- invariant

  predicate Recorded(l: Limiter, tier: Tier) {
    && l.allowed !! l.undo
    && l.entries <= l.allowed + l.undo
    && (forall x | x in l.allowed + l.undo :: x <= l.clock)
    && (forall x | x in l.allowed + l.undo && x > l.clock - tier.window :: x in l.entries)
    && (l.expireAt.Some? ==> l.expireAt.value == l.clock + tier.window + SECOND)
  }

  ghost predicate Bounded(l: Limiter, tier: Tier) {
    forall t :: |InWindow(l.allowed, t, tier.window)| <= tier.limit
  }

  lemma SubsetSize(a: set<Time>, b: set<Time>)
    requires a <= b
    ensures |a| <= |b|
  {
    assert b == a + (b - a);
  }

  /** The set keeps, of every request not yet undone, exactly the recent ones; expiry of the key loses nothing. */
  lemma KeptIsRecent(l: Limiter, tier: Tier, now: Time)
    requires ValidTier(tier) && Recorded(l, tier) && now > l.clock
    ensures Kept(l, tier, now) == InWindow(l.allowed + l.undo, now, tier.window)
  {
  }

  lemma CheckKeepsRecorded(l: Limiter, tier: Tier, now: Time)
    requires ValidTier(tier) && Recorded(l, tier) && now > l.clock
    ensures Recorded(Admitted(l, tier, now), tier)
  {
    KeptIsRecent(l, tier, now);
    var l' := Admitted(l, tier, now);
    assert now !in l.allowed + l.undo;
    assert l'.allowed + l'.undo == l.allowed + l.undo + {now};
  }

  lemma CheckKeepsWindow(l: Limiter, tier: Tier, now: Time, t: Time)
    requires ValidTier(tier) && Recorded(l, tier) && now > l.clock
    requires |InWindow(l.allowed, t, tier.window)| <= tier.limit
    ensures |InWindow(Admitted(l, tier, now).allowed, t, tier.window)| <= tier.limit
  {
    var l' := Admitted(l, tier, now);
    if Allows(l, tier, now) && t >= now {
      KeptIsRecent(l, tier, now);
      SubsetSize(InWindow(l'.allowed, t, tier.window), Kept(l, tier, now) + {now});
    } else {
      assert InWindow(l'.allowed, t, tier.window) == InWindow(l.allowed, t, tier.window);
    }
  }

  lemma CheckKeepsBound(l: Limiter, tier: Tier, now: Time)
    requires ValidTier(tier) && Recorded(l, tier) && Bounded(l, tier) && now > l.clock
    ensures Recorded(Admitted(l, tier, now), tier) && Bounded(Admitted(l, tier, now), tier)
  {
    CheckKeepsRecorded(l, tier, now);
    forall t ensures |InWindow(Admitted(l, tier, now).allowed, t, tier.window)| <= tier.limit {
      CheckKeepsWindow(l, tier, now, t);
    }
  }

  lemma StepKeepsBound(l: Limiter, tier: Tier, a: Action)
    requires ValidTier(tier) && Recorded(l, tier) && Bounded(l, tier) && Legal(l, a)
    ensures Recorded(Next(l, tier, a), tier) && Bounded(Next(l, tier, a), tier)
  {
    match a
    case Check(now) => CheckKeepsBound(l, tier, now);
    case Undo(x) =>
  }

  lemma {:induction false} RunKeepsBound(l: Limiter, tier: Tier, actions: seq<Action>)
    requires ValidTier(tier) && Recorded(l, tier) && Bounded(l, tier) && LegalRun(l, tier, actions)
    ensures Recorded(Run(l, tier, actions), tier) && Bounded(Run(l, tier, actions), tier)
    decreases |actions|
  {
    if actions != [] {
      StepKeepsBound(l, tier, actions[0]);
      RunKeepsBound(Next(l, tier, actions[0]), tier, actions[1..]);
    }
  }

  /** Whatever the requests and however late the removals: no window ever holds more than `limit` allowed requests. */
  lemma NoWindowIsOverfull(tier: Tier, actions: seq<Action>, t: Time)
    requires ValidTier(tier) && LegalRun(IDLE, tier, actions)
    ensures |InWindow(Run(IDLE, tier, actions).allowed, t, tier.window)| <= tier.limit
  {
    forall u ensures |InWindow(IDLE.allowed, u, tier.window)| <= tier.limit {
      assert InWindow(IDLE.allowed, u, tier.window) == {};
    }
    RunKeepsBound(IDLE, tier, actions);
  }

  /** Which requests are rejected, exactly: allowed ones and rejected ones still to be removed both count. */
  lemma RejectedIff(l: Limiter, tier: Tier, now: Time)
    requires ValidTier(tier) && Recorded(l, tier) && now > l.clock
    ensures !Allows(l, tier, now) <==>
              |InWindow(l.allowed, now, tier.window)| + |InWindow(l.undo, now, tier.window)| >= tier.limit
  {
    var a, u := InWindow(l.allowed, now, tier.window), InWindow(l.undo, now, tier.window);
    KeptIsRecent(l, tier, now);
    assert Kept(l, tier, now) == a + u && a !! u;
    assert |a + u| == |a| + |u|;
  }

  /** Run one request at a time, a request is rejected exactly when its window is full. */
  lemma SequentiallyRejectedIffFull(l: Limiter, tier: Tier, now: Time)
    requires ValidTier(tier) && Recorded(l, tier) && Bounded(l, tier) && l.undo == {} && now > l.clock
    ensures !Allows(l, tier, now) <==> |InWindow(l.allowed, now, tier.window)| == tier.limit
  {
    RejectedIff(l, tier, now);
    assert InWindow(l.undo, now, tier.window) == {};
  }

  /** The published numbers of requests a minute. */
  function PerMinute(rate: RateTier): nat {
    if rate.Unauthenticated? then 10
    else if rate.TorUnauthenticated? then 30
    else if rate.Starter? then 100
    else if rate.Enterprise? then 1000
    else 300
  }

  /**
    What a client of each tier gets.  Over every trace, in any half-open minute no more requests than
    published are allowed; and one at a time, the next is rejected exactly when the last minute had so many.
   */
  lemma EachTierGetsItsRate(rate: RateTier, actions: seq<Action>, t: Time, now: Time)
    requires LegalRun(IDLE, TierFor(rate), actions)
    ensures var l := Run(IDLE, TierFor(rate), actions);
            && |InWindow(l.allowed, t, 60_000_000)| <= PerMinute(rate)
            && (l.undo == {} && now > l.clock ==>
                  (!Allows(l, TierFor(rate), now) <==> |InWindow(l.allowed, now, 60_000_000)| == PerMinute(rate)))
  {
    var l := Run(IDLE, TierFor(rate), actions);
    forall u ensures |InWindow(IDLE.allowed, u, 60_000_000)| <= PerMinute(rate) {
      assert InWindow(IDLE.allowed, u, 60_000_000) == {};
    }
    RunKeepsBound(IDLE, TierFor(rate), actions);
    if l.undo == {} && now > l.clock { SequentiallyRejectedIffFull(l, TierFor(rate), now); }
  }

  /** A removal that comes late can cost a request its place although no allowed request is in its window. */
  lemma LateRemovalRejectsNeedlessly()
    ensures var tier := Tier(5, 1);
            var l := Run(IDLE, tier, [Check(1), Check(4)]);
            LegalRun(IDLE, tier, [Check(1), Check(4)])
            && InWindow(l.allowed, 7, tier.window) == {} && !Allows(l, tier, 7) && Allows(Undone(l, 4), tier, 7)
  {
    var tier := Tier(5, 1);
    var l1 := Admitted(IDLE, tier, 1);
    assert Kept(IDLE, tier, 1) == {};
    assert l1 == Limiter({1}, Some(6 + SECOND), {1}, {}, 1);
    var l2 := Admitted(l1, tier, 4);
    assert Kept(l1, tier, 4) == {1};
    assert l2 == Limiter({1, 4}, Some(9 + SECOND), {1}, {4}, 4);
    assert [Check(1), Check(4)][1..] == [Check(4)] && [Check(4)][1..] == [];
    assert Run(l2, tier, []) == l2 && Run(l1, tier, [Check(4)]) == l2;
    assert Kept(l2, tier, 7) == {4};
    assert Kept(Undone(l2, 4), tier, 7) == {};
  }

  // ---------------------------------------------------------------- retry_after

  predicate IsLeast(x: Time, s: set<Time>) {
    x in s && forall y | y in s :: x <= y
  }

  lemma {:induction false} LeastExists(s: set<Time>, x: Time)
    requires x in s
    ensures exists m :: IsLeast(m, s)
    decreases |s|
  {
    var lower := set z | z in s && z < x;
    if y :| y in lower {
      SubsetSize(lower, s - {x});
      LeastExists(lower, y);
      var m :| IsLeast(m, lower);
      forall z | z in s ensures m <= z { assert z < x ==> z in lower; }
      assert IsLeast(m, s);
    } else {
      forall z | z in s ensures x <= z { assert z !in lower; }
      assert IsLeast(x, s);
    }
  }

  /**
    `retry_after` is exact: after a rejection, with no other traffic, a request made `retry_after`
    later or more is allowed and every earlier one is rejected again.
   */
  lemma RetryAfterIsExact(l: Limiter, tier: Tier, now: Time, oldest: Time, later: Time)
    requires ValidTier(tier) && Recorded(l, tier) && Bounded(l, tier) && l.undo == {} && now > l.clock
    requires !Allows(l, tier, now) && IsLeast(oldest, Admitted(l, tier, now).entries)
    requires later > now
    ensures var l' := Undone(Admitted(l, tier, now), now);
            Allows(l', tier, later) <==> later >= now + Max(0, oldest + tier.window - now)
  {
    var l' := Undone(Admitted(l, tier, now), now);
    var full := Kept(l, tier, now);
    KeptIsRecent(l, tier, now);
    SequentiallyRejectedIffFull(l, tier, now);
    assert InWindow(l.allowed + l.undo, now, tier.window) == InWindow(l.allowed, now, tier.window);
    assert |full| == tier.limit;
    assert now !in full;
    assert l'.entries == full;
    assert full != {};
    assert oldest in full by {
      var x :| x in full;
      assert x < now;
    }
    if later >= oldest + tier.window {
      SubsetSize(Kept(l', tier, later), full - {oldest});
    } else {
      assert Kept(l', tier, later) == full;
    }
  }

  // ---------------------------------------------------------------- the service

  datatype Verdict = Verdict(allowed: bool, remaining: int, resetAfter: Time, retryAfter: Option<Time>)

  class SlidingWindowRateLimiter {
    const tier: Tier
    const failOpen: bool
    var entries: set<Time>
    var expireAt: Option<Time>
    ghost var allowed: set<Time>
    ghost var undo: set<Time>
    ghost var clock: Time

    ghost function State(): Limiter
      reads this
    {
      Limiter(entries, expireAt, allowed, undo, clock)
    }

    ghost predicate Valid()
      reads this
    {
      ValidTier(tier) && Recorded(State(), tier) && Bounded(State(), tier)
    }

    constructor (tier: Tier, failOpen: bool)
      requires ValidTier(tier)
      ensures Valid() && State() == IDLE && this.tier == tier && this.failOpen == failOpen
    {
      this.tier, this.failOpen := tier, failOpen;
      entries, expireAt, allowed, undo, clock := {}, None, {}, {}, 0;
      new;
      forall u ensures |InWindow(allowed, u, tier.window)| <= tier.limit {
        assert InWindow(allowed, u, tier.window) == {};
      }
    }

    /** The pipelined commands: prune, count, add, set the expiry, read the oldest entry. */
    method Pipeline(now: Time) returns (count: nat, oldest: Time)
      requires Valid() && now > clock
      modifies this
      ensures State() == Admitted(old(State()), tier, now) && Valid()
      ensures count == |old(Kept(State(), tier, now))| && IsLeast(oldest, entries)
    {
      CheckKeepsBound(State(), tier, now);
      count := Prune(now);
      if count < tier.limit {
        allowed := allowed + {now};
      } else {
        undo := undo + {now};
      }
      entries := entries + {now};
      expireAt := Some(now + tier.window + SECOND);
      clock := now;
      LeastExists(entries, now);
      oldest :| IsLeast(oldest, entries);
    }

    /** ZREMRANGEBYSCORE and ZCARD, on a key that may have expired meanwhile. */
    method Prune(now: Time) returns (count: nat)
      modifies this`entries
      ensures entries == old(Kept(State(), tier, now)) && count == |entries|
    {
      if expireAt.Some? && expireAt.value <= now {
        entries := {};
      }
      entries := set x | x in entries && !(x <= now - tier.window);
      count := |entries|;
    }

    method RemoveEntry(x: Time)
      requires Valid() && x in undo
      modifies this
      ensures State() == Undone(old(State()), x) && Valid()
    {
      entries := entries - {x};
      undo := undo - {x};
    }

    /** One whole check; `reachable` says whether Redis answers. */
    method Check(now: Time, reachable: bool) returns (v: Verdict)
      requires Valid() && now > clock
      modifies this
      ensures Valid()
      ensures !reachable ==> State() == old(State())
      ensures !reachable ==> v.allowed == failOpen && v.remaining == (if failOpen then tier.limit else 0)
      ensures !reachable ==> v.resetAfter == tier.window && v.retryAfter == if failOpen then None else Some(tier.window)
      ensures reachable ==> v.allowed == old(Allows(State(), tier, now)) && undo == old(undo)
      ensures reachable ==> allowed == (if v.allowed then old(allowed) + {now} else old(allowed))
      ensures reachable ==>
                v.remaining == if v.allowed then tier.limit - |old(Kept(State(), tier, now))| - 1 else 0
      ensures reachable ==> v.remaining >= 0 && v.retryAfter == if v.allowed then None else Some(v.resetAfter)
      ensures reachable ==>
                exists oldest :: IsLeast(oldest, old(Admitted(State(), tier, now).entries))
                              && v.resetAfter == Max(0, oldest + tier.window - now)
    {
      if !reachable {
        return Verdict(failOpen, if failOpen then tier.limit else 0, tier.window,
                       if failOpen then None else Some(tier.window));
      }
      assert now !in undo;
      var count, oldest := Pipeline(now);
      var resetAfter := Max(0, oldest + tier.window - now);
      assert IsLeast(oldest, old(Admitted(State(), tier, now).entries));
      if count >= tier.limit {
        RemoveEntry(now);
        return Verdict(false, 0, resetAfter, Some(resetAfter));
      }
      return Verdict(true, tier.limit - count - 1, resetAfter, None);
    }
  }
}
