/** The per-merchant limiter: a counter with a time to live that is set by a second command. */
module FixedWindow {
  import opened Common

  const SPAN: Time := 60 * SECOND

  /** One request: when, in which life of the key, and with which verdict. */
  datatype Hit = Hit(at: Time, life: nat, allowed: bool)

  /**
    The key, and what it stands for: `life` numbers the lives of the key, `birth` is when the
    current one began, `clock` is the time of the last command, `hits` all requests so far.
   */
  datatype Counter = Counter(
    alive: bool, count: nat, expireAt: Option<Time>, life: nat, birth: Time, clock: Time, hits: seq<Hit>)

  const IDLE := Counter(false, 0, None, 0, 0, 0, [])

  predicate Expired(c: Counter, now: Time) {
    !c.alive || (c.expireAt.Some? && c.expireAt.value <= now)
  }

  /** INCR and TTL, in one transaction, with the verdict on the request. */
  function Counted(c: Counter, limit: nat, now: Time): Counter {
    if Expired(c, now)
    then Counter(true, 1, None, c.life + 1, now, now, c.hits + [Hit(now, c.life + 1, 1 <= limit)])
    else c.(count := c.count + 1, clock := now, hits := c.hits + [Hit(now, c.life, c.count + 1 <= limit)])
  }

  /** The EXPIRE that follows when no time to live was set; it may come late, or never. */
  function Timed(c: Counter, now: Time): Counter {
    if Expired(c, now) then c.(clock := now) else c.(expireAt := Some(now + SPAN), clock := now)
  }

  datatype Action = Incr(now: Time) | Expire(now: Time)

  predicate Legal(c: Counter, a: Action) {
    a.now >= c.clock
  }

  function Next(c: Counter, limit: nat, a: Action): Counter {
    match a
    case Incr(now) => Counted(c, limit, now)
    case Expire(now) => Timed(c, now)
  }

  function Run(c: Counter, limit: nat, actions: seq<Action>): Counter
    decreases |actions|
  {
    if actions == [] then c else Run(Next(c, limit, actions[0]), limit, actions[1..])
  }

  predicate LegalRun(c: Counter, limit: nat, actions: seq<Action>)
    decreases |actions|
  {
    actions == [] || (Legal(c, actions[0]) && LegalRun(Next(c, limit, actions[0]), limit, actions[1..]))
  }

  function AllowedInLife(hits: seq<Hit>, life: nat): nat {
    if hits == [] then 0
    else
      var h := hits[|hits| - 1];
      AllowedInLife(hits[..|hits| - 1], life) + if h.life == life && h.allowed then 1 else 0
  }

  /** Allowed requests in the half-open span `[from, from + 60s)`. */
  function AllowedInSpan(hits: seq<Hit>, from: Time): nat {
    if hits == [] then 0
    else
      var h := hits[|hits| - 1];
      AllowedInSpan(hits[..|hits| - 1], from) + if from <= h.at < from + SPAN && h.allowed then 1 else 0
  }

  // ---------------------------------------------------------------- invariant

  predicate Paced(c: Counter) {
    && c.birth <= c.clock
    && (!c.alive ==> c.hits == [])
    && (c.expireAt.Some? ==> c.expireAt.value >= c.birth + SPAN)
    && (forall i | 0 <= i < |c.hits| :: c.hits[i].at <= c.clock && c.hits[i].life <= c.life)
    && (forall i | 0 <= i < |c.hits| :: c.hits[i].life < c.life ==> c.hits[i].at <= c.birth)
    && (forall i, j | 0 <= i < j < |c.hits| ::
          c.hits[i].life <= c.hits[j].life
          && (c.hits[i].life + 2 <= c.hits[j].life ==> c.hits[i].at + SPAN <= c.hits[j].at))
    && (forall i | 0 <= i < |c.hits| :: c.hits[i].life + 2 <= c.life ==> c.hits[i].at + SPAN <= c.birth)
  }

  ghost predicate Rationed(c: Counter, limit: nat) {
    && (forall k :: AllowedInLife(c.hits, k) <= limit)
    && AllowedInLife(c.hits, c.life) <= Min(c.count, limit)
    && (forall k :: k > c.life ==> AllowedInLife(c.hits, k) == 0)
  }

  /** Some allowed request of life `life` came no later than `at`. */
  predicate Rooted(hits: seq<Hit>, life: nat, at: Time) {
    exists i | 0 <= i < |hits| :: hits[i].life == life && hits[i].allowed && hits[i].at <= at
  }

  /** The life before the one of `h` began with an allowed request at least one span earlier. */
  predicate HitFounded(hits: seq<Hit>, h: Hit) {
    h.life >= 1 && (h.life > 1 ==> Rooted(hits, h.life - 1, h.at - SPAN))
  }

  predicate LifeFounded(hits: seq<Hit>, life: nat, birth: Time) {
    Rooted(hits, life, birth) && HitFounded(hits, Hit(birth, life, true))
  }

  ghost predicate Founded(c: Counter) {
    && (if c.alive then LifeFounded(c.hits, c.life, c.birth) else c.life == 0)
    && (forall j :: 0 <= j < |c.hits| ==> HitFounded(c.hits, c.hits[j]))
  }

  lemma RootedGrows(hits: seq<Hit>, h: Hit, life: nat, at: Time, later: Time)
    requires Rooted(hits, life, at) && at <= later
    ensures Rooted(hits + [h], life, later)
  {
    var i :| 0 <= i < |hits| && hits[i].life == life && hits[i].allowed && hits[i].at <= at;
    assert (hits + [h])[i] == hits[i];
  }

  lemma HitFoundedGrows(hits: seq<Hit>, h: Hit, g: Hit, later: Time)
    requires HitFounded(hits, g) && g.at <= later
    ensures HitFounded(hits + [h], g.(at := later))
  {
    if g.life > 1 { RootedGrows(hits, h, g.life - 1, g.at - SPAN, later - SPAN); }
  }

  lemma NewHitIsFounded(c: Counter, limit: nat, now: Time)
    requires Paced(c) && Founded(c) && now >= c.clock && limit >= 1
    ensures var c' := Counted(c, limit, now);
            LifeFounded(c'.hits, c'.life, c'.birth) && HitFounded(c'.hits, c'.hits[|c.hits|])
  {
    var c' := Counted(c, limit, now);
    var h := c'.hits[|c.hits|];
    if Expired(c, now) {
      if c.alive { RootedGrows(c.hits, h, c.life, c.birth, now - SPAN); }
    } else {
      RootedGrows(c.hits, h, c.life, c.birth, c.birth);
      HitFoundedGrows(c.hits, h, Hit(c.birth, c.life, true), c.birth);
      HitFoundedGrows(c.hits, h, Hit(c.birth, c.life, true), now);
    }
  }

  lemma CountKeepsFoundation(c: Counter, limit: nat, now: Time)
    requires Paced(c) && Founded(c) && now >= c.clock && limit >= 1
    ensures Founded(Counted(c, limit, now))
  {
    var c' := Counted(c, limit, now);
    NewHitIsFounded(c, limit, now);
    forall j | 0 <= j < |c'.hits| ensures HitFounded(c'.hits, c'.hits[j]) {
      if j < |c.hits| { HitFoundedGrows(c.hits, c'.hits[|c.hits|], c.hits[j], c.hits[j].at); }
    }
  }

  lemma AppendHit(hits: seq<Hit>, h: Hit, life: nat, from: Time)
    ensures AllowedInLife(hits + [h], life) == AllowedInLife(hits, life) + if h.life == life && h.allowed then 1 else 0
    ensures AllowedInSpan(hits + [h], from)
         == AllowedInSpan(hits, from) + if from <= h.at < from + SPAN && h.allowed then 1 else 0
  {
    assert (hits + [h])[..|hits|] == hits;
  }

  lemma CountKeepsPace(c: Counter, limit: nat, now: Time)
    requires Paced(c) && now >= c.clock
    ensures Paced(Counted(c, limit, now))
  {
  }

  lemma CountKeepsRation(c: Counter, limit: nat, now: Time)
    requires Rationed(c, limit)
    ensures Rationed(Counted(c, limit, now), limit)
  {
    var c' := Counted(c, limit, now);
    var h := c'.hits[|c.hits|];
    forall k: nat
      ensures AllowedInLife(c'.hits, k) == AllowedInLife(c.hits, k) + if h.life == k && h.allowed then 1 else 0
    {
      AppendHit(c.hits, h, k, 0);
    }
  }

  ghost predicate Inv(c: Counter, limit: nat) {
    Paced(c) && Rationed(c, limit) && Founded(c)
  }

  lemma CountKeepsInv(c: Counter, limit: nat, now: Time)
    requires limit >= 1 && Inv(c, limit) && now >= c.clock
    ensures Inv(Counted(c, limit, now), limit)
  {
    CountKeepsPace(c, limit, now);
    CountKeepsRation(c, limit, now);
    CountKeepsFoundation(c, limit, now);
  }

  lemma StepKeepsInv(c: Counter, limit: nat, a: Action)
    requires limit >= 1 && Inv(c, limit) && Legal(c, a)
    ensures Inv(Next(c, limit, a), limit)
  {
    match a
    case Incr(now) => CountKeepsInv(c, limit, now);
    case Expire(now) =>
      forall j | 0 <= j < |c.hits| ensures HitFounded(c.hits, c.hits[j]) {}
  }

  lemma {:induction false} RunKeepsInv(c: Counter, limit: nat, actions: seq<Action>)
    requires limit >= 1 && Inv(c, limit) && LegalRun(c, limit, actions)
    ensures Inv(Run(c, limit, actions), limit)
    decreases |actions|
  {
    if actions != [] {
      StepKeepsInv(c, limit, actions[0]);
      RunKeepsInv(Next(c, limit, actions[0]), limit, actions[1..]);
    }
  }

  // ---------------------------------------------------------------- who is allowed

  function InLife(hits: seq<Hit>, life: nat): nat {
    if hits == [] then 0 else InLife(hits[..|hits| - 1], life) + if hits[|hits| - 1].life == life then 1 else 0
  }

  lemma InLifeAppend(hits: seq<Hit>, h: Hit, life: nat)
    ensures InLife(hits + [h], life) == InLife(hits, life) + if h.life == life then 1 else 0
  {
    assert (hits + [h])[..|hits|] == hits;
  }

  /** Request `i` was allowed exactly if fewer than `limit` came before it in the same life of the key. */
  predicate AllowedByCount(hits: seq<Hit>, limit: nat, i: int)
    requires 0 <= i < |hits|
  {
    hits[i].allowed <==> InLife(hits[..i], hits[i].life) < limit
  }

  /** The counter counts the requests of the present life. */
  ghost predicate CountsHits(c: Counter, limit: nat) {
    && (c.alive ==> c.count == InLife(c.hits, c.life))
    && (forall k :: k > c.life ==> InLife(c.hits, k) == 0)
    && (forall i :: 0 <= i < |c.hits| ==> AllowedByCount(c.hits, limit, i))
  }

  lemma CountKeepsCount(c: Counter, limit: nat, now: Time)
    requires CountsHits(c, limit)
    ensures CountsHits(Counted(c, limit, now), limit)
  {
    var c' := Counted(c, limit, now);
    var h := c'.hits[|c.hits|];
    forall k: nat ensures InLife(c'.hits, k) == InLife(c.hits, k) + if h.life == k then 1 else 0 {
      InLifeAppend(c.hits, h, k);
    }
    forall i | 0 <= i < |c'.hits| ensures AllowedByCount(c'.hits, limit, i) {
      if i < |c.hits| {
        assert AllowedByCount(c.hits, limit, i);
        assert c'.hits[..i] == c.hits[..i];
      } else {
        assert c'.hits[..i] == c.hits;
      }
    }
  }

  lemma {:induction false} RunKeepsCount(c: Counter, limit: nat, actions: seq<Action>)
    requires CountsHits(c, limit)
    ensures CountsHits(Run(c, limit, actions), limit)
    decreases |actions|
  {
    if actions != [] {
      var c' := Next(c, limit, actions[0]);
      if actions[0].Incr? {
        CountKeepsCount(c, limit, actions[0].now);
      } else {
        forall i | 0 <= i < |c'.hits| ensures AllowedByCount(c'.hits, limit, i) {
          assert AllowedByCount(c.hits, limit, i);
        }
      }
      RunKeepsCount(c', limit, actions[1..]);
    }
  }

  /** Nobody is turned away early: over every trace a request is allowed exactly if fewer than `limit` precede it in
      the life of the key, and the counter that `remaining` is told from is the number of requests of that life. */
  lemma AllowedIffBelowLimit(limit: nat, actions: seq<Action>, i: nat)
    ensures var c := Run(IDLE, limit, actions);
            && (c.alive ==> c.count == InLife(c.hits, c.life))
            && (i < |c.hits| ==> (c.hits[i].allowed <==> InLife(c.hits[..i], c.hits[i].life) < limit))
  {
    RunKeepsCount(IDLE, limit, actions);
    var c := Run(IDLE, limit, actions);
    assert i < |c.hits| ==> AllowedByCount(c.hits, limit, i);
  }

  /** A key that was set to expire lives for sixty seconds from then; the first request after that begins a new life. */
  lemma KeyLivesSixtySeconds(c: Counter, limit: nat, now: Time, later: Time, x: Time)
    requires Expired(c, now) && now <= later <= x
    ensures var timed := Next(Next(c, limit, Incr(now)), limit, Expire(later));
            Next(timed, limit, Incr(x)).life == c.life + if x - later >= 60_000_000 then 2 else 1
  {
  }

  /** Whatever the trace, with the expiry late or lost: at most `limit` requests per life of the key. */
  lemma AtMostLimitPerLife(limit: nat, actions: seq<Action>, life: nat)
    requires limit >= 1 && LegalRun(IDLE, limit, actions)
    ensures AllowedInLife(Run(IDLE, limit, actions).hits, life) <= limit
  {
    RunKeepsInv(IDLE, limit, actions);
  }

  /** If every hit of the span is in life `k` or `k + 1`, those two cover it; a hit of life `k` outside is to spare. */
  lemma {:induction false} SpanByLives(hits: seq<Hit>, from: Time, k: nat, spare: int)
    requires forall i :: 0 <= i < |hits| && from <= hits[i].at < from + SPAN ==> k <= hits[i].life <= k + 1
    requires 0 <= spare < |hits| ==> hits[spare].life == k && hits[spare].allowed && hits[spare].at < from
    ensures AllowedInSpan(hits, from) + (if 0 <= spare < |hits| then 1 else 0)
         <= AllowedInLife(hits, k) + AllowedInLife(hits, k + 1)
    decreases |hits|
  {
    if hits != [] { SpanByLives(hits[..|hits| - 1], from, k, spare); }
  }

  /** If every hit of the span is in life `k`, that life covers it. */
  lemma {:induction false} SpanByOneLife(hits: seq<Hit>, from: Time, k: nat)
    requires forall i :: 0 <= i < |hits| && from <= hits[i].at < from + SPAN ==> hits[i].life == k
    ensures AllowedInSpan(hits, from) <= AllowedInLife(hits, k)
    decreases |hits|
  {
    if hits != [] { SpanByOneLife(hits[..|hits| - 1], from, k); }
  }

  lemma {:induction false} EmptySpan(hits: seq<Hit>, from: Time)
    requires forall i :: 0 <= i < |hits| ==> !(from <= hits[i].at < from + SPAN)
    ensures AllowedInSpan(hits, from) == 0
    decreases |hits|
  {
    if hits != [] { EmptySpan(hits[..|hits| - 1], from); }
  }

  /** The first hit of a span is in the earliest life the span meets. */
  lemma {:induction false} FirstHit(hits: seq<Hit>, from: Time, i: nat) returns (first: nat)
    requires i < |hits| && from <= hits[i].at < from + SPAN
    ensures first <= i && from <= hits[first].at < from + SPAN
    ensures forall j :: 0 <= j < first ==> !(from <= hits[j].at < from + SPAN)
    decreases i
  {
    if j :| 0 <= j < i && from <= hits[j].at < from + SPAN {
      first := FirstHit(hits, from, j);
    } else {
      first := i;
    }
  }

  lemma SpanOfTwoLives(c: Counter, limit: nat, from: Time, j: nat, k: nat)
    requires limit >= 1 && Rationed(c, limit)
    requires j < |c.hits| && from <= c.hits[j].at < from + SPAN && c.hits[j].life == k + 1 && k >= 1
    requires HitFounded(c.hits, c.hits[j])
    requires forall i :: 0 <= i < |c.hits| && from <= c.hits[i].at < from + SPAN ==> k <= c.hits[i].life <= k + 1
    ensures AllowedInSpan(c.hits, from) <= 2 * limit - 1
  {
    var spare :| 0 <= spare < |c.hits| && c.hits[spare].life == k && c.hits[spare].allowed
                 && c.hits[spare].at <= c.hits[j].at - SPAN;
    SpanByLives(c.hits, from, k, spare);
  }

  lemma SpanMeetsTwoLives(c: Counter, from: Time, first: nat)
    requires Paced(c) && first < |c.hits| && from <= c.hits[first].at < from + SPAN
    requires forall j :: 0 <= j < first ==> !(from <= c.hits[j].at < from + SPAN)
    ensures var k := c.hits[first].life;
            forall j :: 0 <= j < |c.hits| && from <= c.hits[j].at < from + SPAN ==> k <= c.hits[j].life <= k + 1
  {
    var k := c.hits[first].life;
    forall j | 0 <= j < |c.hits| && from <= c.hits[j].at < from + SPAN ensures k <= c.hits[j].life <= k + 1 {
      assert j == first || first < j;
    }
  }

  lemma SpanBound(c: Counter, limit: nat, from: Time)
    requires limit >= 1 && Inv(c, limit)
    ensures AllowedInSpan(c.hits, from) <= 2 * limit - 1
  {
    if i :| 0 <= i < |c.hits| && from <= c.hits[i].at < from + SPAN {
      var first := FirstHit(c.hits, from, i);
      var k := c.hits[first].life;
      SpanMeetsTwoLives(c, from, first);
      assert HitFounded(c.hits, c.hits[first]);
      if j :| 0 <= j < |c.hits| && from <= c.hits[j].at < from + SPAN && c.hits[j].life == k + 1 {
        assert HitFounded(c.hits, c.hits[j]);
        SpanOfTwoLives(c, limit, from, j, k);
      } else {
        SpanByOneLife(c.hits, from, k);
      }
    } else {
      EmptySpan(c.hits, from);
    }
  }

  /**
    And at most `2 * limit - 1` in any half-open span of sixty seconds: a span that meets two lives
    misses the request the first one began with.
   */
  lemma LessThanTwiceLimitPerSpan(limit: nat, actions: seq<Action>, from: Time)
    requires limit >= 1 && LegalRun(IDLE, limit, actions)
    ensures AllowedInSpan(Run(IDLE, limit, actions).hits, from) <= 2 * limit - 1
  {
    RunKeepsInv(IDLE, limit, actions);
    SpanBound(Run(IDLE, limit, actions), limit, from);
  }

  /** The bound is reached: with limit two, three requests pass within two microseconds. */
  lemma SpanBoundIsReached()
    ensures var trace := [Incr(0), Expire(0), Incr(SPAN - 1), Incr(SPAN), Incr(SPAN)];
            LegalRun(IDLE, 2, trace) && AllowedInSpan(Run(IDLE, 2, trace).hits, SPAN - 1) == 3
  {
    var t0 := [Incr(0), Expire(0), Incr(SPAN - 1), Incr(SPAN), Incr(SPAN)];
    var t1, t2, t3, t4 := [Expire(0), Incr(SPAN - 1), Incr(SPAN), Incr(SPAN)], [Incr(SPAN - 1), Incr(SPAN), Incr(SPAN)],
                          [Incr(SPAN), Incr(SPAN)], [Incr(SPAN)];
    assert t0[1..] == t1 && t1[1..] == t2 && t2[1..] == t3 && t3[1..] == t4 && t4[1..] == [];
    var c1 := Counted(IDLE, 2, 0);
    var c2 := Timed(c1, 0);
    var c3 := Counted(c2, 2, SPAN - 1);
    var c4 := Counted(c3, 2, SPAN);
    var c5 := Counted(c4, 2, SPAN);
    assert LegalRun(c5, 2, []) && Run(c5, 2, []) == c5;
    assert LegalRun(c4, 2, t4) && Run(c4, 2, t4) == c5;
    assert LegalRun(c3, 2, t3) && Run(c3, 2, t3) == c5;
    assert LegalRun(c2, 2, t2) && Run(c2, 2, t2) == c5;
    assert LegalRun(c1, 2, t1) && Run(c1, 2, t1) == c5;
    var h1, h2, h3 := Hit(0, 1, true), Hit(SPAN - 1, 1, true), Hit(SPAN, 2, true);
    assert c5.hits == [h1] + [h2] + [h3] + [h3];
    AppendHit([], h1, 0, SPAN - 1);
    AppendHit([h1], h2, 0, SPAN - 1);
    AppendHit([h1] + [h2], h3, 0, SPAN - 1);
    AppendHit([h1] + [h2] + [h3], h3, 0, SPAN - 1);
    assert [] + [h1] == [h1];
  }

  // ---------------------------------------------------------------- the service

  datatype MerchantTier = Write | Read | Other

  function LimitFor(tier: MerchantTier): (limit: nat)
    ensures limit >= 1
  {
    match tier
    case Write => 120
    case Read => 300
    case Other => 120
  }

  /** Times in whole seconds, as the response headers carry them. */
  datatype Verdict = Verdict(allowed: bool, remaining: nat, resetAfter: int, retryAfter: Option<int>)

  /** Merchants get exactly three hundred reads and a hundred and twenty writes per life of their key. */
  lemma MerchantsGetTheirRate(tier: MerchantTier, actions: seq<Action>, i: nat)
    ensures var hits := Run(IDLE, LimitFor(tier), actions).hits;
            i < |hits| ==> (hits[i].allowed <==> InLife(hits[..i], hits[i].life) < if tier.Read? then 300 else 120)
  {
    AllowedIffBelowLimit(LimitFor(tier), actions, i);
  }

  /** Redis reports a time to live rounded to the nearest second. */
  function TtlSeconds(remaining: Time): int {
    (remaining + SECOND / 2) / SECOND
  }

  function ResetAfter(c: Counter, now: Time): int {
    var ttl := if c.expireAt.Some? then TtlSeconds(c.expireAt.value - now) else 60;
    if ttl > 0 then ttl else 60
  }

  /** The answer to the request that was just counted. */
  function Judged(c: Counter, limit: nat, now: Time): Verdict {
    var allowed := c.count <= limit;
    Verdict(allowed, Max(0, limit - c.count), ResetAfter(c, now), if allowed then None else Some(ResetAfter(c, now)))
  }

  /**
    The answer to a request, after any trace: allowed if it is among the first `limit` of its life of the
    key, with what is left of the limit; told to retry only if it is not, and after a minute if the key
    has no time to live yet.
   */
  lemma AnswerIsHonest(limit: nat, actions: seq<Action>, now: Time)
    ensures var c := Counted(Run(IDLE, limit, actions), limit, now);
            var v, n := Judged(c, limit, now), InLife(c.hits, c.life);
            && (v.allowed <==> n <= limit) && v.allowed == c.hits[|c.hits| - 1].allowed
            && v.remaining == (if n < limit then limit - n else 0)
            && v.retryAfter == (if v.allowed then None else Some(v.resetAfter))
            && (c.expireAt.None? ==> v.resetAfter == 60)
  {
    RunKeepsCount(IDLE, limit, actions);
    CountKeepsCount(Run(IDLE, limit, actions), limit, now);
  }

  /**
    After a rejection with no other traffic: the next request is allowed exactly once the key has run
    out, and that is at most half a second after the announced `retry_after`, which Redis rounds.
   */
  lemma RetryIsAllowedIff(c: Counter, limit: nat, now: Time, later: Time)
    requires limit >= 1 && !Expired(c, now) && c.expireAt.Some? && now <= later
    requires !Judged(Counted(c, limit, now), limit, now).allowed
    ensures var rejected := Counted(c, limit, now);
            && Judged(rejected, limit, now).retryAfter.Some?
            && (Judged(Counted(rejected, limit, later), limit, later).allowed <==> later >= c.expireAt.value)
            && var retry := Judged(rejected, limit, now).retryAfter.value;
               && c.expireAt.value <= now + retry * 1_000_000 + 500_000
               && (now + retry * 1_000_000 <= c.expireAt.value + 500_000
                   || (retry == 60 && c.expireAt.value - now < 500_000))
  {
  }

  class MerchantRateLimiter {
    const limit: nat
    const failOpen: bool
    var alive: bool
    var count: nat
    var expireAt: Option<Time>
    ghost var life: nat
    ghost var birth: Time
    ghost var clock: Time
    ghost var hits: seq<Hit>

    ghost function State(): Counter
      reads this
    {
      Counter(alive, count, expireAt, life, birth, clock, hits)
    }

    constructor (limit: nat, failOpen: bool)
      ensures State() == IDLE && this.limit == limit && this.failOpen == failOpen
    {
      this.limit, this.failOpen := limit, failOpen;
      alive, count, expireAt, life, birth, clock, hits := false, 0, None, 0, 0, 0, [];
    }

    method IncrAndTtl(now: Time) returns (n: nat, timed: bool)
      modifies this
      ensures State() == Counted(old(State()), limit, now)
      ensures n == count && (timed <==> expireAt.Some?)
    {
      if !alive || (expireAt.Some? && expireAt.value <= now) {
        alive, count, expireAt := true, 0, None;
        life, birth := life + 1, now;
      }
      count := count + 1;
      hits := hits + [Hit(now, life, count <= limit)];
      clock := now;
      return count, expireAt.Some?;
    }

    method Expire(now: Time)
      modifies this
      ensures State() == Timed(old(State()), now)
    {
      if alive && (expireAt.None? || expireAt.value > now) {
        expireAt := Some(now + SPAN);
      }
      clock := now;
    }

    /** One whole check: INCR and TTL at `now`, and the EXPIRE at `later`, unless its answer is lost. */
    method Check(now: Time, later: Time, reachable: bool, expires: bool) returns (v: Verdict)
      modifies this
      ensures !reachable ==> State() == old(State())
      ensures !reachable || (Counted(old(State()), limit, now).expireAt.None? && !expires) ==>
                v == Verdict(failOpen, if failOpen then limit else 0, 60, if failOpen then None else Some(60))
      ensures reachable ==>
                var c := Counted(old(State()), limit, now);
                if c.expireAt.Some? then State() == c && v == Judged(c, limit, now)
                else if expires then State() == Timed(c, later) && v == Judged(c, limit, now)
                else State() == c
    {
      if !reachable {
        return Verdict(failOpen, if failOpen then limit else 0, 60, if failOpen then None else Some(60));
      }
      var n, timed := IncrAndTtl(now);
      var ttl := 60;
      if timed {
        ttl := TtlSeconds(expireAt.value - now);
      } else if expires {
        Expire(later);
      } else {
        return Verdict(failOpen, if failOpen then limit else 0, 60, if failOpen then None else Some(60));
      }
      var remaining := Max(0, limit - n);
      var allowed := n <= limit;
      var resetAfter := if ttl > 0 then ttl else 60;
      return Verdict(allowed, remaining, resetAfter, if allowed then None else Some(resetAfter));
    }
  }
}
