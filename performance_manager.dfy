/** The process-wide effects governor: a budget fixed by the device class,
    live counters for running animations and particles, a click cooldown with
    a one-second click-rate window, a particle cooldown, and a set of
    subscribers that are told about every change.

    Time is the parameter `now` (milliseconds, what `Date.now()` would have
    returned); the device class and the reduced-motion preference are
    constructor inputs; a subscriber is an id, and the callbacks it received
    are counted per id in `deliveries`. */
module PerformanceManager {
  import opened Counters
  import opened Sequences

  /** Identity of one subscribed callback. */
  type SubscriberId = nat

  /** Clicks accepted less than this many milliseconds before the latest
      one make up the click rate. */
  const ClickWindow: int := 1000

  /** Above this click rate the manager asks for fewer animations. */
  const MaxClicksPerSecond: nat := 5

  datatype PerformanceMetrics = PerformanceMetrics(
    activeAnimations: nat,
    activeParticles: nat,
    clicksPerSecond: nat,
    isMobile: bool,
    reducedMotion: bool)

  datatype PerformanceConfig = PerformanceConfig(
    maxAnimations: nat,
    maxParticles: nat,
    clickCooldown: nat,
    particleCooldown: nat)

  /** The budget the constructor derives from the device class alone. */
  function BudgetFor(isMobile: bool): (c: PerformanceConfig)
    ensures c.maxAnimations == (if isMobile then 2 else 3)
    ensures c.maxParticles == (if isMobile then 15 else 25)
    ensures c.clickCooldown == (if isMobile then 500 else 300)
    ensures c.particleCooldown == (if isMobile then 800 else 500)
    ensures c.clickCooldown < c.particleCooldown
  {
    if isMobile then PerformanceConfig(2, 15, 500, 800)
    else PerformanceConfig(3, 25, 300, 500)
  }

  /** A mobile device gets strictly smaller limits and strictly longer
      cooldowns than a desktop one, and every cooldown is at least 300 ms. */
  lemma MobileBudgetIsTighter()
    ensures BudgetFor(true).maxAnimations < BudgetFor(false).maxAnimations
    ensures BudgetFor(true).maxParticles < BudgetFor(false).maxParticles
    ensures BudgetFor(true).clickCooldown > BudgetFor(false).clickCooldown
    ensures BudgetFor(true).particleCooldown > BudgetFor(false).particleCooldown
    ensures forall m :: BudgetFor(m).clickCooldown >= 300
  {
  }

  // ---------------------------------------------------------------------
  // The click-rate window

  /** The timestamps that lie within the window ending at `now`, in their
      original order (`times.filter(t => now - t < 1000)`). */
  function Recent(times: seq<int>, now: int): (r: seq<int>)
    ensures |r| <= |times|
    ensures forall t :: t in r <==> t in times && now - t < ClickWindow
    ensures forall t :: multiset(r)[t] == if now - t < ClickWindow then multiset(times)[t] else 0
    ensures Subsequence(r, times)
  {
    assert times != [] ==> times == [times[0]] + times[1..];
    if times == [] then []
    else if now - times[0] < ClickWindow then [times[0]] + Recent(times[1..], now)
    else Recent(times[1..], now)
  }

  /** Filtering distributes over concatenation. */
  lemma {:induction false} RecentAppend(a: seq<int>, b: seq<int>, now: int)
    ensures Recent(a + b, now) == Recent(a, now) + Recent(b, now)
  {
    if a != [] {
      assert (a + b)[1..] == a[1..] + b;
      RecentAppend(a[1..], b, now);
    } else {
      assert a + b == b;
    }
  }

  /** Filtering with an earlier window end first and then with a later one
      is the same as filtering with the later one alone: whatever the later
      window keeps, the earlier one kept too. */
  lemma {:induction false} RecentLater(a: seq<int>, earlier: int, later: int)
    requires earlier <= later
    ensures Recent(Recent(a, earlier), later) == Recent(a, later)
  {
    if a != [] {
      RecentLater(a[1..], earlier, later);
    }
  }

  /** Consecutive timestamps at least `gap` apart. */
  ghost predicate Spaced(s: seq<int>, gap: nat)
  {
    forall i :: 0 < i < |s| ==> s[i - 1] + gap <= s[i]
  }

  /** Accepting a click at `now`, a cooldown after the last accepted one,
      keeps the accepted clicks spaced, and pushing it onto the old window
      and filtering gives the window of all accepted clicks ending at
      `now`. */
  lemma AcceptClick(accepted: seq<int>, last: int, now: int, gap: nat)
    requires Spaced(accepted, gap)
    requires last == (if accepted == [] then 0 else accepted[|accepted| - 1])
    requires now - last >= gap
    ensures Spaced(accepted + [now], gap)
    ensures Recent(Recent(accepted, last) + [now], now) == Recent(accepted + [now], now)
  {
    RecentAppend(Recent(accepted, last), [now], now);
    RecentAppend(accepted, [now], now);
    RecentLater(accepted, last, now);
  }

  /** In a spaced sequence, timestamps `j - i` positions apart are at least
      `(j - i) * gap` apart. */
  lemma {:induction false} SpacedSpread(s: seq<int>, gap: nat, i: nat, j: nat)
    requires Spaced(s, gap)
    requires i <= j < |s|
    ensures s[i] + (j - i) * gap <= s[j]
    decreases j - i
  {
    if i < j {
      SpacedSpread(s, gap, i, j - 1);
      assert (j - i) * gap == (j - 1 - i) * gap + gap;
    }
  }

  /** Filtering a spaced sequence leaves it spaced. */
  lemma {:induction false} RecentSpaced(s: seq<int>, gap: nat, now: int)
    requires Spaced(s, gap)
    ensures Spaced(Recent(s, now), gap)
  {
    if s != [] {
      var rest := s[1..];
      assert Spaced(rest, gap);
      RecentSpaced(rest, gap, now);
      var r := Recent(rest, now);
      if now - s[0] < ClickWindow && r != [] {
        assert r[0] in rest;
        var k :| 0 <= k < |rest| && rest[k] == r[0];
        SpacedSpread(s, gap, 1, k + 1);
        assert s[0] + gap <= r[0];
        assert Spaced([s[0]] + r, gap);
      }
    }
  }

  /** A non-empty spaced sequence that fits in one click window, and whose
      gap is at least `gap`, has at most `999 / gap + 1` elements; for the
      two budgets: at most 4 with a 300 ms cooldown, at most 2 with 500 ms. */
  lemma SpacedInWindow(s: seq<int>, gap: nat)
    requires Spaced(s, gap) && s != []
    requires s[|s| - 1] - s[0] < ClickWindow
    ensures gap >= 300 ==> |s| <= 4
    ensures gap >= 500 ==> |s| <= 2
  {
    SpacedSpread(s, gap, 0, |s| - 1);
  }

  // ---------------------------------------------------------------------
  // Subscribers

  /** How many notifications subscriber `id` has received. */
  function Received(deliveries: map<SubscriberId, nat>, id: SubscriberId): nat
  {
    if id in deliveries then deliveries[id] else 0
  }

  /** One synchronous fan-out: every current subscriber is called exactly
      once, and nobody else is called. */
  function Deliver(deliveries: map<SubscriberId, nat>, subscribers: set<SubscriberId>)
    : (r: map<SubscriberId, nat>)
    ensures forall id :: id in subscribers ==> Received(r, id) == Received(deliveries, id) + 1
    ensures forall id :: id !in subscribers ==> Received(r, id) == Received(deliveries, id)
  {
    map id | id in deliveries.Keys + subscribers ::
      Received(deliveries, id) + (if id in subscribers then 1 else 0)
  }

  // ---------------------------------------------------------------------
  // The manager

  class Manager {
    var metrics: PerformanceMetrics
    const config: PerformanceConfig
    var clickTimes: seq<int>
    var lastParticleTime: int
    var lastClickTime: int
    var subscribers: set<SubscriberId>
    var deliveries: map<SubscriberId, nat>
    /** Every click the manager accepted, oldest first. */
    ghost var accepted: seq<int>

    /** The manager's invariant: the budget is the one of its device class,
        accepted clicks are at least a cooldown apart, the last accepted
        click is `lastClickTime`, and the click-rate window holds exactly
        the accepted clicks of the second that ends at the last one. */
    ghost predicate Valid()
      reads this
    {
      && config == BudgetFor(metrics.isMobile)
      && Spaced(accepted, config.clickCooldown)
      && lastClickTime == (if accepted == [] then 0 else accepted[|accepted| - 1])
      && clickTimes == Recent(accepted, lastClickTime)
      && metrics.clicksPerSecond == |clickTimes|
    }

    constructor (isMobile: bool, reducedMotion: bool)
      ensures Valid()
      ensures metrics == PerformanceMetrics(0, 0, 0, isMobile, reducedMotion)
      ensures config == BudgetFor(isMobile)
      ensures clickTimes == [] && lastParticleTime == 0 && lastClickTime == 0
      ensures subscribers == {} && deliveries == map[]
    {
      metrics := PerformanceMetrics(0, 0, 0, isMobile, reducedMotion);
      config := BudgetFor(isMobile);
      clickTimes := [];
      lastParticleTime := 0;
      lastClickTime := 0;
      subscribers := {};
      deliveries := map[];
      accepted := [];
    }

    /** Adds a callback; the returned closure of the source is `Unsubscribe`. */
    method Subscribe(id: SubscriberId)
      requires Valid()
      modifies this
      ensures Valid()
      ensures subscribers == old(subscribers) + {id}
      ensures metrics == old(metrics) && clickTimes == old(clickTimes)
      ensures lastParticleTime == old(lastParticleTime) && lastClickTime == old(lastClickTime)
      ensures deliveries == old(deliveries) && accepted == old(accepted)
    {
      subscribers := subscribers + {id};
    }

    /** Removes a callback; from now on no notification reaches it. */
    method Unsubscribe(id: SubscriberId)
      requires Valid()
      modifies this
      ensures Valid()
      ensures subscribers == old(subscribers) - {id}
      ensures id !in subscribers
      ensures metrics == old(metrics) && clickTimes == old(clickTimes)
      ensures lastParticleTime == old(lastParticleTime) && lastClickTime == old(lastClickTime)
      ensures deliveries == old(deliveries) && accepted == old(accepted)
    {
      subscribers := subscribers - {id};
    }

    method NotifySubscribers()
      modifies this`deliveries
      ensures deliveries == Deliver(old(deliveries), subscribers)
    {
      deliveries := Deliver(deliveries, subscribers);
    }

    /** Accepts a click iff a full cooldown has passed since the last
        accepted one; an accepted click enters the click-rate window and
        notifies every subscriber once. */
    method CanTriggerClick(now: int) returns (ok: bool)
      requires Valid()
      modifies this
      ensures Valid()
      ensures ok <==> now - old(lastClickTime) >= config.clickCooldown
      ensures !ok ==> unchanged(this)
      ensures ok ==> && lastClickTime == now
                     && accepted == old(accepted) + [now]
                     && clickTimes == Recent(old(clickTimes) + [now], now)
                     && metrics == old(metrics).(clicksPerSecond := |clickTimes|)
                     && deliveries == Deliver(old(deliveries), subscribers)
                     && subscribers == old(subscribers)
                     && lastParticleTime == old(lastParticleTime)
      ensures ok ==> now in clickTimes && forall t :: t in clickTimes ==> now - t < ClickWindow
    {
      if now - lastClickTime < config.clickCooldown {
        return false;
      }
      AcceptClick(accepted, lastClickTime, now, config.clickCooldown);
      clickTimes := clickTimes + [now];
      clickTimes := Recent(clickTimes, now);
      metrics := metrics.(clicksPerSecond := |clickTimes|);
      lastClickTime := now;
      accepted := accepted + [now];
      NotifySubscribers();
      return true;
    }

    /** Grants a particle effect iff the particle cooldown has passed, the
        particle budget is not used up and motion is not reduced; a grant
        only records its time: no counter moves and nobody is notified. */
    method CanTriggerParticles(now: int) returns (ok: bool)
      requires Valid()
      modifies this`lastParticleTime
      ensures Valid()
      ensures ok <==> && now - old(lastParticleTime) >= config.particleCooldown
                      && metrics.activeParticles < config.maxParticles
                      && !metrics.reducedMotion
      ensures lastParticleTime == if ok then now else old(lastParticleTime)
    {
      if now - lastParticleTime < config.particleCooldown {
        return false;
      }
      if metrics.activeParticles >= config.maxParticles {
        return false;
      }
      if metrics.reducedMotion {
        return false;
      }
      lastParticleTime := now;
      return true;
    }

    /** Adds one running particle effect, with no budget check. */
    method IncrementParticles()
      requires Valid()
      modifies this`metrics, this`deliveries
      ensures Valid()
      ensures metrics == old(metrics).(activeParticles := old(metrics.activeParticles) + 1)
      ensures deliveries == Deliver(old(deliveries), subscribers)
    {
      metrics := metrics.(activeParticles := metrics.activeParticles + 1);
      NotifySubscribers();
    }

    /** Removes one running particle effect; at zero it stays at zero. */
    method DecrementParticles()
      requires Valid()
      modifies this`metrics, this`deliveries
      ensures Valid()
      ensures metrics == old(metrics).(activeParticles := Release(old(metrics.activeParticles)))
      ensures deliveries == Deliver(old(deliveries), subscribers)
    {
      metrics := metrics.(activeParticles := Release(metrics.activeParticles));
      NotifySubscribers();
    }

    /** Adds one running animation, with no budget check. */
    method IncrementAnimations()
      requires Valid()
      modifies this`metrics, this`deliveries
      ensures Valid()
      ensures metrics == old(metrics).(activeAnimations := old(metrics.activeAnimations) + 1)
      ensures deliveries == Deliver(old(deliveries), subscribers)
    {
      metrics := metrics.(activeAnimations := metrics.activeAnimations + 1);
      NotifySubscribers();
    }

    /** Removes one running animation; at zero it stays at zero. */
    method DecrementAnimations()
      requires Valid()
      modifies this`metrics, this`deliveries
      ensures Valid()
      ensures metrics == old(metrics).(activeAnimations := Release(old(metrics.activeAnimations)))
      ensures deliveries == Deliver(old(deliveries), subscribers)
    {
      metrics := metrics.(activeAnimations := Release(metrics.activeAnimations));
      NotifySubscribers();
    }

    /** A copy of the live metrics. */
    method GetMetrics() returns (m: PerformanceMetrics)
      requires Valid()
      ensures m == metrics
      ensures m.clicksPerSecond <= MaxClicksPerSecond
    {
      ClickRateIsBounded();
      m := metrics;
    }

    /** A copy of the budget: the one of the device class. */
    method GetConfig() returns (c: PerformanceConfig)
      requires Valid()
      ensures c == config
      ensures c == BudgetFor(metrics.isMobile)
    {
      c := config;
    }

    /** The click-rate window never holds more than 4 clicks on a desktop
        budget or 2 on a mobile one, because accepted clicks are at least a
        cooldown apart. */
    lemma ClickRateIsBounded()
      requires Valid()
      ensures metrics.clicksPerSecond <= (if metrics.isMobile then 2 else 4)
      ensures metrics.clicksPerSecond <= MaxClicksPerSecond
    {
      var s := clickTimes;
      RecentSpaced(accepted, config.clickCooldown, lastClickTime);
      if s != [] {
        assert s[0] in accepted;
        assert s[|s| - 1] in accepted;
        var i :| 0 <= i < |accepted| && accepted[i] == s[|s| - 1];
        SpacedSpread(accepted, config.clickCooldown, i, |accepted| - 1);
        SpacedInWindow(s, config.clickCooldown);
      }
    }

    /** Whether callers should hold animations back: when motion is reduced,
        when the animation budget is used up, or when clicks come faster
        than five per second. The last reason can never hold (see
        `ClickRateIsBounded`), so the answer depends on the first two alone. */
    method ShouldReduceAnimations() returns (r: bool)
      requires Valid()
      ensures r <==> metrics.reducedMotion
                     || metrics.activeAnimations >= config.maxAnimations
                     || metrics.clicksPerSecond > MaxClicksPerSecond
      ensures r <==> metrics.reducedMotion || metrics.activeAnimations >= config.maxAnimations
    {
      ClickRateIsBounded();
      r := metrics.reducedMotion
        || metrics.activeAnimations >= config.maxAnimations
        || metrics.clicksPerSecond > MaxClicksPerSecond;
    }
  }

  /** Any two clicks the manager accepted, in the order it accepted them,
      lie at least one cooldown apart. */
  lemma AcceptedClicksAreSpaced(m: Manager, i: nat, j: nat)
    requires m.Valid()
    requires i < j < |m.accepted|
    ensures m.accepted[j] - m.accepted[i] >= m.config.clickCooldown
  {
    SpacedSpread(m.accepted, m.config.clickCooldown, i, j);
    assert (j - i) * m.config.clickCooldown >= m.config.clickCooldown;
  }
}
