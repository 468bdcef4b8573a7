/** The click gate of one clickable element: a short throttle after each
    accepted click, a cooldown since the last accepted click, and a cap on
    the animations that accepted clicks started and that have not yet run
    out. Each accepted click schedules two timers, one that lifts the
    throttle and one that ends the click's animation after a second; here
    they are the event methods `ThrottleExpire` and `AnimationExpire`, and
    the timers still pending are kept with the time each is due at in
    `throttleDue` and `releasesDue`. Time is the parameter `now`. The callback a click or
    hover runs is reported as the boolean result `ran`. */
module InteractionLimiter {
  import opened Optional
  import opened Counters

  /** Milliseconds after an accepted click at which its animation ends. */
  const AnimationLifetime: int := 1000

  /** The options a caller may pass; an absent one takes its default. */
  datatype LimiterOptions = LimiterOptions(
    clickCooldown: Option<int>,
    maxActiveAnimations: Option<nat>,
    throttleDelay: Option<int>)

  datatype LimiterSettings = LimiterSettings(
    clickCooldown: int,
    maxActiveAnimations: nat,
    throttleDelay: int)

  /** Every option the caller gives wins; every missing one defaults to a
      300 ms cooldown, at most 2 running animations and a 100 ms throttle. */
  function WithDefaults(o: LimiterOptions): (s: LimiterSettings)
    ensures o.clickCooldown.Some? ==> s.clickCooldown == o.clickCooldown.value
    ensures o.maxActiveAnimations.Some? ==> s.maxActiveAnimations == o.maxActiveAnimations.value
    ensures o.throttleDelay.Some? ==> s.throttleDelay == o.throttleDelay.value
    ensures o.clickCooldown.None? ==> s.clickCooldown == 300
    ensures o.maxActiveAnimations.None? ==> s.maxActiveAnimations == 2
    ensures o.throttleDelay.None? ==> s.throttleDelay == 100
  {
    LimiterSettings(
      o.clickCooldown.GetOr(300),
      o.maxActiveAnimations.GetOr(2),
      o.throttleDelay.GetOr(100))
  }

  class Limiter {
    const settings: LimiterSettings
    var isThrottled: bool
    var activeAnimations: nat
    var lastClickTime: int
    /** When the scheduled throttle-release timer is due, if one is pending. */
    var throttleDue: Option<int>
    /** When each scheduled animation-end timer is due, in scheduling order. */
    var releasesDue: seq<int>

    /** The limiter's invariant: the element is throttled exactly while a
        release timer is pending, every running animation has its end timer
        pending, and the cap is never exceeded. */
    ghost predicate Valid()
      reads this
    {
      && isThrottled == throttleDue.Some?
      && activeAnimations == |releasesDue|
      && activeAnimations <= settings.maxActiveAnimations
    }

    constructor (options: LimiterOptions)
      ensures Valid()
      ensures settings == WithDefaults(options)
      ensures !isThrottled && activeAnimations == 0 && lastClickTime == 0
      ensures throttleDue == None && releasesDue == []
    {
      settings := WithDefaults(options);
      isThrottled := false;
      activeAnimations := 0;
      lastClickTime := 0;
      throttleDue := None;
      releasesDue := [];
    }

    /** A click may go through: not throttled, a full cooldown since the last
        accepted click, and room for one more animation. */
    predicate CanInteract(now: int)
      reads this
      ensures CanInteract(now) ==> activeAnimations + 1 <= settings.maxActiveAnimations
      ensures CanInteract(now) ==> !isThrottled && lastClickTime + settings.clickCooldown <= now
    {
      && !isThrottled
      && now - lastClickTime >= settings.clickCooldown
      && activeAnimations < settings.maxActiveAnimations
    }

    /** A refused click does nothing at all. An accepted click records its
        time, throttles the element, starts one animation, runs the callback
        once, replaces any pending throttle-release timer by one due a
        throttle delay from now, and schedules one more animation-end timer,
        due a second from now. */
    method HandleClick(now: int) returns (ran: bool)
      requires Valid()
      modifies this
      ensures Valid()
      ensures ran <==> old(CanInteract(now))
      ensures !ran ==> unchanged(this)
      ensures ran ==> && lastClickTime == now
                      && isThrottled
                      && throttleDue == Some(now + settings.throttleDelay)
                      && activeAnimations == old(activeAnimations) + 1
                      && releasesDue == old(releasesDue) + [now + AnimationLifetime]
      ensures ran ==> now - old(lastClickTime) >= settings.clickCooldown
      ensures activeAnimations <= settings.maxActiveAnimations
    {
      if !CanInteract(now) {
        return false;
      }
      lastClickTime := now;
      isThrottled := true;
      activeAnimations := activeAnimations + 1;
      ran := true;
      // the previous release timer, if any, is cancelled and replaced
      throttleDue := Some(now + settings.throttleDelay);
      releasesDue := releasesDue + [now + AnimationLifetime];
    }

    /** The throttle-release timer fires. */
    method ThrottleExpire()
      requires Valid()
      requires throttleDue.Some?
      modifies this
      ensures Valid()
      ensures !isThrottled && throttleDue == None
      ensures activeAnimations == old(activeAnimations)
      ensures lastClickTime == old(lastClickTime)
      ensures releasesDue == old(releasesDue)
    {
      isThrottled := false;
      throttleDue := None;
    }

    /** The earliest animation-end timer fires: one animation ends, clamped
        at zero. Since every running animation has its own pending timer,
        the clamp never has to act. */
    method AnimationExpire()
      requires Valid()
      requires releasesDue != []
      modifies this
      ensures Valid()
      ensures activeAnimations == Release(old(activeAnimations))
      ensures old(activeAnimations) > 0 && activeAnimations == old(activeAnimations) - 1
      ensures releasesDue == old(releasesDue)[1..]
      ensures isThrottled == old(isThrottled) && throttleDue == old(throttleDue)
      ensures lastClickTime == old(lastClickTime)
    {
      activeAnimations := Release(activeAnimations);
      releasesDue := releasesDue[1..];
    }

    /** A hover runs its callback only while fewer than half the allowed
        animations run; throttle and cooldown do not matter, and nothing
        changes. With the default cap of 2, that is: only when no animation
        runs. */
    method HandleHover() returns (ran: bool)
      ensures ran <==> 2 * activeAnimations < settings.maxActiveAnimations
      ensures settings.maxActiveAnimations == 2 ==> (ran <==> activeAnimations == 0)
    {
      // activeAnimations < maxActiveAnimations / 2, with real division
      ran := (activeAnimations as real) < (settings.maxActiveAnimations as real) / 2.0;
    }
  }
}
