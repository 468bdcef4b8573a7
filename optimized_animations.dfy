/** The animation gate of one component: a count of the animations it has
    started and not ended, a limit of 3 lowered to 2 on a mobile device, the
    reduced-motion preference, and the duration/easing profile derived from
    that preference and the device class. The mount effect and the
    reduced-motion change event are methods that take the media values as
    parameters. */
module OptimizedAnimations {
  import opened Counters

  /** The limit before the mount effect runs, and on a desktop device. */
  const DesktopMaxAnimations: nat := 3
  /** The limit the mount effect sets on a mobile device. */
  const MobileMaxAnimations: nat := 2

  datatype Ease = Linear | EaseOut

  /** A transition profile: duration in seconds and easing curve. */
  datatype AnimationConfig = AnimationConfig(duration: real, ease: Ease)

  /** The profile for a reduced-motion preference and a device class. */
  function AnimationConfigFor(isReducedMotion: bool, isMobile: bool): (c: AnimationConfig)
    ensures c.duration == 0.0 <==> isReducedMotion
    ensures c.ease == Linear <==> isReducedMotion
    ensures !isReducedMotion ==> c.duration == (if isMobile then 0.3 else 0.5)
  {
    if isReducedMotion then AnimationConfig(0.0, Linear)
    else if isMobile then AnimationConfig(0.3, EaseOut)
    else AnimationConfig(0.5, EaseOut)
  }

  /** Reduced motion means no motion at all, on any device; otherwise every
      transition eases out, and a mobile one is shorter than a desktop one. */
  lemma AnimationConfigProperties()
    ensures forall m :: AnimationConfigFor(true, m).duration == 0.0
    ensures forall m :: AnimationConfigFor(true, m).ease == Linear
    ensures forall m :: AnimationConfigFor(false, m).duration > 0.0
    ensures forall m :: AnimationConfigFor(false, m).ease == EaseOut
    ensures AnimationConfigFor(false, true).duration < AnimationConfigFor(false, false).duration
  {
  }

  class AnimationGate {
    var isReducedMotion: bool
    var isMobile: bool
    var animationCount: nat
    var maxAnimations: nat

    /** The gate's invariant: the limit is one of the two limits, and the
        count never exceeds the larger of them. */
    ghost predicate Valid()
      reads this
    {
      && (maxAnimations == DesktopMaxAnimations || maxAnimations == MobileMaxAnimations)
      && animationCount <= DesktopMaxAnimations
    }

    /** The count is within the current limit. */
    ghost predicate WithinBudget()
      reads this
    {
      animationCount <= maxAnimations
    }

    constructor ()
      ensures Valid() && WithinBudget()
      ensures !isReducedMotion && !isMobile
      ensures animationCount == 0 && maxAnimations == DesktopMaxAnimations
    {
      isReducedMotion := false;
      isMobile := false;
      animationCount := 0;
      maxAnimations := DesktopMaxAnimations;
    }

    /** The mount effect: records the media values and lowers the limit on
        a mobile device. The budget still holds afterwards unless animations
        already running before mount exceed the mobile limit. */
    method Mount(reducedMotionMatches: bool, isMobileDevice: bool)
      requires Valid()
      modifies this
      ensures Valid()
      ensures isReducedMotion == reducedMotionMatches && isMobile == isMobileDevice
      ensures maxAnimations == if isMobileDevice then MobileMaxAnimations else old(maxAnimations)
      ensures animationCount == old(animationCount)
      ensures (old(WithinBudget()) && (!isMobileDevice || old(animationCount) <= MobileMaxAnimations))
        ==> WithinBudget()
    {
      isReducedMotion := reducedMotionMatches;
      isMobile := isMobileDevice;
      if isMobileDevice {
        maxAnimations := MobileMaxAnimations;
      }
    }

    /** The reduced-motion media query reports a change. */
    method ReducedMotionChanged(matches: bool)
      requires Valid()
      modifies this`isReducedMotion
      ensures Valid()
      ensures isReducedMotion == matches
    {
      isReducedMotion := matches;
    }

    /** A new animation may start: motion is not reduced and the limit is
        not reached. */
    predicate ShouldAnimate()
      reads this
      ensures ShouldAnimate() ==> animationCount + 1 <= maxAnimations
      ensures isReducedMotion ==> !ShouldAnimate()
    {
      !isReducedMotion && animationCount < maxAnimations
    }

    /** Starts an animation iff one may start, counting it; with reduced
        motion it never starts one. */
    method StartAnimation() returns (started: bool)
      requires Valid()
      modifies this`animationCount
      ensures Valid()
      ensures started <==> old(ShouldAnimate())
      ensures animationCount == if started then old(animationCount) + 1 else old(animationCount)
      ensures isReducedMotion ==> !started
      ensures started ==> animationCount <= maxAnimations
      ensures old(WithinBudget()) ==> WithinBudget()
    {
      if ShouldAnimate() {
        animationCount := animationCount + 1;
        return true;
      }
      return false;
    }

    /** Ends an animation; at zero the count stays at zero. */
    method EndAnimation()
      requires Valid()
      modifies this`animationCount
      ensures Valid()
      ensures animationCount == Release(old(animationCount))
      ensures old(WithinBudget()) ==> WithinBudget()
    {
      animationCount := Release(animationCount);
    }

    /** The profile for the gate's current preference and device class. */
    method GetAnimationConfig() returns (c: AnimationConfig)
      ensures c == AnimationConfigFor(isReducedMotion, isMobile)
      ensures isReducedMotion ==> c.duration == 0.0 && c.ease == Linear
    {
      c := AnimationConfigFor(isReducedMotion, isMobile);
    }
  }

  /** On a mobile device two animations start, the third is refused, and
      ending one lets the next start. */
  method MobileScenario() returns (first: bool, second: bool, third: bool, afterEnd: bool)
    ensures first && second && !third && afterEnd
  {
    var g := new AnimationGate();
    g.Mount(false, true);
    first := g.StartAnimation();
    second := g.StartAnimation();
    third := g.StartAnimation();
    g.EndAnimation();
    afterEnd := g.StartAnimation();
  }
}
