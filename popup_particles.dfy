/** The visibility flag of the popup particle burst. The mount effect
    schedules one timer that raises the flag after `triggerDelay`; a
    trigger raises it at once and schedules its own hide timer three
    seconds later. Timers are event methods, callable while pending: the
    pending mount timer is `mountDue`, the pending hide timers are
    `hidesDue`, each with the time it is due at. Time is the parameter
    `now`. */
module PopupParticles {
  import opened Optional

  /** The delay of the mount timer when the caller gives none. */
  const DefaultTriggerDelay: int := 1000
  /** Milliseconds a trigger's burst stays up before its hide timer fires. */
  const EffectDuration: int := 3000

  class Popup {
    var triggerDelay: int
    var showParticles: bool
    var mounted: bool
    var mountDue: Option<int>
    var hidesDue: seq<int>
    /** How many triggers ran, and how many of their hide timers fired. */
    ghost var triggers: nat
    ghost var hidesFired: nat

    /** Every trigger schedules exactly one hide timer, which is pending
        until it fires; a mount timer is pending only while mounted. */
    ghost predicate Valid()
      reads this
    {
      && |hidesDue| + hidesFired == triggers
      && (mountDue.Some? ==> mounted)
    }

    /** Before mount: the flag is down and no timer runs. */
    constructor (delay: Option<int>)
      ensures Valid()
      ensures triggerDelay == delay.GetOr(DefaultTriggerDelay)
      ensures delay.None? ==> triggerDelay == 1000
      ensures !showParticles && !mounted && mountDue == None && hidesDue == []
      ensures triggers == 0 && hidesFired == 0
    {
      triggerDelay := delay.GetOr(DefaultTriggerDelay);
      showParticles := false;
      mounted := false;
      mountDue := None;
      hidesDue := [];
      triggers := 0;
      hidesFired := 0;
    }

    /** The mount effect schedules the one mount timer. */
    method Mount(now: int)
      requires Valid()
      requires !mounted
      modifies this`mounted, this`mountDue
      ensures Valid()
      ensures mounted && mountDue == Some(now + triggerDelay)
    {
      mounted := true;
      mountDue := Some(now + triggerDelay);
    }

    /** The mount timer fires and raises the flag; it only ever fires while
        the component is mounted. */
    method MountTimerFires()
      requires Valid()
      requires mountDue.Some?
      modifies this`showParticles, this`mountDue
      ensures Valid()
      ensures mounted
      ensures showParticles && mountDue == None
    {
      showParticles := true;
      mountDue := None;
    }

    /** Unmounting cancels the mount timer; hide timers stay scheduled. */
    method Unmount()
      requires Valid()
      requires mounted
      modifies this`mounted, this`mountDue
      ensures Valid()
      ensures !mounted && mountDue == None
    {
      mounted := false;
      mountDue := None;
    }

    /** A new delay re-runs the mount effect: the pending mount timer, if
        any, is cancelled and one is scheduled with the new delay. The same
        delay changes nothing. */
    method ChangeTriggerDelay(delay: int, now: int)
      requires Valid()
      requires mounted
      modifies this`triggerDelay, this`mountDue
      ensures Valid()
      ensures triggerDelay == delay
      ensures delay != old(triggerDelay) ==> mountDue == Some(now + delay)
      ensures delay == old(triggerDelay) ==> mountDue == old(mountDue)
    {
      if delay != triggerDelay {
        triggerDelay := delay;
        mountDue := Some(now + delay);
      }
    }

    /** Raises the flag at once and schedules one more hide timer, due
        three seconds from now; earlier hide timers stay scheduled. */
    method TriggerParticles(now: int)
      requires Valid()
      modifies this`showParticles, this`hidesDue, this`triggers
      ensures Valid()
      ensures showParticles
      ensures hidesDue == old(hidesDue) + [now + EffectDuration]
      ensures triggers == old(triggers) + 1
    {
      showParticles := true;
      hidesDue := hidesDue + [now + EffectDuration];
      triggers := triggers + 1;
    }

    /** The hide timer at index `k` fires and lowers the flag, whether or
        not later triggers still have hide timers of their own pending. It
        belongs to a trigger that ran and whose hide had not fired yet: no
        hide fires without a trigger, and none fires twice. */
    method HideTimerFires(k: nat)
      requires Valid()
      requires k < |hidesDue|
      modifies this`showParticles, this`hidesDue, this`hidesFired
      ensures Valid()
      ensures !showParticles
      ensures hidesDue == old(hidesDue)[..k] + old(hidesDue)[k + 1..]
      ensures hidesFired == old(hidesFired) + 1
      ensures old(hidesFired) < old(triggers) && hidesFired <= triggers
    {
      showParticles := false;
      hidesDue := hidesDue[..k] + hidesDue[k + 1..];
      hidesFired := hidesFired + 1;
    }

    /** A caller overwrites the flag directly. */
    method SetShowParticles(v: bool)
      modifies this`showParticles
      ensures showParticles == v
    {
      showParticles := v;
    }
  }

  /** Two triggers two seconds apart: the first trigger's hide timer ends
      the display at three seconds, while the second trigger's own hide,
      due at five seconds, is still pending. */
  method OverlappingTriggers() returns (shownAt2000: bool, shownAt3000: bool, stillDue: seq<int>)
    ensures shownAt2000 && !shownAt3000 && stillDue == [5000]
  {
    var p := new Popup(None);
    p.Mount(0);
    p.TriggerParticles(0);
    p.TriggerParticles(2000);
    shownAt2000 := p.showParticles;
    p.HideTimerFires(0);
    shownAt3000 := p.showParticles;
    stillDue := p.hidesDue;
  }
}
