/** The two flags that sequence the welcome overlay and the page content:
    `showWelcome` puts the overlay on screen and `isWelcomeComplete` fades
    the content in. The persisted "seen" flag of the browser's storage is
    the field `hasSeenWelcome`, read by the mount effect and cleared by a
    reset; the overlay component, not this hook, sets it. The 100 ms show
    timer is the event method `ShowTimerFires`, callable while it is
    pending; `showTimerDue` holds the time it is due at. Time is the
    parameter `now`. */
module WelcomeOverlay {
  import opened Optional

  /** Milliseconds between mount and the overlay appearing, on a first
      visit. */
  const ShowDelay: nat := 100

  class Overlay {
    var showWelcome: bool
    var isWelcomeComplete: bool
    var hasSeenWelcome: bool
    var showTimerDue: Option<int>

    /** The show timer is only ever scheduled for a visitor without the
        seen flag, and nothing here sets that flag. */
    ghost predicate Valid()
      reads this
    {
      showTimerDue.Some? ==> !hasSeenWelcome
    }

    /** Exactly one of the overlay and the content is up. */
    predicate Exclusive()
      reads this
    {
      showWelcome != isWelcomeComplete
    }

    /** Before the mount effect: neither flag is set and no timer runs. */
    constructor (seenStored: bool)
      ensures Valid()
      ensures !showWelcome && !isWelcomeComplete && showTimerDue == None
      ensures hasSeenWelcome == seenStored
    {
      showWelcome := false;
      isWelcomeComplete := false;
      hasSeenWelcome := seenStored;
      showTimerDue := None;
    }

    /** The mount effect. A returning visitor gets the content at once and
        no timer; a first visit schedules the show timer and changes no
        flag. */
    method Mount(now: int)
      requires Valid()
      requires showTimerDue == None
      modifies this
      ensures Valid()
      ensures hasSeenWelcome == old(hasSeenWelcome) && showWelcome == old(showWelcome)
      ensures old(hasSeenWelcome) ==> isWelcomeComplete && showTimerDue == None
      ensures !old(hasSeenWelcome) ==> showTimerDue == Some(now + ShowDelay) && isWelcomeComplete == old(isWelcomeComplete)
    {
      if !hasSeenWelcome {
        showTimerDue := Some(now + ShowDelay);
      } else {
        isWelcomeComplete := true;
      }
    }

    /** The show timer fires: the overlay goes up and the content flag is
        left alone. The two flags stay exclusive exactly when the welcome
        had not already been completed before the timer fired. The timer
        only ever shows the overlay to a visitor without the seen flag. */
    method ShowTimerFires()
      requires Valid()
      requires showTimerDue.Some?
      modifies this
      ensures Valid()
      ensures showWelcome && showTimerDue == None
      ensures isWelcomeComplete == old(isWelcomeComplete) && hasSeenWelcome == old(hasSeenWelcome)
      ensures Exclusive() <==> !old(isWelcomeComplete)
      ensures !hasSeenWelcome
    {
      showWelcome := true;
      showTimerDue := None;
    }

    /** Unmounting cancels a pending show timer. */
    method Unmount()
      requires Valid()
      modifies this`showTimerDue
      ensures Valid()
      ensures showTimerDue == None
    {
      showTimerDue := None;
    }

    /** The overlay reports completion: it goes down and the content comes
        in. */
    method HandleWelcomeComplete()
      requires Valid()
      modifies this`showWelcome, this`isWelcomeComplete
      ensures Valid()
      ensures !showWelcome && isWelcomeComplete
      ensures Exclusive()
    {
      showWelcome := false;
      isWelcomeComplete := true;
    }

    /** Forgets the visit: the seen flag is cleared, the overlay goes up
        and the content goes out. */
    method ResetWelcome()
      requires Valid()
      modifies this`showWelcome, this`isWelcomeComplete, this`hasSeenWelcome
      ensures Valid()
      ensures !hasSeenWelcome && showWelcome && !isWelcomeComplete
      ensures Exclusive()
    {
      hasSeenWelcome := false;
      showWelcome := true;
      isWelcomeComplete := false;
    }
  }

  /** A returning visitor sees the content at once, no overlay. */
  method ReturningVisit() returns (showWelcome: bool, isWelcomeComplete: bool, timerPending: bool)
    ensures !showWelcome && isWelcomeComplete && !timerPending
  {
    var o := new Overlay(true);
    o.Mount(0);
    return o.showWelcome, o.isWelcomeComplete, o.showTimerDue.Some?;
  }

  /** A first visit: nothing is shown until the show timer fires, then the
      overlay is up and the content is out until the overlay completes. */
  method FirstVisit() returns (beforeTimer: bool, overlayUp: bool, contentIn: bool)
    ensures !beforeTimer && overlayUp && contentIn
  {
    var o := new Overlay(false);
    o.Mount(0);
    beforeTimer := o.showWelcome || o.isWelcomeComplete;
    o.ShowTimerFires();
    overlayUp := o.showWelcome && !o.isWelcomeComplete;
    o.HandleWelcomeComplete();
    contentIn := o.isWelcomeComplete && !o.showWelcome;
  }

  /** Completing before the show timer fires leaves both flags set: the
      overlay comes back up over content that has already faded in. */
  method CompleteBeforeTimer() returns (showWelcome: bool, isWelcomeComplete: bool)
    ensures showWelcome && isWelcomeComplete
  {
    var o := new Overlay(false);
    o.Mount(0);
    o.HandleWelcomeComplete();
    o.ShowTimerFires();
    return o.showWelcome, o.isWelcomeComplete;
  }
}
