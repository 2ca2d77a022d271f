/** The overlay component as an object: its state fields, updated in place by
    one method per event, each proved to take the step the machine takes. */
module Overlay {
  import opened OverlayState
  import opened OverlayView
  import opened OverlayMachine

  class SleepOverlay {
    const props: Props

    // component state
    var visible: bool
    var phase: Phase
    var wakeKey: int
    var labelGone: bool

    // the surroundings the component sees: whether it is still rendered, the
    // timers it scheduled that have not fired, and how often it called onDone
    var mounted: bool
    var pending: seq<Timer>
    var doneCalls: nat

    function State(): Snapshot
      reads this
    {
      Snapshot(mounted, visible, phase, wakeKey, labelGone, pending, doneCalls)
    }

    ghost predicate Valid()
      reads this
    {
      Inv(props, State())
    }

    /** First render, with `now` the clock reading that seeds the wake key;
        the mount effect schedules the zero-delay timer that shows the overlay. */
    constructor (props: Props, now: int)
      ensures Valid() && this.props == props
      ensures State() == Init(now)
    {
      this.props := props;
      visible, phase, wakeKey, labelGone := false, Sleep, now, false;
      mounted := true;
      pending := [Timer(MountTick, 0)];
      doneCalls := 0;
      InitSatisfiesInv(props, now);
    }

    /** The mount timer fires. */
    method MountTimerFires()
      requires Valid() && Count(pending, MountTick) > 0
      modifies this
      ensures Valid() && State() == Step(props, old(State()), TimerFires(MountTick))
      ensures visible && phase == old(phase) && labelGone == old(labelGone)
    {
      StepPreservesInv(props, State(), TimerFires(MountTick));
      pending := RemoveFirst(pending, MountTick);
      visible := true;
    }

    /** The button is clicked; `now` is the clock reading taken by the handler.
        The button only has a handler while asleep. */
    method Click(now: int) returns (accepted: bool)
      requires Valid()
      modifies this
      ensures Valid() && State() == Step(props, old(State()), Event.Click(now))
      ensures accepted <==> old(mounted) && old(phase) == Sleep
      ensures !accepted ==> State() == old(State())
    {
      StepPreservesInv(props, State(), Event.Click(now));
      accepted := false;
      if mounted && ClickHandlerAttached(phase) {
        accepted := StartWake(now);
      }
    }

    /** The click handler: ignores the call unless asleep, otherwise starts
        the wake and schedules the wake timer. */
    method StartWake(now: int) returns (accepted: bool)
      requires Valid()
      modifies this
      ensures Valid() && State() == AfterStartWake(props, old(State()), now)
      ensures accepted <==> old(phase) == Sleep
    {
      StartWakePreservesInv(props, State(), now);
      if phase != Sleep {
        return false;
      }
      if props.fadeWakeButtonOnClick {
        labelGone := true;
      }
      phase := Waking;
      wakeKey := now;
      pending := pending + [Timer(WakeEnd, WakeDelay(props))];
      accepted := true;
    }

    /** The wake timer fires: the fade-out starts (unless the component is
        gone) and the fade timer is scheduled. */
    method WakeTimerFires()
      requires Valid() && Count(pending, WakeEnd) > 0
      modifies this
      ensures Valid() && State() == Step(props, old(State()), TimerFires(WakeEnd))
      ensures Count(pending, FadeEnd) == 1 && Count(pending, WakeEnd) == 0
    {
      StepPreservesInv(props, State(), TimerFires(WakeEnd));
      pending := RemoveFirst(pending, WakeEnd);
      if mounted {
        phase := FadingOut;
      }
      pending := pending + [Timer(FadeEnd, props.fadeMs)];
    }

    /** The fade timer fires: `onDone` is called. */
    method FadeTimerFires()
      requires Valid() && Count(pending, FadeEnd) > 0
      modifies this
      ensures Valid() && State() == Step(props, old(State()), TimerFires(FadeEnd))
      ensures doneCalls == 1
    {
      StepPreservesInv(props, State(), TimerFires(FadeEnd));
      pending := RemoveFirst(pending, FadeEnd);
      doneCalls := doneCalls + 1;
    }

    /** The parent stops rendering the overlay: the mount effect's cleanup
        clears the mount timer; the other timers stay scheduled. */
    method Unmount()
      requires Valid()
      modifies this
      ensures Valid() && State() == Step(props, old(State()), Event.Unmount)
      ensures Count(pending, WakeEnd) == Count(old(pending), WakeEnd)
      ensures Count(pending, FadeEnd) == Count(old(pending), FadeEnd)
    {
      StepPreservesInv(props, State(), Event.Unmount);
      pending := RemoveAll(pending, MountTick);
      mounted := false;
    }
  }

  /** The overlay as the page configures it (a 2400 ms wake gif, a 700 ms
      fade, the label hidden on click), driven through mount, a click, a
      second click and both timers, using only the methods' contracts. */
  method PageIntro(now0: int, now1: int, now2: int) returns (doneCalls: nat, opacity: nat)
    ensures doneCalls == 1 && opacity == 0
  {
    var o := new SleepOverlay(Props(2400, 700, true), now0);
    o.MountTimerFires();
    assert OverlayOpacity(o.visible, o.phase) == 100;
    var first := o.Click(now1);
    var second := o.Click(now2);
    assert first && !second;
    assert o.labelGone && ShownImages(o.phase, o.wakeKey) == [WakeGif(now1)];
    o.WakeTimerFires();
    o.FadeTimerFires();
    doneCalls, opacity := o.doneCalls, OverlayOpacity(o.visible, o.phase);
  }
}
