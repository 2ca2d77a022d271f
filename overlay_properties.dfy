/** What the overlay guarantees: the effect of each event, and facts about
    every run of events from the first render. */
module OverlayProperties {
  import opened OverlayState
  import opened OverlayView
  import opened OverlayMachine

  // ---- one event at a time ----

  /** The mount timer only makes the overlay visible. */
  lemma MountTimerOnlyShows(p: Props, s: Snapshot)
    requires Inv(p, s) && Count(s.pending, MountTick) > 0
    ensures Step(p, s, TimerFires(MountTick))
         == s.(visible := true, pending := RemoveFirst(s.pending, MountTick))
    ensures Count(Step(p, s, TimerFires(MountTick)).pending, MountTick) == 0
  {
  }

  /** A click while not asleep, or after teardown, changes nothing and
      schedules nothing; so does `startWake` itself whenever not asleep. */
  lemma ClickIgnoredUnlessAsleep(p: Props, s: Snapshot, now: int)
    requires s.phase != Sleep || !s.mounted
    ensures Step(p, s, Click(now)) == s
    ensures s.phase != Sleep ==> AfterStartWake(p, s, now) == s
  {
  }

  /** An accepted click enters the waking phase, takes the new key, hides the
      label exactly when the prop asks for it, schedules one wake timer with a
      non-negative delay, and leaves everything else alone. */
  lemma AcceptedClick(p: Props, s: Snapshot, now: int)
    requires Inv(p, s) && s.mounted && s.phase == Sleep
    ensures var r := Step(p, s, Click(now));
      && r.phase == Waking
      && r.wakeKey == now
      && (r.labelGone <==> p.fadeWakeButtonOnClick)
      && r.visible == s.visible && r.mounted == s.mounted && r.doneCalls == s.doneCalls
      && r.pending == s.pending + [Timer(WakeEnd, WakeDelay(p))]
      && Count(r.pending, WakeEnd) == 1
      && WakeDelay(p) >= 0
  {
  }

  /** When the wake timer fires on a mounted overlay the fade-out starts and
      exactly one fade timer, of `fadeMs`, is scheduled; nothing else changes. */
  lemma WakeTimerStartsFade(p: Props, s: Snapshot)
    requires Inv(p, s) && s.mounted && s.phase == Waking
    ensures Count(s.pending, WakeEnd) == 1
    ensures Step(p, s, TimerFires(WakeEnd))
         == s.(phase := FadingOut, pending := RemoveFirst(s.pending, WakeEnd) + [Timer(FadeEnd, p.fadeMs)])
    ensures var r := Step(p, s, TimerFires(WakeEnd));
      && r.phase == FadingOut
      && r.pending == RemoveFirst(s.pending, WakeEnd) + [Timer(FadeEnd, p.fadeMs)]
      && Count(r.pending, FadeEnd) == 1 && Count(r.pending, WakeEnd) == 0
      && r.doneCalls == 0
      && r.visible == s.visible && r.labelGone == s.labelGone && r.wakeKey == s.wakeKey
  {
  }

  /** When the fade timer fires, `onDone` runs for the first and only time and
      no fade timer is left; nothing else changes. */
  lemma FadeTimerCallsDone(p: Props, s: Snapshot)
    requires Inv(p, s) && Count(s.pending, FadeEnd) > 0
    ensures Step(p, s, TimerFires(FadeEnd))
         == s.(doneCalls := 1, pending := RemoveFirst(s.pending, FadeEnd))
    ensures var r := Step(p, s, TimerFires(FadeEnd));
      && s.doneCalls == 0 && r.doneCalls == 1
      && Count(r.pending, FadeEnd) == 0
      && r.phase == s.phase && r.visible == s.visible && r.labelGone == s.labelGone
  {
  }

  /** In a reachable snapshot an event moves the phase at most one place on. */
  lemma StepAdvancesOnePhase(p: Props, s: Snapshot, e: Event)
    requires Inv(p, s)
    ensures Rank(Step(p, s, e).phase) <= Rank(s.phase) + 1
  {
  }

  // ---- runs of events ----

  lemma {:induction false} RunPreservesInv(p: Props, s: Snapshot, es: seq<Event>)
    requires Inv(p, s)
    ensures Inv(p, Run(p, s, es))
    decreases |es|
  {
    if es != [] {
      StepPreservesInv(p, s, es[0]);
      RunPreservesInv(p, Step(p, s, es[0]), es[1..]);
    }
  }

  /** The phase never goes back, and neither does a hidden label, a shown
      overlay or a teardown; `onDone` calls only accumulate. */
  lemma {:induction false} RunIsMonotone(p: Props, s: Snapshot, es: seq<Event>)
    ensures var r := Run(p, s, es);
      && Rank(s.phase) <= Rank(r.phase)
      && (s.labelGone ==> r.labelGone)
      && (s.visible ==> r.visible)
      && (!s.mounted ==> !r.mounted)
      && s.doneCalls <= r.doneCalls
    decreases |es|
  {
    if es != [] {
      RunIsMonotone(p, Step(p, s, es[0]), es[1..]);
    }
  }

  /** However many clicks arrive, at most one of them starts the wake. */
  lemma {:induction false} AtMostOneAcceptedClick(p: Props, s: Snapshot, es: seq<Event>)
    ensures AcceptedClicks(p, s, es) <= (if s.phase == Sleep then 1 else 0)
    decreases |es|
  {
    if es != [] {
      var t := Step(p, s, es[0]);
      AtMostOneAcceptedClick(p, t, es[1..]);
      if Accepts(s, es[0]) {
        assert t.phase == Waking;
      }
    }
  }

  /** From the first render, `onDone` is scheduled at most once and therefore
      called at most once, whatever happens. */
  lemma AtMostOneDone(p: Props, now: int, es: seq<Event>)
    ensures Run(p, Init(now), es).doneCalls <= 1
    ensures Count(Run(p, Init(now), es).pending, FadeEnd) + Run(p, Init(now), es).doneCalls <= 1
  {
    InitSatisfiesInv(p, now);
    RunPreservesInv(p, Init(now), es);
  }

  /** Once the wake has started, the wake timer and then the fade timer bring
      `onDone` to exactly one call, mounted or not. */
  lemma WakeThenFadeCallsDoneOnce(p: Props, s: Snapshot)
    requires Inv(p, s) && s.phase != Sleep
    ensures Run(p, s, [TimerFires(WakeEnd), TimerFires(FadeEnd)]).doneCalls == 1
  {
    var t := Step(p, s, TimerFires(WakeEnd));
    StepPreservesInv(p, s, TimerFires(WakeEnd));
    assert Run(p, s, [TimerFires(WakeEnd), TimerFires(FadeEnd)])
        == Run(p, t, [TimerFires(FadeEnd)]);
    assert Run(p, t, [TimerFires(FadeEnd)]) == Step(p, t, TimerFires(FadeEnd));
  }

  /** While the overlay is mounted, `onDone` has run only once the fade-out
      has started. */
  lemma DoneOnlyAfterFadeStarts(p: Props, s: Snapshot)
    requires Inv(p, s) && s.mounted && s.doneCalls > 0
    ensures s.phase == FadingOut
  {
  }

  /** In a reachable snapshot the label is opaque exactly while asleep: the
      label can only have been hidden by the click that ended the sleep. */
  lemma LabelOpaqueExactlyWhileAsleep(p: Props, s: Snapshot)
    requires Inv(p, s)
    ensures LabelOpacity(s.phase, s.labelGone) == 100 <==> s.phase == Sleep
  {
  }

  /** Once the label is transparent it stays transparent. */
  lemma LabelStaysHidden(p: Props, s: Snapshot, es: seq<Event>)
    requires LabelOpacity(s.phase, s.labelGone) == 0
    ensures LabelOpacity(Run(p, s, es).phase, Run(p, s, es).labelGone) == 0
  {
    RunIsMonotone(p, s, es);
  }

  /** Once fading out, the overlay stays transparent and shows no image. */
  lemma FadedOutStaysEmpty(p: Props, s: Snapshot, es: seq<Event>)
    requires s.phase == FadingOut
    ensures var r := Run(p, s, es);
      OverlayOpacity(r.visible, r.phase) == 0 && ShownImages(r.phase, r.wakeKey) == []
  {
    RunIsMonotone(p, s, es);
  }

  /** After the accepted click the wake gif is shown under the new key. */
  lemma WakeGifRestartsWithNewKey(p: Props, s: Snapshot, now: int)
    requires s.mounted && s.phase == Sleep
    ensures var r := Step(p, s, Click(now));
      ShownImages(s.phase, s.wakeKey) == [SleepGif] && ShownImages(r.phase, r.wakeKey) == [WakeGif(now)]
  {
  }

  // ---- scenarios ----

  /** Mount, click, wake timer, fade timer with a 2400 ms gif and a 700 ms
      fade: the timers are 2400 ms and 700 ms long (3100 ms from click to
      `onDone`), and `onDone` runs once. */
  lemma FullRunScenario(now0: int, now1: int)
    ensures var p := Props(2400, 700, true);
      var s0 := Init(now0);
      var s1 := Step(p, s0, TimerFires(MountTick));
      var s2 := Step(p, s1, Click(now1));
      var s3 := Step(p, s2, TimerFires(WakeEnd));
      var s4 := Step(p, s3, TimerFires(FadeEnd));
      && s1.visible && s1.phase == Sleep
      && s2.phase == Waking && s2.labelGone && s2.pending == [Timer(WakeEnd, 2400)]
      && s3.phase == FadingOut && s3.labelGone && s3.pending == [Timer(FadeEnd, 700)]
      && s4.phase == FadingOut && s4.labelGone && s4.pending == [] && s4.doneCalls == 1
      && s2.pending[0].delay + s3.pending[0].delay == 3100
  {
  }

  /** With the fade duration left at its default and the label hidden on
      click: the fade timer lasts 800 ms and the label stays hidden. */
  lemma DefaultFadeScenario(wakeDurationMs: int, now0: int, now1: int)
    ensures var p := Props(wakeDurationMs, fadeWakeButtonOnClick := true);
      var s2 := Step(p, Step(p, Init(now0), TimerFires(MountTick)), Click(now1));
      var s3 := Step(p, s2, TimerFires(WakeEnd));
      var s4 := Step(p, s3, TimerFires(FadeEnd));
      && s2.labelGone && s3.labelGone && s4.labelGone
      && s3.pending == [Timer(FadeEnd, 800)] && s4.doneCalls == 1
  {
  }

  /** A second click in the same sleep, delivered after the first, is ignored:
      one wake, one wake timer. */
  lemma DoubleClickScenario(p: Props, s: Snapshot, now1: int, now2: int)
    requires Inv(p, s) && s.mounted && s.phase == Sleep
    ensures Run(p, s, [Click(now1), Click(now2)]) == Step(p, s, Click(now1))
    ensures Count(Run(p, s, [Click(now1), Click(now2)]).pending, WakeEnd) == 1
  {
    AcceptedClick(p, s, now1);
    var t := Step(p, s, Click(now1));
    assert Run(p, t, [Click(now2)]) == Step(p, t, Click(now2));
  }

  /** Teardown after the click does not cancel the wake and fade timers:
      `onDone` still runs once. */
  lemma UnmountDoesNotCancel(p: Props, now0: int, now1: int)
    ensures var s := Run(p, Init(now0), [Click(now1), Unmount, TimerFires(WakeEnd), TimerFires(FadeEnd)]);
      !s.mounted && s.phase == Waking && s.doneCalls == 1
  {
    var s0 := Init(now0);
    var s1 := Step(p, s0, Click(now1));
    assert s1.pending == [Timer(MountTick, 0), Timer(WakeEnd, WakeDelay(p))];
    var s2 := Step(p, s1, Unmount);
    assert RemoveAll(s1.pending, MountTick) == [Timer(WakeEnd, WakeDelay(p))] by {
      assert s1.pending[1..] == [Timer(WakeEnd, WakeDelay(p))];
      assert RemoveAll([Timer(WakeEnd, WakeDelay(p))], MountTick) == [Timer(WakeEnd, WakeDelay(p))] + RemoveAll([], MountTick);
    }
    assert s2.pending == [Timer(WakeEnd, WakeDelay(p))];
    var s3 := Step(p, s2, TimerFires(WakeEnd));
    assert s3.pending == [Timer(FadeEnd, p.fadeMs)];
    var s4 := Step(p, s3, TimerFires(FadeEnd));
    assert s4.doneCalls == 1;
    assert Run(p, s0, [Click(now1), Unmount, TimerFires(WakeEnd), TimerFires(FadeEnd)]) == s4 by {
      assert [Click(now1), Unmount, TimerFires(WakeEnd), TimerFires(FadeEnd)][1..] == [Unmount, TimerFires(WakeEnd), TimerFires(FadeEnd)];
      assert [Unmount, TimerFires(WakeEnd), TimerFires(FadeEnd)][1..] == [TimerFires(WakeEnd), TimerFires(FadeEnd)];
      assert [TimerFires(WakeEnd), TimerFires(FadeEnd)][1..] == [TimerFires(FadeEnd)];
    }
  }
}
