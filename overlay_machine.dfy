/** The overlay as a state machine over snapshots: one function per event
    handler, the step relation that dispatches them, runs of events, and the
    invariant every reachable snapshot satisfies. */
module OverlayMachine {
  import opened OverlayState
  import opened OverlayView

  /** The snapshot right after the first render: hidden, asleep, keyed with the
      clock reading `now`, and with the zero-delay mount timer scheduled. */
  function Init(now: int): Snapshot
  {
    Snapshot(true, false, Sleep, now, false, [Timer(MountTick, 0)], 0)
  }

  /** Callback of the mount timer. A state update on an unmounted component is
      dropped. */
  function AfterMountTimer(s: Snapshot): Snapshot
  {
    if s.mounted then s.(visible := true) else s
  }

  /** The `startWake` handler, with its own guard against repeated clicks. */
  function AfterStartWake(p: Props, s: Snapshot, now: int): Snapshot
  {
    if s.phase != Sleep then s
    else s.(labelGone := if p.fadeWakeButtonOnClick then true else s.labelGone,
            phase := Waking,
            wakeKey := now,
            pending := s.pending + [Timer(WakeEnd, WakeDelay(p))])
  }

  /** A click reaches `startWake` only while the button carries the handler. */
  function AfterClick(p: Props, s: Snapshot, now: int): Snapshot
  {
    if s.mounted && ClickHandlerAttached(s.phase) then AfterStartWake(p, s, now) else s
  }

  /** Callback of the wake timer: enter the fade-out (dropped once unmounted)
      and schedule the fade timer, which is scheduled in either case. */
  function AfterWakeTimer(p: Props, s: Snapshot): Snapshot
  {
    var t := if s.mounted then s.(phase := FadingOut) else s;
    t.(pending := t.pending + [Timer(FadeEnd, p.fadeMs)])
  }

  /** Callback of the fade timer: `onDone` runs. */
  function AfterFadeTimer(s: Snapshot): Snapshot
  {
    s.(doneCalls := s.doneCalls + 1)
  }

  /** Teardown: only the mount effect's cleanup runs, clearing the mount timer;
      the wake and fade timers stay scheduled. */
  function AfterUnmount(s: Snapshot): Snapshot
  {
    s.(mounted := false, pending := RemoveAll(s.pending, MountTick))
  }

  function Fire(p: Props, s: Snapshot, k: TimerKind): Snapshot
  {
    match k
    case MountTick => AfterMountTimer(s)
    case WakeEnd => AfterWakeTimer(p, s)
    case FadeEnd => AfterFadeTimer(s)
  }

  /** Whether event `e` is a click that starts the wake. */
  predicate Accepts(s: Snapshot, e: Event)
  {
    e.Click? && s.mounted && s.phase == Sleep
  }

  /** One event. A timer fires only while one of its kind is pending; the
      earliest such timer leaves the queue before its callback runs. */
  function Step(p: Props, s: Snapshot, e: Event): (r: Snapshot)
    ensures Rank(s.phase) <= Rank(r.phase)
    ensures s.labelGone ==> r.labelGone
    ensures s.visible ==> r.visible
    ensures !s.mounted ==> !r.mounted
    ensures s.doneCalls <= r.doneCalls <= s.doneCalls + 1
    ensures r.wakeKey == if Accepts(s, e) then e.now else s.wakeKey
    ensures r.phase == Waking && s.phase != Waking <==> Accepts(s, e)
  {
    match e
    case TimerFires(k) =>
      if Count(s.pending, k) == 0 then s
      else Fire(p, s.(pending := RemoveFirst(s.pending, k)), k)
    case Click(now) => AfterClick(p, s, now)
    case Unmount => AfterUnmount(s)
  }

  /** The snapshot after the events `es`, in order. */
  function Run(p: Props, s: Snapshot, es: seq<Event>): Snapshot
    decreases |es|
  {
    if es == [] then s else Run(p, Step(p, s, es[0]), es[1..])
  }

  /** Number of clicks in `es` that start the wake. */
  function AcceptedClicks(p: Props, s: Snapshot, es: seq<Event>): nat
    decreases |es|
  {
    if es == [] then 0
    else (if Accepts(s, es[0]) then 1 else 0) + AcceptedClicks(p, Step(p, s, es[0]), es[1..])
  }

  /** Delay with which a timer of kind `k` is scheduled. */
  function DelayOf(p: Props, k: TimerKind): int
  {
    match k
    case MountTick => 0
    case WakeEnd => WakeDelay(p)
    case FadeEnd => p.fadeMs
  }

  /** What holds of every snapshot reachable from `Init`. */
  ghost predicate Inv(p: Props, s: Snapshot)
  {
    var mountN, wakeN, fadeN := Count(s.pending, MountTick), Count(s.pending, WakeEnd), Count(s.pending, FadeEnd);
    && DelaysAgree(p, s.pending)
    && mountN <= 1
    && (mountN == 1 ==> s.mounted && !s.visible)
    && (s.mounted && mountN == 0 ==> s.visible)
    && (s.phase == Sleep ==> wakeN == 0 && fadeN == 0 && s.doneCalls == 0 && !s.labelGone)
    && (s.phase != Sleep ==> wakeN + fadeN + s.doneCalls == 1)
    && (s.phase == FadingOut ==> wakeN == 0)
    && (s.mounted && s.phase == Waking ==> wakeN == 1)
    && (s.labelGone ==> p.fadeWakeButtonOnClick)
  }

  lemma InitSatisfiesInv(p: Props, now: int)
    ensures Inv(p, Init(now))
    ensures Init(now).phase == Sleep && !Init(now).visible && !Init(now).labelGone
  {
  }

  /** The delays recorded in a queue agree with `DelayOf`. */
  ghost predicate DelaysAgree(p: Props, q: seq<Timer>)
  {
    forall i :: 0 <= i < |q| ==> q[i].delay == DelayOf(p, q[i].kind)
  }

  lemma DelaysAgreeSubset(p: Props, q: seq<Timer>, r: seq<Timer>)
    requires DelaysAgree(p, q)
    requires forall t :: t in r ==> t in q
    ensures DelaysAgree(p, r)
  {
    forall i | 0 <= i < |r|
      ensures r[i].delay == DelayOf(p, r[i].kind)
    {
      assert r[i] in q;
    }
  }

  lemma ScheduleCounts(q: seq<Timer>, t: Timer)
    ensures forall k :: Count(q + [t], k) == Count(q, k) + (if t.kind == k then 1 else 0)
  {
    forall k ensures Count(q + [t], k) == Count(q, k) + (if t.kind == k then 1 else 0) {
      CountAppend(q, t, k);
    }
  }

  lemma WakeTimerPreservesInv(p: Props, s: Snapshot)
    requires Inv(p, s) && Count(s.pending, WakeEnd) > 0
    ensures Inv(p, Step(p, s, TimerFires(WakeEnd)))
  {
    var q := RemoveFirst(s.pending, WakeEnd);
    var t := Timer(FadeEnd, p.fadeMs);
    ScheduleCounts(q, t);
    DelaysAgreeSubset(p, s.pending, q);
    assert Step(p, s, TimerFires(WakeEnd)).pending == q + [t];
  }

  /** `startWake` keeps the invariant whether or not the component is still
      mounted. */
  lemma StartWakePreservesInv(p: Props, s: Snapshot, now: int)
    requires Inv(p, s)
    ensures Inv(p, AfterStartWake(p, s, now))
  {
    if s.phase == Sleep {
      var t := Timer(WakeEnd, WakeDelay(p));
      ScheduleCounts(s.pending, t);
      assert AfterStartWake(p, s, now).pending == s.pending + [t];
    }
  }

  lemma ClickPreservesInv(p: Props, s: Snapshot, now: int)
    requires Inv(p, s)
    ensures Inv(p, Step(p, s, Click(now)))
  {
    if Accepts(s, Click(now)) {
      StartWakePreservesInv(p, s, now);
    }
  }

  lemma {:induction false} StepPreservesInv(p: Props, s: Snapshot, e: Event)
    requires Inv(p, s)
    ensures Inv(p, Step(p, s, e))
  {
    match e {
      case TimerFires(k) =>
        if Count(s.pending, k) > 0 {
          if k == WakeEnd {
            WakeTimerPreservesInv(p, s);
          } else {
            DelaysAgreeSubset(p, s.pending, RemoveFirst(s.pending, k));
          }
        }
      case Click(now) =>
        ClickPreservesInv(p, s, now);
      case Unmount =>
        DelaysAgreeSubset(p, s.pending, RemoveAll(s.pending, MountTick));
    }
  }
}
