/** The state of the sleep overlay: its props, its phase, the timers it has
    scheduled and the snapshot of everything one event can change. */
module OverlayState {

  /** The three phases of the intro animation, in the only order they occur. */
  datatype Phase = Sleep | Waking | FadingOut

  /** Position of a phase in the order sleep -> waking -> fadingOut. */
  function Rank(ph: Phase): nat
  {
    match ph
    case Sleep => 0
    case Waking => 1
    case FadingOut => 2
  }

  /** The props that influence behaviour, with the component's defaults for
      the optional ones. The image sources and the box size only reach the
      markup and are not part of the state machine. */
  datatype Props = Props(wakeDurationMs: int, fadeMs: int := 800, fadeWakeButtonOnClick: bool := false)

  function Max(a: int, b: int): int
  {
    if a < b then b else a
  }

  /** Delay of the timer scheduled by an accepted click: the wake gif's length,
      clamped at zero. */
  function WakeDelay(p: Props): (d: int)
    ensures d >= 0 && d >= p.wakeDurationMs
    ensures d == 0 || d == p.wakeDurationMs
  {
    Max(0, p.wakeDurationMs)
  }

  /** What a scheduled timer does when it fires: show the overlay after mount,
      end the wake animation, or end the fade and report completion. */
  datatype TimerKind = MountTick | WakeEnd | FadeEnd

  /** A timer that has been scheduled and has not fired (nor been cleared). */
  datatype Timer = Timer(kind: TimerKind, delay: int)

  /** Number of pending timers of kind `k`. */
  function Count(q: seq<Timer>, k: TimerKind): (n: nat)
    ensures n <= |q|
    ensures n == 0 <==> forall i :: 0 <= i < |q| ==> q[i].kind != k
  {
    if q == [] then 0
    else (if q[0].kind == k then 1 else 0) + Count(q[1..], k)
  }

  lemma {:induction false} CountAppend(q: seq<Timer>, t: Timer, k: TimerKind)
    ensures Count(q + [t], k) == Count(q, k) + (if t.kind == k then 1 else 0)
  {
    if q == [] {
      assert q + [t] == [t];
    } else {
      assert (q + [t])[1..] == q[1..] + [t];
      CountAppend(q[1..], t, k);
    }
  }

  /** The queue once the earliest pending timer of kind `k` has fired. */
  function RemoveFirst(q: seq<Timer>, k: TimerKind): (r: seq<Timer>)
    ensures Count(q, k) == 0 ==> r == q
    ensures Count(q, k) > 0 ==> Count(r, k) == Count(q, k) - 1 && |r| == |q| - 1
    ensures forall j :: j != k ==> Count(r, j) == Count(q, j)
    ensures forall t :: t in r ==> t in q
  {
    if q == [] then q
    else if q[0].kind == k then q[1..]
    else [q[0]] + RemoveFirst(q[1..], k)
  }

  /** The queue once every pending timer of kind `k` has been cleared. */
  function RemoveAll(q: seq<Timer>, k: TimerKind): (r: seq<Timer>)
    ensures Count(r, k) == 0
    ensures forall j :: j != k ==> Count(r, j) == Count(q, j)
    ensures forall t :: t in r ==> t in q && t.kind != k
  {
    if q == [] then q
    else if q[0].kind == k then RemoveAll(q[1..], k)
    else [q[0]] + RemoveAll(q[1..], k)
  }

  /** Everything one event can change: the four component fields (`visible`,
      `phase`, `wakeKey`, `labelGone`), whether the component is still
      mounted, the timers it has scheduled, and how often `onDone` ran. */
  datatype Snapshot = Snapshot(
    mounted: bool,
    visible: bool,
    phase: Phase,
    wakeKey: int,
    labelGone: bool,
    pending: seq<Timer>,
    doneCalls: nat)

  /** The events that drive the component: a pending timer fires, the user
      clicks the button (`now` is the clock reading taken by the handler), or
      the parent stops rendering the overlay. */
  datatype Event = TimerFires(kind: TimerKind) | Click(now: int) | Unmount
}
