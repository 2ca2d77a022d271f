/** What the overlay renders, as functions of its state. */
module OverlayView {
  import opened OverlayState

  /** Opacity of the whole overlay, in percent. */
  function OverlayOpacity(visible: bool, phase: Phase): (pct: nat)
    ensures pct == 0 || pct == 100
    ensures pct == 100 <==> visible && phase != FadingOut
  {
    if visible && phase != FadingOut then 100 else 0
  }

  /** Duration of the overlay's opacity transition, in milliseconds. */
  function TransitionMs(fadeMs: int): (ms: int)
    ensures ms >= 200 && ms >= fadeMs
    ensures ms == 200 || ms == fadeMs
  {
    Max(200, fadeMs)
  }

  /** An image in the animation area; the wake gif carries the key that makes
      the renderer create it afresh, so that it plays from its first frame. */
  datatype Image = SleepGif | WakeGif(key: int)

  /** The images rendered in the animation area: the sleep gif block followed
      by the wake gif block, each present only in its own phase. */
  function ShownImages(phase: Phase, wakeKey: int): (imgs: seq<Image>)
    ensures |imgs| <= 1
    ensures SleepGif in imgs <==> phase == Sleep
    ensures WakeGif(wakeKey) in imgs <==> phase == Waking
    ensures imgs == [] <==> phase == FadingOut
    ensures forall i :: 0 <= i < |imgs| && imgs[i].WakeGif? ==> imgs[i].key == wakeKey
  {
    (if phase == Sleep then [SleepGif] else [])
    + (if phase == Waking then [WakeGif(wakeKey)] else [])
  }

  /** Opacity of the "Click to wake up" label, in percent. */
  function LabelOpacity(phase: Phase, labelGone: bool): (pct: nat)
    ensures pct == 0 || pct == 100
    ensures pct == 100 <==> phase == Sleep && !labelGone
  {
    if phase == Sleep then (if labelGone then 0 else 100) else 0
  }

  /** Whether the button has a click handler at all. */
  predicate ClickHandlerAttached(phase: Phase)
  {
    phase == Sleep
  }
}
