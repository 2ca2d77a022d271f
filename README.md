# Sleep overlay: a verified model of the intro state machine

The landing page opens behind a full-screen overlay. The overlay first shows a
looping "sleep" gif with a "Click to wake up" label. A click starts a one-shot
"wake" gif. When the gif's length has elapsed, the overlay fades to
transparent. When the fade has elapsed, the overlay calls `onDone`, and the
page then stops rendering it.

The component holds four pieces of state:

- `visible`, switched on by a zero-delay timer scheduled at mount;
- `phase`, one of `sleep`, `waking` and `fadingOut`;
- `wakeKey`, a clock reading used as the wake gif's key, so the gif restarts;
- `labelGone`, set on click when `fadeWakeButtonOnClick` holds.

Three timers drive it: the mount timer, the wake timer and the fade timer.

The model has five modules:

- `OverlayState` (overlay_state.dfy) holds the props, the phases and the
  queue of pending timers. A pending timer is a `Timer(kind, delay)` that has
  been scheduled and has not yet fired. `Snapshot` holds everything an event
  can change: the four fields, whether the component is mounted, the pending
  timers, and how many times `onDone` has run.
- `OverlayView` (overlay_view.dfy) holds what is rendered, as pure functions
  of the state: the overlay's opacity, the transition duration, the images in
  the animation area and the label's opacity.
- `OverlayMachine` (overlay_machine.dfy) has one function per handler:
  - the mount timer's callback;
  - `startWake` and the click that reaches it;
  - the wake timer's callback;
  - the fade timer's callback;
  - teardown.

  `Step` dispatches an event to these functions, and `Run` applies a sequence
  of events. `Inv` is the invariant of every reachable snapshot, and the module
  proves that every step preserves it.
- `OverlayProperties` (overlay_properties.dfy) holds the guarantees. Some are
  about one event: an ignored click, an accepted click, and each timer's
  effect. Others hold for every run of events: the phase only moves forward, at
  most one click is accepted, and `onDone` runs at most once. It also has the
  page's own run as a scenario.
- `Overlay` (overlay.dfy) holds the class `SleepOverlay`. Its fields are
  updated in place by one method per event, and each method is proved to make
  the same step as `Step`. `PageIntro` is a client that drives the class the
  way the page configures it.

Time is abstract. Each scheduled timer is a pending entry that the environment
may fire at any later point, in any order. Each entry records the delay it was
scheduled with: 0 for the mount timer, `max(0, wakeDurationMs)` for the wake
timer and `fadeMs` for the fade timer. The clock reading `Date.now()` is a
parameter (`now`) of the constructor and of `Click`. Nothing is assumed about
how it relates to earlier readings.

Two properties of the source show up in the model:

- The click is guarded twice. The button has a handler only while asleep
  (src/components/SleepOverlay.tsx:76), and `startWake` checks the phase again
  (src/components/SleepOverlay.tsx:39). Both guards are modelled.
- Teardown cancels only the mount timer. The cleanup closures returned from
  `startWake` and from the wake timer's callback are never handed to React.
  So after teardown the wake timer and the fade timer still fire, and `onDone`
  still runs. The model follows the code here, and `UnmountDoesNotCancel`
  exhibits it. State updates on an unmounted component are dropped, as React
  drops them.

## Model

| member | source | states |
|---|---|---|
| OverlayState.WakeDelay | src/components/SleepOverlay.tsx:51 | The wake timer's delay is never negative and never below `wakeDurationMs`. It is either 0 or `wakeDurationMs`. |
| OverlayView.OverlayOpacity | src/components/SleepOverlay.tsx:57-65 | The overlay is fully opaque exactly when `visible` holds and the phase is not `fadingOut`. Otherwise it is fully transparent. |
| OverlayView.TransitionMs | src/components/SleepOverlay.tsx:70 | The opacity transition lasts `max(200, fadeMs)`: at least 200 ms, at least `fadeMs`, and equal to one of them. |
| OverlayView.ShownImages | src/components/SleepOverlay.tsx:80-100 | At most one image is rendered. The sleep gif is rendered exactly in `sleep`. The wake gif, keyed by `wakeKey`, is rendered exactly in `waking`. No image is rendered in `fadingOut`. |
| OverlayView.LabelOpacity | src/components/SleepOverlay.tsx:102-111 | The label is fully opaque exactly when the phase is `sleep` and `labelGone` is false. Otherwise it is transparent. |
| OverlayMachine.Step | src/components/SleepOverlay.tsx:32-55 | No event moves the phase back, hides the overlay, brings the label back or remounts the component. `onDone` runs at most once per event. `wakeKey` changes only on a click that is accepted, to that click's clock reading. An event enters `waking` exactly when it is an accepted click. |
| OverlayMachine.InitSatisfiesInv | src/components/SleepOverlay.tsx:27-35 | The first render is hidden, asleep, with the label shown and only the mount timer pending. It satisfies the invariant. |
| OverlayMachine.StepPreservesInv | src/components/SleepOverlay.tsx:27-55 | Every event preserves the invariant. Every pending timer carries its kind's delay, and at most one mount timer is pending, only while hidden. While asleep no wake or fade timer is pending and `onDone` has not run. After sleep, wake timers, fade timers and `onDone` calls add up to one. `labelGone` implies `fadeWakeButtonOnClick`. |
| OverlayMachine.StartWakePreservesInv | src/components/SleepOverlay.tsx:38-51 | `startWake` keeps the invariant, including when it runs on an unmounted component. |
| OverlayProperties.MountTimerOnlyShows | src/components/SleepOverlay.tsx:32-35 | The mount timer sets `visible` and changes nothing else. No mount timer is left pending afterwards. |
| OverlayProperties.ClickIgnoredUnlessAsleep | src/components/SleepOverlay.tsx:38-39 | A click outside `sleep`, or after teardown, leaves the state unchanged and schedules nothing. The handler on line 76 and `startWake`'s own guard each ignore it. |
| OverlayProperties.AcceptedClick | src/components/SleepOverlay.tsx:41-51 | An accepted click sets the phase to `waking` and `wakeKey` to the click's clock reading. It sets `labelGone` exactly when `fadeWakeButtonOnClick` holds. It schedules exactly one wake timer, of non-negative delay `max(0, wakeDurationMs)`. It leaves `visible`, the mount state and `onDone` alone. |
| OverlayProperties.WakeTimerStartsFade | src/components/SleepOverlay.tsx:46-48 | On a mounted overlay that is waking, a wake timer is pending. When it fires, the phase becomes `fadingOut`, that wake timer leaves the queue and one fade timer of delay `fadeMs` is appended. Nothing else changes: visibility, key, label, mount state and `onDone` count are kept. Exactly one fade timer and no wake timer is then pending. |
| OverlayProperties.FadeTimerCallsDone | src/components/SleepOverlay.tsx:48 | When the fade timer fires, `onDone` runs for the first time and that timer leaves the queue. Nothing else changes: phase, visibility, label, key, mount state and the other pending timers are kept. No fade timer is left. |
| OverlayProperties.WakeThenFadeCallsDoneOnce | src/components/SleepOverlay.tsx:46-48 | Once the wake has started, the wake timer followed by the fade timer brings `onDone` to exactly one call, whether or not the overlay is still mounted. |
| OverlayProperties.DoneOnlyAfterFadeStarts | src/components/SleepOverlay.tsx:47-48 | While the overlay is mounted, `onDone` has run only if the phase is `fadingOut`. |
| OverlayProperties.StepAdvancesOnePhase | src/components/SleepOverlay.tsx:43-47 | From a reachable state, an event moves the phase at most one place forward. |
| OverlayProperties.RunPreservesInv | src/components/SleepOverlay.tsx:27-55 | Any sequence of events preserves the invariant. |
| OverlayProperties.RunIsMonotone | src/components/SleepOverlay.tsx:28-47 | Over any sequence of events, the phase never reverts. `labelGone` is never reset, `visible` is never cleared, teardown is never undone, and the `onDone` count never drops. |
| OverlayProperties.AtMostOneAcceptedClick | src/components/SleepOverlay.tsx:38-43 | However many clicks arrive, at most one is accepted, and none once the phase has left `sleep`. |
| OverlayProperties.AtMostOneDone | src/components/SleepOverlay.tsx:46-51 | From the first render, over any events, pending fade timers plus `onDone` calls never exceed one. So `onDone` is scheduled, and called, at most once. |
| OverlayProperties.LabelOpaqueExactlyWhileAsleep | src/components/SleepOverlay.tsx:102-111 | In a reachable state the label is opaque exactly while asleep, because `labelGone` is only ever set by the click that ends the sleep. |
| OverlayProperties.LabelStaysHidden | src/components/SleepOverlay.tsx:30-41 | Once the label is transparent, it stays transparent over any events. |
| OverlayProperties.FadedOutStaysEmpty | src/components/SleepOverlay.tsx:57-100 | Once `fadingOut` is reached, the overlay stays transparent and shows no image. |
| OverlayProperties.WakeGifRestartsWithNewKey | src/components/SleepOverlay.tsx:91-99 | The accepted click replaces the sleep gif with the wake gif, keyed by the click's clock reading. |
| OverlayProperties.FullRunScenario | src/App.tsx:23-37 | With the page's props (2400 ms gif, 700 ms fade, label hidden on click), the events are mount, click, wake timer and fade timer. The timers have delays 2400 and 700, 3100 ms from click to `onDone`. The label stays hidden, and `onDone` runs once. |
| OverlayProperties.DefaultFadeScenario | src/components/SleepOverlay.tsx:14-15 | With `fadeMs` left at its default of 800 and the label hidden on click, the fade timer lasts 800 ms. The label stays hidden through `waking` and `fadingOut`, and `onDone` runs once. |
| OverlayProperties.DoubleClickScenario | src/components/SleepOverlay.tsx:39 | A second click after the accepted one is ignored. Exactly one wake timer is pending. |
| OverlayProperties.UnmountDoesNotCancel | src/components/SleepOverlay.tsx:46-54 | If the click is followed by teardown, the wake and fade timers still fire. `onDone` runs once, after unmount, while the phase stays `waking`. |
| Overlay.SleepOverlay.constructor | src/components/SleepOverlay.tsx:27-35 | The new object holds the initial snapshot: hidden, asleep, keyed by `now`, mount timer pending. It satisfies the invariant. |
| Overlay.SleepOverlay.MountTimerFires | src/components/SleepOverlay.tsx:33 | The fields change as `Step` prescribes for the mount timer: the overlay becomes visible, and phase and label are kept. |
| Overlay.SleepOverlay.Click | src/components/SleepOverlay.tsx:74-76 | The fields change as `Step` prescribes for a click. The click is accepted exactly when the component is mounted and asleep. An ignored click changes no field. |
| Overlay.SleepOverlay.StartWake | src/components/SleepOverlay.tsx:38-55 | The handler ignores the call unless asleep. Otherwise it updates the label, phase and key in place and appends the wake timer, as `AfterStartWake` prescribes. The invariant is kept, mounted or not. |
| Overlay.SleepOverlay.WakeTimerFires | src/components/SleepOverlay.tsx:46-51 | The fields change as `Step` prescribes for the wake timer. Afterwards exactly one fade timer and no wake timer is pending. |
| Overlay.SleepOverlay.FadeTimerFires | src/components/SleepOverlay.tsx:48 | The fields change as `Step` prescribes for the fade timer. `onDone` has run exactly once. |
| Overlay.SleepOverlay.Unmount | src/components/SleepOverlay.tsx:32-35 | Only the mount timer is cleared. The wake and fade timers stay pending, and the object is marked unmounted. |
| Overlay.PageIntro | src/App.tsx:28-38 | The page's configuration is driven through the class alone: mount, click, a second click, then both timers. `onDone` runs exactly once, and the overlay ends transparent. |

## Left out

- src/App.tsx is not part of this model beyond the props it passes. It holds page markup, contact links, the reduced-motion check through `window.matchMedia`, the resume download (fetch, blob, object URL) and the locale-formatted date.
- Wall-clock time is not modelled. Timers are pending events that may fire in any order after they are scheduled. The model does not require a shorter timer to fire before a longer one.
- `Date.now()` is not modelled. Its readings are parameters, and the model does not claim that a new key differs from the previous one.
- The props are JavaScript numbers, modelled as integers. Fractions, `NaN` and infinities are not modelled. The browser clamps a negative timer delay to 0; the model does not, and records `fadeMs` as the fade timer's delay as written.
- The image sources, the `size` prop, the Tailwind classes other than the two opacity choices, the ARIA labels and the label's fixed 300 ms transition are rendering details, and are not modelled.
- React's batching and stale closures are not modelled: each click is handled atomically on the current state.
- Re-renders are not modelled: the mount effect runs once.
