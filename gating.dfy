/** The pure decisions the event handlers of the canvas controls take: whether an
    event is left to the page (UI scrolling, clicking controls) or taken over as a
    gesture on the geometry, and how far one wheel step zooms.

    The DOM queries are inputs here: `inScrollUi` is "the event target lies inside
    the scrollable UI container", `isControl` is "the target is one of the page's
    inputs or buttons", `overGeometry` is "the rendered geometry is not transparent
    under the event" and `gestureActive` is "some pointer is active". */
module Gating {

  /** The early return of `pointerdown`: the press is on UI, misses the geometry,
      and no gesture is under way. */
  function PointerDownIgnored(inScrollUi: bool, isControl: bool, overGeometry: bool, gestureActive: bool): (ignored: bool)
    ensures ignored ==> inScrollUi || isControl
    ensures ignored ==> !overGeometry && !gestureActive
    ensures !inScrollUi && !isControl ==> !ignored
    ensures (inScrollUi || isControl) && !overGeometry && !gestureActive ==> ignored
  {
    (inScrollUi || isControl) && !overGeometry && !gestureActive
  }

  /** Whether `wheel` goes on to zoom (and suppresses the page's scrolling):
      everywhere outside the scrollable UI, and inside it only over geometry.
      Unlike the pointer-down gate, interactive controls play no part. */
  function WheelZooms(inScrollUi: bool, overGeometry: bool): (zooms: bool)
    ensures !zooms <==> inScrollUi && !overGeometry
  {
    if !inScrollUi then true else overGeometry
  }

  /** Whether the touch-start handler suppresses the browser's default touch
      behaviour: it does so exactly when a pointer-down at the same place would
      be taken over as a gesture. */
  function TouchSuppressesDefault(inScrollUi: bool, isControl: bool, overGeometry: bool, gestureActive: bool): (suppress: bool)
    ensures suppress == !PointerDownIgnored(inScrollUi, isControl, overGeometry, gestureActive)
  {
    !(inScrollUi || isControl) || overGeometry || gestureActive
  }

  /** `Math.max(-0.2, deltaY / 600)`: the relative change of the view distance
      for one wheel step, clamped below so the view cannot pass the origin. */
  function ZoomAmount(deltaY: real): (amount: real)
    ensures amount >= -0.2 && amount >= deltaY / 600.0
    ensures amount == -0.2 || amount == deltaY / 600.0
  {
    if -0.2 >= deltaY / 600.0 then -0.2 else deltaY / 600.0
  }

  /** The factor the view position is scaled by: `1 + zoomAmount`. */
  function ZoomFactor(deltaY: real): (factor: real)
    ensures factor >= 0.8
    ensures deltaY <= -120.0 ==> factor == 0.8
    ensures deltaY >= -120.0 ==> factor == 1.0 + deltaY / 600.0
  {
    1.0 + ZoomAmount(deltaY)
  }

  /** Scrolling down (positive `deltaY`) moves the view away from the origin,
      scrolling up moves it closer, and no step is a no-op unless `deltaY` is 0. */
  lemma ZoomDirection(deltaY: real)
    ensures deltaY > 0.0 ==> ZoomFactor(deltaY) > 1.0
    ensures deltaY < 0.0 ==> 0.8 <= ZoomFactor(deltaY) < 1.0
    ensures deltaY == 0.0 ==> ZoomFactor(deltaY) == 1.0
  {
  }
}
