/** The module-level state of the canvas controls and the event handlers and
    per-frame routine that update it. */
module CanvasControl {
  import opened Vectors
  import opened Gestures
  import opened Gating

  /** `v3cross([0,0,1], meanPointerMove)`, written out: the screen-space axis the
      geometry is rolled about when the pointers' centroid moves. */
  function PanAxis(meanPointerMove: Vec3): (axis: Vec3)
    ensures axis.z == 0.0
  {
    Vec3(-meanPointerMove.y, meanPointerMove.x, 0.0)
  }

  /** The pan axis is the cross product of the screen normal with the centroid's
      movement: perpendicular to that movement and as long as its in-plane part. */
  lemma PanAxisIsCross(meanPointerMove: Vec3)
    ensures PanAxis(meanPointerMove) == Cross(Vec3(0.0, 0.0, 1.0), meanPointerMove)
    ensures Dot(PanAxis(meanPointerMove), meanPointerMove) == 0.0
    ensures NormSq(PanAxis(meanPointerMove))
         == meanPointerMove.x * meanPointerMove.x + meanPointerMove.y * meanPointerMove.y
  {
  }

  /** `v3dot(v3cross(lastEndToEnd, endToEnd), [0,0,1.4])`: the twist angle, 1.4 times
      the z component of the cross product of the old and new end-to-end vectors. */
  function SpinAmount(lastEndToEnd: Vec3, endToEnd: Vec3): real {
    Dot(Cross(lastEndToEnd, endToEnd), Vec3(0.0, 0.0, 1.4))
  }

  /** No twist when the end-to-end vector keeps its direction, and twisting back
      undoes twisting forth. */
  lemma SpinAmountProperties(a: Vec3, b: Vec3, k: real)
    ensures SpinAmount(a, Scale(a, k)) == 0.0
    ensures SpinAmount(b, a) == -SpinAmount(a, b)
  {
  }

  /** What one processed frame asks the matrix library to do to the model matrix.
      Both rotations use the inverse of the model matrix as it was at the start of
      the frame: the library rolls the model about `panAxis` carried into model
      space, by an angle proportional to its length, then twists it about the
      screen's z axis carried into model space, by `Spin()` radians, the spin
      amount from the end-to-end vector `twistFrom` to `twistTo`. */
  datatype ModelRotation = ModelRotation(panAxis: Vec3, twistFrom: Vec3, twistTo: Vec3) {
    function Spin(): real {
      SpinAmount(twistFrom, twistTo)
    }
  }

  /** Fingers moving apart (growing spread) zoom in: the view moves towards the
      origin. Fingers closing zoom out. */
  lemma PinchZoomDirection(lastSpread: real, spread: real)
    ensures spread > lastSpread ==> ZoomFactor((lastSpread - spread) * 2.4) < 1.0
    ensures spread < lastSpread ==> ZoomFactor((lastSpread - spread) * 2.4) > 1.0
  {
    ZoomDirection((lastSpread - spread) * 2.4);
  }

  /** One zoom step keeps the view position on its ray from the origin and at
      least 0.8 of its distance, so the view never passes through the origin. */
  lemma ZoomStaysOnRay(viewPos: Vec3, deltaY: real)
    ensures ZoomFactor(deltaY) > 0.0
    ensures NormSq(Scale(viewPos, ZoomFactor(deltaY))) >= 0.64 * NormSq(viewPos)
  {
    var f := ZoomFactor(deltaY);
    var v := viewPos;
    assert NormSq(Scale(v, f)) == f * f * NormSq(v);
    assert f * f >= 0.64;
    assert NormSq(v) >= 0.0;
  }

  class Controls {
    /** `activePointers`: ids of the pointers in the gesture, in press order; a
        repeated press of the same id appears twice. */
    var activePointers: seq<PointerId>
    /** `pointerPositions`: last known position of each active pointer. */
    var pointerPositions: map<PointerId, Vec3>
    var meanPointer: Vec3
    var lastMeanPointer: Vec3
    var pointerSpread: real
    var lastPointerSpread: real
    var endToEndVector: Vec3
    var lastEndToEndVector: Vec3
    var skip1Frame: bool
    var shouldRedraw: bool
    /** `uViewPos`; the view matrix is the library's look-at from here to the
        origin with up (0,1,0). */
    var viewPos: Vec3
    /** The updates issued against `uModelMatrix`, oldest first. */
    var modelRotations: seq<ModelRotation>

    /** `getPointerSpread`, computed by the host. */
    const spreadOf: (seq<Vec3>, Vec3) -> real
    /** `v3norm`, computed by the host. */
    const normalise: Vec3 -> Vec3

    /** The stored positions are exactly those of the active ids. */
    ghost predicate Valid()
      reads this`activePointers, this`pointerPositions
    {
      pointerPositions.Keys == set id | id in activePointers
    }

    /** `mean`, `spread` and `endToEnd` are the aggregate signals of `positions`,
        taken in `Object.values` order. */
    ghost predicate SignalsOf(positions: map<PointerId, Vec3>, mean: Vec3, spread: real, endToEnd: Vec3) {
      var pointers := ObjectValues(positions);
      && mean == MeanPointer(pointers)
      && spread == spreadOf(pointers, mean)
      && endToEnd == normalise(EndToEnd(pointers))
    }

    constructor (spreadOf: (seq<Vec3>, Vec3) -> real, normalise: Vec3 -> Vec3, viewPos: Vec3)
      ensures Valid()
      ensures activePointers == [] && pointerPositions == map[]
      ensures meanPointer == lastMeanPointer == endToEndVector == lastEndToEndVector == Zero
      ensures pointerSpread == lastPointerSpread == 0.0
      ensures !skip1Frame && !shouldRedraw
      ensures this.viewPos == viewPos && modelRotations == []
      ensures this.spreadOf == spreadOf && this.normalise == normalise
    {
      activePointers, pointerPositions := [], map[];
      meanPointer, lastMeanPointer := Zero, Zero;
      pointerSpread, lastPointerSpread := 0.0, 0.0;
      endToEndVector, lastEndToEndVector := Zero, Zero;
      skip1Frame, shouldRedraw := false, false;
      this.viewPos, modelRotations := viewPos, [];
      this.spreadOf, this.normalise := spreadOf, normalise;
    }

    /** `setPointerMeanAndSpread` */
    method SetPointerMeanAndSpread()
      modifies this`meanPointer, this`pointerSpread, this`endToEndVector
      ensures SignalsOf(pointerPositions, meanPointer, pointerSpread, endToEndVector)
    {
      var pointers := ObjectValues(pointerPositions);
      meanPointer := MeanPointer(pointers);
      pointerSpread := spreadOf(pointers, meanPointer);
      endToEndVector := normalise(EndToEnd(pointers));
    }

    /** `pointerdown`: unless the gate leaves the press to the page, record the
        pointer at (pageX, -pageY, 0), append its id, refresh the aggregates and
        skip the next frame. `handled` says the default action was suppressed and
        focus removed. */
    method PointerDown(id: PointerId, pageX: real, pageY: real, inScrollUi: bool, isControl: bool, overGeometry: bool)
      returns (handled: bool)
      requires Valid()
      modifies this`activePointers, this`pointerPositions, this`skip1Frame
      modifies this`meanPointer, this`pointerSpread, this`endToEndVector
      ensures Valid()
      ensures handled == !PointerDownIgnored(inScrollUi, isControl, overGeometry, old(activePointers) != [])
      ensures (inScrollUi || isControl) && !overGeometry && old(activePointers) == [] ==> !handled
      ensures !handled ==> unchanged(this)
      ensures handled ==>
        && activePointers == old(activePointers) + [id]
        && pointerPositions == old(pointerPositions)[id := Vec3(pageX, -pageY, 0.0)]
        && SignalsOf(pointerPositions, meanPointer, pointerSpread, endToEndVector)
        && skip1Frame
    {
      if PointerDownIgnored(inScrollUi, isControl, overGeometry, activePointers != []) {
        return false;
      }
      handled := true;
      pointerPositions := pointerPositions[id := Vec3(pageX, -pageY, 0.0)];
      activePointers := activePointers + [id];
      SetPointerMeanAndSpread();
      skip1Frame := true;
    }

    /** `pointermove`: only an active pointer's position is updated. */
    method PointerMove(id: PointerId, pageX: real, pageY: real)
      requires Valid()
      modifies this`pointerPositions
      ensures Valid()
      ensures id in activePointers ==> pointerPositions == old(pointerPositions)[id := Vec3(pageX, -pageY, 0.0)]
      ensures id !in activePointers ==> pointerPositions == old(pointerPositions)
    {
      if id !in activePointers {
        return;
      }
      pointerPositions := pointerPositions[id := Vec3(pageX, -pageY, 0.0)];
    }

    /** `pointerup` (also bound to `pointerleave`): drop every occurrence of the id
        and its position, and skip the next frame even if the id was not active. */
    method PointerUp(id: PointerId)
      requires Valid()
      modifies this`activePointers, this`pointerPositions, this`skip1Frame
      ensures Valid()
      ensures activePointers == Without(old(activePointers), id)
      ensures pointerPositions == old(pointerPositions) - {id}
      ensures skip1Frame
    {
      activePointers := Without(activePointers, id);
      pointerPositions := pointerPositions - {id};
      skip1Frame := true;
    }

    /** `wheel`: outside the scrollable UI, or over geometry inside it, suppress
        the default scrolling and scale the view position by the clamped zoom
        factor; otherwise leave the event to the page. */
    method Wheel(inScrollUi: bool, overGeometry: bool, deltaY: real) returns (zoomed: bool)
      modifies this`viewPos, this`shouldRedraw
      ensures zoomed == WheelZooms(inScrollUi, overGeometry)
      ensures zoomed ==> viewPos == Scale(old(viewPos), ZoomFactor(deltaY)) && shouldRedraw
      ensures !zoomed ==> viewPos == old(viewPos) && shouldRedraw == old(shouldRedraw)
    {
      if inScrollUi && !overGeometry {
        return false;
      }
      zoomed := true;
      viewPos := Scale(viewPos, 1.0 + ZoomAmount(deltaY));
      shouldRedraw := true;
    }

    /** `touchmove` (bound to `touchstart`): whether the default touch behaviour is
        suppressed. It is, exactly when a pointer-down there would not be ignored. */
    method TouchMove(inScrollUi: bool, isControl: bool, overGeometry: bool) returns (suppressDefault: bool)
      ensures suppressDefault <==> !PointerDownIgnored(inScrollUi, isControl, overGeometry, activePointers != [])
    {
      suppressDefault := TouchSuppressesDefault(inScrollUi, isControl, overGeometry, activePointers != []);
    }

    /** `panAndZoom`, once per frame: with no active pointer nothing happens.
        Otherwise refresh the aggregates; unless this frame is skipped, roll the
        model by the centroid's movement, zoom by the change of spread, twist by
        the turn of the end-to-end vector and ask for a redraw; finally roll the
        current signals into the `last` ones and clear the skip flag. */
    method PanAndZoom()
      requires Valid()
      modifies this`meanPointer, this`pointerSpread, this`endToEndVector
      modifies this`lastMeanPointer, this`lastPointerSpread, this`lastEndToEndVector
      modifies this`skip1Frame, this`shouldRedraw, this`viewPos, this`modelRotations
      ensures Valid()
      ensures old(activePointers) == [] ==> unchanged(this)
      ensures old(activePointers) != [] ==>
        && SignalsOf(pointerPositions, meanPointer, pointerSpread, endToEndVector)
        && lastMeanPointer == meanPointer
        && lastPointerSpread == pointerSpread
        && lastEndToEndVector == endToEndVector
        && !skip1Frame
      ensures old(activePointers) != [] && old(skip1Frame) ==>
        && viewPos == old(viewPos)
        && shouldRedraw == old(shouldRedraw)
        && modelRotations == old(modelRotations)
      ensures old(activePointers) != [] && !old(skip1Frame) ==>
        && shouldRedraw
        && viewPos == Scale(old(viewPos), ZoomFactor((old(lastPointerSpread) - pointerSpread) * 2.4))
        && modelRotations == old(modelRotations) + [ModelRotation(
             PanAxis(Sub(meanPointer, old(lastMeanPointer))), old(lastEndToEndVector), endToEndVector)]
    {
      if activePointers == [] {
        return;
      }
      SetPointerMeanAndSpread();
      if !skip1Frame {
        ApplyGesture();
      }
      RollSignals();
    }

    /** The body of `panAndZoom` for a frame that is not skipped. */
    method ApplyGesture()
      modifies this`shouldRedraw, this`viewPos, this`modelRotations
      ensures shouldRedraw
      ensures viewPos == Scale(old(viewPos), ZoomFactor((lastPointerSpread - pointerSpread) * 2.4))
      ensures modelRotations == old(modelRotations) + [ModelRotation(
        PanAxis(Sub(meanPointer, lastMeanPointer)), lastEndToEndVector, endToEndVector)]
    {
      var axis := PanAxis(Sub(meanPointer, lastMeanPointer));
      // the pinch calls `wheel` with an event that has no target, which is never
      // inside the scrollable UI, so it always zooms
      var _ := Wheel(false, false, (lastPointerSpread - pointerSpread) * 2.4);
      modelRotations := modelRotations + [ModelRotation(axis, lastEndToEndVector, endToEndVector)];
      shouldRedraw := true;
    }

    /** The end of `panAndZoom`: the current signals become the last ones. */
    method RollSignals()
      modifies this`lastMeanPointer, this`lastPointerSpread, this`lastEndToEndVector, this`skip1Frame
      ensures lastMeanPointer == meanPointer
      ensures lastPointerSpread == pointerSpread
      ensures lastEndToEndVector == endToEndVector
      ensures !skip1Frame
    {
      lastMeanPointer := meanPointer;
      lastPointerSpread := pointerSpread;
      lastEndToEndVector := endToEndVector;
      skip1Frame := false;
    }
  }

  /** A pointer pressed and lifted again, while it was not already active, leaves
      the tracker's pointers as they were, whether the press was taken or not, and
      leaves the next frame to be skipped. */
  method PressAndLift(c: Controls, id: PointerId, pageX: real, pageY: real, inScrollUi: bool, isControl: bool, overGeometry: bool)
    requires c.Valid() && id !in c.activePointers
    modifies c
    ensures c.Valid()
    ensures c.activePointers == old(c.activePointers)
    ensures c.pointerPositions == old(c.pointerPositions)
    ensures c.skip1Frame
    ensures c.viewPos == old(c.viewPos) && c.modelRotations == old(c.modelRotations)
    ensures c.shouldRedraw == old(c.shouldRedraw)
  {
    ghost var ids, positions := c.activePointers, c.pointerPositions;
    var handled := c.PointerDown(id, pageX, pageY, inScrollUi, isControl, overGeometry);
    c.PointerUp(id);
    if handled {
      AddThenRemoveRestores(ids, positions, id, Vec3(pageX, -pageY, 0.0));
    } else {
      WithoutAbsent(ids, id);
    }
  }

  /** A tap on an idle canvas: after the press and the lift no pointer is active,
      and the next frame changes neither the view nor the model. */
  method TapOnIdleCanvas(c: Controls, id: PointerId, pageX: real, pageY: real, inScrollUi: bool, isControl: bool, overGeometry: bool)
    requires c.Valid() && c.activePointers == []
    modifies c
    ensures c.activePointers == [] && c.pointerPositions == map[]
    ensures c.viewPos == old(c.viewPos) && c.modelRotations == old(c.modelRotations)
    ensures c.shouldRedraw == old(c.shouldRedraw)
  {
    PressAndLift(c, id, pageX, pageY, inScrollUi, isControl, overGeometry);
    assert c.pointerPositions.Keys == {};
    c.PanAndZoom();
  }
}
