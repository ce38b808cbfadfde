/** `AxesPanZoom`: drives an `AxesDisplay` from mouse events. A button
  * press records where it happened and the limits at that moment, a drag
  * shifts the limits so that the data follows the cursor, a release ends
  * the drag, and the scroll wheel zooms about the point under the cursor.
  * Mouse positions are in the viewport's NDC; floats are reals. */
module AxesPanZooms {
  import opened Wrappers
  import opened Events
  import opened PyLists
  import opened AxesDisplays

  /** The part of a mouse event the handlers read: the cursor position in
    * NDC and the scroll steps (positive for up). */
  datatype MouseEvent = MouseEvent(xNdc: real, yNdc: real, scrollSteps: real)

  /** The four handlers of a pan-zoom controller. */
  datatype HandlerKind = OnButtonPress | OnButtonRelease | OnButtonMove | OnMouseScroll

  /** A subscriber of a mouse event: a handler bound to its controller, as
    * Python's bound methods compare, or any other listener. */
  datatype MouseCallback = Bound(owner: AxesPanZoom, kind: HandlerKind) | Other(name: string)

  /** The mouse events of a `ViewportEventsBase`, each its own `Event`. */
  class ViewportEvents {
    const buttonPressEvent: Event<MouseCallback>
    const buttonReleaseEvent: Event<MouseCallback>
    const mouseMoveEvent: Event<MouseCallback>
    const mouseScrollEvent: Event<MouseCallback>

    ghost predicate Valid()
    {
      buttonPressEvent != buttonReleaseEvent && buttonPressEvent != mouseMoveEvent
      && buttonPressEvent != mouseScrollEvent && buttonReleaseEvent != mouseMoveEvent
      && buttonReleaseEvent != mouseScrollEvent && mouseMoveEvent != mouseScrollEvent
    }

    constructor()
      ensures Valid()
      ensures fresh(buttonPressEvent) && fresh(buttonReleaseEvent) && fresh(mouseMoveEvent) && fresh(mouseScrollEvent)
      ensures buttonPressEvent.callbacks == [] && buttonReleaseEvent.callbacks == []
      ensures mouseMoveEvent.callbacks == [] && mouseScrollEvent.callbacks == []
    {
      buttonPressEvent := new Event<MouseCallback>();
      buttonReleaseEvent := new Event<MouseCallback>();
      mouseMoveEvent := new Event<MouseCallback>();
      mouseScrollEvent := new Event<MouseCallback>();
    }
  }

  // ---------------------------------------------------------------------
  // Pan

  /** New limits of one axis after a drag of `deltaNdc` from the press
    * point: the snapshot shifted against the drag by the same fraction of
    * its width. */
  function PanLimits(lo: real, hi: real, deltaNdc: real): (real, real)
  {
    (lo - (deltaNdc / 2.0) * (hi - lo), hi - (deltaNdc / 2.0) * (hi - lo))
  }

  /** A pan keeps the width of the range, hence a valid range stays valid. */
  lemma PanKeepsWidth(lo: real, hi: real, deltaNdc: real)
    ensures PanLimits(lo, hi, deltaNdc).1 - PanLimits(lo, hi, deltaNdc).0 == hi - lo
    ensures lo < hi ==> PanLimits(lo, hi, deltaNdc).0 < PanLimits(lo, hi, deltaNdc).1
  {
  }

  /** The data under the cursor at the press stays under the cursor: a
    * value at NDC position p in the snapshot range is at p + delta in the
    * panned range. */
  lemma PanFollowsCursor(lo: real, hi: real, deltaNdc: real, v: real)
    requires lo < hi
    ensures PanLimits(lo, hi, deltaNdc).0 < PanLimits(lo, hi, deltaNdc).1
    ensures DataToNdc(v, PanLimits(lo, hi, deltaNdc).0, PanLimits(lo, hi, deltaNdc).1)
            == DataToNdc(v, lo, hi) + deltaNdc
  {
    var w := hi - lo;
    var shift := (deltaNdc / 2.0) * w;
    var (a, b) := PanLimits(lo, hi, deltaNdc);
    assert b - a == w && (b + a) / 2.0 == (hi + lo) / 2.0 - shift;
    calc {
      DataToNdc(v, a, b);
      (v - (hi + lo) / 2.0 + shift) * (2.0 / w);
      (v - (hi + lo) / 2.0) * (2.0 / w) + shift * (2.0 / w);
      { assert shift * (2.0 / w) == deltaNdc * (w / w); }
      DataToNdc(v, lo, hi) + deltaNdc;
    }
  }

  // ---------------------------------------------------------------------
  // Zoom

  /** `1 / base_scale` for a scroll up (or no scroll), `base_scale` for a
    * scroll down; the division fails on a zero scale. */
  function ScaleFactor(baseScale: real, scrollSteps: real): (r: Result<real>)
    ensures r.Err? <==> scrollSteps >= 0.0 && baseScale == 0.0
    ensures r.Err? ==> r.error == ZeroDivisionError
    ensures r.Ok? && scrollSteps >= 0.0 ==> r.value * baseScale == 1.0
    ensures scrollSteps < 0.0 ==> r == Ok(baseScale)
    ensures r.Ok? ==> (r.value > 0.0 <==> baseScale > 0.0)
  {
    if scrollSteps >= 0.0 then
      if baseScale == 0.0 then Err(ZeroDivisionError) else Ok(1.0 / baseScale)
    else Ok(baseScale)
  }

  /** The data value under the cursor at NDC position `ndc`. */
  function CursorData(lo: real, hi: real, ndc: real): real
  {
    lo + (ndc + 1.0) / 2.0 * (hi - lo)
  }

  /** New limits of one axis after zooming by `factor` about the cursor. */
  function ZoomLimits(lo: real, hi: real, ndc: real, factor: real): (real, real)
    requires lo < hi
  {
    var mouse := CursorData(lo, hi, ndc);
    var newWidth := (hi - lo) * factor;
    var relative := (hi - mouse) / (hi - lo);
    (mouse - newWidth * (1.0 - relative), mouse + newWidth * relative)
  }

  /** A zoom scales the width by the factor, so the range stays valid
    * exactly when the factor is positive. */
  lemma ZoomScalesWidth(lo: real, hi: real, ndc: real, factor: real)
    requires lo < hi
    ensures ZoomLimits(lo, hi, ndc, factor).1 - ZoomLimits(lo, hi, ndc, factor).0 == (hi - lo) * factor
    ensures ZoomLimits(lo, hi, ndc, factor).0 < ZoomLimits(lo, hi, ndc, factor).1 <==> factor > 0.0
  {
    var mouse := CursorData(lo, hi, ndc);
    var newWidth := (hi - lo) * factor;
    var relative := (hi - mouse) / (hi - lo);
    assert (mouse + newWidth * relative) - (mouse - newWidth * (1.0 - relative)) == newWidth;
    if factor > 0.0 {
      assert newWidth > 0.0;
    } else {
      assert newWidth <= 0.0;
    }
  }

  /** The cursor's data value lies where it did before the zoom: at the
    * same NDC position of the new range. */
  lemma ZoomKeepsCursor(lo: real, hi: real, ndc: real, factor: real)
    requires lo < hi && factor > 0.0
    ensures ZoomLimits(lo, hi, ndc, factor).0 < ZoomLimits(lo, hi, ndc, factor).1
    ensures DataToNdc(CursorData(lo, hi, ndc), ZoomLimits(lo, hi, ndc, factor).0, ZoomLimits(lo, hi, ndc, factor).1) == ndc
  {
    ZoomScalesWidth(lo, hi, ndc, factor);
    var w := hi - lo;
    var mouse := CursorData(lo, hi, ndc);
    var newWidth := w * factor;
    var relative := (hi - mouse) / w;
    var (a, b) := ZoomLimits(lo, hi, ndc, factor);
    assert hi - mouse == (1.0 - ndc) / 2.0 * w;
    assert relative == (1.0 - ndc) / 2.0 by {
      assert (hi - mouse) / w == ((1.0 - ndc) / 2.0) * (w / w);
    }
    assert (b + a) / 2.0 == mouse + newWidth * (relative - 0.5);
    assert b - a == newWidth;
    calc {
      DataToNdc(mouse, a, b);
      (mouse - (b + a) / 2.0) * (2.0 / (b - a));
      (-newWidth * (relative - 0.5)) * (2.0 / newWidth);
      { assert newWidth * (2.0 / newWidth) == 2.0; }
      -(relative - 0.5) * 2.0;
      ndc;
    }
  }

  /** The snapshot limits and press position of a drag. */
  datatype Drag = Drag(xNdc: real, yNdc: real, xMin: real, xMax: real, yMin: real, yMax: real)

  class AxesPanZoom {
    const viewportEvents: ViewportEvents
    const baseScale: real
    const axesDisplay: AxesDisplay
    var buttonPressXNdc: Option<real>
    var buttonPressYNdc: Option<real>
    var xMinDunit: Option<real>
    var xMaxDunit: Option<real>
    var yMinDunit: Option<real>
    var yMaxDunit: Option<real>

    /** The six drag fields, when all are set. */
    function Pressed(): (d: Option<Drag>)
      reads this
      ensures d.Some? <==> (buttonPressXNdc.Some? && buttonPressYNdc.Some? && xMinDunit.Some?
                            && xMaxDunit.Some? && yMinDunit.Some? && yMaxDunit.Some?)
    {
      if buttonPressXNdc.Some? && buttonPressYNdc.Some? && xMinDunit.Some? && xMaxDunit.Some?
         && yMinDunit.Some? && yMaxDunit.Some?
      then Some(Drag(buttonPressXNdc.value, buttonPressYNdc.value, xMinDunit.value, xMaxDunit.value,
                     yMinDunit.value, yMaxDunit.value))
      else None
    }

    /** The handlers set and clear the six drag fields together, and a
      * snapshot is a pair of valid ranges. */
    ghost predicate Valid()
      reads this
    {
      (Pressed().Some? && Pressed().value.xMin < Pressed().value.xMax && Pressed().value.yMin < Pressed().value.yMax)
      || (buttonPressXNdc.None? && buttonPressYNdc.None? && xMinDunit.None? && xMaxDunit.None?
          && yMinDunit.None? && yMaxDunit.None?)
    }

    /** `__init__`: no drag, and the four handlers subscribed, each to its
      * own event. */
    constructor(viewportEvents: ViewportEvents, baseScale: real, axesDisplay: AxesDisplay)
      requires viewportEvents.Valid()
      modifies viewportEvents.buttonPressEvent, viewportEvents.buttonReleaseEvent
      modifies viewportEvents.mouseMoveEvent, viewportEvents.mouseScrollEvent
      ensures Valid() && Pressed().None?
      ensures this.viewportEvents == viewportEvents && this.baseScale == baseScale && this.axesDisplay == axesDisplay
      ensures viewportEvents.buttonPressEvent.callbacks
              == old(viewportEvents.buttonPressEvent.callbacks) + [Bound(this, OnButtonPress)]
      ensures viewportEvents.buttonReleaseEvent.callbacks
              == old(viewportEvents.buttonReleaseEvent.callbacks) + [Bound(this, OnButtonRelease)]
      ensures viewportEvents.mouseMoveEvent.callbacks
              == old(viewportEvents.mouseMoveEvent.callbacks) + [Bound(this, OnButtonMove)]
      ensures viewportEvents.mouseScrollEvent.callbacks
              == old(viewportEvents.mouseScrollEvent.callbacks) + [Bound(this, OnMouseScroll)]
    {
      this.viewportEvents := viewportEvents;
      this.baseScale := baseScale;
      this.axesDisplay := axesDisplay;
      buttonPressXNdc, buttonPressYNdc := None, None;
      xMinDunit, xMaxDunit, yMinDunit, yMaxDunit := None, None, None, None;
      new;
      viewportEvents.buttonPressEvent.Subscribe(Bound(this, OnButtonPress));
      viewportEvents.buttonReleaseEvent.Subscribe(Bound(this, OnButtonRelease));
      viewportEvents.mouseMoveEvent.Subscribe(Bound(this, OnButtonMove));
      viewportEvents.mouseScrollEvent.Subscribe(Bound(this, OnMouseScroll));
    }

    /** `close`: unsubscribes the four handlers in order; the first one
      * missing raises ValueError and the later events keep theirs. */
    method Close() returns (r: Result<()>)
      requires viewportEvents.Valid()
      modifies viewportEvents.buttonPressEvent, viewportEvents.buttonReleaseEvent
      modifies viewportEvents.mouseMoveEvent, viewportEvents.mouseScrollEvent
      ensures
        var press := Bound(this, OnButtonPress) in old(viewportEvents.buttonPressEvent.callbacks);
        var release := press && Bound(this, OnButtonRelease) in old(viewportEvents.buttonReleaseEvent.callbacks);
        var move := release && Bound(this, OnButtonMove) in old(viewportEvents.mouseMoveEvent.callbacks);
        var scroll := move && Bound(this, OnMouseScroll) in old(viewportEvents.mouseScrollEvent.callbacks);
        (r.Ok? <==> scroll)
        && (r.Err? ==> r.error == ValueError)
        && viewportEvents.buttonPressEvent.callbacks
           == (if press then RemoveFirst(old(viewportEvents.buttonPressEvent.callbacks), Bound(this, OnButtonPress))
               else old(viewportEvents.buttonPressEvent.callbacks))
        && viewportEvents.buttonReleaseEvent.callbacks
           == (if release then RemoveFirst(old(viewportEvents.buttonReleaseEvent.callbacks), Bound(this, OnButtonRelease))
               else old(viewportEvents.buttonReleaseEvent.callbacks))
        && viewportEvents.mouseMoveEvent.callbacks
           == (if move then RemoveFirst(old(viewportEvents.mouseMoveEvent.callbacks), Bound(this, OnButtonMove))
               else old(viewportEvents.mouseMoveEvent.callbacks))
        && viewportEvents.mouseScrollEvent.callbacks
           == (if scroll then RemoveFirst(old(viewportEvents.mouseScrollEvent.callbacks), Bound(this, OnMouseScroll))
               else old(viewportEvents.mouseScrollEvent.callbacks))
    {
      r := viewportEvents.buttonPressEvent.Unsubscribe(Bound(this, OnButtonPress));
      if r.Err? {
        return;
      }
      r := viewportEvents.buttonReleaseEvent.Unsubscribe(Bound(this, OnButtonRelease));
      if r.Err? {
        return;
      }
      r := viewportEvents.mouseMoveEvent.Unsubscribe(Bound(this, OnButtonMove));
      if r.Err? {
        return;
      }
      r := viewportEvents.mouseScrollEvent.Unsubscribe(Bound(this, OnMouseScroll));
    }

    /** `_on_button_press`: records the press position and the display's
      * current limits. */
    method HandleButtonPress(e: MouseEvent)
      requires axesDisplay.Valid()
      modifies this
      ensures Valid()
      ensures Pressed() == Some(Drag(e.xNdc, e.yNdc, axesDisplay.xMin, axesDisplay.xMax, axesDisplay.yMin, axesDisplay.yMax))
    {
      buttonPressXNdc, buttonPressYNdc := Some(e.xNdc), Some(e.yNdc);
      var (x0, x1, y0, y1) := axesDisplay.GetLimitsDunit();
      xMinDunit, xMaxDunit, yMinDunit, yMaxDunit := Some(x0), Some(x1), Some(y0), Some(y1);
    }

    /** `_on_button_release`: forgets the drag. */
    method HandleButtonRelease(e: MouseEvent)
      modifies this
      ensures Valid()
      ensures buttonPressXNdc.None? && buttonPressYNdc.None?
      ensures xMinDunit.None? && xMaxDunit.None? && yMinDunit.None? && yMaxDunit.None?
    {
      buttonPressXNdc, buttonPressYNdc := None, None;
      xMinDunit, xMaxDunit, yMinDunit, yMaxDunit := None, None, None, None;
    }

    /** `_on_button_move`: without a drag nothing happens (no calls);
      * otherwise the snapshot ranges are panned by the cursor's NDC offset
      * from the press and handed to `set_limits_dunit`, whose outcome and
      * listener calls are returned. */
    method HandleButtonMove(e: MouseEvent, newUuids: seq<string>) returns (r: Result<seq<Call<Callback, ()>>>)
      requires Valid() && axesDisplay.Valid() && |newUuids| == 5
      modifies axesDisplay
      ensures axesDisplay.Valid()
      ensures Pressed().None? ==> r == Ok([]) && axesDisplay.GetLimitsDunit() == old(axesDisplay.GetLimitsDunit())
                                  && axesDisplay.Items() == old(axesDisplay.Items())
      ensures Pressed().Some? ==>
        var d := Pressed().value;
        var (x0, x1) := PanLimits(d.xMin, d.xMax, e.xNdc - d.xNdc);
        var (y0, y1) := PanLimits(d.yMin, d.yMax, e.yNdc - d.yNdc);
        axesDisplay.GetLimitsDunit() == (x0, x1, y0, y1)
        && axesDisplay.Items()
           == old(BuiltItems(axesDisplay.innerViewport, axesDisplay.outerUnit, x0, x1, y0, y1, axesDisplay.Items(), newUuids))
        && (r.Ok? <==> old(BuildOk(axesDisplay.outerUnit, x0, x1, y0, y1)))
        && (r.Err? ==> r.error == old(BuildError(axesDisplay.outerUnit, x0, x1, y0, y1)))
        && (r.Ok? ==> Callees(r.value) == axesDisplay.newLimitsEvent.callbacks)
    {
      var pressed := Pressed();
      if pressed.None? {
        return Ok([]);
      }
      var d := pressed.value;
      var deltaX := e.xNdc - d.xNdc;
      var deltaY := e.yNdc - d.yNdc;
      var (x0, x1) := PanLimits(d.xMin, d.xMax, deltaX);
      var (y0, y1) := PanLimits(d.yMin, d.yMax, deltaY);
      PanKeepsWidth(d.xMin, d.xMax, deltaX);
      PanKeepsWidth(d.yMin, d.yMax, deltaY);
      r := axesDisplay.SetLimitsDunit(x0, x1, y0, y1, newUuids);
    }

    /** `_on_mouse_scroll`: zooms both ranges about the cursor by the
      * scroll factor. A zero scale fails on a scroll up before anything
      * changes; a non-positive factor leaves a range empty or reversed, which
      * `set_limits_dunit` refuses with AssertionError. */
    method HandleMouseScroll(e: MouseEvent, newUuids: seq<string>) returns (r: Result<seq<Call<Callback, ()>>>)
      requires axesDisplay.Valid() && |newUuids| == 5
      modifies axesDisplay
      ensures axesDisplay.Valid()
      ensures ScaleFactor(baseScale, e.scrollSteps).Err? ==>
        r == Err(ZeroDivisionError) && axesDisplay.GetLimitsDunit() == old(axesDisplay.GetLimitsDunit())
        && axesDisplay.Items() == old(axesDisplay.Items())
      ensures ScaleFactor(baseScale, e.scrollSteps).Ok? && !(baseScale > 0.0) ==>
        r == Err(AssertionError) && axesDisplay.GetLimitsDunit() == old(axesDisplay.GetLimitsDunit())
        && axesDisplay.Items() == old(axesDisplay.Items())
      ensures baseScale > 0.0 ==>
        var factor := ScaleFactor(baseScale, e.scrollSteps).value;
        var (x0, x1) := ZoomLimits(old(axesDisplay.xMin), old(axesDisplay.xMax), e.xNdc, factor);
        var (y0, y1) := ZoomLimits(old(axesDisplay.yMin), old(axesDisplay.yMax), e.yNdc, factor);
        axesDisplay.GetLimitsDunit() == (x0, x1, y0, y1)
        && axesDisplay.Items()
           == old(BuiltItems(axesDisplay.innerViewport, axesDisplay.outerUnit, x0, x1, y0, y1, axesDisplay.Items(), newUuids))
        && (r.Ok? <==> old(BuildOk(axesDisplay.outerUnit, x0, x1, y0, y1)))
        && (r.Err? ==> r.error == old(BuildError(axesDisplay.outerUnit, x0, x1, y0, y1)))
      ensures r.Ok? ==> Callees(r.value) == axesDisplay.newLimitsEvent.callbacks
    {
      var factorResult := ScaleFactor(baseScale, e.scrollSteps);
      if factorResult.Err? {
        return Err(factorResult.error);
      }
      var factor := factorResult.value;
      var (xMin, xMax, yMin, yMax) := axesDisplay.GetLimitsDunit();
      var (x0, x1) := ZoomLimits(xMin, xMax, e.xNdc, factor);
      var (y0, y1) := ZoomLimits(yMin, yMax, e.yNdc, factor);
      ZoomScalesWidth(xMin, xMax, e.xNdc, factor);
      ZoomScalesWidth(yMin, yMax, e.yNdc, factor);
      r := axesDisplay.SetLimitsDunit(x0, x1, y0, y1, newUuids);
    }
  }

  /** Opening a controller on events that do not hold its handlers and
    * closing it again succeeds and leaves every event as it was. */
  method OpenThenClose(viewportEvents: ViewportEvents, baseScale: real, axesDisplay: AxesDisplay)
    returns (panZoom: AxesPanZoom, r: Result<()>)
    requires viewportEvents.Valid()
    modifies viewportEvents.buttonPressEvent, viewportEvents.buttonReleaseEvent
    modifies viewportEvents.mouseMoveEvent, viewportEvents.mouseScrollEvent
    ensures r.Ok?
    ensures viewportEvents.buttonPressEvent.callbacks == old(viewportEvents.buttonPressEvent.callbacks)
    ensures viewportEvents.buttonReleaseEvent.callbacks == old(viewportEvents.buttonReleaseEvent.callbacks)
    ensures viewportEvents.mouseMoveEvent.callbacks == old(viewportEvents.mouseMoveEvent.callbacks)
    ensures viewportEvents.mouseScrollEvent.callbacks == old(viewportEvents.mouseScrollEvent.callbacks)
  {
    panZoom := new AxesPanZoom(viewportEvents, baseScale, axesDisplay);
    assert Bound(panZoom, OnButtonPress) !in old(viewportEvents.buttonPressEvent.callbacks);
    RemoveAppended(old(viewportEvents.buttonPressEvent.callbacks), Bound(panZoom, OnButtonPress));
    RemoveAppended(old(viewportEvents.buttonReleaseEvent.callbacks), Bound(panZoom, OnButtonRelease));
    RemoveAppended(old(viewportEvents.mouseMoveEvent.callbacks), Bound(panZoom, OnButtonMove));
    RemoveAppended(old(viewportEvents.mouseScrollEvent.callbacks), Bound(panZoom, OnMouseScroll));
    r := panZoom.Close();
  }
}
