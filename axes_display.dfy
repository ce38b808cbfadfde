/** `AxesDisplay`: draws axes around an inner viewport. It holds the data
  * limits of both axes and five render items rebuilt whenever the limits
  * change: the two axis lines, the tick segments and the tick labels of
  * each axis, all drawn in an outer viewport that covers the canvas. The
  * geometry is computed over reals; the render items carry the visual's
  * element sequences rather than encoded buffers. */
module AxesDisplays {
  import opened Wrappers
  import opened PyLists
  import opened Canvases
  import opened Viewports
  import opened Styles
  import opened Events
  import UnitUtils
  import Uuids
  import opened ViewportUnitUtils

  type Vec3 = (real, real, real)
  type Rgba = (int, int, int, int)

  /** `Constants.Color.black`. */
  const Black: Rgba := (0, 0, 0, 255)
  const FontName := "Arial"

  /** A new-limits listener, named by an identifier. */
  type Callback = string

  // ---------------------------------------------------------------------
  // Tick selection

  /** `math.ceil`. */
  function Ceil(x: real): (c: int)
    ensures x <= c as real < x + 1.0
  {
    if x.Floor as real == x then x.Floor else x.Floor + 1
  }

  /** The integers k in [first, end) with k <= max, ascending: what the
    * tick loops keep of `range(first, end)`. */
  function TicksBelow(first: int, end: int, max: real): seq<int>
    decreases end - first
  {
    if end <= first then []
    else TicksBelow(first, end - 1, max) + (if (end - 1) as real <= max then [end - 1] else [])
  }

  lemma {:induction false} TicksBelowExact(first: int, end: int, max: real)
    ensures forall k :: k in TicksBelow(first, end, max) <==> first <= k < end && k as real <= max
    ensures forall i :: 0 <= i < |TicksBelow(first, end, max)| ==> TicksBelow(first, end, max)[i] == first + i
    ensures end > first && (end - 1) as real <= max ==> |TicksBelow(first, end, max)| == end - first
    decreases end - first
  {
    if end > first {
      TicksBelowExact(first, end - 1, max);
    }
  }

  /** The tick values of an axis with limits [min, max]. */
  function Ticks(min: real, max: real): seq<int>
  {
    TicksBelow(Ceil(min), Ceil(max) + 1, max)
  }

  /** The ticks are exactly the integers from ceil(min) up to max, each
    * once, in ascending order. */
  lemma TicksExact(min: real, max: real)
    ensures forall k :: k in Ticks(min, max) <==> Ceil(min) <= k && k as real <= max
    ensures forall i :: 0 <= i < |Ticks(min, max)| ==> Ticks(min, max)[i] == Ceil(min) + i
  {
    TicksBelowExact(Ceil(min), Ceil(max) + 1, max);
  }

  /** An integer kept by the tick loops makes the tick list non-empty. */
  lemma TickMakesTicksNonEmpty(min: real, max: real, k: int)
    requires Ceil(min) <= k && k as real <= max
    ensures Ticks(min, max) != []
  {
    TicksExact(min, max);
    assert k in Ticks(min, max);
  }

  /** Python's `f"{k}"` for an integer. */
  function IntString(k: int): (s: string)
    ensures |s| > 0
  {
    if k < 0 then "-" + Uuids.Decimal(-k) else Uuids.Decimal(k)
  }

  /** Reads a label back. */
  function ParseInt(s: string): Option<int>
  {
    if |s| > 0 && s[0] == '-' then Negated(Uuids.ParseDecimal(s[1..]))
    else Widened(Uuids.ParseDecimal(s))
  }

  function Negated(n: Option<nat>): Option<int>
  {
    if n.Some? then Some(0 - n.value) else None
  }

  function Widened(n: Option<nat>): Option<int>
  {
    if n.Some? then Some(n.value) else None
  }

  /** A run of digits reads back with or without a minus sign. */
  lemma ParseSigned(d: string, n: nat)
    requires |d| > 0 && '0' <= d[0] <= '9' && Uuids.ParseDecimal(d) == Some(n)
    ensures ParseInt(d) == Some(n)
    ensures ParseInt(['-'] + d) == Some(0 - n)
  {
    var s := ['-'] + d;
    assert s[0] == '-' && s[1..] == d;
    assert Uuids.ParseDecimal(s[1..]) == Some(n);
    assert ParseInt(s) == Negated(Some(n)) == Some(0 - n);
    assert ParseInt(d) == Widened(Some(n));
  }

  lemma ParseIntOfIntString(k: int)
    ensures ParseInt(IntString(k)) == Some(k)
  {
    var m := if k < 0 then -k else k;
    Uuids.ParseDecimalOfDecimal(m);
    ParseSigned(Uuids.Decimal(m), m);
  }

  /** Different ticks get different labels. */
  lemma IntStringInjective(a: int, b: int)
    requires IntString(a) == IntString(b)
    ensures a == b
  {
    ParseIntOfIntString(a);
    ParseIntOfIntString(b);
  }

  // ---------------------------------------------------------------------
  // Placement

  /** The pixel offset, inside an outer viewport, of data value v on an
    * axis whose inner viewport spans [offset, offset + size] pixels. */
  function Interp(offset: real, size: real, v: real, lo: real, hi: real): real
    requires lo < hi
  {
    offset + (v - lo) / (hi - lo) * size
  }

  /** A pixel offset inside an outer viewport of the given extent, in NDC. */
  function ToNdc(pixel: real, extent: real): real
    requires extent != 0.0
  {
    -1.0 + 2.0 * pixel / extent
  }

  /** The axis limits fall on the edges of the inner viewport. */
  lemma LimitsOnEdges(offset: real, size: real, lo: real, hi: real, extent: real)
    requires lo < hi && extent != 0.0
    ensures ToNdc(Interp(offset, size, lo, lo, hi), extent) == ToNdc(offset, extent)
    ensures ToNdc(Interp(offset, size, hi, lo, hi), extent) == ToNdc(offset + size, extent)
  {
    assert (hi - lo) / (hi - lo) == 1.0;
  }

  /** Where a horizontal tick for value v touches the bottom of the inner
    * viewport, in the outer viewport's NDC. */
  function HorizontalAnchor(inner: Viewport, outer: Viewport, v: real, lo: real, hi: real): (real, real)
    reads inner, outer
    requires lo < hi && outer.width != 0 && outer.height != 0
  {
    (ToNdc(Interp(inner.x as real, inner.width as real, v, lo, hi), outer.width as real),
     ToNdc(inner.y as real, outer.height as real))
  }

  /** Where a vertical tick for value v would touch the left side of the
    * inner viewport with each pixel offset converted along its own axis: x
    * over the outer width, y over the outer height. The axis lines use this
    * conversion; the vertical generators do not (VerticalAnchorAsWritten). */
  function VerticalAnchor(inner: Viewport, outer: Viewport, v: real, lo: real, hi: real): (real, real)
    reads inner, outer
    requires lo < hi && outer.width != 0 && outer.height != 0
  {
    (ToNdc(inner.x as real, outer.width as real),
     ToNdc(Interp(inner.y as real, inner.height as real, v, lo, hi), outer.height as real))
  }

  /** The vertical tick position as `_generate_ticks_vertical` and
    * `_generate_texts_vertical` compute it: the y pixel offset goes through
    * the x component of `delta_pixel_to_ndc` (divided by the outer width)
    * and the x pixel offset through the y component (divided by the outer
    * height). */
  function VerticalAnchorAsWritten(innerX: real, innerY: real, innerHeight: real,
                                   outerWidth: real, outerHeight: real, v: real, lo: real, hi: real): (real, real)
    requires lo < hi && outerWidth != 0.0 && outerHeight != 0.0
  {
    (ToNdc(innerX, outerHeight), ToNdc(Interp(innerY, innerHeight, v, lo, hi), outerWidth))
  }

  /** On a 200 x 100 canvas whose inner viewport fills it, the tick at the
    * top limit lands at mid-height instead of at the top edge. */
  lemma VerticalAnchorAsWrittenMisplaced()
    ensures VerticalAnchorAsWritten(0.0, 0.0, 100.0, 200.0, 100.0, 1.0, -1.0, 1.0).1 == 0.0
    ensures ToNdc(Interp(0.0, 100.0, 1.0, -1.0, 1.0), 100.0) == 1.0
  {
  }

  /** An offset lands on the same NDC coordinate over two extents exactly
    * when the extents are equal, unless the offset is zero. */
  lemma ToNdcSameExtent(pixel: real, w: real, h: real)
    requires w != 0.0 && h != 0.0 && pixel != 0.0
    ensures ToNdc(pixel, w) == ToNdc(pixel, h) <==> w == h
  {
    if ToNdc(pixel, w) == ToNdc(pixel, h) {
      assert 2.0 * pixel / w == 2.0 * pixel / h;
      assert 2.0 * pixel == 2.0 * pixel / h * w;
      assert 2.0 * pixel / h * h == 2.0 * pixel / h * w;
    }
  }

  /** The vertical generators put every tick where the corrected anchor
    * does exactly when the outer viewport is square, for an inner viewport
    * off the outer viewport's left edge. */
  lemma VerticalAnchorsAgree(inner: Viewport, outer: Viewport, lo: real, hi: real)
    requires lo < hi && outer.width != 0 && outer.height != 0 && inner.x != 0
    ensures (forall v: real :: VerticalAnchorAsWritten(inner.x as real, inner.y as real, inner.height as real,
                                                       outer.width as real, outer.height as real, v, lo, hi)
                               == VerticalAnchor(inner, outer, v, lo, hi))
            <==> outer.width == outer.height
  {
    var w, h := outer.width as real, outer.height as real;
    ToNdcSameExtent(inner.x as real, w, h);
    if forall v: real :: VerticalAnchorAsWritten(inner.x as real, inner.y as real, inner.height as real, w, h, v, lo, hi)
                         == VerticalAnchor(inner, outer, v, lo, hi) {
      assert VerticalAnchorAsWritten(inner.x as real, inner.y as real, inner.height as real, w, h, lo, lo, hi).0
             == VerticalAnchor(inner, outer, lo, lo, hi).0;
    }
  }

  /** A converter's x component, shifted to the outer viewport's NDC. */
  lemma NdcOfDelta(d: real, pixel: real, extent: real)
    requires extent != 0.0 && d * extent == 2.0 * pixel
    ensures d - 1.0 == ToNdc(pixel, extent)
  {
    assert d == 2.0 * pixel / extent;
  }

  /** Undoing the data-to-NDC step of the tick loops. */
  lemma InnerNdcFraction(v: real, lo: real, hi: real)
    requires lo < hi
    ensures (((v - lo) / (hi - lo) * 2.0 - 1.0) + 1.0) / 2.0 == (v - lo) / (hi - lo)
  {
  }

  // ---------------------------------------------------------------------
  // Generated visuals

  /** The part of a `Segments` or `Texts` visual the axes set; buffers are
    * given by their elements. */
  datatype AxesVisual =
    | SegmentsVisual(uuid: string, positions: seq<Vec3>, lineWidths: seq<real>, capStyle: CapStyle, colors: seq<Rgba>)
    | TextsVisual(uuid: string, positions: seq<Vec3>, strings: seq<string>, colors: seq<Rgba>,
                  fontSizes: seq<real>, anchors: seq<(real, real)>, angles: seq<real>, fontName: string)

  /** `RenderItem(viewport, visual, ...)`; the model matrix and the camera
    * are identities and are not part of this model. */
  datatype RenderItem = RenderItem(viewport: Viewport, visual: AxesVisual)

  /** Every conversion of the outer converter has a non-zero divisor. */
  predicate Convertible(outer: ViewportUnitConverter)
    reads outer.canvas, outer.viewport
  {
    outer.canvas.width != 0 && outer.canvas.height != 0 && outer.canvas.dpi != 0.0
    && outer.viewport.width != 0 && outer.viewport.height != 0
  }

  /** A tick or label generator succeeds: the axis has at least one tick
    * (`Bufferx.from_numpy` asserts an (n, 3) array, and the positions of no
    * tick make a one-dimensional empty array) and every conversion has a
    * non-zero divisor. */
  predicate AxisOk(outer: ViewportUnitConverter, ticks: seq<int>)
    reads outer.canvas, outer.viewport
  {
    ticks != [] && Convertible(outer)
  }

  /** The exception a failing tick or label generator raises: the
    * AssertionError of the empty positions array when the axis has no
    * tick, otherwise the ZeroDivisionError of the first conversion. */
  function AxisError(ticks: seq<int>): (e: Error)
    ensures e == AssertionError <==> ticks == []
    ensures e == AssertionError || e == ZeroDivisionError
  {
    if ticks == [] then AssertionError else ZeroDivisionError
  }

  function TickLength(outer: ViewportUnitConverter, cm: real, vertical: bool): real
    reads outer.canvas, outer.viewport
    requires Convertible(outer)
  {
    if vertical then outer.DeltaCmToNdc(cm, 0.0).value.0 else outer.DeltaCmToNdc(0.0, cm).value.1
  }

  /** The anchor of tick value k on the chosen axis. */
  function Anchor(inner: Viewport, outer: ViewportUnitConverter, k: int, lo: real, hi: real, vertical: bool): (real, real)
    reads inner, outer.canvas, outer.viewport
    requires lo < hi && Convertible(outer)
  {
    if vertical then
      VerticalAnchorAsWritten(inner.x as real, inner.y as real, inner.height as real,
                              outer.viewport.width as real, outer.viewport.height as real, k as real, lo, hi)
    else HorizontalAnchor(inner, outer.viewport, k as real, lo, hi)
  }

  /** A point `length` NDC units away from the inner viewport: to the left
    * of a vertical axis, below a horizontal one. */
  function Outward(a: (real, real), length: real, vertical: bool): Vec3
  {
    if vertical then (a.0 - length, a.1, 0.0) else (a.0, a.1 - length, 0.0)
  }

  /** The segment of tick k: its anchor on the axis, then its tip 0.2 cm
    * away from the inner viewport. */
  function TickSegment(inner: Viewport, outer: ViewportUnitConverter, k: int, lo: real, hi: real, vertical: bool)
    : seq<Vec3>
    reads inner, outer.canvas, outer.viewport
    requires lo < hi && Convertible(outer)
  {
    var a := Anchor(inner, outer, k, lo, hi, vertical);
    [(a.0, a.1, 0.0), Outward(a, TickLength(outer, 0.2, vertical), vertical)]
  }

  /** Where the label of tick k is anchored: 0.3 cm away from the axis. */
  function LabelPosition(inner: Viewport, outer: ViewportUnitConverter, k: int, lo: real, hi: real, vertical: bool)
    : Vec3
    reads inner, outer.canvas, outer.viewport
    requires lo < hi && Convertible(outer)
  {
    Outward(Anchor(inner, outer, k, lo, hi, vertical), TickLength(outer, 0.3, vertical), vertical)
  }

  /** Two positions per tick, tick after tick. */
  function TickPositions(inner: Viewport, outer: ViewportUnitConverter, ticks: seq<int>, lo: real, hi: real, vertical: bool)
    : (r: seq<Vec3>)
    reads inner, outer.canvas, outer.viewport
    requires lo < hi && (ticks == [] || Convertible(outer))
    ensures |r| == 2 * |ticks|
  {
    if ticks == [] then []
    else
      TickPositions(inner, outer, ticks[..|ticks| - 1], lo, hi, vertical)
      + TickSegment(inner, outer, ticks[|ticks| - 1], lo, hi, vertical)
  }

  /** One position per label. */
  function LabelPositions(inner: Viewport, outer: ViewportUnitConverter, ticks: seq<int>, lo: real, hi: real, vertical: bool)
    : (r: seq<Vec3>)
    reads inner, outer.canvas, outer.viewport
    requires lo < hi && (ticks == [] || Convertible(outer))
    ensures |r| == |ticks|
  {
    if ticks == [] then []
    else
      LabelPositions(inner, outer, ticks[..|ticks| - 1], lo, hi, vertical)
      + [LabelPosition(inner, outer, ticks[|ticks| - 1], lo, hi, vertical)]
  }

  /** Each tick's two positions share the tick's anchor coordinate along
    * the axis; the second is one tick length further out. */
  lemma {:induction false} TickPositionsAt(inner: Viewport, outer: ViewportUnitConverter, ticks: seq<int>,
                                           lo: real, hi: real, vertical: bool, i: int)
    requires lo < hi && Convertible(outer) && 0 <= i < |ticks|
    ensures
      var p := TickPositions(inner, outer, ticks, lo, hi, vertical);
      var a := Anchor(inner, outer, ticks[i], lo, hi, vertical);
      var len := TickLength(outer, 0.2, vertical);
      p[2 * i] == (a.0, a.1, 0.0)
      && p[2 * i + 1] == (if vertical then (a.0 - len, a.1, 0.0) else (a.0, a.1 - len, 0.0))
    decreases |ticks|
  {
    var n := |ticks| - 1;
    if i < n {
      TickPositionsAt(inner, outer, ticks[..n], lo, hi, vertical, i);
      assert ticks[..n][i] == ticks[i];
    }
  }

  function AxesSegmentsVisual(inner: Viewport, outer: ViewportUnitConverter, uuid: string): AxesVisual
    reads inner, outer.canvas, outer.viewport
    requires outer.viewport.width != 0 && outer.viewport.height != 0 && outer.canvas.dpi != 0.0
  {
    var w, h := outer.viewport.width as real, outer.viewport.height as real;
    var x0, y0 := ToNdc(inner.x as real, w), ToNdc(inner.y as real, h);
    var x1, y1 := ToNdc((inner.x + inner.width) as real, w), ToNdc((inner.y + inner.height) as real, h);
    SegmentsVisual(uuid, [(x0, y0, 0.0), (x1, y0, 0.0), (x0, y0, 0.0), (x0, y1, 0.0)],
                   Repeat(UnitUtils.PixelToPoint(2.0, outer.canvas.dpi).value, 2), CapRound, Repeat(Black, 2))
  }

  function TicksVisual(inner: Viewport, outer: ViewportUnitConverter, lo: real, hi: real, vertical: bool, uuid: string)
    : AxesVisual
    reads inner, outer.canvas, outer.viewport
    requires lo < hi && AxisOk(outer, Ticks(lo, hi))
  {
    var n := |Ticks(lo, hi)|;
    SegmentsVisual(uuid, TickPositions(inner, outer, Ticks(lo, hi), lo, hi, vertical),
                   Repeat(UnitUtils.PixelToPoint(1.0, outer.canvas.dpi).value, n),
                   if vertical then CapButt else CapRound, Repeat(Black, n))
  }

  /** The label strings, one per tick. */
  function Labels(ticks: seq<int>): (r: seq<string>)
    ensures |r| == |ticks|
  {
    if ticks == [] then [] else Labels(ticks[..|ticks| - 1]) + [IntString(ticks[|ticks| - 1])]
  }

  /** Label i spells tick i. */
  lemma {:induction false} LabelsAt(ticks: seq<int>, i: int)
    requires 0 <= i < |ticks|
    ensures Labels(ticks)[i] == IntString(ticks[i])
    decreases |ticks|
  {
    var n := |ticks| - 1;
    var init := ticks[..n];
    assert Labels(ticks) == Labels(init) + [IntString(ticks[n])];
    if i < n {
      LabelsAt(init, i);
      assert init[i] == ticks[i];
    }
  }

  /** Every label reads back as its tick. */
  lemma LabelsReadBack(ticks: seq<int>, i: int)
    requires 0 <= i < |ticks|
    ensures ParseInt(Labels(ticks)[i]) == Some(ticks[i])
  {
    LabelsAt(ticks, i);
    ParseIntOfIntString(ticks[i]);
  }

  function TextsVisualOf(inner: Viewport, outer: ViewportUnitConverter, lo: real, hi: real, vertical: bool, uuid: string)
    : AxesVisual
    reads inner, outer.canvas, outer.viewport
    requires lo < hi && AxisOk(outer, Ticks(lo, hi))
  {
    var n := |Ticks(lo, hi)|;
    TextsVisual(uuid, LabelPositions(inner, outer, Ticks(lo, hi), lo, hi, vertical), Labels(Ticks(lo, hi)),
                Repeat(Black, n), Repeat(UnitUtils.PixelToPoint(12.0, outer.canvas.dpi).value, n),
                Repeat(if vertical then (1.0, 0.0) else (0.0, 1.0), n), Repeat(0.0, n), FontName)
  }

  /** The tick segments' buffers agree: two positions per segment, one
    * width and one color per segment, one segment per tick. */
  lemma TicksVisualSizes(inner: Viewport, outer: ViewportUnitConverter, lo: real, hi: real, vertical: bool, uuid: string)
    requires lo < hi && AxisOk(outer, Ticks(lo, hi))
    ensures
      var v := TicksVisual(inner, outer, lo, hi, vertical, uuid);
      |v.positions| == 2 * |Ticks(lo, hi)| && |v.lineWidths| == |Ticks(lo, hi)| && |v.colors| == |Ticks(lo, hi)|
  {
  }

  /** One label per tick, and every per-label buffer has that length. */
  lemma TextsVisualSizes(inner: Viewport, outer: ViewportUnitConverter, lo: real, hi: real, vertical: bool, uuid: string)
    requires lo < hi && AxisOk(outer, Ticks(lo, hi))
    ensures
      var v := TextsVisualOf(inner, outer, lo, hi, vertical, uuid);
      var n := |Ticks(lo, hi)|;
      |v.positions| == n && |v.strings| == n && |v.colors| == n && |v.fontSizes| == n
      && |v.anchors| == n && |v.angles| == n
  {
  }

  /** The axis lines run from the inner viewport's corner to where the
    * ticks of the two limits would be drawn. */
  lemma AxisLinesMeetLimits(inner: Viewport, outer: ViewportUnitConverter, xlo: real, xhi: real, ylo: real, yhi: real,
                            uuid: string)
    requires xlo < xhi && ylo < yhi && Convertible(outer)
    ensures
      var p := AxesSegmentsVisual(inner, outer, uuid).positions;
      p[0].0 == HorizontalAnchor(inner, outer.viewport, xlo, xlo, xhi).0
      && p[1].0 == HorizontalAnchor(inner, outer.viewport, xhi, xlo, xhi).0
      && p[0].1 == HorizontalAnchor(inner, outer.viewport, xhi, xlo, xhi).1
      && p[2].1 == VerticalAnchor(inner, outer.viewport, ylo, ylo, yhi).1
      && p[3].1 == VerticalAnchor(inner, outer.viewport, yhi, ylo, yhi).1
      && p[3].0 == VerticalAnchor(inner, outer.viewport, yhi, ylo, yhi).0
  {
    LimitsOnEdges(inner.x as real, inner.width as real, xlo, xhi, outer.viewport.width as real);
    LimitsOnEdges(inner.y as real, inner.height as real, ylo, yhi, outer.viewport.height as real);
  }

  // ---------------------------------------------------------------------
  // Generators

  /** The per-tick computation of the horizontal generators: the tick's
    * anchor below the inner viewport, and the NDC height of `lengthCm`. */
  function HorizontalTickAt(inner: Viewport, outer: ViewportUnitConverter, k: int, lo: real, hi: real, lengthCm: real)
    : (r: Result<(real, real, real)>)
    reads inner, outer.canvas, outer.viewport
    requires lo < hi
    ensures r.Ok? <==> Convertible(outer)
    ensures r.Err? ==> r.error == ZeroDivisionError
    ensures r.Ok? ==>
      (r.value.0, r.value.1) == Anchor(inner, outer, k, lo, hi, false) && r.value.2 == TickLength(outer, lengthCm, false)
  {
    var tickInnerNdc := (k as real - lo) / (hi - lo) * 2.0 - 1.0;
    var tickPixel := inner.x as real + ((tickInnerNdc + 1.0) / 2.0) * inner.width as real;
    var dx := outer.DeltaPixelToNdc(tickPixel, 0.0);
    if dx.Err? then Err(dx.error)
    else
      var x := dx.value.0 - 1.0;
      var bottomInnerNdc := -1.0;
      var bottomPixel := inner.y as real + ((bottomInnerNdc + 1.0) / 2.0) * inner.height as real;
      var dy := outer.DeltaPixelToNdc(0.0, bottomPixel);
      var y := dy.value.1 - 1.0;
      var len := outer.DeltaCmToNdc(0.0, lengthCm);
      if len.Err? then Err(len.error)
      else
        InnerNdcFraction(k as real, lo, hi);
        assert tickPixel == Interp(inner.x as real, inner.width as real, k as real, lo, hi);
        assert bottomPixel == inner.y as real;
        NdcOfDelta(dx.value.0, tickPixel, outer.viewport.width as real);
        NdcOfDelta(dy.value.1, bottomPixel, outer.viewport.height as real);
        Ok((x, y, len.value.1))
  }

  /** The per-tick computation of the vertical generators as written: the
    * y pixel offset goes through the x component of `delta_pixel_to_ndc`
    * and the x pixel offset through the y component. */
  function VerticalTickAt(inner: Viewport, outer: ViewportUnitConverter, k: int, lo: real, hi: real, lengthCm: real)
    : (r: Result<(real, real, real)>)
    reads inner, outer.canvas, outer.viewport
    requires lo < hi
    ensures r.Ok? <==> Convertible(outer)
    ensures r.Err? ==> r.error == ZeroDivisionError
    ensures r.Ok? ==>
      (r.value.0, r.value.1) == Anchor(inner, outer, k, lo, hi, true) && r.value.2 == TickLength(outer, lengthCm, true)
  {
    var tickInnerNdc := (k as real - lo) / (hi - lo) * 2.0 - 1.0;
    var tickPixel := inner.y as real + ((tickInnerNdc + 1.0) / 2.0) * inner.height as real;
    var dy := outer.DeltaPixelToNdc(tickPixel, 0.0);
    if dy.Err? then Err(dy.error)
    else
      var y := dy.value.0 - 1.0;
      var leftInnerNdc := -1.0;
      var leftPixel := inner.x as real + ((leftInnerNdc + 1.0) / 2.0) * inner.width as real;
      var dx := outer.DeltaPixelToNdc(0.0, leftPixel);
      var x := dx.value.1 - 1.0;
      var len := outer.DeltaCmToNdc(lengthCm, 0.0);
      if len.Err? then Err(len.error)
      else
        InnerNdcFraction(k as real, lo, hi);
        assert tickPixel == Interp(inner.y as real, inner.height as real, k as real, lo, hi);
        assert leftPixel == inner.x as real;
        NdcOfDelta(dy.value.0, tickPixel, outer.viewport.width as real);
        NdcOfDelta(dx.value.1, leftPixel, outer.viewport.height as real);
        Ok((x, y, len.value.0))
  }

  /** The anchor and the NDC length of `lengthCm` for tick k, along the
    * chosen axis. */
  function TickAt(inner: Viewport, outer: ViewportUnitConverter, k: int, lo: real, hi: real, lengthCm: real, vertical: bool)
    : (r: Result<(real, real, real)>)
    reads inner, outer.canvas, outer.viewport
    requires lo < hi
    ensures r.Ok? <==> Convertible(outer)
    ensures r.Err? ==> r.error == ZeroDivisionError
    ensures r.Ok? ==>
      (r.value.0, r.value.1) == Anchor(inner, outer, k, lo, hi, vertical)
      && r.value.2 == TickLength(outer, lengthCm, vertical)
  {
    if vertical then VerticalTickAt(inner, outer, k, lo, hi, lengthCm)
    else HorizontalTickAt(inner, outer, k, lo, hi, lengthCm)
  }

  /** One iteration of the tick loops: the two positions of tick k. */
  function TickSegmentAt(inner: Viewport, outer: ViewportUnitConverter, k: int, lo: real, hi: real, vertical: bool)
    : (r: Result<seq<Vec3>>)
    reads inner, outer.canvas, outer.viewport
    requires lo < hi
    ensures r.Ok? <==> Convertible(outer)
    ensures r.Err? ==> r.error == ZeroDivisionError
    ensures r.Ok? ==> r.value == TickSegment(inner, outer, k, lo, hi, vertical)
  {
    var t := TickAt(inner, outer, k, lo, hi, 0.2, vertical);
    if t.Err? then Err(t.error)
    else
      var x, y, len := t.value.0, t.value.1, t.value.2;
      if vertical then Ok([(x, y + 0.0, 0.0), (x - len, y, 0.0)])
      else Ok([(x, y + 0.0, 0.0), (x, y - len, 0.0)])
  }

  /** One iteration of the first label loop: the position of label k. */
  function LabelPositionAt(inner: Viewport, outer: ViewportUnitConverter, k: int, lo: real, hi: real, vertical: bool)
    : (r: Result<Vec3>)
    reads inner, outer.canvas, outer.viewport
    requires lo < hi
    ensures r.Ok? <==> Convertible(outer)
    ensures r.Err? ==> r.error == ZeroDivisionError
    ensures r.Ok? ==> r.value == LabelPosition(inner, outer, k, lo, hi, vertical)
  {
    var t := TickAt(inner, outer, k, lo, hi, 0.3, vertical);
    if t.Err? then Err(t.error)
    else
      var x, y, len := t.value.0, t.value.1, t.value.2;
      if vertical then Ok((x - len, y, 0.0)) else Ok((x, y - len, 0.0))
  }

  /** `_generate_axes_segments`: the bottom and left sides of the inner
    * viewport, in the outer viewport's NDC. */
  method GenerateAxesSegments(inner: Viewport, outer: ViewportUnitConverter, uuid: string) returns (r: Result<AxesVisual>)
    ensures r.Ok? <==> outer.viewport.width != 0 && outer.viewport.height != 0 && outer.canvas.dpi != 0.0
    ensures r.Err? ==> r.error == ZeroDivisionError
    ensures r.Ok? ==> r.value == AxesSegmentsVisual(inner, outer, uuid)
  {
    var minResult := outer.DeltaPixelToNdc(inner.x as real, inner.y as real);
    if minResult.Err? {
      return Err(minResult.error);
    }
    var deltaMin := minResult.value;
    var deltaMax := outer.DeltaPixelToNdc((inner.x + inner.width) as real, (inner.y + inner.height) as real).value;
    var w, h := outer.viewport.width as real, outer.viewport.height as real;
    NdcOfDelta(deltaMin.0, inner.x as real, w);
    NdcOfDelta(deltaMin.1, inner.y as real, h);
    NdcOfDelta(deltaMax.0, (inner.x + inner.width) as real, w);
    NdcOfDelta(deltaMax.1, (inner.y + inner.height) as real, h);
    var coordMin := (-1.0 + deltaMin.0, -1.0 + deltaMin.1);
    var coordMax := (-1.0 + deltaMax.0, -1.0 + deltaMax.1);
    var positions := [(coordMin.0, coordMin.1, 0.0), (coordMax.0, coordMin.1, 0.0),
                      (coordMin.0, coordMin.1, 0.0), (coordMin.0, coordMax.1, 0.0)];
    var widthResult := UnitUtils.PixelToPoint(2.0, outer.canvas.dpi);
    if widthResult.Err? {
      return Err(widthResult.error);
    }
    var width := widthResult.value;
    r := Ok(SegmentsVisual(uuid, positions, Repeat(width, 2), CapRound, Repeat(Black, 2)));
  }

  /** One more integer of the tick loops' range. */
  lemma TicksBelowNext(first: int, k: int, max: real)
    requires first <= k
    ensures k as real <= max ==> TicksBelow(first, k + 1, max) == TicksBelow(first, k, max) + [k]
    ensures max < k as real ==> TicksBelow(first, k + 1, max) == TicksBelow(first, k, max)
  {
    if max < k as real {
      assert TicksBelow(first, k, max) + [] == TicksBelow(first, k, max);
    }
  }





  /** A kept integer of the range makes the kept ticks non-empty. */
  lemma {:induction false} TicksBelowNonEmpty(first: int, k: int, end: int, max: real)
    requires first <= k < end && k as real <= max
    ensures TicksBelow(first, end, max) != []
    decreases end - k
  {
    if k + 1 < end {
      TicksBelowNonEmpty(first, k, end - 1, max);
    }
  }

  /** One more kept tick adds its segment to the tick positions. */
  lemma TickPositionsSnoc(inner: Viewport, outer: ViewportUnitConverter, kept: seq<int>, k: int, lo: real, hi: real,
                          vertical: bool)
    requires lo < hi && Convertible(outer)
    ensures TickPositions(inner, outer, kept + [k], lo, hi, vertical)
            == TickPositions(inner, outer, kept, lo, hi, vertical) + TickSegment(inner, outer, k, lo, hi, vertical)
  {
    assert (kept + [k])[..|kept|] == kept;
  }

  /** One more kept tick adds its label's position. */
  lemma LabelPositionsSnoc(inner: Viewport, outer: ViewportUnitConverter, kept: seq<int>, k: int, lo: real, hi: real,
                           vertical: bool)
    requires lo < hi && Convertible(outer)
    ensures LabelPositions(inner, outer, kept + [k], lo, hi, vertical)
            == LabelPositions(inner, outer, kept, lo, hi, vertical) + [LabelPosition(inner, outer, k, lo, hi, vertical)]
  {
    assert (kept + [k])[..|kept|] == kept;
  }

  lemma LabelsSnoc(kept: seq<int>, k: int)
    ensures Labels(kept + [k]) == Labels(kept) + [IntString(k)]
  {
    assert (kept + [k])[..|kept|] == kept;
  }

  /** The position loop of the tick generators: for every integer of
    * range(first, end) not above hi, the two positions of a 0.2 cm tick.
    * The generators loop over range(ceil(lo), ceil(hi) + 1). */
  method TickPositionsLoop(inner: Viewport, outer: ViewportUnitConverter, first: int, end: int, lo: real, hi: real,
                         vertical: bool)
    returns (r: Result<seq<Vec3>>)
    requires lo < hi && first <= end
    ensures r.Ok? <==> TicksBelow(first, end, hi) == [] || Convertible(outer)
    ensures r.Err? ==> r.error == ZeroDivisionError
    ensures r.Ok? ==> r.value == TickPositions(inner, outer, TicksBelow(first, end, hi), lo, hi, vertical)
  {
    var positions: seq<Vec3> := [];
    ghost var kept: seq<int> := [];
    var k := first;
    while k < end
      invariant first <= k <= end
      invariant kept == TicksBelow(first, k, hi)
      invariant kept == [] || Convertible(outer)
      invariant positions == TickPositions(inner, outer, kept, lo, hi, vertical)
    {
      TicksBelowNext(first, k, hi);
      if k as real <= hi {
        var segment := TickSegmentAt(inner, outer, k, lo, hi, vertical);
        if segment.Err? {
          TicksBelowNonEmpty(first, k, end, hi);
          return Err(segment.error);
        }
        TickPositionsSnoc(inner, outer, kept, k, lo, hi, vertical);
        positions := positions + segment.value;
        kept := kept + [k];
      }
      k := k + 1;
    }
    r := Ok(positions);
  }

  /** The position loop of the text generators: one position per kept
    * integer of range(first, end), 0.3 cm away from the axis. */
  method LabelPositionsLoop(inner: Viewport, outer: ViewportUnitConverter, first: int, end: int, lo: real, hi: real,
                          vertical: bool)
    returns (r: Result<seq<Vec3>>)
    requires lo < hi && first <= end
    ensures r.Ok? <==> TicksBelow(first, end, hi) == [] || Convertible(outer)
    ensures r.Err? ==> r.error == ZeroDivisionError
    ensures r.Ok? ==> r.value == LabelPositions(inner, outer, TicksBelow(first, end, hi), lo, hi, vertical)
  {
    var positions: seq<Vec3> := [];
    ghost var kept: seq<int> := [];
    var k := first;
    while k < end
      invariant first <= k <= end
      invariant kept == TicksBelow(first, k, hi)
      invariant kept == [] || Convertible(outer)
      invariant positions == LabelPositions(inner, outer, kept, lo, hi, vertical)
    {
      TicksBelowNext(first, k, hi);
      if k as real <= hi {
        var position := LabelPositionAt(inner, outer, k, lo, hi, vertical);
        if position.Err? {
          TicksBelowNonEmpty(first, k, end, hi);
          return Err(position.error);
        }
        LabelPositionsSnoc(inner, outer, kept, k, lo, hi, vertical);
        positions := positions + [position.value];
        kept := kept + [k];
      }
      k := k + 1;
    }
    r := Ok(positions);
  }

  /** The string loop of the text generators: `f"{k}"` for every kept
    * integer of range(first, end). */
  method LabelStringsLoop(first: int, end: int, hi: real) returns (strings: seq<string>)
    requires first <= end
    ensures strings == Labels(TicksBelow(first, end, hi))
  {
    strings := [];
    ghost var kept: seq<int> := [];
    var k := first;
    while k < end
      invariant first <= k <= end
      invariant kept == TicksBelow(first, k, hi)
      invariant strings == Labels(kept)
    {
      TicksBelowNext(first, k, hi);
      if k as real <= hi {
        LabelsSnoc(kept, k);
        strings := strings + [IntString(k)];
        kept := kept + [k];
      }
      k := k + 1;
    }
  }

  /** The tick positions of an axis put into a vec3 buffer: the loop over
    * range(ceil(lo), ceil(hi) + 1), then `Bufferx.from_numpy`, whose shape
    * assertion fails on the empty array of an axis without ticks. */
  method TickPositionsBuffer(inner: Viewport, outer: ViewportUnitConverter, lo: real, hi: real, vertical: bool)
    returns (r: Result<seq<Vec3>>)
    requires lo < hi
    ensures r.Ok? <==> AxisOk(outer, Ticks(lo, hi))
    ensures r.Err? ==> r.error == AxisError(Ticks(lo, hi))
    ensures r.Ok? ==> r.value == TickPositions(inner, outer, Ticks(lo, hi), lo, hi, vertical)
  {
    var first, end := Ceil(lo), Ceil(hi) + 1;
    r := TickPositionsLoop(inner, outer, first, end, lo, hi, vertical);
    if r.Ok? && r.value == [] {
      r := Err(AssertionError);
    }
  }

  /** `_generate_ticks_horizontal` (vertical = false) and
    * `_generate_ticks_vertical` (vertical = true, with the vertical ticks
    * placed as written: the y offset over the outer width, the x offset over
    * the outer height): one-pixel black segments, round-capped on the
    * horizontal axis and butt-capped on the vertical one. An axis without
    * ticks fails the shape assertion of `Bufferx.from_numpy`. */
  method GenerateTicks(inner: Viewport, outer: ViewportUnitConverter, lo: real, hi: real, vertical: bool, uuid: string)
    returns (r: Result<AxesVisual>)
    requires lo < hi
    ensures r.Ok? <==> AxisOk(outer, Ticks(lo, hi))
    ensures r.Err? ==> r.error == AxisError(Ticks(lo, hi))
    ensures r.Ok? ==> r.value == TicksVisual(inner, outer, lo, hi, vertical, uuid)
  {
    var positionsResult := TickPositionsBuffer(inner, outer, lo, hi, vertical);
    if positionsResult.Err? {
      return Err(positionsResult.error);
    }
    var positions := positionsResult.value;
    var segmentsCount := |positions| / 2;
    assert segmentsCount == |Ticks(lo, hi)|;
    // The tick conversions succeeded, so the dpi is not zero here.
    var width := UnitUtils.PixelToPoint(1.0, outer.canvas.dpi).value;
    r := Ok(SegmentsVisual(uuid, positions, Repeat(width, segmentsCount), if vertical then CapButt else CapRound,
                           Repeat(Black, segmentsCount)));
  }

  /** The label positions of an axis put into a vec3 buffer, as for the
    * ticks. */
  method LabelPositionsBuffer(inner: Viewport, outer: ViewportUnitConverter, lo: real, hi: real, vertical: bool)
    returns (r: Result<seq<Vec3>>)
    requires lo < hi
    ensures r.Ok? <==> AxisOk(outer, Ticks(lo, hi))
    ensures r.Err? ==> r.error == AxisError(Ticks(lo, hi))
    ensures r.Ok? ==> r.value == LabelPositions(inner, outer, Ticks(lo, hi), lo, hi, vertical)
  {
    var first, end := Ceil(lo), Ceil(hi) + 1;
    r := LabelPositionsLoop(inner, outer, first, end, lo, hi, vertical);
    if r.Ok? && r.value == [] {
      r := Err(AssertionError);
    }
  }

  /** `_generate_texts_horizontal` and `_generate_texts_vertical`: one label
    * per tick, black, 12-pixel Arial, anchored (0, 1) below the horizontal
    * axis and (1, 0) left of the vertical one, unrotated; the vertical labels
    * are placed as written, like the vertical ticks. An axis without ticks
    * fails the shape assertion of `Bufferx.from_numpy`. */
  method GenerateTexts(inner: Viewport, outer: ViewportUnitConverter, lo: real, hi: real, vertical: bool, uuid: string)
    returns (r: Result<AxesVisual>)
    requires lo < hi
    ensures r.Ok? <==> AxisOk(outer, Ticks(lo, hi))
    ensures r.Err? ==> r.error == AxisError(Ticks(lo, hi))
    ensures r.Ok? ==> r.value == TextsVisualOf(inner, outer, lo, hi, vertical, uuid)
  {
    var positionsResult := LabelPositionsBuffer(inner, outer, lo, hi, vertical);
    if positionsResult.Err? {
      return Err(positionsResult.error);
    }
    var positions := positionsResult.value;
    var strings := LabelStringsLoop(Ceil(lo), Ceil(hi) + 1, hi);
    var stringCount := |strings|;
    // The tick conversions succeeded, so the dpi is not zero here.
    var fontSize := UnitUtils.PixelToPoint(12.0, outer.canvas.dpi).value;
    var anchor := if vertical then (1.0, 0.0) else (0.0, 1.0);
    r := Ok(TextsVisual(uuid, positions, strings, Repeat(Black, stringCount), Repeat(fontSize, stringCount),
                        Repeat(anchor, stringCount), Repeat(0.0, stringCount), FontName));
  }

  // ---------------------------------------------------------------------
  // Data transform

  /** The data-to-NDC map of `get_transform_matrix_numpy` along one axis:
    * translate the centre of [lo, hi] to 0, then scale by 2 / (hi - lo). */
  function DataToNdc(v: real, lo: real, hi: real): real
    requires lo < hi
  {
    (v - (hi + lo) / 2.0) * (2.0 / (hi - lo))
  }

  /** The limits land on the edges of NDC, the centre on 0. */
  lemma DataToNdcLimits(lo: real, hi: real)
    requires lo < hi
    ensures DataToNdc(lo, lo, hi) == -1.0 && DataToNdc(hi, lo, hi) == 1.0
    ensures DataToNdc((lo + hi) / 2.0, lo, hi) == 0.0
  {
    assert (hi - (hi + lo) / 2.0) * (2.0 / (hi - lo)) == (hi - lo) / (hi - lo);
    assert (lo - (hi + lo) / 2.0) * (2.0 / (hi - lo)) == -((hi - lo) / (hi - lo));
  }

  /** The map is strictly increasing: data order is screen order. */
  lemma DataToNdcIncreasing(u: real, v: real, lo: real, hi: real)
    requires lo < hi && u < v
    ensures DataToNdc(u, lo, hi) < DataToNdc(v, lo, hi)
  {
    var s := 2.0 / (hi - lo);
    assert s > 0.0;
    assert DataToNdc(v, lo, hi) - DataToNdc(u, lo, hi) == (v - u) * s;
  }

  /** A tick for value v sits where a visual drawn in the inner viewport
    * with the data transform puts v: the tick loops' pixel offset is the
    * inner viewport's NDC-to-pixel map applied to DataToNdc(v). */
  lemma TicksAlignWithData(offset: real, size: real, v: real, lo: real, hi: real)
    requires lo < hi
    ensures Interp(offset, size, v, lo, hi) == offset + (DataToNdc(v, lo, hi) + 1.0) / 2.0 * size
  {
    assert DataToNdc(v, lo, hi) + 1.0 == 2.0 * (v - lo) / (hi - lo);
  }

  // ---------------------------------------------------------------------
  // The display

  /** The uuid a rebuilt item gets: the previous item's visual uuid when
    * there was one, otherwise the new visual's own. */
  function KeptUuid(previous: Option<RenderItem>, newUuid: string): (u: string)
    ensures previous.Some? ==> u == previous.value.visual.uuid
    ensures previous.None? ==> u == newUuid
  {
    if previous.Some? then previous.value.visual.uuid else newUuid
  }

  const NoItems: seq<Option<RenderItem>> := [None, None, None, None, None]

  /** The axis lines can be generated. */
  predicate SegmentsOk(outer: ViewportUnitConverter)
    reads outer.canvas, outer.viewport
  {
    outer.viewport.width != 0 && outer.viewport.height != 0 && outer.canvas.dpi != 0.0
  }

  /** Every generator of `_build_render_items` succeeds. */
  predicate BuildOk(outer: ViewportUnitConverter, xMin: real, xMax: real, yMin: real, yMax: real)
    reads outer.canvas, outer.viewport
  {
    SegmentsOk(outer) && AxisOk(outer, Ticks(xMin, xMax)) && AxisOk(outer, Ticks(yMin, yMax))
  }

  /** The axis-lines item a build creates. */
  function SegmentsRenderItem(inner: Viewport, outer: ViewportUnitConverter, previous: Option<RenderItem>, newUuid: string)
    : RenderItem
    reads inner, outer.canvas, outer.viewport
    requires SegmentsOk(outer)
  {
    RenderItem(outer.viewport, AxesSegmentsVisual(inner, outer, KeptUuid(previous, newUuid)))
  }

  /** The tick item a build creates for one axis. */
  function TicksRenderItem(inner: Viewport, outer: ViewportUnitConverter, lo: real, hi: real, vertical: bool,
                           previous: Option<RenderItem>, newUuid: string): RenderItem
    reads inner, outer.canvas, outer.viewport
    requires lo < hi && AxisOk(outer, Ticks(lo, hi))
  {
    RenderItem(outer.viewport, TicksVisual(inner, outer, lo, hi, vertical, KeptUuid(previous, newUuid)))
  }

  /** The label item a build creates for one axis. */
  function TextsRenderItem(inner: Viewport, outer: ViewportUnitConverter, lo: real, hi: real, vertical: bool,
                           previous: Option<RenderItem>, newUuid: string): RenderItem
    reads inner, outer.canvas, outer.viewport
    requires lo < hi && AxisOk(outer, Ticks(lo, hi))
  {
    RenderItem(outer.viewport, TextsVisualOf(inner, outer, lo, hi, vertical, KeptUuid(previous, newUuid)))
  }

  /** Whether generator `step` of `_build_render_items` succeeds; the
    * generators run in item order: 0 the axis lines, 1 and 2 the
    * horizontal and vertical ticks, 3 and 4 the horizontal and vertical
    * labels. */
  predicate StepOk(step: nat, outer: ViewportUnitConverter, xMin: real, xMax: real, yMin: real, yMax: real)
    reads outer.canvas, outer.viewport
  {
    if step == 0 then SegmentsOk(outer)
    else if step == 1 || step == 3 then AxisOk(outer, Ticks(xMin, xMax))
    else AxisOk(outer, Ticks(yMin, yMax))
  }

  /** The item generator `step` creates. */
  function StepItem(step: nat, inner: Viewport, outer: ViewportUnitConverter, xMin: real, xMax: real, yMin: real,
                    yMax: real, previous: Option<RenderItem>, newUuid: string): RenderItem
    reads inner, outer.canvas, outer.viewport
    requires step < 5 && xMin < xMax && yMin < yMax && StepOk(step, outer, xMin, xMax, yMin, yMax)
  {
    if step == 0 then SegmentsRenderItem(inner, outer, previous, newUuid)
    else if step == 1 then TicksRenderItem(inner, outer, xMin, xMax, false, previous, newUuid)
    else if step == 2 then TicksRenderItem(inner, outer, yMin, yMax, true, previous, newUuid)
    else if step == 3 then TextsRenderItem(inner, outer, xMin, xMax, false, previous, newUuid)
    else TextsRenderItem(inner, outer, yMin, yMax, true, previous, newUuid)
  }

  /** The items from slot `step` on after a build that reached generator
    * `step`: the first failing generator stops the build and leaves its
    * slot and the later ones as they were. */
  function BuiltFrom(step: nat, inner: Viewport, outer: ViewportUnitConverter, xMin: real, xMax: real, yMin: real,
                     yMax: real, previous: seq<Option<RenderItem>>, newUuids: seq<string>): (r: seq<Option<RenderItem>>)
    reads inner, outer.canvas, outer.viewport
    requires step <= 5 && xMin < xMax && yMin < yMax && |previous| == 5 && |newUuids| == 5
    ensures |r| == 5 - step
    decreases 5 - step
  {
    if step == 5 then []
    else if StepOk(step, outer, xMin, xMax, yMin, yMax) then
      [Some(StepItem(step, inner, outer, xMin, xMax, yMin, yMax, previous[step], newUuids[step]))]
      + BuiltFrom(step + 1, inner, outer, xMin, xMax, yMin, yMax, previous, newUuids)
    else previous[step..]
  }

  /** Every generator from `step` on succeeds. */
  predicate OkFrom(step: nat, outer: ViewportUnitConverter, xMin: real, xMax: real, yMin: real, yMax: real)
    reads outer.canvas, outer.viewport
    decreases 5 - step
  {
    step >= 5 || (StepOk(step, outer, xMin, xMax, yMin, yMax) && OkFrom(step + 1, outer, xMin, xMax, yMin, yMax))
  }

  /** The exception generator `step` raises when it fails. */
  function StepError(step: nat, xMin: real, xMax: real, yMin: real, yMax: real): Error
  {
    if step == 0 then ZeroDivisionError
    else if step == 1 || step == 3 then AxisError(Ticks(xMin, xMax))
    else AxisError(Ticks(yMin, yMax))
  }

  /** The exception of the first generator from `step` on that fails. */
  function FirstError(step: nat, outer: ViewportUnitConverter, xMin: real, xMax: real, yMin: real, yMax: real): Error
    reads outer.canvas, outer.viewport
    requires !OkFrom(step, outer, xMin, xMax, yMin, yMax)
    decreases 5 - step
  {
    if !StepOk(step, outer, xMin, xMax, yMin, yMax) then StepError(step, xMin, xMax, yMin, yMax)
    else FirstError(step + 1, outer, xMin, xMax, yMin, yMax)
  }

  /** The exception a failing `_build_render_items` raises: ZeroDivisionError
    * when the axis lines fail, otherwise the error of the first axis that
    * fails, the horizontal one first. */
  function BuildError(outer: ViewportUnitConverter, xMin: real, xMax: real, yMin: real, yMax: real): (e: Error)
    reads outer.canvas, outer.viewport
    requires !BuildOk(outer, xMin, xMax, yMin, yMax)
    ensures e == AssertionError ==> Ticks(xMin, xMax) == [] || Ticks(yMin, yMax) == []
  {
    if !SegmentsOk(outer) then ZeroDivisionError
    else if !AxisOk(outer, Ticks(xMin, xMax)) then AxisError(Ticks(xMin, xMax))
    else AxisError(Ticks(yMin, yMax))
  }

  /** The items after `_build_render_items` starting from `previous`: an
    * item is replaced exactly when its generator and all earlier ones
    * succeed. A replaced item lives in the outer viewport and keeps the
    * previous visual's uuid. */
  function BuiltItems(inner: Viewport, outer: ViewportUnitConverter, xMin: real, xMax: real, yMin: real, yMax: real,
                      previous: seq<Option<RenderItem>>, newUuids: seq<string>): (r: seq<Option<RenderItem>>)
    reads inner, outer.canvas, outer.viewport
    requires xMin < xMax && yMin < yMax && |previous| == 5 && |newUuids| == 5
    ensures |r| == 5
  {
    BuiltFrom(0, inner, outer, xMin, xMax, yMin, yMax, previous, newUuids)
  }

  /** The build succeeds exactly when the axis lines and both axes can be
    * generated. */
  lemma BuildOkFrom(outer: ViewportUnitConverter, xMin: real, xMax: real, yMin: real, yMax: real)
    ensures OkFrom(0, outer, xMin, xMax, yMin, yMax) <==> BuildOk(outer, xMin, xMax, yMin, yMax)
  {
    assert OkFrom(4, outer, xMin, xMax, yMin, yMax) == AxisOk(outer, Ticks(yMin, yMax));
    assert OkFrom(3, outer, xMin, xMax, yMin, yMax)
      == (AxisOk(outer, Ticks(xMin, xMax)) && OkFrom(4, outer, xMin, xMax, yMin, yMax));
    assert OkFrom(2, outer, xMin, xMax, yMin, yMax)
      == (AxisOk(outer, Ticks(yMin, yMax)) && OkFrom(3, outer, xMin, xMax, yMin, yMax));
    assert OkFrom(1, outer, xMin, xMax, yMin, yMax)
      == (AxisOk(outer, Ticks(xMin, xMax)) && OkFrom(2, outer, xMin, xMax, yMin, yMax));
  }

  /** The closed form of the build's error is the error of its first
    * failing generator. */
  lemma BuildErrorIsFirst(outer: ViewportUnitConverter, xMin: real, xMax: real, yMin: real, yMax: real)
    requires !BuildOk(outer, xMin, xMax, yMin, yMax)
    ensures !OkFrom(0, outer, xMin, xMax, yMin, yMax)
    ensures FirstError(0, outer, xMin, xMax, yMin, yMax) == BuildError(outer, xMin, xMax, yMin, yMax)
  {
    BuildOkFrom(outer, xMin, xMax, yMin, yMax);
    if SegmentsOk(outer) && AxisOk(outer, Ticks(xMin, xMax)) {
      assert !AxisOk(outer, Ticks(yMin, yMax));
      assert FirstError(1, outer, xMin, xMax, yMin, yMax) == FirstError(2, outer, xMin, xMax, yMin, yMax);
    }
  }

  lemma {:induction false} OkFromFills(step: nat, inner: Viewport, outer: ViewportUnitConverter, xMin: real, xMax: real,
                                       yMin: real, yMax: real, previous: seq<Option<RenderItem>>, newUuids: seq<string>)
    requires step <= 5 && xMin < xMax && yMin < yMax && |previous| == 5 && |newUuids| == 5
    requires OkFrom(step, outer, xMin, xMax, yMin, yMax)
    ensures None !in BuiltFrom(step, inner, outer, xMin, xMax, yMin, yMax, previous, newUuids)
    decreases 5 - step
  {
    if step < 5 {
      OkFromFills(step + 1, inner, outer, xMin, xMax, yMin, yMax, previous, newUuids);
    }
  }

  /** A successful build leaves no item missing. */
  lemma BuildOkFillsItems(inner: Viewport, outer: ViewportUnitConverter, xMin: real, xMax: real, yMin: real, yMax: real,
                          previous: seq<Option<RenderItem>>, newUuids: seq<string>)
    requires xMin < xMax && yMin < yMax && |previous| == 5 && |newUuids| == 5
    requires BuildOk(outer, xMin, xMax, yMin, yMax)
    ensures None !in BuiltItems(inner, outer, xMin, xMax, yMin, yMax, previous, newUuids)
  {
    BuildOkFrom(outer, xMin, xMax, yMin, yMax);
    OkFromFills(0, inner, outer, xMin, xMax, yMin, yMax, previous, newUuids);
  }

  /** Each generator's item lives in the outer viewport and carries the
    * kept uuid. */
  lemma StepItemPlacement(step: nat, inner: Viewport, outer: ViewportUnitConverter, xMin: real, xMax: real, yMin: real,
                          yMax: real, previous: Option<RenderItem>, newUuid: string)
    requires step < 5 && xMin < xMax && yMin < yMax && StepOk(step, outer, xMin, xMax, yMin, yMax)
    ensures var item := StepItem(step, inner, outer, xMin, xMax, yMin, yMax, previous, newUuid);
      item.viewport == outer.viewport && item.visual.uuid == KeptUuid(previous, newUuid)
  {
  }

  lemma {:induction false} BuiltFromKeepsUuids(step: nat, inner: Viewport, outer: ViewportUnitConverter, xMin: real,
                                               xMax: real, yMin: real, yMax: real,
                                               previous: seq<Option<RenderItem>>, newUuids: seq<string>, i: int)
    requires step <= i < 5 && xMin < xMax && yMin < yMax && |previous| == 5 && |newUuids| == 5
    ensures
      var item := BuiltFrom(step, inner, outer, xMin, xMax, yMin, yMax, previous, newUuids)[i - step];
      item == previous[i]
      || (item.Some? && item.value.viewport == outer.viewport && item.value.visual.uuid == KeptUuid(previous[i], newUuids[i]))
    decreases 5 - step
  {
    if StepOk(step, outer, xMin, xMax, yMin, yMax) {
      if i == step {
        StepItemPlacement(step, inner, outer, xMin, xMax, yMin, yMax, previous[i], newUuids[i]);
      } else {
        BuiltFromKeepsUuids(step + 1, inner, outer, xMin, xMax, yMin, yMax, previous, newUuids, i);
      }
    }
  }

  /** Every item a build replaces is drawn in the outer viewport and
    * carries the previous item's uuid, or the new one when there was no
    * previous item: a renderer keyed on uuids sees the same visuals with
    * new contents. */
  lemma BuiltItemsKeepUuids(inner: Viewport, outer: ViewportUnitConverter, xMin: real, xMax: real, yMin: real, yMax: real,
                            previous: seq<Option<RenderItem>>, newUuids: seq<string>, i: int)
    requires xMin < xMax && yMin < yMax && |previous| == 5 && |newUuids| == 5 && 0 <= i < 5
    ensures
      var item := BuiltItems(inner, outer, xMin, xMax, yMin, yMax, previous, newUuids)[i];
      item == previous[i]
      || (item.Some? && item.value.viewport == outer.viewport && item.value.visual.uuid == KeptUuid(previous[i], newUuids[i]))
  {
    BuiltFromKeepsUuids(0, inner, outer, xMin, xMax, yMin, yMax, previous, newUuids, i);
  }

  /** The axis-lines step of `_build_render_items`. */
  method SegmentsStep(inner: Viewport, outer: ViewportUnitConverter, previous: Option<RenderItem>, newUuid: string)
    returns (r: Result<RenderItem>)
    ensures r.Ok? <==> old(SegmentsOk(outer))
    ensures r.Err? ==> r.error == ZeroDivisionError
    ensures r.Ok? ==> r.value == old(SegmentsRenderItem(inner, outer, previous, newUuid))
  {
    var segments := GenerateAxesSegments(inner, outer, KeptUuid(previous, newUuid));
    if segments.Err? {
      return Err(segments.error);
    }
    r := Ok(RenderItem(outer.viewport, segments.value));
  }

  /** A tick step of `_build_render_items`. */
  method TicksStep(inner: Viewport, outer: ViewportUnitConverter, lo: real, hi: real, vertical: bool,
                   previous: Option<RenderItem>, newUuid: string)
    returns (r: Result<RenderItem>)
    requires lo < hi
    ensures r.Ok? <==> old(AxisOk(outer, Ticks(lo, hi)))
    ensures r.Err? ==> r.error == AxisError(Ticks(lo, hi))
    ensures r.Ok? ==> r.value == old(TicksRenderItem(inner, outer, lo, hi, vertical, previous, newUuid))
  {
    var ticks := GenerateTicks(inner, outer, lo, hi, vertical, KeptUuid(previous, newUuid));
    if ticks.Err? {
      return Err(ticks.error);
    }
    r := Ok(RenderItem(outer.viewport, ticks.value));
  }

  /** A label step of `_build_render_items`. */
  method TextsStep(inner: Viewport, outer: ViewportUnitConverter, lo: real, hi: real, vertical: bool,
                   previous: Option<RenderItem>, newUuid: string)
    returns (r: Result<RenderItem>)
    requires lo < hi
    ensures r.Ok? <==> old(AxisOk(outer, Ticks(lo, hi)))
    ensures r.Err? ==> r.error == AxisError(Ticks(lo, hi))
    ensures r.Ok? ==> r.value == old(TextsRenderItem(inner, outer, lo, hi, vertical, previous, newUuid))
  {
    var texts := GenerateTexts(inner, outer, lo, hi, vertical, KeptUuid(previous, newUuid));
    if texts.Err? {
      return Err(texts.error);
    }
    r := Ok(RenderItem(outer.viewport, texts.value));
  }

  /** The build from the horizontal ticks on. */
  method BuildAfterSegments(inner: Viewport, outer: ViewportUnitConverter, xMin: real, xMax: real, yMin: real, yMax: real,
                        previous: seq<Option<RenderItem>>, newUuids: seq<string>)
    returns (items: seq<Option<RenderItem>>, r: Result<()>)
    requires xMin < xMax && yMin < yMax && |previous| == 5 && |newUuids| == 5
    ensures r.Ok? <==> old(OkFrom(1, outer, xMin, xMax, yMin, yMax))
    ensures r.Err? ==> r.error == old(FirstError(1, outer, xMin, xMax, yMin, yMax))
    ensures items == old(BuiltFrom(1, inner, outer, xMin, xMax, yMin, yMax, previous, newUuids))
  {
    var item := TicksStep(inner, outer, xMin, xMax, false, previous[1], newUuids[1]);
    if item.Err? {
      return previous[1..], Err(item.error);
    }
    var rest;
    rest, r := BuildAfterTicksX(inner, outer, xMin, xMax, yMin, yMax, previous, newUuids);
    items := [Some(item.value)] + rest;
  }

  /** The build from the vertical ticks on. */
  method BuildAfterTicksX(inner: Viewport, outer: ViewportUnitConverter, xMin: real, xMax: real, yMin: real, yMax: real,
                      previous: seq<Option<RenderItem>>, newUuids: seq<string>)
    returns (items: seq<Option<RenderItem>>, r: Result<()>)
    requires xMin < xMax && yMin < yMax && |previous| == 5 && |newUuids| == 5
    ensures r.Ok? <==> old(OkFrom(2, outer, xMin, xMax, yMin, yMax))
    ensures r.Err? ==> r.error == old(FirstError(2, outer, xMin, xMax, yMin, yMax))
    ensures items == old(BuiltFrom(2, inner, outer, xMin, xMax, yMin, yMax, previous, newUuids))
  {
    var item := TicksStep(inner, outer, yMin, yMax, true, previous[2], newUuids[2]);
    if item.Err? {
      return previous[2..], Err(item.error);
    }
    var rest;
    rest, r := BuildAfterTicksY(inner, outer, xMin, xMax, yMin, yMax, previous, newUuids);
    items := [Some(item.value)] + rest;
  }

  /** The build from the horizontal labels on. */
  method BuildAfterTicksY(inner: Viewport, outer: ViewportUnitConverter, xMin: real, xMax: real, yMin: real, yMax: real,
                      previous: seq<Option<RenderItem>>, newUuids: seq<string>)
    returns (items: seq<Option<RenderItem>>, r: Result<()>)
    requires xMin < xMax && yMin < yMax && |previous| == 5 && |newUuids| == 5
    ensures r.Ok? <==> old(OkFrom(3, outer, xMin, xMax, yMin, yMax))
    ensures r.Err? ==> r.error == old(FirstError(3, outer, xMin, xMax, yMin, yMax))
    ensures items == old(BuiltFrom(3, inner, outer, xMin, xMax, yMin, yMax, previous, newUuids))
  {
    var item := TextsStep(inner, outer, xMin, xMax, false, previous[3], newUuids[3]);
    if item.Err? {
      return previous[3..], Err(item.error);
    }
    var rest;
    rest, r := BuildAfterTextsX(inner, outer, xMin, xMax, yMin, yMax, previous, newUuids);
    items := [Some(item.value)] + rest;
  }

  /** The build's last step: the vertical labels. */
  method BuildAfterTextsX(inner: Viewport, outer: ViewportUnitConverter, xMin: real, xMax: real, yMin: real, yMax: real,
                      previous: seq<Option<RenderItem>>, newUuids: seq<string>)
    returns (items: seq<Option<RenderItem>>, r: Result<()>)
    requires xMin < xMax && yMin < yMax && |previous| == 5 && |newUuids| == 5
    ensures r.Ok? <==> old(OkFrom(4, outer, xMin, xMax, yMin, yMax))
    ensures r.Err? ==> r.error == old(FirstError(4, outer, xMin, xMax, yMin, yMax))
    ensures items == old(BuiltFrom(4, inner, outer, xMin, xMax, yMin, yMax, previous, newUuids))
  {
    var item := TextsStep(inner, outer, yMin, yMax, true, previous[4], newUuids[4]);
    if item.Err? {
      return previous[4..], Err(item.error);
    }
    items, r := [Some(item.value)], Ok(());
  }

  /** The generator calls of `_build_render_items`, from the previous
    * items to the new ones. */
  method BuildItems(inner: Viewport, outer: ViewportUnitConverter, xMin: real, xMax: real, yMin: real, yMax: real,
                    previous: seq<Option<RenderItem>>, newUuids: seq<string>)
    returns (items: seq<Option<RenderItem>>, r: Result<()>)
    requires xMin < xMax && yMin < yMax && |previous| == 5 && |newUuids| == 5
    ensures r.Ok? <==> old(BuildOk(outer, xMin, xMax, yMin, yMax))
    ensures r.Err? ==> r.error == old(BuildError(outer, xMin, xMax, yMin, yMax))
    ensures items == old(BuiltItems(inner, outer, xMin, xMax, yMin, yMax, previous, newUuids))
  {
    BuildOkFrom(outer, xMin, xMax, yMin, yMax);
    if !BuildOk(outer, xMin, xMax, yMin, yMax) {
      BuildErrorIsFirst(outer, xMin, xMax, yMin, yMax);
    }
    var item := SegmentsStep(inner, outer, previous[0], newUuids[0]);
    if item.Err? {
      return previous, Err(item.error);
    }
    var rest;
    rest, r := BuildAfterSegments(inner, outer, xMin, xMax, yMin, yMax, previous, newUuids);
    items := [Some(item.value)] + rest;
  }

  lemma FiveItems(s: seq<Option<RenderItem>>)
    requires |s| == 5
    ensures s == [s[0], s[1], s[2], s[3], s[4]]
  {
  }

  class AxesDisplay {
    const canvas: Canvas
    const innerViewport: Viewport
    /** Covers the whole canvas, as it was sized at construction. */
    const outerViewport: Viewport
    const innerUnit: ViewportUnitConverter
    const outerUnit: ViewportUnitConverter
    const newLimitsEvent: Event<Callback>
    var xMin: real
    var xMax: real
    var yMin: real
    var yMax: real
    var axesSegmentsItem: Option<RenderItem>
    var ticksHorizontalItem: Option<RenderItem>
    var ticksVerticalItem: Option<RenderItem>
    var textsHorizontalItem: Option<RenderItem>
    var textsVerticalItem: Option<RenderItem>

    /** Both ranges are non-empty and the converters are wired to the
      * canvas and the two viewports. */
    ghost predicate Valid()
      reads this
    {
      xMin < xMax && yMin < yMax
      && innerUnit.canvas == canvas && innerUnit.viewport == innerViewport
      && outerUnit.canvas == canvas && outerUnit.viewport == outerViewport
    }

    /** The five render items, in `get_render_items` order. */
    function Items(): (r: seq<Option<RenderItem>>)
      reads this
      ensures |r| == 5
    {
      [axesSegmentsItem, ticksHorizontalItem, ticksVerticalItem, textsHorizontalItem, textsVerticalItem]
    }

    /** `__init__` up to the first build: an outer viewport over the whole
      * canvas, converters for both viewports, limits [-1, 1] on both axes,
      * no listeners and no items. */
    constructor(canvas: Canvas, innerViewport: Viewport, outerUuid: string)
      ensures Valid()
      ensures this.canvas == canvas && this.innerViewport == innerViewport
      ensures fresh(outerViewport) && fresh(newLimitsEvent)
      ensures outerViewport.uuid == outerUuid && outerViewport.x == 0 && outerViewport.y == 0
      ensures outerViewport.width == canvas.width && outerViewport.height == canvas.height
      ensures newLimitsEvent.callbacks == []
      ensures xMin == -1.0 && xMax == 1.0 && yMin == -1.0 && yMax == 1.0
      ensures Items() == NoItems
    {
      this.canvas := canvas;
      this.innerViewport := innerViewport;
      var outer := new Viewport(outerUuid, 0, 0, canvas.width, canvas.height);
      outerViewport := outer;
      innerUnit := new ViewportUnitConverter(canvas, innerViewport);
      outerUnit := new ViewportUnitConverter(canvas, outer);
      xMin, xMax, yMin, yMax := -1.0, 1.0, -1.0, 1.0;
      newLimitsEvent := new Event<Callback>();
      axesSegmentsItem, ticksHorizontalItem, ticksVerticalItem := None, None, None;
      textsHorizontalItem, textsVerticalItem := None, None;
    }

    /** `_build_render_items`; `newUuids` holds the uuids the five new visuals
      * are created with. The first failing generator raises its exception
      * and leaves the items it did not reach as they were. */
    method BuildRenderItems(newUuids: seq<string>) returns (r: Result<()>)
      requires Valid() && |newUuids| == 5
      modifies this
      ensures Valid()
      ensures xMin == old(xMin) && xMax == old(xMax) && yMin == old(yMin) && yMax == old(yMax)
      ensures r.Ok? <==> old(BuildOk(outerUnit, xMin, xMax, yMin, yMax))
      ensures r.Err? ==> r.error == old(BuildError(outerUnit, xMin, xMax, yMin, yMax))
      ensures Items() == old(BuiltItems(innerViewport, outerUnit, xMin, xMax, yMin, yMax, Items(), newUuids))
    {
      var items;
      items, r := BuildItems(innerViewport, outerUnit, xMin, xMax, yMin, yMax, Items(), newUuids);
      FiveItems(items);
      axesSegmentsItem, ticksHorizontalItem, ticksVerticalItem := items[0], items[1], items[2];
      textsHorizontalItem, textsVerticalItem := items[3], items[4];
    }

    /** `set_limits_dunit`: both ranges must be non-empty (AssertionError,
      * nothing changed); then the limits are stored, the items rebuilt,
      * and every new-limits listener called once, in subscription order. */
    method SetLimitsDunit(xMin: real, xMax: real, yMin: real, yMax: real, newUuids: seq<string>)
      returns (r: Result<seq<Call<Callback, ()>>>)
      requires Valid() && |newUuids| == 5
      modifies this
      ensures Valid()
      ensures !(xMin < xMax && yMin < yMax) ==>
        r == Err(AssertionError) && Items() == old(Items())
        && this.xMin == old(this.xMin) && this.xMax == old(this.xMax)
        && this.yMin == old(this.yMin) && this.yMax == old(this.yMax)
      ensures xMin < xMax && yMin < yMax ==>
        this.xMin == xMin && this.xMax == xMax && this.yMin == yMin && this.yMax == yMax
        && Items() == old(BuiltItems(innerViewport, outerUnit, xMin, xMax, yMin, yMax, Items(), newUuids))
        && (r.Ok? <==> old(BuildOk(outerUnit, xMin, xMax, yMin, yMax)))
        && (r.Err? ==> r.error == old(BuildError(outerUnit, xMin, xMax, yMin, yMax)))
      ensures r.Ok? ==> Callees(r.value) == newLimitsEvent.callbacks
    {
      if !(xMin < xMax) || !(yMin < yMax) {
        return Err(AssertionError);
      }
      ghost var previous := Items();
      ghost var expected := BuiltItems(innerViewport, outerUnit, xMin, xMax, yMin, yMax, previous, newUuids);
      ghost var expectedOk := BuildOk(outerUnit, xMin, xMax, yMin, yMax);
      ghost var expectedError := if expectedOk then ZeroDivisionError else BuildError(outerUnit, xMin, xMax, yMin, yMax);
      this.xMin, this.xMax, this.yMin, this.yMax := xMin, xMax, yMin, yMax;
      assert BuiltItems(innerViewport, outerUnit, xMin, xMax, yMin, yMax, previous, newUuids) == expected;
      assert BuildOk(outerUnit, xMin, xMax, yMin, yMax) == expectedOk;
      assert !expectedOk ==> BuildError(outerUnit, xMin, xMax, yMin, yMax) == expectedError;
      var built := BuildRenderItems(newUuids);
      if built.Err? {
        return Err(built.error);
      }
      var calls := newLimitsEvent.Dispatch(());
      r := Ok(calls);
    }

    /** `get_limits_dunit`. */
    function GetLimitsDunit(): (real, real, real, real)
      reads this
    {
      (xMin, xMax, yMin, yMax)
    }

    /** `get_render_items`: AssertionError while any item is missing,
      * otherwise the five items in order. */
    function GetRenderItems(): (r: Result<seq<RenderItem>>)
      reads this
      ensures r.Ok? <==> None !in Items()
      ensures r.Err? ==> r.error == AssertionError
      ensures r.Ok? ==> |r.value| == 5 && forall i :: 0 <= i < 5 ==> Some(r.value[i]) == Items()[i]
    {
      if axesSegmentsItem.None? || ticksHorizontalItem.None? || ticksVerticalItem.None?
         || textsHorizontalItem.None? || textsVerticalItem.None? then Err(AssertionError)
      else Ok([axesSegmentsItem.value, ticksHorizontalItem.value, ticksVerticalItem.value,
               textsHorizontalItem.value, textsVerticalItem.value])
    }

    /** The action of `get_transform_matrix_numpy` on a point. */
    function TransformPoint(p: Vec3): Vec3
      reads this
      requires Valid()
    {
      (DataToNdc(p.0, xMin, xMax), DataToNdc(p.1, yMin, yMax), p.2)
    }

    /** The transform maps the limits box onto the NDC square and leaves
      * depth alone. */
    lemma TransformMapsLimits(z: real)
      requires Valid()
      ensures TransformPoint((xMin, yMin, z)) == (-1.0, -1.0, z)
      ensures TransformPoint((xMax, yMax, z)) == (1.0, 1.0, z)
    {
      DataToNdcLimits(xMin, xMax);
      DataToNdcLimits(yMin, yMax);
    }
  }

  /** `AxesDisplay(canvas, inner_viewport)`: construction followed by the
    * first build. With limits [-1, 1] there are ticks on both axes, so the
    * build needs a canvas with non-zero width, height and dpi; the items
    * then carry the new uuids. */
  method NewAxesDisplay(canvas: Canvas, innerViewport: Viewport, outerUuid: string, newUuids: seq<string>)
    returns (r: Result<AxesDisplay>)
    requires |newUuids| == 5
    ensures r.Ok? <==> canvas.width != 0 && canvas.height != 0 && canvas.dpi != 0.0
    ensures r.Err? ==> r.error == ZeroDivisionError
    ensures r.Ok? ==>
      fresh(r.value) && r.value.Valid() && r.value.canvas == canvas && r.value.innerViewport == innerViewport
      && r.value.GetLimitsDunit() == (-1.0, 1.0, -1.0, 1.0)
      && r.value.GetRenderItems().Ok?
      && forall i :: 0 <= i < 5 ==> r.value.GetRenderItems().value[i].visual.uuid == newUuids[i]
  {
    var display := new AxesDisplay(canvas, innerViewport, outerUuid);
    TickMakesTicksNonEmpty(-1.0, 1.0, 0);
    ghost var outer := display.outerUnit;
    var built := display.BuildRenderItems(newUuids);
    if built.Err? {
      return Err(built.error);
    }
    BuildOkFillsItems(innerViewport, outer, -1.0, 1.0, -1.0, 1.0, NoItems, newUuids);
    forall i | 0 <= i < 5
      ensures display.Items()[i].value.visual.uuid == newUuids[i]
    {
      BuiltItemsKeepUuids(innerViewport, outer, -1.0, 1.0, -1.0, 1.0, NoItems, newUuids, i);
    }
    r := Ok(display);
  }
}
