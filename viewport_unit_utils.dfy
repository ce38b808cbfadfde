/** `ViewportUnitUtils`: converts deltas given in pixels or centimetres
  * into normalized device coordinates (NDC) of a viewport, whose extent is
  * 2.0 on each axis. Canvas and viewport sizes are read when a conversion
  * runs. Python's int and float division are modelled over reals; a zero
  * divisor raises ZeroDivisionError. */
module ViewportUnitUtils {
  import opened Wrappers
  import opened Canvases
  import opened Viewports

  const CmPerInch: real := 2.54
  const NdcRange: real := 2.0

  /** Inches to centimetres. The helper the converter calls is not defined
    * by `UnitUtils`; it is given here its evident meaning. */
  function InToCm(inches: real): (r: real)
    ensures r == inches * CmPerInch
  {
    inches * CmPerInch
  }

  /** `a / b` in Python. */
  function Divide(a: real, b: real): (r: Result<real>)
    ensures r.Ok? <==> b != 0.0
    ensures r.Err? ==> r.error == ZeroDivisionError
    ensures r.Ok? ==> r.value * b == a
  {
    if b == 0.0 then Err(ZeroDivisionError) else Ok(a / b)
  }

  lemma DivideSelf(b: real)
    requires b != 0.0
    ensures Divide(b, b) == Ok(1.0)
  {
  }

  class ViewportUnitConverter {
    const canvas: Canvas
    const viewport: Viewport

    constructor(canvas: Canvas, viewport: Viewport)
      ensures this.canvas == canvas && this.viewport == viewport
    {
      this.canvas := canvas;
      this.viewport := viewport;
    }

    /** `_get_canvas_width_cm` as written: after the division by the dpi,
      * looking up `UnitUtils.in_to_cm` fails. */
    function CanvasWidthCmAsWritten(): (r: Result<real>)
      reads canvas
      ensures r.Err?
      ensures canvas.dpi != 0.0 ==> r.error == AttributeError
      ensures canvas.dpi == 0.0 ==> r.error == ZeroDivisionError
    {
      var inches :- Divide(canvas.width as real, canvas.dpi);
      Err(AttributeError)
    }

    /** `_get_canvas_width_cm` with inches converted to centimetres: the
      * canvas's physical width. */
    function CanvasWidthCm(): (r: Result<real>)
      reads canvas
      ensures r.Ok? <==> canvas.dpi != 0.0
      ensures r.Err? ==> r.error == ZeroDivisionError
      ensures r.Ok? ==> r.value * canvas.dpi == canvas.width as real * CmPerInch
    {
      var inches :- Divide(canvas.width as real, canvas.dpi);
      Ok(InToCm(inches))
    }

    function CanvasHeightCm(): (r: Result<real>)
      reads canvas
      ensures r.Ok? <==> canvas.dpi != 0.0
      ensures r.Err? ==> r.error == ZeroDivisionError
      ensures r.Ok? ==> r.value * canvas.dpi == canvas.height as real * CmPerInch
    {
      var inches :- Divide(canvas.height as real, canvas.dpi);
      Ok(InToCm(inches))
    }

    /** `_get_viewport_width_cm`: the viewport's share of the canvas width,
      * times the canvas width in centimetres. */
    function ViewportWidthCm(): (r: Result<real>)
      reads canvas, viewport
      ensures r.Ok? <==> canvas.width != 0 && canvas.dpi != 0.0
      ensures r.Err? ==> r.error == ZeroDivisionError
      ensures r.Ok? ==> r.value * canvas.dpi == viewport.width as real * CmPerInch
    {
      var ratio :- Divide(viewport.width as real, canvas.width as real);
      var canvasCm :- CanvasWidthCm();
      ViewportCmOfRatio(viewport.width as real, canvas.width as real, canvas.dpi, ratio, canvasCm);
      Ok(ratio * canvasCm)
    }

    function ViewportHeightCm(): (r: Result<real>)
      reads canvas, viewport
      ensures r.Ok? <==> canvas.height != 0 && canvas.dpi != 0.0
      ensures r.Err? ==> r.error == ZeroDivisionError
      ensures r.Ok? ==> r.value * canvas.dpi == viewport.height as real * CmPerInch
    {
      var ratio :- Divide(viewport.height as real, canvas.height as real);
      var canvasCm :- CanvasHeightCm();
      ViewportCmOfRatio(viewport.height as real, canvas.height as real, canvas.dpi, ratio, canvasCm);
      Ok(ratio * canvasCm)
    }

    /** `delta_pixel_to_ndc`: each delta over the viewport's pixel size,
      * times 2. */
    function DeltaPixelToNdc(dx: real, dy: real): (r: Result<(real, real)>)
      reads viewport
      ensures r.Ok? <==> viewport.width != 0 && viewport.height != 0
      ensures r.Err? ==> r.error == ZeroDivisionError
      ensures r.Ok? ==> r.value.0 * viewport.width as real == NdcRange * dx
      ensures r.Ok? ==> r.value.1 * viewport.height as real == NdcRange * dy
    {
      var x :- Divide(dx, viewport.width as real);
      var y :- Divide(dy, viewport.height as real);
      Ok((x * NdcRange, y * NdcRange))
    }

    /** `delta_cm_to_ndc`: each delta over the viewport's size in
      * centimetres, times 2. A viewport of zero size has a zero size in
      * centimetres, which is then a zero divisor. */
    function DeltaCmToNdc(dx: real, dy: real): (r: Result<(real, real)>)
      reads canvas, viewport
      ensures r.Ok? <==> canvas.width != 0 && canvas.height != 0 && canvas.dpi != 0.0
                         && viewport.width != 0 && viewport.height != 0
      ensures r.Err? ==> r.error == ZeroDivisionError
      ensures r.Ok? ==> r.value.0 * ViewportWidthCm().value == NdcRange * dx
      ensures r.Ok? ==> r.value.1 * ViewportHeightCm().value == NdcRange * dy
    {
      var widthCm :- ViewportWidthCm();
      var x :- Divide(dx, widthCm);
      var heightCm :- ViewportHeightCm();
      var y :- Divide(dy, heightCm);
      Ok((x * NdcRange, y * NdcRange))
    }

    /** The viewport's own extent, in pixels or in centimetres, spans the
      * whole NDC range. */
    lemma FullViewportIsTwo()
      requires viewport.width != 0 && viewport.height != 0
      requires canvas.width != 0 && canvas.height != 0 && canvas.dpi != 0.0
      ensures DeltaPixelToNdc(viewport.width as real, viewport.height as real) == Ok((NdcRange, NdcRange))
      ensures DeltaCmToNdc(ViewportWidthCm().value, ViewportHeightCm().value) == Ok((NdcRange, NdcRange))
    {
      var w, h := ViewportWidthCm().value, ViewportHeightCm().value;
      assert w != 0.0 && h != 0.0;
      DivideSelf(viewport.width as real);
      DivideSelf(viewport.height as real);
      DivideSelf(w);
      DivideSelf(h);
    }

    /** Pixel conversion is linear: sums and multiples of deltas convert
      * to sums and multiples of their NDC deltas, and 0 maps to 0. */
    lemma PixelConversionLinear(a: real, b: real, k: real)
      requires DeltaPixelToNdc(0.0, 0.0).Ok?
      ensures DeltaPixelToNdc(a + b, a + b).value.0 == DeltaPixelToNdc(a, a).value.0 + DeltaPixelToNdc(b, b).value.0
      ensures DeltaPixelToNdc(k * a, k * a).value.1 == k * DeltaPixelToNdc(a, a).value.1
      ensures DeltaPixelToNdc(0.0, 0.0) == Ok((0.0, 0.0))
    {
      ScaleLinear(a, b, k, viewport.width as real);
      ScaleLinear(a, b, k, viewport.height as real);
    }

    /** Centimetre conversion is linear in the same way. */
    lemma CmConversionLinear(a: real, b: real, k: real)
      requires DeltaCmToNdc(0.0, 0.0).Ok?
      ensures DeltaCmToNdc(a + b, a + b).value.0 == DeltaCmToNdc(a, a).value.0 + DeltaCmToNdc(b, b).value.0
      ensures DeltaCmToNdc(k * a, k * a).value.1 == k * DeltaCmToNdc(a, a).value.1
      ensures DeltaCmToNdc(0.0, 0.0) == Ok((0.0, 0.0))
    {
      ScaleLinear(a, b, k, ViewportWidthCm().value);
      ScaleLinear(a, b, k, ViewportHeightCm().value);
    }

    /** Converting a pixel delta to centimetres at the canvas dpi and then
      * to NDC gives the NDC delta of the pixels themselves. */
    lemma CentimetresAgreeWithPixels(dx: real, dy: real)
      requires DeltaCmToNdc(0.0, 0.0).Ok?
      ensures DeltaCmToNdc(InToCm(dx / canvas.dpi), InToCm(dy / canvas.dpi)) == DeltaPixelToNdc(dx, dy)
    {
      var d := canvas.dpi;
      var w, h := viewport.width as real, viewport.height as real;
      var wc, hc := ViewportWidthCm().value, ViewportHeightCm().value;
      ScaledRatio(dx, w, wc, d);
      ScaledRatio(dy, h, hc, d);
    }
  }

  /** Dividing by a fixed non-zero size and doubling is linear. */
  lemma ScaleLinear(a: real, b: real, k: real, w: real)
    requires w != 0.0
    ensures (a + b) / w * NdcRange == a / w * NdcRange + b / w * NdcRange
    ensures (k * a) / w * NdcRange == k * (a / w * NdcRange)
    ensures 0.0 / w * NdcRange == 0.0
  {
  }

  /** The product the viewport size in centimetres is computed as. */
  lemma ViewportCmOfRatio(part: real, whole: real, dpi: real, ratio: real, wholeCm: real)
    requires whole != 0.0 && dpi != 0.0
    requires ratio * whole == part && wholeCm * dpi == whole * CmPerInch
    ensures ratio * wholeCm * dpi == part * CmPerInch
  {
    calc {
      ratio * wholeCm * dpi;
      ratio * (wholeCm * dpi);
      ratio * (whole * CmPerInch);
      (ratio * whole) * CmPerInch;
    }
  }

  /** d/dpi·2.54 over the size's own w/dpi·2.54 is d over w. */
  lemma ScaledRatio(d: real, w: real, wc: real, dpi: real)
    requires w != 0.0 && dpi != 0.0 && wc * dpi == w * CmPerInch
    ensures InToCm(d / dpi) / wc * NdcRange == d / w * NdcRange
  {
    assert wc != 0.0;
    var c := d / dpi * CmPerInch;
    assert c * dpi == d * CmPerInch;
    assert c * w * dpi == d * wc * dpi by {
      calc {
        c * w * dpi;
        (c * dpi) * w;
        d * CmPerInch * w;
        d * (w * CmPerInch);
        d * (wc * dpi);
      }
    }
    assert c * w == d * wc;
    assert c / wc == d / w;
  }
}
