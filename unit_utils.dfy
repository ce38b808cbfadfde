/** `UnitUtils`: conversion between pixels and typographic points (1/72
  * inch) at a given dpi, over reals. */
module UnitUtils {
  import opened Wrappers

  const PointsPerInch: real := 72.0

  /** `pixel_to_point`: size × (1/dpi) × 72. The reciprocal of a zero dpi
    * raises ZeroDivisionError. */
  function PixelToPoint(pixelSize: real, dpi: real): (r: Result<real>)
    ensures r.Ok? <==> dpi != 0.0
    ensures r.Err? ==> r.error == ZeroDivisionError
    ensures r.Ok? ==> r.value * dpi == pixelSize * PointsPerInch
  {
    if dpi == 0.0 then Err(ZeroDivisionError)
    else Ok(pixelSize * (1.0 / dpi) * PointsPerInch)
  }

  /** `point_to_pixel`: size × (1/72) × dpi. */
  function PointToPixel(pointSize: real, dpi: real): (r: real)
    ensures r * PointsPerInch == pointSize * dpi
  {
    pointSize * (1.0 / PointsPerInch) * dpi
  }

  /** The two conversions undo each other for any non-zero dpi. */
  lemma PixelPointRoundTrip(size: real, dpi: real)
    requires dpi != 0.0
    ensures PointToPixel(PixelToPoint(size, dpi).value, dpi) == size
    ensures PixelToPoint(PointToPixel(size, dpi), dpi) == Ok(size)
  {
    var p := PixelToPoint(size, dpi).value;
    assert p * dpi == size * 72.0;
    calc {
      PointToPixel(p, dpi) * 72.0;
      p * dpi;
      size * 72.0;
    }
    var q := PointToPixel(size, dpi);
    var inv := 1.0 / dpi;
    assert dpi * inv == 1.0;
    calc {
      PixelToPoint(q, dpi).value;
      size * (1.0 / 72.0) * dpi * inv * 72.0;
      size * ((1.0 / 72.0) * 72.0) * (dpi * inv);
      size;
    }
  }

  /** Both are linear in the size, and both are the identity at 72 dpi. */
  lemma ConversionsLinear(a: real, b: real, k: real, dpi: real)
    requires dpi != 0.0
    ensures PixelToPoint(a + b, dpi).value == PixelToPoint(a, dpi).value + PixelToPoint(b, dpi).value
    ensures PixelToPoint(k * a, dpi).value == k * PixelToPoint(a, dpi).value
    ensures PointToPixel(a + b, dpi) == PointToPixel(a, dpi) + PointToPixel(b, dpi)
    ensures PointToPixel(k * a, dpi) == k * PointToPixel(a, dpi)
    ensures PixelToPoint(a, PointsPerInch) == Ok(a) && PointToPixel(a, PointsPerInch) == a
  {
    var inv := 1.0 / dpi;
    assert (a + b) * inv * 72.0 == a * inv * 72.0 + b * inv * 72.0;
    assert (k * a) * inv * 72.0 == k * (a * inv * 72.0);
    var c := 1.0 / 72.0;
    assert (a + b) * c * dpi == a * c * dpi + b * c * dpi;
    assert (k * a) * c * dpi == k * (a * c * dpi);
  }
}
