/** `Segments`: positions, line widths, a cap style and colors. Its general
  * check does nothing (and, unlike the other visuals, the constructor does
  * not even call it); the buffer-only check requires the three slots to
  * hold buffers. */
module SegmentsVisual {
  import opened Wrappers
  import opened Styles
  import opened TransBufs
  import opened VisualBases

  /** `Segments.sanity_check_attributes_buffer`. */
  function SanityCheckAttributesBuffer(positions: TransBuf, lineWidths: TransBuf, capStyle: CapStyle,
                                       colors: TransBuf): (r: Result<()>)
    ensures r.Ok? <==> positions.BufferSlot? && lineWidths.BufferSlot? && colors.BufferSlot?
    ensures r.Err? ==> r.error == AssertionError
  {
    var slots := [positions, lineWidths, colors];
    assert slots[0] == positions && slots[1] == lineWidths && slots[2] == colors;
    AllBuffers(slots)
  }

  class Segments {
    var uuid: string
    var positions: TransBuf
    var lineWidths: TransBuf
    var capStyle: CapStyle
    var colors: TransBuf

    constructor(uuid: string, positions: TransBuf, lineWidths: TransBuf, capStyle: CapStyle, colors: TransBuf)
      ensures this.uuid == uuid && this.positions == positions && this.lineWidths == lineWidths
      ensures this.capStyle == capStyle && this.colors == colors
    {
      this.uuid := uuid;
      this.positions := positions;
      this.lineWidths := lineWidths;
      this.capStyle := capStyle;
      this.colors := colors;
    }

    method SetPositions(positions: TransBuf)
      modifies this
      ensures this.positions == positions
      ensures uuid == old(uuid) && lineWidths == old(lineWidths) && capStyle == old(capStyle) && colors == old(colors)
    {
      this.positions := positions;
    }

    method SetLineWidths(lineWidths: TransBuf)
      modifies this
      ensures this.lineWidths == lineWidths
      ensures uuid == old(uuid) && positions == old(positions) && capStyle == old(capStyle) && colors == old(colors)
    {
      this.lineWidths := lineWidths;
    }

    method SetCapStyle(capStyle: CapStyle)
      modifies this
      ensures this.capStyle == capStyle
      ensures uuid == old(uuid) && positions == old(positions) && lineWidths == old(lineWidths) && colors == old(colors)
    {
      this.capStyle := capStyle;
    }

    method SetColors(colors: TransBuf)
      modifies this
      ensures this.colors == colors
      ensures uuid == old(uuid) && positions == old(positions) && lineWidths == old(lineWidths) && capStyle == old(capStyle)
    {
      this.colors := colors;
    }

    /** Replaces the fields passed as non-None and keeps the others. */
    method SetAttributes(positions: Option<TransBuf>, lineWidths: Option<TransBuf>, capStyle: Option<CapStyle>,
                         colors: Option<TransBuf>)
      modifies this
      ensures this.positions == positions.GetOr(old(this.positions))
      ensures this.lineWidths == lineWidths.GetOr(old(this.lineWidths))
      ensures this.capStyle == capStyle.GetOr(old(this.capStyle))
      ensures this.colors == colors.GetOr(old(this.colors))
      ensures uuid == old(uuid)
    {
      if positions.Some? {
        this.positions := positions.value;
      }
      if lineWidths.Some? {
        this.lineWidths := lineWidths.value;
      }
      if capStyle.Some? {
        this.capStyle := capStyle.value;
      }
      if colors.Some? {
        this.colors := colors.value;
      }
    }
  }
}
