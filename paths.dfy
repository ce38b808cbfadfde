/** `Paths`: vertex positions, per-path vertex counts, colors, line widths,
  * and cap and join styles. Its general check does nothing; the
  * buffer-only check requires the four slots to hold buffers. */
module PathsVisual {
  import opened Wrappers
  import opened Styles
  import opened TransBufs
  import opened VisualBases

  /** `Paths.sanity_check_attributes_buffer`. */
  function SanityCheckAttributesBuffer(positions: TransBuf, pathSizes: TransBuf, colors: TransBuf,
                                       lineWidths: TransBuf, capStyle: CapStyle, joinStyle: JoinStyle): (r: Result<()>)
    ensures r.Ok? <==> positions.BufferSlot? && pathSizes.BufferSlot? && colors.BufferSlot? && lineWidths.BufferSlot?
    ensures r.Err? ==> r.error == AssertionError
  {
    var slots := [positions, pathSizes, colors, lineWidths];
    assert slots[0] == positions && slots[1] == pathSizes && slots[2] == colors && slots[3] == lineWidths;
    AllBuffers(slots)
  }

  class Paths {
    var uuid: string
    var positions: TransBuf
    var pathSizes: TransBuf
    var colors: TransBuf
    var lineWidths: TransBuf
    var capStyle: CapStyle
    var joinStyle: JoinStyle

    constructor(uuid: string, positions: TransBuf, pathSizes: TransBuf, colors: TransBuf, lineWidths: TransBuf,
                capStyle: CapStyle, joinStyle: JoinStyle)
      ensures this.uuid == uuid && this.positions == positions && this.pathSizes == pathSizes
      ensures this.colors == colors && this.lineWidths == lineWidths
      ensures this.capStyle == capStyle && this.joinStyle == joinStyle
    {
      this.uuid := uuid;
      this.positions := positions;
      this.pathSizes := pathSizes;
      this.colors := colors;
      this.lineWidths := lineWidths;
      this.capStyle := capStyle;
      this.joinStyle := joinStyle;
    }

    method SetPositions(positions: TransBuf)
      modifies this
      ensures this.positions == positions
      ensures uuid == old(uuid) && pathSizes == old(pathSizes) && colors == old(colors)
      ensures lineWidths == old(lineWidths) && capStyle == old(capStyle) && joinStyle == old(joinStyle)
    {
      this.positions := positions;
    }

    method SetPathSizes(pathSizes: TransBuf)
      modifies this
      ensures this.pathSizes == pathSizes
      ensures uuid == old(uuid) && positions == old(positions) && colors == old(colors)
      ensures lineWidths == old(lineWidths) && capStyle == old(capStyle) && joinStyle == old(joinStyle)
    {
      this.pathSizes := pathSizes;
    }

    method SetColors(colors: TransBuf)
      modifies this
      ensures this.colors == colors
      ensures uuid == old(uuid) && positions == old(positions) && pathSizes == old(pathSizes)
      ensures lineWidths == old(lineWidths) && capStyle == old(capStyle) && joinStyle == old(joinStyle)
    {
      this.colors := colors;
    }

    method SetLineWidths(lineWidths: TransBuf)
      modifies this
      ensures this.lineWidths == lineWidths
      ensures uuid == old(uuid) && positions == old(positions) && pathSizes == old(pathSizes)
      ensures colors == old(colors) && capStyle == old(capStyle) && joinStyle == old(joinStyle)
    {
      this.lineWidths := lineWidths;
    }

    method SetCapStyle(capStyle: CapStyle)
      modifies this
      ensures this.capStyle == capStyle
      ensures uuid == old(uuid) && positions == old(positions) && pathSizes == old(pathSizes)
      ensures colors == old(colors) && lineWidths == old(lineWidths) && joinStyle == old(joinStyle)
    {
      this.capStyle := capStyle;
    }

    method SetJoinStyle(joinStyle: JoinStyle)
      modifies this
      ensures this.joinStyle == joinStyle
      ensures uuid == old(uuid) && positions == old(positions) && pathSizes == old(pathSizes)
      ensures colors == old(colors) && lineWidths == old(lineWidths) && capStyle == old(capStyle)
    {
      this.joinStyle := joinStyle;
    }

    /** Replaces the fields passed as non-None and keeps the others. */
    method SetAttributes(positions: Option<TransBuf>, pathSizes: Option<TransBuf>, colors: Option<TransBuf>,
                         lineWidths: Option<TransBuf>, capStyle: Option<CapStyle>, joinStyle: Option<JoinStyle>)
      modifies this
      ensures this.positions == positions.GetOr(old(this.positions))
      ensures this.pathSizes == pathSizes.GetOr(old(this.pathSizes))
      ensures this.colors == colors.GetOr(old(this.colors))
      ensures this.lineWidths == lineWidths.GetOr(old(this.lineWidths))
      ensures this.capStyle == capStyle.GetOr(old(this.capStyle))
      ensures this.joinStyle == joinStyle.GetOr(old(this.joinStyle))
      ensures uuid == old(uuid)
    {
      if positions.Some? {
        this.positions := positions.value;
      }
      if pathSizes.Some? {
        this.pathSizes := pathSizes.value;
      }
      if colors.Some? {
        this.colors := colors.value;
      }
      if lineWidths.Some? {
        this.lineWidths := lineWidths.value;
      }
      if capStyle.Some? {
        this.capStyle := capStyle.value;
      }
      if joinStyle.Some? {
        this.joinStyle := joinStyle.value;
      }
    }
  }
}
