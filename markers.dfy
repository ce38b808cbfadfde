/** `Markers`: a marker shape and five attribute slots. Its general check
  * does nothing; the buffer-only check requires the five slots to hold
  * buffers. */
module MarkersVisual {
  import opened Wrappers
  import opened Styles
  import opened TransBufs
  import opened VisualBases

  /** `Markers.sanity_check_attributes_buffer`. */
  function SanityCheckAttributesBuffer(markerShape: MarkerShape, positions: TransBuf, sizes: TransBuf,
                                       faceColors: TransBuf, edgeColors: TransBuf, edgeWidths: TransBuf): (r: Result<()>)
    ensures r.Ok? <==> positions.BufferSlot? && sizes.BufferSlot? && faceColors.BufferSlot?
                       && edgeColors.BufferSlot? && edgeWidths.BufferSlot?
    ensures r.Err? ==> r.error == AssertionError
  {
    var slots := [positions, sizes, faceColors, edgeColors, edgeWidths];
    assert slots[0] == positions && slots[1] == sizes && slots[2] == faceColors;
    assert slots[3] == edgeColors && slots[4] == edgeWidths;
    AllBuffers(slots)
  }

  class Markers {
    var uuid: string
    var markerShape: MarkerShape
    var positions: TransBuf
    var sizes: TransBuf
    var faceColors: TransBuf
    var edgeColors: TransBuf
    var edgeWidths: TransBuf

    constructor(uuid: string, markerShape: MarkerShape, positions: TransBuf, sizes: TransBuf,
                faceColors: TransBuf, edgeColors: TransBuf, edgeWidths: TransBuf)
      ensures this.uuid == uuid && this.markerShape == markerShape && this.positions == positions
      ensures this.sizes == sizes && this.faceColors == faceColors
      ensures this.edgeColors == edgeColors && this.edgeWidths == edgeWidths
    {
      this.uuid := uuid;
      this.markerShape := markerShape;
      this.positions := positions;
      this.sizes := sizes;
      this.faceColors := faceColors;
      this.edgeColors := edgeColors;
      this.edgeWidths := edgeWidths;
    }

    method SetMarkerShape(markerShape: MarkerShape)
      modifies this
      ensures this.markerShape == markerShape
      ensures uuid == old(uuid) && positions == old(positions) && sizes == old(sizes)
      ensures faceColors == old(faceColors) && edgeColors == old(edgeColors) && edgeWidths == old(edgeWidths)
    {
      this.markerShape := markerShape;
    }

    method SetPositions(positions: TransBuf)
      modifies this
      ensures this.positions == positions
      ensures uuid == old(uuid) && markerShape == old(markerShape) && sizes == old(sizes)
      ensures faceColors == old(faceColors) && edgeColors == old(edgeColors) && edgeWidths == old(edgeWidths)
    {
      this.positions := positions;
    }

    method SetSizes(sizes: TransBuf)
      modifies this
      ensures this.sizes == sizes
      ensures uuid == old(uuid) && markerShape == old(markerShape) && positions == old(positions)
      ensures faceColors == old(faceColors) && edgeColors == old(edgeColors) && edgeWidths == old(edgeWidths)
    {
      this.sizes := sizes;
    }

    method SetFaceColors(faceColors: TransBuf)
      modifies this
      ensures this.faceColors == faceColors
      ensures uuid == old(uuid) && markerShape == old(markerShape) && positions == old(positions)
      ensures sizes == old(sizes) && edgeColors == old(edgeColors) && edgeWidths == old(edgeWidths)
    {
      this.faceColors := faceColors;
    }

    method SetEdgeColors(edgeColors: TransBuf)
      modifies this
      ensures this.edgeColors == edgeColors
      ensures uuid == old(uuid) && markerShape == old(markerShape) && positions == old(positions)
      ensures sizes == old(sizes) && faceColors == old(faceColors) && edgeWidths == old(edgeWidths)
    {
      this.edgeColors := edgeColors;
    }

    method SetEdgeWidths(edgeWidths: TransBuf)
      modifies this
      ensures this.edgeWidths == edgeWidths
      ensures uuid == old(uuid) && markerShape == old(markerShape) && positions == old(positions)
      ensures sizes == old(sizes) && faceColors == old(faceColors) && edgeColors == old(edgeColors)
    {
      this.edgeWidths := edgeWidths;
    }

    /** Replaces the fields passed as non-None and keeps the others. */
    method SetAttributes(markerShape: Option<MarkerShape>, positions: Option<TransBuf>, sizes: Option<TransBuf>,
                         faceColors: Option<TransBuf>, edgeColors: Option<TransBuf>, edgeWidths: Option<TransBuf>)
      modifies this
      ensures this.markerShape == markerShape.GetOr(old(this.markerShape))
      ensures this.positions == positions.GetOr(old(this.positions))
      ensures this.sizes == sizes.GetOr(old(this.sizes))
      ensures this.faceColors == faceColors.GetOr(old(this.faceColors))
      ensures this.edgeColors == edgeColors.GetOr(old(this.edgeColors))
      ensures this.edgeWidths == edgeWidths.GetOr(old(this.edgeWidths))
      ensures uuid == old(uuid)
    {
      if markerShape.Some? {
        this.markerShape := markerShape.value;
      }
      if positions.Some? {
        this.positions := positions.value;
      }
      if sizes.Some? {
        this.sizes := sizes.value;
      }
      if faceColors.Some? {
        this.faceColors := faceColors.value;
      }
      if edgeColors.Some? {
        this.edgeColors := edgeColors.value;
      }
      if edgeWidths.Some? {
        this.edgeWidths := edgeWidths.value;
      }
    }
  }
}
