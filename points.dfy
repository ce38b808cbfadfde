/** `Points`: five attribute slots. Its general check does nothing; the
  * buffer-only check only requires every slot to hold a buffer. */
module PointsVisual {
  import opened Wrappers
  import opened TransBufs
  import opened VisualBases

  /** `Points.sanity_check_attributes_buffer`. */
  function SanityCheckAttributesBuffer(positions: TransBuf, sizes: TransBuf, faceColors: TransBuf,
                                       edgeColors: TransBuf, edgeWidths: TransBuf): (r: Result<()>)
    ensures r.Ok? <==> positions.BufferSlot? && sizes.BufferSlot? && faceColors.BufferSlot?
                       && edgeColors.BufferSlot? && edgeWidths.BufferSlot?
    ensures r.Err? ==> r.error == AssertionError
  {
    var slots := [positions, sizes, faceColors, edgeColors, edgeWidths];
    assert slots[0] == positions && slots[1] == sizes && slots[2] == faceColors;
    assert slots[3] == edgeColors && slots[4] == edgeWidths;
    AllBuffers(slots)
  }

  /** The constructor and the setters run the general check, which never
    * fails, so none of them can fail. */
  class Points {
    var uuid: string
    var positions: TransBuf
    var sizes: TransBuf
    var faceColors: TransBuf
    var edgeColors: TransBuf
    var edgeWidths: TransBuf

    constructor(uuid: string, positions: TransBuf, sizes: TransBuf, faceColors: TransBuf,
                edgeColors: TransBuf, edgeWidths: TransBuf)
      ensures this.uuid == uuid && this.positions == positions && this.sizes == sizes
      ensures this.faceColors == faceColors && this.edgeColors == edgeColors
      ensures this.edgeWidths == edgeWidths
    {
      this.uuid := uuid;
      this.positions := positions;
      this.sizes := sizes;
      this.faceColors := faceColors;
      this.edgeColors := edgeColors;
      this.edgeWidths := edgeWidths;
    }

    method SetPositions(positions: TransBuf)
      modifies this
      ensures this.positions == positions
      ensures uuid == old(uuid) && sizes == old(sizes) && faceColors == old(faceColors)
      ensures edgeColors == old(edgeColors) && edgeWidths == old(edgeWidths)
    {
      this.positions := positions;
    }

    method SetSizes(sizes: TransBuf)
      modifies this
      ensures this.sizes == sizes
      ensures uuid == old(uuid) && positions == old(positions) && faceColors == old(faceColors)
      ensures edgeColors == old(edgeColors) && edgeWidths == old(edgeWidths)
    {
      this.sizes := sizes;
    }

    method SetFaceColors(faceColors: TransBuf)
      modifies this
      ensures this.faceColors == faceColors
      ensures uuid == old(uuid) && positions == old(positions) && sizes == old(sizes)
      ensures edgeColors == old(edgeColors) && edgeWidths == old(edgeWidths)
    {
      this.faceColors := faceColors;
    }

    method SetEdgeColors(edgeColors: TransBuf)
      modifies this
      ensures this.edgeColors == edgeColors
      ensures uuid == old(uuid) && positions == old(positions) && sizes == old(sizes)
      ensures faceColors == old(faceColors) && edgeWidths == old(edgeWidths)
    {
      this.edgeColors := edgeColors;
    }

    method SetEdgeWidths(edgeWidths: TransBuf)
      modifies this
      ensures this.edgeWidths == edgeWidths
      ensures uuid == old(uuid) && positions == old(positions) && sizes == old(sizes)
      ensures faceColors == old(faceColors) && edgeColors == old(edgeColors)
    {
      this.edgeWidths := edgeWidths;
    }

    /** Replaces the fields passed as non-None and keeps the others. */
    method SetAttributes(positions: Option<TransBuf>, sizes: Option<TransBuf>, faceColors: Option<TransBuf>,
                         edgeColors: Option<TransBuf>, edgeWidths: Option<TransBuf>)
      modifies this
      ensures this.positions == positions.GetOr(old(this.positions))
      ensures this.sizes == sizes.GetOr(old(this.sizes))
      ensures this.faceColors == faceColors.GetOr(old(this.faceColors))
      ensures this.edgeColors == edgeColors.GetOr(old(this.edgeColors))
      ensures this.edgeWidths == edgeWidths.GetOr(old(this.edgeWidths))
      ensures uuid == old(uuid)
    {
      if positions.Some? {
        this.positions := positions.value;
      }
      if sizes.Some? {
        this.sizes := sizes.value;
      }
      if faceColors.Some? {
        this.faceColors := faceColors.value;
      }
      if edgeColors.Some? {
        this.edgeColors := edgeColors.value;
      }
      if edgeWidths.Some? {
        this.edgeWidths := edgeWidths.value;
      }
    }
  }
}
