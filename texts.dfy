/** `Texts`: one label per string, with per-label positions, colors, font
  * sizes, anchors and angles, and a font name. Its general check does
  * nothing; the buffer-only check ties every attribute count to the number
  * of strings. */
module TextsVisual {
  import opened Wrappers
  import opened TransBufs
  import opened VisualBases

  /** An element of the `strings` list: a `str`, or any other object. */
  datatype TextItem = Str(text: string) | NotStr

  /** `Texts.sanity_check_attributes_buffer`: every slot holds a buffer,
    * each buffer's count is the number of strings, the font name is not
    * empty and every element of `strings` is a `str`. All failures are
    * assertions. */
  method SanityCheckAttributesBuffer(positions: TransBuf, strings: seq<TextItem>, colors: TransBuf,
                                     fontSizes: TransBuf, anchors: TransBuf, angles: TransBuf,
                                     fontName: string) returns (r: Result<()>)
    ensures r.Ok? <==>
      positions.BufferSlot? && colors.BufferSlot? && fontSizes.BufferSlot?
      && anchors.BufferSlot? && angles.BufferSlot?
      && positions.buffer.count == |strings| && colors.buffer.count == |strings|
      && fontSizes.buffer.count == |strings| && anchors.buffer.count == |strings|
      && angles.buffer.count == |strings|
      && |fontName| > 0
      && (forall i :: 0 <= i < |strings| ==> strings[i].Str?)
    ensures r.Err? ==> r.error == AssertionError
  {
    var slots := [positions, colors, fontSizes, anchors, angles];
    assert slots[0] == positions && slots[1] == colors && slots[2] == fontSizes;
    assert slots[3] == anchors && slots[4] == angles;
    var _ :- AllBuffers(slots);
    if positions.buffer.count != |strings| || colors.buffer.count != |strings|
       || fontSizes.buffer.count != |strings| || anchors.buffer.count != |strings|
       || angles.buffer.count != |strings| {
      return Err(AssertionError);
    }
    if |fontName| == 0 {
      return Err(AssertionError);
    }
    var i := 0;
    while i < |strings|
      invariant 0 <= i <= |strings|
      invariant forall k :: 0 <= k < i ==> strings[k].Str?
    {
      if !strings[i].Str? {
        return Err(AssertionError);
      }
      i := i + 1;
    }
    r := Ok(());
  }

  class Texts {
    var uuid: string
    var positions: TransBuf
    var strings: seq<TextItem>
    var colors: TransBuf
    var fontSizes: TransBuf
    var anchors: TransBuf
    var angles: TransBuf
    var fontName: string

    constructor(uuid: string, positions: TransBuf, strings: seq<TextItem>, colors: TransBuf,
                fontSizes: TransBuf, anchors: TransBuf, angles: TransBuf, fontName: string)
      ensures this.uuid == uuid && this.positions == positions && this.strings == strings
      ensures this.colors == colors && this.fontSizes == fontSizes && this.anchors == anchors
      ensures this.angles == angles && this.fontName == fontName
    {
      this.uuid := uuid;
      this.positions := positions;
      this.strings := strings;
      this.colors := colors;
      this.fontSizes := fontSizes;
      this.anchors := anchors;
      this.angles := angles;
      this.fontName := fontName;
    }

    method SetPositions(positions: TransBuf)
      modifies this
      ensures this.positions == positions
      ensures uuid == old(uuid) && strings == old(strings) && colors == old(colors) && fontSizes == old(fontSizes)
      ensures anchors == old(anchors) && angles == old(angles) && fontName == old(fontName)
    {
      this.positions := positions;
    }

    method SetStrings(strings: seq<TextItem>)
      modifies this
      ensures this.strings == strings
      ensures uuid == old(uuid) && positions == old(positions) && colors == old(colors) && fontSizes == old(fontSizes)
      ensures anchors == old(anchors) && angles == old(angles) && fontName == old(fontName)
    {
      this.strings := strings;
    }

    method SetColors(colors: TransBuf)
      modifies this
      ensures this.colors == colors
      ensures uuid == old(uuid) && positions == old(positions) && strings == old(strings) && fontSizes == old(fontSizes)
      ensures anchors == old(anchors) && angles == old(angles) && fontName == old(fontName)
    {
      this.colors := colors;
    }

    method SetFontSizes(fontSizes: TransBuf)
      modifies this
      ensures this.fontSizes == fontSizes
      ensures uuid == old(uuid) && positions == old(positions) && strings == old(strings) && colors == old(colors)
      ensures anchors == old(anchors) && angles == old(angles) && fontName == old(fontName)
    {
      this.fontSizes := fontSizes;
    }

    method SetAnchors(anchors: TransBuf)
      modifies this
      ensures this.anchors == anchors
      ensures uuid == old(uuid) && positions == old(positions) && strings == old(strings) && colors == old(colors)
      ensures fontSizes == old(fontSizes) && angles == old(angles) && fontName == old(fontName)
    {
      this.anchors := anchors;
    }

    method SetAngles(angles: TransBuf)
      modifies this
      ensures this.angles == angles
      ensures uuid == old(uuid) && positions == old(positions) && strings == old(strings) && colors == old(colors)
      ensures fontSizes == old(fontSizes) && anchors == old(anchors) && fontName == old(fontName)
    {
      this.angles := angles;
    }

    method SetFontName(fontName: string)
      modifies this
      ensures this.fontName == fontName
      ensures uuid == old(uuid) && positions == old(positions) && strings == old(strings) && colors == old(colors)
      ensures fontSizes == old(fontSizes) && anchors == old(anchors) && angles == old(angles)
    {
      this.fontName := fontName;
    }

    /** Replaces the fields passed as non-None and keeps the others. */
    method SetAttributes(positions: Option<TransBuf>, strings: Option<seq<TextItem>>, colors: Option<TransBuf>,
                         fontSizes: Option<TransBuf>, anchors: Option<TransBuf>, angles: Option<TransBuf>,
                         fontName: Option<string>)
      modifies this
      ensures this.positions == positions.GetOr(old(this.positions))
      ensures this.strings == strings.GetOr(old(this.strings))
      ensures this.colors == colors.GetOr(old(this.colors))
      ensures this.fontSizes == fontSizes.GetOr(old(this.fontSizes))
      ensures this.anchors == anchors.GetOr(old(this.anchors))
      ensures this.angles == angles.GetOr(old(this.angles))
      ensures this.fontName == fontName.GetOr(old(this.fontName))
      ensures uuid == old(uuid)
    {
      if positions.Some? {
        this.positions := positions.value;
      }
      if strings.Some? {
        this.strings := strings.value;
      }
      if colors.Some? {
        this.colors := colors.value;
      }
      if fontSizes.Some? {
        this.fontSizes := fontSizes.value;
      }
      if anchors.Some? {
        this.anchors := anchors.value;
      }
      if angles.Some? {
        this.angles := angles.value;
      }
      if fontName.Some? {
        this.fontName := fontName.value;
      }
    }
  }
}
