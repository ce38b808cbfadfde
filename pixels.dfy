/** `Pixels`: positions, one color per group, and a groups value. Its
  * validator ties the three together: the groups must be valid for the
  * position count and there must be one color per group. */
module PixelsVisual {
  import opened Wrappers
  import opened Buffers
  import opened TransformChains
  import opened TransBufs
  import opened GroupUtils

  /** A chain whose count or type is still undefined: the validator skips
    * every check when positions or colors is one. */
  predicate Undefined(tb: TransBuf)
  {
    tb.ChainSlot? && !tb.chain.IsFullyDefined()
  }

  /** The element count a slot declares: a buffer's count, or a chain's
    * declared count (AssertionError while undefined). Any other object has
    * no `get_buffer_count`, an AttributeError. */
  function SlotCount(tb: TransBuf): (r: Result<int>)
    ensures tb.BufferSlot? ==> r == Ok(tb.buffer.count)
    ensures tb.ChainSlot? && tb.chain.IsFullyDefined() ==> r == Ok(tb.chain.bufferCount)
    ensures tb.Foreign? ==> r == Err(AttributeError)
  {
    match tb
    case BufferSlot(b) => Ok(b.count)
    case ChainSlot(c) => (match c.GetBufferCount() case Ok(n) => Ok(n) case Err(e) => Err(e))
    case Foreign => Err(AttributeError)
  }

  /** `Pixels.sanity_check_attributes`. */
  function SanityCheckAttributes(positions: TransBuf, colors: TransBuf, groups: PyValue): (r: Result<()>)
    ensures Undefined(positions) || Undefined(colors) ==> r == Ok(())
    ensures !Undefined(positions) && !Undefined(colors) ==>
      (r.Ok? <==>
        SlotCount(positions).Ok? && SlotCount(colors).Ok?
        && SanityCheck(SlotCount(positions).value, groups).Ok?
        && GetGroupCount(groups) == Ok(SlotCount(colors).value))
  {
    if Undefined(positions) || Undefined(colors) then Ok(())
    else
      var positionCount :- SlotCount(positions);
      var groupCount :- GetGroupCount(groups);
      var _ :- SanityCheck(positionCount, groups);
      var colorCount :- SlotCount(colors);
      if colorCount != groupCount then Err(AssertionError) else Ok(())
  }

  /** `Pixels.sanity_check_attribute_buffers`: both slots must hold
    * buffers, then the general check applies. */
  function SanityCheckAttributeBuffers(positions: TransBuf, colors: TransBuf, groups: PyValue): (r: Result<()>)
    ensures r.Ok? <==>
      positions.BufferSlot? && colors.BufferSlot?
      && SanityCheck(positions.buffer.count, groups).Ok?
      && GetGroupCount(groups) == Ok(colors.buffer.count)
    ensures r.Err? ==> r.error == AssertionError || r.error == ValueError
  {
    if !positions.BufferSlot? || !colors.BufferSlot? then Err(AssertionError)
    else SanityCheckAttributes(positions, colors, groups)
  }

  /** For checked buffers, the groups partition the positions into exactly
    * as many groups as there are colors: the index lists that the renderer
    * pairs with the colors line up one to one. */
  method GroupIndices(positions: Buffer, colors: Buffer, groups: PyValue) returns (indices: seq<seq<int>>)
    requires SanityCheckAttributeBuffers(BufferSlot(positions), BufferSlot(colors), groups).Ok?
    ensures |indices| == colors.count
    ensures GroupsFormatOf(groups) != Ok(FormatListListInt) ==> Flatten(indices) == Range(0, positions.count)
    ensures forall i :: 0 <= i < |indices| ==> AllIn(indices[i], positions.count)
  {
    var r := ComputeIndicesPerGroup(positions.count, groups);
    indices := r.value;
    assert AllIn(Flatten(indices), positions.count);
    AllInParts(indices, positions.count);
  }

  class Pixels {
    var uuid: string
    var positions: TransBuf
    var colors: TransBuf
    var groups: PyValue

    constructor(uuid: string, positions: TransBuf, colors: TransBuf, groups: PyValue)
      ensures this.uuid == uuid && this.positions == positions
      ensures this.colors == colors && this.groups == groups
    {
      this.uuid := uuid;
      this.positions := positions;
      this.colors := colors;
      this.groups := groups;
    }

    /** `check_attributes` on the current fields. */
    function Check(): Result<()>
      reads this
    {
      SanityCheckAttributes(positions, colors, groups)
    }

    /** Assigns the field, then re-runs the check: on failure the new
      * value stays in place. */
    method SetPositions(positions: TransBuf) returns (r: Result<()>)
      modifies this
      ensures this.positions == positions
      ensures uuid == old(uuid) && colors == old(colors) && groups == old(groups)
      ensures r == Check()
    {
      this.positions := positions;
      r := Check();
    }

    method SetColors(colors: TransBuf) returns (r: Result<()>)
      modifies this
      ensures this.colors == colors
      ensures uuid == old(uuid) && positions == old(positions) && groups == old(groups)
      ensures r == Check()
    {
      this.colors := colors;
      r := Check();
    }

    method SetGroups(groups: PyValue) returns (r: Result<()>)
      modifies this
      ensures this.groups == groups
      ensures uuid == old(uuid) && positions == old(positions) && colors == old(colors)
      ensures r == Check()
    {
      this.groups := groups;
      r := Check();
    }

    /** Replaces the fields passed as non-None, keeps the others, then
      * checks once. */
    method SetAttributes(positions: Option<TransBuf>, colors: Option<TransBuf>, groups: Option<PyValue>)
      returns (r: Result<()>)
      modifies this
      ensures this.positions == positions.GetOr(old(this.positions))
      ensures this.colors == colors.GetOr(old(this.colors))
      ensures this.groups == groups.GetOr(old(this.groups))
      ensures uuid == old(uuid)
      ensures r == Check()
    {
      if positions.Some? {
        this.positions := positions.value;
      }
      if colors.Some? {
        this.colors := colors.value;
      }
      if groups.Some? {
        this.groups := groups.value;
      }
      r := Check();
    }
  }

  /** `Pixels(positions, colors, groups)`: the constructor raises what the
    * check raises. */
  method NewPixels(uuid: string, positions: TransBuf, colors: TransBuf, groups: PyValue) returns (r: Result<Pixels>)
    ensures r.Ok? <==> SanityCheckAttributes(positions, colors, groups).Ok?
    ensures r.Err? ==> r.error == SanityCheckAttributes(positions, colors, groups).error
    ensures r.Ok? ==> fresh(r.value) && r.value.uuid == uuid && r.value.positions == positions
    ensures r.Ok? ==> r.value.colors == colors && r.value.groups == groups
  {
    var p := new Pixels(uuid, positions, colors, groups);
    var c := p.Check();
    if c.Err? {
      return Err(c.error);
    }
    r := Ok(p);
  }
}
