/** What every visual shares: a uuid assigned at construction (passed in
  * here), and attribute slots that the buffer-only checks require to hold
  * buffers. */
module VisualBases {
  import opened Wrappers
  import opened TransBufs

  /** The `assert isinstance(slot, Buffer)` lines of a buffer-only check,
    * in argument order: AssertionError unless every slot holds a buffer. */
  function AllBuffers(slots: seq<TransBuf>): (r: Result<()>)
    ensures r.Ok? <==> forall i :: 0 <= i < |slots| ==> slots[i].BufferSlot?
    ensures r.Err? ==> r.error == AssertionError
  {
    if slots == [] then Ok(())
    else if !slots[0].BufferSlot? then Err(AssertionError)
    else AllBuffers(slots[1..])
  }
}
