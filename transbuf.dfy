/** A `TransBuf` slot holds either a buffer or a transform chain;
  * `to_buffer` resolves it to a buffer. */
module TransBufs {
  import opened Wrappers
  import opened Buffers
  import opened TransformChains

  /** The value of a visual's attribute slot. `Foreign` stands for any
    * other Python object placed in the slot. */
  datatype TransBuf =
    | BufferSlot(buffer: Buffer)
    | ChainSlot(chain: TransformChain)
    | Foreign

  /** What `to_buffer` resolves a slot to. */
  function Resolved(tb: TransBuf): Result<Buffer>
    reads if tb.ChainSlot? then {tb.chain} else {}
  {
    match tb
    case BufferSlot(b) => Ok(b)
    case ChainSlot(c) => RunResult(c.links)
    case Foreign => Err(ValueError)
  }

  /** `to_buffer`: a buffer is returned as the same object, a chain is run,
    * anything else is a ValueError. */
  method ToBuffer(tb: TransBuf) returns (r: Result<Buffer>)
    ensures r == Resolved(tb)
    ensures tb.BufferSlot? ==> r == Ok(tb.buffer)
    ensures tb.Foreign? ==> r == Err(ValueError)
  {
    match tb
    case BufferSlot(b) =>
      return Ok(b);
    case ChainSlot(c) =>
      r := c.Run();
    case Foreign =>
      return Err(ValueError);
  }

  /** Resolving is idempotent: the result is a buffer, which resolves to
    * itself. */
  lemma ResolveIdempotent(tb: TransBuf)
    requires Resolved(tb).Ok?
    ensures Resolved(BufferSlot(Resolved(tb).value)) == Resolved(tb)
  {
  }
}
