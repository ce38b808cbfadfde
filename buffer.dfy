/** The typed buffer: a fixed count of items of one `BufferType` over a
  * byte array. Count and type are fixed at construction; the bytes are
  * replaced wholesale by `set_data`, as the Python code rebinds its
  * `_bytearray` field. */
module Buffers {
  import opened Wrappers
  import opened BufferTypes
  import opened Bytes

  /** `bytearray(n)`: n zero bytes. */
  function Zeros(n: nat): (r: seq<byte>)
    ensures |r| == n
    ensures forall i :: 0 <= i < n ==> r[i] == 0
  {
    seq(n, _ => 0)
  }

  /** `s` with the window starting at `start` overwritten by `part`. */
  function Splice(s: seq<byte>, start: nat, part: seq<byte>): (r: seq<byte>)
    requires start + |part| <= |s|
    ensures |r| == |s|
    ensures forall i :: 0 <= i < |s| ==>
      r[i] == if start <= i < start + |part| then part[i - start] else s[i]
  {
    s[..start] + part + s[start + |part|..]
  }

  class Buffer {
    const count: nat
    const btype: BufferType
    var bytes: seq<byte>

    /** The byte length always matches count times item size. */
    ghost predicate Valid()
      reads this
    {
      |bytes| == count * ItemSize(btype)
    }

    /** `Buffer(count, buffer_type)` for a count the allocation accepts. */
    constructor (count: nat, btype: BufferType)
      ensures Valid()
      ensures this.count == count && this.btype == btype
      ensures bytes == Zeros(count * ItemSize(btype))
    {
      this.count := count;
      this.btype := btype;
      bytes := Zeros(count * ItemSize(btype));
    }

    /** `set_data(src, offset, n)`: fails unless offset + n <= count, and
      * otherwise writes the first n items of `src` at item `offset`,
      * leaving every other byte as it was. */
    method SetData(src: seq<byte>, offset: nat, n: nat) returns (r: Result<()>)
      requires Valid()
      requires |src| >= n * ItemSize(btype)
      modifies this
      ensures Valid()
      ensures r.Ok? <==> offset + n <= count
      ensures r.Err? ==> r.error == AssertionError && bytes == old(bytes)
      ensures r.Ok? ==> bytes == Splice(old(bytes), offset * ItemSize(btype), src[..n * ItemSize(btype)])
    {
      var item := ItemSize(btype);
      if offset + n > count {
        return Err(AssertionError);
      }
      assert offset * item + n * item == (offset + n) * item;
      LeqMul(offset + n, count, item);
      bytes := Splice(bytes, offset * item, src[..n * item]);
      return Ok(());
    }

    /** `get_data(offset, n)`, with the range check the byte copy relies on:
      * a fresh buffer of the same type holding items [offset, offset + n);
      * this buffer is not modified. */
    method GetData(offset: nat, n: nat) returns (r: Result<Buffer>)
      requires Valid()
      ensures r.Ok? <==> offset + n <= count
      ensures r.Err? ==> r.error == AssertionError
      ensures r.Ok? ==> fresh(r.value) && r.value.Valid()
      ensures r.Ok? ==> r.value.count == n && r.value.btype == btype
      ensures r.Ok? ==> r.value.bytes == bytes[offset * ItemSize(btype) .. (offset + n) * ItemSize(btype)]
    {
      var item := ItemSize(btype);
      if offset + n > count {
        return Err(AssertionError);
      }
      LeqMul(offset + n, count, item);
      assert offset * item + n * item == (offset + n) * item;
      var slice := bytes[offset * item .. (offset + n) * item];
      var b := new Buffer(n, btype);
      var ok := b.SetData(slice, 0, n);
      assert slice[..n * item] == slice;
      return Ok(b);
    }

    /** `to_bytearray`: a copy of the content, count times item size long. */
    function ToBytearray(): (r: seq<byte>)
      reads this
      requires Valid()
      ensures |r| == count * ItemSize(btype)
      ensures r == bytes
    {
      bytes
    }
  }

  lemma LeqMul(a: nat, b: nat, k: nat)
    requires a <= b
    ensures a * k <= b * k
  {
  }

  /** A buffer allocation: `bytearray` rejects a negative count. */
  method NewBuffer(count: int, t: BufferType) returns (r: Result<Buffer>)
    ensures r.Ok? <==> count >= 0
    ensures r.Err? ==> r.error == ValueError
    ensures r.Ok? ==> fresh(r.value) && r.value.Valid() && r.value.count == count && r.value.btype == t
    ensures r.Ok? ==> r.value.bytes == Zeros(count * ItemSize(t))
  {
    if count < 0 {
      return Err(ValueError);
    }
    var b := new Buffer(count, t);
    return Ok(b);
  }

  /** `Buffer.from_bytearray`: fails unless the length is a whole number of
    * items, and otherwise holds exactly the given bytes. */
  method FromBytearray(data: seq<byte>, t: BufferType) returns (r: Result<Buffer>)
    ensures r.Ok? <==> |data| % ItemSize(t) == 0
    ensures r.Err? ==> r.error == AssertionError
    ensures r.Ok? ==> fresh(r.value) && r.value.Valid()
    ensures r.Ok? ==> r.value.btype == t && r.value.count == |data| / ItemSize(t)
    ensures r.Ok? ==> r.value.bytes == data
  {
    var item := ItemSize(t);
    if |data| % item != 0 {
      return Err(AssertionError);
    }
    var b := new Buffer(|data| / item, t);
    var ok := b.SetData(data, 0, b.count);
    assert data[..b.count * item] == data;
    return Ok(b);
  }

  /** Buffer to bytes and back gives a buffer with the same count, type and
    * content. */
  method BytesRoundTrip(b: Buffer) returns (c: Buffer)
    requires b.Valid()
    ensures c.Valid() && c.count == b.count && c.btype == b.btype && c.bytes == b.bytes
  {
    var data := b.ToBytearray();
    WholeItems(|data|, b.btype, b.count);
    var r := FromBytearray(data, b.btype);
    c := r.value;
  }

  // The code as written: Python slicing clamps out-of-range bounds.

  function Prefix(s: seq<byte>, k: nat): seq<byte>
  {
    if k <= |s| then s[..k] else s
  }

  function Suffix(s: seq<byte>, k: nat): seq<byte>
  {
    if k <= |s| then s[k..] else []
  }

  /** `set_data` exactly as written: only the range is checked; the source
    * is cut to at most n items and spliced in. */
  function SetDataAsWritten(bytes: seq<byte>, count: nat, item: nat, src: seq<byte>, offset: nat, n: nat): (r: Result<seq<byte>>)
    ensures r.Ok? <==> offset + n <= count
    ensures r.Ok? && |bytes| == count * item ==> (|r.value| == |bytes| <==> |src| >= n * item)
  {
    if offset + n > count then Err(AssertionError)
    else
      LeqMul(offset + n, count, item);
      assert offset * item + n * item == (offset + n) * item;
      Ok(Prefix(bytes, offset * item) + Prefix(src, n * item) + Suffix(bytes, offset * item + n * item))
  }

  /** With a long enough source, the code as written is exactly what
    * `Buffer.SetData` does. */
  lemma SetDataAsWrittenAgrees(b: seq<byte>, count: nat, t: BufferType, src: seq<byte>, offset: nat, n: nat)
    requires |b| == count * ItemSize(t) && |src| >= n * ItemSize(t) && offset + n <= count
    ensures offset * ItemSize(t) + n * ItemSize(t) <= |b|
    ensures SetDataAsWritten(b, count, ItemSize(t), src, offset, n)
      == Ok(Splice(b, offset * ItemSize(t), src[..n * ItemSize(t)]))
  {
    var item := ItemSize(t);
    LeqMul(offset + n, count, item);
    assert offset * item + n * item == (offset + n) * item;
  }

  /** A source shorter than n items shrinks the byte array: four uint8
    * items, two written from a one-byte source, leave three bytes. */
  lemma ShortSourceShrinksBuffer()
    ensures SetDataAsWritten([0, 0, 0, 0], 4, ItemSize(uint8), [7], 0, 2) == Ok([7, 0, 0])
  {
    var b: seq<byte> := [0, 0, 0, 0];
    var src: seq<byte> := [7];
    assert Prefix(b, 0) == [];
    assert Prefix(src, 2) == [7];
    assert Suffix(b, 2) == [0, 0];
    assert ItemSize(uint8) == 1;
    var want: seq<byte> := [7, 0, 0];
    assert [] + [7] + [0, 0] == want;
    assert SetDataAsWritten(b, 4, 1, src, 0, 2) == Ok([] + [7] + [0, 0]);
  }

  /** `get_data` exactly as written: the slice is taken without a range
    * check and handed to `set_data` on a fresh buffer of n items. */
  function GetDataAsWritten(bytes: seq<byte>, item: nat, offset: nat, n: nat): (r: Result<seq<byte>>)
    ensures r.Ok?
  {
    SetDataAsWritten(Zeros(n * item), n, item, Prefix(Suffix(bytes, offset * item), n * item), 0, n)
  }

  /** Reading two uint8 items from offset 1 of a two-item buffer yields a
    * buffer that reports two items but holds one byte. */
  lemma GetDataPastEndBreaksLength()
    ensures GetDataAsWritten([1, 2], ItemSize(uint8), 1, 2) == Ok([2])
  {
    var b: seq<byte> := [1, 2];
    var slice := Prefix(Suffix(b, 1), 2);
    assert Suffix(b, 1) == [2];
    assert slice == [2];
    assert Prefix(Zeros(2), 0) == [];
    assert Prefix(slice, 2) == [2];
    assert Suffix(Zeros(2), 2) == [];
    assert ItemSize(uint8) == 1;
    var want: seq<byte> := [2];
    assert [] + [2] + [] == want;
    assert SetDataAsWritten(Zeros(2), 2, 1, slice, 0, 2) == Ok([] + [2] + []);
  }
}
