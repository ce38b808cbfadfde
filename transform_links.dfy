/** The links of a transform chain: the immediate link, which hands out a
  * stored buffer and can be serialized, and the accessor link, which
  * checks its input and then always fails as not implemented. */
module TransformLinks {
  import opened Wrappers
  import opened Bytes
  import opened BufferTypes
  import opened Buffers
  import Base64

  /** The accessor's field names. */
  datatype Field = R | G | B | A | X | Y | Z | W

  /** `field_to_index`: colour and position names share the indices 0..3. */
  function FieldIndex(f: Field): (i: nat)
    ensures i < 4
    ensures i == 0 <==> f in {R, X}
    ensures i == 1 <==> f in {G, Y}
    ensures i == 2 <==> f in {B, Z}
    ensures i == 3 <==> f in {A, W}
  {
    match f
    case R | X => 0
    case G | Y => 1
    case B | Z => 2
    case A | W => 3
  }

  /** A link of the chain. Links are compared structurally; an immediate
    * link is identified by the buffer object it holds. */
  datatype Link =
    | Immediate(buffer: Buffer)
    | Accessor(field: Field)

  /** `apply`: the immediate link ignores its input and returns its own
    * buffer object; the accessor fails on a missing input, on a count that
    * is not a multiple of four, and otherwise as not implemented. */
  function Apply(link: Link, input: Option<Buffer>): (r: Result<Buffer>)
    ensures link.Immediate? ==> r == Ok(link.buffer)
    ensures link.Accessor? ==> r.Err?
    ensures link.Accessor? && input.None? ==> r.error == AssertionError
    ensures link.Accessor? && input.Some? ==>
      r.error == (if input.value.count % 4 == 0 then NotImplementedError else AssertionError)
  {
    match link
    case Immediate(b) => Ok(b)
    case Accessor(_) =>
      if input.None? then Err(AssertionError)
      else if input.value.count % 4 != 0 then Err(AssertionError)
      else Err(NotImplementedError)
  }

  /** The dictionary `serialize` produces. */
  datatype LinkData = LinkData(bufferCount: int, bufferType: string, dataBase64: string)
  datatype SerializedLink = SerializedLink(linkType: string, linkData: LinkData)

  const ImmediateLinkType := "TransformImmediate"

  /** `TransformLinkImmediate.serialize`: the link type, then the buffer's
    * count, type name and base64 content. */
  function Serialize(link: Link): (r: SerializedLink)
    requires link.Immediate? && link.buffer.Valid()
    reads link.buffer
    ensures r.linkType == ImmediateLinkType
    ensures r.linkData.bufferCount == link.buffer.count
    ensures FromName(r.linkData.bufferType) == Some(link.buffer.btype)
    ensures Base64.Decode(r.linkData.dataBase64) == Some(link.buffer.bytes)
    ensures Base64.DecodeUtf8(r.linkData.dataBase64) == Some(link.buffer.bytes)
  {
    FromNameOfName(link.buffer.btype);
    Base64.DecodeEncode(link.buffer.bytes);
    Base64.DecodeUtf8Encode(link.buffer.bytes);
    SerializedLink(ImmediateLinkType,
      LinkData(link.buffer.count, Name(link.buffer.btype), Base64.Encode(link.buffer.ToBytearray())))
  }

  /** `TransformLinkImmediate.deserialize`: checks the link type, looks the
    * type up by name, decodes the payload, allocates the buffer and copies
    * the first `count` items of the payload into it. */
  method Deserialize(data: SerializedLink) returns (r: Result<Link>)
    ensures data.linkType != ImmediateLinkType ==> r == Err(AssertionError)
    ensures data.linkType == ImmediateLinkType && FromName(data.linkData.bufferType).None? ==> r == Err(KeyError)
    ensures r.Ok? <==>
      data.linkType == ImmediateLinkType
      && FromName(data.linkData.bufferType).Some?
      && Base64.DecodeUtf8(data.linkData.dataBase64).Some?
      && data.linkData.bufferCount >= 0
      && |Base64.DecodeUtf8(data.linkData.dataBase64).value|
         >= data.linkData.bufferCount * ItemSize(FromName(data.linkData.bufferType).value)
    ensures r.Ok? ==> r.value.Immediate? && fresh(r.value.buffer) && r.value.buffer.Valid()
    ensures r.Ok? ==>
      var t := FromName(data.linkData.bufferType).value;
      var n := data.linkData.bufferCount;
      r.value.buffer.count == n && r.value.buffer.btype == t
      && r.value.buffer.bytes == Base64.DecodeUtf8(data.linkData.dataBase64).value[..n * ItemSize(t)]
  {
    if data.linkType != ImmediateLinkType {
      return Err(AssertionError);
    }
    var t := FromName(data.linkData.bufferType);
    if t.None? {
      return Err(KeyError);
    }
    var bytes := Base64.DecodeUtf8(data.linkData.dataBase64);
    if bytes.None? {
      return Err(ValueError);
    }
    var n := data.linkData.bufferCount;
    if n < 0 {
      return Err(ValueError);
    }
    if |bytes.value| < n * ItemSize(t.value) {
      return Err(ValueError);
    }
    var b := new Buffer(n, t.value);
    var ok := b.SetData(bytes.value, 0, n);
    assert Zeros(n * ItemSize(t.value))[..0] == [];
    return Ok(Immediate(b));
  }

  /** Deserializing a serialized immediate link gives a link whose output
    * has the same count, type and bytes as the original's, whatever the
    * input. */
  method SerializeRoundTrip(link: Link, input: Option<Buffer>) returns (copy: Link)
    requires link.Immediate? && link.buffer.Valid()
    ensures Apply(copy, input).Ok? && Apply(link, input).Ok?
    ensures Apply(copy, input).value.count == Apply(link, input).value.count
    ensures Apply(copy, input).value.btype == Apply(link, input).value.btype
    ensures Apply(copy, input).value.bytes == Apply(link, input).value.bytes
  {
    var data := Serialize(link);
    var b := link.buffer;
    assert data.linkData.bufferCount * ItemSize(b.btype) == |b.bytes|;
    var r := Deserialize(data);
    copy := r.value;
    assert b.bytes[..|b.bytes|] == b.bytes;
  }
}
