/** The `gsp_nico` buffer helpers: a buffer type given by its name, and a
  * buffer made from raw bytes of a named type. */
module NicoBuffers {
  import opened Wrappers
  import opened Bytes
  import opened BufferTypes
  import opened Buffers

  /** `_strtype_to_buftype`: the member whose name is the string, or
    * ValueError for an unknown name. */
  function StrtypeToBuftype(strtype: string): (r: Result<BufferType>)
    ensures r.Ok? ==> Name(r.value) == strtype
    ensures r.Err? ==> r.error == ValueError
  {
    if strtype == "float32" then Ok(float32)
    else if strtype == "uint32" then Ok(uint32)
    else if strtype == "uint8" then Ok(uint8)
    else if strtype == "int32" then Ok(int32)
    else if strtype == "int8" then Ok(int8)
    else if strtype == "vec2" then Ok(vec2)
    else if strtype == "vec3" then Ok(vec3)
    else if strtype == "vec4" then Ok(vec4)
    else if strtype == "uvec4" then Ok(uvec4)
    else if strtype == "mat4" then Ok(mat4)
    else if strtype == "rgba8" then Ok(rgba8)
    else Err(ValueError)
  }

  /** Every member is found under its own name, and exactly the member
    * names are accepted: the lookup agrees with `BufferType[name]`. */
  lemma StrtypeOfName(t: BufferType, s: string)
    ensures StrtypeToBuftype(Name(t)) == Ok(t)
    ensures StrtypeToBuftype(s).Ok? <==> FromName(s).Some?
    ensures StrtypeToBuftype(s).Ok? ==> StrtypeToBuftype(s).value == FromName(s).value
  {
  }

  /** `Buffer.from_bytes`: the named type, then `from_bytearray`'s
    * alignment check. */
  method FromBytes(data: seq<byte>, dtype: string) returns (r: Result<Buffer>)
    ensures r.Ok? <==> StrtypeToBuftype(dtype).Ok? && |data| % ItemSize(StrtypeToBuftype(dtype).value) == 0
    ensures StrtypeToBuftype(dtype).Err? ==> r == Err(ValueError)
    ensures StrtypeToBuftype(dtype).Ok? && r.Err? ==> r.error == AssertionError
    ensures r.Ok? ==> fresh(r.value) && r.value.Valid() && r.value.bytes == data
    ensures r.Ok? ==> Name(r.value.btype) == dtype
    ensures r.Ok? ==> r.value.count * ItemSize(r.value.btype) == |data|
  {
    var t := StrtypeToBuftype(dtype);
    if t.Err? {
      return Err(ValueError);
    }
    r := FromBytearray(data, t.value);
  }
}
