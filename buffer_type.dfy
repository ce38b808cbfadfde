/** The element types of a GSP buffer: a closed enumeration with a fixed
  * byte-size table and the numpy view (dtype and per-item shape) of each. */
module BufferTypes {
  import opened Wrappers

  datatype BufferType =
    | float32 | uint32 | uint8 | int32 | int8
    | vec2 | vec3 | vec4 | uvec4 | mat4 | rgba8

  /** The numpy scalar types the buffer types are viewed as; `float64` and
    * `other` stand for every dtype the buffer types never produce. */
  datatype Dtype = DFloat32 | DUInt32 | DUInt8 | DInt32 | DInt8 | DFloat64 | DOther

  /** The enum member's `.name`. */
  function Name(t: BufferType): string
  {
    match t
    case float32 => "float32"
    case uint32 => "uint32"
    case uint8 => "uint8"
    case int32 => "int32"
    case int8 => "int8"
    case vec2 => "vec2"
    case vec3 => "vec3"
    case vec4 => "vec4"
    case uvec4 => "uvec4"
    case mat4 => "mat4"
    case rgba8 => "rgba8"
  }

  /** `BufferType[name]`: the member with that name, None (a KeyError in
    * Python) for any other string. */
  function FromName(s: string): (r: Option<BufferType>)
    ensures r.Some? ==> Name(r.value) == s
  {
    if s == "float32" then Some(float32)
    else if s == "uint32" then Some(uint32)
    else if s == "uint8" then Some(uint8)
    else if s == "int32" then Some(int32)
    else if s == "int8" then Some(int8)
    else if s == "vec2" then Some(vec2)
    else if s == "vec3" then Some(vec3)
    else if s == "vec4" then Some(vec4)
    else if s == "uvec4" then Some(uvec4)
    else if s == "mat4" then Some(mat4)
    else if s == "rgba8" then Some(rgba8)
    else None
  }

  /** Looking a member up by its own name finds it. */
  lemma FromNameOfName(t: BufferType)
    ensures FromName(Name(t)) == Some(t)
  {
  }

  /** Number of scalar components in one item, as the type comments describe. */
  function Components(t: BufferType): nat
  {
    match t
    case vec2 => 2
    case vec3 => 3
    case vec4 | uvec4 | rgba8 => 4
    case mat4 => 16
    case _ => 1
  }

  /** Bytes per scalar component: one for the 8-bit types, four otherwise. */
  function ComponentBytes(t: BufferType): nat
  {
    match t
    case uint8 | int8 | rgba8 => 1
    case _ => 4
  }

  /** `get_item_size`: the byte size of one item, always positive and equal
    * to the component count times the component width. */
  function ItemSize(t: BufferType): (r: nat)
    ensures r > 0
    ensures r == Components(t) * ComponentBytes(t)
  {
    match t
    case float32 => 4
    case uint32 => 4
    case uint8 => 1
    case int32 => 4
    case int8 => 1
    case vec2 => 8
    case vec3 => 12
    case vec4 => 16
    case uvec4 => 16
    case rgba8 => 4
    case mat4 => 64
  }

  function DtypeSize(d: Dtype): nat
  {
    match d
    case DUInt8 | DInt8 => 1
    case DFloat64 => 8
    case _ => 4
  }

  /** `to_numpy_dtype` as written: rgba8 is viewed as uint32, and uvec4 and
    * mat4 have no dtype. */
  function ToNumpyDtype(t: BufferType): (r: Result<Dtype>)
    ensures r.Err? <==> t == uvec4 || t == mat4
    ensures r.Err? ==> r.error == ValueError
    ensures t in {float32, vec2, vec3, vec4} ==> r == Ok(DFloat32)
    ensures t == uint32 || t == rgba8 ==> r == Ok(DUInt32)
    ensures t == uint8 ==> r == Ok(DUInt8)
    ensures t == int32 ==> r == Ok(DInt32)
    ensures t == int8 ==> r == Ok(DInt8)
    ensures r.Ok? && t != rgba8 ==> DtypeSize(r.value) == ComponentBytes(t)
  {
    match t
    case float32 => Ok(DFloat32)
    case uint32 => Ok(DUInt32)
    case uint8 => Ok(DUInt8)
    case int32 => Ok(DInt32)
    case int8 => Ok(DInt8)
    case vec2 | vec3 | vec4 => Ok(DFloat32)
    case rgba8 => Ok(DUInt32)
    case _ => Err(ValueError)
  }

  /** `to_numpy_shape`: the per-item shape, a one-element tuple. */
  function ToNumpyShape(t: BufferType): (r: seq<nat>)
    ensures |r| == 1 && r[0] >= 1
    ensures r[0] == (if t in {vec2, vec3, vec4, rgba8} then Components(t) else 1)
  {
    match t
    case vec2 => [2]
    case vec3 => [3]
    case vec4 => [4]
    case rgba8 => [4]
    case _ => [1]
  }

  /** `from_numpy`, with the ndarray given by its shape and dtype. */
  function FromNumpy(shape: seq<int>, dtype: Dtype): (r: Result<BufferType>)
    ensures r.Ok? ==> dtype == DFloat32 && r.value in {float32, vec2, vec3, vec4}
    ensures r.Ok? && r.value == float32 <==> |shape| == 1 && dtype == DFloat32
    ensures r.Ok? && r.value != float32 ==> |shape| == 2 && shape[1] == Components(r.value)
    ensures r.Err? ==> r.error == ValueError
  {
    if |shape| == 2 && dtype == DFloat32 && shape[1] == 2 then Ok(vec2)
    else if |shape| == 2 && dtype == DFloat32 && shape[1] == 3 then Ok(vec3)
    else if |shape| == 2 && dtype == DFloat32 && shape[1] == 4 then Ok(vec4)
    else if |shape| == 1 && dtype == DFloat32 then Ok(float32)
    else Err(ValueError)
  }

  /** The shape numpy gives an array of `n` items of type `t`: `(n,)` for a
    * scalar type and `(n, k)` for a k-vector. */
  function ArrayShape(n: int, t: BufferType): seq<int>
  {
    if ToNumpyShape(t)[0] == 1 then [n] else [n, ToNumpyShape(t)[0]]
  }

  /** `from_numpy` inverts the dtype/shape view for every type it accepts,
    * and accepts exactly the arrays that are such a view. */
  lemma FromNumpyInvertsView(n: int, t: BufferType)
    requires t in {float32, vec2, vec3, vec4}
    ensures ToNumpyDtype(t).Ok? && FromNumpy(ArrayShape(n, t), ToNumpyDtype(t).value) == Ok(t)
  {
  }

  lemma FromNumpyOnlyViews(shape: seq<int>, dtype: Dtype)
    requires FromNumpy(shape, dtype).Ok?
    ensures var t := FromNumpy(shape, dtype).value;
      ToNumpyDtype(t) == Ok(dtype) && shape == ArrayShape(shape[0], t)
  {
  }

  /** The bytes of one item as numpy lays them out from the dtype and the
    * per-item shape. */
  function ViewBytes(t: BufferType): (r: Option<nat>)
    ensures r.Some? <==> ToNumpyDtype(t).Ok?
  {
    match ToNumpyDtype(t)
    case Ok(d) => Some(ToNumpyShape(t)[0] * DtypeSize(d))
    case Err(_) => None
  }

  /** As written, the rgba8 view is four uint32 values, 16 bytes for an
    * item of 4 bytes. */
  lemma Rgba8ViewMismatch()
    ensures ViewBytes(rgba8) == Some(16) && ItemSize(rgba8) == 4
  {
  }

  /** The dtype as the rest of the code base uses it for rgba8 (unsigned
    * bytes); identical to `ToNumpyDtype` for every other type. */
  function ToNumpyDtypeCorrected(t: BufferType): (r: Result<Dtype>)
    ensures t != rgba8 ==> r == ToNumpyDtype(t)
    ensures t == rgba8 ==> r == Ok(DUInt8)
  {
    if t == rgba8 then Ok(DUInt8) else ToNumpyDtype(t)
  }

  /** With the corrected dtype, every numpy view covers exactly one item. */
  lemma CorrectedViewMatchesItemSize(t: BufferType)
    requires ToNumpyDtypeCorrected(t).Ok?
    ensures ToNumpyShape(t)[0] * DtypeSize(ToNumpyDtypeCorrected(t).value) == ItemSize(t)
  {
  }

  /** A length is count whole items exactly when it is a multiple of the
    * item size with that quotient. */
  lemma WholeItems(n: nat, t: BufferType, count: int)
    ensures (n % ItemSize(t) == 0 && n / ItemSize(t) == count) <==> n == count * ItemSize(t)
  {
    // with the item size a literal, the division is linear
    match t
    case float32 =>
    case uint32 =>
    case uint8 =>
    case int32 =>
    case int8 =>
    case vec2 =>
    case vec3 =>
    case vec4 =>
    case uvec4 =>
    case mat4 =>
    case rgba8 =>
  }
}
