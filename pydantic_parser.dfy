/** `PydanticParser`: rebuilds the canvas, viewports, model matrices and
  * cameras of a serialized scene, restoring the serialized uuids. Visuals
  * are not parsed: the result always has none. */
module PydanticParsers {
  import opened Wrappers
  import opened Bytes
  import opened BufferTypes
  import Base64
  import opened Buffers
  import opened TransBufs
  import opened AnyVisuals
  import opened Canvases
  import opened Viewports
  import opened Cameras
  import opened PydanticTypes
  import opened PydanticSerializers

  /** What a buffer is made of: its type, item count and bytes. */
  datatype BufferValue = BufferValue(btype: BufferType, count: int, bytes: seq<byte>)

  /** Whether a slot holds a well-formed buffer with exactly that content. */
  ghost predicate Holds(tb: TransBuf, v: BufferValue)
    reads if tb.BufferSlot? then {tb.buffer} else {}
  {
    tb.BufferSlot? && tb.buffer.Valid()
    && tb.buffer.btype == v.btype && tb.buffer.count == v.count && tb.buffer.bytes == v.bytes
  }

  /** What `_pydantic_to_transbuf` reads from a serialized slot. A transform
    * chain is NotImplementedError; a "buffer" slot whose payload is not a
    * buffer fails on its first field access (AttributeError); then an
    * unknown type name is a KeyError, bad base64 a ValueError, a length
    * that is not a whole number of items or a count that disagrees with
    * the payload an AssertionError. */
  function DecodeTransBuf(p: PydanticTransBuf): (r: Result<BufferValue>)
    ensures p.kind == KindTransformChain ==> r == Err(NotImplementedError)
    ensures p.kind == KindBuffer && !p.transBuf.BufferBody? ==> r == Err(AttributeError)
    ensures r.Ok? <==>
      p.kind == KindBuffer && p.transBuf.BufferBody?
      && FromName(p.transBuf.buffer.bufferType).Some?
      && Base64.Decode(p.transBuf.buffer.dataBase64).Some?
      && |Base64.Decode(p.transBuf.buffer.dataBase64).value|
         == p.transBuf.buffer.count * ItemSize(FromName(p.transBuf.buffer.bufferType).value)
    ensures r.Ok? ==>
      r.value.count == p.transBuf.buffer.count
      && FromName(p.transBuf.buffer.bufferType) == Some(r.value.btype)
      && Base64.Decode(p.transBuf.buffer.dataBase64) == Some(r.value.bytes)
  {
    match p.kind
    case KindTransformChain => Err(NotImplementedError)
    case KindBuffer =>
      if !p.transBuf.BufferBody? then Err(AttributeError)
      else
        var pb := p.transBuf.buffer;
        match FromName(pb.bufferType)
        case None => Err(KeyError)
        case Some(t) =>
          match Base64.Decode(pb.dataBase64)
          case None => Err(ValueError)
          case Some(data) =>
            var item := ItemSize(t);
            WholeItems(|data|, t, pb.count);
            if |data| % item != 0 then Err(AssertionError)
            else if |data| / item != pb.count then Err(AssertionError)
            else Ok(BufferValue(t, pb.count, data))
  }

  /** Serializing a well-formed buffer and reading the slot back gives the
    * buffer's type, count and bytes. */
  lemma SerializedBufferDecodes(b: Buffer)
    requires b.Valid()
    ensures DecodeTransBuf(TransBufToPydantic(BufferSlot(b)).value) == Ok(BufferValue(b.btype, b.count, b.bytes))
  {
    BufferToPydanticReadsBack(b);
    WholeItems(|b.bytes|, b.btype, b.count);
  }

  /** `_pydantic_to_transbuf`: builds a fresh buffer from the decoded bytes
    * with `Buffer.from_bytearray`, then checks the declared count. */
  method PydanticToTransBuf(p: PydanticTransBuf) returns (r: Result<TransBuf>)
    ensures r.Ok? <==> DecodeTransBuf(p).Ok?
    ensures r.Err? ==> r.error == DecodeTransBuf(p).error
    ensures r.Ok? ==> r.value.BufferSlot? && fresh(r.value.buffer) && Holds(r.value, DecodeTransBuf(p).value)
  {
    if p.kind == KindTransformChain {
      return Err(NotImplementedError);
    }
    if !p.transBuf.BufferBody? {
      return Err(AttributeError);
    }
    var pb := p.transBuf.buffer;
    var t := FromName(pb.bufferType);
    if t.None? {
      return Err(KeyError);
    }
    var data := Base64.Decode(pb.dataBase64);
    if data.None? {
      return Err(ValueError);
    }
    var b :- FromBytearray(data.value, t.value);
    if b.count != pb.count {
      return Err(AssertionError);
    }
    return Ok(BufferSlot(b));
  }

  /** The objects `parse` returns. */
  datatype ParsedScene = ParsedScene(
    canvas: Canvas,
    viewports: seq<Viewport>,
    visuals: seq<AnyVisual>,
    modelMatrices: seq<TransBuf>,
    cameras: seq<Camera>)

  /** Whether every serialized slot of the scene reads back as a buffer. */
  predicate Decodable(scene: PydanticScene)
  {
    (forall i :: 0 <= i < |scene.modelMatrices| ==> DecodeTransBuf(scene.modelMatrices[i].modelMatrix).Ok?)
    && (forall i :: 0 <= i < |scene.cameras| ==>
          DecodeTransBuf(scene.cameras[i].viewMatrix).Ok? && DecodeTransBuf(scene.cameras[i].projectionMatrix).Ok?)
  }

  /** The next model matrix of the loop in `parse`; decoding it leaves the
    * buffers decoded before it as they were. */
  method ParseNextModelMatrix(out: seq<TransBuf>, matrices: seq<PydanticModelMatrix>) returns (r: Result<TransBuf>)
    requires |out| < |matrices|
    requires forall k :: 0 <= k < |out| ==>
      DecodeTransBuf(matrices[k].modelMatrix).Ok? && Holds(out[k], DecodeTransBuf(matrices[k].modelMatrix).value)
    ensures r.Ok? <==> DecodeTransBuf(matrices[|out|].modelMatrix).Ok?
    ensures r.Ok? ==> r.value.BufferSlot? && fresh(r.value.buffer)
    ensures r.Ok? ==> Holds(r.value, DecodeTransBuf(matrices[|out|].modelMatrix).value)
    ensures forall k :: 0 <= k < |out| ==>
      DecodeTransBuf(matrices[k].modelMatrix).Ok? && Holds(out[k], DecodeTransBuf(matrices[k].modelMatrix).value)
  {
    r := PydanticToTransBuf(matrices[|out|].modelMatrix);
  }

  /** The model matrices of `parse`, in order. */
  method ParseModelMatrices(matrices: seq<PydanticModelMatrix>) returns (r: Result<seq<TransBuf>>)
    ensures r.Ok? <==> forall i :: 0 <= i < |matrices| ==> DecodeTransBuf(matrices[i].modelMatrix).Ok?
    ensures r.Ok? ==> |r.value| == |matrices|
    ensures r.Ok? ==> forall i :: 0 <= i < |matrices| ==>
      r.value[i].BufferSlot? && fresh(r.value[i].buffer) && Holds(r.value[i], DecodeTransBuf(matrices[i].modelMatrix).value)
  {
    var out: seq<TransBuf> := [];
    var i := 0;
    while i < |matrices|
      invariant 0 <= i <= |matrices|
      invariant |out| == i
      invariant forall k :: 0 <= k < i ==> out[k].BufferSlot? && fresh(out[k].buffer)
      invariant forall k :: 0 <= k < i ==>
        DecodeTransBuf(matrices[k].modelMatrix).Ok? && Holds(out[k], DecodeTransBuf(matrices[k].modelMatrix).value)
    {
      var m := ParseNextModelMatrix(out, matrices);
      if m.Err? {
        return Err(m.error);
      }
      out := out + [m.value];
      i := i + 1;
    }
    return Ok(out);
  }

  /** A camera carries the uuid and the decoded matrices of its record. */
  ghost predicate CameraParsed(c: Camera, p: PydanticCamera)
    reads c, if c.viewMatrix.BufferSlot? then {c.viewMatrix.buffer} else {}
    reads if c.projectionMatrix.BufferSlot? then {c.projectionMatrix.buffer} else {}
  {
    c.uuid == p.uuid
    && DecodeTransBuf(p.viewMatrix).Ok? && DecodeTransBuf(p.projectionMatrix).Ok?
    && Holds(c.viewMatrix, DecodeTransBuf(p.viewMatrix).value)
    && Holds(c.projectionMatrix, DecodeTransBuf(p.projectionMatrix).value)
  }

  /** One camera of `parse`: both matrices decoded, a fresh camera built,
    * its uuid restored. */
  method ParseCamera(p: PydanticCamera) returns (r: Result<Camera>)
    ensures r.Ok? <==> DecodeTransBuf(p.viewMatrix).Ok? && DecodeTransBuf(p.projectionMatrix).Ok?
    ensures r.Ok? ==>
      fresh(r.value) && r.value.viewMatrix.BufferSlot? && fresh(r.value.viewMatrix.buffer)
      && r.value.projectionMatrix.BufferSlot? && fresh(r.value.projectionMatrix.buffer)
    ensures r.Ok? ==> CameraParsed(r.value, p)
  {
    var view :- PydanticToTransBuf(p.viewMatrix);
    var projection :- PydanticToTransBuf(p.projectionMatrix);
    var camera := new Camera(p.uuid, view, projection);
    return Ok(camera);
  }

  /** The next camera of the loop in `parse`; parsing it leaves the
    * cameras parsed before it as they were. */
  method ParseNextCamera(out: seq<Camera>, cameras: seq<PydanticCamera>) returns (r: Result<Camera>)
    requires |out| < |cameras|
    requires forall k :: 0 <= k < |out| ==> CameraParsed(out[k], cameras[k])
    ensures r.Ok? <==> DecodeTransBuf(cameras[|out|].viewMatrix).Ok? && DecodeTransBuf(cameras[|out|].projectionMatrix).Ok?
    ensures r.Ok? ==> fresh(r.value) && CameraParsed(r.value, cameras[|out|])
    ensures forall k :: 0 <= k < |out| ==> CameraParsed(out[k], cameras[k])
  {
    r := ParseCamera(cameras[|out|]);
  }

  /** Appending a parsed camera keeps every camera parsed. */
  lemma ParsedSnoc(out: seq<Camera>, c: Camera, cameras: seq<PydanticCamera>)
    requires |out| < |cameras|
    requires forall k :: 0 <= k < |out| ==> CameraParsed(out[k], cameras[k])
    requires CameraParsed(c, cameras[|out|])
    ensures forall k :: 0 <= k < |out| + 1 ==> CameraParsed((out + [c])[k], cameras[k])
  {
  }

  /** The cameras of `parse`, in order. */
  method ParseCameras(cameras: seq<PydanticCamera>) returns (r: Result<seq<Camera>>)
    ensures r.Ok? <==> forall i :: 0 <= i < |cameras| ==>
      DecodeTransBuf(cameras[i].viewMatrix).Ok? && DecodeTransBuf(cameras[i].projectionMatrix).Ok?
    ensures r.Ok? ==> |r.value| == |cameras|
    ensures r.Ok? ==> forall i :: 0 <= i < |cameras| ==> fresh(r.value[i])
    ensures r.Ok? ==> forall i :: 0 <= i < |cameras| ==> CameraParsed(r.value[i], cameras[i])
  {
    var out: seq<Camera> := [];
    var i := 0;
    while i < |cameras|
      invariant 0 <= i <= |cameras|
      invariant |out| == i
      invariant forall k :: 0 <= k < i ==> fresh(out[k])
      invariant forall k :: 0 <= k < i ==> CameraParsed(out[k], cameras[k])
    {
      var camera := ParseNextCamera(out, cameras);
      if camera.Err? {
        return Err(camera.error);
      }
      ParsedSnoc(out, camera.value, cameras);
      out := out + [camera.value];
      i := i + 1;
    }
    return Ok(out);
  }

  /** `PydanticParser.parse`. */
  method Parse(scene: PydanticScene) returns (r: Result<ParsedScene>)
    ensures r.Ok? <==> Decodable(scene)
    ensures r.Ok? ==> fresh(r.value.canvas)
    ensures r.Ok? ==> r.value.canvas.uuid == scene.canvas.uuid && r.value.canvas.width == scene.canvas.width
    ensures r.Ok? ==> r.value.canvas.height == scene.canvas.height && r.value.canvas.dpi == scene.canvas.dpi
    ensures r.Ok? ==> |r.value.viewports| == |scene.viewports|
    ensures r.Ok? ==> forall i :: 0 <= i < |scene.viewports| ==>
      fresh(r.value.viewports[i]) && ViewportToPydantic(r.value.viewports[i]) == scene.viewports[i]
    ensures r.Ok? ==> r.value.visuals == []
    ensures r.Ok? ==> |r.value.modelMatrices| == |scene.modelMatrices|
    ensures r.Ok? ==> forall i :: 0 <= i < |scene.modelMatrices| ==>
      Holds(r.value.modelMatrices[i], DecodeTransBuf(scene.modelMatrices[i].modelMatrix).value)
    ensures r.Ok? ==> |r.value.cameras| == |scene.cameras|
    ensures r.Ok? ==> forall i :: 0 <= i < |scene.cameras| ==>
      r.value.cameras[i].uuid == scene.cameras[i].uuid
      && Holds(r.value.cameras[i].viewMatrix, DecodeTransBuf(scene.cameras[i].viewMatrix).value)
      && Holds(r.value.cameras[i].projectionMatrix, DecodeTransBuf(scene.cameras[i].projectionMatrix).value)
  {
    var c := scene.canvas;
    var canvas := new Canvas(c.uuid, c.width, c.height, c.dpi);
    var viewports: seq<Viewport> := [];
    var i := 0;
    while i < |scene.viewports|
      invariant 0 <= i <= |scene.viewports|
      invariant |viewports| == i
      invariant canvas.uuid == c.uuid && canvas.width == c.width && canvas.height == c.height && canvas.dpi == c.dpi
      invariant forall k :: 0 <= k < i ==> fresh(viewports[k]) && ViewportToPydantic(viewports[k]) == scene.viewports[k]
    {
      var v := scene.viewports[i];
      var viewport := new Viewport(v.uuid, v.x, v.y, v.width, v.height);
      viewports := viewports + [viewport];
      i := i + 1;
    }
    var matrices :- ParseModelMatrices(scene.modelMatrices);
    var cameras :- ParseCameras(scene.cameras);
    return Ok(ParsedScene(canvas, viewports, [], matrices, cameras));
  }

  /** The buffer content of a slot that holds a buffer. */
  function ValueOf(tb: TransBuf): BufferValue
    requires tb.BufferSlot?
    reads tb.buffer
  {
    BufferValue(tb.buffer.btype, tb.buffer.count, tb.buffer.bytes)
  }

  /** A scene serialized and parsed back: the canvas, the viewports, the
    * model matrices and the cameras come back with the same uuids, fields
    * and buffer contents, each buffer a fresh copy. */
  method SerializeThenParse(canvas: Canvas, viewports: seq<Viewport>, visuals: seq<AnyVisual>,
                            modelMatrices: seq<TransBuf>, cameras: seq<Camera>)
    returns (serialized: Result<PydanticScene>, parsed: Result<ParsedScene>)
    requires forall i :: 0 <= i < |modelMatrices| && modelMatrices[i].BufferSlot? ==> modelMatrices[i].buffer.Valid()
    requires forall i :: 0 <= i < |cameras| && cameras[i].viewMatrix.BufferSlot? ==> cameras[i].viewMatrix.buffer.Valid()
    requires forall i :: 0 <= i < |cameras| && cameras[i].projectionMatrix.BufferSlot? ==>
      cameras[i].projectionMatrix.buffer.Valid()
    ensures serialized.Ok? <==> parsed.Ok?
    ensures parsed.Ok? ==> parsed.value.canvas.uuid == canvas.uuid && parsed.value.canvas.width == canvas.width
    ensures parsed.Ok? ==> parsed.value.canvas.height == canvas.height && parsed.value.canvas.dpi == canvas.dpi
    ensures parsed.Ok? ==> |parsed.value.viewports| == |viewports|
    ensures parsed.Ok? ==> forall i :: 0 <= i < |viewports| ==>
      ViewportToPydantic(parsed.value.viewports[i]) == ViewportToPydantic(viewports[i])
    ensures parsed.Ok? ==> |parsed.value.modelMatrices| == |modelMatrices|
    ensures parsed.Ok? ==> forall i :: 0 <= i < |modelMatrices| ==>
      modelMatrices[i].BufferSlot? && Holds(parsed.value.modelMatrices[i], ValueOf(modelMatrices[i]))
    ensures parsed.Ok? ==> |parsed.value.cameras| == |cameras|
    ensures parsed.Ok? ==> forall i :: 0 <= i < |cameras| ==>
      CameraSerializable(cameras[i]) && parsed.value.cameras[i].uuid == cameras[i].uuid
      && Holds(parsed.value.cameras[i].viewMatrix, ValueOf(cameras[i].viewMatrix))
      && Holds(parsed.value.cameras[i].projectionMatrix, ValueOf(cameras[i].projectionMatrix))
  {
    serialized := Serialize(canvas, viewports, visuals, modelMatrices, cameras);
    if serialized.Err? {
      return serialized, Err(serialized.error);
    }
    var scene := serialized.value;
    forall i | 0 <= i < |modelMatrices|
      ensures DecodeTransBuf(scene.modelMatrices[i].modelMatrix) == Ok(ValueOf(modelMatrices[i]))
    {
      SerializedBufferDecodes(modelMatrices[i].buffer);
    }
    forall i | 0 <= i < |cameras|
      ensures DecodeTransBuf(scene.cameras[i].viewMatrix) == Ok(ValueOf(cameras[i].viewMatrix))
      ensures DecodeTransBuf(scene.cameras[i].projectionMatrix) == Ok(ValueOf(cameras[i].projectionMatrix))
    {
      SerializedBufferDecodes(cameras[i].viewMatrix.buffer);
      SerializedBufferDecodes(cameras[i].projectionMatrix.buffer);
    }
    parsed := Parse(scene);
  }
}
