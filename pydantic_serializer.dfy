/** `PydanticSerializer`: a scene (canvas, viewports, visuals, model
  * matrices, cameras) as a serialized record. Buffers become their count,
  * their type's name and their bytes in base64. */
module PydanticSerializers {
  import opened Wrappers
  import opened BufferTypes
  import Base64
  import opened Buffers
  import opened TransBufs
  import opened GroupUtils
  import opened Styles
  import opened MarkersVisual
  import opened PathsVisual
  import opened PixelsVisual
  import opened PointsVisual
  import opened SegmentsVisual
  import opened TextsVisual
  import opened AnyVisuals
  import opened Canvases
  import opened Viewports
  import opened Cameras
  import opened PydanticTypes

  /** The buffer objects held by a sequence of slots. */
  function SlotBuffers(slots: seq<TransBuf>): set<object>
  {
    set tb | tb in slots && tb.BufferSlot? :: tb.buffer
  }

  /** The serialized form of a buffer: its count, its type's member name,
    * its bytes in base64. */
  function BufferToPydantic(b: Buffer): (r: PydanticBuffer)
    reads b
    ensures r.count == b.count
  {
    PydanticBuffer(b.count, Name(b.btype), Base64.Encode(b.bytes))
  }

  /** The type name and the payload of a serialized buffer read back as the
    * buffer's type and bytes. */
  lemma BufferToPydanticReadsBack(b: Buffer)
    ensures FromName(BufferToPydantic(b).bufferType) == Some(b.btype)
    ensures Base64.Decode(BufferToPydantic(b).dataBase64) == Some(b.bytes)
  {
    FromNameOfName(b.btype);
    Base64.DecodeEncode(b.bytes);
  }

  /** `_transbuf_to_pydantic`. A transform chain has no `serialize` method,
    * so that branch raises AttributeError; any other object is a
    * ValueError. */
  function TransBufToPydantic(tb: TransBuf): (r: Result<PydanticTransBuf>)
    reads SlotBuffers([tb])
    ensures r.Ok? <==> tb.BufferSlot?
    ensures r.Ok? ==> r.value.kind == KindBuffer && r.value.transBuf == BufferBody(BufferToPydantic(tb.buffer))
    ensures tb.ChainSlot? ==> r == Err(AttributeError)
    ensures tb.Foreign? ==> r == Err(ValueError)
  {
    match tb
    case BufferSlot(b) =>
      assert b in SlotBuffers([tb]);
      Ok(PydanticTransBuf(KindBuffer, BufferBody(BufferToPydantic(b))))
    case ChainSlot(_) => Err(AttributeError)
    case Foreign => Err(ValueError)
  }

  /** Slots serialized left to right; the first failure is the result. */
  function SlotsToPydantic(slots: seq<TransBuf>): (r: Result<seq<PydanticTransBuf>>)
    reads SlotBuffers(slots)
    ensures r.Ok? <==> forall i :: 0 <= i < |slots| ==> slots[i].BufferSlot?
    ensures r.Ok? ==> |r.value| == |slots|
    ensures r.Ok? ==> forall i :: 0 <= i < |slots| ==> Ok(r.value[i]) == TransBufToPydantic(slots[i])
    ensures r.Err? ==> r.error == AttributeError || r.error == ValueError
    decreases |slots|
  {
    if slots == [] then Ok([])
    else
      assert SlotBuffers([slots[0]]) <= SlotBuffers(slots);
      assert SlotBuffers(slots[1..]) <= SlotBuffers(slots);
      var head :- TransBufToPydantic(slots[0]);
      var tail :- SlotsToPydantic(slots[1..]);
      Ok([head] + tail)
  }

  /** Pydantic's validation of the `groups` field against
    * `int | list[int] | list[list[int]]`; anything else is a validation
    * error, a ValueError. The empty list validates as a list of ints. */
  function GroupsFromPy(v: PyValue): (r: Result<Groups>)
    ensures r.Ok? <==> IsInstanceOfGroups(v)
    ensures r.Ok? ==> ToPy(r.value) == v
    ensures r.Err? ==> r.error == ValueError
  {
    if v.PyInt? then Ok(Count(v.n))
    else if v.PyList? && AllInts(v.items) then
      var r := Sizes(IntsOf(v.items));
      assert ToPy(r).items == v.items;
      Ok(r)
    else if v.PyList? && AllIntLists(v.items) then
      var r := Members(IntListsOf(v.items));
      assert forall i :: 0 <= i < |v.items| ==> ToPy(r).items[i] == v.items[i];
      Ok(r)
    else Err(ValueError)
  }

  /** Pydantic's validation of the `texts` field against `list[str]`. */
  function StringsOf(items: seq<TextItem>): (r: Result<seq<string>>)
    ensures r.Ok? <==> forall i :: 0 <= i < |items| ==> items[i].Str?
    ensures r.Ok? ==> |r.value| == |items| && forall i :: 0 <= i < |items| ==> r.value[i] == items[i].text
    ensures r.Err? ==> r.error == ValueError
  {
    if forall i :: 0 <= i < |items| ==> items[i].Str? then
      Ok(seq(|items|, i requires 0 <= i < |items| => items[i].text))
    else Err(ValueError)
  }

  /** Whether `_visuals_to_pydantic` accepts a visual: not an image, every
    * slot a buffer, and the pixels' groups and the texts' strings of the
    * declared types. */
  predicate Serializable(v: AnyVisual)
    reads v.Objects()
  {
    !v.AImage?
    && (forall i :: 0 <= i < |v.Slots()| ==> v.Slots()[i].BufferSlot?)
    && (v.APixels? ==> IsInstanceOfGroups(v.pixels.groups))
    && (v.ATexts? ==> forall i :: 0 <= i < |v.texts.strings| ==> v.texts.strings[i].Str?)
  }

  /** The Markers branch: the shape by its member name, then the slots. */
  function MarkersToPydantic(m: Markers): (r: Result<PydanticVisual>)
    reads m, SlotBuffers(AMarkers(m).Slots())
    ensures var s := SlotsToPydantic(AMarkers(m).Slots());
      (s.Err? ==> r == Err(s.error))
      && (s.Ok? ==> r.Ok? && r.value.PydanticMarkers? && r.value.uuid == m.uuid
                    && r.value.markerShape == MarkerName(m.markerShape) && VisualSlots(r.value) == s.value)
  {
    var s :- SlotsToPydantic(AMarkers(m).Slots());
    assert s == [s[0], s[1], s[2], s[3], s[4]];
    Ok(PydanticMarkers(m.uuid, MarkerName(m.markerShape), s[0], s[1], s[2], s[3], s[4]))
  }

  /** The Paths branch: cap and join styles by their member names. */
  function PathsToPydantic(p: Paths): (r: Result<PydanticVisual>)
    reads p, SlotBuffers(APaths(p).Slots())
    ensures var s := SlotsToPydantic(APaths(p).Slots());
      (s.Err? ==> r == Err(s.error))
      && (s.Ok? ==> r.Ok? && r.value.PydanticPaths? && r.value.uuid == p.uuid && VisualSlots(r.value) == s.value
                    && r.value.capStyle == CapName(p.capStyle) && r.value.joinStyle == JoinName(p.joinStyle))
  {
    var s :- SlotsToPydantic(APaths(p).Slots());
    assert s == [s[0], s[1], s[2], s[3]];
    Ok(PydanticPaths(p.uuid, s[0], s[1], s[2], s[3], CapName(p.capStyle), JoinName(p.joinStyle)))
  }

  /** The Pixels branch: the slots, then the groups' validation. */
  function PixelsToPydantic(p: Pixels): (r: Result<PydanticVisual>)
    reads p, SlotBuffers(APixels(p).Slots())
    ensures var s := SlotsToPydantic(APixels(p).Slots());
      (s.Err? ==> r == Err(s.error))
      && (s.Ok? && !IsInstanceOfGroups(p.groups) ==> r == Err(ValueError))
      && (s.Ok? && IsInstanceOfGroups(p.groups) ==>
            r.Ok? && r.value.PydanticPixels? && r.value.uuid == p.uuid && VisualSlots(r.value) == s.value
            && ToPy(r.value.groups) == p.groups)
  {
    var s :- SlotsToPydantic(APixels(p).Slots());
    assert s == [s[0], s[1]];
    var groups :- GroupsFromPy(p.groups);
    Ok(PydanticPixels(p.uuid, s[0], s[1], groups))
  }

  function PointsToPydantic(p: Points): (r: Result<PydanticVisual>)
    reads p, SlotBuffers(APoints(p).Slots())
    ensures var s := SlotsToPydantic(APoints(p).Slots());
      (s.Err? ==> r == Err(s.error))
      && (s.Ok? ==> r.Ok? && r.value.PydanticPoints? && r.value.uuid == p.uuid && VisualSlots(r.value) == s.value)
  {
    var s :- SlotsToPydantic(APoints(p).Slots());
    assert s == [s[0], s[1], s[2], s[3], s[4]];
    Ok(PydanticPoints(p.uuid, s[0], s[1], s[2], s[3], s[4]))
  }

  function SegmentsToPydantic(sg: Segments): (r: Result<PydanticVisual>)
    reads sg, SlotBuffers(ASegments(sg).Slots())
    ensures var s := SlotsToPydantic(ASegments(sg).Slots());
      (s.Err? ==> r == Err(s.error))
      && (s.Ok? ==> r.Ok? && r.value.PydanticSegments? && r.value.uuid == sg.uuid && VisualSlots(r.value) == s.value
                    && r.value.capStyle == CapName(sg.capStyle))
  {
    var s :- SlotsToPydantic(ASegments(sg).Slots());
    assert s == [s[0], s[1], s[2]];
    Ok(PydanticSegments(sg.uuid, s[0], s[1], CapName(sg.capStyle), s[2]))
  }

  /** The Texts branch: every keyword argument is evaluated, serializing
    * the slots, before the record validates the strings. */
  function TextsToPydantic(t: Texts): (r: Result<PydanticVisual>)
    reads t, SlotBuffers(ATexts(t).Slots())
    ensures r.Ok? <==> SlotsToPydantic(ATexts(t).Slots()).Ok? && StringsOf(t.strings).Ok?
    ensures SlotsToPydantic(ATexts(t).Slots()).Err? ==> r == Err(SlotsToPydantic(ATexts(t).Slots()).error)
    ensures SlotsToPydantic(ATexts(t).Slots()).Ok? && r.Err? ==> r.error == ValueError
    ensures r.Err? ==> r.error == AttributeError || r.error == ValueError
    ensures r.Ok? ==> r.value.PydanticTexts? && r.value.uuid == t.uuid && r.value.fontName == t.fontName
    ensures r.Ok? ==> Ok(VisualSlots(r.value)) == SlotsToPydantic(ATexts(t).Slots())
    ensures r.Ok? ==> Ok(r.value.texts) == StringsOf(t.strings)
  {
    var slots := ATexts(t).Slots();
    var s :- SlotsToPydantic(slots);
    var strings :- StringsOf(t.strings);
    assert s == [s[0], s[1], s[2], s[3], s[4]];
    Ok(PydanticTexts(t.uuid, s[0], strings, s[1], s[2], s[3], s[4], t.fontName))
  }

  /** One iteration of `_visuals_to_pydantic`: the record of the visual's
    * class with its `type` literal; an Image is not serializable. */
  function VisualToPydantic(v: AnyVisual): (r: Result<PydanticVisual>)
    reads v.Objects(), SlotBuffers(v.Slots())
    ensures r.Ok? <==> Serializable(v)
    ensures v.AImage? ==> r == Err(NotImplementedError)
    ensures r.Ok? ==> VisualType(r.value) == v.TypeName() && r.value.uuid == v.Uuid()
    ensures r.Ok? ==> Ok(VisualSlots(r.value)) == SlotsToPydantic(v.Slots())
  {
    match v
    case AMarkers(m) => MarkersToPydantic(m)
    case APaths(p) => PathsToPydantic(p)
    case APixels(p) => PixelsToPydantic(p)
    case APoints(p) => PointsToPydantic(p)
    case ASegments(sg) => SegmentsToPydantic(sg)
    case ATexts(t) => TextsToPydantic(t)
    case AImage(_) => Err(NotImplementedError)
  }

  /** A visual fails only with the image's NotImplementedError, a slot's
    * AttributeError or ValueError, or a validation ValueError. */
  lemma VisualErrorKinds(v: AnyVisual)
    ensures VisualToPydantic(v).Err? ==>
      VisualToPydantic(v).error == NotImplementedError || VisualToPydantic(v).error == AttributeError
      || VisualToPydantic(v).error == ValueError
  {
  }

  /** `_visuals_to_pydantic`: the visuals in order, stopping at the first
    * one that cannot be serialized. */
  method VisualsToPydantic(visuals: seq<AnyVisual>) returns (r: Result<seq<PydanticVisual>>)
    ensures r.Ok? <==> forall i :: 0 <= i < |visuals| ==> Serializable(visuals[i])
    ensures r.Ok? ==> |r.value| == |visuals|
    ensures r.Ok? ==> forall i :: 0 <= i < |visuals| ==> Ok(r.value[i]) == VisualToPydantic(visuals[i])
    ensures r.Err? ==>
      exists i :: 0 <= i < |visuals| && !Serializable(visuals[i])
        && (forall k :: 0 <= k < i ==> Serializable(visuals[k])) && r == Err(VisualToPydantic(visuals[i]).error)
    ensures r.Err? ==> r.error == NotImplementedError || r.error == AttributeError || r.error == ValueError
  {
    var out: seq<PydanticVisual> := [];
    var i := 0;
    while i < |visuals|
      invariant 0 <= i <= |visuals|
      invariant |out| == i
      invariant forall k :: 0 <= k < i ==> Serializable(visuals[k])
      invariant forall k :: 0 <= k < i ==> Ok(out[k]) == VisualToPydantic(visuals[k])
    {
      var p := VisualToPydantic(visuals[i]);
      if p.Err? {
        assert !Serializable(visuals[i]);
        VisualErrorKinds(visuals[i]);
        return Err(p.error);
      }
      ghost var prev := out;
      out := out + [p.value];
      forall k | 0 <= k < i + 1
        ensures Ok(out[k]) == VisualToPydantic(visuals[k])
      {
        if k < i {
          assert out[k] == prev[k];
        }
      }
      i := i + 1;
    }
    return Ok(out);
  }

  function ViewportToPydantic(v: Viewport): (r: PydanticViewport)
    reads v
  {
    PydanticViewport(v.uuid, v.x, v.y, v.width, v.height)
  }

  /** Whether both of a camera's matrices are buffers, which is what the
    * serializer accepts. */
  predicate CameraSerializable(c: Camera)
    reads c
  {
    c.viewMatrix.BufferSlot? && c.projectionMatrix.BufferSlot?
  }

  /** The model-matrices comprehension: the matrices serialized in order,
    * the first failure propagating. */
  function ModelMatricesToPydantic(modelMatrices: seq<TransBuf>): (r: Result<seq<PydanticModelMatrix>>)
    reads SlotBuffers(modelMatrices)
    ensures r.Ok? <==> forall i :: 0 <= i < |modelMatrices| ==> modelMatrices[i].BufferSlot?
    ensures r.Err? ==> r.error == AttributeError || r.error == ValueError
    ensures r.Ok? ==> |r.value| == |modelMatrices|
    ensures r.Ok? ==> forall i :: 0 <= i < |modelMatrices| ==>
      Ok(r.value[i].modelMatrix) == TransBufToPydantic(modelMatrices[i])
  {
    var s :- SlotsToPydantic(modelMatrices);
    Ok(seq(|s|, i requires 0 <= i < |s| => PydanticModelMatrix(s[i])))
  }

  /** Each camera's view and projection matrices, camera after camera. */
  function CameraMatrices(cameras: seq<Camera>): (r: seq<TransBuf>)
    reads cameras
    ensures |r| == 2 * |cameras|
    ensures forall i :: 0 <= i < |cameras| ==>
      r[2 * i] == cameras[i].viewMatrix && r[2 * i + 1] == cameras[i].projectionMatrix
  {
    if cameras == [] then []
    else [cameras[0].viewMatrix, cameras[0].projectionMatrix] + CameraMatrices(cameras[1..])
  }

  lemma CameraMatricesBuffers(cameras: seq<Camera>)
    ensures (forall j :: 0 <= j < |CameraMatrices(cameras)| ==> CameraMatrices(cameras)[j].BufferSlot?)
      <==> (forall i :: 0 <= i < |cameras| ==> CameraSerializable(cameras[i]))
  {
    var m := CameraMatrices(cameras);
    if forall i :: 0 <= i < |cameras| ==> CameraSerializable(cameras[i]) {
      forall j | 0 <= j < |m|
        ensures m[j].BufferSlot?
      {
        var i := j / 2;
        assert j == 2 * i || j == 2 * i + 1;
        assert CameraSerializable(cameras[i]);
      }
    } else {
      var i :| 0 <= i < |cameras| && !CameraSerializable(cameras[i]);
      assert !m[2 * i].BufferSlot? || !m[2 * i + 1].BufferSlot?;
    }
  }

  /** The cameras comprehension: uuid, view matrix, projection matrix;
    * matrices are serialized in that order, the first failure
    * propagating. */
  function CamerasToPydantic(cameras: seq<Camera>): (r: Result<seq<PydanticCamera>>)
    reads cameras, SlotBuffers(CameraMatrices(cameras))
    ensures r.Ok? <==> forall i :: 0 <= i < |cameras| ==> CameraSerializable(cameras[i])
    ensures r.Err? ==> r.error == AttributeError || r.error == ValueError
    ensures r.Ok? ==> |r.value| == |cameras|
    ensures r.Ok? ==> forall i :: 0 <= i < |cameras| ==> r.value[i].uuid == cameras[i].uuid
    ensures r.Ok? ==> forall i :: 0 <= i < |cameras| ==>
      Ok(r.value[i].viewMatrix) == TransBufToPydantic(cameras[i].viewMatrix)
      && Ok(r.value[i].projectionMatrix) == TransBufToPydantic(cameras[i].projectionMatrix)
  {
    var matrices := CameraMatrices(cameras);
    CameraMatricesBuffers(cameras);
    var s :- SlotsToPydantic(matrices);
    Ok(seq(|cameras|, i requires 0 <= i < |cameras| reads cameras => PydanticCamera(cameras[i].uuid, s[2 * i], s[2 * i + 1])))
  }

  /** `PydanticSerializer.serialize`: the canvas and viewports field by
    * field, then the visuals, the model matrices and the cameras, each
    * sequence in order. The scene is returned as the record; its
    * `model_dump` dictionary is the same data. */
  method Serialize(canvas: Canvas, viewports: seq<Viewport>, visuals: seq<AnyVisual>, modelMatrices: seq<TransBuf>,
                   cameras: seq<Camera>) returns (r: Result<PydanticScene>)
    ensures r.Ok? <==>
      (forall i :: 0 <= i < |visuals| ==> Serializable(visuals[i]))
      && (forall i :: 0 <= i < |modelMatrices| ==> modelMatrices[i].BufferSlot?)
      && (forall i :: 0 <= i < |cameras| ==> CameraSerializable(cameras[i]))
    ensures r.Err? ==> r.error == NotImplementedError || r.error == AttributeError || r.error == ValueError
    ensures r.Ok? ==> r.value.canvas == PydanticCanvas(canvas.uuid, canvas.width, canvas.height, canvas.dpi)
    ensures r.Ok? ==> |r.value.viewports| == |viewports|
    ensures r.Ok? ==> forall i :: 0 <= i < |viewports| ==> r.value.viewports[i] == ViewportToPydantic(viewports[i])
    ensures r.Ok? ==> |r.value.visuals| == |visuals|
    ensures r.Ok? ==> forall i :: 0 <= i < |visuals| ==> Ok(r.value.visuals[i]) == VisualToPydantic(visuals[i])
    ensures r.Ok? ==> |r.value.modelMatrices| == |modelMatrices|
    ensures r.Ok? ==> forall i :: 0 <= i < |modelMatrices| ==>
      Ok(r.value.modelMatrices[i].modelMatrix) == TransBufToPydantic(modelMatrices[i])
    ensures r.Ok? ==> |r.value.cameras| == |cameras|
    ensures r.Ok? ==> forall i :: 0 <= i < |cameras| ==> r.value.cameras[i].uuid == cameras[i].uuid
    ensures r.Ok? ==> forall i :: 0 <= i < |cameras| ==>
      Ok(r.value.cameras[i].viewMatrix) == TransBufToPydantic(cameras[i].viewMatrix)
      && Ok(r.value.cameras[i].projectionMatrix) == TransBufToPydantic(cameras[i].projectionMatrix)
  {
    var pCanvas := PydanticCanvas(canvas.uuid, canvas.width, canvas.height, canvas.dpi);
    var pViewports := seq(|viewports|, i requires 0 <= i < |viewports| reads viewports => ViewportToPydantic(viewports[i]));
    var pVisuals :- VisualsToPydantic(visuals);
    var pMatrices :- ModelMatricesToPydantic(modelMatrices);
    var pCameras :- CamerasToPydantic(cameras);
    return Ok(PydanticScene(pCanvas, pViewports, pVisuals, pMatrices, pCameras));
  }
}
