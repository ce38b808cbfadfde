/** The serialized scene schema: plain records, validated by pydantic in
  * the source and taken as given here. */
module PydanticTypes {
  import opened GroupUtils

  /** A buffer as count, `BufferType` member name and base64 payload. */
  datatype PydanticBuffer = PydanticBuffer(count: int, bufferType: string, dataBase64: string)

  /** A transform chain's configuration dictionary; its values are not
    * interpreted anywhere in the model. */
  datatype PydanticTransformChain = PydanticTransformChain(transformChain: map<string, string>)

  /** The `type` literal of a serialized slot. */
  datatype TransBufKind = KindBuffer | KindTransformChain

  function KindName(k: TransBufKind): string
  {
    match k
    case KindBuffer => "buffer"
    case KindTransformChain => "transform_chain"
  }

  datatype PydanticTransBufBody = BufferBody(buffer: PydanticBuffer) | ChainBody(chain: PydanticTransformChain)

  /** A serialized slot: the `type` discriminator and the payload. */
  datatype PydanticTransBuf = PydanticTransBuf(kind: TransBufKind, transBuf: PydanticTransBufBody)

  datatype PydanticCanvas = PydanticCanvas(uuid: string, width: int, height: int, dpi: real)

  datatype PydanticViewport = PydanticViewport(uuid: string, x: int, y: int, width: int, height: int)

  datatype PydanticModelMatrix = PydanticModelMatrix(modelMatrix: PydanticTransBuf)

  datatype PydanticCamera = PydanticCamera(uuid: string, viewMatrix: PydanticTransBuf, projectionMatrix: PydanticTransBuf)

  datatype PydanticTexture = PydanticTexture(uuid: string, data: PydanticTransBuf, width: int, height: int)

  /** A serialized visual. Each variant carries the fields of one record
    * class; `VisualType` gives its `type` literal. */
  datatype PydanticVisual =
    | PydanticImage(uuid: string, position: PydanticTransBuf, imageExtent: (real, real, real, real),
                    texture: PydanticTexture, interpolation: string)
    | PydanticMarkers(uuid: string, markerShape: string, positions: PydanticTransBuf, sizes: PydanticTransBuf,
                      faceColors: PydanticTransBuf, edgeColors: PydanticTransBuf, edgeWidths: PydanticTransBuf)
    | PydanticPaths(uuid: string, positions: PydanticTransBuf, pathSizes: PydanticTransBuf, colors: PydanticTransBuf,
                    lineWidths: PydanticTransBuf, capStyle: string, joinStyle: string)
    | PydanticPixels(uuid: string, positions: PydanticTransBuf, colors: PydanticTransBuf, groups: Groups)
    | PydanticPoints(uuid: string, positions: PydanticTransBuf, sizes: PydanticTransBuf,
                     faceColors: PydanticTransBuf, edgeColors: PydanticTransBuf, edgeWidths: PydanticTransBuf)
    | PydanticSegments(uuid: string, positions: PydanticTransBuf, lineWidths: PydanticTransBuf, capStyle: string,
                       colors: PydanticTransBuf)
    | PydanticTexts(uuid: string, positions: PydanticTransBuf, texts: seq<string>, colors: PydanticTransBuf,
                    fontSizes: PydanticTransBuf, anchors: PydanticTransBuf, angles: PydanticTransBuf, fontName: string)

  /** The seven `type` literals, one per record class. */
  function VisualType(v: PydanticVisual): (r: string)
    ensures r in ["image", "markers", "paths", "pixels", "points", "segments", "texts"]
  {
    match v
    case PydanticImage(_, _, _, _, _) => "image"
    case PydanticMarkers(_, _, _, _, _, _, _) => "markers"
    case PydanticPaths(_, _, _, _, _, _, _) => "paths"
    case PydanticPixels(_, _, _, _) => "pixels"
    case PydanticPoints(_, _, _, _, _, _) => "points"
    case PydanticSegments(_, _, _, _, _) => "segments"
    case PydanticTexts(_, _, _, _, _, _, _, _) => "texts"
  }

  /** The `type` literal tells the record classes apart. */
  lemma VisualTypeDiscriminates(a: PydanticVisual, b: PydanticVisual)
    ensures VisualType(a) == VisualType(b) <==>
      (a.PydanticImage? && b.PydanticImage?) || (a.PydanticMarkers? && b.PydanticMarkers?)
      || (a.PydanticPaths? && b.PydanticPaths?) || (a.PydanticPixels? && b.PydanticPixels?)
      || (a.PydanticPoints? && b.PydanticPoints?) || (a.PydanticSegments? && b.PydanticSegments?)
      || (a.PydanticTexts? && b.PydanticTexts?)
  {
  }

  /** The record's TransBuf fields, in declaration order. */
  function VisualSlots(v: PydanticVisual): seq<PydanticTransBuf>
  {
    match v
    case PydanticImage(_, position, _, _, _) => [position]
    case PydanticMarkers(_, _, positions, sizes, faceColors, edgeColors, edgeWidths) =>
      [positions, sizes, faceColors, edgeColors, edgeWidths]
    case PydanticPaths(_, positions, pathSizes, colors, lineWidths, _, _) => [positions, pathSizes, colors, lineWidths]
    case PydanticPixels(_, positions, colors, _) => [positions, colors]
    case PydanticPoints(_, positions, sizes, faceColors, edgeColors, edgeWidths) =>
      [positions, sizes, faceColors, edgeColors, edgeWidths]
    case PydanticSegments(_, positions, lineWidths, _, colors) => [positions, lineWidths, colors]
    case PydanticTexts(_, positions, _, colors, fontSizes, anchors, angles, _) =>
      [positions, colors, fontSizes, anchors, angles]
  }

  /** The whole serialized scene. */
  datatype PydanticScene = PydanticScene(
    canvas: PydanticCanvas,
    viewports: seq<PydanticViewport>,
    visuals: seq<PydanticVisual>,
    modelMatrices: seq<PydanticModelMatrix>,
    cameras: seq<PydanticCamera>)
}
