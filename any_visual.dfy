/** A value of static type `VisualBase`: one of the seven visual classes.
  * The scene serializer and the JSON renderer dispatch on the class. */
module AnyVisuals {
  import opened TransBufs
  import opened MarkersVisual
  import opened PathsVisual
  import opened PixelsVisual
  import opened PointsVisual
  import opened SegmentsVisual
  import opened TextsVisual
  import opened ImageVisual

  datatype AnyVisual =
    | AMarkers(markers: Markers)
    | APaths(paths: Paths)
    | APixels(pixels: Pixels)
    | APoints(points: Points)
    | ASegments(segments: Segments)
    | ATexts(texts: Texts)
    | AImage(image: Image)
  {
    /** The visual object itself, for reads clauses. */
    function Objects(): set<object>
    {
      match this
      case AMarkers(m) => {m}
      case APaths(p) => {p}
      case APixels(p) => {p}
      case APoints(p) => {p}
      case ASegments(s) => {s}
      case ATexts(t) => {t}
      case AImage(i) => {i}
    }

    /** `get_uuid()`. */
    function Uuid(): string
      reads Objects()
    {
      match this
      case AMarkers(m) => m.uuid
      case APaths(p) => p.uuid
      case APixels(p) => p.uuid
      case APoints(p) => p.uuid
      case ASegments(s) => s.uuid
      case ATexts(t) => t.uuid
      case AImage(i) => i.uuid
    }

    /** The `type` literal the scene serializer writes for this class. */
    function TypeName(): string
    {
      match this
      case AMarkers(_) => "markers"
      case APaths(_) => "paths"
      case APixels(_) => "pixels"
      case APoints(_) => "points"
      case ASegments(_) => "segments"
      case ATexts(_) => "texts"
      case AImage(_) => "image"
    }

    /** The visual's TransBuf attributes, in the order the scene record
      * lists them. */
    function Slots(): seq<TransBuf>
      reads Objects()
    {
      match this
      case AMarkers(m) => [m.positions, m.sizes, m.faceColors, m.edgeColors, m.edgeWidths]
      case APaths(p) => [p.positions, p.pathSizes, p.colors, p.lineWidths]
      case APixels(p) => [p.positions, p.colors]
      case APoints(p) => [p.positions, p.sizes, p.faceColors, p.edgeColors, p.edgeWidths]
      case ASegments(s) => [s.positions, s.lineWidths, s.colors]
      case ATexts(t) => [t.positions, t.colors, t.fontSizes, t.anchors, t.angles]
      case AImage(i) => [i.position]
    }
  }
}
