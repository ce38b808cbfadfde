/** The style enumerations shared by the visuals and the backend
  * converters, with the string value each member carries. */
module Styles {

  datatype CapStyle = CapButt | CapProjecting | CapRound
  datatype JoinStyle = JoinMiter | JoinBevel | JoinRound
  datatype MarkerShape = Disc | Square | Club

  /** `CapStyle.value`. */
  function CapValue(c: CapStyle): string
  {
    match c
    case CapButt => "butt"
    case CapProjecting => "projecting"
    case CapRound => "round"
  }

  /** `JoinStyle.value`. */
  function JoinValue(j: JoinStyle): string
  {
    match j
    case JoinMiter => "miter"
    case JoinBevel => "bevel"
    case JoinRound => "round"
  }

  /** `MarkerShape.value`. */
  function MarkerValue(m: MarkerShape): string
  {
    match m
    case Disc => "disc"
    case Square => "square"
    case Club => "club"
  }

  /** `CapStyle.name`, as the scene serializer writes it. */
  function CapName(c: CapStyle): string
  {
    match c
    case CapButt => "BUTT"
    case CapProjecting => "PROJECTING"
    case CapRound => "ROUND"
  }

  /** `JoinStyle.name`. */
  function JoinName(j: JoinStyle): string
  {
    match j
    case JoinMiter => "MITER"
    case JoinBevel => "BEVEL"
    case JoinRound => "ROUND"
  }

  /** `MarkerShape.name`: the members are named after their values. */
  function MarkerName(m: MarkerShape): string
  {
    MarkerValue(m)
  }
}
