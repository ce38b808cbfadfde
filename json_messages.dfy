/** The JSON renderer's message schema: every message carries an integer
  * id and a command name; the body is one of the message classes. */
module JsonMessages {
  import opened Wrappers
  import opened Bytes

  /** The operator of a `TransformLinkOperator`. */
  datatype Operator = OpAdd | OpSub | OpMul | OpDiv

  /** The `Literal['add', 'sub', 'mul', 'div']` spelling. */
  function OperatorName(op: Operator): string
  {
    match op
    case OpAdd => "add"
    case OpSub => "sub"
    case OpMul => "mul"
    case OpDiv => "div"
  }

  /** Validation of the literal: only the four names are accepted. */
  function OperatorFromName(s: string): (r: Option<Operator>)
    ensures r.Some? ==> OperatorName(r.value) == s
    ensures r.None? ==> s !in ["add", "sub", "mul", "div"]
  {
    if s == "add" then Some(OpAdd)
    else if s == "sub" then Some(OpSub)
    else if s == "mul" then Some(OpMul)
    else if s == "div" then Some(OpDiv)
    else None
  }

  /** The four names read back as their operators. */
  lemma OperatorNameRoundTrip(op: Operator)
    ensures OperatorFromName(OperatorName(op)) == Some(op)
  {
    match op
    case OpAdd =>
    case OpSub =>
    case OpMul =>
    case OpDiv =>
  }

  /** The message schema's own buffer element types: only these three. */
  datatype MessageBufferType = MsgInt32 | MsgFloat32 | MsgFloat64

  function MessageBufferTypeName(t: MessageBufferType): string
  {
    match t
    case MsgInt32 => "int32"
    case MsgFloat32 => "float32"
    case MsgFloat64 => "float64"
  }

  datatype MessageBody =
    | CanvasCreate(canvasUuid: string, width: int, height: int, dpi: real)
    | CanvasSetDpi(canvasUuid: string, dpi: real)
    | CanvasSetSize(canvasUuid: string, width: int, height: int)
    | ViewportCreate(viewportUuid: string, canvasUuid: string, x: int, y: int, width: int, height: int)
    | ViewportSetPosition(viewportUuid: string, x: int, y: int)
    | ViewportSetSize(viewportUuid: string, width: int, height: int)
    | TransformLink
    | TransformLinkOperator(operator: Operator, operand: real)
    | Transform(transformUuid: string, links: seq<Message>)
    | BufferMessage(bufferUuid: string, count: int, bufferType: MessageBufferType, data: seq<byte>)
    | PointsMessage(visualUuid: string, positions: Message, sizes: Message, faceColors: Message,
                    edgeColors: Message, edgeWidths: Message, groups: Message)

  /** `GspMessage`: the id, documented as increasing, the command name and
    * the class-specific fields. */
  datatype Message = Message(messageId: int, commandName: string, body: MessageBody)

  /** `TransBuffer = Transform | Buffer`. */
  predicate IsTransBuffer(m: Message)
  {
    m.body.Transform? || m.body.BufferMessage?
  }

  /** The field types the dataclass annotations declare: a transform's links
    * are links, every Points attribute (groups included) is a TransBuffer. */
  predicate WellTyped(m: Message)
  {
    match m.body
    case Transform(_, links) =>
      forall i :: 0 <= i < |links| ==> links[i].body.TransformLink? || links[i].body.TransformLinkOperator?
    case PointsMessage(_, positions, sizes, faceColors, edgeColors, edgeWidths, groups) =>
      IsTransBuffer(positions) && IsTransBuffer(sizes) && IsTransBuffer(faceColors)
      && IsTransBuffer(edgeColors) && IsTransBuffer(edgeWidths) && IsTransBuffer(groups)
    case _ => true
  }
}
