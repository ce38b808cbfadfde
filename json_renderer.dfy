/** `JsonRenderer`: turns a canvas and its viewports into a list of JSON
  * messages, numbering every message from a counter that lives as long as
  * the renderer. */
module JsonRenderers {
  import opened Wrappers
  import opened Canvases
  import opened Viewports
  import opened Cameras
  import opened AnyVisuals
  import opened JsonMessages

  /** Whether the visual is a `Points`, the only class `render` handles. */
  predicate IsPoints(v: AnyVisual)
  {
    v.APoints?
  }

  /** The `CanvasCreate` message for a canvas. */
  function CanvasMessage(id: int, canvas: Canvas): (m: Message)
    reads canvas
  {
    Message(id, "CanvasCreate", CanvasCreate(canvas.uuid, canvas.width, canvas.height, canvas.dpi))
  }

  /** The `ViewportCreate` message for a viewport of a canvas. */
  function ViewportMessage(id: int, viewport: Viewport, canvasUuid: string): (m: Message)
    reads viewport
  {
    Message(id, "ViewportCreate",
            ViewportCreate(viewport.uuid, canvasUuid, viewport.x, viewport.y, viewport.width, viewport.height))
  }

  /** Message ids strictly increase along the list. */
  predicate IdsIncrease(messages: seq<Message>)
  {
    forall i, j :: 0 <= i < j < |messages| ==> messages[i].messageId < messages[j].messageId
  }

  /** Consecutive ids from `first` on are strictly increasing. */
  lemma ConsecutiveIdsIncrease(messages: seq<Message>, first: int)
    requires forall i :: 0 <= i < |messages| ==> messages[i].messageId == first + i
    ensures IdsIncrease(messages)
  {
  }

  class JsonRenderer {
    const canvas: Canvas
    /** The last id handed out; 0 before the first message. */
    var messageIdCounter: int

    constructor(canvas: Canvas)
      ensures this.canvas == canvas && messageIdCounter == 0
    {
      this.canvas := canvas;
      messageIdCounter := 0;
    }

    /** `get_message_id`: increments the counter, then returns it, so the
      * first id is 1. */
    method GetMessageId() returns (id: int)
      modifies this
      ensures messageIdCounter == old(messageIdCounter) + 1
      ensures id == messageIdCounter
    {
      messageIdCounter := messageIdCounter + 1;
      id := messageIdCounter;
    }

    /** `render_points`: no messages yet. */
    method RenderPoints(v: AnyVisual) returns (messages: seq<Message>)
      requires IsPoints(v)
      ensures messages == []
    {
      messages := [];
    }

    /** `render` as written. Building the first viewport's message calls
      * `viewport.get_origin_x()`, which `Viewport` does not define: an
      * AttributeError, raised after that message's id was taken. With no
      * viewports, a Points visual reaches `messages.extend(visual_msg)`,
      * a name never bound in `render`: a NameError. */
    method Render(viewports: seq<Viewport>, visuals: seq<AnyVisual>, cameras: seq<Camera>)
      returns (r: Result<seq<Message>>)
      modifies this
      ensures |viewports| > 0 ==> r == Err(AttributeError) && messageIdCounter == old(messageIdCounter) + 2
      ensures |viewports| == 0 ==> messageIdCounter == old(messageIdCounter) + 1
      ensures |viewports| == 0 && (exists i :: 0 <= i < |visuals| && IsPoints(visuals[i])) ==> r == Err(NameError)
      ensures |viewports| == 0 && (forall i :: 0 <= i < |visuals| ==> !IsPoints(visuals[i])) ==>
        r == Ok([CanvasMessage(old(messageIdCounter) + 1, canvas)])
    {
      var messages: seq<Message> := [];
      var id := GetMessageId();
      messages := messages + [CanvasMessage(id, canvas)];
      if |viewports| > 0 {
        id := GetMessageId();
        return Err(AttributeError);
      }
      var i := 0;
      while i < |visuals|
        invariant 0 <= i <= |visuals|
        invariant forall k :: 0 <= k < i ==> !IsPoints(visuals[k])
        invariant messages == [CanvasMessage(old(messageIdCounter) + 1, canvas)]
        invariant messageIdCounter == old(messageIdCounter) + 1
      {
        if IsPoints(visuals[i]) {
          var _ := RenderPoints(visuals[i]);
          return Err(NameError);
        }
        i := i + 1;
      }
      return Ok(messages);
    }

    /** `render` as evidently intended: the viewport's own x and y, and the
      * Points messages appended. The canvas message comes first, then one
      * `ViewportCreate` per viewport in input order, each naming the
      * canvas; the ids continue the counter one by one, so they increase
      * within the list and across calls. */
    method RenderCorrected(viewports: seq<Viewport>, visuals: seq<AnyVisual>, cameras: seq<Camera>)
      returns (messages: seq<Message>)
      modifies this
      ensures messageIdCounter == old(messageIdCounter) + 1 + |viewports|
      ensures |messages| == 1 + |viewports|
      ensures messages[0] == CanvasMessage(old(messageIdCounter) + 1, canvas)
      ensures forall i :: 0 <= i < |viewports| ==>
        messages[i + 1] == ViewportMessage(old(messageIdCounter) + 2 + i, viewports[i], canvas.uuid)
      ensures forall i :: 0 <= i < |messages| ==>
        old(messageIdCounter) < messages[i].messageId <= messageIdCounter
      ensures IdsIncrease(messages)
    {
      var first := messageIdCounter + 1;
      messages := [];
      var id := GetMessageId();
      messages := messages + [CanvasMessage(id, canvas)];
      var i := 0;
      while i < |viewports|
        invariant 0 <= i <= |viewports|
        invariant messageIdCounter == first + i
        invariant |messages| == 1 + i
        invariant messages[0] == CanvasMessage(first, canvas)
        invariant forall k :: 0 <= k < i ==> messages[k + 1] == ViewportMessage(first + 1 + k, viewports[k], canvas.uuid)
        invariant forall k :: 0 <= k < |messages| ==> messages[k].messageId == first + k
      {
        id := GetMessageId();
        messages := messages + [ViewportMessage(id, viewports[i], canvas.uuid)];
        i := i + 1;
      }
      i := 0;
      while i < |visuals|
        invariant 0 <= i <= |visuals|
        invariant messageIdCounter == first + |viewports|
        invariant |messages| == 1 + |viewports|
        invariant messages[0] == CanvasMessage(first, canvas)
        invariant forall k :: 0 <= k < |viewports| ==>
          messages[k + 1] == ViewportMessage(first + 1 + k, viewports[k], canvas.uuid)
        invariant forall k :: 0 <= k < |messages| ==> messages[k].messageId == first + k
      {
        if IsPoints(visuals[i]) {
          var visualMessages := RenderPoints(visuals[i]);
          messages := messages + visualMessages;
        }
        i := i + 1;
      }
      ConsecutiveIdsIncrease(messages, first);
    }
  }
}
