/** `Viewport`: a rectangle of the canvas, offset from its bottom-left
  * corner, in pixels. The uuid is passed in. */
module Viewports {

  class Viewport {
    var uuid: string
    var x: int
    var y: int
    var width: int
    var height: int

    constructor(uuid: string, x: int, y: int, width: int, height: int)
      ensures this.uuid == uuid && this.x == x && this.y == y
      ensures this.width == width && this.height == height
    {
      this.uuid := uuid;
      this.x := x;
      this.y := y;
      this.width := width;
      this.height := height;
    }

    method SetX(x: int)
      modifies this
      ensures this.x == x
      ensures uuid == old(uuid) && y == old(y) && width == old(width) && height == old(height)
    {
      this.x := x;
    }

    method SetY(y: int)
      modifies this
      ensures this.y == y
      ensures uuid == old(uuid) && x == old(x) && width == old(width) && height == old(height)
    {
      this.y := y;
    }

    method SetWidth(width: int)
      modifies this
      ensures this.width == width
      ensures uuid == old(uuid) && x == old(x) && y == old(y) && height == old(height)
    {
      this.width := width;
    }

    method SetHeight(height: int)
      modifies this
      ensures this.height == height
      ensures uuid == old(uuid) && x == old(x) && y == old(y) && width == old(width)
    {
      this.height := height;
    }
  }
}
