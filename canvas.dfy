/** `Canvas`: the drawing surface's size in pixels and its dpi. The uuid is
  * generated by `UuidUtils.generate_uuid` and is passed in here. */
module Canvases {

  class Canvas {
    /** Assigned once at construction; only the scene parser overwrites it
      * when it restores a serialized canvas. */
    var uuid: string
    var width: int
    var height: int
    var dpi: real

    constructor(uuid: string, width: int, height: int, dpi: real)
      ensures this.uuid == uuid && this.width == width && this.height == height && this.dpi == dpi
    {
      this.uuid := uuid;
      this.width := width;
      this.height := height;
      this.dpi := dpi;
    }

    method SetWidth(width: int)
      modifies this
      ensures this.width == width
      ensures uuid == old(uuid) && height == old(height) && dpi == old(dpi)
    {
      this.width := width;
    }

    method SetHeight(height: int)
      modifies this
      ensures this.height == height
      ensures uuid == old(uuid) && width == old(width) && dpi == old(dpi)
    {
      this.height := height;
    }

    method SetDpi(dpi: real)
      modifies this
      ensures this.dpi == dpi
      ensures uuid == old(uuid) && width == old(width) && height == old(height)
    {
      this.dpi := dpi;
    }
  }
}
