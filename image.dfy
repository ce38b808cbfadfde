/** `Image`: a texture shown at a position with an extent (left, right,
  * bottom, top). Its check raises TypeError unless the texture slot holds
  * a `Texture`. */
module ImageVisual {
  import opened Wrappers
  import opened TransBufs
  import opened Textures

  /** The value passed as the texture: a `Texture`, or any other object. */
  datatype TextureSlot = TextureObject(texture: Texture) | NotTexture

  /** `(left, right, bottom, top)`. */
  type Extent = (real, real, real, real)

  /** `Image.sanity_check_attributes`; the buffer variant delegates to it
    * unchanged. */
  function SanityCheckAttributes(texture: TextureSlot, position: TransBuf, extent: Extent): (r: Result<()>)
    ensures r.Ok? <==> texture.TextureObject?
    ensures r.Err? ==> r.error == TypeError
  {
    if texture.NotTexture? then Err(TypeError) else Ok(())
  }

  class Image {
    var uuid: string
    var texture: TextureSlot
    var position: TransBuf
    var extent: Extent

    constructor(uuid: string, texture: TextureSlot, position: TransBuf, extent: Extent)
      ensures this.uuid == uuid && this.texture == texture
      ensures this.position == position && this.extent == extent
    {
      this.uuid := uuid;
      this.texture := texture;
      this.position := position;
      this.extent := extent;
    }

    /** `check_attributes` on the current fields. */
    function Check(): Result<()>
      reads this
    {
      SanityCheckAttributes(texture, position, extent)
    }

    /** Assigns the texture, then checks: a non-texture is stored and then
      * reported. */
    method SetTexture(texture: TextureSlot) returns (r: Result<()>)
      modifies this
      ensures this.texture == texture
      ensures uuid == old(uuid) && position == old(position) && extent == old(extent)
      ensures r.Ok? <==> texture.TextureObject?
      ensures r == Check()
    {
      this.texture := texture;
      r := Check();
    }

    method SetPosition(position: TransBuf) returns (r: Result<()>)
      modifies this
      ensures this.position == position
      ensures uuid == old(uuid) && texture == old(texture) && extent == old(extent)
      ensures r == Check()
    {
      this.position := position;
      r := Check();
    }

    method SetExtent(extent: Extent) returns (r: Result<()>)
      modifies this
      ensures this.extent == extent
      ensures uuid == old(uuid) && texture == old(texture) && position == old(position)
      ensures r == Check()
    {
      this.extent := extent;
      r := Check();
    }

    /** Replaces the fields passed as non-None, keeps the others, then
      * checks once. */
    method SetAttributes(texture: Option<TextureSlot>, position: Option<TransBuf>, extent: Option<Extent>)
      returns (r: Result<()>)
      modifies this
      ensures this.texture == texture.GetOr(old(this.texture))
      ensures this.position == position.GetOr(old(this.position))
      ensures this.extent == extent.GetOr(old(this.extent))
      ensures uuid == old(uuid)
      ensures r == Check()
    {
      if texture.Some? {
        this.texture := texture.value;
      }
      if position.Some? {
        this.position := position.value;
      }
      if extent.Some? {
        this.extent := extent.value;
      }
      r := Check();
    }
  }

  /** `Image(texture, position, image_extent)`: TypeError unless the
    * texture is a `Texture`. */
  method NewImage(uuid: string, texture: TextureSlot, position: TransBuf, extent: Extent) returns (r: Result<Image>)
    ensures r.Ok? <==> texture.TextureObject?
    ensures r.Err? ==> r.error == TypeError
    ensures r.Ok? ==> fresh(r.value) && r.value.uuid == uuid && r.value.texture == texture
    ensures r.Ok? ==> r.value.position == position && r.value.extent == extent
  {
    var image := new Image(uuid, texture, position, extent);
    var c := image.Check();
    if c.Err? {
      return Err(c.error);
    }
    r := Ok(image);
  }
}
