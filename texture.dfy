/** `Texture`: pixel data in a buffer plus its dimensions, which stay
  * positive. The buffer's count is never checked against the dimensions. */
module Textures {
  import opened Wrappers
  import opened Buffers

  class Texture {
    var uuid: string
    var buffer: Buffer
    var width: int
    var height: int

    /** The dimensions every constructor and setter asserts. */
    ghost predicate Valid()
      reads this
    {
      width > 0 && height > 0
    }

    constructor(uuid: string, buffer: Buffer, width: int, height: int)
      requires width > 0 && height > 0
      ensures Valid()
      ensures this.uuid == uuid && this.buffer == buffer
      ensures this.width == width && this.height == height
    {
      this.uuid := uuid;
      this.buffer := buffer;
      this.width := width;
      this.height := height;
    }

    /** Any buffer is accepted, whatever its count. */
    method SetBuffer(buffer: Buffer)
      modifies this
      ensures this.buffer == buffer
      ensures uuid == old(uuid) && width == old(width) && height == old(height)
    {
      this.buffer := buffer;
    }

    /** Fails with AssertionError on a non-positive width, leaving the
      * texture as it was. */
    method SetWidth(width: int) returns (r: Result<()>)
      requires Valid()
      modifies this
      ensures Valid()
      ensures r.Ok? <==> width > 0
      ensures r.Ok? ==> this.width == width
      ensures r.Err? ==> r.error == AssertionError && this.width == old(this.width)
      ensures uuid == old(uuid) && buffer == old(buffer) && height == old(height)
    {
      if width <= 0 {
        return Err(AssertionError);
      }
      this.width := width;
      r := Ok(());
    }

    /** Fails with AssertionError on a non-positive height, leaving the
      * texture as it was. */
    method SetHeight(height: int) returns (r: Result<()>)
      requires Valid()
      modifies this
      ensures Valid()
      ensures r.Ok? <==> height > 0
      ensures r.Ok? ==> this.height == height
      ensures r.Err? ==> r.error == AssertionError && this.height == old(this.height)
      ensures uuid == old(uuid) && buffer == old(buffer) && width == old(width)
    {
      if height <= 0 {
        return Err(AssertionError);
      }
      this.height := height;
      r := Ok(());
    }
  }

  /** `Texture(buffer, width, height)`: AssertionError unless both
    * dimensions are positive. */
  method NewTexture(uuid: string, buffer: Buffer, width: int, height: int) returns (r: Result<Texture>)
    ensures r.Ok? <==> width > 0 && height > 0
    ensures r.Err? ==> r.error == AssertionError
    ensures r.Ok? ==> fresh(r.value) && r.value.Valid() && r.value.buffer == buffer
    ensures r.Ok? ==> r.value.uuid == uuid && r.value.width == width && r.value.height == height
  {
    if !(width > 0 && height > 0) {
      return Err(AssertionError);
    }
    var t := new Texture(uuid, buffer, width, height);
    r := Ok(t);
  }
}
