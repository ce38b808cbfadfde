/** `Camera`: a container for a view matrix and a projection matrix, each
  * held in a `TransBuf` slot. The uuid is passed in. */
module Cameras {
  import opened TransBufs

  class Camera {
    var uuid: string
    var viewMatrix: TransBuf
    var projectionMatrix: TransBuf

    constructor(uuid: string, viewMatrix: TransBuf, projectionMatrix: TransBuf)
      ensures this.uuid == uuid && this.viewMatrix == viewMatrix
      ensures this.projectionMatrix == projectionMatrix
    {
      this.uuid := uuid;
      this.viewMatrix := viewMatrix;
      this.projectionMatrix := projectionMatrix;
    }

    method SetViewMatrix(viewMatrix: TransBuf)
      modifies this
      ensures this.viewMatrix == viewMatrix
      ensures uuid == old(uuid) && projectionMatrix == old(projectionMatrix)
    {
      this.viewMatrix := viewMatrix;
    }

    method SetProjectionMatrix(projectionMatrix: TransBuf)
      modifies this
      ensures this.projectionMatrix == projectionMatrix
      ensures uuid == old(uuid) && viewMatrix == old(viewMatrix)
    {
      this.projectionMatrix := projectionMatrix;
    }
  }
}
