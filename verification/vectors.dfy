/** The GLM values the renderer works with. */
module Vectors {

  /** glm::vec2 */
  datatype Vec2 = Vec2(x: real, y: real)

  /** glm::vec4 */
  datatype Vec4 = Vec4(x: real, y: real, z: real, w: real)

  /** glm::mat4 with explicit entries: `mK` is `m[K]` as the projection builder fills it. */
  datatype Mat4 = Mat4(m0: Vec4, m1: Vec4, m2: Vec4, m3: Vec4)

  /**
   * A matrix known only by how it was built. GLM's multiplication and
   * transposition are not modelled, so a product stays a term; two matrices
   * are equal here only when they were built the same way.
   */
  datatype Mat =
    | Identity                       // glm::mat4(1.0)
    | CameraPerspective              // camera.matrices.perspective as set by camera.setPerspective
    | OffCentre(texelOffsetX: real, texelOffsetY: real)  // GetProjectionMatrix(texelOffsetX, texelOffsetY) of the camera
    | Transpose(m: Mat)              // glm::transpose
    | Mul(a: Mat, b: Mat)            // a * b
    | WithTranslationX(m: Mat, tx: real)  // m with the entry m[3][0] overwritten by tx
}
