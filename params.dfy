/**
 * A shader's parameter set, seen from outside: which uniform and attribute names it binds,
 * and with what kind of value. The values themselves live in the parameter container.
 */
module Params {

  datatype Kind = Mat4f | Texture2D | Integer | Vec2f | Vec4f | Other

  type ParamSet = map<string, Kind>

  /** Built-in names of the vertex shader. */
  const MatrixMvp: string := "uMVPMatrix"
  const MatrixStm: string := "uSTMatrix"
  const InPosition: string := "inPosition"
  const InTextureCoord: string := "inTextureCoord"

  /** The sampler through which a stage reads the previous stage's output. */
  const InputTexture: string := "uInputTexture"
}
