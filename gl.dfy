/**
 * Abstract OpenGL ES 3.2. The renderer never sees pixels: every call it makes into GL,
 * every lifecycle call into a shader program object (build, parameter binding, drawing,
 * release), every call into its listener and every assignment of its shader list is
 * recorded, in order, as one event of a trace. Handles that GL hands out are given to the model from outside.
 */
module Gl {

  /** The two interleaved vertex tables of the full-screen quad. */
  datatype Quad = Unflipped | Flipped

  /** The primitive topology passed to glDrawArrays. */
  datatype Primitive = TriangleStrip

  /** The four glTexParameteri settings applied to an off-screen texture. */
  datatype TexParameter = MinFilterLinear | MagFilterLinear | WrapSClampToEdge | WrapTClampToEdge

  datatype Event =
    // GL calls
    | GenFramebuffers(first: int, second: int)
    | GenTextures(first: int, second: int)
    | Viewport(width: int, height: int)
    | BindTexture(texture: int)
    | TexImage2D(width: int, height: int)
    | TexParameteri(parameter: TexParameter)
    | BindFramebuffer(framebuffer: int)
    | FramebufferTexture2D(texture: int)
    | CheckFramebufferStatus
    | ActiveTexture0
    | ClearColor(red: real, green: real, blue: real, alpha: real)
    | ClearColorAndDepth
    | UseProgram(program: int)
    | GetAttribLocation(program: int, name: string)
    | VertexAttribPointer(location: int, size: int, strideBytes: int, quad: Quad, offset: int)
    | EnableVertexAttribArray(location: int)
    | BlendFuncSrcAlpha
    | EnableBlend
    | DrawArrays(mode: Primitive, first: int, count: int)
    | Finish
    | DeleteTextures(first: int, second: int)
    | DeleteFramebuffers(first: int, second: int)
    // calls into a shader program object, identified by its id
    | ShaderBuild(shader: nat)
    | ShaderBindParams(shader: nat, withResources: bool)
    | ShaderParamUpdate(shader: nat, name: string)
    | ShaderDraw(shader: nat)
    | ShaderRelease(shader: nat)
    // assignments to the renderer's `shaders` property, by the shaders' ids
    | InstallShaders(shaders: seq<nat>)
    // calls into the renderer's listener
    | NotifySurfaceCreated
    | NotifyDrawFrame(index: nat, shader: nat)

  /** The rendering context: the only state GL exposes to the model is what was called. */
  class Context {
    var trace: seq<Event>

    constructor ()
      ensures trace == []
    {
      trace := [];
    }
  }
}
