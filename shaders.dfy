/**
 * The compiled shader programs the renderer drives. Their implementation is outside the
 * model: a shader is a value with an identity, the source it was built from, its GL program
 * handle, a readiness flag and a parameter set.
 */
module Shaders {
  import opened Gl
  import opened Params

  /** Where a program's vertex and fragment code come from. */
  datatype Source =
    | FromCode(vertexCode: string, fragmentCode: string)
    | FromRawResources(vertexResource: int, fragmentResource: int)

  datatype Shader = Shader(id: nat, source: Source, program: int, isReady: bool, params: ParamSet)

  /** The frame guard: there is at least one shader and every shader is ready. */
  predicate CanRender(shaders: seq<Shader>) {
    |shaders| > 0 && forall i :: 0 <= i < |shaders| ==> shaders[i].isReady
  }

  /** The identities of a list, in order. */
  function Ids(shaders: seq<Shader>): seq<nat> {
    seq(|shaders|, i requires 0 <= i < |shaders| => shaders[i].id)
  }

  function ReleaseEvents(shaders: seq<Shader>): seq<Event> {
    seq(|shaders|, i requires 0 <= i < |shaders| => ShaderRelease(shaders[i].id))
  }

  function BindParamsEvents(shaders: seq<Shader>, withResources: bool): seq<Event> {
    seq(|shaders|, i requires 0 <= i < |shaders| => ShaderBindParams(shaders[i].id, withResources))
  }

  /** `shaders.forEach { it.release() }` */
  method ReleaseAll(gl: Context, shaders: seq<Shader>)
    modifies gl
    ensures gl.trace == old(gl.trace) + ReleaseEvents(shaders)
  {
    for i := 0 to |shaders|
      invariant gl.trace == old(gl.trace) + ReleaseEvents(shaders[..i])
    {
      assert ReleaseEvents(shaders[..i + 1]) == ReleaseEvents(shaders[..i]) + [ShaderRelease(shaders[i].id)];
      gl.trace := gl.trace + [ShaderRelease(shaders[i].id)];
    }
    assert shaders[..|shaders|] == shaders;
  }

  /** `shaders.forEach { it.bindParams(resources) }` */
  method BindAll(gl: Context, shaders: seq<Shader>, withResources: bool)
    modifies gl
    ensures gl.trace == old(gl.trace) + BindParamsEvents(shaders, withResources)
  {
    for i := 0 to |shaders|
      invariant gl.trace == old(gl.trace) + BindParamsEvents(shaders[..i], withResources)
    {
      assert BindParamsEvents(shaders[..i + 1], withResources)
          == BindParamsEvents(shaders[..i], withResources) + [ShaderBindParams(shaders[i].id, withResources)];
      gl.trace := gl.trace + [ShaderBindParams(shaders[i].id, withResources)];
    }
    assert shaders[..|shaders|] == shaders;
  }
}
