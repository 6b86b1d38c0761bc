/**
 * The multi-shader view: it holds the requested sources and parameter sets, a flag saying the
 * shader list must be rebuilt, the render mode, and the renderer it drives. The renderer's
 * listener is the view itself and is invoked synchronously.
 */
module MultiShader {
  import opened Gl
  import opened Params
  import opened Shaders
  import opened RenderSchedule
  import opened QuadMultiRender
  import opened ShaderSelection

  datatype RenderMode = Continuously | WhenDirty

  function ModeFor(updateContinuously: bool): RenderMode {
    if updateContinuously then Continuously else WhenDirty
  }

  /** `shaders.forEachIndexed { i, s -> s.params = params[i] }` restricted to indices that exist. */
  function WithParams(shaders: seq<Shader>, params: seq<ParamSet>): seq<Shader> {
    seq(|shaders|, i requires 0 <= i < |shaders| => if i < |params| then shaders[i].(params := params[i]) else shaders[i])
  }

  /**
   * Assigning parameter sets changes nothing but `params`, only at indices below both lengths,
   * and leaves an empty list empty.
   */
  lemma WithParamsAssignsExistingIndices(shaders: seq<Shader>, params: seq<ParamSet>)
    ensures var r := WithParams(shaders, params);
      && |r| == |shaders|
      && (shaders == [] ==> r == [])
      && (params == [] ==> r == shaders)
      && forall i :: 0 <= i < |r| ==>
        && r[i] == shaders[i].(params := r[i].params)
        && r[i].params == if i < |params| then params[i] else shaders[i].params
  {
  }

  /** One more pass of the parameter loop. */
  lemma WithParamsStep(shaders: seq<Shader>, params: seq<ParamSet>, k: nat)
    requires k < |params|
    ensures k < |shaders| ==>
      WithParams(shaders, params[..k + 1]) == WithParams(shaders, params[..k])[k := shaders[k].(params := params[k])]
    ensures k >= |shaders| ==> WithParams(shaders, params[..k + 1]) == WithParams(shaders, params[..k])
  {
  }

  function BuildEvents(firstId: nat, n: nat): seq<Event> {
    seq(n, i requires 0 <= i < n => ShaderBuild(firstId + i))
  }

  /** What the renderer's `shaders` setter leaves in the renderer. */
  function Installed(built: seq<Shader>, surfaceCreated: bool): seq<Shader> {
    if surfaceCreated then Initialized(built) else built
  }

  /** The renderer's list after `initShaders`. */
  function AfterInit(recreate: bool, current: seq<Shader>, built: seq<Shader>, surfaceCreated: bool): seq<Shader> {
    if recreate then Installed(built, surfaceCreated) else current
  }

  /** What the renderer's `shaders` setter emits: the assignment, then the initialisation if the surface exists. */
  function InstallEvents(built: seq<Shader>, surfaceCreated: bool): seq<Event> {
    [InstallShaders(Ids(built))] + (if surfaceCreated then InitializationEvents(built) else [])
  }

  /**
   * The events of `initShaders`: when recreating, build every shader, install the new list
   * (the setter initialises it if the surface exists), release every shader of the previous
   * list; in all cases bind the parameters of the renderer's list with resources.
   */
  function InitShadersEvents(recreate: bool, current: seq<Shader>, built: seq<Shader>, firstId: nat, surfaceCreated: bool): seq<Event> {
    (if recreate
     then BuildEvents(firstId, |built|) + InstallEvents(built, surfaceCreated) + ReleaseEvents(current)
     else [])
    + BindParamsEvents(AfterInit(recreate, current, built, surfaceCreated), true)
  }

  /**
   * A recreation releases exactly the previous list, and only after the new one is in place:
   * every shader is built first, then the new list is assigned to the renderer, and every
   * release (one per previous shader) comes after that assignment. When the previous shaders
   * are numbered below `firstId`, no released shader belongs to the list the renderer now holds.
   */
  lemma RecreationReleasesOnlyThePreviousList(current: seq<Shader>, sources: seq<Source>, params: seq<ParamSet>,
                                              compile: Source -> Compiled, firstId: nat, surfaceCreated: bool)
    requires forall j :: 0 <= j < |current| ==> current[j].id < firstId
    ensures var built := Built(sources, params, compile, firstId);
      var now := AfterInit(true, current, built, surfaceCreated);
      var t := InitShadersEvents(true, current, built, firstId, surfaceCreated);
      && |now| == |sources|
      && (forall k :: 0 <= k < |now| ==> now[k].id == firstId + k)
      && (forall j, k :: 0 <= j < |current| && 0 <= k < |now| ==> current[j].id != now[k].id)
      && |sources| < |t|
      && t[..|sources|] == BuildEvents(firstId, |sources|)
      && t[|sources|] == InstallShaders(Ids(now))
      && (forall q :: 0 <= q < |t| && t[q].ShaderRelease? ==> |sources| < q && t[q].shader in Ids(current))
      && (forall j :: 0 <= j < |current| ==> ShaderRelease(current[j].id) in t[|sources| + 1..])
  {
    var built := Built(sources, params, compile, firstId);
    BuiltShaders(sources, params, compile, firstId);
    InitializedKeepsIds(built);
    var now := AfterInit(true, current, built, surfaceCreated);
    var b, n := BuildEvents(firstId, |sources|), if surfaceCreated then InitializationEvents(built) else [];
    var p := BindParamsEvents(now, true);
    assert InitShadersEvents(true, current, built, firstId, surfaceCreated) == b + [InstallShaders(Ids(built))] + n + ReleaseEvents(current) + p;
    InitializationReleasesNothing(built);
    ReleasesOnlyAfter(b, InstallShaders(Ids(built)), n, current, p);
  }

  /**
   * In `before + [e] + middle + ReleaseEvents(released) + after`, where nothing but the
   * release events is a release, every release comes after `e` and is one of `released`.
   */
  lemma ReleasesOnlyAfter(before: seq<Event>, e: Event, middle: seq<Event>, released: seq<Shader>, after: seq<Event>)
    requires forall q :: 0 <= q < |before| ==> !before[q].ShaderRelease?
    requires !e.ShaderRelease?
    requires forall q :: 0 <= q < |middle| ==> !middle[q].ShaderRelease?
    requires forall q :: 0 <= q < |after| ==> !after[q].ShaderRelease?
    ensures var t := before + [e] + middle + ReleaseEvents(released) + after;
      && (forall q :: 0 <= q < |t| && t[q].ShaderRelease? ==> |before| < q && t[q].shader in Ids(released))
      && (forall j :: 0 <= j < |released| ==> ShaderRelease(released[j].id) in t[|before| + 1..])
  {
    var r := ReleaseEvents(released);
    var front := before + [e] + middle;
    var t := front + r + after;
    assert t == before + [e] + middle + r + after;
    forall q | 0 <= q < |t| && !(|front| <= q < |front| + |r|)
      ensures !t[q].ShaderRelease?
    {
      if q < |before| {
        assert t[q] == before[q];
      } else if q == |before| {
        assert t[q] == e;
      } else if q < |front| {
        assert t[q] == middle[q - |before| - 1];
      } else {
        assert t[q] == after[q - |front| - |r|];
      }
    }
    forall q | |front| <= q < |front| + |r|
      ensures t[q] == ShaderRelease(released[q - |front|].id)
      ensures Ids(released)[q - |front|] == released[q - |front|].id
    {
      assert t[q] == r[q - |front|];
    }
    forall j | 0 <= j < |released|
      ensures ShaderRelease(released[j].id) in t[|before| + 1..]
    {
      assert t[|before| + 1..][|middle| + j] == t[|front| + j];
    }
  }

  /** Without recreation an empty renderer list stays empty and nothing is emitted. */
  lemma NoRecreationOnEmptyList(built: seq<Shader>, firstId: nat, surfaceCreated: bool)
    ensures AfterInit(false, [], built, surfaceCreated) == []
    ensures InitShadersEvents(false, [], built, firstId, surfaceCreated) == []
  {
    assert BindParamsEvents([], true) == [];
  }

  /** `params.forEachIndexed { i, p -> renderer.shaders.getOrNull(i)?.params = p }` */
  method AssignParams(renderer: Renderer, params: seq<ParamSet>)
    requires renderer.Valid()
    modifies renderer
    ensures renderer.Valid()
    ensures renderer.shaders == WithParams(old(renderer.shaders), params)
    ensures renderer.attribHandles == old(renderer.attribHandles)
    ensures renderer.width == old(renderer.width) && renderer.height == old(renderer.height)
    ensures renderer.hasSurfaceCreated == old(renderer.hasSurfaceCreated) && renderer.hasListener == old(renderer.hasListener)
  {
    for index := 0 to |params|
      invariant renderer.Valid()
      invariant renderer.shaders == WithParams(old(renderer.shaders), params[..index])
      invariant renderer.attribHandles == old(renderer.attribHandles)
      invariant renderer.width == old(renderer.width) && renderer.height == old(renderer.height)
      invariant renderer.hasSurfaceCreated == old(renderer.hasSurfaceCreated) && renderer.hasListener == old(renderer.hasListener)
    {
      WithParamsStep(old(renderer.shaders), params, index);
      if index < |renderer.shaders| {
        renderer.AssignShaderParams(index, params[index]);
      }
    }
    assert params[..|params|] == params;
  }

  /**
   * `val previous = renderer.shaders; renderer.shaders = value; previous.forEach { it.release() }`:
   * the new list is assigned (and initialised if the surface exists) before any shader of the
   * previous list is released.
   */
  method SwapShaders(renderer: Renderer, value: seq<Shader>, attribLoc: (int, string) -> int)
    requires renderer.Valid()
    modifies renderer, renderer.gl
    ensures renderer.Valid()
    ensures renderer.shaders == Installed(value, old(renderer.hasSurfaceCreated))
    ensures renderer.gl.trace == old(renderer.gl.trace) + InstallEvents(value, old(renderer.hasSurfaceCreated))
      + ReleaseEvents(old(renderer.shaders))
    ensures renderer.attribHandles ==
      if old(renderer.hasSurfaceCreated) then InitializedHandles(old(renderer.attribHandles), value, attribLoc)
      else old(renderer.attribHandles)
    ensures renderer.width == old(renderer.width) && renderer.height == old(renderer.height)
    ensures renderer.hasSurfaceCreated == old(renderer.hasSurfaceCreated) && renderer.hasListener == old(renderer.hasListener)
  {
    var previous := renderer.shaders;
    renderer.SetShaders(value, attribLoc);
    ReleaseAll(renderer.gl, previous);
  }

  class MultiShaderView {
    var shaderRawResIds: seq<ShaderRawResId>
    var shaderCodes: seq<ShaderCode>
    var shaderParams: seq<ParamSet>
    var needToRecreateShaders: bool
    var updateContinuously: bool
    /** Every render mode requested of the surface, in order. */
    var renderModeRequests: seq<RenderMode>
    /** The identity the next built shader gets. */
    var nextShaderId: nat
    const renderer: Renderer
    const defaultVertexResource: int
    const defaultFragmentResource: int

    ghost function Repr(): set<object>
      reads this
    {
      {this} + renderer.Repr()
    }

    /**
     * The renderer listens to this view, the last requested render mode matches
     * `updateContinuously`, every shader in the renderer was built before, and the renderer's
     * list is empty until a recreation has been requested.
     */
    ghost predicate Valid()
      reads this, renderer
    {
      && renderer.Valid() && renderer.hasListener
      && (!needToRecreateShaders ==> renderer.shaders == [])
      && |renderModeRequests| > 0 && renderModeRequests[|renderModeRequests| - 1] == ModeFor(updateContinuously)
      && forall i :: 0 <= i < |renderer.shaders| ==> renderer.shaders[i].id < nextShaderId
    }

    /** The sources the next recreation builds from. */
    function Sources(): seq<Source>
      reads this
    {
      SelectSources(shaderCodes, shaderRawResIds, defaultVertexResource, defaultFragmentResource)
    }

    constructor (defaultVertex: int, defaultFragment: int)
      ensures Valid() && fresh(Repr())
      ensures shaderRawResIds == [] && shaderCodes == [] && shaderParams == []
      ensures !needToRecreateShaders && !updateContinuously && renderModeRequests == [WhenDirty]
      ensures defaultVertexResource == defaultVertex && defaultFragmentResource == defaultFragment
      ensures renderer.shaders == [] && !renderer.hasSurfaceCreated && renderer.gl.trace == []
      ensures renderer.width == -1 && renderer.height == -1
    {
      shaderRawResIds, shaderCodes, shaderParams := [], [], [];
      needToRecreateShaders, updateContinuously := false, false;
      renderModeRequests := [WhenDirty];
      nextShaderId := 0;
      defaultVertexResource, defaultFragmentResource := defaultVertex, defaultFragment;
      renderer := new Renderer();
      new;
      renderer.InstallListener();
    }

    method SetShaderRawResIds(value: seq<ShaderRawResId>)
      requires Valid()
      modifies this
      ensures Valid() && needToRecreateShaders && shaderRawResIds == value
      ensures shaderCodes == old(shaderCodes) && shaderParams == old(shaderParams)
      ensures updateContinuously == old(updateContinuously) && renderModeRequests == old(renderModeRequests)
      ensures nextShaderId == old(nextShaderId)
    {
      needToRecreateShaders := true;
      shaderRawResIds := value;
    }

    method SetShaderCodes(value: seq<ShaderCode>)
      requires Valid()
      modifies this
      ensures Valid() && needToRecreateShaders && shaderCodes == value
      ensures shaderRawResIds == old(shaderRawResIds) && shaderParams == old(shaderParams)
      ensures updateContinuously == old(updateContinuously) && renderModeRequests == old(renderModeRequests)
      ensures nextShaderId == old(nextShaderId)
    {
      needToRecreateShaders := true;
      shaderCodes := value;
    }

    /** Store the parameter sets, then push them to the renderer's shaders. */
    method SetShaderParams(value: seq<ParamSet>)
      requires Valid()
      modifies this, renderer
      ensures Valid() && shaderParams == value
      ensures renderer.shaders == if needToRecreateShaders then old(renderer.shaders) else WithParams(old(renderer.shaders), value)
      ensures renderer.shaders == old(renderer.shaders)
      ensures needToRecreateShaders == old(needToRecreateShaders) && nextShaderId == old(nextShaderId)
      ensures shaderRawResIds == old(shaderRawResIds) && shaderCodes == old(shaderCodes)
      ensures updateContinuously == old(updateContinuously) && renderModeRequests == old(renderModeRequests)
      ensures renderer.attribHandles == old(renderer.attribHandles)
      ensures renderer.width == old(renderer.width) && renderer.height == old(renderer.height)
      ensures renderer.hasSurfaceCreated == old(renderer.hasSurfaceCreated)
    {
      shaderParams := value;
      UpdateShaderParams();
    }

    /**
     * Nothing while a recreation is pending; otherwise parameter set `i` goes to renderer
     * shader `i` for the indices the renderer has. Because the flag is never cleared and the
     * renderer's list stays empty until it is first set, this never changes the list.
     */
    method UpdateShaderParams()
      requires Valid()
      modifies renderer
      ensures Valid()
      ensures renderer.shaders == if needToRecreateShaders then old(renderer.shaders) else WithParams(old(renderer.shaders), shaderParams)
      ensures renderer.shaders == old(renderer.shaders)
      ensures renderer.attribHandles == old(renderer.attribHandles)
      ensures renderer.width == old(renderer.width) && renderer.height == old(renderer.height)
      ensures renderer.hasSurfaceCreated == old(renderer.hasSurfaceCreated)
    {
      if needToRecreateShaders {
        return;
      }
      AssignParams(renderer, shaderParams);
      WithParamsAssignsExistingIndices(old(renderer.shaders), shaderParams);
    }

    /** Unchanged value: nothing; otherwise store it and request the matching render mode. */
    method SetUpdateContinuously(value: bool)
      requires Valid()
      modifies this
      ensures Valid() && updateContinuously == value
      ensures renderModeRequests == if old(updateContinuously) == value then old(renderModeRequests)
                                    else old(renderModeRequests) + [ModeFor(value)]
      ensures shaderRawResIds == old(shaderRawResIds) && shaderCodes == old(shaderCodes) && shaderParams == old(shaderParams)
      ensures needToRecreateShaders == old(needToRecreateShaders) && nextShaderId == old(nextShaderId)
    {
      if updateContinuously == value {
        return;
      }
      updateContinuously := value;
      if value {
        renderModeRequests := renderModeRequests + [Continuously];
      } else {
        renderModeRequests := renderModeRequests + [WhenDirty];
      }
    }

    /** The builder loop of `initShaders`: one shader per source, parameter set `i` when given. */
    method BuildShaders(sources: seq<Source>, compile: Source -> Compiled) returns (built: seq<Shader>)
      requires Valid()
      modifies this, renderer.gl
      ensures Valid()
      ensures built == Built(sources, shaderParams, compile, old(nextShaderId))
      ensures nextShaderId == old(nextShaderId) + |sources|
      ensures renderer.gl.trace == old(renderer.gl.trace) + BuildEvents(old(nextShaderId), |sources|)
      ensures shaderRawResIds == old(shaderRawResIds) && shaderCodes == old(shaderCodes) && shaderParams == old(shaderParams)
      ensures needToRecreateShaders == old(needToRecreateShaders)
      ensures updateContinuously == old(updateContinuously) && renderModeRequests == old(renderModeRequests)
    {
      var tmp: seq<Shader> := [];
      for index := 0 to |sources|
        invariant nextShaderId == old(nextShaderId) + index
        invariant |tmp| == index
        invariant forall i :: 0 <= i < index ==>
          tmp[i] == Build(old(nextShaderId) + i, sources[i], BuilderParams(shaderParams, i), compile)
        invariant renderer.gl.trace == old(renderer.gl.trace) + BuildEvents(old(nextShaderId), index)
        invariant Valid()
        invariant shaderRawResIds == old(shaderRawResIds) && shaderCodes == old(shaderCodes) && shaderParams == old(shaderParams)
        invariant needToRecreateShaders == old(needToRecreateShaders)
        invariant updateContinuously == old(updateContinuously) && renderModeRequests == old(renderModeRequests)
      {
        var params := BuilderParams(shaderParams, index);
        var compiled := compile(sources[index]);
        assert BuildEvents(old(nextShaderId), index + 1) == BuildEvents(old(nextShaderId), index) + [ShaderBuild(nextShaderId)];
        renderer.gl.trace := renderer.gl.trace + [ShaderBuild(nextShaderId)];
        tmp := tmp + [Shader(nextShaderId, sources[index], compiled.program, compiled.isReady, params)];
        nextShaderId := nextShaderId + 1;
      }
      built := tmp;
    }

    /**
     * `initShaders`: when a recreation is pending, build the new list, install it in the
     * renderer, release the previous list and set the flag (again); then bind the parameters of
     * the renderer's list with resources.
     */
    method InitShaders(compile: Source -> Compiled, attribLoc: (int, string) -> int)
      requires Valid()
      modifies this, renderer, renderer.gl
      ensures Valid()
      ensures needToRecreateShaders == old(needToRecreateShaders)
      ensures nextShaderId == old(nextShaderId) + if old(needToRecreateShaders) then |old(Sources())| else 0
      ensures var built := Built(old(Sources()), old(shaderParams), compile, old(nextShaderId));
        && renderer.shaders == AfterInit(old(needToRecreateShaders), old(renderer.shaders), built, old(renderer.hasSurfaceCreated))
        && renderer.gl.trace == old(renderer.gl.trace)
           + InitShadersEvents(old(needToRecreateShaders), old(renderer.shaders), built, old(nextShaderId), old(renderer.hasSurfaceCreated))
        && renderer.attribHandles ==
           if old(needToRecreateShaders) && old(renderer.hasSurfaceCreated)
           then InitializedHandles(old(renderer.attribHandles), built, attribLoc)
           else old(renderer.attribHandles)
      ensures shaderRawResIds == old(shaderRawResIds) && shaderCodes == old(shaderCodes) && shaderParams == old(shaderParams)
      ensures updateContinuously == old(updateContinuously) && renderModeRequests == old(renderModeRequests)
      ensures renderer.width == old(renderer.width) && renderer.height == old(renderer.height)
      ensures renderer.hasSurfaceCreated == old(renderer.hasSurfaceCreated)
    {
      if needToRecreateShaders {
        Recreate(compile, attribLoc);
      }
      BindAll(renderer.gl, renderer.shaders, true);
    }

    /** The recreation half of `initShaders`. */
    method Recreate(compile: Source -> Compiled, attribLoc: (int, string) -> int)
      requires Valid() && needToRecreateShaders
      modifies this, renderer, renderer.gl
      ensures Valid() && needToRecreateShaders
      ensures nextShaderId == old(nextShaderId) + |old(Sources())|
      ensures var built := Built(old(Sources()), old(shaderParams), compile, old(nextShaderId));
        && renderer.shaders == Installed(built, old(renderer.hasSurfaceCreated))
        && renderer.gl.trace == old(renderer.gl.trace) + BuildEvents(old(nextShaderId), |built|)
           + InstallEvents(built, old(renderer.hasSurfaceCreated)) + ReleaseEvents(old(renderer.shaders))
        && renderer.attribHandles ==
           if old(renderer.hasSurfaceCreated) then InitializedHandles(old(renderer.attribHandles), built, attribLoc)
           else old(renderer.attribHandles)
      ensures shaderRawResIds == old(shaderRawResIds) && shaderCodes == old(shaderCodes) && shaderParams == old(shaderParams)
      ensures updateContinuously == old(updateContinuously) && renderModeRequests == old(renderModeRequests)
      ensures renderer.width == old(renderer.width) && renderer.height == old(renderer.height)
      ensures renderer.hasSurfaceCreated == old(renderer.hasSurfaceCreated)
    {
      var sources := SelectSources(shaderCodes, shaderRawResIds, defaultVertexResource, defaultFragmentResource);
      var tmpShaders := BuildShaders(sources, compile);
      SwapShaders(renderer, tmpShaders, attribLoc);
      needToRecreateShaders := true;
      BuiltShaders(sources, old(shaderParams), compile, old(nextShaderId));
      BuiltInsPerStage(tmpShaders);
    }

    /**
     * `onSurfaceCreated` of the renderer with this view as its listener: generate the targets,
     * notify the listener, which runs `initShaders`, then initialise the renderer's list and mark
     * the surface.
     */
    method OnSurfaceCreated(framebuffer0: int, framebuffer1: int, texture0: int, texture1: int,
                            compile: Source -> Compiled, attribLoc: (int, string) -> int)
      requires Valid()
      modifies this, renderer, renderer.gl, renderer.frameBuffers, renderer.fboTextures
      ensures Valid() && renderer.hasSurfaceCreated
      ensures renderer.frameBuffers[..] == [framebuffer0, framebuffer1] && renderer.fboTextures[..] == [texture0, texture1]
      ensures var built := Built(old(Sources()), old(shaderParams), compile, old(nextShaderId));
        var listed := AfterInit(old(needToRecreateShaders), old(renderer.shaders), built, old(renderer.hasSurfaceCreated));
        && renderer.shaders == Initialized(listed)
        && renderer.gl.trace == old(renderer.gl.trace)
           + [GenFramebuffers(framebuffer0, framebuffer1), GenTextures(texture0, texture1), NotifySurfaceCreated]
           + InitShadersEvents(old(needToRecreateShaders), old(renderer.shaders), built, old(nextShaderId), old(renderer.hasSurfaceCreated))
           + InitializationEvents(listed)
        && renderer.attribHandles == InitializedHandles(
             if old(needToRecreateShaders) && old(renderer.hasSurfaceCreated)
             then InitializedHandles(old(renderer.attribHandles), built, attribLoc)
             else old(renderer.attribHandles), listed, attribLoc)
      ensures needToRecreateShaders == old(needToRecreateShaders)
      ensures nextShaderId == old(nextShaderId) + if old(needToRecreateShaders) then |old(Sources())| else 0
      ensures shaderRawResIds == old(shaderRawResIds) && shaderCodes == old(shaderCodes) && shaderParams == old(shaderParams)
      ensures updateContinuously == old(updateContinuously) && renderModeRequests == old(renderModeRequests)
      ensures renderer.width == old(renderer.width) && renderer.height == old(renderer.height)
    {
      ghost var built := Built(Sources(), shaderParams, compile, nextShaderId);
      ghost var events := InitShadersEvents(needToRecreateShaders, renderer.shaders, built, nextShaderId, renderer.hasSurfaceCreated);
      renderer.AllocateTargets(framebuffer0, framebuffer1, texture0, texture1);
      ghost var generated := renderer.gl.trace;
      assert generated == old(renderer.gl.trace) + [GenFramebuffers(framebuffer0, framebuffer1), GenTextures(texture0, texture1), NotifySurfaceCreated];
      InitShaders(compile, attribLoc);
      ghost var listed := renderer.shaders;
      ghost var initialised := renderer.gl.trace;
      ghost var handles := renderer.attribHandles;
      assert listed == AfterInit(old(needToRecreateShaders), old(renderer.shaders), built, old(renderer.hasSurfaceCreated));
      assert initialised == generated + events;
      renderer.CompleteSurfaceCreated(attribLoc);
      assert renderer.shaders == Initialized(listed);
      assert renderer.gl.trace == generated + events + InitializationEvents(listed);
      assert renderer.attribHandles == InitializedHandles(handles, listed, attribLoc);
      InitializedKeepsIds(listed);
    }

    /** `onSurfaceTextureDestroyed`: release the renderer. */
    method OnSurfaceTextureDestroyed()
      requires Valid()
      modifies renderer, renderer.gl, renderer.frameBuffers, renderer.fboTextures
      ensures Valid()
      ensures renderer.frameBuffers[..] == [0, 0] && renderer.fboTextures[..] == [0, 0]
      ensures renderer.width == -1 && renderer.height == -1
      ensures renderer.gl.trace == old(renderer.gl.trace)
        + DeleteTargetEvents(old(renderer.frameBuffers[..]), old(renderer.fboTextures[..])) + ReleaseEvents(renderer.shaders)
      ensures renderer.shaders == old(renderer.shaders) && renderer.hasSurfaceCreated == old(renderer.hasSurfaceCreated)
      ensures renderer.attribHandles == old(renderer.attribHandles)
    {
      renderer.Release();
    }

    /** `updateShaders` is `initShaders`. */
    method UpdateShaders(compile: Source -> Compiled, attribLoc: (int, string) -> int)
      requires Valid()
      modifies this, renderer, renderer.gl
      ensures Valid()
      ensures needToRecreateShaders == old(needToRecreateShaders)
      ensures nextShaderId == old(nextShaderId) + if old(needToRecreateShaders) then |old(Sources())| else 0
      ensures var built := Built(old(Sources()), old(shaderParams), compile, old(nextShaderId));
        && renderer.shaders == AfterInit(old(needToRecreateShaders), old(renderer.shaders), built, old(renderer.hasSurfaceCreated))
        && renderer.gl.trace == old(renderer.gl.trace)
           + InitShadersEvents(old(needToRecreateShaders), old(renderer.shaders), built, old(nextShaderId), old(renderer.hasSurfaceCreated))
        && renderer.attribHandles ==
           if old(needToRecreateShaders) && old(renderer.hasSurfaceCreated)
           then InitializedHandles(old(renderer.attribHandles), built, attribLoc)
           else old(renderer.attribHandles)
      ensures shaderRawResIds == old(shaderRawResIds) && shaderCodes == old(shaderCodes) && shaderParams == old(shaderParams)
      ensures updateContinuously == old(updateContinuously) && renderModeRequests == old(renderModeRequests)
      ensures renderer.width == old(renderer.width) && renderer.height == old(renderer.height)
      ensures renderer.hasSurfaceCreated == old(renderer.hasSurfaceCreated)
    {
      InitShaders(compile, attribLoc);
    }
  }
}
