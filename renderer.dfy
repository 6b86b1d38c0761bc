/**
 * The multi-pass quad renderer: a state machine over the surface lifecycle that keeps a
 * ping-pong pair of off-screen framebuffers sized to the surface, the shader list, and the
 * attribute locations of each stage, and that drives one frame through all stages.
 */
module QuadMultiRender {
  import opened Gl
  import opened Params
  import opened Shaders
  import opened QuadGeometry
  import opened RenderSchedule

  class Renderer {
    /** The GL context every call goes to. */
    const gl: Context
    /** The ping-pong pair: framebuffer k has texture k as its colour attachment. */
    const frameBuffers: array<int>
    const fboTextures: array<int>

    var shaders: seq<Shader>
    /** The surface size the off-screen textures were last specified at; -1 when unset. */
    var width: int
    var height: int
    var hasSurfaceCreated: bool
    /** Whether a listener is installed (it is notified synchronously). */
    var hasListener: bool
    /** Stage index to the (position, texture-coordinate) attribute locations. */
    var attribHandles: map<int, (int, int)>

    /** The objects the renderer owns. */
    ghost function Repr(): set<object> {
      {this, gl, frameBuffers, fboTextures}
    }

    ghost predicate Valid()
      reads this
    {
      && frameBuffers.Length == 2 && fboTextures.Length == 2
      && frameBuffers != fboTextures
    }

    /** What a frame depends on besides the shader list. */
    function Context(): (c: FrameContext)
      reads this, frameBuffers, fboTextures
      requires Valid()
      ensures WellFormed(c)
    {
      FrameContext(frameBuffers[..], fboTextures[..], attribHandles, hasListener)
    }

    constructor ()
      ensures Valid() && fresh(Repr() - {this})
      ensures shaders == [] && width == -1 && height == -1
      ensures !hasSurfaceCreated && !hasListener && attribHandles == map[]
      ensures frameBuffers[..] == [0, 0] && fboTextures[..] == [0, 0] && gl.trace == []
    {
      gl := new Context();
      frameBuffers := new int[2] (_ => 0);
      fboTextures := new int[2] (_ => 0);
      shaders := [];
      width, height := -1, -1;
      hasSurfaceCreated, hasListener := false, false;
      attribHandles := map[];
    }

    /** Installing the listener (the `listener` property). */
    method InstallListener()
      requires Valid()
      modifies this
      ensures Valid() && hasListener
      ensures shaders == old(shaders) && width == old(width) && height == old(height)
      ensures hasSurfaceCreated == old(hasSurfaceCreated) && attribHandles == old(attribHandles)
    {
      hasListener := true;
    }

    /**
     * The `shaders` setter: store the list (recorded as an `InstallShaders` event), then
     * initialise it at once if the surface exists.
     */
    method SetShaders(value: seq<Shader>, attribLoc: (int, string) -> int)
      requires Valid()
      modifies this, gl
      ensures Valid()
      ensures shaders == if hasSurfaceCreated then Initialized(value) else value
      ensures attribHandles == if hasSurfaceCreated then InitializedHandles(old(attribHandles), value, attribLoc) else old(attribHandles)
      ensures gl.trace == old(gl.trace) + [InstallShaders(Ids(value))] + if hasSurfaceCreated then InitializationEvents(value) else []
      ensures width == old(width) && height == old(height)
      ensures hasSurfaceCreated == old(hasSurfaceCreated) && hasListener == old(hasListener)
    {
      shaders := value;
      gl.trace := gl.trace + [InstallShaders(Ids(value))];
      if hasSurfaceCreated {
        InitializeShaders(attribLoc);
      }
    }

    /** Assigning `params` of the shader at `index` in place. */
    method AssignShaderParams(index: nat, params: ParamSet)
      requires Valid() && index < |shaders|
      modifies this
      ensures Valid()
      ensures shaders == old(shaders)[index := old(shaders)[index].(params := params)]
      ensures width == old(width) && height == old(height) && attribHandles == old(attribHandles)
      ensures hasSurfaceCreated == old(hasSurfaceCreated) && hasListener == old(hasListener)
    {
      shaders := shaders[index := shaders[index].(params := params)];
    }

    /**
     * `onSurfaceChanged`: always the viewport and the cached size; both targets are
     * re-specified only when the size differs from the cached one.
     */
    method OnSurfaceChanged(w: int, h: int)
      requires Valid()
      modifies this, gl
      ensures Valid()
      ensures width == w && height == h
      ensures gl.trace == old(gl.trace)
        + SurfaceChangedEvents(old(width), old(height), w, h, frameBuffers[..], fboTextures[..])
      ensures shaders == old(shaders) && attribHandles == old(attribHandles)
      ensures hasSurfaceCreated == old(hasSurfaceCreated) && hasListener == old(hasListener)
    {
      gl.trace := gl.trace + [Viewport(w, h)];
      if w != width || h != height {
        for i := 0 to 2
          modifies gl
          invariant gl.trace == old(gl.trace) + [Viewport(w, h)]
            + Reallocation(frameBuffers[..], fboTextures[..], w, h, i)
        {
          ghost var before := gl.trace;
          ReallocateTarget(i, w, h);
          NextTarget(old(gl.trace) + [Viewport(w, h)], before, gl.trace, frameBuffers[..], fboTextures[..], w, h, i);
        }
        gl.trace := gl.trace + [BindFramebuffer(0)];
      }
      width := w;
      height := h;
    }

    /** One pass of the resize loop: re-specify texture `i` and attach it to framebuffer `i`. */
    method ReallocateTarget(i: nat, w: int, h: int)
      requires Valid() && i < 2
      modifies gl
      ensures gl.trace == old(gl.trace) + TargetEvents(frameBuffers[i], fboTextures[i], w, h)
    {
      gl.trace := gl.trace + [BindTexture(fboTextures[i]), TexImage2D(w, h)];
      gl.trace := gl.trace + [TexParameteri(MinFilterLinear), TexParameteri(MagFilterLinear)];
      gl.trace := gl.trace + [TexParameteri(WrapSClampToEdge), TexParameteri(WrapTClampToEdge)];
      gl.trace := gl.trace + [BindFramebuffer(frameBuffers[i]), FramebufferTexture2D(fboTextures[i])];
      gl.trace := gl.trace + [CheckFramebufferStatus];
    }

    /**
     * First half of `onSurfaceCreated`: generate the framebuffer and texture names, then
     * notify the listener.
     */
    method AllocateTargets(framebuffer0: int, framebuffer1: int, texture0: int, texture1: int)
      requires Valid()
      modifies gl, frameBuffers, fboTextures
      ensures Valid()
      ensures frameBuffers[..] == [framebuffer0, framebuffer1] && fboTextures[..] == [texture0, texture1]
      ensures gl.trace == old(gl.trace) + [GenFramebuffers(framebuffer0, framebuffer1), GenTextures(texture0, texture1)]
        + if hasListener then [NotifySurfaceCreated] else []
    {
      frameBuffers[0], frameBuffers[1] := framebuffer0, framebuffer1;
      gl.trace := gl.trace + [GenFramebuffers(framebuffer0, framebuffer1)];
      fboTextures[0], fboTextures[1] := texture0, texture1;
      gl.trace := gl.trace + [GenTextures(texture0, texture1)];
      if hasListener {
        gl.trace := gl.trace + [NotifySurfaceCreated];
      }
    }

    /** Second half of `onSurfaceCreated`: initialise the shaders, then mark the surface. */
    method CompleteSurfaceCreated(attribLoc: (int, string) -> int)
      requires Valid()
      modifies this, gl
      ensures Valid() && hasSurfaceCreated
      ensures shaders == Initialized(old(shaders))
      ensures attribHandles == InitializedHandles(old(attribHandles), old(shaders), attribLoc)
      ensures gl.trace == old(gl.trace) + InitializationEvents(old(shaders))
      ensures width == old(width) && height == old(height) && hasListener == old(hasListener)
    {
      InitializeShaders(attribLoc);
      hasSurfaceCreated := true;
    }

    /** `onSurfaceCreated` when the listener does nothing synchronously. */
    method OnSurfaceCreated(framebuffer0: int, framebuffer1: int, texture0: int, texture1: int,
                            attribLoc: (int, string) -> int)
      requires Valid()
      modifies this, gl, frameBuffers, fboTextures
      ensures Valid() && hasSurfaceCreated
      ensures frameBuffers[..] == [framebuffer0, framebuffer1] && fboTextures[..] == [texture0, texture1]
      ensures shaders == Initialized(old(shaders))
      ensures attribHandles == InitializedHandles(old(attribHandles), old(shaders), attribLoc)
      ensures gl.trace == old(gl.trace) + [GenFramebuffers(framebuffer0, framebuffer1), GenTextures(texture0, texture1)]
        + (if hasListener then [NotifySurfaceCreated] else []) + InitializationEvents(old(shaders))
      ensures width == old(width) && height == old(height) && hasListener == old(hasListener)
    {
      AllocateTargets(framebuffer0, framebuffer1, texture0, texture1);
      CompleteSurfaceCreated(attribLoc);
    }

    /**
     * `initializeShaders`: for a renderable list, add the built-in uniforms to every shader,
     * bind its parameters and record its attribute locations by index; otherwise nothing.
     */
    method InitializeShaders(attribLoc: (int, string) -> int)
      requires Valid()
      modifies this, gl
      ensures Valid()
      ensures shaders == Initialized(old(shaders))
      ensures attribHandles == InitializedHandles(old(attribHandles), old(shaders), attribLoc)
      ensures gl.trace == old(gl.trace) + InitializationEvents(old(shaders))
      ensures width == old(width) && height == old(height)
      ensures hasSurfaceCreated == old(hasSurfaceCreated) && hasListener == old(hasListener)
    {
      var list := shaders;
      if |list| == 0 || !CanRender(list) {
        return;
      }
      for index := 0 to |list|
        invariant |shaders| == |list|
        invariant forall i :: 0 <= i < |list| ==> shaders[i] == if i < index then AddBuiltIns(list[i], i) else list[i]
        invariant attribHandles == RecordHandles(old(attribHandles), list, attribLoc, index)
        invariant gl.trace == old(gl.trace) + InitEvents(list[..index])
        invariant width == old(width) && height == old(height)
        invariant hasSurfaceCreated == old(hasSurfaceCreated) && hasListener == old(hasListener)
      {
        InitializeStage(index, list[index], attribLoc);
        NextInitStep(old(attribHandles), list, attribLoc, index);
      }
      assert list[..|list|] == list;
      assert shaders == AllWithBuiltIns(list);
    }

    /** The body of the initialisation loop for the shader at `index`. */
    method InitializeStage(index: nat, shader: Shader, attribLoc: (int, string) -> int)
      requires Valid() && index < |shaders|
      modifies this, gl
      ensures Valid()
      ensures shaders == old(shaders)[index := AddBuiltIns(shader, index)]
      ensures attribHandles == old(attribHandles)[index := Locations(shader, attribLoc)]
      ensures gl.trace == old(gl.trace) + ShaderInitEvents(shader)
      ensures width == old(width) && height == old(height)
      ensures hasSurfaceCreated == old(hasSurfaceCreated) && hasListener == old(hasListener)
    {
      // built-in parameters
      shaders := shaders[index := AddBuiltIns(shader, index)];
      gl.trace := gl.trace + [ShaderBindParams(shader.id, false)];
      // attribute locations (input of the vertex shader)
      var inPosition := attribLoc(shader.program, InPosition);
      gl.trace := gl.trace + [GetAttribLocation(shader.program, InPosition)];
      var inTexture := attribLoc(shader.program, InTextureCoord);
      gl.trace := gl.trace + [GetAttribLocation(shader.program, InTextureCoord)];
      attribHandles := attribHandles[index := (inPosition, inTexture)];
    }

    /**
     * `onDrawFrame`: skipped when the list cannot render; otherwise each stage reads the
     * previous stage's texture, writes its ping-pong framebuffer (the surface for the last
     * stage), draws its quad and waits for GL to finish.
     */
    method OnDrawFrame()
      requires Valid()
      modifies gl
      ensures gl.trace == old(gl.trace) + Frame(shaders, Context())
    {
      var list := shaders;
      if |list| == 0 || !CanRender(list) {
        return;
      }
      ghost var context := Context();
      for index := 0 to |list|
        invariant gl.trace == old(gl.trace) + Stages(list, index, context)
      {
        ghost var before := gl.trace;
        DrawStage(list[index], index, |list|);
        NextStage(old(gl.trace), before, gl.trace, list, index, context);
      }
    }

    /** The body of the frame loop for stage `index` of `n`. */
    method DrawStage(shader: Shader, index: nat, n: nat)
      requires Valid() && index < n
      modifies gl
      ensures gl.trace == old(gl.trace) + StageEvents(shader, index, n, Context())
    {
      ghost var context := Context();
      ghost var plan := Plan(index, n, context);
      // bind input
      var input := [];
      if index > 0 {
        input := [ActiveTexture0, BindTexture(fboTextures[(index - 1) % 2])];
      }
      gl.trace := gl.trace + input;
      assert input == InputEvents(plan);
      // bind output
      var outputFbo := if index == n - 1 then 0 else frameBuffers[index % 2];
      gl.trace := gl.trace + [BindFramebuffer(outputFbo), ClearColor(0.0, 0.0, 0.0, 1.0), ClearColorAndDepth, UseProgram(shader.program)];
      ghost var afterOutput := gl.trace;
      assert afterOutput == old(gl.trace) + InputEvents(plan) + OutputEvents(plan, shader);
      // built-in attributes, flipped for every target but the surface
      var useFlipped := index != n - 1;
      var quad := if useFlipped then Flipped else Unflipped;
      if index in attribHandles {
        var handles := attribHandles[index];
        SetAttribute(handles.0, PositionSize, PositionOffset, quad);
        SetAttribute(handles.1, UvSize, UvOffset, quad);
        assert gl.trace == afterOutput + AttribEvents(handles, quad);
      }
      ghost var afterAttrib := gl.trace;
      assert afterAttrib == afterOutput + AttribStep(index, plan, context);
      // built-in uniforms, then the listener hook
      var uniforms := [ShaderParamUpdate(shader.id, MatrixMvp), ShaderParamUpdate(shader.id, MatrixStm)];
      if hasListener {
        uniforms := uniforms + [NotifyDrawFrame(index, shader.id)];
      }
      assert uniforms == UniformEvents(shader, index, context);
      gl.trace := gl.trace + uniforms;
      // upload parameters, blend, draw, wait
      gl.trace := gl.trace + [ShaderDraw(shader.id), BlendFuncSrcAlpha, EnableBlend, DrawArrays(TriangleStrip, 0, VertexCount), Finish];
      StageAssoc(old(gl.trace), InputEvents(plan), OutputEvents(plan, shader), AttribStep(index, plan, context),
                 UniformEvents(shader, index, context), DrawEvents(shader), gl.trace);
    }

    /** `setAttribute`: point one attribute into the chosen quad table and enable it. */
    method SetAttribute(location: int, size: int, offset: int, quad: Quad)
      modifies gl
      ensures gl.trace == old(gl.trace) + [VertexAttribPointer(location, size, StrideBytes, quad, offset), EnableVertexAttribArray(location)]
    {
      gl.trace := gl.trace + [VertexAttribPointer(location, size, StrideBytes, quad, offset)];
      gl.trace := gl.trace + [EnableVertexAttribArray(location)];
    }

    /**
     * `release`: delete both targets, zero their handles, release every shader (the list
     * itself is kept) and reset the cached size so that the next resize reallocates.
     */
    method Release()
      requires Valid()
      modifies this, gl, frameBuffers, fboTextures
      ensures Valid()
      ensures frameBuffers[..] == [0, 0] && fboTextures[..] == [0, 0]
      ensures width == -1 && height == -1
      ensures gl.trace == old(gl.trace) + DeleteTargetEvents(old(frameBuffers[..]), old(fboTextures[..]))
        + ReleaseEvents(shaders)
      ensures shaders == old(shaders) && attribHandles == old(attribHandles)
      ensures hasSurfaceCreated == old(hasSurfaceCreated) && hasListener == old(hasListener)
    {
      gl.trace := gl.trace + [DeleteTextures(fboTextures[0], fboTextures[1])];
      gl.trace := gl.trace + [DeleteFramebuffers(frameBuffers[0], frameBuffers[1])];
      for i := 0 to 2
        modifies frameBuffers, fboTextures
        invariant forall k :: 0 <= k < i ==> fboTextures[k] == 0 && frameBuffers[k] == 0
      {
        fboTextures[i] := 0;
        frameBuffers[i] := 0;
      }
      ReleaseAll(gl, shaders);
      width := -1;
      height := -1;
    }
  }
}
