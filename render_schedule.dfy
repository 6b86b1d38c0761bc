/**
 * What the multi-pass renderer emits, as pure functions of its state: the events of a
 * surface resize, of the shader initialisation, of one frame and of a release, and the
 * properties of those schedules.
 */
module RenderSchedule {
  import opened Optional
  import opened Gl
  import opened Params
  import opened Shaders
  import opened QuadGeometry

  // ---------------------------------------------------------------- surface resize

  /** Cached size and new size differ: the off-screen textures must be re-specified. */
  predicate NeedsReallocation(cachedWidth: int, cachedHeight: int, width: int, height: int) {
    width != cachedWidth || height != cachedHeight
  }

  /** Re-specifying target `k`: its texture at the new size, attached to its framebuffer. */
  function TargetEvents(framebuffer: int, texture: int, width: int, height: int): seq<Event> {
    [ BindTexture(texture), TexImage2D(width, height),
      TexParameteri(MinFilterLinear), TexParameteri(MagFilterLinear),
      TexParameteri(WrapSClampToEdge), TexParameteri(WrapTClampToEdge),
      BindFramebuffer(framebuffer), FramebufferTexture2D(texture), CheckFramebufferStatus ]
  }

  /** The first `k` targets re-specified, in index order. */
  function Reallocation(frameBuffers: seq<int>, textures: seq<int>, width: int, height: int, k: nat): seq<Event>
    requires k <= |frameBuffers| == |textures|
  {
    if k == 0 then []
    else Reallocation(frameBuffers, textures, width, height, k - 1)
         + TargetEvents(frameBuffers[k - 1], textures[k - 1], width, height)
  }

  /** One more pass of the resize loop. */
  lemma NextTarget(start: seq<Event>, before: seq<Event>, after: seq<Event>, frameBuffers: seq<int>, textures: seq<int>,
                   width: int, height: int, k: nat)
    requires k < |frameBuffers| == |textures|
    requires before == start + Reallocation(frameBuffers, textures, width, height, k)
    requires after == before + TargetEvents(frameBuffers[k], textures[k], width, height)
    ensures after == start + Reallocation(frameBuffers, textures, width, height, k + 1)
  {
  }

  /** All events of `onSurfaceChanged(width, height)` given the cached size. */
  function SurfaceChangedEvents(cachedWidth: int, cachedHeight: int, width: int, height: int,
                                frameBuffers: seq<int>, textures: seq<int>): seq<Event>
    requires |frameBuffers| == |textures| == 2
  {
    [Viewport(width, height)]
    + if NeedsReallocation(cachedWidth, cachedHeight, width, height)
      then Reallocation(frameBuffers, textures, width, height, 2) + [BindFramebuffer(0)]
      else []
  }

  predicate IsTexImage(e: Event) { e.TexImage2D? }
  predicate IsDraw(e: Event) { e.DrawArrays? }
  predicate IsAttribPointer(e: Event) { e.VertexAttribPointer? }

  /** Number of events of a trace satisfying `p`. */
  function Count(t: seq<Event>, p: Event -> bool): nat {
    if t == [] then 0 else Count(t[..|t| - 1], p) + (if p(t[|t| - 1]) then 1 else 0)
  }

  lemma {:induction false} CountAppend(a: seq<Event>, b: seq<Event>, p: Event -> bool)
    ensures Count(a + b, p) == Count(a, p) + Count(b, p)
  {
    if b != [] {
      assert (a + b)[..|a + b| - 1] == a + b[..|b| - 1];
      CountAppend(a, b[..|b| - 1], p);
    } else {
      assert a + b == a;
    }
  }

  /** Storage re-specification of `k` targets issues exactly `k` glTexImage2D calls. */
  lemma {:induction false} ReallocationTexImages(frameBuffers: seq<int>, textures: seq<int>, width: int, height: int, k: nat)
    requires k <= |frameBuffers| == |textures|
    ensures Count(Reallocation(frameBuffers, textures, width, height, k), IsTexImage) == k
    ensures forall e :: e in Reallocation(frameBuffers, textures, width, height, k) && e.TexImage2D? ==>
      e == TexImage2D(width, height)
  {
    if k > 0 {
      var f, x := frameBuffers[k - 1], textures[k - 1];
      ReallocationTexImages(frameBuffers, textures, width, height, k - 1);
      CountAppend(Reallocation(frameBuffers, textures, width, height, k - 1), TargetEvents(f, x, width, height), IsTexImage);
      TargetTexImage(f, x, width, height);
    }
  }

  /** One target's re-specification issues one glTexImage2D call, at the new size. */
  lemma TargetTexImage(framebuffer: int, texture: int, width: int, height: int)
    ensures Count(TargetEvents(framebuffer, texture, width, height), IsTexImage) == 1
    ensures forall e :: e in TargetEvents(framebuffer, texture, width, height) && e.TexImage2D? ==> e == TexImage2D(width, height)
  {
    var t := TargetEvents(framebuffer, texture, width, height);
    assert t == [BindTexture(texture)] + [TexImage2D(width, height)] + t[2..];
    CountSingle(BindTexture(texture), IsTexImage);
    CountSingle(TexImage2D(width, height), IsTexImage);
    CountNone(t[2..], IsTexImage);
    CountAppend([BindTexture(texture)], [TexImage2D(width, height)], IsTexImage);
    CountAppend([BindTexture(texture)] + [TexImage2D(width, height)], t[2..], IsTexImage);
  }

  lemma CountSingle(x: Event, p: Event -> bool)
    ensures Count([x], p) == if p(x) then 1 else 0
  {
    assert [x][..0] == [];
  }

  lemma {:induction false} CountNone(t: seq<Event>, p: Event -> bool)
    requires forall x :: x in t ==> !p(x)
    ensures Count(t, p) == 0
  {
    if t != [] {
      CountNone(t[..|t| - 1], p);
    }
  }

  /**
   * Resizing reallocates exactly when the size differs from the cached one: it then
   * re-specifies both textures at the new size, and otherwise only sets the viewport.
   * In both cases the viewport comes first; after a reallocation framebuffer 0 is bound last.
   */
  lemma ResizeReallocatesIffSizeChanged(cachedWidth: int, cachedHeight: int, width: int, height: int,
                                        frameBuffers: seq<int>, textures: seq<int>)
    requires |frameBuffers| == |textures| == 2
    ensures var t := SurfaceChangedEvents(cachedWidth, cachedHeight, width, height, frameBuffers, textures);
      && t[0] == Viewport(width, height)
      && (Count(t, IsTexImage) == 2 <==> NeedsReallocation(cachedWidth, cachedHeight, width, height))
      && (Count(t, IsTexImage) == 0 <==> !NeedsReallocation(cachedWidth, cachedHeight, width, height))
      && (NeedsReallocation(cachedWidth, cachedHeight, width, height) ==> t[|t| - 1] == BindFramebuffer(0))
      && (!NeedsReallocation(cachedWidth, cachedHeight, width, height) ==> t == [Viewport(width, height)])
  {
    var r := Reallocation(frameBuffers, textures, width, height, 2);
    ReallocationTexImages(frameBuffers, textures, width, height, 2);
    CountAppend([Viewport(width, height)], r + [BindFramebuffer(0)], IsTexImage);
    CountAppend(r, [BindFramebuffer(0)], IsTexImage);
    assert Count([Viewport(width, height)], IsTexImage) == 0 by {
      assert [Viewport(width, height)][..0] == [];
    }
    assert Count([BindFramebuffer(0)], IsTexImage) == 0 by {
      assert [BindFramebuffer(0)][..0] == [];
    }
    assert [Viewport(width, height)] + [] == [Viewport(width, height)];
    assert Count([Viewport(width, height)] + [], IsTexImage) == 0;
  }

  /** A repeated resize to the cached size reallocates nothing. */
  lemma ResizeIdempotent(width: int, height: int, frameBuffers: seq<int>, textures: seq<int>)
    requires |frameBuffers| == |textures| == 2
    ensures SurfaceChangedEvents(width, height, width, height, frameBuffers, textures) == [Viewport(width, height)]
  {
  }

  /**
   * The colour attachment of framebuffer `k` is texture `k`: during a reallocation the
   * bind of `frameBuffers[k]` is immediately followed by attaching `textures[k]`, after
   * that texture was re-specified at the new size.
   */
  lemma ResizeAttachesTextureToItsFramebuffer(frameBuffers: seq<int>, textures: seq<int>, width: int, height: int, k: nat)
    requires |frameBuffers| == |textures| == 2 && k < 2
    ensures var t := Reallocation(frameBuffers, textures, width, height, 2);
      && |t| == 18
      && t[9 * k] == BindTexture(textures[k]) && t[9 * k + 1] == TexImage2D(width, height)
      && t[9 * k + 6] == BindFramebuffer(frameBuffers[k])
      && t[9 * k + 7] == FramebufferTexture2D(textures[k])
  {
    var first, second := TargetEvents(frameBuffers[0], textures[0], width, height), TargetEvents(frameBuffers[1], textures[1], width, height);
    assert Reallocation(frameBuffers, textures, width, height, 1) == first;
    var t := Reallocation(frameBuffers, textures, width, height, 2);
    assert t == first + second;
    if k == 0 {
      assert t[..9] == first;
    } else {
      assert t[9..] == second;
    }
  }

  // ---------------------------------------------------------------- shader initialisation

  /** The built-in uniforms a shader at position `index` receives. */
  function AddBuiltIns(s: Shader, index: nat): Shader {
    s.(params := s.params[MatrixMvp := Mat4f][MatrixStm := Mat4f]
                 + (if index > 0 then map[InputTexture := Texture2D] else map[]))
  }

  function AllWithBuiltIns(shaders: seq<Shader>): seq<Shader> {
    seq(|shaders|, i requires 0 <= i < |shaders| => AddBuiltIns(shaders[i], i))
  }

  /** `initializeShaders` on a list: built-ins added only when the whole list is renderable. */
  function Initialized(shaders: seq<Shader>): seq<Shader> {
    if CanRender(shaders) then AllWithBuiltIns(shaders) else shaders
  }

  /** What `initializeShaders` asks of one shader and of GL, in order. */
  function ShaderInitEvents(s: Shader): seq<Event> {
    [ShaderBindParams(s.id, false), GetAttribLocation(s.program, InPosition), GetAttribLocation(s.program, InTextureCoord)]
  }

  function InitEvents(shaders: seq<Shader>): seq<Event> {
    if shaders == [] then []
    else InitEvents(shaders[..|shaders| - 1]) + ShaderInitEvents(shaders[|shaders| - 1])
  }

  /** One more step of the initialisation loop: one more handle entry and one more shader's events. */
  lemma NextInitStep(handles: map<int, (int, int)>, shaders: seq<Shader>, attribLoc: (int, string) -> int, k: nat)
    requires k < |shaders|
    ensures RecordHandles(handles, shaders, attribLoc, k + 1)
         == RecordHandles(handles, shaders, attribLoc, k)[k := Locations(shaders[k], attribLoc)]
    ensures InitEvents(shaders[..k + 1]) == InitEvents(shaders[..k]) + ShaderInitEvents(shaders[k])
  {
    assert shaders[..k + 1][..k] == shaders[..k];
  }

  function InitializationEvents(shaders: seq<Shader>): seq<Event> {
    if CanRender(shaders) then InitEvents(shaders) else []
  }

  /** The attribute locations GL reports for a shader's program. */
  function Locations(s: Shader, attribLoc: (int, string) -> int): (int, int) {
    (attribLoc(s.program, InPosition), attribLoc(s.program, InTextureCoord))
  }

  /** The first `k` shaders' locations recorded by index over an existing map. */
  function RecordHandles(handles: map<int, (int, int)>, shaders: seq<Shader>, attribLoc: (int, string) -> int, k: nat): map<int, (int, int)>
    requires k <= |shaders|
  {
    handles + map i | 0 <= i < k :: Locations(shaders[i], attribLoc)
  }

  function InitializedHandles(handles: map<int, (int, int)>, shaders: seq<Shader>, attribLoc: (int, string) -> int): map<int, (int, int)> {
    if CanRender(shaders) then RecordHandles(handles, shaders, attribLoc, |shaders|) else handles
  }

  /**
   * After initialisation of a renderable list every shader binds the MVP and STM matrices,
   * only shaders after the first gain the input-texture sampler, every other parameter is
   * kept, and the shader's identity, source, program and readiness are untouched. A list
   * that cannot render is left exactly as it was.
   */
  lemma BuiltInsPerStage(shaders: seq<Shader>)
    ensures var r := Initialized(shaders);
      && |r| == |shaders|
      && (!CanRender(shaders) ==> r == shaders)
      && forall i :: 0 <= i < |r| ==>
        && r[i] == shaders[i].(params := r[i].params)
        && (CanRender(shaders) ==>
          && r[i].params.Keys == shaders[i].params.Keys + {MatrixMvp, MatrixStm} + (if i > 0 then {InputTexture} else {})
          && r[i].params[MatrixMvp] == Mat4f && r[i].params[MatrixStm] == Mat4f
          && (i > 0 ==> r[i].params[InputTexture] == Texture2D)
          && (i == 0 ==> (InputTexture in r[i].params <==> InputTexture in shaders[i].params))
          && forall name :: name in shaders[i].params && name !in {MatrixMvp, MatrixStm, InputTexture} ==>
               r[i].params[name] == shaders[i].params[name])
  {
  }

  /** Initialisation keeps every shader's identity. */
  lemma InitializedKeepsIds(shaders: seq<Shader>)
    ensures |Initialized(shaders)| == |shaders|
    ensures forall i :: 0 <= i < |shaders| ==> Initialized(shaders)[i].id == shaders[i].id
    ensures Ids(Initialized(shaders)) == Ids(shaders)
  {
  }

  /** Initialising a renderable list records an attribute-handle entry for every index. */
  lemma HandlesRecordedForEveryIndex(handles: map<int, (int, int)>, shaders: seq<Shader>, attribLoc: (int, string) -> int)
    ensures var h := InitializedHandles(handles, shaders, attribLoc);
      && (CanRender(shaders) ==> forall i :: 0 <= i < |shaders| ==> i in h && h[i] == Locations(shaders[i], attribLoc))
      && (!CanRender(shaders) ==> h == handles)
      && handles.Keys <= h.Keys
  {
  }

  /** Per shader, in list order: bind params, then look up the position and UV attributes. */
  lemma {:induction false} InitEventsShape(shaders: seq<Shader>)
    ensures |InitEvents(shaders)| == 3 * |shaders|
    ensures forall i :: 0 <= i < |shaders| ==>
      && InitEvents(shaders)[3 * i] == ShaderBindParams(shaders[i].id, false)
      && InitEvents(shaders)[3 * i + 1] == GetAttribLocation(shaders[i].program, InPosition)
      && InitEvents(shaders)[3 * i + 2] == GetAttribLocation(shaders[i].program, InTextureCoord)
  {
    if shaders != [] {
      var front, last := shaders[..|shaders| - 1], shaders[|shaders| - 1];
      InitEventsShape(front);
      var t, f := InitEvents(shaders), InitEvents(front);
      assert t == f + ShaderInitEvents(last);
      forall i | 0 <= i < |shaders|
        ensures t[3 * i] == ShaderBindParams(shaders[i].id, false)
        ensures t[3 * i + 1] == GetAttribLocation(shaders[i].program, InPosition)
        ensures t[3 * i + 2] == GetAttribLocation(shaders[i].program, InTextureCoord)
      {
        if i < |front| {
          assert front[i] == shaders[i];
          assert t[3 * i] == f[3 * i] && t[3 * i + 1] == f[3 * i + 1] && t[3 * i + 2] == f[3 * i + 2];
        } else {
          assert 3 * i == |f|;
        }
      }
    }
  }

  /** Initialising a list never releases a shader. */
  lemma {:induction false} InitializationReleasesNothing(shaders: seq<Shader>)
    ensures forall q :: 0 <= q < |InitializationEvents(shaders)| ==> !InitializationEvents(shaders)[q].ShaderRelease?
  {
    InitEventsShape(shaders);
    var t := InitEvents(shaders);
    forall q | 0 <= q < |t|
      ensures !t[q].ShaderRelease?
    {
      var i := q / 3;
      assert 0 <= i < |shaders|;
      assert t[3 * i] == ShaderBindParams(shaders[i].id, false);
      assert q == 3 * i || q == 3 * i + 1 || q == 3 * i + 2;
    }
  }

  // ---------------------------------------------------------------- one frame

  /** What the renderer needs besides the shader list to draw a frame. */
  datatype FrameContext = FrameContext(
    frameBuffers: seq<int>,
    textures: seq<int>,
    handles: map<int, (int, int)>,
    notify: bool)

  predicate WellFormed(c: FrameContext) {
    |c.frameBuffers| == 2 && |c.textures| == 2
  }

  /** Where stage `i` of `n` reads, where it writes, and which quad it draws. */
  datatype StagePlan = StagePlan(input: Option<int>, output: int, quad: Quad)

  function Plan(i: nat, n: nat, c: FrameContext): StagePlan
    requires i < n && WellFormed(c)
  {
    StagePlan(
      if i > 0 then Some(c.textures[(i - 1) % 2]) else None,
      if i == n - 1 then 0 else c.frameBuffers[i % 2],
      if i != n - 1 then Flipped else Unflipped)
  }

  /** Binding the previous stage's output texture on unit 0, for every stage but the first. */
  function InputEvents(p: StagePlan): seq<Event> {
    if p.input.Some? then [ActiveTexture0, BindTexture(p.input.value)] else []
  }

  /** Binding and clearing the output target, then activating the stage's program. */
  function OutputEvents(p: StagePlan, s: Shader): seq<Event> {
    [BindFramebuffer(p.output), ClearColor(0.0, 0.0, 0.0, 1.0), ClearColorAndDepth, UseProgram(s.program)]
  }

  /** `setAttribute` for both built-in attributes from one quad table. */
  function AttribEvents(handles: (int, int), quad: Quad): seq<Event> {
    [ VertexAttribPointer(handles.0, PositionSize, StrideBytes, quad, PositionOffset),
      EnableVertexAttribArray(handles.0),
      VertexAttribPointer(handles.1, UvSize, StrideBytes, quad, UvOffset),
      EnableVertexAttribArray(handles.1) ]
  }

  /** The attribute binding of stage `i`, skipped when no handles were recorded for it. */
  function AttribStep(i: nat, p: StagePlan, c: FrameContext): seq<Event> {
    if i in c.handles then AttribEvents(c.handles[i], p.quad) else []
  }

  /** Built-in matrix updates, then the per-stage listener hook. */
  function UniformEvents(s: Shader, i: nat, c: FrameContext): seq<Event> {
    [ShaderParamUpdate(s.id, MatrixMvp), ShaderParamUpdate(s.id, MatrixStm)]
    + (if c.notify then [NotifyDrawFrame(i, s.id)] else [])
  }

  /** Parameter upload, blending, the quad draw and the finish that ends a stage. */
  function DrawEvents(s: Shader): seq<Event> {
    [ShaderDraw(s.id), BlendFuncSrcAlpha, EnableBlend, DrawArrays(TriangleStrip, 0, VertexCount), Finish]
  }

  /** Every event of stage `i` of `n`, in order. */
  function StageEvents(s: Shader, i: nat, n: nat, c: FrameContext): seq<Event>
    requires i < n && WellFormed(c)
  {
    var p := Plan(i, n, c);
    InputEvents(p) + OutputEvents(p, s) + AttribStep(i, p, c) + UniformEvents(s, i, c) + DrawEvents(s)
  }

  /** Regrouping the five segments of a stage appended one after another to a trace. */
  lemma StageAssoc(before: seq<Event>, a: seq<Event>, b: seq<Event>, d: seq<Event>, e: seq<Event>, g: seq<Event>, t: seq<Event>)
    requires t == before + a + b + d + e + g
    ensures t == before + (a + b + d + e + g)
  {
  }

  /** The first `k` stages of a frame. */
  function Stages(shaders: seq<Shader>, k: nat, c: FrameContext): seq<Event>
    requires k <= |shaders| && WellFormed(c)
  {
    if k == 0 then [] else Stages(shaders, k - 1, c) + StageEvents(shaders[k - 1], k - 1, |shaders|, c)
  }

  /** Appending the events of stage `k` to the first `k` stages gives the first `k + 1`. */
  lemma NextStage(start: seq<Event>, before: seq<Event>, after: seq<Event>, shaders: seq<Shader>, k: nat, c: FrameContext)
    requires k < |shaders| && WellFormed(c)
    requires before == start + Stages(shaders, k, c)
    requires after == before + StageEvents(shaders[k], k, |shaders|, c)
    ensures after == start + Stages(shaders, k + 1, c)
  {
  }

  /** `onDrawFrame`: nothing unless the list can render, otherwise every stage in order. */
  function Frame(shaders: seq<Shader>, c: FrameContext): seq<Event>
    requires WellFormed(c)
  {
    if CanRender(shaders) then Stages(shaders, |shaders|, c) else []
  }

  /** The programs activated by a trace, in order. */
  function Programs(t: seq<Event>): seq<int> {
    if t == [] then []
    else Programs(t[..|t| - 1]) + (if t[|t| - 1].UseProgram? then [t[|t| - 1].program] else [])
  }

  lemma {:induction false} ProgramsAppend(a: seq<Event>, b: seq<Event>)
    ensures Programs(a + b) == Programs(a) + Programs(b)
  {
    if b != [] {
      assert (a + b)[..|a + b| - 1] == a + b[..|b| - 1];
      ProgramsAppend(a, b[..|b| - 1]);
    } else {
      assert a + b == a;
    }
  }

  /** Every draw is immediately followed by a finish. */
  predicate DrawsFinished(t: seq<Event>) {
    forall j :: 0 <= j < |t| && t[j].DrawArrays? ==> j + 1 < |t| && t[j + 1] == Finish
  }

  /** Counts and programs of two segments add up; finished draws stay finished. */
  lemma Concat(a: seq<Event>, b: seq<Event>)
    ensures Count(a + b, IsDraw) == Count(a, IsDraw) + Count(b, IsDraw)
    ensures Count(a + b, IsAttribPointer) == Count(a, IsAttribPointer) + Count(b, IsAttribPointer)
    ensures Programs(a + b) == Programs(a) + Programs(b)
    ensures DrawsFinished(a) && DrawsFinished(b) ==> DrawsFinished(a + b)
  {
    CountAppend(a, b, IsDraw);
    CountAppend(a, b, IsAttribPointer);
    ProgramsAppend(a, b);
    if DrawsFinished(a) && DrawsFinished(b) {
      ConcatFinished(a, b);
    }
  }

  lemma ConcatFinished(a: seq<Event>, b: seq<Event>)
    requires DrawsFinished(a) && DrawsFinished(b)
    ensures DrawsFinished(a + b)
  {
    forall j | 0 <= j < |a + b| && (a + b)[j].DrawArrays?
      ensures j + 1 < |a + b| && (a + b)[j + 1] == Finish
    {
      if j < |a| {
        assert a[j].DrawArrays?;
      } else {
        assert b[j - |a|].DrawArrays?;
      }
    }
  }

  /** The facts about a segment that compose along a frame. */
  predicate Shape(t: seq<Event>, draws: nat, pointers: nat, programs: seq<int>) {
    Count(t, IsDraw) == draws && Count(t, IsAttribPointer) == pointers && Programs(t) == programs && DrawsFinished(t)
  }

  lemma ShapeConcat(a: seq<Event>, b: seq<Event>, d1: nat, p1: nat, r1: seq<int>, d2: nat, p2: nat, r2: seq<int>)
    requires Shape(a, d1, p1, r1) && Shape(b, d2, p2, r2)
    ensures Shape(a + b, d1 + d2, p1 + p2, r1 + r2)
  {
    Concat(a, b);
  }

  /** A segment with no draw, no program switch and no attribute pointer. */
  predicate Quiet(t: seq<Event>) {
    forall x :: x in t ==> !x.DrawArrays? && !x.UseProgram? && !x.VertexAttribPointer?
  }

  lemma {:induction false} QuietFacts(t: seq<Event>)
    requires Quiet(t)
    ensures Count(t, IsDraw) == 0 && Count(t, IsAttribPointer) == 0 && Programs(t) == [] && DrawsFinished(t)
  {
    if t != [] {
      QuietFacts(t[..|t| - 1]);
    }
  }

  lemma OutputShape(p: StagePlan, s: Shader)
    ensures var t := OutputEvents(p, s);
      Count(t, IsDraw) == 0 && Count(t, IsAttribPointer) == 0 && Programs(t) == [s.program] && DrawsFinished(t)
  {
    var t := OutputEvents(p, s);
    assert t == t[..3] + [UseProgram(s.program)];
    QuietFacts(t[..3]);
    QuietFacts([]);
    assert [UseProgram(s.program)] == [] + [UseProgram(s.program)];
    Concat(t[..3], [UseProgram(s.program)]);
  }

  lemma AttribShape(i: nat, p: StagePlan, c: FrameContext)
    ensures var t := AttribStep(i, p, c);
      && Count(t, IsDraw) == 0 && Programs(t) == [] && DrawsFinished(t)
      && Count(t, IsAttribPointer) == if i in c.handles then 2 else 0
  {
    if i in c.handles {
      var t := AttribEvents(c.handles[i], p.quad);
      assert t == [t[0], t[1]] + [t[2], t[3]];
      PointerPair(t[0], t[1]);
      PointerPair(t[2], t[3]);
      ShapeConcat([t[0], t[1]], [t[2], t[3]], 0, 1, [], 0, 1, []);
      var none: seq<int> := [];
      assert none + none == none;
    } else {
      QuietFacts([]);
    }
  }

  /** One attribute pointer followed by a quiet event. */
  lemma PointerPair(v: Event, e: Event)
    requires v.VertexAttribPointer? && Quiet([e])
    ensures Shape([v, e], 0, 1, [])
  {
    QuietFacts([]);
    QuietFacts([e]);
    assert [v] == [] + [v];
    Concat([], [v]);
    assert [v, e] == [v] + [e];
    Concat([v], [e]);
  }

  lemma DrawShape(s: Shader)
    ensures var t := DrawEvents(s);
      Count(t, IsDraw) == 1 && Count(t, IsAttribPointer) == 0 && Programs(t) == [] && DrawsFinished(t)
  {
    var t := DrawEvents(s);
    assert t == t[..3] + [t[3]] + [Finish];
    QuietFacts(t[..3]);
    QuietFacts([]);
    QuietFacts([Finish]);
    assert [t[3]] == [] + [t[3]];
    Concat([], [t[3]]);
    Concat(t[..3], [t[3]]);
    Concat(t[..3] + [t[3]], [Finish]);
  }

  /**
   * One stage activates exactly its shader's program, issues exactly one full-quad
   * triangle-strip draw, immediately followed by the finish that ends the stage, and binds
   * the two attributes exactly when handles were recorded for its index.
   */
  lemma StageShape(s: Shader, i: nat, n: nat, c: FrameContext)
    requires i < n && WellFormed(c)
    ensures var t := StageEvents(s, i, n, c);
      && Count(t, IsDraw) == 1
      && Count(t, IsAttribPointer) == (if i in c.handles then 2 else 0)
      && Programs(t) == [s.program]
      && DrawsFinished(t)
      && |t| >= 2 && t[|t| - 2] == DrawArrays(TriangleStrip, 0, 4) && t[|t| - 1] == Finish
  {
    var p := Plan(i, n, c);
    StagePieces(s, i, p, c);
    FiveShape(InputEvents(p), OutputEvents(p, s), AttribStep(i, p, c), UniformEvents(s, i, c), DrawEvents(s),
              if i in c.handles then 2 else 0, s.program);
  }

  /** Each of the five segments of a stage has its own shape. */
  lemma StagePieces(s: Shader, i: nat, p: StagePlan, c: FrameContext)
    ensures Shape(InputEvents(p), 0, 0, [])
    ensures Shape(OutputEvents(p, s), 0, 0, [s.program])
    ensures Shape(AttribStep(i, p, c), 0, if i in c.handles then 2 else 0, [])
    ensures Shape(UniformEvents(s, i, c), 0, 0, [])
    ensures Shape(DrawEvents(s), 1, 0, [])
  {
    QuietFacts(InputEvents(p));
    OutputShape(p, s);
    AttribShape(i, p, c);
    QuietFacts(UniformEvents(s, i, c));
    DrawShape(s);
  }

  /** Five segments shaped like a stage's compose into one stage. */
  lemma FiveShape(a: seq<Event>, b: seq<Event>, d: seq<Event>, e: seq<Event>, g: seq<Event>, pointers: nat, program: int)
    requires Shape(a, 0, 0, []) && Shape(b, 0, 0, [program]) && Shape(d, 0, pointers, [])
    requires Shape(e, 0, 0, []) && Shape(g, 1, 0, [])
    requires |g| >= 2 && g[|g| - 2] == DrawArrays(TriangleStrip, 0, 4) && g[|g| - 1] == Finish
    ensures var t := a + b + d + e + g;
      && Shape(t, 1, pointers, [program])
      && |t| >= 2 && t[|t| - 2] == DrawArrays(TriangleStrip, 0, 4) && t[|t| - 1] == Finish
  {
    ShapeConcat(a, b, 0, 0, [], 0, 0, [program]);
    ShapeConcat(a + b, d, 0, 0, [program], 0, pointers, []);
    ShapeConcat(a + b + d, e, 0, pointers, [program], 0, 0, []);
    ShapeConcat(a + b + d + e, g, 0, pointers, [program], 1, 0, []);
    assert [program] + [] == [program];
  }

  /** The first `k` stages: `k` draws, draws finished, and (if any) a finish last. */
  lemma {:induction false} StagesShape(shaders: seq<Shader>, k: nat, c: FrameContext)
    requires k <= |shaders| && WellFormed(c)
    ensures var t := Stages(shaders, k, c);
      && Count(t, IsDraw) == k
      && DrawsFinished(t)
      && (k > 0 ==> |t| > 0 && t[|t| - 1] == Finish)
  {
    if k == 0 {
      QuietFacts([]);
    } else {
      var front, last := Stages(shaders, k - 1, c), StageEvents(shaders[k - 1], k - 1, |shaders|, c);
      StagesShape(shaders, k - 1, c);
      StageDraws(shaders[k - 1], k - 1, |shaders|, c);
      var t := front + last;
      assert Stages(shaders, k, c) == t;
      CountAppend(front, last, IsDraw);
      ConcatFinished(front, last);
      assert t[|t| - 1] == last[|last| - 1];
    }
  }

  /** A stage issues one draw, finishes it, and ends with that finish. */
  lemma StageDraws(s: Shader, i: nat, n: nat, c: FrameContext)
    requires i < n && WellFormed(c)
    ensures var t := StageEvents(s, i, n, c);
      Count(t, IsDraw) == 1 && DrawsFinished(t) && |t| > 0 && t[|t| - 1] == Finish
  {
    StageShape(s, i, n, c);
  }

  function ProgramsOf(shaders: seq<Shader>, k: nat): seq<int>
    requires k <= |shaders|
  {
    seq(k, i requires 0 <= i < k => shaders[i].program)
  }

  lemma ProgramsPrefix(shaders: seq<Shader>, k: nat)
    requires 0 < k <= |shaders|
    ensures ProgramsOf(shaders, k) == ProgramsOf(shaders, k - 1) + [shaders[k - 1].program]
  {
  }

  /** The first `k` stages activate the first `k` programs, in list order. */
  lemma {:induction false} StagesPrograms(shaders: seq<Shader>, k: nat, c: FrameContext)
    requires k <= |shaders| && WellFormed(c)
    ensures Programs(Stages(shaders, k, c)) == ProgramsOf(shaders, k)
  {
    if k == 0 {
      QuietFacts([]);
    } else {
      var front, last := Stages(shaders, k - 1, c), StageEvents(shaders[k - 1], k - 1, |shaders|, c);
      StagesPrograms(shaders, k - 1, c);
      StageShape(shaders[k - 1], k - 1, |shaders|, c);
      ProgramsAppend(front, last);
      ProgramsPrefix(shaders, k);
    }
  }

  /**
   * The all-or-nothing guard: a frame emits no event at all exactly when the list is empty
   * or some shader is not ready.
   */
  lemma FrameEmptyIffNotRenderable(shaders: seq<Shader>, c: FrameContext)
    requires WellFormed(c)
    ensures Frame(shaders, c) == [] <==> !CanRender(shaders)
  {
    if CanRender(shaders) {
      StagesShape(shaders, |shaders|, c);
    }
  }

  /**
   * For a renderable list of N shaders a frame issues exactly N draws of four
   * triangle-strip vertices, activates the N programs in list order, follows every draw
   * immediately by a finish and ends with one.
   */
  lemma FrameDrawsEveryStageInOrder(shaders: seq<Shader>, c: FrameContext)
    requires WellFormed(c) && CanRender(shaders)
    ensures var t := Frame(shaders, c);
      && Count(t, IsDraw) == |shaders|
      && Programs(t) == ProgramsOf(shaders, |shaders|)
      && DrawsFinished(t)
      && t[|t| - 1] == Finish
      && forall e :: e in t && e.DrawArrays? ==> e == DrawArrays(TriangleStrip, 0, 4)
  {
    StagesShape(shaders, |shaders|, c);
    StagesPrograms(shaders, |shaders|, c);
    DrawsAreFullQuads(shaders, |shaders|, c);
  }

  lemma {:induction false} DrawsAreFullQuads(shaders: seq<Shader>, k: nat, c: FrameContext)
    requires k <= |shaders| && WellFormed(c)
    ensures forall e :: e in Stages(shaders, k, c) && e.DrawArrays? ==> e == DrawArrays(TriangleStrip, 0, 4)
  {
    if k > 0 {
      DrawsAreFullQuads(shaders, k - 1, c);
      var s, p := shaders[k - 1], Plan(k - 1, |shaders|, c);
      assert StageEvents(s, k - 1, |shaders|, c)
          == InputEvents(p) + OutputEvents(p, s) + AttribStep(k - 1, p, c) + UniformEvents(s, k - 1, c) + DrawEvents(s);
    }
  }

  /**
   * Ping-pong: stage i+1 reads texture (i mod 2), which is the target stage i wrote through
   * framebuffer (i mod 2) when stage i is not the last; the index alternates 0, 1, 0, ...,
   * and the first stage reads nothing.
   */
  lemma PingPong(i: nat, n: nat, c: FrameContext)
    requires i + 1 < n && WellFormed(c)
    ensures Plan(0, n, c).input == None
    ensures Plan(i + 1, n, c).input == Some(c.textures[i % 2])
    ensures Plan(i, n, c).output == c.frameBuffers[i % 2]
    ensures i + 2 < n ==> Plan(i + 2, n, c).input == Some(c.textures[1 - i % 2])
    ensures i + 2 < n ==> Plan(i + 1, n, c).output == c.frameBuffers[1 - i % 2]
  {
  }

  /**
   * The last stage writes to the visible surface (framebuffer 0) and it is the only one that
   * draws the unflipped quad; every earlier stage writes one of the two off-screen
   * framebuffers through the flipped quad. Once both framebuffer names are generated (neither
   * is 0), only the last stage writes to the surface; before `onSurfaceCreated` and after
   * `release` both names are 0, and every stage binds framebuffer 0.
   */
  lemma LastStageTargetsSurface(i: nat, n: nat, c: FrameContext)
    requires i < n && WellFormed(c)
    ensures Plan(n - 1, n, c).output == 0
    ensures Plan(i, n, c).quad == Unflipped <==> i == n - 1
    ensures i < n - 1 ==> Plan(i, n, c).quad == Flipped && Plan(i, n, c).output in c.frameBuffers
    ensures i < n - 1 && 0 !in c.frameBuffers ==> Plan(i, n, c).output != 0
  {
  }

  /**
   * Attribute binding follows the recorded handles: with an entry for every index a frame
   * sets 2N attribute pointers, with none it sets none.
   */
  lemma {:induction false} AttribPointersFollowHandles(shaders: seq<Shader>, k: nat, c: FrameContext)
    requires k <= |shaders| && WellFormed(c)
    ensures (forall i :: 0 <= i < k ==> i in c.handles) ==> Count(Stages(shaders, k, c), IsAttribPointer) == 2 * k
    ensures (forall i :: 0 <= i < k ==> i !in c.handles) ==> Count(Stages(shaders, k, c), IsAttribPointer) == 0
  {
    if k == 0 {
      QuietFacts([]);
    } else {
      var front, last := Stages(shaders, k - 1, c), StageEvents(shaders[k - 1], k - 1, |shaders|, c);
      assert Stages(shaders, k, c) == front + last;
      AttribPointersFollowHandles(shaders, k - 1, c);
      StagePointers(shaders[k - 1], k - 1, |shaders|, c);
      CountAppend(front, last, IsAttribPointer);
    }
  }

  /** A stage sets two attribute pointers when its index has handles, none otherwise. */
  lemma StagePointers(s: Shader, i: nat, n: nat, c: FrameContext)
    requires i < n && WellFormed(c)
    ensures Count(StageEvents(s, i, n, c), IsAttribPointer) == if i in c.handles then 2 else 0
  {
    StageShape(s, i, n, c);
  }

  /** Initialising a renderable list and then drawing binds both attributes of every stage. */
  lemma InitializedFrameBindsAllAttributes(shaders: seq<Shader>, attribLoc: (int, string) -> int, c: FrameContext)
    requires WellFormed(c) && CanRender(shaders)
    ensures var c' := c.(handles := InitializedHandles(c.handles, shaders, attribLoc));
      Count(Frame(Initialized(shaders), c'), IsAttribPointer) == 2 * |shaders|
  {
    var r := Initialized(shaders);
    BuiltInsPerStage(shaders);
    assert CanRender(r);
    var c' := c.(handles := InitializedHandles(c.handles, shaders, attribLoc));
    AttribPointersFollowHandles(r, |r|, c');
  }

  // ---------------------------------------------------------------- release

  /** The GL calls of `release` before the shaders are released. */
  function DeleteTargetEvents(frameBuffers: seq<int>, textures: seq<int>): seq<Event>
    requires |frameBuffers| == |textures| == 2
  {
    [DeleteTextures(textures[0], textures[1]), DeleteFramebuffers(frameBuffers[0], frameBuffers[1])]
  }

  /**
   * After `release` the cached size is (-1, -1), so the next resize to any other size
   * reallocates both targets.
   */
  lemma ResizeAfterReleaseReallocates(width: int, height: int, frameBuffers: seq<int>, textures: seq<int>)
    requires |frameBuffers| == |textures| == 2
    requires width != -1 || height != -1
    ensures Count(SurfaceChangedEvents(-1, -1, width, height, frameBuffers, textures), IsTexImage) == 2
  {
    ResizeReallocatesIffSizeChanged(-1, -1, width, height, frameBuffers, textures);
  }
}
