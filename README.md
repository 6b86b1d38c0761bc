# ShaderView multi-pass renderer — a Dafny model

ShaderView is an Android library that draws GLSL shaders onto a texture view. This project models its multi-pass part:

- **`GLQuadMultiRenderImpl`** is the renderer. It keeps an ordered list of shader programs and two off-screen framebuffers, each with a colour texture attached. On every frame it draws a full-screen quad once per program. Stage `i` reads the texture stage `i-1` wrote and writes the other framebuffer of the ping-pong pair. The last stage writes to the visible surface.
- **`MultiShaderView`** is the view that owns the renderer. It decides which sources the next shader list is built from. It keeps a "recreate" flag, swaps a new list into the renderer and releases the old one, and chooses the render mode.
- **The demo's shader configurations** are covered in their integer parts only: the timestamp arithmetic behind the blur size, the circle colour and the texture offset.

GL is modelled as a `Gl.Context` object whose `trace` is a sequence of events. Every GL call the source makes is one event appended to the trace. So is every lifecycle call into a shader object (build, parameter binding, drawing, release), every call into the renderer's listener and every assignment of the renderer's shader list (`InstallShaders`). Assigning a shader's `params`, reading its `isReady` or `program`, and the `ShaderBuilder` calls other than `build` leave no event. The renderer is a class with the source's fields. Its two handle arrays are Dafny `array`s, written in place. The shader list and the attribute-handle map are a `seq` and a `map` that its methods reassign. Every method that loops is proved against a pure function of the old state (`Frame`, `SurfaceChangedEvents`, `Initialized`, `InitializedHandles`, `InitializationEvents`, `Built`, `WithParams`). The lemmas next to those functions state the promised properties:

- the all-or-nothing readiness guard;
- draw count and order;
- ping-pong pairing;
- the surface-only last stage;
- resize idempotence;
- the new shader list assigned before the previous one is released;
- built-ins;
- release.

The model treats several things as parameters:

- Values that GL or the unshown shader classes produce: the generated framebuffer and texture names, the attribute locations (`attribLoc`) and the compile result of a source (`compile`).
- Shader objects: each is a value (`Shaders.Shader`) with an `id` standing for its object identity.
- The default raw resources of the view: parameters of its constructor.
- Listener and `post` calls: the renderer's listener is the view and runs synchronously. Work the view hands to `post` is not modelled.

Three behaviours of the code shape the model:

- `release` does not clear the shader list, `hasSurfaceCreated` or the attribute-handle map. A second `release` releases every shader again.
- No state stops a frame from being drawn after `release`.
- `initShaders` sets `needToRecreateShaders` to `true` again after a rebuild. The flag is therefore never cleared, and every later `initShaders` rebuilds the list. `updateShaderParams` also never changes anything: the renderer's list stays empty until the first rebuild, which only happens after the flag was set. The view's `Valid` predicate carries this as an invariant, and `UpdateShaderParams` proves the list unchanged.

## Model

| member | source | states |
|---|---|---|
| QuadGeometry.AttributeLayout | lib/src/main/java/com/appspell/shaderview/gl/render/GLQuadMultiRender.kt:21-24 | position (size 3, offset 0) and UV (size 2, offset 3) tile a vertex of five floats exactly |
| QuadGeometry.FlippedIsVFlip | lib/src/main/java/com/appspell/shaderview/gl/render/GLQuadMultiRender.kt:73-86 | both tables hold four five-float vertices; the flipped one keeps x, y, z and u of the other and has 1 - v for every v |
| QuadGeometry.QuadCorners | lib/src/main/java/com/appspell/shaderview/gl/render/GLQuadMultiRender.kt:73-86 | both tables lie on the corners of [-1,1]² at z = 0; v = 0 is the top edge in the unflipped table and the bottom edge in the flipped one |
| RenderSchedule.ReallocationTexImages | lib/src/main/java/com/appspell/shaderview/gl/render/GLQuadMultiRender.kt:108-129 | re-specifying the first k targets issues exactly k texture-image calls |
| RenderSchedule.ResizeReallocatesIffSizeChanged | lib/src/main/java/com/appspell/shaderview/gl/render/GLQuadMultiRender.kt:103-135 | a resize always sets the viewport first; it re-specifies both textures (2 image calls) iff the size differs from the cache and then ends with framebuffer 0 bound, otherwise it emits only the viewport |
| RenderSchedule.ResizeIdempotent | lib/src/main/java/com/appspell/shaderview/gl/render/GLQuadMultiRender.kt:107 | a resize to the cached size reallocates nothing |
| RenderSchedule.ResizeAttachesTextureToItsFramebuffer | lib/src/main/java/com/appspell/shaderview/gl/render/GLQuadMultiRender.kt:109-124 | during a reallocation texture k is re-specified at the new size and then attached to framebuffer k |
| RenderSchedule.BuiltInsPerStage | lib/src/main/java/com/appspell/shaderview/gl/render/GLQuadMultiRender.kt:148-163 | initialising a renderable list gives every shader MVP and STM as mat4 and only shaders after the first the input texture, keeps every other parameter and all identities; a non-renderable list is untouched |
| RenderSchedule.HandlesRecordedForEveryIndex | lib/src/main/java/com/appspell/shaderview/gl/render/GLQuadMultiRender.kt:164-168 | initialising a renderable list records the locations of both attributes for every index and keeps older entries; otherwise the map is unchanged |
| RenderSchedule.InitializationReleasesNothing | lib/src/main/java/com/appspell/shaderview/gl/render/GLQuadMultiRender.kt:147-170 | initialising a list releases no shader |
| RenderSchedule.InitEventsShape | lib/src/main/java/com/appspell/shaderview/gl/render/GLQuadMultiRender.kt:153-168 | per shader, in list order: bind params without resources, then look up the position and the UV attribute of its program |
| RenderSchedule.StageShape | lib/src/main/java/com/appspell/shaderview/gl/render/GLQuadMultiRender.kt:178-223 | one stage activates only its own program, issues exactly one draw, followed at once by the finish that ends it, and binds two attribute pointers exactly when its index has handles |
| RenderSchedule.StagesShape | lib/src/main/java/com/appspell/shaderview/gl/render/GLQuadMultiRender.kt:178-223 | the first k stages issue k draws, each followed by a finish, and end with a finish |
| RenderSchedule.StagesPrograms | lib/src/main/java/com/appspell/shaderview/gl/render/GLQuadMultiRender.kt:178-192 | the first k stages activate the first k programs in list order |
| RenderSchedule.FrameEmptyIffNotRenderable | lib/src/main/java/com/appspell/shaderview/gl/render/GLQuadMultiRender.kt:173-176 | a frame emits no event at all iff the list is empty or some shader is not ready |
| RenderSchedule.FrameDrawsEveryStageInOrder | lib/src/main/java/com/appspell/shaderview/gl/render/GLQuadMultiRender.kt:178-222 | for N ready shaders a frame issues exactly N draws of 4 triangle-strip vertices, activates the N programs in order, finishes after every draw and ends with a finish |
| RenderSchedule.DrawsAreFullQuads | lib/src/main/java/com/appspell/shaderview/gl/render/GLQuadMultiRender.kt:219 | every draw of a frame is (TRIANGLE_STRIP, 0, 4) |
| RenderSchedule.PingPong | lib/src/main/java/com/appspell/shaderview/gl/render/GLQuadMultiRender.kt:180-187 | stage 0 reads nothing; stage i+1 reads texture i mod 2, which stage i wrote through framebuffer i mod 2; both indices alternate from stage to stage |
| RenderSchedule.LastStageTargetsSurface | lib/src/main/java/com/appspell/shaderview/gl/render/GLQuadMultiRender.kt:186-197 | the last stage writes framebuffer 0 and is the only one drawing the unflipped quad; every earlier stage writes one of the two framebuffers with the flipped quad, which is not the surface once neither generated name is 0 |
| RenderSchedule.AttribPointersFollowHandles | lib/src/main/java/com/appspell/shaderview/gl/render/GLQuadMultiRender.kt:198-201 | with handles for every index k stages set 2k attribute pointers; with none they set none |
| RenderSchedule.InitializedFrameBindsAllAttributes | lib/src/main/java/com/appspell/shaderview/gl/render/GLQuadMultiRender.kt:164-201 | after initialising a renderable list, a frame binds both attributes of every stage |
| RenderSchedule.ResizeAfterReleaseReallocates | lib/src/main/java/com/appspell/shaderview/gl/render/GLQuadMultiRender.kt:275-277 | after the size is reset to (-1, -1) the next resize to any real size re-specifies both textures |
| Shaders.ReleaseAll | lib/src/main/java/com/appspell/shaderview/gl/render/GLQuadMultiRender.kt:273 | releases every shader of the list once, in order |
| Shaders.BindAll | lib/src/main/java/com/appspell/shaderview/MultiShaderView.kt:193 | binds the parameters of every shader of the list once, in order, with resources |
| QuadMultiRender.Renderer.constructor | lib/src/main/java/com/appspell/shaderview/gl/render/GLQuadMultiRender.kt:47-69 | empty shader list, size (-1, -1), no surface, no listener, empty handle map, zeroed handle arrays, empty trace |
| QuadMultiRender.Renderer.InstallListener | lib/src/main/java/com/appspell/shaderview/gl/render/GLQuadMultiRender.kt:47 | installs the listener and changes nothing else |
| QuadMultiRender.Renderer.SetShaders | lib/src/main/java/com/appspell/shaderview/gl/render/GLQuadMultiRender.kt:49-54 | stores the list and records the assignment; initialises it (built-ins, handles, events) only if the surface was created, otherwise stores it as given and emits nothing more |
| QuadMultiRender.Renderer.AssignShaderParams | lib/src/main/java/com/appspell/shaderview/MultiShaderView.kt:147 | replaces the parameters of one shader and nothing else |
| QuadMultiRender.Renderer.OnSurfaceChanged | lib/src/main/java/com/appspell/shaderview/gl/render/GLQuadMultiRender.kt:103-135 | emits exactly `SurfaceChangedEvents` for the old cached size and caches the new one |
| QuadMultiRender.Renderer.ReallocateTarget | lib/src/main/java/com/appspell/shaderview/gl/render/GLQuadMultiRender.kt:109-128 | re-specifies texture i at the new size and attaches it to framebuffer i |
| QuadMultiRender.Renderer.AllocateTargets | lib/src/main/java/com/appspell/shaderview/gl/render/GLQuadMultiRender.kt:137-141 | stores the generated framebuffer and texture names and notifies the listener if there is one |
| QuadMultiRender.Renderer.CompleteSurfaceCreated | lib/src/main/java/com/appspell/shaderview/gl/render/GLQuadMultiRender.kt:142-144 | initialises the current list, then marks the surface created |
| QuadMultiRender.Renderer.OnSurfaceCreated | lib/src/main/java/com/appspell/shaderview/gl/render/GLQuadMultiRender.kt:137-145 | generates the targets, notifies, initialises the list and marks the surface, in that order |
| QuadMultiRender.Renderer.InitializeShaders | lib/src/main/java/com/appspell/shaderview/gl/render/GLQuadMultiRender.kt:147-170 | nothing unless the list can render; otherwise every shader gains its built-ins, its handles are recorded and its init events emitted, in list order |
| QuadMultiRender.Renderer.InitializeStage | lib/src/main/java/com/appspell/shaderview/gl/render/GLQuadMultiRender.kt:155-168 | one shader: adds its built-ins, binds params, records its two attribute locations |
| QuadMultiRender.Renderer.OnDrawFrame | lib/src/main/java/com/appspell/shaderview/gl/render/GLQuadMultiRender.kt:172-224 | emits exactly `Frame` of the list and the current targets, handles and listener |
| QuadMultiRender.Renderer.DrawStage | lib/src/main/java/com/appspell/shaderview/gl/render/GLQuadMultiRender.kt:179-222 | emits exactly the events of stage `index` (input, output, attributes, uniforms, draw) |
| QuadMultiRender.Renderer.SetAttribute | lib/src/main/java/com/appspell/shaderview/gl/render/GLQuadMultiRender.kt:238-251 | points the attribute at the quad with the 20-byte stride and the given size and offset, then enables it |
| QuadMultiRender.Renderer.Release | lib/src/main/java/com/appspell/shaderview/gl/render/GLQuadMultiRender.kt:262-278 | deletes both targets, zeroes both handle arrays, releases every shader, resets the size to (-1, -1); the list, flags and handle map are kept |
| ShaderSelection.CodeSources | lib/src/main/java/com/appspell/shaderview/MultiShaderView.kt:157-164 | one code source per entry; a missing vertex or fragment string becomes "" |
| ShaderSelection.RawSources | lib/src/main/java/com/appspell/shaderview/MultiShaderView.kt:166-175 | one raw-resource source per entry; a missing id becomes the default vertex or fragment resource |
| ShaderSelection.SelectSources | lib/src/main/java/com/appspell/shaderview/MultiShaderView.kt:156-175 | code strings are used whenever there are any, raw ids otherwise; the result is as long as the list chosen, entry by entry with the defaults |
| ShaderSelection.BuiltShaders | lib/src/main/java/com/appspell/shaderview/MultiShaderView.kt:177-182 | built shader i comes from source i with its compile result, gets parameter set i when there is one and the empty set otherwise, and gets identity firstId + i |
| ShaderSelection.SurplusParamsIgnored | lib/src/main/java/com/appspell/shaderview/MultiShaderView.kt:177-182 | parameter sets beyond the number of sources make no difference |
| MultiShader.WithParamsAssignsExistingIndices | lib/src/main/java/com/appspell/shaderview/MultiShaderView.kt:146-148 | assigning parameter sets keeps the length and everything but `params`, sets shader i's params to set i only where both exist, and leaves an empty list empty |
| MultiShader.AssignParams | lib/src/main/java/com/appspell/shaderview/MultiShaderView.kt:146-148 | the loop leaves exactly `WithParams` of the old list in the renderer |
| MultiShader.RecreationReleasesOnlyThePreviousList | lib/src/main/java/com/appspell/shaderview/MultiShaderView.kt:177-186 | a recreation first builds every shader, then assigns the new list to the renderer, and every release comes after that assignment; exactly the previous shaders are released, each at least once; with older identities below firstId, none of them is in the installed list, which carries the fresh identities in order |
| MultiShader.SwapShaders | lib/src/main/java/com/appspell/shaderview/MultiShaderView.kt:184-186 | assigns the new list to the renderer (initialised if the surface exists), and only then releases each shader of the previous list |
| MultiShader.NoRecreationOnEmptyList | lib/src/main/java/com/appspell/shaderview/MultiShaderView.kt:151-194 | without a pending recreation and with an empty renderer list, `initShaders` emits nothing and keeps the list empty |
| MultiShader.MultiShaderView.constructor | lib/src/main/java/com/appspell/shaderview/MultiShaderView.kt:118-139 | empty lists, flag clear, WHEN_DIRTY requested, a fresh renderer with the view as listener |
| MultiShader.MultiShaderView.SetShaderRawResIds | lib/src/main/java/com/appspell/shaderview/MultiShaderView.kt:37-41 | stores the ids and sets the recreate flag |
| MultiShader.MultiShaderView.SetShaderCodes | lib/src/main/java/com/appspell/shaderview/MultiShaderView.kt:43-47 | stores the codes and sets the recreate flag |
| MultiShader.MultiShaderView.SetShaderParams | lib/src/main/java/com/appspell/shaderview/MultiShaderView.kt:49-53 | stores the sets and runs `updateShaderParams` |
| MultiShader.MultiShaderView.UpdateShaderParams | lib/src/main/java/com/appspell/shaderview/MultiShaderView.kt:142-149 | nothing while the flag is set, otherwise `WithParams` of the renderer's list; in every reachable state this leaves the list unchanged |
| MultiShader.MultiShaderView.SetUpdateContinuously | lib/src/main/java/com/appspell/shaderview/MultiShaderView.kt:78-89 | an unchanged value requests nothing; a changed one is stored and requests CONTINUOUSLY or WHEN_DIRTY to match |
| MultiShader.MultiShaderView.BuildShaders | lib/src/main/java/com/appspell/shaderview/MultiShaderView.kt:177-182 | builds exactly `Built` of the sources, one build event per shader, with fresh identities |
| MultiShader.MultiShaderView.Recreate | lib/src/main/java/com/appspell/shaderview/MultiShaderView.kt:153-189 | builds the selected sources, assigns the result to the renderer (initialised if the surface exists), then releases the previous list; the flag stays set, the identity counter advances by the number of sources, the other view fields and the renderer's size are kept |
| MultiShader.MultiShaderView.InitShaders | lib/src/main/java/com/appspell/shaderview/MultiShaderView.kt:151-194 | rebuilds only when the flag is set, then binds params with resources for the renderer's list; the renderer's list, handle map and trace follow from that, the flag keeps its value, and the other view fields, the size and the surface flag are kept |
| MultiShader.MultiShaderView.OnSurfaceCreated | lib/src/main/java/com/appspell/shaderview/MultiShaderView.kt:102-109 | the renderer's surface creation with the view as listener: generate, notify, `initShaders`, then initialise the installed list and mark the surface; the handle map gains the entries of both initialisations, and the view's sources, parameters and render mode are kept |
| MultiShader.MultiShaderView.OnSurfaceTextureDestroyed | lib/src/main/java/com/appspell/shaderview/MultiShaderView.kt:196-199 | releases the renderer: targets deleted and zeroed, every shader released, size reset; the list, handle map and surface flag are kept |
| MultiShader.MultiShaderView.UpdateShaders | lib/src/main/java/com/appspell/shaderview/MultiShaderView.kt:201-203 | the full contract of `initShaders`: list, trace, handle map, flag, identity counter and every other field |
| DemoShaderConfig.KDiv | demo/src/main/java/com/appspell/shaderview/demo/multi/ShaderConfig.kt:30 | Kotlin `Long` division truncates toward zero: `a - b·q` lies in [0, b) for a ≥ 0 and in (-b, 0] for a < 0 |
| DemoShaderConfig.KRem | demo/src/main/java/com/appspell/shaderview/demo/multi/ShaderConfig.kt:30 | Kotlin `Long` remainder: a = b·q + r with the sign of the dividend and no larger than the divisor |
| DemoShaderConfig.BlurSize | demo/src/main/java/com/appspell/shaderview/demo/multi/ShaderConfig.kt:29-31 | the blur size lies in [1, 25] for a non-negative timestamp and in [-23, 25] for any, so `toInt` never truncates |
| DemoShaderConfig.BlurUpdate | demo/src/main/java/com/appspell/shaderview/demo/multi/ShaderConfig.kt:28-36 | writes exactly `uBlurSize` and `uScale`, each a declared parameter of a matching kind; the blur size is an integer in [1, 25] for t ≥ 0 |
| DemoShaderConfig.CircleColorUpdate | demo/src/main/java/com/appspell/shaderview/demo/multi/ShaderConfig.kt:45-50 | writes exactly `diffuseColor`, a declared `vec4`, as a colour fraction |
| DemoShaderConfig.AnimatedTextureUpdate | demo/src/main/java/com/appspell/shaderview/demo/multi/ShaderConfig.kt:64-68 | writes exactly `uOffset`, a declared `vec2`, as an offset fraction |
| DemoShaderConfig.BlurSizePeriodic | demo/src/main/java/com/appspell/shaderview/demo/multi/ShaderConfig.kt:30 | for t ≥ 0 the blur size repeats every 2500 ms |
| DemoShaderConfig.BlurSizeSteps | demo/src/main/java/com/appspell/shaderview/demo/multi/ShaderConfig.kt:30 | for t ≥ 0 the size grows by one every 100 ms inside a cycle and returns to 1 after 25 |
| DemoShaderConfig.CircleColorInRange | demo/src/main/java/com/appspell/shaderview/demo/multi/ShaderConfig.kt:45-50 | colour numerators lie in (-254, 254), and in [0, 253] for t ≥ 0; denominator 254, alpha 1 |
| DemoShaderConfig.AnimatedOffsetInRange | demo/src/main/java/com/appspell/shaderview/demo/multi/ShaderConfig.kt:64-68 | offset numerators lie in [0, 4999] and [0, 999] for t ≥ 0 (magnitudes below the denominators for any t) |

## Left out

- Floating-point values are not modelled: the identity matrices, `uScale` as a float, and the colour and offset divisions. Fractions are kept as integer numerator and denominator. Clear colours and vertex tables are exact reals.
- The following GL details are not modelled: GL error draining (`checkGlError`), logging, the framebuffer-completeness value, buffer positioning and native byte buffers. Each status check is one event whose result is ignored, as in the source.
- EGL configuration, the OpenGL version, `isOpaque`, `setRenderer`, `framerate`/`setFPS` and render-loop scheduling are not modelled. Render-mode changes are recorded by value only.
- `post { ... }` is not modelled, and neither are the `onViewReadyListener`/`onDrawFrameListener` it invokes: that is thread hand-off. The renderer's listener calls are events, and the view's `onSurfaceCreated` body runs synchronously.
- `GLShader`, `ShaderBuilder` and `ShaderParams` are not part of this model. Compiling a source is the parameter `compile`, and a parameter set is a map from name to kind. A builder's own default parameter set is taken to be empty. `bindParams`, `onDrawFrame`, `release` and `updateValue` on a shader are events, without their resource or texture loading.
- The built-in names `uMVPMatrix`, `uSTMatrix`, `inPosition` and `inTextureCoord` are defined in `GLQuadRenderImpl`, which is not part of this model. Their values here are stand-ins; only their distinctness matters.
- `compile` is a function of the source, so two builds of the same source get the same program handle. GL's `glCreateProgram` would give a rebuilt list fresh program names; the model's program handles do not tell a rebuilt shader from a released one (the shader `id` does).
- Shader objects are values, so aliasing of one `GLShader` between lists is not captured. In the source, the renderer's `initializeShaders` changes the objects in place.
- The `debugMode` setter and the framebuffer-status log are not modelled: they only affect logging.
- `OnSurfaceTextureDestroyed`: the `Boolean` that the superclass returns is not modelled.
- Demo timestamps: the blur size is proved periodic and stepwise only for non-negative timestamps. A Kotlin `Long` cannot overflow in any of these expressions, so the unbounded integers are exact.
