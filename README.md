# GPU-resource lifecycle of the triangle demo, in Dafny

The demo is a small SDL2 and OpenGL ES 3 program. It draws one coloured
triangle that circles the centre of the window. This project models the
part of it that creates, configures, uses and releases GPU objects:

- the shader program (`Shader` of `src/gl/shader.rs`);
- the vertex array (`Vao` of `src/gl/vao.rs`);
- the array buffers (`ArrayVbo` of `src/gl/vbo.rs`);
- the scene that owns them (`Scene` of `src/scene.rs`).

The OpenGL context is `GlApi.Gl`, an abstract state machine (`gl_api.dfy`).
It holds:

- a handle counter that starts at 1 and never reuses a name;
- the live shader, program, buffer and vertex-array names;
- the current program, the `ARRAY_BUFFER` binding and the bound vertex array;
- the enabled attribute slots and the configured attribute pointers;
- each buffer's bytes;
- attached shaders, plus the attribute locations requested and those in force at the last link;
- a trace of every call issued, oldest first.

Each GL entry point the demo uses is one method of `Gl`. The method appends
one entry to the trace. What only the driver knows becomes a parameter:

- a compile status;
- an info-log length and text;
- a uniform location.

`Valid()` says that every live name was handed out by the counter. Every
method keeps it, so a freshly created name is never already live.

`Shader`, `Vao` and `ArrayVbo` are datatypes holding their handles, as in
the source, where they never change after construction. Their operations
take the context as a parameter. `Scene` is a class because `randomize` and
`update` overwrite its fields in place.

A panic of the source becomes the `Err` arm of a `Result`. This covers
`unimplemented!` in `Vao::new` and the `unwrap` in `new_default_shader`.

Files:

- `wrappers.dfy`: the `Result` type.
- `gl_api.dfy`: the context, the enumerants, and the `as u8` and `as i32` casts.
- `vbo.dfy`: array buffers and the byte layout of a `Vec<T>`.
- `vao.dfy`: vertex arrays and the pointer-form dispatch.
- `shader.dfy`: shader programs, the error log and the default program.
- `scene.dfy`: the scene, its random colours, its attribute wiring and its per-frame call sequence.

### Behaviour of the code worth knowing

- **Stage objects exist before the NUL check.** `CreateShader` runs before
  `CString::new` checks the source (src/gl/shader.rs:66-68 and 106-108).
  So `VertexSourceMalformed` returns with the vertex object live, and
  `FragmentSourceMalformed` with both stage objects live.
  `Shaders.Shader.New` states these leaks.
- **A malformed attribute name leaks the program.** On
  `AttributeStringMalformed` the code returns with the program and both
  stages live (src/gl/shader.rs:160-162).
- **Compilation failures do not leak.** Both compile-failure paths delete
  every stage created so far, and no program is created
  (src/gl/shader.rs:95-98 and 141-145).
- **Locations are requested after the link.** `BindAttribLocation` is
  called after `LinkProgram` (src/gl/shader.rs:157 and 163). The context
  records the requested locations apart from those in force at the last
  link. After `Shader::new` the program was linked with no requested
  locations, while the bindings sit in the requested set
  (`Shaders.RequestedDiffersFromNone`). The default shaders declare
  `layout(location=…)`, so the demo does not depend on these requests.
- **Two results are unwrapped.** `new_default_shader` unwraps the result
  of `Shader::new` (src/gl/shader.rs:213); that panic is the `Err` arm of
  `Shaders.NewDefaultShader` and `Scenes.Scene.New`. `render` unwraps the
  uniform lookup (src/scene.rs:156), which fails only when the name holds
  a NUL (src/gl/mod.rs:31-35). `view_projection` holds none
  (`Shaders.DefaultBindingsWellFormed`), so `Scenes.Scene.FinishFrame`
  issues the lookup without an error arm.

## Model

| member | source | states |
|---|---|---|
| GlApi.AsU8 | src/gl/shader.rs:75 | `success as u8` keeps the low byte: the value itself in 0..255, otherwise a value congruent to it modulo 256 |
| GlApi.U32AsI32 | src/gl/vao.rs:40 | `stride as i32` stays within i32, equals the input exactly when it is below 2^31, and is congruent to it modulo 2^32 |
| GlApi.InfoLogWritten | src/gl/shader.rs:82-89 | the driver writes at most the buffer size; it writes nothing into an empty buffer, and otherwise writes min(log length, size − 1) characters and then a NUL |
| GlApi.InfoLogWrittenPrefix | src/gl/shader.rs:82-89 | before the NUL, the written text is the start of the driver's log |
| Vbos.FlattenLength | src/gl/vbo.rs:34-39 | a `Vec<T>` of n elements of `size_of::<T>()` bytes spans n × size bytes |
| Vbos.FlattenElement | src/gl/vbo.rs:34-39 | element i of the vector occupies bytes [i·size, (i+1)·size) of its memory |
| Vbos.ArrayVbo.New | src/gl/vbo.rs:9-16 | the generated name is non-zero and was not live; it becomes a live buffer with no contents |
| Vbos.ArrayVbo.Bind | src/gl/vbo.rs:18-22 | `ARRAY_BUFFER` is bound to this buffer |
| Vbos.ArrayVbo.Unbind | src/gl/vbo.rs:23-27 | `ARRAY_BUFFER` is bound to 0 |
| Vbos.ArrayVbo.UploadVec | src/gl/vbo.rs:28-43 | the buffer ends bound, and it holds exactly the vector's memory, len × size_of::<T>() bytes |
| Vbos.ArrayVbo.UploadRaw | src/gl/vbo.rs:44-59 | binds, then replaces the whole contents with `bytes`; every other buffer keeps its bytes |
| Vbos.ArrayVbo.Drop | src/gl/vbo.rs:62-68 | deletes this buffer name once; a binding to it reverts to 0 |
| Vaos.FormOf | src/gl/vao.rs:30-54 | the floating-point form iff FLOAT or normalized; the integer form iff non-normalized UNSIGNED_SHORT; a fault iff neither |
| Vaos.FirstUnsupportedSpec | src/gl/vao.rs:22-54 | the definitions before the stopping point are all configurable, and the one at it is not |
| Vaos.PointerOf | src/gl/vao.rs:25-52 | a configured slot reads from the definition's own buffer, with its data type; the integer form is used exactly for non-normalized UNSIGNED_SHORT |
| Vaos.EnabledByListed | src/gl/vao.rs:22-28 | every listed slot of the new vertex array is enabled, and no other slot |
| Vaos.PointersByLastWins | src/gl/vao.rs:22-54 | each listed slot ends with the layout of the last definition naming it |
| Vaos.Vao.ConfigureSlots | src/gl/vao.rs:22-56 | the loop stops at the first unconfigurable definition; the slots before it are enabled and configured in list order. `ARRAY_BUFFER` is left at the buffer of the last definition processed, and no other part of the context changes |
| Vaos.Vao.ConfigureSlot | src/gl/vao.rs:23-54 | binds the definition's buffer, enables its slot, then issues the pointer call of its form, or reports the fault |
| Vaos.Vao.New | src/gl/vao.rs:9-64 | the name is non-zero and fresh. If every definition is supported: all slots configured in order, and the vertex array and `ARRAY_BUFFER` both end at 0. Otherwise: the fault names the first bad data type, after its buffer was bound and its slot enabled |
| Vaos.Vao.Bind | src/gl/vao.rs:65-69 | the bound vertex array is this one |
| Vaos.Vao.Unbind | src/gl/vao.rs:70-74 | the bound vertex array is 0 |
| Vaos.Vao.Drop | src/gl/vao.rs:77-83 | deletes only the vertex-array name; a binding to it reverts to 0; the buffers it read from stay live with their bytes |
| Shaders.LogTextContents | src/gl/shader.rs:79-94 | the log holds the written bytes as characters, padded with NULs |
| Shaders.CompileLogShape | src/gl/shader.rs:76-94 | the compile-error log has INFO_LOG_LENGTH characters: the driver's text up to the terminator, then NULs |
| Shaders.FirstMalformedSpec | src/gl/shader.rs:160-162 | the names before the stopping point pass the NUL check, and the one at it fails |
| Shaders.BoundLastWins | src/gl/shader.rs:160-164 | every bound name gets the index of its last binding; names not bound keep their location |
| Shaders.RequestedDiffersFromNone | src/gl/shader.rs:157-164 | with at least one binding, the requested locations differ from the empty set the program was linked with |
| Shaders.BindCallsInOrder | src/gl/shader.rs:160-164 | one `BindAttribLocation` per binding, the i-th for the i-th binding |
| Shaders.Shader.CompileStage | src/gl/shader.rs:66-103 | creates a fresh shader object. A NUL stops right after creation. A failed status reads the log. A good status leaves the stage compiled |
| Shaders.Shader.BindAttributes | src/gl/shader.rs:160-164 | requests locations in list order up to the first malformed name, and none after it |
| Shaders.Shader.AssembleProgram | src/gl/shader.rs:152-164 | a fresh program with both stages attached, linked with no locations requested, then the bindings requested up to the first malformed name |
| Shaders.Shader.FromFragmentStage | src/gl/shader.rs:105-174 | `Shader::new` once the vertex stage compiled: the fragment stage's NUL exit leaves both stages live, its compile failure deletes both, and otherwise a fresh program is assembled; the live names and exact trace of each exit |
| Shaders.Shader.New | src/gl/shader.rs:59-174 | each of the five error exits and the success path, with the handle counter, the live names and the exact trace of each. Vertex errors win. Compile failures delete every stage. Malformed inputs leave what was created live. No exit before the program is created touches programs, attachments or locations. Success returns the three fresh names and the inputs as the stored sources |
| Shaders.Shader.Bind | src/gl/shader.rs:175-179 | the current program is this program |
| Shaders.Shader.Unbind | src/gl/shader.rs:180-184 | the current program is 0 |
| Shaders.Shader.Drop | src/gl/shader.rs:187-195 | deletes the program, then the vertex stage, then the fragment stage |
| Shaders.DropDeletesEachOnce | src/gl/shader.rs:187-195 | for distinct stages, each of the three names is deleted exactly once |
| Shaders.DefaultBindingsWellFormed | src/gl/shader.rs:197-214 | the default names and `view_projection` pass the NUL check; "position" is requested at 0 and "color" at 1 |
| Shaders.NewDefaultShader | src/gl/shader.rs:197-214 | succeeds exactly when both default stages compile, and never fails on an attribute name. Every exit states the live stages and the exact trace; a failure creates no program. On success, "position"→0 and "color"→1 are the requested locations |
| Shaders.DefaultSourcesNulFree | src/gl/shader.rs:216-244 | neither default GLSL text holds a NUL, so whether `new_default_shader` succeeds depends only on the two compile statuses |
| Scenes.GenRange | src/scene.rs:97-107 | `gen_range(lo, hi)` yields a value in [lo, hi) |
| Scenes.TriangleColor | src/scene.rs:96-101 | the triangle colour has r, g, b in [100, 255] and alpha 255 |
| Scenes.BackgroundColor | src/scene.rs:102-107 | the background colour has r, g, b in [0, 100] and alpha 255 |
| Scenes.TriangleColorCovers | src/scene.rs:96-101 | every opaque colour with channels in [100, 255] can be drawn |
| Scenes.BackgroundColorCovers | src/scene.rs:102-107 | every opaque colour with channels in [0, 100] can be drawn |
| Scenes.Speed | src/scene.rs:108 | the rotational speed lies in [−0.05, 0.05) |
| Scenes.F32BytesRoundTrip | src/scene.rs:148-149 | the four little-endian bytes read back as the same bit pattern |
| Scenes.Vec3Bytes | src/scene.rs:148-149 | a vertex position is 12 bytes: x, y and z in that order |
| Scenes.ColorPayloadRepeats | src/scene.rs:141-151 | the colour upload is 12 bytes, three copies of r, g, b, a of the triangle colour |
| Scenes.PositionPayloadLayout | src/scene.rs:139-149 | the position upload is 36 bytes, and corner i sits at bytes [12i, 12i + 12) |
| Scenes.SceneAttributes | src/scene.rs:40-66 | slot 0 reads from the positions buffer and slot 1 from the colours buffer |
| Scenes.SceneAttributesWiring | src/scene.rs:40-66 | both definitions take the floating-point form, so `Vao::new` never faults on them; slots 0 and 1 end enabled, pointing at their buffers |
| Scenes.FrameDrawsUploadedVertices | src/scene.rs:139-168 | the draw count is the number of corners, and both uploads hold exactly that many vertices |
| Scenes.Scene.constructor | src/scene.rs:68-89 | opaque black colours, no rotation and no speed, and the given GPU objects |
| Scenes.Scene.CreateBuffers | src/scene.rs:36-38 | the positions buffer, then the colours buffer: two fresh names, each live and empty |
| Scenes.Scene.WireGeometry | src/scene.rs:37-66 | two fresh, empty buffers, then a fresh vertex array with slots 0 and 1 wired to them; no vertex array or buffer is left bound; the exact trace of these calls |
| Scenes.Scene.New | src/scene.rs:27-93 | succeeds exactly when both default stages compile. Either way: the fresh buffers and vertex array with their wiring, the live stages and the exact trace. On failure no program exists. On success the scene holds the fresh buffers, vertex array and default shader, the program is linked with both stages attached and the default locations requested, and the colours satisfy the `randomize` bounds |
| Scenes.Scene.Complete | src/scene.rs:68-92 | `Scene::new` after the geometry: the default shader, then the struct literal and `randomize`; succeeds exactly when both stages compile, with the live stages and exact trace of each exit |
| Scenes.Scene.Assemble | src/scene.rs:68-92 | the struct literal followed by `randomize`: rotation 0, the drawn colours and speed, and the colours within bounds |
| Scenes.Scene.Randomize | src/scene.rs:94-109 | the colours and speed are the drawn ones, the colours satisfy the bounds, and the rotation is untouched |
| Scenes.Scene.Update | src/scene.rs:110-113 | the rotation grows by the speed, and every other field is unchanged |
| Scenes.Scene.Render | src/scene.rs:114-173 | issues the frame's calls in this order: clear, bind shader and vertex array, upload positions then colours with STREAM_DRAW, set the uniform, draw 3 vertices, unbind both. It replaces both buffers' bytes and ends with program 0 and vertex array 0. The scene is unchanged |
| Scenes.Scene.BeginFrame | src/scene.rs:115-120 | clears to the background colour, then binds the shader, then the vertex array |
| Scenes.Scene.UploadGeometry | src/scene.rs:139-151 | streams the three corners, then three copies of the triangle colour |
| Scenes.Scene.FinishFrame | src/scene.rs:153-172 | looks up `view_projection`, sets the matrix, draws the three vertices as triangles, then unbinds the program and the vertex array |
| Scenes.Scene.Drop | src/scene.rs:19-23 | drops the fields in declaration order. The shader's three names go first, then the vertex array, then the positions buffer, then the colours buffer. Bindings to the released vertex array and buffers revert to 0 |

## Left out

- **Platform I/O is not modelled.** This covers window and context creation, event polling, the main loop and the generated GL bindings. Each GL entry point is an abstract method of `Gl` instead.
- **Driver behaviour is an input.** Compile status, info-log length and text, and the uniform location are parameters; no GLSL is compiled.
- **Camera, projection and rotation geometry are left out.** They are `f32` matrix and trigonometric arithmetic done by an external library. `render` takes the triangle's corners as `f32` bit patterns and the driver's uniform location. The matrix passed to `UniformMatrix4fv` is not modelled.
- Scenes.Scene.Update: uses exact reals, so it does not model `f32` rounding of the rotation.
- Scenes.Speed: uses exact reals, so it does not model `f32` rounding of the speed.
- **The random generator is an input.** `thread_rng` is replaced by injected draws. An integer `gen_range(lo, hi)` is `lo + draw mod (hi − lo)`. The float `gen_range(-0.05, 0.05)` maps a unit sample onto the interval, and the sample lies in [0, 1), as the generator promises.
- **Colour normalisation is left out.** `Color::r()` and its siblings divide by 255.0. The `ClearColor` trace entry records the byte colour.
- Scenes.ColorBytes: assumes the fields lie in declaration order (r, g, b, a); Rust's default struct layout does not promise this.
- Scenes.Vec3Bytes: assumes x, y, z in order on a little-endian target.
- **Single ownership is not modelled.** Rust moves each `Shader`, `Vao` and `ArrayVbo` into one owner and drops it once. Here they are plain values, so nothing stops a caller from dropping one twice.
- **`Rc<Gl>` sharing is not modelled.** Every operation takes the one context as a parameter.
- **Unwinding is not modelled.** After a panic (`Err`) no destructor runs. So `Vaos.Vao.New`'s fault and `Scenes.Scene.New`'s `Err` leave the objects created so far live.
- Vbos.ArrayVbo.New: its `assert!(handle > 0)` cannot fail, because the modelled context never hands out 0. A driver answering 0 is not modelled.
- Vaos.Vao.New: the same holds for its `assert!(handle > 0)`.
- **Only the `ARRAY_BUFFER` target is modelled.** Other buffer targets, the viewport and GL error state are not.
- Vaos.FirstUnsupported: states only a bound on its own; its full meaning is in `Vaos.FirstUnsupportedSpec`.
- Shaders.FirstMalformed: states only a bound on its own; its full meaning is in `Shaders.FirstMalformedSpec`.
