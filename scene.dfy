/** The demo scene (`Scene` of src/scene.rs): one coloured triangle circling
    the centre of the window. The scene owns a shader, a vertex array and the
    two array buffers that feed it, and issues a fixed call sequence per frame. */
module Scenes {
  import opened Wrappers
  import opened GlApi
  import opened Vbos
  import opened Vaos
  import opened Shaders

  // ---------------------------------------------------------------------
  // Random draws

  /** `gen_range(lo, hi)` on integers: a value in `[lo, hi)`; `draw` is the
      generator's raw output, reduced onto the range. */
  function GenRange(lo: int, hi: int, draw: nat): (v: int)
    requires lo < hi
    ensures lo <= v < hi
    ensures lo <= draw + lo < hi ==> v == draw + lo
  {
    lo + draw % (hi - lo)
  }

  /** The three raw draws for the colour channels r, g and b. */
  datatype ChannelDraws = ChannelDraws(r: nat, g: nat, b: nat)

  /** Every draw `randomize` consumes: the triangle's channels, the
      background's channels, and the unit sample behind the speed. */
  datatype RandomDraws = RandomDraws(triangle: ChannelDraws, background: ChannelDraws, speedUnit: real)

  /** An opaque colour whose r, g and b lie in `[lo, hi]`. */
  predicate OpaqueWithin(c: Color, lo: int, hi: int)
  {
    && lo <= c.r <= hi && lo <= c.g <= hi && lo <= c.b <= hi
    && c.a == 255
  }

  /** The triangle colour `randomize` draws: each channel
      `gen_range(100, 256) as u8`, fully opaque. */
  function TriangleColor(d: ChannelDraws): (c: Color)
    ensures OpaqueWithin(c, 100, 255)
  {
    Color(AsU8(GenRange(100, 256, d.r)), AsU8(GenRange(100, 256, d.g)), AsU8(GenRange(100, 256, d.b)), 255)
  }

  /** The background colour `randomize` draws: each channel
      `gen_range(0, 101) as u8`, fully opaque. */
  function BackgroundColor(d: ChannelDraws): (c: Color)
    ensures OpaqueWithin(c, 0, 100)
  {
    Color(AsU8(GenRange(0, 101, d.r)), AsU8(GenRange(0, 101, d.g)), AsU8(GenRange(0, 101, d.b)), 255)
  }

  /** Every opaque colour with channels in `[100, 255]` is a possible
      triangle colour: the range is covered, not just respected. */
  lemma TriangleColorCovers(c: Color)
    requires OpaqueWithin(c, 100, 255)
    ensures TriangleColor(ChannelDraws(c.r - 100, c.g - 100, c.b - 100)) == c
  {
  }

  /** Every opaque colour with channels in `[0, 100]` is a possible
      background colour. */
  lemma BackgroundColorCovers(c: Color)
    requires OpaqueWithin(c, 0, 100)
    ensures BackgroundColor(ChannelDraws(c.r, c.g, c.b)) == c
  {
  }

  /** `gen_range(-0.05, 0.05)` on a sample `u` of `[0, 1)`. */
  function Speed(u: real): (s: real)
    requires 0.0 <= u < 1.0
    ensures -0.05 <= s < 0.05
  {
    -0.05 + u * 0.1
  }

  // ---------------------------------------------------------------------
  // Vertex data

  /** A 3-component `f32` vector, each component as its IEEE 754 bit pattern. */
  datatype Vec3 = Vec3(x: u32, y: u32, z: u32)

  /** The three corners `render` computes, in upload order. */
  datatype Triangle = Triangle(top: Vec3, bottomRight: Vec3, bottomLeft: Vec3)

  function Corners(t: Triangle): (s: seq<Vec3>)
    ensures |s| == 3
  {
    [t.top, t.bottomRight, t.bottomLeft]
  }

  /** The in-memory bytes of one `f32` on a little-endian target. */
  function F32Bytes(bits: u32): (b: seq<byte>)
    ensures |b| == 4
  {
    [bits % 0x100, bits / 0x100 % 0x100, bits / 0x100 / 0x100 % 0x100, bits / 0x100 / 0x100 / 0x100]
  }

  /** Reads back a little-endian 32-bit value. */
  function LittleEndian32(b: seq<byte>): int
    requires |b| == 4
  {
    b[0] as int + 0x100 * (b[1] as int + 0x100 * (b[2] as int + 0x100 * b[3] as int))
  }

  /** The bytes of an `f32` read back as the same bit pattern. */
  lemma F32BytesRoundTrip(bits: u32)
    ensures LittleEndian32(F32Bytes(bits)) == bits
  {
    var b := F32Bytes(bits);
    var q1 := bits / 0x100;
    var q2 := q1 / 0x100;
    assert bits == b[0] + 0x100 * q1;
    assert q1 == b[1] + 0x100 * q2;
    assert q2 == b[2] as int + 0x100 * b[3] as int;
  }

  /** `repr` of `glm::Vec3`: x, y, z, four bytes each. */
  function Vec3Bytes(v: Vec3): (b: seq<byte>)
    ensures |b| == 12
    ensures b[..4] == F32Bytes(v.x) && b[4..8] == F32Bytes(v.y) && b[8..] == F32Bytes(v.z)
  {
    F32Bytes(v.x) + F32Bytes(v.y) + F32Bytes(v.z)
  }

  /** `repr` of `gl::Color`: r, g, b, a, one byte each. */
  function ColorBytes(c: Color): (b: seq<byte>)
    ensures |b| == 4
  {
    [c.r, c.g, c.b, c.a]
  }

  /** The colour payload of a frame: one entry per corner, all alike. */
  function ColorPayload(c: Color): seq<byte>
  {
    Flatten([c, c, c], ColorBytes)
  }

  /** The position payload of a frame. */
  function PositionPayload(t: Triangle): seq<byte>
  {
    Flatten(Corners(t), Vec3Bytes)
  }

  /** A frame uploads 12 colour bytes: three copies of the triangle colour. */
  lemma ColorPayloadRepeats(c: Color, i: nat)
    requires i < 3
    ensures |ColorPayload(c)| == 12
    ensures ColorPayload(c)[4 * i..4 * i + 4] == [c.r, c.g, c.b, c.a]
  {
    FlattenElement([c, c, c], ColorBytes, 4, i);
  }

  /** A frame uploads 36 position bytes, corner `i` at bytes `[12i, 12i + 12)`. */
  lemma PositionPayloadLayout(t: Triangle, i: nat)
    requires i < 3
    ensures |PositionPayload(t)| == 36
    ensures PositionPayload(t)[12 * i..12 * i + 12] == Vec3Bytes(Corners(t)[i])
  {
    FlattenElement(Corners(t), Vec3Bytes, 12, i);
  }

  // ---------------------------------------------------------------------
  // Attribute wiring

  /** The list `Scene::new` hands to `Vao::new`: slot 0 reads three
      non-normalised floats from the positions buffer, slot 1 four
      normalised unsigned bytes from the colours buffer. */
  function SceneAttributes(positions: ArrayVbo, colors: ArrayVbo): (defs: seq<VertexAttribPointerDefinition>)
    ensures |defs| == 2
    ensures defs[0].vbo == positions && defs[0].attributeIndex == 0
    ensures defs[1].vbo == colors && defs[1].attributeIndex == 1
  {
    [VertexAttribPointerDefinition(positions, 0, VertexAttributeDefinition(3, FLOAT, false, 0, 0)),
     VertexAttribPointerDefinition(colors, 1, VertexAttributeDefinition(4, UNSIGNED_BYTE, true, 0, 0))]
  }

  /** The calls that wire slots 0 and 1 to the two buffers. */
  function SlotCalls(positions: Handle, colors: Handle): seq<Call>
  {
    [BindBuffer(ARRAY_BUFFER, positions), EnableVertexAttribArray(0), VertexAttribPointer(0, 3, FLOAT, false, 0, 0),
     BindBuffer(ARRAY_BUFFER, colors), EnableVertexAttribArray(1), VertexAttribPointer(1, 4, UNSIGNED_BYTE, true, 0, 0)]
  }

  /** The calls that create the scene's geometry from first handle `n`: two
      buffers, then the vertex array, its slots, and the two unbinds. */
  function WiringCalls(n: Handle): seq<Call>
  {
    [GenBuffer(n), GenBuffer(n + 1)]
    + ([GenVertexArray(n + 2), BindVertexArray(n + 2)] + SlotCalls(n, n + 1) + [BindVertexArray(0), BindBuffer(ARRAY_BUFFER, 0)])
  }

  /** The pointer slot 0 records. */
  function PositionsPointer(buffer: Handle): AttribPointer
  {
    AttribPointer(buffer, 3, FLOAT, false, false, 0, 0)
  }

  /** The pointer slot 1 records. */
  function ColorsPointer(buffer: Handle): AttribPointer
  {
    AttribPointer(buffer, 4, UNSIGNED_BYTE, true, false, 0, 0)
  }

  /** Both definitions take the floating-point form, so `Vao::new` never
      faults on them; it enables slots 0 and 1 of the new vertex array and
      points them at the two buffers. */
  lemma SceneAttributesWiring(h: Handle, positions: ArrayVbo, colors: ArrayVbo)
    ensures var defs := SceneAttributes(positions, colors);
            && FormOf(defs[0].attributeDefinition.dataType, defs[0].attributeDefinition.normalized) == FloatPointer
            && FormOf(defs[1].attributeDefinition.dataType, defs[1].attributeDefinition.normalized) == FloatPointer
            && AllSupported(defs)
            && FirstUnsupported(defs) == 2
            && EnabledBy(h, defs) == {(h, 0), (h, 1)}
            && PointersBy(h, defs) == map[(h, 0) := PositionsPointer(positions.handle), (h, 1) := ColorsPointer(colors.handle)]
            && SetupCalls(defs) == SlotCalls(positions.handle, colors.handle)
  {
    var defs := SceneAttributes(positions, colors);
    var first := [defs[0]];
    assert defs[..|defs| - 1] == first;
    assert first[..|first| - 1] == [];
    assert PointerOf(defs[0]) == PositionsPointer(positions.handle);
    assert PointerOf(defs[1]) == ColorsPointer(colors.handle);
    assert EnabledBy(h, first) == {(h, 0)};
    assert PointersBy(h, first) == map[(h, 0) := PositionsPointer(positions.handle)];
    assert SetupCalls(first) == DefinitionCalls(defs[0]);
    FirstUnsupportedAt(defs, 2);
  }

  /** The calls one frame issues, in order. The clear mask is
      `DEPTH_BUFFER_BIT | COLOR_BUFFER_BIT`; the two bits are disjoint, so
      the OR is their sum. */
  function FrameCalls(background: Color, program: Handle, vertexArray: Handle,
                      positionsBuffer: Handle, colorsBuffer: Handle,
                      positions: seq<byte>, colors: seq<byte>, location: int): seq<Call>
  {
    [ClearColor(background), Clear(DEPTH_BUFFER_BIT + COLOR_BUFFER_BIT),
     UseProgram(program), BindVertexArray(vertexArray),
     BindBuffer(ARRAY_BUFFER, positionsBuffer), BufferData(ARRAY_BUFFER, positions, STREAM_DRAW),
     BindBuffer(ARRAY_BUFFER, colorsBuffer), BufferData(ARRAY_BUFFER, colors, STREAM_DRAW),
     GetUniformLocation(program, DEFAULT_PROJECTION_UNIFORM), UniformMatrix4fv(location, 1, false),
     DrawArrays(TRIANGLES, 0, 3),
     UseProgram(0), BindVertexArray(0)]
  }

  /** A frame draws exactly the vertices it uploaded: 12 position bytes and
      4 colour bytes for each vertex `DrawArrays` is asked for. */
  lemma FrameDrawsUploadedVertices(background: Color, program: Handle, vertexArray: Handle,
                                   positionsBuffer: Handle, colorsBuffer: Handle, t: Triangle, c: Color, location: int)
    ensures var calls := FrameCalls(background, program, vertexArray, positionsBuffer, colorsBuffer,
                                    PositionPayload(t), ColorPayload(c), location);
            && calls[10].DrawArrays? && calls[10].vertexCount == |Corners(t)|
            && calls[5].BufferData? && |calls[5].data| == 12 * calls[10].vertexCount
            && calls[7].BufferData? && |calls[7].data| == 4 * calls[10].vertexCount
  {
    FlattenLength(Corners(t), Vec3Bytes, 12);
    FlattenLength([c, c, c], ColorBytes, 4);
  }

  /** The wiring `Scene::new` leaves behind, for buffers `n` (positions) and
      `n + 1` (colours) and vertex array `n + 2`: slots 0 and 1 enabled and
      pointing at the two buffers, no vertex array and no buffer bound. */
  ghost predicate Wired(gl: Gl, n: Handle, enabled: set<(Handle, u32)>, pointers: map<(Handle, u32), AttribPointer>)
    reads gl`enabled, gl`pointers, gl`vertexArray, gl`arrayBuffer
  {
    && gl.enabled == enabled + {(n + 2, 0), (n + 2, 1)}
    && gl.pointers == pointers[(n + 2, 0) := PositionsPointer(n)][(n + 2, 1) := ColorsPointer(n + 1)]
    && gl.vertexArray == 0 && gl.arrayBuffer == 0
  }

  /** The byte store after replacing the contents of `buffer` if it is live. */
  function Replaced(data: map<Handle, seq<byte>>, live: set<Handle>, buffer: Handle, bytes: seq<byte>): map<Handle, seq<byte>>
  {
    if buffer in live then data[buffer := bytes] else data
  }

  // ---------------------------------------------------------------------
  // The scene

  class Scene {
    var bgColor: Color
    var triangleColor: Color
    /** Angle of the triangle around the centre (an `f32` in the source). */
    var triangleRotation: real
    /** Change of the angle per update (an `f32` in the source). */
    var rotationalSpeed: real

    const shader: Shader
    const vao: Vao
    const positionsVbo: ArrayVbo
    const colorsVbo: ArrayVbo

    /** The colour bounds `randomize` establishes. */
    ghost predicate ColorsInRange()
      reads this`bgColor, this`triangleColor
    {
      OpaqueWithin(triangleColor, 100, 255) && OpaqueWithin(bgColor, 0, 100)
    }

    /** The struct literal of `Scene::new`: opaque black colours, no
        rotation and no speed yet. */
    constructor (shader: Shader, vao: Vao, positionsVbo: ArrayVbo, colorsVbo: ArrayVbo)
      ensures this.shader == shader && this.vao == vao
      ensures this.positionsVbo == positionsVbo && this.colorsVbo == colorsVbo
      ensures bgColor == Color(0, 0, 0, 255) && triangleColor == Color(0, 0, 0, 255)
      ensures triangleRotation == 0.0 && rotationalSpeed == 0.0
    {
      this.shader, this.vao := shader, vao;
      this.positionsVbo, this.colorsVbo := positionsVbo, colorsVbo;
      bgColor, triangleColor := Color(0, 0, 0, 255), Color(0, 0, 0, 255);
      triangleRotation, rotationalSpeed := 0.0, 0.0;
    }

    /** Creates the positions buffer, then the colours buffer. */
    static method CreateBuffers(gl: Gl) returns (positions: ArrayVbo, colors: ArrayVbo)
      requires gl.Valid()
      modifies gl`nextHandle, gl`buffers, gl`bufferData, gl`trace
      ensures gl.Valid()
      ensures var n := old(gl.nextHandle);
              && positions == ArrayVbo(n) && colors == ArrayVbo(n + 1)
              && {n, n + 1} !! old(gl.Live())
              && gl.nextHandle == n + 2
              && gl.buffers == old(gl.buffers) + {n, n + 1}
              && gl.bufferData == old(gl.bufferData)[n := []][n + 1 := []]
              && gl.trace == old(gl.trace) + [GenBuffer(n), GenBuffer(n + 1)]
    {
      positions := ArrayVbo.New(gl);
      colors := ArrayVbo.New(gl);
    }

    /** Creates the two buffers, then the vertex array wired to them. */
    static method WireGeometry(gl: Gl) returns (positions: ArrayVbo, colors: ArrayVbo, vao: Vao)
      requires gl.Valid()
      modifies gl`nextHandle, gl`buffers, gl`bufferData, gl`vertexArrays, gl`vertexArray,
               gl`arrayBuffer, gl`enabled, gl`pointers, gl`trace
      ensures gl.Valid()
      ensures var n := old(gl.nextHandle);
              && positions == ArrayVbo(n) && colors == ArrayVbo(n + 1) && vao == Vao(n + 2)
              && {n, n + 1, n + 2} !! old(gl.Live())
              && gl.nextHandle == n + 3
              && gl.buffers == old(gl.buffers) + {n, n + 1}
              && gl.vertexArrays == old(gl.vertexArrays) + {n + 2}
              && gl.bufferData == old(gl.bufferData)[n := []][n + 1 := []]
              && Wired(gl, n, old(gl.enabled), old(gl.pointers))
              && gl.trace == old(gl.trace) + WiringCalls(n)
    {
      ghost var n := gl.nextHandle;
      positions, colors := CreateBuffers(gl);
      ghost var created := gl.trace;
      SceneAttributesWiring(n + 2, positions, colors);
      ghost var pointers := gl.pointers;
      var made := Vao.New(SceneAttributes(positions, colors), gl);
      vao := made.value;
      MergeUpdate(pointers, map[(n + 2, 0) := PositionsPointer(n)], (n + 2, 1), ColorsPointer(n + 1));
      MergeUpdate(pointers, map[], (n + 2, 0), PositionsPointer(n));
      assert gl.trace == created + ([GenVertexArray(n + 2), BindVertexArray(n + 2)] + SlotCalls(n, n + 1)
                                    + [BindVertexArray(0), BindBuffer(ARRAY_BUFFER, 0)]);
    }

    /** `Scene::new`: the geometry, then the default shader, then a first
        `randomize`. The shader's `unwrap` panics when a stage does not
        compile; that panic is the `Err` arm, carrying the shader error. */
    static method New(gl: Gl, draws: RandomDraws, vertexDriver: CompileOutcome, fragmentDriver: CompileOutcome)
      returns (r: Result<Scene, ShaderError>)
      requires gl.Valid()
      requires 0.0 <= draws.speedUnit < 1.0
      modifies gl`nextHandle, gl`shaders, gl`programs, gl`buffers, gl`bufferData, gl`vertexArrays,
               gl`vertexArray, gl`arrayBuffer, gl`enabled, gl`pointers, gl`attached,
               gl`requestedLocations, gl`linked, gl`trace
      ensures gl.Valid()
      ensures r.Ok? <==> Compiles(VERTEX_SOURCE, vertexDriver) && Compiles(FRAGMENT_SOURCE, fragmentDriver)
      ensures var n := old(gl.nextHandle);
              && {n, n + 1, n + 2, n + 3, n + 4, n + 5} !! old(gl.Live())
              && gl.buffers == old(gl.buffers) + {n, n + 1}
              && gl.bufferData == old(gl.bufferData)[n := []][n + 1 := []]
              && gl.vertexArrays == old(gl.vertexArrays) + {n + 2}
              && Wired(gl, n, old(gl.enabled), old(gl.pointers))
      ensures gl.shaders == old(gl.shaders) + StagesLeft(VERTEX_SOURCE, FRAGMENT_SOURCE, old(gl.nextHandle) + 3, vertexDriver, fragmentDriver)
      ensures gl.trace == old(gl.trace) + WiringCalls(old(gl.nextHandle))
                          + NewCalls(VERTEX_SOURCE, FRAGMENT_SOURCE, DEFAULT_BINDINGS, old(gl.nextHandle) + 3, vertexDriver, fragmentDriver)
      ensures r.Err? ==>
                && r.error != AttributeStringMalformed
                && gl.programs == old(gl.programs) && gl.attached == old(gl.attached)
                && gl.linked == old(gl.linked) && gl.requestedLocations == old(gl.requestedLocations)
      ensures r.Ok? ==>
                var s, n := r.value, old(gl.nextHandle);
                && fresh(s)
                && s.positionsVbo == ArrayVbo(n) && s.colorsVbo == ArrayVbo(n + 1) && s.vao == Vao(n + 2)
                && s.shader == Shader(n + 5, n + 3, n + 4, VERTEX_SOURCE, FRAGMENT_SOURCE)
                && s.triangleColor == TriangleColor(draws.triangle)
                && s.bgColor == BackgroundColor(draws.background)
                && s.triangleRotation == 0.0 && s.rotationalSpeed == Speed(draws.speedUnit)
                && s.ColorsInRange()
                && gl.nextHandle == n + 6
                && gl.shaders == old(gl.shaders) + {n + 3, n + 4}
                && gl.programs == old(gl.programs) + {n + 5}
                && gl.attached == old(gl.attached) + {(n + 5, n + 3), (n + 5, n + 4)}
                && gl.linked == old(gl.linked)[n + 5 := map[]]
                && gl.requestedLocations == old(gl.requestedLocations)[n + 5 := map["position" := 0, "color" := 1]]
    {
      var positions, colors, vao := WireGeometry(gl);
      r := Complete(positions, colors, vao, draws, vertexDriver, fragmentDriver, gl);
    }

    /** The rest of `Scene::new` once the geometry exists: the default
        shader, then the struct literal and its `randomize`. */
    static method Complete(positions: ArrayVbo, colors: ArrayVbo, vao: Vao, draws: RandomDraws,
                           vertexDriver: CompileOutcome, fragmentDriver: CompileOutcome, gl: Gl)
      returns (r: Result<Scene, ShaderError>)
      requires gl.Valid()
      requires 0.0 <= draws.speedUnit < 1.0
      modifies gl`nextHandle, gl`shaders, gl`programs, gl`attached, gl`requestedLocations, gl`linked, gl`trace
      ensures gl.Valid()
      ensures r.Ok? <==> Compiles(VERTEX_SOURCE, vertexDriver) && Compiles(FRAGMENT_SOURCE, fragmentDriver)
      ensures var v := old(gl.nextHandle);
              && gl.shaders == old(gl.shaders) + StagesLeft(VERTEX_SOURCE, FRAGMENT_SOURCE, v, vertexDriver, fragmentDriver)
              && gl.trace == old(gl.trace) + NewCalls(VERTEX_SOURCE, FRAGMENT_SOURCE, DEFAULT_BINDINGS, v, vertexDriver, fragmentDriver)
      ensures r.Err? ==>
                && r.error != AttributeStringMalformed
                && gl.programs == old(gl.programs) && gl.attached == old(gl.attached)
                && gl.linked == old(gl.linked) && gl.requestedLocations == old(gl.requestedLocations)
      ensures r.Ok? ==>
                var s, v := r.value, old(gl.nextHandle);
                && fresh(s)
                && s.positionsVbo == positions && s.colorsVbo == colors && s.vao == vao
                && s.shader == Shader(v + 2, v, v + 1, VERTEX_SOURCE, FRAGMENT_SOURCE)
                && s.triangleColor == TriangleColor(draws.triangle)
                && s.bgColor == BackgroundColor(draws.background)
                && s.triangleRotation == 0.0 && s.rotationalSpeed == Speed(draws.speedUnit)
                && s.ColorsInRange()
                && gl.nextHandle == v + 3
                && gl.programs == old(gl.programs) + {v + 2}
                && gl.attached == old(gl.attached) + {(v + 2, v), (v + 2, v + 1)}
                && gl.linked == old(gl.linked)[v + 2 := map[]]
                && gl.requestedLocations == old(gl.requestedLocations)[v + 2 := map["position" := 0, "color" := 1]]
    {
      var made := NewDefaultShader(gl, vertexDriver, fragmentDriver);
      if made.Err? {
        return Err(made.error);
      }
      var s := Assemble(made.value, vao, positions, colors, draws);
      r := Ok(s);
    }

    /** The struct literal of `Scene::new` followed by its `randomize`. */
    static method Assemble(shader: Shader, vao: Vao, positionsVbo: ArrayVbo, colorsVbo: ArrayVbo, draws: RandomDraws)
      returns (s: Scene)
      requires 0.0 <= draws.speedUnit < 1.0
      ensures fresh(s)
      ensures s.shader == shader && s.vao == vao && s.positionsVbo == positionsVbo && s.colorsVbo == colorsVbo
      ensures s.triangleColor == TriangleColor(draws.triangle) && s.bgColor == BackgroundColor(draws.background)
      ensures s.triangleRotation == 0.0 && s.rotationalSpeed == Speed(draws.speedUnit)
      ensures s.ColorsInRange()
    {
      s := new Scene(shader, vao, positionsVbo, colorsVbo);
      s.Randomize(draws);
    }

    /** Redraws both colours and the speed; the rotation is kept. */
    method Randomize(draws: RandomDraws)
      requires 0.0 <= draws.speedUnit < 1.0
      modifies this`triangleColor, this`bgColor, this`rotationalSpeed
      ensures triangleColor == TriangleColor(draws.triangle)
      ensures bgColor == BackgroundColor(draws.background)
      ensures rotationalSpeed == Speed(draws.speedUnit)
      ensures ColorsInRange()
    {
      triangleColor := TriangleColor(draws.triangle);
      bgColor := BackgroundColor(draws.background);
      rotationalSpeed := Speed(draws.speedUnit);
    }

    /** Advances the rotation by the speed; nothing else changes. */
    method Update()
      modifies this`triangleRotation
      ensures triangleRotation == old(triangleRotation) + rotationalSpeed
      ensures bgColor == old(bgColor) && triangleColor == old(triangleColor)
      ensures rotationalSpeed == old(rotationalSpeed)
    {
      triangleRotation := triangleRotation + rotationalSpeed;
    }

    /** Draws one frame of triangle `t` (the corners the rotation places).
        `location` is the driver's answer to the uniform lookup; the lookup
        cannot fail, as the uniform's name holds no NUL. */
    method Render(t: Triangle, location: int, gl: Gl)
      requires gl.Valid()
      modifies gl`currentProgram, gl`vertexArray, gl`arrayBuffer, gl`bufferData, gl`trace
      ensures gl.Valid()
      ensures gl.trace == old(gl.trace) + FrameCalls(bgColor, shader.programHandle, vao.handle,
                                                     positionsVbo.handle, colorsVbo.handle,
                                                     PositionPayload(t), ColorPayload(triangleColor), location)
      ensures gl.bufferData == Replaced(Replaced(old(gl.bufferData), gl.buffers, positionsVbo.handle, PositionPayload(t)),
                                        gl.buffers, colorsVbo.handle, ColorPayload(triangleColor))
      ensures gl.currentProgram == 0 && gl.vertexArray == 0 && gl.arrayBuffer == colorsVbo.handle
    {
      BeginFrame(gl);
      UploadGeometry(t, gl);
      FinishFrame(t, location, gl);
    }

    /** Clears to the background colour, then binds the shader and the
        vertex array. */
    method BeginFrame(gl: Gl)
      requires gl.Valid()
      modifies gl`currentProgram, gl`vertexArray, gl`trace
      ensures gl.Valid()
      ensures gl.currentProgram == shader.programHandle && gl.vertexArray == vao.handle
      ensures gl.trace == old(gl.trace) + [ClearColor(bgColor), Clear(DEPTH_BUFFER_BIT + COLOR_BUFFER_BIT),
                                           UseProgram(shader.programHandle), BindVertexArray(vao.handle)]
    {
      gl.ClearColor(bgColor);
      gl.Clear(DEPTH_BUFFER_BIT + COLOR_BUFFER_BIT);
      shader.Bind(gl);
      vao.Bind(gl);
    }

    /** Streams the corners, then three copies of the triangle colour. */
    method UploadGeometry(t: Triangle, gl: Gl)
      requires gl.Valid()
      modifies gl`arrayBuffer, gl`bufferData, gl`trace
      ensures gl.Valid()
      ensures gl.arrayBuffer == colorsVbo.handle
      ensures gl.bufferData == Replaced(Replaced(old(gl.bufferData), gl.buffers, positionsVbo.handle, PositionPayload(t)),
                                        gl.buffers, colorsVbo.handle, ColorPayload(triangleColor))
      ensures gl.trace == old(gl.trace) + [BindBuffer(ARRAY_BUFFER, positionsVbo.handle),
                                           BufferData(ARRAY_BUFFER, PositionPayload(t), STREAM_DRAW),
                                           BindBuffer(ARRAY_BUFFER, colorsVbo.handle),
                                           BufferData(ARRAY_BUFFER, ColorPayload(triangleColor), STREAM_DRAW)]
    {
      positionsVbo.UploadVec(STREAM_DRAW, Corners(t), Vec3Bytes, 12, gl);
      colorsVbo.UploadVec(STREAM_DRAW, [triangleColor, triangleColor, triangleColor], ColorBytes, 4, gl);
    }

    /** Sets the projection, draws the three vertices, then unbinds the
        shader and the vertex array. */
    method FinishFrame(t: Triangle, location: int, gl: Gl)
      requires gl.Valid()
      modifies gl`currentProgram, gl`vertexArray, gl`trace
      ensures gl.Valid()
      ensures gl.currentProgram == 0 && gl.vertexArray == 0
      ensures gl.trace == old(gl.trace) + [GetUniformLocation(shader.programHandle, DEFAULT_PROJECTION_UNIFORM),
                                           UniformMatrix4fv(location, 1, false), DrawArrays(TRIANGLES, 0, 3),
                                           UseProgram(0), BindVertexArray(0)]
    {
      var found := gl.GetUniformLocation(shader.programHandle, DEFAULT_PROJECTION_UNIFORM, location);
      gl.UniformMatrix4fv(found, 1, false);
      gl.DrawArrays(TRIANGLES, 0, |Corners(t)|);
      Shader.Unbind(gl);
      Vao.Unbind(gl);
    }

    /** The drop glue of the struct: its fields in declaration order, each
        wrapper releasing its own handles. */
    method Drop(gl: Gl)
      requires gl.Valid()
      modifies gl`programs, gl`shaders, gl`vertexArrays, gl`vertexArray, gl`buffers, gl`bufferData,
               gl`arrayBuffer, gl`trace
      ensures gl.Valid()
      ensures gl.programs == old(gl.programs) - {shader.programHandle}
      ensures gl.shaders == old(gl.shaders) - {shader.vertexHandle, shader.fragmentHandle}
      ensures gl.vertexArrays == old(gl.vertexArrays) - {vao.handle}
      ensures gl.vertexArray == if old(gl.vertexArray) == vao.handle then 0 else old(gl.vertexArray)
      ensures gl.buffers == old(gl.buffers) - {positionsVbo.handle, colorsVbo.handle}
      ensures gl.arrayBuffer == if old(gl.arrayBuffer) in {positionsVbo.handle, colorsVbo.handle} then 0 else old(gl.arrayBuffer)
      ensures gl.bufferData == old(gl.bufferData) - {positionsVbo.handle, colorsVbo.handle}
      ensures gl.trace == old(gl.trace) + shader.DropCalls()
                          + [DeleteVertexArray(vao.handle), DeleteBuffer(positionsVbo.handle), DeleteBuffer(colorsVbo.handle)]
    {
      shader.Drop(gl);
      vao.Drop(gl);
      positionsVbo.Drop(gl);
      colorsVbo.Drop(gl);
    }
  }
}
