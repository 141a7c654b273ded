/** The OpenGL ES 3 context that every GPU wrapper of the renderer talks to,
    as an abstract state machine: the objects that are live, what is bound,
    the vertex-array attribute state, buffer contents, and the sequence of
    calls issued so far. Each entry point the core uses is one method here;
    it appends exactly one `Call` to `trace` and changes only the fields its
    `modifies` clause names. What the driver answers (compile status,
    info-log text, uniform locations) is passed in by the caller. */
module GlApi {

  /** An unsigned 8-bit value (`u8`, `GLubyte`). */
  type byte = x: int | 0 <= x < 0x100

  /** An unsigned 32-bit value (`u32`, `GLuint`, `GLenum`). */
  type u32 = x: int | 0 <= x < 0x1_0000_0000

  /** An object name handed out by the context; 0 stands for "no object". */
  type Handle = nat

  // Enumerants of the OpenGL ES 3.0 API that the core passes.
  const FALSE: int := 0
  const VERTEX_SHADER: u32 := 0x8B31
  const FRAGMENT_SHADER: u32 := 0x8B30
  const COMPILE_STATUS: u32 := 0x8B81
  const INFO_LOG_LENGTH: u32 := 0x8B84
  const ARRAY_BUFFER: u32 := 0x8892
  const STREAM_DRAW: u32 := 0x88E0
  const UNSIGNED_BYTE: u32 := 0x1401
  const UNSIGNED_SHORT: u32 := 0x1403
  const FLOAT: u32 := 0x1406
  const TRIANGLES: u32 := 0x0004
  const DEPTH_BUFFER_BIT: u32 := 0x0100
  const COLOR_BUFFER_BIT: u32 := 0x4000

  /** Rust's `x as u8` on an integer: keeps the low eight bits. */
  function AsU8(x: int): (b: byte)
    ensures 0 <= x < 0x100 ==> b == x
    ensures (x - b) % 0x100 == 0
  {
    x % 0x100
  }

  /** Rust's `x as i32` on a `u32`: values from 2^31 upwards wrap to negatives. */
  function U32AsI32(x: u32): (r: int)
    ensures -0x8000_0000 <= r < 0x8000_0000
    ensures r == x <==> x < 0x8000_0000
    ensures (x - r) % 0x1_0000_0000 == 0
  {
    if x < 0x8000_0000 then x else x - 0x1_0000_0000
  }

  function Min(a: int, b: int): int { if a < b then a else b }

  /** What glGetShaderInfoLog writes into a buffer of `bufSize` bytes: as much
      of the driver's log as fits while leaving room for the terminating NUL,
      then the NUL; nothing at all into an empty buffer. */
  function InfoLogWritten(log: seq<byte>, bufSize: nat): (w: seq<byte>)
    ensures |w| <= bufSize
    ensures bufSize == 0 <==> w == []
    ensures bufSize > 0 ==> |w| == Min(|log|, bufSize - 1) + 1 && w[|w| - 1] == 0
  {
    if bufSize == 0 then [] else log[..Min(|log|, bufSize - 1)] + [0]
  }

  /** Before its terminating NUL, the written text is the start of the log. */
  lemma InfoLogWrittenPrefix(log: seq<byte>, bufSize: nat)
    ensures forall i :: 0 <= i < |InfoLogWritten(log, bufSize)| - 1 ==> InfoLogWritten(log, bufSize)[i] == log[i]
  {
  }

  /** The attribute locations requested so far for program `p`; none when
      `p` has no entry. */
  function RequestedFor(m: map<Handle, map<string, u32>>, p: Handle): map<string, u32>
  {
    if p in m then m[p] else map[]
  }

  /** `m` with `name` now bound to location `index`. */
  function WithLocation(m: map<string, u32>, name: string, index: u32): map<string, u32>
  {
    m[name := index]
  }

  /** An RGBA colour with one byte per channel (`gl::Color`). */
  datatype Color = Color(r: byte, g: byte, b: byte, a: byte)

  /** What a vertex array records for one attribute slot when its pointer is
      configured: the buffer bound to ARRAY_BUFFER at that moment and the
      layout. `integer` marks the integer form (values reach the shader
      unconverted); otherwise the floating-point form converts them. */
  datatype AttribPointer = AttribPointer(
    buffer: Handle, size: int, dataType: u32, normalized: bool,
    integer: bool, stride: int, offset: nat)

  /** One issued GL call, as it appears in the context's trace. */
  datatype Call =
    | CreateShader(kind: u32, handle: Handle)
    | ShaderSource(shader: Handle, source: string)
    | CompileShader(shader: Handle)
    | GetShaderiv(shader: Handle, pname: u32)
    | GetShaderInfoLog(shader: Handle, bufSize: nat)
    | DeleteShader(shader: Handle)
    | CreateProgram(handle: Handle)
    | AttachShader(program: Handle, shader: Handle)
    | LinkProgram(program: Handle)
    | BindAttribLocation(program: Handle, index: u32, name: string)
    | UseProgram(program: Handle)
    | DeleteProgram(program: Handle)
    | GenVertexArray(handle: Handle)
    | BindVertexArray(vertexArray: Handle)
    | DeleteVertexArray(vertexArray: Handle)
    | GenBuffer(handle: Handle)
    | BindBuffer(target: u32, buffer: Handle)
    | BufferData(target: u32, data: seq<byte>, usage: u32)
    | DeleteBuffer(buffer: Handle)
    | EnableVertexAttribArray(index: u32)
    | VertexAttribPointer(index: u32, size: int, dataType: u32, normalized: bool, stride: int, offset: nat)
    | VertexAttribIPointer(index: u32, size: int, dataType: u32, stride: int, offset: nat)
    | ClearColor(color: Color)
    | Clear(mask: u32)
    | GetUniformLocation(program: Handle, name: string)
    | UniformMatrix4fv(location: int, count: nat, transpose: bool)
    | DrawArrays(mode: u32, first: int, vertexCount: int)

  /** Every name in `s` is one the context has handed out. */
  ghost predicate HandedOut(s: set<Handle>, next: Handle)
  {
    forall h :: h in s ==> 0 < h < next
  }

  class Gl {
    /** The next object name to hand out; names are never reused. */
    var nextHandle: Handle
    var shaders: set<Handle>
    var programs: set<Handle>
    var buffers: set<Handle>
    var vertexArrays: set<Handle>
    /** The program installed by UseProgram (0: none). */
    var currentProgram: Handle
    /** The buffer bound to ARRAY_BUFFER (0: none). */
    var arrayBuffer: Handle
    /** The bound vertex array (0: the default one). */
    var vertexArray: Handle
    /** Enabled attribute slots, as (vertex array, slot) pairs. */
    var enabled: set<(Handle, u32)>
    /** Configured attribute pointers, by (vertex array, slot). */
    var pointers: map<(Handle, u32), AttribPointer>
    /** The bytes held by each live buffer. */
    var bufferData: map<Handle, seq<byte>>
    /** Attached shaders, as (program, shader) pairs. */
    var attached: set<(Handle, Handle)>
    /** Per program, the attribute locations requested so far; they take
        effect at the program's next link. */
    var requestedLocations: map<Handle, map<string, u32>>
    /** Per program that has been linked, the attribute locations that were
        requested when it was last linked. */
    var linked: map<Handle, map<string, u32>>
    /** Every call issued, oldest first. */
    var trace: seq<Call>

    ghost function Live(): set<Handle>
      reads this`shaders, this`programs, this`buffers, this`vertexArrays
    {
      shaders + programs + buffers + vertexArrays
    }

    ghost predicate Valid()
      reads this`nextHandle, this`shaders, this`programs, this`buffers, this`vertexArrays
    {
      && 0 < nextHandle
      && HandedOut(shaders, nextHandle)
      && HandedOut(programs, nextHandle)
      && HandedOut(buffers, nextHandle)
      && HandedOut(vertexArrays, nextHandle)
    }

    /** A context in which nothing has been created, bound or issued. */
    constructor ()
      ensures Valid()
      ensures nextHandle == 1
      ensures shaders == programs == buffers == vertexArrays == {}
      ensures currentProgram == arrayBuffer == vertexArray == 0
      ensures enabled == {} && pointers == map[] && bufferData == map[]
      ensures attached == {} && requestedLocations == map[] && linked == map[]
      ensures trace == []
    {
      nextHandle := 1;
      shaders, programs, buffers, vertexArrays := {}, {}, {}, {};
      currentProgram, arrayBuffer, vertexArray := 0, 0, 0;
      enabled, pointers, bufferData := {}, map[], map[];
      attached, requestedLocations, linked := {}, map[], map[];
      trace := [];
    }

    method CreateShader(kind: u32) returns (h: Handle)
      requires Valid()
      modifies this`nextHandle, this`shaders, this`trace
      ensures Valid()
      ensures h == old(nextHandle) && nextHandle == h + 1 && 0 < h && h !in old(Live())
      ensures shaders == old(shaders) + {h}
      ensures trace == old(trace) + [Call.CreateShader(kind, h)]
    {
      h := nextHandle;
      nextHandle := nextHandle + 1;
      shaders := shaders + {h};
      trace := trace + [Call.CreateShader(kind, h)];
    }

    method ShaderSource(shader: Handle, source: string)
      requires Valid()
      modifies this`trace
      ensures Valid()
      ensures trace == old(trace) + [Call.ShaderSource(shader, source)]
    {
      trace := trace + [Call.ShaderSource(shader, source)];
    }

    method CompileShader(shader: Handle)
      requires Valid()
      modifies this`trace
      ensures Valid()
      ensures trace == old(trace) + [Call.CompileShader(shader)]
    {
      trace := trace + [Call.CompileShader(shader)];
    }

    /** Queries a shader parameter; `reported` is the driver's answer. */
    method GetShaderiv(shader: Handle, pname: u32, reported: int) returns (v: int)
      requires Valid()
      modifies this`trace
      ensures Valid()
      ensures v == reported
      ensures trace == old(trace) + [Call.GetShaderiv(shader, pname)]
    {
      v := reported;
      trace := trace + [Call.GetShaderiv(shader, pname)];
    }

    /** Reads the driver's info log `reported` into a buffer of `bufSize` bytes
        and returns the bytes written. */
    method GetShaderInfoLog(shader: Handle, bufSize: nat, reported: seq<byte>) returns (written: seq<byte>)
      requires Valid()
      modifies this`trace
      ensures Valid()
      ensures written == InfoLogWritten(reported, bufSize)
      ensures trace == old(trace) + [Call.GetShaderInfoLog(shader, bufSize)]
    {
      written := InfoLogWritten(reported, bufSize);
      trace := trace + [Call.GetShaderInfoLog(shader, bufSize)];
    }

    method DeleteShader(shader: Handle)
      requires Valid()
      modifies this`shaders, this`trace
      ensures Valid()
      ensures shaders == old(shaders) - {shader}
      ensures trace == old(trace) + [Call.DeleteShader(shader)]
    {
      shaders := shaders - {shader};
      trace := trace + [Call.DeleteShader(shader)];
    }

    method CreateProgram() returns (h: Handle)
      requires Valid()
      modifies this`nextHandle, this`programs, this`requestedLocations, this`trace
      ensures Valid()
      ensures h == old(nextHandle) && nextHandle == h + 1 && 0 < h && h !in old(Live())
      ensures programs == old(programs) + {h}
      ensures requestedLocations == old(requestedLocations)[h := map[]]
      ensures trace == old(trace) + [Call.CreateProgram(h)]
    {
      h := nextHandle;
      nextHandle := nextHandle + 1;
      programs := programs + {h};
      requestedLocations := requestedLocations[h := map[]];
      trace := trace + [Call.CreateProgram(h)];
    }

    /** Attaching takes effect only when both objects are live. */
    method AttachShader(program: Handle, shader: Handle)
      requires Valid()
      modifies this`attached, this`trace
      ensures Valid()
      ensures attached == if program in programs && shader in shaders
                          then old(attached) + {(program, shader)} else old(attached)
      ensures trace == old(trace) + [Call.AttachShader(program, shader)]
    {
      if program in programs && shader in shaders {
        attached := attached + {(program, shader)};
      }
      trace := trace + [Call.AttachShader(program, shader)];
    }

    /** Linking fixes the attribute locations requested so far. */
    method LinkProgram(program: Handle)
      requires Valid()
      modifies this`linked, this`trace
      ensures Valid()
      ensures linked == if program in programs
                        then old(linked)[program := RequestedFor(requestedLocations, program)] else old(linked)
      ensures trace == old(trace) + [Call.LinkProgram(program)]
    {
      if program in programs {
        linked := linked[program := RequestedFor(requestedLocations, program)];
      }
      trace := trace + [Call.LinkProgram(program)];
    }

    /** Requests a location for an attribute; it takes effect at the next link. */
    method BindAttribLocation(program: Handle, index: u32, name: string)
      requires Valid()
      modifies this`requestedLocations, this`trace
      ensures Valid()
      ensures requestedLocations ==
                if program in programs
                then old(requestedLocations)[program := WithLocation(RequestedFor(old(requestedLocations), program), name, index)]
                else old(requestedLocations)
      ensures trace == old(trace) + [Call.BindAttribLocation(program, index, name)]
    {
      if program in programs {
        requestedLocations := requestedLocations[program := WithLocation(RequestedFor(requestedLocations, program), name, index)];
      }
      trace := trace + [Call.BindAttribLocation(program, index, name)];
    }

    method UseProgram(program: Handle)
      requires Valid()
      modifies this`currentProgram, this`trace
      ensures Valid()
      ensures currentProgram == program
      ensures trace == old(trace) + [Call.UseProgram(program)]
    {
      currentProgram := program;
      trace := trace + [Call.UseProgram(program)];
    }

    method DeleteProgram(program: Handle)
      requires Valid()
      modifies this`programs, this`trace
      ensures Valid()
      ensures programs == old(programs) - {program}
      ensures trace == old(trace) + [Call.DeleteProgram(program)]
    {
      programs := programs - {program};
      trace := trace + [Call.DeleteProgram(program)];
    }

    method GenVertexArray() returns (h: Handle)
      requires Valid()
      modifies this`nextHandle, this`vertexArrays, this`trace
      ensures Valid()
      ensures h == old(nextHandle) && nextHandle == h + 1 && 0 < h && h !in old(Live())
      ensures vertexArrays == old(vertexArrays) + {h}
      ensures trace == old(trace) + [Call.GenVertexArray(h)]
    {
      h := nextHandle;
      nextHandle := nextHandle + 1;
      vertexArrays := vertexArrays + {h};
      trace := trace + [Call.GenVertexArray(h)];
    }

    method BindVertexArray(vertexArray': Handle)
      requires Valid()
      modifies this`vertexArray, this`trace
      ensures Valid()
      ensures vertexArray == vertexArray'
      ensures trace == old(trace) + [Call.BindVertexArray(vertexArray')]
    {
      vertexArray := vertexArray';
      trace := trace + [Call.BindVertexArray(vertexArray')];
    }

    /** Deleting the bound vertex array reverts the binding to 0. */
    method DeleteVertexArray(h: Handle)
      requires Valid()
      modifies this`vertexArrays, this`vertexArray, this`trace
      ensures Valid()
      ensures vertexArrays == old(vertexArrays) - {h}
      ensures vertexArray == if old(vertexArray) == h then 0 else old(vertexArray)
      ensures trace == old(trace) + [Call.DeleteVertexArray(h)]
    {
      vertexArrays := vertexArrays - {h};
      if vertexArray == h {
        vertexArray := 0;
      }
      trace := trace + [Call.DeleteVertexArray(h)];
    }

    /** A new buffer holds no bytes. */
    method GenBuffer() returns (h: Handle)
      requires Valid()
      modifies this`nextHandle, this`buffers, this`bufferData, this`trace
      ensures Valid()
      ensures h == old(nextHandle) && nextHandle == h + 1 && 0 < h && h !in old(Live())
      ensures buffers == old(buffers) + {h}
      ensures bufferData == old(bufferData)[h := []]
      ensures trace == old(trace) + [Call.GenBuffer(h)]
    {
      h := nextHandle;
      nextHandle := nextHandle + 1;
      buffers := buffers + {h};
      bufferData := bufferData[h := []];
      trace := trace + [Call.GenBuffer(h)];
    }

    /** Only the ARRAY_BUFFER binding point is modelled. */
    method BindBuffer(target: u32, buffer: Handle)
      requires Valid()
      modifies this`arrayBuffer, this`trace
      ensures Valid()
      ensures arrayBuffer == if target == ARRAY_BUFFER then buffer else old(arrayBuffer)
      ensures trace == old(trace) + [Call.BindBuffer(target, buffer)]
    {
      if target == ARRAY_BUFFER {
        arrayBuffer := buffer;
      }
      trace := trace + [Call.BindBuffer(target, buffer)];
    }

    /** Replaces the whole contents of the live buffer bound to `target`;
        with no live buffer bound the call has no effect. The usage hint
        does not change the contents. */
    method BufferData(target: u32, data: seq<byte>, usage: u32)
      requires Valid()
      modifies this`bufferData, this`trace
      ensures Valid()
      ensures bufferData == if target == ARRAY_BUFFER && arrayBuffer in buffers
                            then old(bufferData)[arrayBuffer := data] else old(bufferData)
      ensures trace == old(trace) + [Call.BufferData(target, data, usage)]
    {
      if target == ARRAY_BUFFER && arrayBuffer in buffers {
        bufferData := bufferData[arrayBuffer := data];
      }
      trace := trace + [Call.BufferData(target, data, usage)];
    }

    /** Deleting the bound buffer reverts the ARRAY_BUFFER binding to 0. */
    method DeleteBuffer(buffer: Handle)
      requires Valid()
      modifies this`buffers, this`bufferData, this`arrayBuffer, this`trace
      ensures Valid()
      ensures buffers == old(buffers) - {buffer}
      ensures bufferData == old(bufferData) - {buffer}
      ensures arrayBuffer == if old(arrayBuffer) == buffer then 0 else old(arrayBuffer)
      ensures trace == old(trace) + [Call.DeleteBuffer(buffer)]
    {
      buffers := buffers - {buffer};
      bufferData := bufferData - {buffer};
      if arrayBuffer == buffer {
        arrayBuffer := 0;
      }
      trace := trace + [Call.DeleteBuffer(buffer)];
    }

    /** Enables a slot of the bound vertex array. */
    method EnableVertexAttribArray(index: u32)
      requires Valid()
      modifies this`enabled, this`trace
      ensures Valid()
      ensures enabled == old(enabled) + {(vertexArray, index)}
      ensures trace == old(trace) + [Call.EnableVertexAttribArray(index)]
    {
      enabled := enabled + {(vertexArray, index)};
      trace := trace + [Call.EnableVertexAttribArray(index)];
    }

    /** Configures a slot of the bound vertex array in the floating-point
        form, sourcing it from the buffer bound to ARRAY_BUFFER. */
    method VertexAttribPointer(index: u32, size: int, dataType: u32, normalized: bool, stride: int, offset: nat)
      requires Valid()
      modifies this`pointers, this`trace
      ensures Valid()
      ensures pointers == old(pointers)[(vertexArray, index) :=
                AttribPointer(arrayBuffer, size, dataType, normalized, false, stride, offset)]
      ensures trace == old(trace) + [Call.VertexAttribPointer(index, size, dataType, normalized, stride, offset)]
    {
      pointers := pointers[(vertexArray, index) :=
        AttribPointer(arrayBuffer, size, dataType, normalized, false, stride, offset)];
      trace := trace + [Call.VertexAttribPointer(index, size, dataType, normalized, stride, offset)];
    }

    /** Configures a slot of the bound vertex array in the integer form. */
    method VertexAttribIPointer(index: u32, size: int, dataType: u32, stride: int, offset: nat)
      requires Valid()
      modifies this`pointers, this`trace
      ensures Valid()
      ensures pointers == old(pointers)[(vertexArray, index) :=
                AttribPointer(arrayBuffer, size, dataType, false, true, stride, offset)]
      ensures trace == old(trace) + [Call.VertexAttribIPointer(index, size, dataType, stride, offset)]
    {
      pointers := pointers[(vertexArray, index) :=
        AttribPointer(arrayBuffer, size, dataType, false, true, stride, offset)];
      trace := trace + [Call.VertexAttribIPointer(index, size, dataType, stride, offset)];
    }

    method ClearColor(color: Color)
      requires Valid()
      modifies this`trace
      ensures Valid()
      ensures trace == old(trace) + [Call.ClearColor(color)]
    {
      trace := trace + [Call.ClearColor(color)];
    }

    method Clear(mask: u32)
      requires Valid()
      modifies this`trace
      ensures Valid()
      ensures trace == old(trace) + [Call.Clear(mask)]
    {
      trace := trace + [Call.Clear(mask)];
    }

    /** Looks up a uniform; `reported` is the driver's answer. */
    method GetUniformLocation(program: Handle, name: string, reported: int) returns (location: int)
      requires Valid()
      modifies this`trace
      ensures Valid()
      ensures location == reported
      ensures trace == old(trace) + [Call.GetUniformLocation(program, name)]
    {
      location := reported;
      trace := trace + [Call.GetUniformLocation(program, name)];
    }

    method UniformMatrix4fv(location: int, count: nat, transpose: bool)
      requires Valid()
      modifies this`trace
      ensures Valid()
      ensures trace == old(trace) + [Call.UniformMatrix4fv(location, count, transpose)]
    {
      trace := trace + [Call.UniformMatrix4fv(location, count, transpose)];
    }

    method DrawArrays(mode: u32, first: int, vertexCount: int)
      requires Valid()
      modifies this`trace
      ensures Valid()
      ensures trace == old(trace) + [Call.DrawArrays(mode, first, vertexCount)]
    {
      trace := trace + [Call.DrawArrays(mode, first, vertexCount)];
    }
  }
}
