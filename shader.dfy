/** Shader programs (`Shader` of src/gl/shader.rs): compiling a vertex and a
    fragment stage, linking them into a program, requesting attribute
    locations, installing the program, and releasing its three handles.
    The driver's verdicts on compilation are parameters (`CompileOutcome`). */
module Shaders {
  import opened GlApi
  import opened Wrappers

  /** `CString::new` refuses a string holding a NUL character. */
  predicate HasNul(s: string)
  {
    exists i :: 0 <= i < |s| && s[i] == '\0'
  }

  /** An attribute name and the location requested for it. */
  datatype AttributeBinding = AttributeBinding(name: string, index: u32)

  /** The five ways `Shader::new` fails; a compilation failure carries the
      driver's info log. */
  datatype ShaderError =
    | VertexSourceMalformed
    | FragmentSourceMalformed
    | AttributeStringMalformed
    | VertexShaderCompilationFailed(log: string)
    | FragmentShaderCompilationFailed(log: string)

  /** What the driver answers about one compilation: the COMPILE_STATUS value,
      the INFO_LOG_LENGTH value and the text of the info log. */
  datatype CompileOutcome = CompileOutcome(status: int, infoLogLength: nat, infoLog: seq<byte>)

  /** The status test `success as u8 == FALSE`: only the low byte counts. */
  predicate CompileFailed(status: int)
  {
    AsU8(status) == FALSE
  }

  /** A stage gets past every check of `Shader::new`: its source has no NUL
      and the driver reports success. */
  predicate Compiles(source: string, driver: CompileOutcome)
  {
    !HasNul(source) && !CompileFailed(driver.status)
  }

  /** The error log `Shader::new` builds: a buffer of INFO_LOG_LENGTH zero
      bytes into which the driver wrote `written`, each byte read as the
      character with that code. */
  function LogText(written: seq<byte>, logSize: nat): (log: string)
    requires |written| <= logSize
    ensures |log| == logSize
  {
    seq(logSize, i requires 0 <= i < logSize => if i < |written| then written[i] as char else '\0')
  }

  /** The log starts with the written bytes and is padded with NULs. */
  lemma LogTextContents(written: seq<byte>, logSize: nat)
    requires |written| <= logSize
    ensures forall i :: 0 <= i < |written| ==> LogText(written, logSize)[i] as int == written[i]
    ensures forall i :: |written| <= i < logSize ==> LogText(written, logSize)[i] == '\0'
  {
  }

  /** The log of a failed compilation, as the driver's answers determine it. */
  function CompileLog(driver: CompileOutcome): string
  {
    LogText(InfoLogWritten(driver.infoLog, driver.infoLogLength), driver.infoLogLength)
  }

  /** The error log has exactly INFO_LOG_LENGTH characters: the driver's text
      as far as it fits before the terminating NUL, then NULs. */
  lemma CompileLogShape(driver: CompileOutcome)
    ensures |CompileLog(driver)| == driver.infoLogLength
    ensures forall i :: 0 <= i < Min(|driver.infoLog|, driver.infoLogLength - 1) ==>
              CompileLog(driver)[i] as int == driver.infoLog[i]
    ensures forall i :: 0 <= i < driver.infoLogLength && Min(|driver.infoLog|, driver.infoLogLength - 1) <= i ==>
              CompileLog(driver)[i] == '\0'
  {
    var w := InfoLogWritten(driver.infoLog, driver.infoLogLength);
    InfoLogWrittenPrefix(driver.infoLog, driver.infoLogLength);
    LogTextContents(w, driver.infoLogLength);
    if driver.infoLogLength > 0 {
      assert |w| - 1 == Min(|driver.infoLog|, driver.infoLogLength - 1);
      assert w[|w| - 1] == 0;
    }
  }

  /** The position of the first binding whose name has a NUL, or the length
      of the list when there is none. */
  function FirstMalformed(bindings: seq<AttributeBinding>): (k: nat)
    ensures k <= |bindings|
  {
    if bindings == [] then 0
    else if HasNul(bindings[0].name) then 0
    else 1 + FirstMalformed(bindings[1..])
  }

  /** Every name before the first malformed one passes the NUL check, and
      the one at that position fails it. */
  lemma {:induction false} FirstMalformedSpec(bindings: seq<AttributeBinding>)
    ensures forall i :: 0 <= i < FirstMalformed(bindings) ==> !HasNul(bindings[i].name)
    ensures FirstMalformed(bindings) < |bindings| ==> HasNul(bindings[FirstMalformed(bindings)].name)
  {
    if bindings != [] && !HasNul(bindings[0].name) {
      FirstMalformedSpec(bindings[1..]);
    }
  }

  /** No name in the list has a NUL. */
  predicate AllWellFormed(bindings: seq<AttributeBinding>)
  {
    forall i :: 0 <= i < |bindings| ==> !HasNul(bindings[i].name)
  }

  /** A position up to which every name passes the NUL check, and at which
      the list ends or holds a name that fails it, is `FirstMalformed`. */
  lemma {:induction false} FirstMalformedAt(bindings: seq<AttributeBinding>, i: nat)
    requires i <= |bindings| && AllWellFormed(bindings[..i])
    requires i < |bindings| ==> HasNul(bindings[i].name)
    ensures FirstMalformed(bindings) == i
  {
    if i > 0 {
      assert bindings[1..][..i - 1] == bindings[..i][1..];
      FirstMalformedAt(bindings[1..], i - 1);
    }
  }

  /** The locations requested after `m`, binding by binding. */
  function Bound(m: map<string, u32>, bindings: seq<AttributeBinding>): map<string, u32>
  {
    if bindings == [] then m
    else
      var last := bindings[|bindings| - 1];
      WithLocation(Bound(m, bindings[..|bindings| - 1]), last.name, last.index)
  }

  /** No later binding names the attribute of binding `i`. */
  predicate LastForName(bindings: seq<AttributeBinding>, i: nat)
    requires i < |bindings|
  {
    forall j :: i < j < |bindings| ==> bindings[j].name != bindings[i].name
  }

  /** Each named attribute ends at the location of the last binding naming
      it; an attribute no binding names keeps its location. */
  lemma {:induction false} BoundLastWins(m: map<string, u32>, bindings: seq<AttributeBinding>)
    ensures forall i :: 0 <= i < |bindings| ==> bindings[i].name in Bound(m, bindings)
    ensures forall i :: 0 <= i < |bindings| && LastForName(bindings, i) ==>
              Bound(m, bindings)[bindings[i].name] == bindings[i].index
    ensures forall n :: n in m && (forall i :: 0 <= i < |bindings| ==> bindings[i].name != n) ==>
              n in Bound(m, bindings) && Bound(m, bindings)[n] == m[n]
  {
    if bindings != [] {
      var init := bindings[..|bindings| - 1];
      assert forall i :: 0 <= i < |init| ==> init[i] == bindings[i];
      BoundLastWins(m, init);
    }
  }

  /** Requesting at least one location changes the requested set, so an
      empty set of locations fixed at link time is not what was requested. */
  lemma RequestedDiffersFromNone(bindings: seq<AttributeBinding>)
    requires |bindings| > 0
    ensures Bound(map[], bindings) != map[]
  {
    BoundLastWins(map[], bindings);
    assert bindings[0].name in Bound(map[], bindings);
  }

  /** The calls that compile one stage up to the status query. */
  function StageCalls(kind: u32, h: Handle, source: string): seq<Call>
  {
    [CreateShader(kind, h), ShaderSource(h, source), CompileShader(h), GetShaderiv(h, COMPILE_STATUS)]
  }

  /** The calls that read the info log of a failed stage. */
  function LogCalls(h: Handle, driver: CompileOutcome): seq<Call>
  {
    [GetShaderiv(h, INFO_LOG_LENGTH), GetShaderInfoLog(h, driver.infoLogLength)]
  }

  /** The calls that assemble the program: attach both stages, then link. */
  function ProgramCalls(p: Handle, v: Handle, f: Handle): seq<Call>
  {
    [CreateProgram(p), AttachShader(p, v), AttachShader(p, f), LinkProgram(p)]
  }

  /** One BindAttribLocation call per binding, in list order. */
  function BindCalls(p: Handle, bindings: seq<AttributeBinding>): seq<Call>
  {
    if bindings == [] then []
    else
      var last := bindings[|bindings| - 1];
      BindCalls(p, bindings[..|bindings| - 1]) + [BindAttribLocation(p, last.index, last.name)]
  }

  /** The i-th location request is for the i-th binding, one per binding. */
  lemma {:induction false} BindCallsInOrder(p: Handle, bindings: seq<AttributeBinding>)
    ensures |BindCalls(p, bindings)| == |bindings|
    ensures forall i :: 0 <= i < |bindings| ==>
              BindCalls(p, bindings)[i] == BindAttribLocation(p, bindings[i].index, bindings[i].name)
  {
    if bindings != [] {
      var init := bindings[..|bindings| - 1];
      BindCallsInOrder(p, init);
      assert forall i :: 0 <= i < |init| ==> init[i] == bindings[i];
    }
  }

  /** The shader objects `Shader::new` leaves live when its first handle is
      `v`: a compilation failure releases every stage, a NUL in a source
      leaves the stages created so far. */
  function StagesLeft(vertexSource: string, fragmentSource: string, v: Handle,
                      vertexDriver: CompileOutcome, fragmentDriver: CompileOutcome): set<Handle>
  {
    if HasNul(vertexSource) then {v}
    else if CompileFailed(vertexDriver.status) then {}
    else if HasNul(fragmentSource) then {v, v + 1}
    else if CompileFailed(fragmentDriver.status) then {}
    else {v, v + 1}
  }

  /** The calls `Shader::new` issues when its first handle is `v`, at each
      of its exits. */
  function NewCalls(vertexSource: string, fragmentSource: string, bindings: seq<AttributeBinding>, v: Handle,
                    vertexDriver: CompileOutcome, fragmentDriver: CompileOutcome): seq<Call>
  {
    if HasNul(vertexSource) then [CreateShader(VERTEX_SHADER, v)]
    else if CompileFailed(vertexDriver.status) then
      StageCalls(VERTEX_SHADER, v, vertexSource) + LogCalls(v, vertexDriver) + [DeleteShader(v)]
    else StageCalls(VERTEX_SHADER, v, vertexSource) + FragmentOnwardCalls(fragmentSource, bindings, v, v + 1, fragmentDriver)
  }

  /** The calls `Shader::new` issues from the fragment stage on, with the
      compiled vertex stage `v` and the fragment stage created as `f`. */
  function FragmentOnwardCalls(fragmentSource: string, bindings: seq<AttributeBinding>, v: Handle, f: Handle,
                               fragmentDriver: CompileOutcome): seq<Call>
  {
    if HasNul(fragmentSource) then [CreateShader(FRAGMENT_SHADER, f)]
    else if CompileFailed(fragmentDriver.status) then
      StageCalls(FRAGMENT_SHADER, f, fragmentSource) + LogCalls(f, fragmentDriver) + [DeleteShader(v), DeleteShader(f)]
    else
      StageCalls(FRAGMENT_SHADER, f, fragmentSource) + ProgramCalls(f + 1, v, f)
      + BindCalls(f + 1, bindings[..FirstMalformed(bindings)])
  }

  /** Appending `b` then `c` is appending `b + c`. */
  lemma AppendAssociative<T>(a: seq<T>, b: seq<T>, c: seq<T>)
    ensures a + b + c == a + (b + c)
  {
  }

  /** How far one stage got. */
  datatype StageOutcome = SourceMalformed | CompilationFailed(log: string) | Compiled

  /** A compiled and linked program; it owns the three handles. */
  datatype Shader = Shader(
    programHandle: Handle, vertexHandle: Handle, fragmentHandle: Handle,
    vertexSource: string, fragmentSource: string)
  {
    /** One stage of `Shader::new`: create the shader object, convert the
        source (failing on a NUL, with the object already created), upload,
        compile and query the status; on failure, read the info log. */
    static method CompileStage(kind: u32, source: string, driver: CompileOutcome, gl: Gl)
      returns (h: Handle, outcome: StageOutcome)
      requires gl.Valid()
      modifies gl`nextHandle, gl`shaders, gl`trace
      ensures gl.Valid()
      ensures h == old(gl.nextHandle) && gl.nextHandle == h + 1 && 0 < h && h !in old(gl.Live())
      ensures gl.shaders == old(gl.shaders) + {h}
      ensures outcome == SourceMalformed <==> HasNul(source)
      ensures HasNul(source) ==> gl.trace == old(gl.trace) + [CreateShader(kind, h)]
      ensures !HasNul(source) && CompileFailed(driver.status) ==>
                && outcome == CompilationFailed(CompileLog(driver))
                && gl.trace == old(gl.trace) + StageCalls(kind, h, source) + LogCalls(h, driver)
      ensures Compiles(source, driver) ==>
                outcome == Compiled && gl.trace == old(gl.trace) + StageCalls(kind, h, source)
    {
      h := gl.CreateShader(kind);
      if HasNul(source) {
        return h, SourceMalformed;
      }
      gl.ShaderSource(h, source);
      gl.CompileShader(h);
      var success := gl.GetShaderiv(h, COMPILE_STATUS, driver.status);
      if AsU8(success) == FALSE {
        var logSize := gl.GetShaderiv(h, INFO_LOG_LENGTH, driver.infoLogLength);
        var written := gl.GetShaderInfoLog(h, logSize, driver.infoLog);
        return h, CompilationFailed(LogText(written, logSize));
      }
      outcome := Compiled;
    }

    /** The loop over the attribute bindings of `Shader::new`, run after the
        link: each binding's name is converted (stopping at the first NUL)
        and its location requested. Returns how many were requested. */
    static method BindAttributes(program: Handle, bindings: seq<AttributeBinding>, gl: Gl) returns (k: nat)
      requires program in gl.programs && program in gl.requestedLocations
      requires gl.Valid()
      modifies gl`requestedLocations, gl`trace
      ensures gl.Valid()
      ensures k == FirstMalformed(bindings)
      ensures gl.requestedLocations ==
                old(gl.requestedLocations)[program := Bound(RequestedFor(old(gl.requestedLocations), program), bindings[..k])]
      ensures gl.trace == old(gl.trace) + BindCalls(program, bindings[..k])
    {
      k := 0;
      while k < |bindings|
        invariant k <= |bindings| && AllWellFormed(bindings[..k])
        invariant gl.requestedLocations ==
                    old(gl.requestedLocations)[program := Bound(RequestedFor(old(gl.requestedLocations), program), bindings[..k])]
        invariant gl.trace == old(gl.trace) + BindCalls(program, bindings[..k])
      {
        var binding := bindings[k];
        if HasNul(binding.name) {
          FirstMalformedAt(bindings, k);
          return;
        }
        gl.BindAttribLocation(program, binding.index, binding.name);
        assert bindings[..k + 1][..k] == bindings[..k];
        k := k + 1;
      }
      FirstMalformedAt(bindings, k);
    }

    /** `Shader::new`. Vertex errors win over fragment errors. A compilation
        failure releases every shader created so far; a NUL in a source or in
        an attribute name returns with the objects created so far still
        live. Attribute locations are requested only after the link. */
    static method New(vertexSource: string, fragmentSource: string, bindings: seq<AttributeBinding>, gl: Gl,
                      vertexDriver: CompileOutcome, fragmentDriver: CompileOutcome)
      returns (r: Result<Shader, ShaderError>)
      requires gl.Valid()
      modifies gl`nextHandle, gl`shaders, gl`programs, gl`attached, gl`requestedLocations, gl`linked, gl`trace
      ensures gl.Valid()
      ensures gl.shaders == old(gl.shaders) + StagesLeft(vertexSource, fragmentSource, old(gl.nextHandle), vertexDriver, fragmentDriver)
      ensures gl.trace == old(gl.trace) + NewCalls(vertexSource, fragmentSource, bindings, old(gl.nextHandle), vertexDriver, fragmentDriver)
      ensures !Compiles(vertexSource, vertexDriver) || !Compiles(fragmentSource, fragmentDriver) ==>
                && gl.programs == old(gl.programs) && gl.attached == old(gl.attached)
                && gl.linked == old(gl.linked) && gl.requestedLocations == old(gl.requestedLocations)
      ensures HasNul(vertexSource) ==>
                r == Err(VertexSourceMalformed) && gl.nextHandle == old(gl.nextHandle) + 1
      ensures !HasNul(vertexSource) && CompileFailed(vertexDriver.status) ==>
                && r == Err(VertexShaderCompilationFailed(CompileLog(vertexDriver)))
                && gl.nextHandle == old(gl.nextHandle) + 1
      ensures Compiles(vertexSource, vertexDriver) && HasNul(fragmentSource) ==>
                r == Err(FragmentSourceMalformed) && gl.nextHandle == old(gl.nextHandle) + 2
      ensures Compiles(vertexSource, vertexDriver) && !HasNul(fragmentSource) && CompileFailed(fragmentDriver.status) ==>
                && r == Err(FragmentShaderCompilationFailed(CompileLog(fragmentDriver)))
                && gl.nextHandle == old(gl.nextHandle) + 2
      ensures Compiles(vertexSource, vertexDriver) && Compiles(fragmentSource, fragmentDriver) ==>
                var v, f, p, k := old(gl.nextHandle), old(gl.nextHandle) + 1, old(gl.nextHandle) + 2, FirstMalformed(bindings);
                && {v, f, p} !! old(gl.Live())
                && gl.nextHandle == p + 1
                && gl.programs == old(gl.programs) + {p}
                && gl.attached == old(gl.attached) + {(p, v), (p, f)}
                && gl.linked == old(gl.linked)[p := map[]]
                && gl.requestedLocations == old(gl.requestedLocations)[p := Bound(map[], bindings[..k])]
                && (r.Ok? <==> k == |bindings|)
                && (r.Ok? ==> r.value == Shader(p, v, f, vertexSource, fragmentSource))
                && (r.Err? ==> r.error == AttributeStringMalformed)
    {
      ghost var before := gl.trace;
      var v, vertexStage := CompileStage(VERTEX_SHADER, vertexSource, vertexDriver, gl);
      if vertexStage == SourceMalformed {
        return Err(VertexSourceMalformed);
      } else if vertexStage.CompilationFailed? {
        gl.DeleteShader(v);
        AppendAssociative(before, StageCalls(VERTEX_SHADER, v, vertexSource), LogCalls(v, vertexDriver));
        AppendAssociative(before, StageCalls(VERTEX_SHADER, v, vertexSource) + LogCalls(v, vertexDriver), [DeleteShader(v)]);
        return Err(VertexShaderCompilationFailed(vertexStage.log));
      }
      r := FromFragmentStage(v, vertexSource, fragmentSource, bindings, fragmentDriver, gl);
      AppendAssociative(before, StageCalls(VERTEX_SHADER, v, vertexSource),
                        FragmentOnwardCalls(fragmentSource, bindings, v, v + 1, fragmentDriver));
    }

    /** `Shader::new` from the fragment stage on, once the vertex stage `v`
        compiled: compile the fragment stage (releasing both stages when it
        fails), then assemble the program and request the locations. */
    static method FromFragmentStage(v: Handle, vertexSource: string, fragmentSource: string,
                                    bindings: seq<AttributeBinding>, fragmentDriver: CompileOutcome, gl: Gl)
      returns (r: Result<Shader, ShaderError>)
      requires gl.Valid()
      requires v in gl.shaders
      modifies gl`nextHandle, gl`shaders, gl`programs, gl`attached, gl`requestedLocations, gl`linked, gl`trace
      ensures gl.Valid()
      ensures var f := old(gl.nextHandle);
              && gl.shaders == (if HasNul(fragmentSource) || !CompileFailed(fragmentDriver.status)
                                then old(gl.shaders) + {f} else old(gl.shaders) - {v})
              && gl.trace == old(gl.trace) + FragmentOnwardCalls(fragmentSource, bindings, v, f, fragmentDriver)
      ensures HasNul(fragmentSource) ==>
                r == Err(FragmentSourceMalformed) && gl.nextHandle == old(gl.nextHandle) + 1
      ensures !HasNul(fragmentSource) && CompileFailed(fragmentDriver.status) ==>
                && r == Err(FragmentShaderCompilationFailed(CompileLog(fragmentDriver)))
                && gl.nextHandle == old(gl.nextHandle) + 1
      ensures !Compiles(fragmentSource, fragmentDriver) ==>
                && gl.programs == old(gl.programs) && gl.attached == old(gl.attached)
                && gl.linked == old(gl.linked) && gl.requestedLocations == old(gl.requestedLocations)
      ensures Compiles(fragmentSource, fragmentDriver) ==>
                var f, p, k := old(gl.nextHandle), old(gl.nextHandle) + 1, FirstMalformed(bindings);
                && {f, p} !! old(gl.Live())
                && gl.nextHandle == p + 1
                && gl.programs == old(gl.programs) + {p}
                && gl.attached == old(gl.attached) + {(p, v), (p, f)}
                && gl.linked == old(gl.linked)[p := map[]]
                && gl.requestedLocations == old(gl.requestedLocations)[p := Bound(map[], bindings[..k])]
                && (r.Ok? <==> k == |bindings|)
                && (r.Ok? ==> r.value == Shader(p, v, f, vertexSource, fragmentSource))
                && (r.Err? ==> r.error == AttributeStringMalformed)
    {
      ghost var live, before := gl.Live(), gl.trace;
      var f, fragmentStage := CompileStage(FRAGMENT_SHADER, fragmentSource, fragmentDriver, gl);
      if fragmentStage == SourceMalformed {
        return Err(FragmentSourceMalformed);
      } else if fragmentStage.CompilationFailed? {
        gl.DeleteShader(v);
        gl.DeleteShader(f);
        ghost var stage := StageCalls(FRAGMENT_SHADER, f, fragmentSource) + LogCalls(f, fragmentDriver);
        AppendAssociative(before, StageCalls(FRAGMENT_SHADER, f, fragmentSource), LogCalls(f, fragmentDriver));
        AppendAssociative(before + stage, [DeleteShader(v)], [DeleteShader(f)]);
        AppendAssociative(before, stage, [DeleteShader(v), DeleteShader(f)]);
        return Err(FragmentShaderCompilationFailed(fragmentStage.log));
      }
      var p, k := AssembleProgram(v, f, bindings, gl);
      ghost var stage := StageCalls(FRAGMENT_SHADER, f, fragmentSource);
      AppendAssociative(before + stage, ProgramCalls(p, v, f), BindCalls(p, bindings[..k]));
      AppendAssociative(before, stage, ProgramCalls(p, v, f) + BindCalls(p, bindings[..k]));
      AppendAssociative(stage, ProgramCalls(p, v, f), BindCalls(p, bindings[..k]));
      assert {f, p} !! live;
      if k < |bindings| {
        return Err(AttributeStringMalformed);
      }
      r := Ok(Shader(p, v, f, vertexSource, fragmentSource));
    }

    /** The tail of `Shader::new` once both stages compiled: create the
        program, attach both stages, link, then request the attribute
        locations. Returns the program and how many locations were requested. */
    static method AssembleProgram(v: Handle, f: Handle, bindings: seq<AttributeBinding>, gl: Gl)
      returns (p: Handle, k: nat)
      requires gl.Valid()
      requires v in gl.shaders && f in gl.shaders
      modifies gl`nextHandle, gl`programs, gl`attached, gl`requestedLocations, gl`linked, gl`trace
      ensures gl.Valid()
      ensures p == old(gl.nextHandle) && gl.nextHandle == p + 1 && 0 < p && p !in old(gl.Live())
      ensures k == FirstMalformed(bindings)
      ensures gl.programs == old(gl.programs) + {p}
      ensures gl.attached == old(gl.attached) + {(p, v), (p, f)}
      ensures gl.linked == old(gl.linked)[p := map[]]
      ensures gl.requestedLocations == old(gl.requestedLocations)[p := Bound(map[], bindings[..k])]
      ensures gl.trace == old(gl.trace) + ProgramCalls(p, v, f) + BindCalls(p, bindings[..k])
    {
      p := gl.CreateProgram();
      gl.AttachShader(p, v);
      gl.AttachShader(p, f);
      gl.LinkProgram(p);
      assert gl.trace == old(gl.trace) + ProgramCalls(p, v, f);
      ghost var requested := gl.requestedLocations;
      k := BindAttributes(p, bindings, gl);
      assert requested[p := Bound(map[], bindings[..k])] == old(gl.requestedLocations)[p := Bound(map[], bindings[..k])];
    }

    /** Installs this program. */
    method Bind(gl: Gl)
      requires gl.Valid()
      modifies gl`currentProgram, gl`trace
      ensures gl.Valid()
      ensures gl.currentProgram == programHandle
      ensures gl.trace == old(gl.trace) + [UseProgram(programHandle)]
    {
      gl.UseProgram(programHandle);
    }

    /** Installs no program. */
    static method Unbind(gl: Gl)
      requires gl.Valid()
      modifies gl`currentProgram, gl`trace
      ensures gl.Valid()
      ensures gl.currentProgram == 0
      ensures gl.trace == old(gl.trace) + [UseProgram(0)]
    {
      gl.UseProgram(0);
    }

    /** The calls `Drop` issues: the program, then the two stages. */
    function DropCalls(): seq<Call>
    {
      [DeleteProgram(programHandle), DeleteShader(vertexHandle), DeleteShader(fragmentHandle)]
    }

    /** Releases the program and both shader handles. */
    method Drop(gl: Gl)
      requires gl.Valid()
      modifies gl`programs, gl`shaders, gl`trace
      ensures gl.Valid()
      ensures gl.programs == old(gl.programs) - {programHandle}
      ensures gl.shaders == old(gl.shaders) - {vertexHandle, fragmentHandle}
      ensures gl.trace == old(gl.trace) + DropCalls()
    {
      gl.DeleteProgram(programHandle);
      gl.DeleteShader(vertexHandle);
      gl.DeleteShader(fragmentHandle);
    }
  }

  /** For a shader whose stages are distinct objects, dropping it deletes the
      program once and each stage once. */
  lemma DropDeletesEachOnce(s: Shader)
    requires s.vertexHandle != s.fragmentHandle
    ensures multiset(s.DropCalls())[DeleteProgram(s.programHandle)] == 1
    ensures multiset(s.DropCalls())[DeleteShader(s.vertexHandle)] == 1
    ensures multiset(s.DropCalls())[DeleteShader(s.fragmentHandle)] == 1
  {
  }

  // The default program: position and colour pass through a view-projection
  // transform.
  /** The GLSL text of the default vertex stage. */
  const VERTEX_SOURCE: string :=
    "#version 300 es\n"
    + "\n"
    + "layout(location=0) in vec4 position;"
    + " //will be compatible with vec2 "
    + "and vec3 attributes. "
    + "extended to vec4: (0, 0, 0, 1) "
    + "for missing components\n"
    + "layout(location=1) in vec4 color;\n"
    + "\n"
    + "uniform mat4 view_projection;\n"
    + "\n"
    + "out vec4 v_color;\n"
    + "\n"
    + "void main()\n"
    + "{\n"
    + "    gl_Position = "
    + "view_projection * position;\n"
    + "    v_color = color;\n"
    + "}\n"

  /** The GLSL text of the default fragment stage. */
  const FRAGMENT_SOURCE: string :=
    "#version 300 es\n"
    + "\n"
    + "precision mediump float;\n"
    + "\n"
    + "in vec4 v_color;\n"
    + "\n"
    + "out vec4 out_color;\n"
    + "\n"
    + "void main()\n"
    + "{\n"
    + "    out_color = v_color;\n"
    + "}\n"

  // ---------------------------------------------------------------------
  // Neither GLSL text holds a NUL. Deciding that on a long literal is too
  // much for one proof, so each text is cut into the pieces it is written
  // in, a few pieces are checked per lemma, and the pieces are joined back.

  /** Joining two texts free of NULs gives a text free of NULs. */
  lemma JoinNulFree(a: string, b: string)
    requires !HasNul(a) && !HasNul(b)
    ensures !HasNul(a + b)
  {
    forall i | 0 <= i < |a + b| ensures (a + b)[i] != '\0' {
      if i < |a| {
        assert (a + b)[i] == a[i];
      } else {
        assert (a + b)[i] == b[i - |a|];
      }
    }
  }

  const VERTEX_PIECES: seq<string> := [
      "#version 300 es\n",
      "\n",
      "layout(location=0) in vec4 position;",
      " //will be compatible with vec2 ",
      "and vec3 attributes. ",
      "extended to vec4: (0, 0, 0, 1) ",
      "for missing components\n",
      "layout(location=1) in vec4 color;\n",
      "\n",
      "uniform mat4 view_projection;\n",
      "\n",
      "out vec4 v_color;\n",
      "\n",
      "void main()\n",
      "{\n",
      "    gl_Position = ",
      "view_projection * position;\n",
      "    v_color = color;\n",
      "}\n"
    ]

  const FRAGMENT_PIECES: seq<string> := [
      "#version 300 es\n",
      "\n",
      "precision mediump float;\n",
      "\n",
      "in vec4 v_color;\n",
      "\n",
      "out vec4 out_color;\n",
      "\n",
      "void main()\n",
      "{\n",
      "    out_color = v_color;\n",
      "}\n"
    ]

  lemma VertexPiecesNulFree0()
    ensures !HasNul(VERTEX_PIECES[0])
    ensures !HasNul(VERTEX_PIECES[1])
    ensures !HasNul(VERTEX_PIECES[2])
    ensures !HasNul(VERTEX_PIECES[3])
    ensures !HasNul(VERTEX_PIECES[4])
  {
  }

  lemma VertexPiecesNulFree5()
    ensures !HasNul(VERTEX_PIECES[5])
    ensures !HasNul(VERTEX_PIECES[6])
    ensures !HasNul(VERTEX_PIECES[7])
    ensures !HasNul(VERTEX_PIECES[8])
    ensures !HasNul(VERTEX_PIECES[9])
  {
  }

  lemma VertexPiecesNulFree10()
    ensures !HasNul(VERTEX_PIECES[10])
    ensures !HasNul(VERTEX_PIECES[11])
    ensures !HasNul(VERTEX_PIECES[12])
    ensures !HasNul(VERTEX_PIECES[13])
    ensures !HasNul(VERTEX_PIECES[14])
  {
  }

  lemma VertexPiecesNulFree15()
    ensures !HasNul(VERTEX_PIECES[15])
    ensures !HasNul(VERTEX_PIECES[16])
    ensures !HasNul(VERTEX_PIECES[17])
    ensures !HasNul(VERTEX_PIECES[18])
  {
  }

  lemma FragmentPiecesNulFree0()
    ensures !HasNul(FRAGMENT_PIECES[0])
    ensures !HasNul(FRAGMENT_PIECES[1])
    ensures !HasNul(FRAGMENT_PIECES[2])
    ensures !HasNul(FRAGMENT_PIECES[3])
    ensures !HasNul(FRAGMENT_PIECES[4])
    ensures !HasNul(FRAGMENT_PIECES[5])
  {
  }

  lemma FragmentPiecesNulFree6()
    ensures !HasNul(FRAGMENT_PIECES[6])
    ensures !HasNul(FRAGMENT_PIECES[7])
    ensures !HasNul(FRAGMENT_PIECES[8])
    ensures !HasNul(FRAGMENT_PIECES[9])
    ensures !HasNul(FRAGMENT_PIECES[10])
    ensures !HasNul(FRAGMENT_PIECES[11])
  {
  }

  lemma VertexSourceNulFree()
    ensures !HasNul(VERTEX_SOURCE)
  {
    VertexPiecesNulFree0();
    VertexPiecesNulFree5();
    VertexPiecesNulFree10();
    VertexPiecesNulFree15();
    var text := VERTEX_PIECES[0];
    JoinNulFree(text, VERTEX_PIECES[1]);
    text := text + VERTEX_PIECES[1];
    JoinNulFree(text, VERTEX_PIECES[2]);
    text := text + VERTEX_PIECES[2];
    JoinNulFree(text, VERTEX_PIECES[3]);
    text := text + VERTEX_PIECES[3];
    JoinNulFree(text, VERTEX_PIECES[4]);
    text := text + VERTEX_PIECES[4];
    JoinNulFree(text, VERTEX_PIECES[5]);
    text := text + VERTEX_PIECES[5];
    JoinNulFree(text, VERTEX_PIECES[6]);
    text := text + VERTEX_PIECES[6];
    JoinNulFree(text, VERTEX_PIECES[7]);
    text := text + VERTEX_PIECES[7];
    JoinNulFree(text, VERTEX_PIECES[8]);
    text := text + VERTEX_PIECES[8];
    JoinNulFree(text, VERTEX_PIECES[9]);
    text := text + VERTEX_PIECES[9];
    JoinNulFree(text, VERTEX_PIECES[10]);
    text := text + VERTEX_PIECES[10];
    JoinNulFree(text, VERTEX_PIECES[11]);
    text := text + VERTEX_PIECES[11];
    JoinNulFree(text, VERTEX_PIECES[12]);
    text := text + VERTEX_PIECES[12];
    JoinNulFree(text, VERTEX_PIECES[13]);
    text := text + VERTEX_PIECES[13];
    JoinNulFree(text, VERTEX_PIECES[14]);
    text := text + VERTEX_PIECES[14];
    JoinNulFree(text, VERTEX_PIECES[15]);
    text := text + VERTEX_PIECES[15];
    JoinNulFree(text, VERTEX_PIECES[16]);
    text := text + VERTEX_PIECES[16];
    JoinNulFree(text, VERTEX_PIECES[17]);
    text := text + VERTEX_PIECES[17];
    JoinNulFree(text, VERTEX_PIECES[18]);
    text := text + VERTEX_PIECES[18];
    assert text == VERTEX_SOURCE;
  }

  lemma FragmentSourceNulFree()
    ensures !HasNul(FRAGMENT_SOURCE)
  {
    FragmentPiecesNulFree0();
    FragmentPiecesNulFree6();
    var text := FRAGMENT_PIECES[0];
    JoinNulFree(text, FRAGMENT_PIECES[1]);
    text := text + FRAGMENT_PIECES[1];
    JoinNulFree(text, FRAGMENT_PIECES[2]);
    text := text + FRAGMENT_PIECES[2];
    JoinNulFree(text, FRAGMENT_PIECES[3]);
    text := text + FRAGMENT_PIECES[3];
    JoinNulFree(text, FRAGMENT_PIECES[4]);
    text := text + FRAGMENT_PIECES[4];
    JoinNulFree(text, FRAGMENT_PIECES[5]);
    text := text + FRAGMENT_PIECES[5];
    JoinNulFree(text, FRAGMENT_PIECES[6]);
    text := text + FRAGMENT_PIECES[6];
    JoinNulFree(text, FRAGMENT_PIECES[7]);
    text := text + FRAGMENT_PIECES[7];
    JoinNulFree(text, FRAGMENT_PIECES[8]);
    text := text + FRAGMENT_PIECES[8];
    JoinNulFree(text, FRAGMENT_PIECES[9]);
    text := text + FRAGMENT_PIECES[9];
    JoinNulFree(text, FRAGMENT_PIECES[10]);
    text := text + FRAGMENT_PIECES[10];
    JoinNulFree(text, FRAGMENT_PIECES[11]);
    text := text + FRAGMENT_PIECES[11];
    assert text == FRAGMENT_SOURCE;
  }

  /** Neither default GLSL text holds a NUL, so `Shader::new` gets past both
      `CString::new` checks and only the driver's verdicts decide the outcome. */
  lemma DefaultSourcesNulFree(vertexDriver: CompileOutcome, fragmentDriver: CompileOutcome)
    ensures !HasNul(VERTEX_SOURCE) && !HasNul(FRAGMENT_SOURCE)
    ensures Compiles(VERTEX_SOURCE, vertexDriver) && Compiles(FRAGMENT_SOURCE, fragmentDriver)
            <==> !CompileFailed(vertexDriver.status) && !CompileFailed(fragmentDriver.status)
  {
    VertexSourceNulFree();
    FragmentSourceNulFree();
  }

  /** The name of the view-projection uniform of the default program. */
  const DEFAULT_PROJECTION_UNIFORM: string := "view_projection"

  /** The locations the default program requests. */
  const DEFAULT_BINDINGS: seq<AttributeBinding> :=
    [AttributeBinding("position", 0), AttributeBinding("color", 1)]

  /** The default bindings' names and the projection uniform's name pass the
      NUL check, and the bindings request "position" at 0 and "color" at 1. */
  lemma DefaultBindingsWellFormed()
    ensures !HasNul(DEFAULT_PROJECTION_UNIFORM)
    ensures FirstMalformed(DEFAULT_BINDINGS) == |DEFAULT_BINDINGS| == 2
    ensures Bound(map[], DEFAULT_BINDINGS) == map["position" := 0, "color" := 1]
  {
    assert DEFAULT_BINDINGS[1..][1..] == [];
    assert DEFAULT_BINDINGS[..1] == [AttributeBinding("position", 0)];
  }

  /** `new_default_shader`: the default program with its fixed bindings. The
      source unwraps the result, so an `Err` here is a panic; since the
      default binding names pass the NUL check, it is never an attribute
      error. */
  method NewDefaultShader(gl: Gl, vertexDriver: CompileOutcome, fragmentDriver: CompileOutcome)
    returns (r: Result<Shader, ShaderError>)
    requires gl.Valid()
    modifies gl`nextHandle, gl`shaders, gl`programs, gl`attached, gl`requestedLocations, gl`linked, gl`trace
    ensures gl.Valid()
    ensures r.Ok? <==> Compiles(VERTEX_SOURCE, vertexDriver) && Compiles(FRAGMENT_SOURCE, fragmentDriver)
    ensures gl.shaders == old(gl.shaders) + StagesLeft(VERTEX_SOURCE, FRAGMENT_SOURCE, old(gl.nextHandle), vertexDriver, fragmentDriver)
    ensures gl.trace == old(gl.trace) + NewCalls(VERTEX_SOURCE, FRAGMENT_SOURCE, DEFAULT_BINDINGS, old(gl.nextHandle), vertexDriver, fragmentDriver)
    ensures r.Err? ==>
              && r.error != AttributeStringMalformed
              && gl.programs == old(gl.programs) && gl.attached == old(gl.attached)
              && gl.linked == old(gl.linked) && gl.requestedLocations == old(gl.requestedLocations)
    ensures HasNul(VERTEX_SOURCE) ==>
              r == Err(VertexSourceMalformed) && gl.nextHandle == old(gl.nextHandle) + 1
    ensures !HasNul(VERTEX_SOURCE) && CompileFailed(vertexDriver.status) ==>
              && r == Err(VertexShaderCompilationFailed(CompileLog(vertexDriver)))
              && gl.nextHandle == old(gl.nextHandle) + 1
    ensures Compiles(VERTEX_SOURCE, vertexDriver) && HasNul(FRAGMENT_SOURCE) ==>
              r == Err(FragmentSourceMalformed) && gl.nextHandle == old(gl.nextHandle) + 2
    ensures Compiles(VERTEX_SOURCE, vertexDriver) && !HasNul(FRAGMENT_SOURCE) && CompileFailed(fragmentDriver.status) ==>
              && r == Err(FragmentShaderCompilationFailed(CompileLog(fragmentDriver)))
              && gl.nextHandle == old(gl.nextHandle) + 2
    ensures r.Ok? ==>
              var v := old(gl.nextHandle);
              && r.value == Shader(v + 2, v, v + 1, VERTEX_SOURCE, FRAGMENT_SOURCE)
              && {v, v + 1, v + 2} !! old(gl.Live())
              && gl.nextHandle == v + 3
              && gl.programs == old(gl.programs) + {v + 2}
              && gl.attached == old(gl.attached) + {(v + 2, v), (v + 2, v + 1)}
              && gl.linked == old(gl.linked)[v + 2 := map[]]
              && gl.requestedLocations == old(gl.requestedLocations)[v + 2 := map["position" := 0, "color" := 1]]
  {
    DefaultBindingsWellFormed();
    assert DEFAULT_BINDINGS[..2] == DEFAULT_BINDINGS;
    BindCallsInOrder(old(gl.nextHandle) + 2, DEFAULT_BINDINGS);
    r := Shader.New(VERTEX_SOURCE, FRAGMENT_SOURCE, DEFAULT_BINDINGS, gl, vertexDriver, fragmentDriver);
    // One exit of `Shader::new` at a time.
    if HasNul(VERTEX_SOURCE) {
    } else if CompileFailed(vertexDriver.status) {
    } else if HasNul(FRAGMENT_SOURCE) {
    } else if CompileFailed(fragmentDriver.status) {
    }
  }
}
