/** Vertex arrays (`Vao` of src/gl/vao.rs): one GPU vertex-array object whose
    attribute slots are wired, in list order, to array buffers. */
module Vaos {
  import opened GlApi
  import opened Wrappers
  import opened Vbos

  /** Layout of one vertex attribute inside its buffer. */
  datatype VertexAttributeDefinition = VertexAttributeDefinition(
    dimensionCount: byte, dataType: u32, normalized: bool, stride: u32, offset: nat)

  /** Which buffer feeds which attribute slot, with what layout. */
  datatype VertexAttribPointerDefinition = VertexAttribPointerDefinition(
    vbo: ArrayVbo, attributeIndex: u32, attributeDefinition: VertexAttributeDefinition)

  /** The two pointer-configuration entry points, and the panic of the
      catch-all arm. */
  datatype PointerForm = FloatPointer | IntegerPointer | Unsupported

  /** The fault `Vao::new` raises (`unimplemented!`) for a slot it cannot configure. */
  datatype VaoFault = UnsupportedVertexAttributeType(dataType: u32)

  /** The dispatch on (data type, normalized): the floating-point form for FLOAT
      or for anything normalized, the integer form for plain UNSIGNED_SHORT,
      and a fault for every other type. */
  function FormOf(dataType: u32, normalized: bool): (form: PointerForm)
    ensures form == FloatPointer <==> dataType == FLOAT || normalized
    ensures form == IntegerPointer <==> dataType == UNSIGNED_SHORT && !normalized
    ensures form == Unsupported <==> dataType != FLOAT && dataType != UNSIGNED_SHORT && !normalized
  {
    if dataType == FLOAT || normalized then FloatPointer
    else if dataType == UNSIGNED_SHORT then IntegerPointer
    else Unsupported
  }

  predicate Supported(d: VertexAttribPointerDefinition)
  {
    FormOf(d.attributeDefinition.dataType, d.attributeDefinition.normalized) != Unsupported
  }

  predicate AllSupported(defs: seq<VertexAttribPointerDefinition>)
  {
    forall i :: 0 <= i < |defs| ==> Supported(defs[i])
  }

  /** The position of the first definition `Vao::new` cannot configure, or
      `|defs|` when it can configure them all. */
  function FirstUnsupported(defs: seq<VertexAttribPointerDefinition>): (k: nat)
    ensures k <= |defs|
  {
    if defs == [] then 0
    else if !Supported(defs[0]) then 0
    else 1 + FirstUnsupported(defs[1..])
  }

  /** Every definition before the first unsupported one is supported, and
      the one at that position is not. */
  lemma {:induction false} FirstUnsupportedSpec(defs: seq<VertexAttribPointerDefinition>)
    ensures forall i :: 0 <= i < FirstUnsupported(defs) ==> Supported(defs[i])
    ensures FirstUnsupported(defs) < |defs| ==> !Supported(defs[FirstUnsupported(defs)])
  {
    if defs != [] && Supported(defs[0]) {
      FirstUnsupportedSpec(defs[1..]);
    }
  }

  /** The pointer-configuration call issued for a supported definition. */
  function PointerCall(d: VertexAttribPointerDefinition): Call
    requires Supported(d)
  {
    var a := d.attributeDefinition;
    if FormOf(a.dataType, a.normalized) == FloatPointer
    then VertexAttribPointer(d.attributeIndex, a.dimensionCount, a.dataType, a.normalized, U32AsI32(a.stride), a.offset)
    else VertexAttribIPointer(d.attributeIndex, a.dimensionCount, a.dataType, U32AsI32(a.stride), a.offset)
  }

  /** What the vertex array records for a supported definition: the
      definition's own buffer, since that buffer is bound just before. */
  function PointerOf(d: VertexAttribPointerDefinition): (p: AttribPointer)
    requires Supported(d)
    ensures p.buffer == d.vbo.handle && p.dataType == d.attributeDefinition.dataType
    ensures p.integer <==> d.attributeDefinition.dataType == UNSIGNED_SHORT && !d.attributeDefinition.normalized
  {
    var a := d.attributeDefinition;
    if FormOf(a.dataType, a.normalized) == FloatPointer
    then AttribPointer(d.vbo.handle, a.dimensionCount, a.dataType, a.normalized, false, U32AsI32(a.stride), a.offset)
    else AttribPointer(d.vbo.handle, a.dimensionCount, a.dataType, false, true, U32AsI32(a.stride), a.offset)
  }

  /** The calls issued for one supported definition: bind its buffer, enable
      its slot, configure the pointer. */
  function DefinitionCalls(d: VertexAttribPointerDefinition): seq<Call>
    requires Supported(d)
  {
    [BindBuffer(ARRAY_BUFFER, d.vbo.handle), EnableVertexAttribArray(d.attributeIndex), PointerCall(d)]
  }

  /** The calls issued for a list of supported definitions, in list order. */
  function SetupCalls(defs: seq<VertexAttribPointerDefinition>): seq<Call>
    requires AllSupported(defs)
  {
    if defs == [] then []
    else SetupCalls(defs[..|defs| - 1]) + DefinitionCalls(defs[|defs| - 1])
  }

  /** The slots of vertex array `h` that a list of definitions enables. */
  function EnabledBy(h: Handle, defs: seq<VertexAttribPointerDefinition>): set<(Handle, u32)>
  {
    if defs == [] then {}
    else EnabledBy(h, defs[..|defs| - 1]) + {(h, defs[|defs| - 1].attributeIndex)}
  }

  /** No later definition in the list uses the slot of definition `i`. */
  predicate LastForSlot(defs: seq<VertexAttribPointerDefinition>, i: nat)
    requires i < |defs|
  {
    forall j :: i < j < |defs| ==> defs[j].attributeIndex != defs[i].attributeIndex
  }

  /** The pointers a list of supported definitions configures on vertex
      array `h`: every listed slot gets the layout of the last definition
      that names it. */
  function PointersBy(h: Handle, defs: seq<VertexAttribPointerDefinition>): map<(Handle, u32), AttribPointer>
    requires AllSupported(defs)
  {
    if defs == [] then map[]
    else
      var last := defs[|defs| - 1];
      PointersBy(h, defs[..|defs| - 1])[(h, last.attributeIndex) := PointerOf(last)]
  }

  /** Every listed slot of vertex array `h` is enabled, and nothing else. */
  lemma {:induction false} EnabledByListed(h: Handle, defs: seq<VertexAttribPointerDefinition>)
    ensures forall i :: 0 <= i < |defs| ==> (h, defs[i].attributeIndex) in EnabledBy(h, defs)
    ensures forall p :: p in EnabledBy(h, defs) ==> exists i :: 0 <= i < |defs| && p == (h, defs[i].attributeIndex)
  {
    if defs != [] {
      var init := defs[..|defs| - 1];
      EnabledByListed(h, init);
      assert forall i :: 0 <= i < |init| ==> init[i] == defs[i];
    }
  }

  /** Every listed slot of vertex array `h` gets a pointer, and a slot gets
      the layout of the last definition that names it. */
  lemma {:induction false} PointersByLastWins(h: Handle, defs: seq<VertexAttribPointerDefinition>)
    requires AllSupported(defs)
    ensures forall p :: p in PointersBy(h, defs) ==> p.0 == h
    ensures forall i :: 0 <= i < |defs| ==> (h, defs[i].attributeIndex) in PointersBy(h, defs)
    ensures forall i :: 0 <= i < |defs| && LastForSlot(defs, i) ==>
              PointersBy(h, defs)[(h, defs[i].attributeIndex)] == PointerOf(defs[i])
  {
    if defs != [] {
      var init := defs[..|defs| - 1];
      assert forall i :: 0 <= i < |init| ==> init[i] == defs[i];
      PointersByLastWins(h, init);
    }
  }

  /** Extending a prefix by one definition extends the enabled slots by its
      slot; when the prefix and the definition are supported, it also extends
      the calls and pointers by that definition's share. */
  lemma PrefixStep(h: Handle, defs: seq<VertexAttribPointerDefinition>, i: nat)
    requires i < |defs|
    ensures EnabledBy(h, defs[..i + 1]) == EnabledBy(h, defs[..i]) + {(h, defs[i].attributeIndex)}
    ensures AllSupported(defs[..i]) && Supported(defs[i]) ==>
              && AllSupported(defs[..i + 1])
              && SetupCalls(defs[..i + 1]) == SetupCalls(defs[..i]) + DefinitionCalls(defs[i])
              && PointersBy(h, defs[..i + 1]) == PointersBy(h, defs[..i])[(h, defs[i].attributeIndex) := PointerOf(defs[i])]
  {
    assert defs[..i + 1][..i] == defs[..i];
  }

  /** A position up to which every definition is supported, and at which
      the list ends or holds an unsupported definition, is `FirstUnsupported`. */
  lemma {:induction false} FirstUnsupportedAt(defs: seq<VertexAttribPointerDefinition>, i: nat)
    requires i <= |defs| && AllSupported(defs[..i])
    requires i < |defs| ==> !Supported(defs[i])
    ensures FirstUnsupported(defs) == i
  {
    if i > 0 {
      assert defs[1..][..i - 1] == defs[..i][1..];
      FirstUnsupportedAt(defs[1..], i - 1);
    }
  }

  /** Updating a merged map is merging the updated right operand. */
  lemma MergeUpdate<K, V>(m: map<K, V>, n: map<K, V>, k: K, v: V)
    ensures (m + n)[k := v] == m + n[k := v]
  {
  }

  /** One GPU vertex-array object; it owns its handle but not the buffers
      its slots read from. */
  datatype Vao = Vao(handle: Handle) {

    /** Generates the vertex array (the handle is checked to be non-zero),
        binds it, and for each definition in order binds its buffer, enables
        its slot and configures the pointer in the form `FormOf` picks; then
        unbinds the vertex array and the ARRAY_BUFFER binding. The first
        definition whose form is unsupported stops the construction there. */
    static method New(defs: seq<VertexAttribPointerDefinition>, gl: Gl) returns (r: Result<Vao, VaoFault>)
      requires gl.Valid()
      modifies gl`nextHandle, gl`vertexArrays, gl`vertexArray, gl`arrayBuffer, gl`enabled, gl`pointers, gl`trace
      ensures gl.Valid()
      ensures var h := old(gl.nextHandle);
              && h > 0 && h !in old(gl.Live()) && gl.nextHandle == h + 1
              && gl.vertexArrays == old(gl.vertexArrays) + {h}
      ensures r.Ok? <==> FirstUnsupported(defs) == |defs|
      ensures r.Ok? ==>
                var h := old(gl.nextHandle);
                && r.value == Vao(h)
                && AllSupported(defs)
                && gl.enabled == old(gl.enabled) + EnabledBy(h, defs)
                && gl.pointers == old(gl.pointers) + PointersBy(h, defs)
                && gl.vertexArray == 0
                && gl.arrayBuffer == 0
                && gl.trace == old(gl.trace) + [GenVertexArray(h), BindVertexArray(h)] + SetupCalls(defs)
                                             + [BindVertexArray(0), BindBuffer(ARRAY_BUFFER, 0)]
      ensures r.Err? ==>
                var h, k := old(gl.nextHandle), FirstUnsupported(defs);
                && k < |defs|
                && r.error == UnsupportedVertexAttributeType(defs[k].attributeDefinition.dataType)
                && AllSupported(defs[..k]) && !Supported(defs[k])
                && gl.enabled == old(gl.enabled) + EnabledBy(h, defs[..k + 1])
                && gl.pointers == old(gl.pointers) + PointersBy(h, defs[..k])
                && gl.vertexArray == h
                && gl.arrayBuffer == defs[k].vbo.handle
                && gl.trace == old(gl.trace) + [GenVertexArray(h), BindVertexArray(h)] + SetupCalls(defs[..k])
                                             + [BindBuffer(ARRAY_BUFFER, defs[k].vbo.handle),
                                                EnableVertexAttribArray(defs[k].attributeIndex)]
    {
      var h := gl.GenVertexArray();
      assert h > 0;
      gl.BindVertexArray(h);
      var processed := ConfigureSlots(defs, gl);
      if processed < |defs| {
        // The definition at `processed` still has its buffer bound and its
        // slot enabled before the dispatch faults.
        var supported := ConfigureSlot(defs[processed], gl);
        PrefixStep(h, defs, processed);
        return Err(UnsupportedVertexAttributeType(defs[processed].attributeDefinition.dataType));
      }
      assert defs[..processed] == defs;
      gl.BindVertexArray(0);
      ArrayVbo.Unbind(gl);
      r := Ok(Vao(h));
    }

    /** The loop of `New` over the definitions, in list order, on the bound
        vertex array, up to the first definition it cannot configure;
        returns how many it configured. */
    static method ConfigureSlots(defs: seq<VertexAttribPointerDefinition>, gl: Gl) returns (processed: nat)
      requires gl.Valid()
      modifies gl`arrayBuffer, gl`enabled, gl`pointers, gl`trace
      ensures gl.Valid()
      ensures processed == FirstUnsupported(defs)
      ensures AllSupported(defs[..processed])
      ensures processed < |defs| ==> !Supported(defs[processed])
      ensures gl.enabled == old(gl.enabled) + EnabledBy(gl.vertexArray, defs[..processed])
      ensures gl.pointers == old(gl.pointers) + PointersBy(gl.vertexArray, defs[..processed])
      ensures gl.trace == old(gl.trace) + SetupCalls(defs[..processed])
      ensures gl.arrayBuffer == if processed == 0 then old(gl.arrayBuffer) else defs[processed - 1].vbo.handle
    {
      var h := gl.vertexArray;
      processed := 0;
      while processed < |defs| && Supported(defs[processed])
        invariant processed <= |defs|
        invariant AllSupported(defs[..processed])
        invariant gl.enabled == old(gl.enabled) + EnabledBy(h, defs[..processed])
        invariant gl.pointers == old(gl.pointers) + PointersBy(h, defs[..processed])
        invariant gl.trace == old(gl.trace) + SetupCalls(defs[..processed])
        invariant gl.arrayBuffer == if processed == 0 then old(gl.arrayBuffer) else defs[processed - 1].vbo.handle
      {
        var supported := ConfigureSlot(defs[processed], gl);
        PrefixStep(h, defs, processed);
        MergeUpdate(old(gl.pointers), PointersBy(h, defs[..processed]),
                    (h, defs[processed].attributeIndex), PointerOf(defs[processed]));
        processed := processed + 1;
      }
      FirstUnsupportedAt(defs, processed);
    }

    /** The body of the loop of `New` for one definition: bind its buffer,
        enable its slot on the bound vertex array, then configure the pointer
        in the form `FormOf` picks; `supported` is false at the fault. */
    static method ConfigureSlot(def: VertexAttribPointerDefinition, gl: Gl) returns (supported: bool)
      requires gl.Valid()
      modifies gl`arrayBuffer, gl`enabled, gl`pointers, gl`trace
      ensures gl.Valid()
      ensures supported == Supported(def)
      ensures gl.arrayBuffer == def.vbo.handle
      ensures gl.enabled == old(gl.enabled) + {(gl.vertexArray, def.attributeIndex)}
      ensures supported ==> gl.pointers == old(gl.pointers)[(gl.vertexArray, def.attributeIndex) := PointerOf(def)]
      ensures supported ==> gl.trace == old(gl.trace) + DefinitionCalls(def)
      ensures !supported ==> gl.pointers == old(gl.pointers)
      ensures !supported ==> gl.trace == old(gl.trace) + [BindBuffer(ARRAY_BUFFER, def.vbo.handle),
                                                       EnableVertexAttribArray(def.attributeIndex)]
    {
      var attr := def.attributeDefinition;
      def.vbo.Bind(gl);
      gl.EnableVertexAttribArray(def.attributeIndex);
      match FormOf(attr.dataType, attr.normalized)
      case FloatPointer =>
        gl.VertexAttribPointer(def.attributeIndex, attr.dimensionCount, attr.dataType,
                               attr.normalized, U32AsI32(attr.stride), attr.offset);
        supported := true;
      case IntegerPointer =>
        gl.VertexAttribIPointer(def.attributeIndex, attr.dimensionCount, attr.dataType,
                                U32AsI32(attr.stride), attr.offset);
        supported := true;
      case Unsupported =>
        supported := false;
    }

    method Bind(gl: Gl)
      requires gl.Valid()
      modifies gl`vertexArray, gl`trace
      ensures gl.Valid()
      ensures gl.vertexArray == handle
      ensures gl.trace == old(gl.trace) + [BindVertexArray(handle)]
    {
      gl.BindVertexArray(handle);
    }

    static method Unbind(gl: Gl)
      requires gl.Valid()
      modifies gl`vertexArray, gl`trace
      ensures gl.Valid()
      ensures gl.vertexArray == 0
      ensures gl.trace == old(gl.trace) + [BindVertexArray(0)]
    {
      gl.BindVertexArray(0);
    }

    /** Releases the vertex-array handle only: the buffers its slots read
        from stay live and keep their contents. */
    method Drop(gl: Gl)
      requires gl.Valid()
      modifies gl`vertexArrays, gl`vertexArray, gl`trace
      ensures gl.Valid()
      ensures gl.vertexArrays == old(gl.vertexArrays) - {handle}
      ensures gl.vertexArray == if old(gl.vertexArray) == handle then 0 else old(gl.vertexArray)
      ensures gl.buffers == old(gl.buffers) && gl.bufferData == old(gl.bufferData)
      ensures gl.trace == old(gl.trace) + [DeleteVertexArray(handle)]
    {
      gl.DeleteVertexArray(handle);
    }
  }
}
