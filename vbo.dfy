/** Vertex buffers bound to ARRAY_BUFFER (`ArrayVbo` of src/gl/vbo.rs):
    creation, binding, whole-contents upload and release of one GPU buffer. */
module Vbos {
  import opened GlApi

  /** The bytes of a contiguous array of `T` whose element `x` is laid out in
      memory as `repr(x)`: what `Vec<T>` holds behind its data pointer. */
  function Flatten<T>(data: seq<T>, repr: T -> seq<byte>): seq<byte>
  {
    if data == [] then [] else repr(data[0]) + Flatten(data[1..], repr)
  }

  /** When every element takes `size` bytes, the array takes `|data| * size` bytes. */
  lemma {:induction false} FlattenLength<T>(data: seq<T>, repr: T -> seq<byte>, size: nat)
    requires forall i :: 0 <= i < |data| ==> |repr(data[i])| == size
    ensures |Flatten(data, repr)| == |data| * size
  {
    if data != [] {
      FlattenLength(data[1..], repr, size);
      assert |Flatten(data, repr)| == size + (|data| - 1) * size;
    }
  }

  /** When every element takes `size` bytes, element `i` sits at bytes
      `[i * size, (i + 1) * size)`. */
  lemma {:induction false} FlattenElement<T>(data: seq<T>, repr: T -> seq<byte>, size: nat, i: nat)
    requires forall j :: 0 <= j < |data| ==> |repr(data[j])| == size
    requires i < |data|
    ensures |Flatten(data, repr)| == |data| * size
    ensures Flatten(data, repr)[i * size..(i + 1) * size] == repr(data[i])
  {
    FlattenLength(data, repr, size);
    var head := repr(data[0]);
    var rest := Flatten(data[1..], repr);
    assert Flatten(data, repr) == head + rest;
    if i > 0 {
      FlattenElement(data[1..], repr, size, i - 1);
      var lo := (i - 1) * size;
      assert i * size == size + lo;
      assert (i + 1) * size == size + lo + size;
      SliceAfter(head, rest, lo, lo + size);
    }
  }

  /** A slice of `a + b` lying past `a` is a slice of `b`. */
  lemma SliceAfter<T>(a: seq<T>, b: seq<T>, lo: nat, hi: nat)
    requires lo <= hi <= |b|
    ensures (a + b)[|a| + lo..|a| + hi] == b[lo..hi]
  {
  }

  /** One GPU buffer used as a vertex-attribute source; it owns its handle. */
  datatype ArrayVbo = ArrayVbo(handle: Handle) {

    /** Generates a buffer name, checked to be non-zero as the source asserts. */
    static method New(gl: Gl) returns (vbo: ArrayVbo)
      requires gl.Valid()
      modifies gl`nextHandle, gl`buffers, gl`bufferData, gl`trace
      ensures gl.Valid()
      ensures vbo.handle > 0 && vbo.handle == old(gl.nextHandle) && vbo.handle !in old(gl.Live())
      ensures gl.nextHandle == vbo.handle + 1
      ensures gl.buffers == old(gl.buffers) + {vbo.handle}
      ensures gl.bufferData == old(gl.bufferData)[vbo.handle := []]
      ensures gl.trace == old(gl.trace) + [GenBuffer(vbo.handle)]
    {
      var h := gl.GenBuffer();
      assert h > 0;
      vbo := ArrayVbo(h);
    }

    method Bind(gl: Gl)
      requires gl.Valid()
      modifies gl`arrayBuffer, gl`trace
      ensures gl.Valid()
      ensures gl.arrayBuffer == handle
      ensures gl.trace == old(gl.trace) + [BindBuffer(ARRAY_BUFFER, handle)]
    {
      gl.BindBuffer(ARRAY_BUFFER, handle);
    }

    static method Unbind(gl: Gl)
      requires gl.Valid()
      modifies gl`arrayBuffer, gl`trace
      ensures gl.Valid()
      ensures gl.arrayBuffer == 0
      ensures gl.trace == old(gl.trace) + [BindBuffer(ARRAY_BUFFER, 0)]
    {
      gl.BindBuffer(ARRAY_BUFFER, 0);
    }

    /** Uploads the raw memory of `data`: exactly `|data| * size` bytes, `size`
        standing for `size_of::<T>()` and `repr` for the element layout. */
    method UploadVec<T>(usage: u32, data: seq<T>, repr: T -> seq<byte>, size: nat, gl: Gl)
      requires gl.Valid()
      requires forall i :: 0 <= i < |data| ==> |repr(data[i])| == size
      modifies gl`arrayBuffer, gl`bufferData, gl`trace
      ensures gl.Valid()
      ensures gl.arrayBuffer == handle
      ensures gl.bufferData == if handle in gl.buffers
                               then old(gl.bufferData)[handle := Flatten(data, repr)]
                               else old(gl.bufferData)
      ensures handle in gl.buffers ==> |gl.bufferData[handle]| == |data| * size
      ensures gl.trace == old(gl.trace) + [BindBuffer(ARRAY_BUFFER, handle),
                                           BufferData(ARRAY_BUFFER, Flatten(data, repr), usage)]
    {
      var memory := Flatten(data, repr);
      FlattenLength(data, repr, size);
      var bytes := memory[..|data| * size];
      assert bytes == memory;
      UploadRaw(usage, bytes, gl);
    }

    /** Binds this buffer, then replaces its whole contents with `bytes`;
        no other buffer changes. */
    method UploadRaw(usage: u32, bytes: seq<byte>, gl: Gl)
      requires gl.Valid()
      modifies gl`arrayBuffer, gl`bufferData, gl`trace
      ensures gl.Valid()
      ensures gl.arrayBuffer == handle
      ensures gl.bufferData == if handle in gl.buffers
                               then old(gl.bufferData)[handle := bytes] else old(gl.bufferData)
      ensures handle in gl.buffers ==> gl.bufferData[handle] == bytes
      ensures forall b :: b in old(gl.bufferData) && b != handle ==> gl.bufferData[b] == old(gl.bufferData)[b]
      ensures gl.trace == old(gl.trace) + [BindBuffer(ARRAY_BUFFER, handle), BufferData(ARRAY_BUFFER, bytes, usage)]
    {
      Bind(gl);
      gl.BufferData(ARRAY_BUFFER, bytes, usage);
    }

    /** Releases the buffer name; a binding to it reverts to 0. */
    method Drop(gl: Gl)
      requires gl.Valid()
      modifies gl`buffers, gl`bufferData, gl`arrayBuffer, gl`trace
      ensures gl.Valid()
      ensures gl.buffers == old(gl.buffers) - {handle}
      ensures gl.bufferData == old(gl.bufferData) - {handle}
      ensures gl.arrayBuffer == if old(gl.arrayBuffer) == handle then 0 else old(gl.arrayBuffer)
      ensures gl.trace == old(gl.trace) + [DeleteBuffer(handle)]
    {
      gl.DeleteBuffer(handle);
    }
  }
}
