/**
 * The rendering context the packer calls into, seen from outside: a factory of
 * opaque GPU handles. Every call hands back a freshly allocated handle and is
 * appended, with its arguments and its result, to a ghost log, so that a caller's
 * contract can say which calls it made, in which order and with what.
 *
 * Renderer/Context.js, Renderer/BufferUsage.js, Core/ComponentDatatype.js and
 * Core/IndexDatatype.js are not part of this model; only the members the packer
 * touches are given here.
 */
module Renderer {
  import opened TypedArrays

  /** A WebGL vertex buffer, created by `createVertexBuffer`. */
  class VertexBuffer {
    constructor () {}
  }

  /** A WebGL index buffer, created by `createIndexBuffer`. */
  class IndexBuffer {
    constructor () {}
  }

  /** A vertex array object binding attributes to buffers, created by `createVertexArray`. */
  class VertexArray {
    constructor () {}
  }

  /** The usage hint given when a buffer is created. */
  datatype BufferUsage = STREAM_DRAW | STATIC_DRAW | DYNAMIC_DRAW

  /** The width of the elements of an index buffer. */
  datatype IndexDatatype = UNSIGNED_BYTE | UNSIGNED_SHORT

  /** A component type of a vertex attribute; only its size in bytes matters here. */
  datatype ComponentDatatype = ComponentDatatype(name: string, sizeInBytes: nat)

  /** `ComponentDatatype.FLOAT`: a WebGL FLOAT is 4 bytes wide. */
  const FLOAT: ComponentDatatype := ComponentDatatype("FLOAT", 4)

  /**
   * `ComponentDatatype.toTypedArray(values)` for FLOAT: a Float32Array over the
   * same numbers, in the same order (rounding to single precision is not modelled).
   */
  datatype Float32Array = Float32Array(values: seq<real>)

  /** `new Uint16Array(values)`. */
  datatype Uint16Array = Uint16Array(values: seq<Uint16>)

  /**
   * One entry of the attribute list given to `createVertexArray`: either an
   * attribute read from a vertex buffer, interleaved with the given offset and
   * stride, or an attribute held at a constant value for every vertex.
   */
  datatype AttributeDescriptor =
    | PerVertex(index: nat, vertexBuffer: VertexBuffer, componentDatatype: ComponentDatatype,
                componentsPerAttribute: nat, offsetInBytes: nat, strideInBytes: nat)
    | Constant(index: nat, value: seq<real>)

  /** A call made on the context, with its arguments and the handle it returned. */
  datatype ContextCall =
    | CreateVertexBufferCall(vertices: Float32Array, usage: BufferUsage, vertexBuffer: VertexBuffer)
    | CreateIndexBufferCall(indices: Uint16Array, usage: BufferUsage, indexDatatype: IndexDatatype,
                            indexBuffer: IndexBuffer)
    | CreateVertexArrayCall(attributes: seq<AttributeDescriptor>, indexBuffer: IndexBuffer,
                            vertexArray: VertexArray)

  class Context {
    /** Every call made on this context so far, oldest first. */
    ghost var calls: seq<ContextCall>

    constructor ()
      ensures calls == []
    {
      calls := [];
    }

    method CreateVertexBuffer(vertices: Float32Array, usage: BufferUsage) returns (buffer: VertexBuffer)
      modifies this
      ensures fresh(buffer)
      ensures calls == old(calls) + [CreateVertexBufferCall(vertices, usage, buffer)]
    {
      buffer := new VertexBuffer();
      calls := calls + [CreateVertexBufferCall(vertices, usage, buffer)];
    }

    method CreateIndexBuffer(indices: Uint16Array, usage: BufferUsage, indexDatatype: IndexDatatype)
      returns (buffer: IndexBuffer)
      modifies this
      ensures fresh(buffer)
      ensures calls == old(calls) + [CreateIndexBufferCall(indices, usage, indexDatatype, buffer)]
    {
      buffer := new IndexBuffer();
      calls := calls + [CreateIndexBufferCall(indices, usage, indexDatatype, buffer)];
    }

    method CreateVertexArray(attributes: seq<AttributeDescriptor>, indexBuffer: IndexBuffer)
      returns (vertexArray: VertexArray)
      modifies this
      ensures fresh(vertexArray)
      ensures calls == old(calls) + [CreateVertexArrayCall(attributes, indexBuffer, vertexArray)]
    {
      vertexArray := new VertexArray();
      calls := calls + [CreateVertexArrayCall(attributes, indexBuffer, vertexArray)];
    }
  }
}
