/**
 * The fixed attribute layout of terrain geometry: which attribute slot holds
 * what, and how the two per-vertex attributes share one interleaved vertex
 * buffer of five floats per vertex (x, y, z of the 3D position, then u, v of the
 * texture coordinates). Every terrain provider's geometry is drawn by the same
 * shaders, so this layout is the same for all of them.
 */
module TerrainLayout {
  import opened Renderer

  /** `TerrainProvider.attributeIndices`: the attribute slot of each vertex attribute. */
  datatype AttributeIndices = AttributeIndices(position3D: nat, textureCoordinates: nat, position2D: nat)

  const attributeIndices: AttributeIndices := AttributeIndices(0, 1, 2)

  /** Floats per vertex in the interleaved vertex buffer. */
  const FloatsPerVertex: nat := 5

  /** The first byte after an interleaved attribute, within one vertex. */
  function EndOffset(a: AttributeDescriptor): nat
    requires a.PerVertex?
  {
    a.offsetInBytes + a.componentsPerAttribute * a.componentDatatype.sizeInBytes
  }

  /**
   * `attributes` are all read from `vertexBuffer` with the same `stride`, and lie
   * one after another inside a vertex: the first at offset 0, each next one where
   * the previous one ends, the last one ending at the stride.
   */
  predicate TightlyInterleaved(attributes: seq<AttributeDescriptor>, vertexBuffer: VertexBuffer, stride: nat)
  {
    && (forall i :: 0 <= i < |attributes| ==>
          attributes[i].PerVertex? && attributes[i].vertexBuffer == vertexBuffer
          && attributes[i].strideInBytes == stride)
    && (|attributes| > 0 ==>
          attributes[0].offsetInBytes == 0 && EndOffset(attributes[|attributes| - 1]) == stride)
    && (forall i :: 0 < i < |attributes| ==> attributes[i].offsetInBytes == EndOffset(attributes[i - 1]))
  }

  /**
   * The attribute list the packer hands to `createVertexArray`: 3D positions and
   * texture coordinates interleaved in `vertexBuffer`, and the 2D position held at
   * the constant (0, 0), so that this geometry cannot morph to a 2D view.
   */
  function TerrainAttributes(vertexBuffer: VertexBuffer, componentDatatype: ComponentDatatype)
    : (attributes: seq<AttributeDescriptor>)
    ensures |attributes| == 3
    ensures attributes[0].index == attributeIndices.position3D
    ensures attributes[1].index == attributeIndices.textureCoordinates
    ensures attributes[2].index == attributeIndices.position2D
    ensures forall i, j :: 0 <= i < j < |attributes| ==> attributes[i].index != attributes[j].index
    ensures TightlyInterleaved(attributes[..2], vertexBuffer, FloatsPerVertex * componentDatatype.sizeInBytes)
    ensures attributes[0].componentDatatype == attributes[1].componentDatatype == componentDatatype
    ensures attributes[0].componentsPerAttribute == 3 && attributes[1].componentsPerAttribute == 2
    ensures attributes[2].Constant? && attributes[2].value == [0.0, 0.0]
  {
    var stride := FloatsPerVertex * componentDatatype.sizeInBytes;
    [ PerVertex(attributeIndices.position3D, vertexBuffer, componentDatatype, 3, 0, stride),
      PerVertex(attributeIndices.textureCoordinates, vertexBuffer, componentDatatype, 2,
                3 * componentDatatype.sizeInBytes, stride),
      Constant(attributeIndices.position2D, [0.0, 0.0]) ]
  }

  /**
   * Where component `c` of vertex `v` of an interleaved attribute is read from,
   * in bytes from the start of its vertex buffer.
   */
  function ByteAddress(a: AttributeDescriptor, v: nat, c: nat): nat
    requires a.PerVertex?
  {
    a.offsetInBytes + v * a.strideInBytes + c * a.componentDatatype.sizeInBytes
  }

  /** An interleaved attribute (0 or 1 in the list), a vertex and a component of it. */
  datatype Reader = Reader(attribute: nat, vertex: nat, component: nat)

  /**
   * The reader of float `k` of a vertex buffer laid out as x, y, z, u, v per vertex:
   * the 3D position for the first three floats of a vertex, the texture
   * coordinates for the last two.
   */
  function ReaderOf(k: nat): Reader
  {
    if k % FloatsPerVertex < 3 then Reader(0, k / FloatsPerVertex, k % FloatsPerVertex)
    else Reader(1, k / FloatsPerVertex, k % FloatsPerVertex - 3)
  }

  /** `r` names a component that exists in the packer's attribute list. */
  predicate IsComponent(r: Reader)
  {
    r.attribute < 2 && r.component < (if r.attribute == 0 then 3 else 2)
  }

  /**
   * Every float of the vertex buffer is read by the attribute, vertex and
   * component that the x, y, z, u, v format assigns to it.
   */
  lemma EveryFloatIsRead(vertexBuffer: VertexBuffer, componentDatatype: ComponentDatatype, k: nat)
    ensures IsComponent(ReaderOf(k)) && ReaderOf(k).vertex == k / FloatsPerVertex
    ensures
      var r := ReaderOf(k);
      ByteAddress(TerrainAttributes(vertexBuffer, componentDatatype)[r.attribute], r.vertex, r.component)
      == k * componentDatatype.sizeInBytes
  {
  }

  /**
   * No float of the vertex buffer is read twice: two components of the
   * interleaved attributes that read the same byte are the same component of
   * the same vertex. With EveryFloatIsRead, the two attributes together read
   * each float exactly once.
   */
  lemma NoFloatIsReadTwice(vertexBuffer: VertexBuffer, componentDatatype: ComponentDatatype, r1: Reader, r2: Reader)
    requires componentDatatype.sizeInBytes > 0
    requires IsComponent(r1) && IsComponent(r2)
    ensures
      var attributes := TerrainAttributes(vertexBuffer, componentDatatype);
      ByteAddress(attributes[r1.attribute], r1.vertex, r1.component)
      == ByteAddress(attributes[r2.attribute], r2.vertex, r2.component)
      ==> r1 == r2
  {
    var s := componentDatatype.sizeInBytes;
    var k1 := FloatIndex(vertexBuffer, componentDatatype, r1);
    var k2 := FloatIndex(vertexBuffer, componentDatatype, r2);
    if k1 * s == k2 * s {
      CancelPositive(k1, k2, s);
      assert k1 % FloatsPerVertex == (if r1.attribute == 0 then 0 else 3) + r1.component;
      assert k2 % FloatsPerVertex == (if r2.attribute == 0 then 0 else 3) + r2.component;
    }
  }

  /** The float index a component reads, when its byte address is divided by the float size. */
  lemma FloatIndex(vertexBuffer: VertexBuffer, componentDatatype: ComponentDatatype, r: Reader) returns (k: nat)
    requires IsComponent(r)
    ensures k == FloatsPerVertex * r.vertex + (if r.attribute == 0 then 0 else 3) + r.component
    ensures ByteAddress(TerrainAttributes(vertexBuffer, componentDatatype)[r.attribute], r.vertex, r.component)
            == k * componentDatatype.sizeInBytes
  {
    var s := componentDatatype.sizeInBytes;
    var base := if r.attribute == 0 then 0 else 3;
    k := FloatsPerVertex * r.vertex + base + r.component;
    Distribute(r.vertex, base + r.component, s);
  }

  /** Factors the float size out of a byte address, for FloatIndex. */
  lemma Distribute(v: nat, c: nat, s: nat)
    ensures v * (FloatsPerVertex * s) + c * s == (FloatsPerVertex * v + c) * s
  {
  }

  /** Cancels the float size from equal byte addresses, for NoFloatIsReadTwice. */
  lemma CancelPositive(a: nat, b: nat, s: nat)
    requires s > 0 && a * s == b * s
    ensures a == b
  {
  }
}
