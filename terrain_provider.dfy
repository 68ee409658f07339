/**
 * The terrain-provider contract (Source/Scene/TerrainProvider.js): an abstract
 * type that cannot be constructed and whose `createTileGeometry` always fails,
 * and the shared packer that turns a terrain provider's raw vertex and index
 * data into a vertex array attached to a tile.
 */
module TerrainProviders {
  import opened Wrappers
  import opened TypedArrays
  import opened Renderer
  import opened TerrainLayout

  /** A `DeveloperError`: a programming error, thrown at the call site. */
  datatype DeveloperError = DeveloperError(message: string)

  /** The message both abstract members throw with. */
  const NotInstantiable: string := "This type should not be instantiated directly."

  /** The tiling scheme a provider's tiles follow (Scene/TilingScheme.js is not part of this model). */
  class TilingScheme {
    constructor () {}
  }

  /**
   * A node of the tile quadtree, as far as terrain is concerned: its address,
   * and the vertex array of its surface geometry (`_extentVA`), unset until a
   * provider fills it in (Scene/Tile.js is not part of this model).
   */
  class Tile {
    var level: nat
    var x: int
    var y: int
    var extentVA: VertexArray?

    constructor (level: nat, x: int, y: int)
      ensures this.level == level && this.x == x && this.y == y && extentVA == null
    {
      this.level, this.x, this.y := level, x, y;
      extentVA := null;
    }
  }

  /**
   * The raw geometry a provider hands to the packer: five numbers per vertex
   * (x, y, z, u, v) and three vertex indices per triangle. It is a value, so the
   * packer cannot change it.
   */
  datatype RawBuffers = RawBuffers(vertices: seq<real>, indices: seq<real>)

  /**
   * `calls` are exactly the three calls that pack `buffers`, in order: a static
   * vertex buffer over the vertices, a static 16-bit index buffer over the
   * converted indices, and a vertex array binding the terrain attributes of that
   * vertex buffer to that index buffer, which is `vertexArray`.
   */
  ghost predicate IsPackingOf(calls: seq<ContextCall>, buffers: RawBuffers, vertexArray: VertexArray)
  {
    && |calls| == 3
    && calls[0].CreateVertexBufferCall?
    && calls[0].vertices == Float32Array(buffers.vertices)
    && calls[0].usage == STATIC_DRAW
    && calls[1].CreateIndexBufferCall?
    && calls[1].indices == Uint16Array(Uint16ArrayFrom(buffers.indices))
    && calls[1].usage == STATIC_DRAW
    && calls[1].indexDatatype == UNSIGNED_SHORT
    && calls[2].CreateVertexArrayCall?
    && calls[2].attributes == TerrainAttributes(calls[0].vertexBuffer, FLOAT)
    && calls[2].indexBuffer == calls[1].indexBuffer
    && calls[2].vertexArray == vertexArray
  }

  /**
   * `TerrainProvider`. It describes an interface: concrete providers supply
   * `createTileGeometry` and the tiling scheme.
   */
  class TerrainProvider {
    /** The tiling scheme used to tile the surface; left unset here. */
    var tilingScheme: TilingScheme?

    /**
     * `new TerrainProvider()`: it sets `tilingScheme` to undefined and then
     * throws, so no caller ever gets an instance.
     */
    static method Create() returns (r: Result<TerrainProvider, DeveloperError>)
      ensures r == Failure(DeveloperError(NotInstantiable))
    {
      var provider := new TerrainProvider;
      provider.tilingScheme := null;
      r := Failure(DeveloperError(NotInstantiable));
    }

    /**
     * `createTileGeometry(tile)` of the abstract type: it throws for every tile,
     * whatever its level; the contract puts no ceiling on the level a concrete
     * provider must handle.
     */
    method CreateTileGeometry(tile: Tile) returns (r: Result<(), DeveloperError>)
      ensures r == Failure(DeveloperError(NotInstantiable))
    {
      r := Failure(DeveloperError(NotInstantiable));
    }

    /**
     * `TerrainProvider.createTileGeometryFromBuffers(context, tile, buffers)`:
     * uploads the vertices and the indices, binds them in a vertex array with the
     * terrain attribute layout, and stores that vertex array in the tile. Nothing
     * of the tile but `extentVA` changes, and nothing is checked: lengths, index
     * ranges and vertex counts are passed through as they are.
     */
    static method CreateTileGeometryFromBuffers(context: Context, tile: Tile, buffers: RawBuffers)
      modifies context, tile`extentVA
      ensures |context.calls| == |old(context.calls)| + 3
      ensures context.calls[..|old(context.calls)|] == old(context.calls)
      ensures tile.extentVA != null && fresh(tile.extentVA)
      ensures IsPackingOf(context.calls[|old(context.calls)|..], buffers, tile.extentVA)
    {
      var typedArray := Float32Array(buffers.vertices);
      var buffer := context.CreateVertexBuffer(typedArray, STATIC_DRAW);
      var attributes := TerrainAttributes(buffer, FLOAT);
      var indexBuffer := context.CreateIndexBuffer(Uint16Array(Uint16ArrayFrom(buffers.indices)),
                                                   STATIC_DRAW, UNSIGNED_SHORT);
      tile.extentVA := context.CreateVertexArray(attributes, indexBuffer);
    }
  }

  /**
   * What a packing guarantees about the buffers it uploaded: the vertex buffer
   * holds every number of `vertices`, the index buffer holds one ToUint16 of each
   * index, in order, and the vertex array draws those two buffers through the
   * terrain attributes.
   */
  lemma PackingUploadsBuffers(calls: seq<ContextCall>, buffers: RawBuffers, vertexArray: VertexArray)
    requires IsPackingOf(calls, buffers, vertexArray)
    ensures |calls[0].vertices.values| == |buffers.vertices|
    ensures |calls[1].indices.values| == |buffers.indices|
    ensures forall i :: 0 <= i < |buffers.indices| ==>
              calls[1].indices.values[i] == ToUint16(buffers.indices[i])
    ensures calls[2].attributes[0].vertexBuffer == calls[2].attributes[1].vertexBuffer == calls[0].vertexBuffer
    ensures calls[2].attributes[0].strideInBytes == calls[2].attributes[1].strideInBytes == FloatsPerVertex * FLOAT.sizeInBytes
  {
  }

  /**
   * Packing the three-vertex triangle: 15 floats, 3 indices that come through
   * unchanged, and a tile whose address is left as it was.
   */
  method PackSingleTriangle()
  {
    var context := new Context();
    var tile := new Tile(3, 5, 2);
    var buffers := RawBuffers([0.0, 0.0, 0.0, 0.0, 0.0,
                               1.0, 0.0, 0.0, 1.0, 0.0,
                               0.0, 1.0, 0.0, 0.0, 1.0], [0.0, 1.0, 2.0]);
    TerrainProvider.CreateTileGeometryFromBuffers(context, tile, buffers);
    assert context.calls[..0] == [];
    PackingUploadsBuffers(context.calls, buffers, tile.extentVA);
    assert |context.calls[0].vertices.values| == 15;
    assert context.calls[1].indices.values == [0, 1, 2];
    assert tile.level == 3 && tile.x == 5 && tile.y == 2;
  }
}
