# Terrain provider contract and tile-geometry packer

A Dafny model of `TerrainProvider` from a virtual-globe renderer's scene layer (`Source/Scene/TerrainProvider.js`). It covers two things:

- **The abstract provider contract.** Constructing `TerrainProvider` directly fails with a `DeveloperError`. Its `createTileGeometry` fails the same way for every tile. It also defines the fixed table of vertex-attribute slots: `position3D` 0, `textureCoordinates` 1, `position2D` 2.
- **`createTileGeometryFromBuffers`, the packer.** It takes a provider's raw geometry, which holds five numbers per vertex (x, y, z, u, v) and the triangle indices. It makes three calls to the rendering context, in order:
  1. It uploads the vertices as a static vertex buffer.
  2. It uploads the indices, converted to a `Uint16Array`, as a static `UNSIGNED_SHORT` index buffer.
  3. It binds both buffers in a vertex array. The 3D position (3 floats at offset 0) and the texture coordinates (2 floats at offset `3*size`) share the buffer with stride `5*size`. The 2D position is held at the constant `[0.0, 0.0]`.

  Finally it stores the vertex array in the tile's `_extentVA`.

Modules:

- `Wrappers` (`wrappers.dfy`): the `Result` type. A JavaScript `throw` becomes a `Failure`.
- `TypedArrays` (`typed_arrays.dfy`): the ToUint16 conversion of section 7.1.8 of ECMA-262 (6th edition), and the element-wise conversion that `new Uint16Array(array)` performs.
- `Renderer` (`renderer.dfy`): the rendering context as an opaque handle factory, plus the attribute-descriptor and call datatypes. Each context call returns a freshly allocated handle. It also appends the call, with its arguments and its result, to a ghost log `calls`.
- `TerrainLayout` (`terrain_layout.dfy`): the attribute-index table and the three-entry descriptor list. Lemmas show that the two interleaved attributes read every float of the vertex buffer exactly once, in the x, y, z, u, v order.
- `TerrainProviders` (`terrain_provider.dfy`): the `Tile` and `TerrainProvider` classes. The packer is a static method with `modifies context, tile`extentVA`. So the frame itself says that no other tile field changes. The raw buffers are an immutable value.

The packer validates nothing, and the abstract members throw synchronously:

- The packer rejects nothing. It does not check that the vertex count is a multiple of five, that indices are below the vertex count, or that the vertex count fits in 16 bits. An index of 65536 or more wraps onto a lower vertex, and a negative one wraps to the top of the range (`TypedArrays.OutOfRangeIndicesWrap`).
- `createTileGeometry` and the constructor throw synchronously. They do not return a failed asynchronous result.

## Model

| member | source | states |
|---|---|---|
| `TypedArrays.Truncate` | Source/Scene/TerrainProvider.js:69 | The integer part that ToUint16 takes rounds toward zero. For a non-negative number it is the floor. For a negative one it is the ceiling. |
| `TypedArrays.ToUint16` | Source/Scene/TerrainProvider.js:69 | Each converted index is a 16-bit unsigned value congruent to the number's integer part modulo 2^16. It equals that integer part when the integer part is already in range. |
| `TypedArrays.Uint16ArrayFrom` | Source/Scene/TerrainProvider.js:69 | `new Uint16Array(indices)` has the same length as the indices. Element i is ToUint16 of index i, in the same order. |
| `TypedArrays.SmallIndicesArePreserved` | Source/Scene/TerrainProvider.js:69 | Suppose the vertex count is at most 65536 and every index is a whole number below it. Then the index buffer holds exactly the original indices. |
| `TypedArrays.ToUint16Periodic` | Source/Scene/TerrainProvider.js:69 | Integer indices that differ by a multiple of 65536 give the same 16-bit index. |
| `TypedArrays.OutOfRangeIndicesWrap` | Source/Scene/TerrainProvider.js:69 | Indices outside the 16-bit range are not rejected. 65536 becomes 0, 65537 becomes 1, -1 becomes 65535. Fractions are dropped toward zero. |
| `Renderer.Context.CreateVertexBuffer` | Source/Scene/TerrainProvider.js:49 | It returns a fresh vertex-buffer handle and logs exactly this call. |
| `Renderer.Context.CreateIndexBuffer` | Source/Scene/TerrainProvider.js:69 | It returns a fresh index-buffer handle and logs exactly this call. |
| `Renderer.Context.CreateVertexArray` | Source/Scene/TerrainProvider.js:71 | It returns a fresh vertex-array handle and logs exactly this call, with its attribute list and index buffer. |
| `TerrainLayout.TerrainAttributes` | Source/Scene/TerrainProvider.js:40-68 | The const `TerrainLayout.attributeIndices` is the attribute-index table `TerrainProvider.attributeIndices`: `position3D` 0, `textureCoordinates` 1, `position2D` 2. There are three descriptors, in slots 0, 1 and 2 of that table, and their slots are pairwise distinct. `position3D` has 3 components and `textureCoordinates` has 2. Both are tightly interleaved in the one vertex buffer: the first starts at offset 0, the second starts where the first ends, and the second ends at the shared stride `5*size`. `position2D` is the constant `[0.0, 0.0]` and has no buffer, offset or stride. |
| `TerrainLayout.EveryFloatIsRead` | Source/Scene/TerrainProvider.js:50-64 | Float k of the vertex buffer is read by some component of vertex k/5. It belongs to the 3D position for the first three floats of a vertex and to the texture coordinates for the last two. |
| `TerrainLayout.NoFloatIsReadTwice` | Source/Scene/TerrainProvider.js:50-64 | For a positive float size, two attribute components that read the same byte are the same component of the same vertex. The two attributes therefore never overlap. |
| `TerrainProviders.TerrainProvider.Create` | Source/Scene/TerrainProvider.js:24-33 | Constructing the abstract provider always fails with the `DeveloperError` "This type should not be instantiated directly.". No instance is returned. |
| `TerrainProviders.TerrainProvider.CreateTileGeometry` | Source/Scene/TerrainProvider.js:82-90 | The abstract `createTileGeometry` fails with the same `DeveloperError` for every tile. Nothing depends on the tile's level. |
| `TerrainProviders.TerrainProvider.CreateTileGeometryFromBuffers` | Source/Scene/TerrainProvider.js:46-72 | The packer makes exactly three context calls, in order, as stated by `IsPackingOf`: a static vertex buffer over the vertices, a static `UNSIGNED_SHORT` index buffer over the converted indices, and a vertex array over the terrain attributes of that vertex buffer and that index buffer. The tile's `extentVA` becomes the fresh vertex array. The `modifies` frame leaves every other tile field unchanged. |
| `TerrainProviders.PackingUploadsBuffers` | Source/Scene/TerrainProvider.js:47-71 | After packing, the vertex buffer holds as many numbers as the vertices. The index buffer holds ToUint16 of each index, in order. Both interleaved attributes read the one uploaded vertex buffer with stride `5*size`. |

## Left out

- Floating point: JavaScript numbers are modelled as `real`. NaN, the infinities and -0 are not modelled; ToUint16 maps all of them to 0. The rounding that `ComponentDatatype.toTypedArray` applies to vertices on the way into a Float32Array is not modelled either. The vertex data is passed through with its length and order.
- `ComponentDatatype.FLOAT` is taken to be 4 bytes wide, as in WebGL. Core/ComponentDatatype.js is not part of this model. The layout lemmas hold for any positive size.
- Rendering-context internals: the context calls always succeed and return fresh handles. What the GPU does with the data, and failures such as a lost device, are not modelled.
- `TerrainProviders.TerrainProvider.CreateTileGeometry`: the promise a concrete provider returns is not modelled. The success type is the empty tuple, because the abstract type never succeeds.
- Concrete providers, the tiling scheme (`tilingScheme` is only ever set to undefined here), asynchronous geometry requests and the tile life cycle are not modelled. Scene/Tile.js and Scene/TilingScheme.js are not part of this model. The `Tile` class holds only its address and `extentVA`.
- The module-loader wrapper (Source/Scene/TerrainProvider.js:1-12) carries no behaviour.
