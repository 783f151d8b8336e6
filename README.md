# GeometryBuffer, modelled in Dafny

`GeometryBuffer` packs an ordered list of triangle meshes into two shared GPU storage buffers.

- **Face buffer** (`Uint32` elements, stride 3): for each mesh, one entry per triangle. Triangle `k` is written as the local corner numbers `3k, 3k+1, 3k+2`.
- **Attribute buffer** (`Float32` elements, stride 16): for each mesh, one 16-element record per index occurrence. The record holds the position, the normal and the tangent of the referenced vertex, then `u` and `1 - v`. The remaining slots are zero padding.

For each mesh it also creates one bottom-level ray-tracing acceleration container. The container's descriptor points at the mesh's slice of both buffers. `build` records one build command per container and submits the list.

The project has three modules:

- `Slices` (`slices.dfy`): slices laid end to end in one flat array. It defines running offsets as prefix sums and shows that the slices are ordered, disjoint and cover the array. It also gives the position of each part's elements in the concatenation.
- `PackedLayout` (`packed_layout.dfy`): the meshes and the exact contents of both packed arrays, defined as functions.
  - The sizing pass and the fill pass agree.
  - Every face slot holds its local position.
  - Every attribute slot holds the right slot of the right record.
  - Both running offsets count the index occurrences before them.
- `GeometryBuffers` (`geometry_buffer.dfy`):
  - Device objects modelled as values: buffer handles, descriptors, acceleration containers and build commands.
  - The container records and their properties.
  - The imperative sizing and fill loops over `array`s.
  - The `GeometryBuffer` class, with `Init`, `Build` and the getters.

`Init` is proved to leave exactly `FaceData(gs)` and `AttributeData(gs, calculateTangents)` in the uploaded arrays. It appends exactly `Containers(...)` to the container list. Everything else about those values is proved as lemmas about those functions.

## Model

| member | source | states |
|---|---|---|
| Slices.SlicesOrdered | GeometryBuffer.mjs:146-147 | the running offset only grows, so slice i ends no later than any later slice j starts |
| Slices.SliceWithin | GeometryBuffer.mjs:146-147 | every slice ends inside the array whose length is the sum of all slice lengths |
| Slices.Owner | GeometryBuffer.mjs:72-76 | every position of a packed array lies inside some slice (the arrays are covered) |
| Slices.OwnerUnique | GeometryBuffer.mjs:146-147 | a position lies in only one slice (the slices are disjoint) |
| Slices.ConcatAt | GeometryBuffer.mjs:85-94 | element p of part i sits at part i's offset plus p in the packed array |
| PackedLayout.Triangles | GeometryBuffer.mjs:83-89 | m triangles occupy 3m face slots |
| PackedLayout.TrianglesAt | GeometryBuffer.mjs:83-89 | within a mesh's face slice, local slot p holds p |
| PackedLayout.Record | GeometryBuffer.mjs:94-110 | an attribute record has 16 elements |
| PackedLayout.RecordLayout | GeometryBuffer.mjs:95-110 | record slots 0-2 position, 4-6 normal, 8-10 tangent, 12 u, 13 1-v; slots 3, 7, 11, 14 and 15 are 0 |
| PackedLayout.Expanded | GeometryBuffer.mjs:92-111 | the records of n index occurrences occupy 16n elements |
| PackedLayout.ExpandedAt | GeometryBuffer.mjs:92-94 | record ii of a mesh's slice is the record of vertex indices[ii], at element 16·ii |
| PackedLayout.SizingMatchesFill | GeometryBuffer.mjs:51-56 | each mesh's filled slice is exactly as long as the sizing pass counted, so the arrays are filled exactly |
| PackedLayout.FaceFillStep | GeometryBuffer.mjs:83-89 | the face fill for mesh i appends its triangles right after the earlier meshes and stays inside the array |
| PackedLayout.AttributeFillStep | GeometryBuffer.mjs:92-111 | the attribute fill for mesh i appends its records right after the earlier meshes and stays inside the array |
| PackedLayout.OffsetsCountIndices | GeometryBuffer.mjs:142-147 | the face offset of mesh i equals the index count before it, and the attribute element offset is 16 times that |
| PackedLayout.TotalsCountIndices | GeometryBuffer.mjs:54-55 | total face length = total index count; total attribute length = 16 × total index count |
| PackedLayout.FaceSlot | GeometryBuffer.mjs:83-89 | triangle k of mesh i is written as 3k, 3k+1, 3k+2 at the mesh's face offset plus 3k |
| PackedLayout.FaceSlotsCovered | GeometryBuffer.mjs:83-89 | every face slot q holds q minus its owning mesh's offset |
| PackedLayout.AttributeSlot | GeometryBuffer.mjs:92-111 | slot s of record ii of mesh i holds slot s of the record for indices[ii] |
| PackedLayout.AttributeSlotsCovered | GeometryBuffer.mjs:92-111 | every attribute slot belongs to one record of one mesh and holds that record's slot |
| PackedLayout.SingleTriangle | GeometryBuffer.mjs:51-89 | one triangle [0,1,2] gives face array [0,1,2] and a 48-element attribute array |
| GeometryBuffers.NewContainer | GeometryBuffer.mjs:116-145 | the created container is bottom level and fast trace, with one opaque triangle geometry. Its index range is the \|indices\| uint32 values from byte 4·faceOffset of the face buffer. Its vertex range is float3 positions, stride 64 bytes, from byte 4·attributeOffset, with count = the length of the flat position array. The record keeps faceOffset, faceCount = \|indices\| and attributeOffset = element offset / 16 |
| GeometryBuffers.CorrectedContainer | GeometryBuffer.mjs:129-135 | the same container and record as NewContainer, except that the vertex count is \|indices\|, the number of records in the slice |
| GeometryBuffers.ContainersBefore | GeometryBuffer.mjs:140-145 | after n meshes, n records have been created |
| GeometryBuffers.Containers | GeometryBuffer.mjs:140-145 | one record per mesh |
| GeometryBuffers.ContainerAt | GeometryBuffer.mjs:116-145 | record i is created from mesh i at the running offsets of slice i, in input order |
| GeometryBuffers.ContainerRecord | GeometryBuffer.mjs:116-145 | record i: faceOffset = index count before it = attributeOffset; faceCount = \|indices\|; bottom level, fast trace, opaque triangles; index range at 4·faceOffset bytes with count \|indices\|; vertex range at 64·attributeOffset bytes, stride 64, count \|vertices\| |
| GeometryBuffers.ContainerStep | GeometryBuffer.mjs:146-147 | mesh i+1's record starts 3·triangles face elements and \|indices\| records after mesh i's |
| GeometryBuffers.ContainerSlicesDisjoint | GeometryBuffer.mjs:140-147 | the slices two different records name do not overlap, in either buffer |
| GeometryBuffers.FaceCountsTotal | GeometryBuffer.mjs:143 | the records' face counts add up to the face buffer's length |
| GeometryBuffers.TwoGeometries | GeometryBuffer.mjs:140-147 | meshes of 2 and 1 triangles: the second record starts 6 face elements and 6 records after the first |
| GeometryBuffers.VertexRangeOverrunAsWritten | GeometryBuffer.mjs:134 | with the count as written, one quad's declared vertex range ends at byte 768 of a 384-byte attribute buffer |
| GeometryBuffers.VertexRangeAsWritten | GeometryBuffer.mjs:129-135 | record i's declared vertex range ends at 4·(its element offset) + 64·\|vertices\| bytes. It stays inside mesh i's attribute slice exactly when \|vertices\| ≤ \|indices\|, and reaches every record the face buffer indexes exactly when \|vertices\| ≥ \|indices\| |
| GeometryBuffers.VertexRangeWithinBuffer | GeometryBuffer.mjs:129-135 | with the corrected count, mesh i's vertex range is exactly its attribute slice and ends inside the buffer |
| GeometryBuffers.SizeBuffers | GeometryBuffer.mjs:49-56 | for triangle lists, the sizing loop returns the total face and attribute element counts |
| GeometryBuffers.WriteFace | GeometryBuffer.mjs:84-88 | the three writes of one face append index, index+1, index+2 and leave later slots alone |
| GeometryBuffers.CopyFaces | GeometryBuffer.mjs:83-89 | the face loop appends a mesh's triangles at its offset; the earlier slots and every slot past the mesh's face slice keep their values |
| GeometryBuffers.WriteVec4 | GeometryBuffer.mjs:95-98 | four consecutive writes append [x, y, z, w] and leave later slots alone |
| GeometryBuffers.WriteAttributeRecord | GeometryBuffer.mjs:93-110 | the sixteen writes for one index occurrence append exactly that vertex's record |
| GeometryBuffers.CopyAttributes | GeometryBuffer.mjs:92-111 | the attribute loop appends one record per index occurrence at the mesh's offset; every slot past the mesh's records keeps its value |
| GeometryBuffers.FillGeometry | GeometryBuffer.mjs:76-147 | one pass of the outer loop extends both filled prefixes by mesh i's slices and advances both running offsets; the slots past the new offsets keep their values |
| GeometryBuffers.FillBuffers | GeometryBuffer.mjs:74-148 | the fill loop leaves exactly FaceData and AttributeData in the arrays and returns the records it created (NewContainer at each mesh's running offsets), in input order |
| GeometryBuffers.PackGeometries | GeometryBuffer.mjs:48-148 | buffers sized 4 bytes per element, fresh arrays of the summed lengths, filled with the packed layout, plus the records |
| GeometryBuffers.GeometryBuffer.constructor | GeometryBuffer.mjs:6-14 | a new object starts with no buffers and an empty record list, then runs init; afterwards the object's invariant holds and the list is exactly the given meshes' records |
| GeometryBuffers.GeometryBuffer.GetFaceBuffer | GeometryBuffer.mjs:17-19 | once initialised, the face buffer is present and 4 bytes per uploaded face element |
| GeometryBuffers.GeometryBuffer.GetAttributeBuffer | GeometryBuffer.mjs:21-23 | once initialised, the attribute buffer is present and 4 bytes per uploaded attribute element |
| GeometryBuffers.GeometryBuffer.GetBottomLevelContainers | GeometryBuffer.mjs:25-27 | once initialised, the list ends with one record per mesh of the last init, in order |
| GeometryBuffers.GeometryBuffer.Build | GeometryBuffer.mjs:29-39 | one build command per record, in record order |
| GeometryBuffers.GeometryBuffer.Init | GeometryBuffer.mjs:41-153 | both buffers sized and filled with the packed layout; the records are appended to the existing ones; the object's invariant holds |

## Findings

| source | as written | input that shows it | evidently intended | confidence | as-written member | corrected member |
|---|---|---|---|---|---|---|
| GeometryBuffer.mjs:134 | the vertex descriptor's `count` is `vertices.length`, the length of the flat position array (three numbers per vertex). It is too large when \|vertices\| > \|indices\| and too small when \|vertices\| < \|indices\| | too large: one quad, indices [0,1,2,0,2,3] and 12 position numbers, gives 6 records (384 bytes) but a declared range of 12 vertices of 64 bytes (768 bytes). Too small: 8 vertices (24 position numbers) with 36 indices declare 24 vertices, while the face buffer reaches record 35 | the count of records in the mesh's slice, `indices.length`, since the face buffer indexes those records locally as 0 … indices.length-1 | medium, not executed | GeometryBuffers.VertexRangeOverrunAsWritten | GeometryBuffers.VertexRangeWithinBuffer |

The model keeps the source's behaviour. `GeometryBuffers.NewContainer` builds each container with the count as written, and `Init` appends exactly those records. `GeometryBuffers.VertexRangeAsWritten` states the general effect: a mesh's declared range leaves its slice whenever the position array is longer than the index list. `GeometryBuffers.CorrectedContainer` is the container with the intended count. `GeometryBuffers.VertexRangeWithinBuffer` proves that its range is exactly the mesh's slice.

## Left out

- Device calls (`createBuffer`, `createRayTracingAccelerationContainer`, `createCommandEncoder`, queue submission, `setSubData`) are modelled as values. A buffer handle is the request it was made with. An acceleration container is its descriptor. `Build` returns the command list instead of submitting it. The upload is modelled as the object keeping the filled arrays. The device field and a missing device are not modelled.
- The `byteLength` properties patched onto the two buffers after creation (lines 62 and 69) are not modelled. `GpuBuffer.size` carries the same value.
- `calculateTangentsAndBitangents` (utils.mjs) is not part of this model. It is a function parameter `calculateTangents` that returns the tangent array. The bitangents are computed in the source but never written to either buffer, so they are dropped.
- `Float32Array` rounding is not modelled: attribute values are `real`, and `1 - v` is exact. `Uint32Array` wrap-around is not modelled: face values are unbounded integers and offsets unbounded naturals.
- In the source, a vertex index outside the position, normal, tangent or uv arrays reads `undefined` and stores NaN. The model requires every index to be in range (`WellFormed`).
- The model requires `|indices| % 3 == 0`. Under it, `indices.length / 3` is a whole number.
- In the source, a mesh whose index count n is not a multiple of 3 still sizes correctly: in double arithmetic `n / 3 * 3` gives back n, so line 54 adds exactly n.
- For such a mesh, the face loop at line 83 runs while `ii < n / 3`, which is ceil(n/3) times. It writes one or two slots past the mesh's n-slot face slice. Those writes land in the slices of the meshes that follow, which may be more than one mesh when the next mesh has fewer indices than the spill. The mesh owning each such slot fills it later, so the final array is unaffected. A write past the last slot is dropped by the typed array.
- The model does not capture this case.
- GeometryBuffers.GeometryBuffer.Init: the source pushes each record onto the shared list inside the loop. The model collects the records of one call in a local sequence and appends them after the loop. The resulting list is the same, but there is no aliasing of the list while it is built.
- GeometryBuffers.WriteAttributeRecord: the sixteen element writes of lines 95-110 are grouped as four writes of four consecutive elements (`WriteVec4`), in the same order and to the same positions.
