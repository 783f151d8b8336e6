/** GeometryBuffer: packs an ordered list of triangle meshes into one shared
    face buffer and one shared attribute buffer, and creates one bottom-level
    ray-tracing acceleration container per mesh that points at the mesh's
    slices of the two buffers.

    Device objects are values here: a buffer handle records the request it
    was created with, an acceleration container records the descriptor it
    was created from, and Build returns the list of build commands that is
    submitted to the device queue. */
module GeometryBuffers {
  import opened Slices
  import opened PackedLayout

  datatype Option<T> = None | Some(value: T)

  datatype BufferUsage = CopyDst | Storage

  /** A device buffer, as requested from the device: usage flags and size in bytes. */
  datatype GpuBuffer = GpuBuffer(usage: set<BufferUsage>, size: nat)

  /** The enumerated values the descriptors use. */
  datatype ContainerLevel = Bottom | Top
  datatype ContainerFlag = PreferFastTrace
  datatype GeometryFlag = Opaque
  datatype GeometryKind = TriangleGeometry
  datatype IndexFormat = Uint32
  datatype VertexFormat = Float3

  /** Where a geometry's indices live: byte offset into the buffer and index count. */
  datatype IndexRange = IndexRange(buffer: GpuBuffer, format: IndexFormat, offset: nat, count: nat)

  /** Where a geometry's vertex positions live: byte stride between
      consecutive vertices, byte offset of the first, and a count. */
  datatype VertexRange = VertexRange(buffer: GpuBuffer, format: VertexFormat, stride: nat, offset: nat, count: nat)

  datatype GeometryDescriptor = GeometryDescriptor(flags: GeometryFlag, kind: GeometryKind, index: IndexRange, vertex: VertexRange)

  /** A ray-tracing acceleration container, as requested from the device. */
  datatype AccelerationContainer = AccelerationContainer(level: ContainerLevel, flags: ContainerFlag, geometries: seq<GeometryDescriptor>)

  /** The bookkeeping record kept per geometry. faceOffset is an element
      index into the face buffer, attributeOffset a record index into the
      attribute buffer. */
  datatype Container = Container(instance: AccelerationContainer, faceOffset: nat, faceCount: nat, attributeOffset: nat)

  datatype Command = BuildAccelerationContainer(container: AccelerationContainer)

  /** The buffer both packed arrays are uploaded to: copy destination and storage. */
  function StorageBuffer(size: nat): (buffer: GpuBuffer)
  {
    GpuBuffer({CopyDst, Storage}, size)
  }

  /** Create the acceleration container of geometry g whose slices start at
      element faceOffset of the face buffer and element attributeOffset of
      the attribute buffer, declaring vertexCount vertices, and its
      bookkeeping record. Elements of both buffers are 4 bytes; the
      attribute stride is 16 elements. */
  function MakeContainer(g: Geometry, faceOffset: nat, attributeOffset: nat,
                         faceBuffer: GpuBuffer, attributeBuffer: GpuBuffer, vertexCount: nat): (c: Container)
  {
    var instance := AccelerationContainer(Bottom, PreferFastTrace, [
      GeometryDescriptor(Opaque, TriangleGeometry,
        IndexRange(faceBuffer, Uint32, faceOffset * 4, |g.indices|),
        VertexRange(attributeBuffer, Float3, 16 * 4, attributeOffset * 4, vertexCount))]);
    Container(instance, faceOffset, |g.indices|, attributeOffset / 16)
  }

  /** The container init creates for geometry g: a bottom-level, fast-trace
      container of one opaque triangle geometry whose indices are the
      |indices| 32-bit values from byte 4 * faceOffset of the face buffer and
      whose vertices are float3 positions 64 bytes apart from byte
      4 * attributeOffset of the attribute buffer, declared as the length of
      the flat position array; and its record, which keeps the face offset,
      the index count and the attribute offset in whole records. */
  function NewContainer(g: Geometry, faceOffset: nat, attributeOffset: nat,
                        faceBuffer: GpuBuffer, attributeBuffer: GpuBuffer): (c: Container)
    ensures c.instance.level == Bottom && c.instance.flags == PreferFastTrace
    ensures |c.instance.geometries| == 1
    ensures c.instance.geometries[0].flags == Opaque && c.instance.geometries[0].kind == TriangleGeometry
    ensures c.instance.geometries[0].index == IndexRange(faceBuffer, Uint32, 4 * faceOffset, |g.indices|)
    ensures c.instance.geometries[0].vertex == VertexRange(attributeBuffer, Float3, 64, 4 * attributeOffset, |g.vertices|)
    ensures c.faceOffset == faceOffset && c.faceCount == |g.indices|
    ensures c.attributeOffset == attributeOffset / 16
  {
    MakeContainer(g, faceOffset, attributeOffset, faceBuffer, attributeBuffer, |g.vertices|)
  }

  /** The container with the vertex count the attribute slice actually
      holds, one record per index occurrence; otherwise as NewContainer. */
  function CorrectedContainer(g: Geometry, faceOffset: nat, attributeOffset: nat,
                              faceBuffer: GpuBuffer, attributeBuffer: GpuBuffer): (c: Container)
    ensures c.instance == NewContainer(g, faceOffset, attributeOffset, faceBuffer, attributeBuffer).instance.(
      geometries := [NewContainer(g, faceOffset, attributeOffset, faceBuffer, attributeBuffer).instance.geometries[0].(
        vertex := VertexRange(attributeBuffer, Float3, 64, 4 * attributeOffset, |g.indices|))])
    ensures c.faceOffset == faceOffset && c.faceCount == |g.indices|
    ensures c.attributeOffset == attributeOffset / 16
  {
    MakeContainer(g, faceOffset, attributeOffset, faceBuffer, attributeBuffer, |g.indices|)
  }

  /** Byte offset just past the vertex range a container declares. */
  function VertexRangeEnd(c: Container): (end: nat)
  {
    if |c.instance.geometries| == 0 then 0
    else
      var v := c.instance.geometries[0].vertex;
      v.offset + v.count * v.stride
  }

  /** As written, the declared vertex range can run past the end of the
      attribute buffer: one quad (two triangles sharing an edge, 4
      vertices, 6 indices) packs 6 records, 384 bytes, but declares 12
      vertices of 64 bytes. */
  lemma VertexRangeOverrunAsWritten(vertices: seq<real>, normals: seq<real>, uvs: seq<real>)
    requires |vertices| == 12 && |normals| == 12 && |uvs| == 8
    ensures
      var g := Geometry([0, 1, 2, 0, 2, 3], vertices, normals, uvs);
      var attributeBuffer := StorageBuffer(Sum(AttributeLens([g])) * 4);
      var c := NewContainer(g, Offset(FaceLens([g]), 0), Offset(AttributeLens([g]), 0), StorageBuffer(Sum(FaceLens([g])) * 4), attributeBuffer);
      attributeBuffer.size == 384 && VertexRangeEnd(c) == 768
  {
  }

  /** The records init appends for the first n geometries, in input order. */
  function ContainersBefore(gs: seq<Geometry>, faceBuffer: GpuBuffer, attributeBuffer: GpuBuffer, n: nat): (cs: seq<Container>)
    requires n <= |gs|
    ensures |cs| == n
  {
    if n == 0 then []
    else
      ContainersBefore(gs, faceBuffer, attributeBuffer, n - 1)
      + [NewContainer(gs[n - 1], Offset(FaceLens(gs), n - 1), Offset(AttributeLens(gs), n - 1), faceBuffer, attributeBuffer)]
  }

  /** The records init appends, one per geometry. */
  function Containers(gs: seq<Geometry>, faceBuffer: GpuBuffer, attributeBuffer: GpuBuffer): (cs: seq<Container>)
    ensures |cs| == |gs|
  {
    ContainersBefore(gs, faceBuffer, attributeBuffer, |gs|)
  }

  /** Record i is created from geometry i at the offsets of slice i. */
  lemma {:induction false} ContainerAt(gs: seq<Geometry>, faceBuffer: GpuBuffer, attributeBuffer: GpuBuffer, n: nat, i: nat)
    requires i < n <= |gs|
    ensures ContainersBefore(gs, faceBuffer, attributeBuffer, n)[i]
         == NewContainer(gs[i], Offset(FaceLens(gs), i), Offset(AttributeLens(gs), i), faceBuffer, attributeBuffer)
  {
    if i < n - 1 {
      ContainerAt(gs, faceBuffer, attributeBuffer, n - 1, i);
    }
  }

  /** Record i of a list of triangle meshes: one record per geometry; its
      face offset counts the face elements, and its attribute offset the
      index occurrences, of the geometries before it; its face count is the
      geometry's index count; its descriptor points 4 * faceOffset bytes
      into the face buffer and 64 * attributeOffset bytes into the attribute
      buffer, with a vertex stride of 64 bytes. */
  lemma ContainerRecord(gs: seq<Geometry>, faceBuffer: GpuBuffer, attributeBuffer: GpuBuffer, i: nat)
    requires forall k :: 0 <= k < |gs| ==> |gs[k].indices| % 3 == 0
    requires i < |gs|
    ensures |Containers(gs, faceBuffer, attributeBuffer)| == |gs|
    ensures
      var c := Containers(gs, faceBuffer, attributeBuffer)[i];
      var d := c.instance.geometries;
      && c.faceOffset == Offset(FaceLens(gs), i) == Offset(IndexCounts(gs), i)
      && c.attributeOffset == Offset(IndexCounts(gs), i)
      && 16 * c.attributeOffset == Offset(AttributeLens(gs), i)
      && c.faceCount == |gs[i].indices|
      && c.instance.level == Bottom && c.instance.flags == PreferFastTrace
      && |d| == 1
      && d[0].index == IndexRange(faceBuffer, Uint32, 4 * c.faceOffset, |gs[i].indices|)
      && d[0].vertex == VertexRange(attributeBuffer, Float3, 64, 64 * c.attributeOffset, |gs[i].vertices|)
  {
    ContainerAt(gs, faceBuffer, attributeBuffer, |gs|, i);
    OffsetsCountIndices(gs, i);
  }

  /** Consecutive records: geometry i+1 starts where geometry i ends, in
      both buffers (its face slice 3 * triangles later, its records
      |indices| later). */
  lemma ContainerStep(gs: seq<Geometry>, faceBuffer: GpuBuffer, attributeBuffer: GpuBuffer, i: nat)
    requires forall k :: 0 <= k < |gs| ==> |gs[k].indices| % 3 == 0
    requires i + 1 < |gs|
    ensures
      var cs := Containers(gs, faceBuffer, attributeBuffer);
      && cs[i + 1].faceOffset == cs[i].faceOffset + FaceLen(gs[i])
      && cs[i + 1].attributeOffset == cs[i].attributeOffset + |gs[i].indices|
  {
    ContainerRecord(gs, faceBuffer, attributeBuffer, i);
    ContainerRecord(gs, faceBuffer, attributeBuffer, i + 1);
  }

  /** The face slices named by two different records do not overlap. */
  lemma ContainerSlicesDisjoint(gs: seq<Geometry>, faceBuffer: GpuBuffer, attributeBuffer: GpuBuffer, i: nat, j: nat)
    requires forall k :: 0 <= k < |gs| ==> |gs[k].indices| % 3 == 0
    requires i < j < |gs|
    ensures
      var cs := Containers(gs, faceBuffer, attributeBuffer);
      && cs[i].faceOffset + cs[i].faceCount <= cs[j].faceOffset
      && cs[i].attributeOffset + cs[i].faceCount <= cs[j].attributeOffset
  {
    ContainerRecord(gs, faceBuffer, attributeBuffer, i);
    ContainerRecord(gs, faceBuffer, attributeBuffer, j);
    SlicesOrdered(IndexCounts(gs), i, j);
  }

  /** As written, record i declares a vertex range that ends 64 bytes per
      position number past the start of geometry i's attribute slice; it
      stays inside that slice exactly when the position array is no longer
      than the index list, and it reaches every record the face buffer
      indexes (local 0 .. |indices| - 1) exactly when it is no shorter. */
  lemma VertexRangeAsWritten(gs: seq<Geometry>, faceBuffer: GpuBuffer, attributeBuffer: GpuBuffer, i: nat)
    requires i < |gs|
    ensures
      var c := Containers(gs, faceBuffer, attributeBuffer)[i];
      && VertexRangeEnd(c) == 4 * Offset(AttributeLens(gs), i) + 64 * |gs[i].vertices|
      && (VertexRangeEnd(c) <= 4 * Offset(AttributeLens(gs), i + 1) <==> |gs[i].vertices| <= |gs[i].indices|)
      && (VertexRangeEnd(c) >= 4 * Offset(AttributeLens(gs), i + 1) <==> |gs[i].vertices| >= |gs[i].indices|)
  {
    ContainerAt(gs, faceBuffer, attributeBuffer, |gs|, i);
  }

  /** With the corrected count, the vertex range of geometry i's container
      is exactly geometry i's slice of the attribute buffer, so it ends
      inside the buffer. */
  lemma VertexRangeWithinBuffer(gs: seq<Geometry>, faceBuffer: GpuBuffer, i: nat)
    requires i < |gs|
    ensures
      var attributeBuffer := StorageBuffer(Sum(AttributeLens(gs)) * 4);
      var c := CorrectedContainer(gs[i], Offset(FaceLens(gs), i), Offset(AttributeLens(gs), i), faceBuffer, attributeBuffer);
      && |c.instance.geometries| == 1
      && c.instance.geometries[0].vertex.offset == 4 * Offset(AttributeLens(gs), i)
      && VertexRangeEnd(c) == 4 * Offset(AttributeLens(gs), i + 1) <= attributeBuffer.size
  {
    SliceWithin(AttributeLens(gs), i);
  }

  function FaceCounts(cs: seq<Container>): (counts: seq<nat>)
  {
    seq(|cs|, k requires 0 <= k < |cs| => cs[k].faceCount)
  }

  /** The face counts of all records add up to the total index count, which
      is the length of the face buffer. */
  lemma FaceCountsTotal(gs: seq<Geometry>, faceBuffer: GpuBuffer, attributeBuffer: GpuBuffer)
    requires forall k :: 0 <= k < |gs| ==> |gs[k].indices| % 3 == 0
    ensures Sum(FaceCounts(Containers(gs, faceBuffer, attributeBuffer))) == Sum(IndexCounts(gs)) == Sum(FaceLens(gs))
  {
    forall k | 0 <= k < |gs| {
      ContainerAt(gs, faceBuffer, attributeBuffer, |gs|, k);
    }
    assert FaceCounts(Containers(gs, faceBuffer, attributeBuffer)) == IndexCounts(gs);
    TotalsCountIndices(gs);
  }

  /** Two geometries, the first of 2 triangles and the second of 1: the
      second record starts 6 face elements and 6 records after the first. */
  lemma TwoGeometries(a: Geometry, b: Geometry, faceBuffer: GpuBuffer, attributeBuffer: GpuBuffer)
    requires |a.indices| == 6 && |b.indices| == 3
    ensures
      var cs := Containers([a, b], faceBuffer, attributeBuffer);
      && cs[1].faceOffset == cs[0].faceOffset + 6
      && cs[1].attributeOffset == cs[0].attributeOffset + 6
  {
    ContainerStep([a, b], faceBuffer, attributeBuffer, 0);
  }

  /** The sizing pass: the total element counts of the two buffers. */
  method SizeBuffers(gs: seq<Geometry>) returns (faceTotal: nat, attributeTotal: nat)
    requires forall k :: 0 <= k < |gs| ==> |gs[k].indices| % 3 == 0
    ensures faceTotal == Sum(FaceLens(gs))
    ensures attributeTotal == Sum(AttributeLens(gs))
  {
    faceTotal, attributeTotal := 0, 0;
    for i := 0 to |gs|
      invariant faceTotal == Offset(FaceLens(gs), i)
      invariant attributeTotal == Offset(AttributeLens(gs), i)
    {
      var indices := gs[i].indices;
      faceTotal := faceTotal + |indices| / 3 * 3;
      attributeTotal := attributeTotal + |indices| * 16;
    }
  }

  /** Write the three corner numbers of one face at `offset`. */
  method WriteFace(data: array<int>, offset: nat, index: int)
    requires offset + 3 <= data.Length
    modifies data
    ensures data[..offset + 3] == old(data[..offset]) + [index + 0, index + 1, index + 2]
    ensures forall k :: offset + 3 <= k < data.Length ==> data[k] == old(data[k])
  {
    var o := offset;
    data[o] := index + 0; o := o + 1;
    data[o] := index + 1; o := o + 1;
    data[o] := index + 2;
    assert data[..offset + 3] == data[..offset] + [index + 0, index + 1, index + 2];
  }

  /** Copy each face of a geometry with the given number of triangles into
      the face buffer at faceOffset, as local corner numbers. */
  method CopyFaces(data: array<int>, faceOffset: nat, triangles: nat)
    requires faceOffset + triangles * 3 <= data.Length
    modifies data
    ensures data[..faceOffset + triangles * 3] == old(data[..faceOffset]) + Triangles(triangles)
    ensures forall k :: faceOffset + triangles * 3 <= k < data.Length ==> data[k] == old(data[k])
  {
    var ii := 0;
    while ii < triangles
      invariant ii <= triangles
      invariant data[..faceOffset + ii * 3] == old(data[..faceOffset]) + Triangles(ii)
      invariant forall k :: faceOffset + ii * 3 <= k < data.Length ==> data[k] == old(data[k])
    {
      var index := ii * 3;
      var offset := faceOffset + ii * 3;
      WriteFace(data, offset, index);
      ii := ii + 1;
    }
  }

  /** Write four consecutive elements at `offset`. */
  method WriteVec4(data: array<real>, offset: nat, x: real, y: real, z: real, w: real)
    requires offset + 4 <= data.Length
    modifies data
    ensures data[..offset + 4] == old(data[..offset]) + [x, y, z, w]
    ensures forall k :: offset + 4 <= k < data.Length ==> data[k] == old(data[k])
  {
    var o := offset;
    data[o] := x; o := o + 1;
    data[o] := y; o := o + 1;
    data[o] := z; o := o + 1;
    data[o] := w;
    assert data[..offset + 4] == data[..offset] + [x, y, z, w];
  }

  /** Write the 16-element record of vertex `index` at `offset`: position,
      normal and tangent each padded with 0, then u, 1 - v, 0, 0. */
  method WriteAttributeRecord(data: array<real>, offset: nat, g: Geometry, tangents: seq<real>, index: nat)
    requires Referenceable(g, tangents, index) && offset + 16 <= data.Length
    modifies data
    ensures data[..offset + 16] == old(data[..offset]) + Record(g, tangents, index)
    ensures forall k :: offset + 16 <= k < data.Length ==> data[k] == old(data[k])
  {
    WriteVec4(data, offset, g.vertices[index * 3 + 0], g.vertices[index * 3 + 1], g.vertices[index * 3 + 2], 0.0);
    WriteVec4(data, offset + 4, g.normals[index * 3 + 0], g.normals[index * 3 + 1], g.normals[index * 3 + 2], 0.0);
    WriteVec4(data, offset + 8, tangents[index * 3 + 0], tangents[index * 3 + 1], tangents[index * 3 + 2], 0.0);
    WriteVec4(data, offset + 12, 0.0 + g.uvs[index * 2 + 0], 1.0 - g.uvs[index * 2 + 1], 0.0, 0.0);
  }

  /** Copy one record per index occurrence of g into the attribute buffer at attributeOffset. */
  method CopyAttributes(data: array<real>, attributeOffset: nat, g: Geometry, tangents: seq<real>)
    requires WellFormed(g, tangents) && attributeOffset + |g.indices| * 16 <= data.Length
    modifies data
    ensures data[..attributeOffset + |g.indices| * 16] == old(data[..attributeOffset]) + Expanded(g, tangents, |g.indices|)
    ensures forall k :: attributeOffset + |g.indices| * 16 <= k < data.Length ==> data[k] == old(data[k])
  {
    var ii := 0;
    while ii < |g.indices|
      invariant ii <= |g.indices|
      invariant data[..attributeOffset + ii * 16] == old(data[..attributeOffset]) + Expanded(g, tangents, ii)
      invariant forall k :: attributeOffset + ii * 16 <= k < data.Length ==> data[k] == old(data[k])
    {
      var index := g.indices[ii];
      var offset := attributeOffset + ii * 16;
      WriteAttributeRecord(data, offset, g, tangents, index);
      ii := ii + 1;
    }
  }

  /** Geometries 0..i-1 are in place: both running offsets point just past
      their slices and the arrays hold their faces and records up to there. */
  ghost predicate FilledBefore(gs: seq<Geometry>, calculateTangents: Geometry -> seq<real>, i: nat,
                               faceBufferData: array<int>, attributeBufferData: array<real>,
                               faceOffset: nat, attributeOffset: nat)
    reads faceBufferData, attributeBufferData
    requires AllWellFormed(gs, calculateTangents) && i <= |gs|
  {
    && faceOffset == Offset(FaceLens(gs), i) <= faceBufferData.Length
    && attributeOffset == Offset(AttributeLens(gs), i) <= attributeBufferData.Length
    && faceBufferData[..faceOffset] == ConcatBefore(FaceParts(gs), i)
    && attributeBufferData[..attributeOffset] == ConcatBefore(AttributeParts(gs, calculateTangents), i)
  }

  /** Copy geometry i's faces and attribute records into the two arrays
      right after those of the geometries before it, and advance both
      running offsets past them. */
  method FillGeometry(gs: seq<Geometry>, calculateTangents: Geometry -> seq<real>, i: nat,
                      faceBufferData: array<int>, attributeBufferData: array<real>,
                      faceOffset: nat, attributeOffset: nat)
      returns (nextFaceOffset: nat, nextAttributeOffset: nat)
    requires AllWellFormed(gs, calculateTangents) && i < |gs|
    requires faceBufferData.Length == Sum(FaceLens(gs))
    requires attributeBufferData.Length == Sum(AttributeLens(gs))
    requires FilledBefore(gs, calculateTangents, i, faceBufferData, attributeBufferData, faceOffset, attributeOffset)
    modifies faceBufferData, attributeBufferData
    ensures FilledBefore(gs, calculateTangents, i + 1, faceBufferData, attributeBufferData, nextFaceOffset, nextAttributeOffset)
    ensures forall k :: nextFaceOffset <= k < faceBufferData.Length ==> faceBufferData[k] == old(faceBufferData[k])
    ensures forall k :: nextAttributeOffset <= k < attributeBufferData.Length ==> attributeBufferData[k] == old(attributeBufferData[k])
  {
    var g := gs[i];
    var tangents := calculateTangents(g);

    // copy each face, then each attribute record, into the shared arrays
    FaceFillStep(gs, i);
    CopyFaces(faceBufferData, faceOffset, |g.indices| / 3);
    AttributeFillStep(gs, calculateTangents, i);
    CopyAttributes(attributeBufferData, attributeOffset, g, tangents);

    nextFaceOffset := faceOffset + |g.indices| / 3 * 3;
    nextAttributeOffset := attributeOffset + |g.indices| * 16;
  }

  /** The fill pass of init: walk the geometries once with running
      element offsets into the two arrays, copy each geometry's faces and
      attribute records to its offsets, and create its container record;
      the records are returned in the order created. */
  method FillBuffers(gs: seq<Geometry>, calculateTangents: Geometry -> seq<real>,
                     faceBufferData: array<int>, attributeBufferData: array<real>,
                     faceBuffer: GpuBuffer, attributeBuffer: GpuBuffer)
      returns (created: seq<Container>)
    requires AllWellFormed(gs, calculateTangents)
    requires faceBufferData.Length == Sum(FaceLens(gs))
    requires attributeBufferData.Length == Sum(AttributeLens(gs))
    modifies faceBufferData, attributeBufferData
    ensures faceBufferData[..] == FaceData(gs)
    ensures attributeBufferData[..] == AttributeData(gs, calculateTangents)
    ensures created == Containers(gs, faceBuffer, attributeBuffer)
  {
    created := [];
    var faceOffset: nat, attributeOffset: nat := 0, 0;

    for i := 0 to |gs|
      invariant FilledBefore(gs, calculateTangents, i, faceBufferData, attributeBufferData, faceOffset, attributeOffset)
      invariant created == ContainersBefore(gs, faceBuffer, attributeBuffer, i)
    {
      var nextFaceOffset, nextAttributeOffset :=
        FillGeometry(gs, calculateTangents, i, faceBufferData, attributeBufferData, faceOffset, attributeOffset);

      // create the acceleration container, linked to both buffers
      var container := NewContainer(gs[i], faceOffset, attributeOffset, faceBuffer, attributeBuffer);
      created := created + [container];

      faceOffset, attributeOffset := nextFaceOffset, nextAttributeOffset;
    }
    assert created == Containers(gs, faceBuffer, attributeBuffer);
    assert faceBufferData[..] == faceBufferData[..faceOffset];
    assert attributeBufferData[..] == attributeBufferData[..attributeOffset];
  }

  /** The body of init up to the upload: find the total buffer sizes,
      create both storage buffers, fill the packed arrays and create one
      container record per geometry. */
  method PackGeometries(gs: seq<Geometry>, calculateTangents: Geometry -> seq<real>)
    returns (faceBuffer: GpuBuffer, attributeBuffer: GpuBuffer,
             faceBufferData: array<int>, attributeBufferData: array<real>, created: seq<Container>)
    requires AllWellFormed(gs, calculateTangents)
    ensures fresh(faceBufferData) && fresh(attributeBufferData)
    ensures faceBuffer == StorageBuffer(Sum(FaceLens(gs)) * 4)
    ensures attributeBuffer == StorageBuffer(Sum(AttributeLens(gs)) * 4)
    ensures faceBufferData.Length == Sum(FaceLens(gs))
    ensures attributeBufferData.Length == Sum(AttributeLens(gs))
    ensures faceBufferData[..] == FaceData(gs)
    ensures attributeBufferData[..] == AttributeData(gs, calculateTangents)
    ensures created == Containers(gs, faceBuffer, attributeBuffer)
  {
    // find total buffer sizes
    var faceTotal, attributeTotal := SizeBuffers(gs);
    faceBuffer := StorageBuffer(faceTotal * 4);
    attributeBuffer := StorageBuffer(attributeTotal * 4);
    faceBufferData := new int[faceTotal];
    attributeBufferData := new real[attributeTotal];
    created := FillBuffers(gs, calculateTangents, faceBufferData, attributeBufferData, faceBuffer, attributeBuffer);
  }

  class GeometryBuffer {
    var faceBuffer: Option<GpuBuffer>
    var attributeBuffer: Option<GpuBuffer>
    /** What was uploaded to faceBuffer and attributeBuffer. */
    var faceData: array<int>
    var attributeData: array<real>
    var containers: seq<Container>

    /** The geometries and tangent computation of the last init. */
    ghost var geometries: seq<Geometry>
    ghost var tangents: Geometry -> seq<real>

    /** The two buffers hold the packed layout of the last init's geometries
        and the last |geometries| records are that init's containers. */
    ghost predicate Valid()
      reads this, faceData, attributeData
    {
      && AllWellFormed(geometries, tangents)
      && faceBuffer == Some(StorageBuffer(Sum(FaceLens(geometries)) * 4))
      && attributeBuffer == Some(StorageBuffer(Sum(AttributeLens(geometries)) * 4))
      && faceData.Length == Sum(FaceLens(geometries))
      && attributeData.Length == Sum(AttributeLens(geometries))
      && faceData[..] == FaceData(geometries)
      && attributeData[..] == AttributeData(geometries, tangents)
      && |geometries| <= |containers|
      && containers[|containers| - |geometries|..] == Containers(geometries, faceBuffer.value, attributeBuffer.value)
    }

    constructor (gs: seq<Geometry>, calculateTangents: Geometry -> seq<real>)
      requires AllWellFormed(gs, calculateTangents)
      ensures Valid() && geometries == gs && tangents == calculateTangents
      ensures containers == Containers(gs, faceBuffer.value, attributeBuffer.value)
    {
      faceBuffer, attributeBuffer := None, None;
      containers := [];
      faceData, attributeData := new int[0], new real[0];
      geometries, tangents := [], calculateTangents;
      new;
      Init(gs, calculateTangents);
    }

    /** The face buffer handle; once initialised, a buffer of exactly the
        byte size of the uploaded face data. */
    function GetFaceBuffer(): (buffer: Option<GpuBuffer>)
      reads this, faceData, attributeData
      ensures Valid() ==> buffer.Some? && buffer.value.size == 4 * faceData.Length
    {
      faceBuffer
    }

    /** The attribute buffer handle; once initialised, a buffer of exactly
        the byte size of the uploaded attribute data. */
    function GetAttributeBuffer(): (buffer: Option<GpuBuffer>)
      reads this, faceData, attributeData
      ensures Valid() ==> buffer.Some? && buffer.value.size == 4 * attributeData.Length
    {
      attributeBuffer
    }

    /** The container records; once initialised, they end with one record
        per geometry of the last init, in input order. */
    function GetBottomLevelContainers(): (cs: seq<Container>)
      reads this, faceData, attributeData
      ensures Valid() ==> |geometries| <= |cs|
      ensures Valid() ==> cs[|cs| - |geometries|..] == Containers(geometries, faceBuffer.value, attributeBuffer.value)
    {
      containers
    }

    /** The command list submitted to the device queue: one build command
        per container, in order. */
    method Build() returns (commands: seq<Command>)
      ensures |commands| == |containers|
      ensures forall k :: 0 <= k < |containers| ==> commands[k] == BuildAccelerationContainer(containers[k].instance)
    {
      commands := [];
      for k := 0 to |containers|
        invariant |commands| == k
        invariant forall j :: 0 <= j < k ==> commands[j] == BuildAccelerationContainer(containers[j].instance)
      {
        commands := commands + [BuildAccelerationContainer(containers[k].instance)];
      }
    }

    /** Size, allocate, fill and upload the two buffers and append one
        container record per geometry. */
    method Init(gs: seq<Geometry>, calculateTangents: Geometry -> seq<real>)
      requires AllWellFormed(gs, calculateTangents)
      modifies this
      ensures Valid() && geometries == gs && tangents == calculateTangents
      ensures fresh(faceData) && fresh(attributeData)
      ensures faceBuffer == Some(StorageBuffer(Sum(FaceLens(gs)) * 4))
      ensures attributeBuffer == Some(StorageBuffer(Sum(AttributeLens(gs)) * 4))
      ensures faceData[..] == FaceData(gs)
      ensures attributeData[..] == AttributeData(gs, calculateTangents)
      ensures containers == old(containers) + Containers(gs, faceBuffer.value, attributeBuffer.value)
    {
      var newFaceBuffer, newAttributeBuffer, faceBufferData, attributeBufferData, created := PackGeometries(gs, calculateTangents);
      faceBuffer, attributeBuffer := Some(newFaceBuffer), Some(newAttributeBuffer);
      containers := containers + created;
      // upload
      faceData, attributeData := faceBufferData, attributeBufferData;
      geometries, this.tangents := gs, calculateTangents;
      assert containers[|containers| - |gs|..] == created;
    }
  }
}
