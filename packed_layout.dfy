/** The layout of the two packed arrays that GeometryBuffer.init fills.

    Face array (32-bit unsigned elements): per geometry, |indices| / 3
    triangles, each written as three LOCAL corner numbers 3k, 3k+1, 3k+2
    (stride 3).
    Attribute array (32-bit float elements): per geometry, one 16-element
    record per index occurrence (stride 16): position, 0, normal, 0,
    tangent, 0, u, 1 - v, 0, 0.

    The sizing pass adds up FaceLen and AttributeLen; the fill pass writes
    FaceParts and AttributeParts one after another. SizingMatchesFill says
    the two passes agree. */
module PackedLayout {
  import opened Slices

  /** A triangle mesh: 3 position components and 3 normal components per
      vertex, 2 texture coordinates per vertex, 3 indices per triangle. */
  datatype Geometry = Geometry(indices: seq<nat>, vertices: seq<real>, normals: seq<real>, uvs: seq<real>)

  /** Vertex `index` can be read from every per-vertex array the attribute
      record copies from; `tangents` is what the tangent computation returns
      for the geometry (3 components per vertex). */
  predicate Referenceable(g: Geometry, tangents: seq<real>, index: nat)
  {
    && index * 3 + 2 < |g.vertices|
    && index * 3 + 2 < |g.normals|
    && index * 3 + 2 < |tangents|
    && index * 2 + 1 < |g.uvs|
  }

  /** A triangle list whose every index names a vertex that exists. */
  predicate WellFormed(g: Geometry, tangents: seq<real>)
  {
    && |g.indices| % 3 == 0
    && forall ii :: 0 <= ii < |g.indices| ==> Referenceable(g, tangents, g.indices[ii])
  }

  predicate AllWellFormed(gs: seq<Geometry>, calculateTangents: Geometry -> seq<real>)
  {
    forall k :: 0 <= k < |gs| ==> WellFormed(gs[k], calculateTangents(gs[k]))
  }

  // ---------------------------------------------------------------- sizing

  /** Face-array elements of one geometry: triangles times the face stride 3. */
  function FaceLen(g: Geometry): (len: nat)
  {
    |g.indices| / 3 * 3
  }

  /** Attribute-array elements of one geometry: indices times the attribute stride 16. */
  function AttributeLen(g: Geometry): (len: nat)
  {
    |g.indices| * 16
  }

  function FaceLens(gs: seq<Geometry>): (lens: seq<nat>)
  {
    seq(|gs|, k requires 0 <= k < |gs| => FaceLen(gs[k]))
  }

  function AttributeLens(gs: seq<Geometry>): (lens: seq<nat>)
  {
    seq(|gs|, k requires 0 <= k < |gs| => AttributeLen(gs[k]))
  }

  /** Number of indices of each geometry, i.e. of attribute records and of face slots. */
  function IndexCounts(gs: seq<Geometry>): (counts: seq<nat>)
  {
    seq(|gs|, k requires 0 <= k < |gs| => |gs[k].indices|)
  }

  // ------------------------------------------------------------- face data

  /** The first m triangles of one geometry's face slice: triangle k is
      written as 3k + 0, 3k + 1, 3k + 2. */
  function Triangles(m: nat): (r: seq<int>)
    ensures |r| == 3 * m
  {
    if m == 0 then []
    else
      var index := (m - 1) * 3;
      Triangles(m - 1) + [index + 0, index + 1, index + 2]
  }

  /** Within a face slice, local slot p holds p. */
  lemma {:induction false} TrianglesAt(m: nat, p: nat)
    requires p < 3 * m
    ensures Triangles(m)[p] == p
  {
    if p < 3 * (m - 1) {
      TrianglesAt(m - 1, p);
    }
  }

  function FaceParts(gs: seq<Geometry>): (parts: seq<seq<int>>)
  {
    seq(|gs|, k requires 0 <= k < |gs| => Triangles(|gs[k].indices| / 3))
  }

  /** The whole face array as the fill pass leaves it. */
  function FaceData(gs: seq<Geometry>): (data: seq<int>)
  {
    Concat(FaceParts(gs))
  }

  // -------------------------------------------------------- attribute data

  /** Slot s of the 16-element record written for vertex `index`: the
      position, normal and tangent in slots 0-2, 4-6 and 8-10, u in slot 12,
      1 - v in slot 13 (the vertical flip), and 0 in the padding slots. */
  function Slot(g: Geometry, tangents: seq<real>, index: nat, s: nat): (value: real)
    requires Referenceable(g, tangents, index) && s < 16
  {
    if s < 3 then g.vertices[index * 3 + s]
    else if s < 4 then 0.0
    else if s < 7 then g.normals[index * 3 + (s - 4)]
    else if s < 8 then 0.0
    else if s < 11 then tangents[index * 3 + (s - 8)]
    else if s < 12 then 0.0
    else if s < 13 then 0.0 + g.uvs[index * 2 + 0]
    else if s < 14 then 1.0 - g.uvs[index * 2 + 1]
    else 0.0
  }

  /** The record written for one index occurrence. */
  function Record(g: Geometry, tangents: seq<real>, index: nat): (r: seq<real>)
    requires Referenceable(g, tangents, index)
    ensures |r| == 16
  {
    seq(16, s requires 0 <= s < 16 => Slot(g, tangents, index, s))
  }

  /** Record layout: slot by slot, what the record for vertex `index` holds;
      slots 3, 7, 11, 14 and 15 are padding and hold 0. */
  lemma RecordLayout(g: Geometry, tangents: seq<real>, index: nat)
    requires Referenceable(g, tangents, index)
    ensures var r := Record(g, tangents, index);
      && r[0] == g.vertices[index * 3 + 0] && r[1] == g.vertices[index * 3 + 1] && r[2] == g.vertices[index * 3 + 2]
      && r[4] == g.normals[index * 3 + 0] && r[5] == g.normals[index * 3 + 1] && r[6] == g.normals[index * 3 + 2]
      && r[8] == tangents[index * 3 + 0] && r[9] == tangents[index * 3 + 1] && r[10] == tangents[index * 3 + 2]
      && r[12] == g.uvs[index * 2 + 0] && r[13] == 1.0 - g.uvs[index * 2 + 1]
      && r[3] == 0.0 && r[7] == 0.0 && r[11] == 0.0 && r[14] == 0.0 && r[15] == 0.0
  {
  }

  /** The records for the first n index occurrences of one geometry. */
  function Expanded(g: Geometry, tangents: seq<real>, n: nat): (r: seq<real>)
    requires WellFormed(g, tangents) && n <= |g.indices|
    ensures |r| == 16 * n
  {
    if n == 0 then [] else Expanded(g, tangents, n - 1) + Record(g, tangents, g.indices[n - 1])
  }

  /** Slot s of record ii of an expanded slice is slot s of the record for indices[ii]. */
  lemma {:induction false} ExpandedAt(g: Geometry, tangents: seq<real>, n: nat, ii: nat, s: nat)
    requires WellFormed(g, tangents) && ii < n <= |g.indices| && s < 16
    ensures Expanded(g, tangents, n)[16 * ii + s] == Record(g, tangents, g.indices[ii])[s]
  {
    if ii < n - 1 {
      ExpandedAt(g, tangents, n - 1, ii, s);
    }
  }

  function AttributeParts(gs: seq<Geometry>, calculateTangents: Geometry -> seq<real>): (parts: seq<seq<real>>)
    requires AllWellFormed(gs, calculateTangents)
  {
    seq(|gs|, k requires 0 <= k < |gs| => Expanded(gs[k], calculateTangents(gs[k]), |gs[k].indices|))
  }

  /** The whole attribute array as the fill pass leaves it. */
  function AttributeData(gs: seq<Geometry>, calculateTangents: Geometry -> seq<real>): (data: seq<real>)
    requires AllWellFormed(gs, calculateTangents)
  {
    Concat(AttributeParts(gs, calculateTangents))
  }

  // ------------------------------------------------------------ properties

  /** Each face part is as long as the sizing pass counts for its geometry. */
  lemma FacePartLengths(gs: seq<Geometry>)
    ensures Lengths(FaceParts(gs)) == FaceLens(gs)
  {
  }

  /** Each attribute part is as long as the sizing pass counts for its geometry. */
  lemma AttributePartLengths(gs: seq<Geometry>, calculateTangents: Geometry -> seq<real>)
    requires AllWellFormed(gs, calculateTangents)
    ensures Lengths(AttributeParts(gs, calculateTangents)) == AttributeLens(gs)
  {
  }

  /** The sizing pass and the fill pass agree: each geometry's slice is as
      long as the sizing pass counts, so the arrays are exactly filled. */
  lemma SizingMatchesFill(gs: seq<Geometry>, calculateTangents: Geometry -> seq<real>)
    requires AllWellFormed(gs, calculateTangents)
    ensures Lengths(FaceParts(gs)) == FaceLens(gs)
    ensures Lengths(AttributeParts(gs, calculateTangents)) == AttributeLens(gs)
    ensures |FaceData(gs)| == Sum(FaceLens(gs))
    ensures |AttributeData(gs, calculateTangents)| == Sum(AttributeLens(gs))
  {
    FacePartLengths(gs);
    AttributePartLengths(gs, calculateTangents);
  }

  /** One step of the fill pass over the face array: geometry i's slice
      follows the slices of the geometries before it and ends inside the array. */
  lemma FaceFillStep(gs: seq<Geometry>, i: nat)
    requires i < |gs|
    ensures Offset(FaceLens(gs), i + 1) == Offset(FaceLens(gs), i) + |gs[i].indices| / 3 * 3 <= Sum(FaceLens(gs))
    ensures ConcatBefore(FaceParts(gs), i + 1) == ConcatBefore(FaceParts(gs), i) + Triangles(|gs[i].indices| / 3)
  {
    SliceWithin(FaceLens(gs), i);
  }

  /** One step of the fill pass over the attribute array. */
  lemma AttributeFillStep(gs: seq<Geometry>, calculateTangents: Geometry -> seq<real>, i: nat)
    requires AllWellFormed(gs, calculateTangents) && i < |gs|
    ensures Offset(AttributeLens(gs), i + 1) == Offset(AttributeLens(gs), i) + |gs[i].indices| * 16 <= Sum(AttributeLens(gs))
    ensures ConcatBefore(AttributeParts(gs, calculateTangents), i + 1)
         == ConcatBefore(AttributeParts(gs, calculateTangents), i) + Expanded(gs[i], calculateTangents(gs[i]), |gs[i].indices|)
  {
    SliceWithin(AttributeLens(gs), i);
  }

  /** For triangle lists, the face offset and the attribute offset of
      geometry i both count the index occurrences of the geometries before
      it: the face offset equals that count and the attribute offset is 16
      times it. */
  lemma {:induction false} OffsetsCountIndices(gs: seq<Geometry>, i: nat)
    requires forall k :: 0 <= k < |gs| ==> |gs[k].indices| % 3 == 0
    requires i <= |gs|
    ensures Offset(FaceLens(gs), i) == Offset(IndexCounts(gs), i)
    ensures Offset(AttributeLens(gs), i) == 16 * Offset(IndexCounts(gs), i)
  {
    if i > 0 {
      OffsetsCountIndices(gs, i - 1);
    }
  }

  /** The total array lengths: the face array has one element per index and
      the attribute array sixteen. */
  lemma TotalsCountIndices(gs: seq<Geometry>)
    requires forall k :: 0 <= k < |gs| ==> |gs[k].indices| % 3 == 0
    ensures Sum(FaceLens(gs)) == Sum(IndexCounts(gs))
    ensures Sum(AttributeLens(gs)) == 16 * Sum(IndexCounts(gs))
  {
    OffsetsCountIndices(gs, |gs|);
  }

  /** Triangle k of geometry i is written as 3k, 3k+1, 3k+2 starting at the
      geometry's face offset plus 3k. */
  lemma FaceSlot(gs: seq<Geometry>, i: nat, k: nat, j: nat)
    requires i < |gs| && k < |gs[i].indices| / 3 && j < 3
    ensures Offset(FaceLens(gs), i) + 3 * k + j < |FaceData(gs)|
    ensures FaceData(gs)[Offset(FaceLens(gs), i) + 3 * k + j] == 3 * k + j
  {
    FacePartLengths(gs);
    ConcatAt(FaceParts(gs), i, 3 * k + j);
    TrianglesAt(|gs[i].indices| / 3, 3 * k + j);
  }

  /** Every face slot q is written, by exactly one geometry, with its local
      position inside that geometry's slice. */
  lemma FaceSlotsCovered(gs: seq<Geometry>, q: nat)
    requires q < Sum(FaceLens(gs))
    ensures q < |FaceData(gs)|
    ensures FaceData(gs)[q] == q - Offset(FaceLens(gs), Owner(FaceLens(gs), q))
  {
    var i := Owner(FaceLens(gs), q);
    var p := q - Offset(FaceLens(gs), i);
    FaceSlot(gs, i, p / 3, p % 3);
  }

  /** Slot s of record ii of geometry i's attribute slice is slot s of the
      record for indices[ii]. */
  lemma AttributeSlot(gs: seq<Geometry>, calculateTangents: Geometry -> seq<real>, i: nat, ii: nat, s: nat)
    requires AllWellFormed(gs, calculateTangents) && i < |gs| && ii < |gs[i].indices| && s < 16
    ensures Offset(AttributeLens(gs), i) + 16 * ii + s < |AttributeData(gs, calculateTangents)|
    ensures AttributeData(gs, calculateTangents)[Offset(AttributeLens(gs), i) + 16 * ii + s]
         == Record(gs[i], calculateTangents(gs[i]), gs[i].indices[ii])[s]
  {
    AttributePartLengths(gs, calculateTangents);
    ConcatAt(AttributeParts(gs, calculateTangents), i, 16 * ii + s);
    ExpandedAt(gs[i], calculateTangents(gs[i]), |gs[i].indices|, ii, s);
  }

  /** Every attribute slot q is written by exactly one geometry, and inside
      it by exactly one record: the slot is slot q' % 16 of the record for
      the (q' / 16)-th index, q' being q's position inside the slice. */
  lemma AttributeSlotsCovered(gs: seq<Geometry>, calculateTangents: Geometry -> seq<real>, q: nat)
    requires AllWellFormed(gs, calculateTangents) && q < Sum(AttributeLens(gs))
    ensures
      var i := Owner(AttributeLens(gs), q);
      var local := q - Offset(AttributeLens(gs), i);
      && q < |AttributeData(gs, calculateTangents)|
      && local / 16 < |gs[i].indices|
      && AttributeData(gs, calculateTangents)[q]
         == Record(gs[i], calculateTangents(gs[i]), gs[i].indices[local / 16])[local % 16]
  {
    var i := Owner(AttributeLens(gs), q);
    var local := q - Offset(AttributeLens(gs), i);
    AttributeSlot(gs, calculateTangents, i, local / 16, local % 16);
    assert q == Offset(AttributeLens(gs), i) + 16 * (local / 16) + local % 16;
  }

  /** One triangle with indices [0, 1, 2]: the face array is [0, 1, 2] and
      the attribute array has 3 records, 48 elements. */
  lemma SingleTriangle(g: Geometry, calculateTangents: Geometry -> seq<real>)
    requires g.indices == [0, 1, 2] && WellFormed(g, calculateTangents(g))
    ensures FaceData([g]) == [0, 1, 2]
    ensures |AttributeData([g], calculateTangents)| == 48
  {
  }
}
