/**
 * The full-screen quad: two interleaved tables of four [x, y, z, u, v] vertices, and the
 * attribute layout through which the vertex shader reads them.
 */
module QuadGeometry {
  import opened Gl

  const FloatSizeBytes: int := 4
  /** Bytes from one vertex to the next: five floats. */
  const StrideBytes: int := 5 * FloatSizeBytes
  /** Float offsets and component counts of the two attributes inside a vertex. */
  const PositionOffset: int := 0
  const UvOffset: int := 3
  const PositionSize: int := 3
  const UvSize: int := 2
  /** Index of the V component inside a vertex. */
  const VComponent: int := UvOffset + 1
  /** Vertices drawn per stage (one triangle strip). */
  const VertexCount: int := 4

  /** The table drawn on the visible surface. */
  function QuadVertices(): seq<real> {
    [ -1.0, -1.0, 0.0, 0.0, 1.0,
       1.0, -1.0, 0.0, 1.0, 1.0,
      -1.0,  1.0, 0.0, 0.0, 0.0,
       1.0,  1.0, 0.0, 1.0, 0.0 ]
  }

  /** The table drawn into an off-screen framebuffer (V flipped). */
  function FlippedQuadVertices(): seq<real> {
    [ -1.0, -1.0, 0.0, 0.0, 0.0,
       1.0, -1.0, 0.0, 1.0, 0.0,
      -1.0,  1.0, 0.0, 0.0, 1.0,
       1.0,  1.0, 0.0, 1.0, 1.0 ]
  }

  function Vertices(q: Quad): seq<real> {
    match q
    case Unflipped => QuadVertices()
    case Flipped => FlippedQuadVertices()
  }

  /** Component `c` (0..4 = x, y, z, u, v) of vertex `k` of a table. */
  function Component(table: seq<real>, k: int, c: int): real
    requires 0 <= k < VertexCount && 0 <= c < StrideBytes / FloatSizeBytes
    requires |table| == VertexCount * (StrideBytes / FloatSizeBytes)
  {
    table[k * (StrideBytes / FloatSizeBytes) + c]
  }

  /** Position (size 3 at offset 0) and UV (size 2 at offset 3) tile a vertex exactly. */
  lemma AttributeLayout()
    ensures PositionOffset == 0
    ensures PositionOffset + PositionSize == UvOffset
    ensures UvOffset + UvSize == StrideBytes / FloatSizeBytes == 5
  {
  }

  /**
   * Both tables hold four vertices of the layout; the flipped table keeps every position
   * and U of the other one and replaces each V by 1 - V.
   */
  lemma FlippedIsVFlip()
    ensures forall q :: |Vertices(q)| == VertexCount * (StrideBytes / FloatSizeBytes)
    ensures forall k, c :: 0 <= k < VertexCount && 0 <= c < VComponent ==>
      Component(FlippedQuadVertices(), k, c) == Component(QuadVertices(), k, c)
    ensures forall k :: 0 <= k < VertexCount ==>
      Component(FlippedQuadVertices(), k, VComponent) == 1.0 - Component(QuadVertices(), k, VComponent)
  {
    forall q ensures |Vertices(q)| == 20 {
    }
  }

  /** Vertex `k` of a table lies on a corner of [-1, 1] x [-1, 1] at z = 0. */
  predicate OnCorner(table: seq<real>, k: int)
    requires 0 <= k < VertexCount && |table| == VertexCount * (StrideBytes / FloatSizeBytes)
  {
    Component(table, k, 0) in {-1.0, 1.0} && Component(table, k, 1) in {-1.0, 1.0} &&
    Component(table, k, 2) == 0.0
  }

  /**
   * Both tables span [-1, 1] x [-1, 1] at z = 0; the unflipped one has v = 0 on the top
   * edge (y = 1), the flipped one has v = 0 on the bottom edge (y = -1).
   */
  lemma QuadCorners()
    ensures |QuadVertices()| == |FlippedQuadVertices()| == 20
    ensures forall k :: 0 <= k < VertexCount ==> OnCorner(QuadVertices(), k) && OnCorner(FlippedQuadVertices(), k)
    ensures forall k :: 0 <= k < VertexCount ==>
      (Component(QuadVertices(), k, VComponent) == 0.0 <==> Component(QuadVertices(), k, 1) == 1.0)
    ensures forall k :: 0 <= k < VertexCount ==>
      (Component(FlippedQuadVertices(), k, VComponent) == 0.0 <==> Component(FlippedQuadVertices(), k, 1) == -1.0)
  {
  }
}
