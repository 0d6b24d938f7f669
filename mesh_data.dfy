/** The level-of-detail terrain mesh builder (MeshDataHelper.GenerateTerrainMesh)
    and the mesh buffers it fills (MeshData), including the accumulation of
    face normals into vertex normals. */
module TerrainMesh {
  import opened UnityMath
  import opened GridIndex

  /** lodStep = (int)Mathf.Pow(2, lodLevel): the vertex-skipping stride. */
  function LodStep(lodLevel: nat): (s: nat)
    ensures s >= 1
    ensures lodLevel > 0 ==> s % 2 == 0
  {
    if lodLevel == 0 then 1 else 2 * LodStep(lodLevel - 1)
  }

  /** lodVertexCount = (chunkSize - 1) / lodStep + 1 in C# int arithmetic: for
      a non-empty field, the number of stride points 0, lodStep, 2 lodStep, ...
      below chunkSize. */
  function LodVertexCount(chunkSize: nat, lodStep: nat): (n: int)
    requires lodStep >= 1
    ensures chunkSize >= 1 ==> n >= 1 && Mul(n - 1, lodStep) <= chunkSize - 1 < Mul(n, lodStep)
    ensures chunkSize == 0 ==> n == if lodStep == 1 then 0 else 1
  {
    var n := TruncDiv(chunkSize - 1, lodStep) + 1;
    if chunkSize >= 1 then
      StrideVisits(chunkSize, lodStep, n - 1);
      StrideVisits(chunkSize, lodStep, n);
      n
    else
      n
  }

  /** The last stride point lies on the far edge of the field exactly when
      the stride divides chunkSize - 1. */
  lemma LodReachesEdge(chunkSize: nat, lodStep: nat)
    requires lodStep >= 1 && chunkSize >= 1
    ensures Mul(LodVertexCount(chunkSize, lodStep) - 1, lodStep) == chunkSize - 1 <==> (chunkSize - 1) % lodStep == 0
  {
    var n := LodVertexCount(chunkSize, lodStep);
    MulIsProduct(n - 1, lodStep);
    assert n - 1 == (chunkSize - 1) / lodStep;
  }

  /** Number of triangle index slots the buffers reserve for an n-by-n
      vertex grid: (n - 1) * (n - 1) * 6. */
  function TriangleSlotCount(n: int): nat {
    6 * Square(n - 1)
  }

  /** Side of the LOD vertex grid built from a field of the given size. */
  function MeshSide(chunkSize: nat, lodLevel: nat): int {
    LodVertexCount(chunkSize, LodStep(lodLevel))
  }

  /** The sizes for the field sizes the project's chunks use at LOD 0 and 1. */
  lemma MeshSizesOfSmallChunk()
    ensures MeshSide(5, 0) == 5 && Square(5) == 25 && TriangleSlotCount(5) == 96
    ensures MeshSide(5, 1) == 3 && Square(3) == 9 && TriangleSlotCount(3) == 24
  {
    assert LodStep(1) == 2;
  }

  /** The six indices the builder writes for the quad whose top-left vertex is
      `vi`: triangles (vi, vi+n+1, vi+n) and (vi+n+1, vi, vi+1). */
  function QuadCorners(n: int, vi: int): seq<int> {
    [vi, vi + n + 1, vi + n, vi + n + 1, vi, vi + 1]
  }

  /** The corners the builder writes for quad (qi, qj) are the grid cells
      (qi, qj), (qi+1, qj+1), (qi, qj+1) and (qi+1, qj+1), (qi, qj), (qi+1, qj):
      all four corners of that quad and nothing past the end of a row, and
      each of them a slot of the n-by-n vertex buffer. */
  lemma QuadCornersAreCells(n: int, qi: int, qj: nat)
    requires 0 <= qi < n - 1 && qj < n - 1
    ensures QuadCorners(n, RowMajor(n, qi, qj)) ==
              [RowMajor(n, qi, qj), RowMajor(n, qi + 1, qj + 1), RowMajor(n, qi, qj + 1),
               RowMajor(n, qi + 1, qj + 1), RowMajor(n, qi, qj), RowMajor(n, qi + 1, qj)]
    ensures forall c :: 0 <= c < 6 ==> 0 <= QuadCorners(n, RowMajor(n, qi, qj))[c] < Square(n)
  {
    CellInRange(n, qi, qj);
    CellInRange(n, qi + 1, qj + 1);
    CellInRange(n, qi, qj + 1);
    CellInRange(n, qi + 1, qj);
  }

  /** Every triangle slot of an n-by-n mesh is one of the six slots of a
      quad: slot t belongs to quad t / 6, numbered row-major over the
      (n-1)-by-(n-1) grid of quads. */
  lemma TriangleSlotInQuad(n: int, t: int)
    requires n >= 2 && 0 <= t < TriangleSlotCount(n)
    ensures var q := t / 6;
      0 <= q % (n - 1) < n - 1 && 0 <= q / (n - 1) < n - 1 &&
      t == 6 * RowMajor(n - 1, q % (n - 1), q / (n - 1)) + t % 6
  {
    SquareIsProduct(n - 1);
    RowMajorBijective(n - 1, n - 1, t / 6);
  }

  /** Coordinates of grid point (x, y) as written to the vertex buffer: the
      mesh is centred on the origin, x grows rightwards and z decreases with y. */
  function TerrainVertex(noiseMap: array2<real>, heightMultiplier: real, heightCurve: real -> real, x: int, y: int): Vector3
    reads noiseMap
    requires 0 <= x < noiseMap.Length0 && 0 <= y < noiseMap.Length1
  {
    var cs := noiseMap.Length0;
    Vector3((cs - 1) as real / -2.0 + x as real, heightCurve(noiseMap[x, y]) * heightMultiplier, (cs - 1) as real / 2.0 - y as real)
  }

  /** Points mirrored through the centre of the field get mirrored x and z
      coordinates. */
  lemma TerrainVertexCentred(noiseMap: array2<real>, heightMultiplier: real, heightCurve: real -> real, x: int, y: int)
    requires 0 <= x < noiseMap.Length0 && 0 <= y < noiseMap.Length0 <= noiseMap.Length1
    ensures var cs := noiseMap.Length0;
      TerrainVertex(noiseMap, heightMultiplier, heightCurve, cs - 1 - x, cs - 1 - y).x == -TerrainVertex(noiseMap, heightMultiplier, heightCurve, x, y).x &&
      TerrainVertex(noiseMap, heightMultiplier, heightCurve, cs - 1 - x, cs - 1 - y).z == -TerrainVertex(noiseMap, heightMultiplier, heightCurve, x, y).z
  {}

  /** `a / (float)b` for the UV quotients; see README for b == 0. */
  function FloatQuotient(a: int, b: int): real {
    if b == 0 then 0.0 else a as real / b as real
  }

  /** UV of grid point (x, y): its position as a fraction of the field's extent. */
  function TerrainUv(chunkSize: int, x: int, y: int): Vector2 {
    Vector2(FloatQuotient(x, chunkSize - 1), FloatQuotient(y, chunkSize - 1))
  }

  /** The UV of every field point lies in the unit square, with the field's
      corners at its corners. */
  lemma TerrainUvInUnitSquare(chunkSize: int, x: int, y: int)
    requires chunkSize >= 2 && 0 <= x < chunkSize && 0 <= y < chunkSize
    ensures 0.0 <= TerrainUv(chunkSize, x, y).x <= 1.0 && 0.0 <= TerrainUv(chunkSize, x, y).y <= 1.0
    ensures TerrainUv(chunkSize, 0, 0) == Vector2(0.0, 0.0)
    ensures TerrainUv(chunkSize, chunkSize - 1, chunkSize - 1) == Vector2(1.0, 1.0)
  {
    var d := (chunkSize - 1) as real;
    DivUnit(x as real, d);
    DivUnit(y as real, d);
    assert TerrainUv(chunkSize, 0, 0) == Vector2(0.0 / d, 0.0 / d);
    assert TerrainUv(chunkSize, chunkSize - 1, chunkSize - 1) == Vector2(d / d, d / d);
  }

  /** Every slot below 3 * (count / 3) names a vertex of the buffer. */
  ghost predicate ValidTriangleIndices(tris: seq<int>, vertexCount: int) {
    forall k :: 0 <= k < |tris| / 3 * 3 ==> 0 <= tris[k] < vertexCount
  }

  /** TriangleNormalFromVertices: the normalised cross product of edges AB and AC. */
  function TriangleNormalFromVertices(vertexA: Vector3, vertexB: Vector3, vertexC: Vector3, normalize: Vector3 -> Vector3): Vector3 {
    normalize(Cross(Sub3(vertexB, vertexA), Sub3(vertexC, vertexA)))
  }

  /** The vector handed to Normalize for a face is perpendicular to both of its edges. */
  lemma FaceNormalPerpendicular(vertexA: Vector3, vertexB: Vector3, vertexC: Vector3)
    ensures var ab, ac := Sub3(vertexB, vertexA), Sub3(vertexC, vertexA);
      var c := Cross(ab, ac);
      c.x * ab.x + c.y * ab.y + c.z * ab.z == 0.0 && c.x * ac.x + c.y * ac.y + c.z * ac.z == 0.0
  {}

  /** Face normal of triangle t (slots 3t, 3t+1, 3t+2). */
  ghost function FaceNormal(tris: seq<int>, verts: seq<Vector3>, t: nat, normalize: Vector3 -> Vector3): Vector3
    requires 3 * t + 2 < |tris| / 3 * 3 && ValidTriangleIndices(tris, |verts|)
  {
    TriangleNormalFromVertices(verts[tris[3 * t]], verts[tris[3 * t + 1]], verts[tris[3 * t + 2]], normalize)
  }

  /** The contribution of one triangle corner to vertex v. */
  function CornerTerm(corner: int, v: int, faceNormal: Vector3): Vector3 {
    if corner == v then faceNormal else Zero3
  }

  /** Reference definition, one vertex at a time: the sum over the first m
      triangles of the face normal once for each of its corners at v. */
  ghost function NormalSum(tris: seq<int>, verts: seq<Vector3>, m: nat, v: int, normalize: Vector3 -> Vector3): Vector3
    requires m <= |tris| / 3 && ValidTriangleIndices(tris, |verts|)
  {
    if m == 0 then Zero3
    else
      var t := m - 1;
      var fn := FaceNormal(tris, verts, t, normalize);
      var p := NormalSum(tris, verts, t, v, normalize);
      Add3(Add3(Add3(p, CornerTerm(tris[3 * t], v, fn)), CornerTerm(tris[3 * t + 1], v, fn)), CornerTerm(tris[3 * t + 2], v, fn))
  }

  /** One step of the sum: triangle t adds its face normal at each of its corners. */
  lemma NormalSumStep(tris: seq<int>, verts: seq<Vector3>, t: nat, normalize: Vector3 -> Vector3,
                      a: int, b: int, c: int, fn: Vector3)
    requires t < |tris| / 3 && ValidTriangleIndices(tris, |verts|)
    requires a == tris[3 * t] && b == tris[3 * t + 1] && c == tris[3 * t + 2]
    requires fn == TriangleNormalFromVertices(verts[a], verts[b], verts[c], normalize)
    ensures forall v {:trigger NormalSum(tris, verts, t + 1, v, normalize)} ::
              NormalSum(tris, verts, t + 1, v, normalize) ==
              Add3(Add3(Add3(NormalSum(tris, verts, t, v, normalize), CornerTerm(a, v, fn)), CornerTerm(b, v, fn)), CornerTerm(c, v, fn))
  {
  }

  /** Adding triangle t changes the sum only at its three corners. */
  lemma NormalSumStepLocal(tris: seq<int>, verts: seq<Vector3>, t: nat, v: int, normalize: Vector3 -> Vector3)
    requires t < |tris| / 3 && ValidTriangleIndices(tris, |verts|)
    requires v != tris[3 * t] && v != tris[3 * t + 1] && v != tris[3 * t + 2]
    ensures NormalSum(tris, verts, t + 1, v, normalize) == NormalSum(tris, verts, t, v, normalize)
  {}

  /** A vertex that none of the first m triangles uses keeps a zero sum. */
  lemma {:induction false} ZeroSum(tris: seq<int>, verts: seq<Vector3>, m: nat, v: int, normalize: Vector3 -> Vector3)
    requires m <= |tris| / 3 && ValidTriangleIndices(tris, |verts|)
    requires forall k :: 0 <= k < 3 * m ==> tris[k] != v
    ensures NormalSum(tris, verts, m, v, normalize) == Zero3
  {
    if m > 0 {
      ZeroSum(tris, verts, m - 1, v, normalize);
      assert tris[3 * (m - 1)] != v && tris[3 * (m - 1) + 1] != v && tris[3 * (m - 1) + 2] != v;
    }
  }

  /** The loop body of the first pass of CalculateNormals: the face normal
      added to the entries of the triangle's three corners, in order, so an
      entry grows once per corner that names it. */
  method AddFaceNormal(vertexNormals: array<Vector3>, a: int, b: int, c: int, faceNormal: Vector3)
    requires 0 <= a < vertexNormals.Length && 0 <= b < vertexNormals.Length && 0 <= c < vertexNormals.Length
    modifies vertexNormals
    ensures forall v :: 0 <= v < vertexNormals.Length ==>
              vertexNormals[v] == Add3(Add3(Add3(old(vertexNormals[v]), CornerTerm(a, v, faceNormal)),
                                            CornerTerm(b, v, faceNormal)), CornerTerm(c, v, faceNormal))
  {
    vertexNormals[a] := Add3(vertexNormals[a], faceNormal);
    vertexNormals[b] := Add3(vertexNormals[b], faceNormal);
    vertexNormals[c] := Add3(vertexNormals[c], faceNormal);
  }

  /** The second pass of CalculateNormals: every entry replaced by its normalisation. */
  method NormalizeEach(a: array<Vector3>, normalize: Vector3 -> Vector3)
    modifies a
    ensures forall k :: 0 <= k < a.Length ==> a[k] == normalize(old(a[k]))
  {
    var i := 0;
    while i < a.Length
      invariant 0 <= i <= a.Length
      invariant forall k :: 0 <= k < i ==> a[k] == normalize(old(a[k]))
      invariant forall k :: i <= k < a.Length ==> a[k] == old(a[k])
    {
      a[i] := normalize(a[i]);
      i := i + 1;
    }
  }

  /** The mesh buffers: positions, triangle index triples and UVs. */
  class MeshData {
    const vertices: array<Vector3>
    const triangles: array<int>
    const uvs: array<Vector2>

    /** Buffers for a chunkSize-by-chunkSize vertex grid, zero-filled. */
    constructor (chunkSize: int)
      ensures vertices.Length == Square(chunkSize) && uvs.Length == Square(chunkSize)
      ensures triangles.Length == TriangleSlotCount(chunkSize)
      ensures forall k :: 0 <= k < vertices.Length ==> vertices[k] == Zero3
      ensures forall k :: 0 <= k < uvs.Length ==> uvs[k] == Zero2
      ensures forall k :: 0 <= k < triangles.Length ==> triangles[k] == 0
      ensures fresh(vertices) && fresh(triangles) && fresh(uvs)
    {
      vertices := new Vector3[Square(chunkSize)](_ => Zero3);
      triangles := new int[TriangleSlotCount(chunkSize)](_ => 0);
      uvs := new Vector2[Square(chunkSize)](_ => Zero2);
    }

    method SetVertex(i: int, x: real, y: real, z: real)
      requires 0 <= i < vertices.Length
      modifies vertices
      ensures vertices[i] == Vector3(x, y, z)
      ensures forall k :: 0 <= k < vertices.Length && k != i ==> vertices[k] == old(vertices[k])
    {
      vertices[i] := Vector3(x, y, z);
    }

    method SetTriangle(i: int, a: int, b: int, c: int)
      requires 0 <= i && i + 2 < triangles.Length
      modifies triangles
      ensures triangles[i] == a && triangles[i + 1] == b && triangles[i + 2] == c
      ensures forall k :: 0 <= k < triangles.Length && (k < i || k > i + 2) ==> triangles[k] == old(triangles[k])
    {
      triangles[i] := a;
      triangles[i + 1] := b;
      triangles[i + 2] := c;
    }

    method SetUV(i: int, x: real, y: real)
      requires 0 <= i < uvs.Length
      modifies uvs
      ensures uvs[i] == Vector2(x, y)
      ensures forall k :: 0 <= k < uvs.Length && k != i ==> uvs[k] == old(uvs[k])
    {
      uvs[i] := Vector2(x, y);
    }

    /** One iteration of the first pass of CalculateNormals: triangle t's
        face normal added at its corners, so the buffer goes from the sum over
        t triangles to the sum over t + 1. */
    method AccumulateTriangle(vertexNormals: array<Vector3>, t: nat, normalize: Vector3 -> Vector3)
      requires vertexNormals != vertices && vertexNormals.Length == vertices.Length
      requires t < triangles.Length / 3 && ValidTriangleIndices(triangles[..], vertices.Length)
      requires forall v :: 0 <= v < vertexNormals.Length ==>
                 vertexNormals[v] == NormalSum(triangles[..], vertices[..], t, v, normalize)
      modifies vertexNormals
      ensures forall v :: 0 <= v < vertexNormals.Length ==>
                vertexNormals[v] == NormalSum(triangles[..], vertices[..], t + 1, v, normalize)
    {
      var normalTriangleIndex := t * 3;
      var vertexIndexA := triangles[normalTriangleIndex];
      var vertexIndexB := triangles[normalTriangleIndex + 1];
      var vertexIndexC := triangles[normalTriangleIndex + 2];
      var triangleNormal := TriangleNormalFromVertices(vertices[vertexIndexA], vertices[vertexIndexB], vertices[vertexIndexC], normalize);
      NormalSumStep(triangles[..], vertices[..], t, normalize, vertexIndexA, vertexIndexB, vertexIndexC, triangleNormal);
      AddFaceNormal(vertexNormals, vertexIndexA, vertexIndexB, vertexIndexC, triangleNormal);
    }

    /** CalculateNormals: one entry per vertex, the normalised sum of the face
        normals of the triangles having that vertex as a corner (once per
        corner). */
    method CalculateNormals(normalize: Vector3 -> Vector3) returns (vertexNormals: array<Vector3>)
      requires ValidTriangleIndices(triangles[..], vertices.Length)
      ensures fresh(vertexNormals) && vertexNormals.Length == vertices.Length
      ensures forall v :: 0 <= v < vertexNormals.Length ==>
                vertexNormals[v] == normalize(NormalSum(triangles[..], vertices[..], triangles.Length / 3, v, normalize))
    {
      vertexNormals := new Vector3[vertices.Length](_ => Zero3);
      ghost var tris, verts := triangles[..], vertices[..];
      var triangleCount := triangles.Length / 3;
      var i := 0;
      while i < triangleCount
        invariant 0 <= i <= triangleCount
        invariant forall v :: 0 <= v < vertexNormals.Length ==>
                    vertexNormals[v] == NormalSum(tris, verts, i, v, normalize)
      {
        AccumulateTriangle(vertexNormals, i, normalize);
        i := i + 1;
      }
      NormalizeEach(vertexNormals, normalize);
    }
  }


  /** The buffers of `meshData` have the sizes the builder allocates for an
      n-by-n vertex grid. */
  ghost predicate Sized(meshData: MeshData, n: int)
  {
    meshData.vertices.Length == Square(n) && meshData.uvs.Length == Square(n) &&
    meshData.triangles.Length == TriangleSlotCount(n)
  }

  /** Vertex (i, j) of the LOD grid, field point (i * lodStep, j * lodStep),
      has its position and UV in slot RowMajor(n, i, j). */
  ghost predicate VertexWritten(meshData: MeshData, noiseMap: array2<real>, heightMultiplier: real, heightCurve: real -> real,
                                lodStep: nat, n: int, i: nat, j: nat)
    reads meshData.vertices, meshData.uvs, noiseMap
  {
    Mul(i, lodStep) < noiseMap.Length0 && Mul(j, lodStep) < noiseMap.Length1 &&
    0 <= RowMajor(n, i, j) < meshData.vertices.Length && RowMajor(n, i, j) < meshData.uvs.Length &&
    meshData.vertices[RowMajor(n, i, j)] == TerrainVertex(noiseMap, heightMultiplier, heightCurve, Mul(i, lodStep), Mul(j, lodStep)) &&
    meshData.uvs[RowMajor(n, i, j)] == TerrainUv(noiseMap.Length0, Mul(i, lodStep), Mul(j, lodStep))
  }

  /** Quad (qi, qj) of the LOD grid has its six corner indices in the six
      triangle slots starting at 6 * RowMajor(n - 1, qi, qj). */
  ghost predicate QuadWritten(meshData: MeshData, n: int, qi: int, qj: nat)
    reads meshData.triangles
  {
    var base := 6 * RowMajor(n - 1, qi, qj);
    0 <= base && base + 6 <= meshData.triangles.Length &&
    forall c :: 0 <= c < 6 ==> meshData.triangles[base + c] == QuadCorners(n, RowMajor(n, qi, qj))[c]
  }

  /** Quads of the LOD grid written before cell (i, j) is visited. */
  function QuadsBefore(n: int, i: int, j: nat): int
    requires n >= 1
  {
    if j < n - 1 then RowMajor(n - 1, if i < n - 1 then i else n - 1, j) else Mul(n - 1, n - 1)
  }

  /** The body of the inner loop of GenerateTerrainMesh for field point
      (x, y): its position and UV written to slot vi. */
  method WriteCell(meshData: MeshData, noiseMap: array2<real>, heightMultiplier: real, heightCurve: real -> real, x: int, y: int, vi: int)
    requires 0 <= x < noiseMap.Length0 && 0 <= y < noiseMap.Length1
    requires 0 <= vi < meshData.vertices.Length && vi < meshData.uvs.Length
    modifies meshData.vertices, meshData.uvs
    ensures meshData.vertices[vi] == TerrainVertex(noiseMap, heightMultiplier, heightCurve, x, y)
    ensures meshData.uvs[vi] == TerrainUv(noiseMap.Length0, x, y)
    ensures forall k :: 0 <= k < meshData.vertices.Length && k != vi ==> meshData.vertices[k] == old(meshData.vertices[k])
    ensures forall k :: 0 <= k < meshData.uvs.Length && k != vi ==> meshData.uvs[k] == old(meshData.uvs[k])
  {
    var chunkSize := noiseMap.Length0;
    var centerX := (chunkSize - 1) as real / -2.0;
    var centerZ := (chunkSize - 1) as real / 2.0;
    meshData.SetVertex(vi, centerX + x as real, heightCurve(noiseMap[x, y]) * heightMultiplier, centerZ - y as real);
    meshData.SetUV(vi, FloatQuotient(x, chunkSize - 1), FloatQuotient(y, chunkSize - 1));
  }

  /** The two triangles of the quad whose top-left vertex is vi, written to
      the six slots from ti. */
  method WriteQuad(meshData: MeshData, lodVertexCount: int, vi: int, ti: int)
    requires 0 <= ti && ti + 6 <= meshData.triangles.Length
    modifies meshData.triangles
    ensures forall c :: 0 <= c < 6 ==> meshData.triangles[ti + c] == QuadCorners(lodVertexCount, vi)[c]
    ensures forall t :: 0 <= t < meshData.triangles.Length && !(ti <= t < ti + 6) ==> meshData.triangles[t] == old(meshData.triangles[t])
  {
    meshData.SetTriangle(ti, vi, vi + lodVertexCount + 1, vi + lodVertexCount);
    meshData.SetTriangle(ti + 3, vi + lodVertexCount + 1, vi, vi + 1);
  }

  /** WriteCell for vertex (i, j) of the LOD grid, extending the vertices
      already written in row j by one. */
  method WriteGridCell(meshData: MeshData, noiseMap: array2<real>, heightMultiplier: real, heightCurve: real -> real,
                       lodStep: nat, ghost n: int, ghost i: nat, ghost j: nat, x: int, y: int, vi: int)
    requires x == Mul(i, lodStep) && 0 <= x < noiseMap.Length0 && y == Mul(j, lodStep) && 0 <= y < noiseMap.Length1
    requires vi == RowMajor(n, i, j) && 0 <= vi < meshData.vertices.Length && vi < meshData.uvs.Length
    requires forall i' :: 0 <= i' < i ==> VertexWritten(meshData, noiseMap, heightMultiplier, heightCurve, lodStep, n, i', j)
    modifies meshData.vertices, meshData.uvs
    ensures forall i' :: 0 <= i' <= i ==> VertexWritten(meshData, noiseMap, heightMultiplier, heightCurve, lodStep, n, i', j)
    ensures forall k :: 0 <= k < meshData.vertices.Length && k != vi ==> meshData.vertices[k] == old(meshData.vertices[k])
    ensures forall k :: 0 <= k < meshData.uvs.Length && k != vi ==> meshData.uvs[k] == old(meshData.uvs[k])
  {
    WriteCell(meshData, noiseMap, heightMultiplier, heightCurve, x, y, vi);
    forall i' | 0 <= i' <= i
      ensures VertexWritten(meshData, noiseMap, heightMultiplier, heightCurve, lodStep, n, i', j)
    {
      if i' < i {
        assert old(VertexWritten(meshData, noiseMap, heightMultiplier, heightCurve, lodStep, n, i', j));
        assert RowMajor(n, i', j) != vi;
      }
    }
  }

  /** WriteQuad for quad (i, j) of the LOD grid, extending the quads already
      written in row j by one. */
  method WriteGridQuad(meshData: MeshData, lodVertexCount: int, ghost i: nat, ghost j: nat, vi: int, ti: int)
    requires vi == RowMajor(lodVertexCount, i, j) && ti == 6 * RowMajor(lodVertexCount - 1, i, j)
    requires 0 <= ti && ti + 6 <= meshData.triangles.Length
    requires forall qi :: 0 <= qi < i ==> QuadWritten(meshData, lodVertexCount, qi, j)
    modifies meshData.triangles
    ensures forall qi :: 0 <= qi <= i ==> QuadWritten(meshData, lodVertexCount, qi, j)
    ensures forall t :: 0 <= t < meshData.triangles.Length && !(ti <= t < ti + 6) ==> meshData.triangles[t] == old(meshData.triangles[t])
  {
    WriteQuad(meshData, lodVertexCount, vi, ti);
    forall qi | 0 <= qi <= i
      ensures QuadWritten(meshData, lodVertexCount, qi, j)
    {
      if qi < i {
        assert 6 * RowMajor(lodVertexCount - 1, qi, j) + 6 <= ti;
      }
    }
  }

  /** One pass of the inner loop of GenerateTerrainMesh: row j of the LOD grid
      (field row y = j * lodStep). Its vertices and UVs take the slots from
      RowMajor(n, 0, j) to RowMajor(n, 0, j + 1), and, unless j is the last
      row, its n - 1 quads take the next 6 (n - 1) triangle slots. */
  method FillRow(meshData: MeshData, noiseMap: array2<real>, heightMultiplier: real, heightCurve: real -> real,
                 lodStep: nat, ghost j: nat, y: int, vi0: int, ti0: int) returns (vi: int, ti: int)
    requires lodStep >= 1 && noiseMap.Length0 >= 1 && noiseMap.Length0 <= noiseMap.Length1
    requires var n := LodVertexCount(noiseMap.Length0, lodStep);
      Sized(meshData, n) && j < n && y == Mul(j, lodStep) &&
      vi0 == RowMajor(n, 0, j) && ti0 == 6 * QuadsBefore(n, 0, j)
    modifies meshData.vertices, meshData.uvs, meshData.triangles
    ensures var n := LodVertexCount(noiseMap.Length0, lodStep);
      vi == RowMajor(n, 0, j + 1) && ti == 6 * QuadsBefore(n, 0, j + 1)
    ensures forall k :: 0 <= k < meshData.vertices.Length && !(vi0 <= k < vi) ==> meshData.vertices[k] == old(meshData.vertices[k])
    ensures forall k :: 0 <= k < meshData.uvs.Length && !(vi0 <= k < vi) ==> meshData.uvs[k] == old(meshData.uvs[k])
    ensures forall t :: 0 <= t < meshData.triangles.Length && !(ti0 <= t < ti) ==> meshData.triangles[t] == old(meshData.triangles[t])
    ensures var n := LodVertexCount(noiseMap.Length0, lodStep);
      forall i: nat :: i < n ==> VertexWritten(meshData, noiseMap, heightMultiplier, heightCurve, lodStep, n, i, j)
    ensures var n := LodVertexCount(noiseMap.Length0, lodStep);
      forall qi :: 0 <= qi < n - 1 && j < n - 1 ==> QuadWritten(meshData, n, qi, j)
  {
    var chunkSize := noiseMap.Length0;
    var lodVertexCount := LodVertexCount(chunkSize, lodStep);
    ghost var n := lodVertexCount;
    ghost var v0, u0, t0 := meshData.vertices[..], meshData.uvs[..], meshData.triangles[..];
    StrideVisits(chunkSize, lodStep, j);
    CellInRange(n, 0, j);
    if j < n - 1 {
      CellInRange(n - 1, 0, j);
    }
    vi, ti := vi0, ti0;
    var x := 0;
    ghost var i: nat := 0;
    while x < chunkSize
      invariant VertexProgress(meshData, noiseMap, heightMultiplier, heightCurve, lodStep, n, j, vi0, v0, u0, i, x, vi)
      invariant QuadProgress(meshData, n, j, ti0, t0, i, ti)
    {
      var nextX, nextVi, nextI := VertexStep(meshData, noiseMap, heightMultiplier, heightCurve, lodStep, n, j, y, vi0, v0, u0, i, x, vi);
      ti := QuadStep(meshData, chunkSize, lodStep, lodVertexCount, j, y, ti0, t0, i, nextI, x, vi, ti);
      x, vi, i := nextX, nextVi, nextI;
    }
    RowDone(meshData, noiseMap, heightMultiplier, heightCurve, lodStep, n, j, vi0, ti0, v0, u0, t0, i, x, vi, ti);
  }

  /** Once x has passed the field's last column, all n vertices of row j and
      (unless j is the last row) its n - 1 quads are written, and the
      indices stand at the start of row j + 1. */
  lemma RowDone(meshData: MeshData, noiseMap: array2<real>, heightMultiplier: real, heightCurve: real -> real,
                lodStep: nat, n: int, j: nat, vi0: int, ti0: int, v0: seq<Vector3>, u0: seq<Vector2>, t0: seq<int>,
                i: nat, x: int, vi: int, ti: int)
    requires lodStep >= 1 && noiseMap.Length0 >= 1 && n == LodVertexCount(noiseMap.Length0, lodStep) && j < n
    requires VertexProgress(meshData, noiseMap, heightMultiplier, heightCurve, lodStep, n, j, vi0, v0, u0, i, x, vi)
    requires QuadProgress(meshData, n, j, ti0, t0, i, ti)
    requires x >= noiseMap.Length0
    ensures vi == RowMajor(n, 0, j + 1) && ti == 6 * QuadsBefore(n, 0, j + 1)
    ensures forall i': nat :: i' < n ==> VertexWritten(meshData, noiseMap, heightMultiplier, heightCurve, lodStep, n, i', j)
    ensures forall qi :: 0 <= qi < n - 1 && j < n - 1 ==> QuadWritten(meshData, n, qi, j)
  {
    StrideVisits(noiseMap.Length0, lodStep, i);
    assert i == n;
  }

  /** The vertex half of the state of FillRow's loop after the first i
      vertices of row j: slots vi0 to vi hold them, and every other vertex
      and UV slot still holds its value from before the row (v0, u0). */
  ghost predicate VertexProgress(meshData: MeshData, noiseMap: array2<real>, heightMultiplier: real, heightCurve: real -> real,
                                 lodStep: nat, n: int, j: nat, vi0: int, v0: seq<Vector3>, u0: seq<Vector2>,
                                 i: nat, x: int, vi: int)
    reads meshData.vertices, meshData.uvs, noiseMap
  {
    i <= n && x == Mul(i, lodStep) && vi == vi0 + i && vi == RowMajor(n, i, j) && vi <= meshData.vertices.Length &&
    |v0| == meshData.vertices.Length && |u0| == meshData.uvs.Length &&
    (forall k :: 0 <= k < |v0| && !(vi0 <= k < vi) ==> meshData.vertices[k] == v0[k]) &&
    (forall k :: 0 <= k < |u0| && !(vi0 <= k < vi) ==> meshData.uvs[k] == u0[k]) &&
    (forall i' :: 0 <= i' < i ==> VertexWritten(meshData, noiseMap, heightMultiplier, heightCurve, lodStep, n, i', j))
  }

  /** The triangle half: slots ti0 to ti hold the quads of the first i
      cells of row j, every other slot its value from before the row (t0). */
  ghost predicate QuadProgress(meshData: MeshData, n: int, j: nat, ti0: int, t0: seq<int>, i: nat, ti: int)
    reads meshData.triangles
  {
    n >= 1 && ti == 6 * QuadsBefore(n, i, j) && ti0 <= ti <= meshData.triangles.Length &&
    |t0| == meshData.triangles.Length &&
    (forall t :: 0 <= t < |t0| && !(ti0 <= t < ti) ==> meshData.triangles[t] == t0[t]) &&
    (forall qi :: 0 <= qi < i && qi < n - 1 && j < n - 1 ==> QuadWritten(meshData, n, qi, j))
  }

  /** The vertex part of one pass of FillRow's loop at field point (x, y):
      the vertex written, then vertexIndex and x advanced. */
  method VertexStep(meshData: MeshData, noiseMap: array2<real>, heightMultiplier: real, heightCurve: real -> real,
                    lodStep: nat, ghost n: int, ghost j: nat, y: int, ghost vi0: int,
                    ghost v0: seq<Vector3>, ghost u0: seq<Vector2>, ghost i: nat, x: int, vi: int)
    returns (nextX: int, nextVi: int, ghost nextI: nat)
    requires lodStep >= 1 && noiseMap.Length0 <= noiseMap.Length1
    requires n == LodVertexCount(noiseMap.Length0, lodStep) && Sized(meshData, n) && j < n && y == Mul(j, lodStep)
    requires VertexProgress(meshData, noiseMap, heightMultiplier, heightCurve, lodStep, n, j, vi0, v0, u0, i, x, vi)
    requires x < noiseMap.Length0
    modifies meshData.vertices, meshData.uvs
    ensures nextI == i + 1
    ensures VertexProgress(meshData, noiseMap, heightMultiplier, heightCurve, lodStep, n, j, vi0, v0, u0, nextI, nextX, nextVi)
  {
    StrideVisits(noiseMap.Length0, lodStep, j);
    StrideVisits(noiseMap.Length0, lodStep, i);
    CellInRange(n, i, j);
    WriteGridCell(meshData, noiseMap, heightMultiplier, heightCurve, lodStep, n, i, j, x, y, vi);
    nextVi := vi + 1;
    nextX := x + lodStep;
    nextI := i + 1;
  }

  /** The triangle part of one pass of FillRow's loop at field point (x, y):
      the quad to its lower right, unless x or y is on the last row or
      column of the LOD grid, and triangleIndex advanced past it. */
  method QuadStep(meshData: MeshData, chunkSize: int, lodStep: nat, lodVertexCount: int, ghost j: nat, y: int,
                  ghost ti0: int, ghost t0: seq<int>, ghost i: nat, ghost nextI: nat, x: int, vi: int, ti: int)
    returns (nextTi: int)
    requires lodStep >= 1 && chunkSize >= 1 && lodVertexCount == LodVertexCount(chunkSize, lodStep)
    requires Sized(meshData, lodVertexCount) && j < lodVertexCount && y == Mul(j, lodStep)
    requires i < lodVertexCount && nextI == i + 1 && x == Mul(i, lodStep) && vi == RowMajor(lodVertexCount, i, j)
    requires QuadProgress(meshData, lodVertexCount, j, ti0, t0, i, ti)
    modifies meshData.triangles
    ensures QuadProgress(meshData, lodVertexCount, j, ti0, t0, nextI, nextTi)
  {
    ghost var n := lodVertexCount;
    StrideVisits(chunkSize, lodStep, j + 1);
    StrideVisits(chunkSize, lodStep, i + 1);
    nextTi := ti;
    if x < chunkSize - lodStep && y < chunkSize - lodStep {
      CellInRange(n - 1, i, j);
      WriteGridQuad(meshData, lodVertexCount, i, j, vi, ti);
      nextTi := ti + 6;
    }
  }

  /** FillRow for row j once rows 0 to j - 1 are complete: afterwards rows
      0 to j are. */
  method FillGridRow(meshData: MeshData, noiseMap: array2<real>, heightMultiplier: real, heightCurve: real -> real,
                     lodStep: nat, ghost j: nat, y: int, vi0: int, ti0: int) returns (vi: int, ti: int)
    requires lodStep >= 1 && noiseMap.Length0 >= 1 && noiseMap.Length0 <= noiseMap.Length1
    requires var n := LodVertexCount(noiseMap.Length0, lodStep);
      Sized(meshData, n) && j < n && y == Mul(j, lodStep) &&
      vi0 == RowMajor(n, 0, j) && ti0 == 6 * QuadsBefore(n, 0, j)
    requires var n := LodVertexCount(noiseMap.Length0, lodStep);
      forall i: nat, j': nat :: i < n && j' < j ==>
        VertexWritten(meshData, noiseMap, heightMultiplier, heightCurve, lodStep, n, i, j')
    requires var n := LodVertexCount(noiseMap.Length0, lodStep);
      forall qi: nat, qj: nat :: qi < n - 1 && qj < j && qj < n - 1 ==> QuadWritten(meshData, n, qi, qj)
    modifies meshData.vertices, meshData.uvs, meshData.triangles
    ensures var n := LodVertexCount(noiseMap.Length0, lodStep);
      vi == RowMajor(n, 0, j + 1) && ti == 6 * QuadsBefore(n, 0, j + 1)
    ensures var n := LodVertexCount(noiseMap.Length0, lodStep);
      forall i: nat, j': nat :: i < n && j' < j + 1 ==>
        VertexWritten(meshData, noiseMap, heightMultiplier, heightCurve, lodStep, n, i, j')
    ensures var n := LodVertexCount(noiseMap.Length0, lodStep);
      forall qi: nat, qj: nat :: qi < n - 1 && qj < j + 1 && qj < n - 1 ==> QuadWritten(meshData, n, qi, qj)
  {
    ghost var n := LodVertexCount(noiseMap.Length0, lodStep);
    vi, ti := FillRow(meshData, noiseMap, heightMultiplier, heightCurve, lodStep, j, y, vi0, ti0);
    forall i: nat, j': nat | i < n && j' < j + 1
      ensures VertexWritten(meshData, noiseMap, heightMultiplier, heightCurve, lodStep, n, i, j')
    {
      if j' < j {
        assert old(VertexWritten(meshData, noiseMap, heightMultiplier, heightCurve, lodStep, n, i, j'));
        RowMajorBeforeRow(n, i, j', j);
      }
    }
    ghost var quadsPerRow := n - 1;
    forall qi: nat, qj: nat | qi < quadsPerRow && qj < j + 1 && qj < quadsPerRow
      ensures QuadWritten(meshData, n, qi, qj)
    {
      if qj < j {
        assert old(QuadWritten(meshData, n, qi, qj));
        RowMajorBeforeRow(quadsPerRow, qi, qj, j);
      }
    }
  }

  /** Once every quad of an n-by-n mesh is written, every triangle slot holds
      a vertex index: the buffers are fit for CalculateNormals. */
  lemma {:induction false} WrittenQuadsAreValid(meshData: MeshData, n: int)
    requires n >= 1 && Sized(meshData, n)
    requires forall qi: nat, qj: nat :: qi < n - 1 && qj < n - 1 ==> QuadWritten(meshData, n, qi, qj)
    ensures ValidTriangleIndices(meshData.triangles[..], meshData.vertices.Length)
  {
    var tris := meshData.triangles[..];
    assert |tris| / 3 * 3 == |tris|;
    forall k | 0 <= k < |tris| / 3 * 3
      ensures 0 <= tris[k] < meshData.vertices.Length
    {
      TriangleSlotInQuad(n, k);
      var q := k / 6;
      var qi, qj := q % (n - 1), q / (n - 1);
      assert QuadWritten(meshData, n, qi, qj);
      QuadCornersAreCells(n, qi, qj);
      var corners := QuadCorners(n, RowMajor(n, qi, qj));
      assert tris[k] == corners[k % 6];
    }
  }

  /** GenerateTerrainMesh: allocates an n-by-n vertex grid with
      n = (chunkSize - 1) / 2^lodLevel + 1 and visits the field with stride
      2^lodLevel, writing every vertex and UV and the six indices of every
      quad. With an empty field the loops do not run and the buffers keep
      their zero fill. */
  method GenerateTerrainMesh(noiseMap: array2<real>, heightMultiplier: real, heightCurve: real -> real, lodLevel: nat)
    returns (meshData: MeshData)
    requires noiseMap.Length0 <= noiseMap.Length1
    ensures fresh(meshData) && fresh(meshData.vertices) && fresh(meshData.triangles) && fresh(meshData.uvs)
    ensures Sized(meshData, MeshSide(noiseMap.Length0, lodLevel))
    ensures var n := MeshSide(noiseMap.Length0, lodLevel);
      noiseMap.Length0 >= 1 ==> forall i: nat, j: nat :: i < n && j < n ==>
        VertexWritten(meshData, noiseMap, heightMultiplier, heightCurve, LodStep(lodLevel), n, i, j)
    ensures var n := MeshSide(noiseMap.Length0, lodLevel);
      noiseMap.Length0 >= 1 ==> forall qi: nat, qj: nat :: qi < n - 1 && qj < n - 1 ==> QuadWritten(meshData, n, qi, qj)
    ensures noiseMap.Length0 >= 1 ==> ValidTriangleIndices(meshData.triangles[..], meshData.vertices.Length)
    ensures noiseMap.Length0 == 0 && lodLevel == 0 ==> !ValidTriangleIndices(meshData.triangles[..], meshData.vertices.Length)
    ensures noiseMap.Length0 == 0 ==>
              (forall k :: 0 <= k < meshData.vertices.Length ==> meshData.vertices[k] == Zero3) &&
              (forall k :: 0 <= k < meshData.uvs.Length ==> meshData.uvs[k] == Zero2) &&
              (forall t :: 0 <= t < meshData.triangles.Length ==> meshData.triangles[t] == 0)
  {
    var chunkSize := noiseMap.Length0;
    var lodStep := LodStep(lodLevel);
    var lodVertexCount := LodVertexCount(chunkSize, lodStep);
    meshData := new MeshData(lodVertexCount);
    ghost var n := lodVertexCount;

    var vi := 0;
    var ti := 0;
    var y := 0;
    ghost var j: nat := 0;
    while y < chunkSize
      invariant y == Mul(j, lodStep)
      invariant chunkSize >= 1 ==> j <= n && vi == RowMajor(n, 0, j) && ti == 6 * QuadsBefore(n, 0, j)
      invariant chunkSize == 0 ==> j == 0
      invariant forall i: nat, j': nat :: i < n && j' < j ==>
                  VertexWritten(meshData, noiseMap, heightMultiplier, heightCurve, lodStep, n, i, j')
      invariant forall qi: nat, qj: nat :: qi < n - 1 && qj < j && qj < n - 1 ==> QuadWritten(meshData, n, qi, qj)
      invariant chunkSize == 0 ==>
                  (forall k :: 0 <= k < meshData.vertices.Length ==> meshData.vertices[k] == Zero3) &&
                  (forall k :: 0 <= k < meshData.uvs.Length ==> meshData.uvs[k] == Zero2) &&
                  (forall t :: 0 <= t < meshData.triangles.Length ==> meshData.triangles[t] == 0)
    {
      StrideVisits(chunkSize, lodStep, j);
      vi, ti := FillGridRow(meshData, noiseMap, heightMultiplier, heightCurve, lodStep, j, y, vi, ti);
      y := y + lodStep;
      j := j + 1;
    }
    if chunkSize >= 1 {
      StrideVisits(chunkSize, lodStep, j);
      WrittenQuadsAreValid(meshData, n);
    } else if lodLevel == 0 {
      assert n == 0 && Square(n - 1) == 1;
      assert meshData.triangles[..][0] == 0;
    }
  }
}
