/** GridMapGenerator: the early quad-grid generator (the MapGenerator class of
    MapGen/MapGenerator.cs). It clamps its scale, samples a mapWidth-by-
    mapHeight Perlin field, builds vertex and triangle buffers for a 3D
    surface and colours each cell on a black-to-white ramp.
    Mathf.PerlinNoise is the parameter `perlin`; the Unity Mesh, Texture2D
    and renderer calls that consume the buffers are not modelled.

    The 3D buffers are modelled as written. The vertex loop covers only the
    mapWidth-by-mapHeight points, with stride mapWidth. The triangle pattern
    and the allocation assume a (mapWidth + 1)-wide grid of
    (mapHeight + 1) rows. FillGridVertices and FillGridTriangles are the
    consistent grid builder that would fit that pattern.
    For both, see the Findings section of the README. */
module GridMapGenerator {
  import opened UnityMath
  import opened GridIndex
  import opened TextureHelper

  /** MapTypeGen: the generator the editor runs; the first value is the default. */
  datatype MapTypeGen = Map2DPerlinBlackWhite | Map3DPerlinBlackWhite

  /** The scale both generators use after their guard: a non-positive scale
      is replaced by 0.01, a positive one kept. */
  function ClampedScale(scale: real): (s: real)
    ensures s > 0.0
    ensures scale > 0.0 ==> s == scale
    ensures scale <= 0.0 ==> s == 0.01
  {
    if scale <= 0.0 then 0.01 else scale
  }

  /** Noise-map cell [x, z]: the Perlin value at (x / scale, z / scale). */
  function NoiseSample(perlin: (real, real) -> real, scale: real, x: int, z: int): real
    requires scale != 0.0
  {
    perlin(x as real / scale, z as real / scale)
  }

  /** The 3D generator's vertex for grid point (x, z). The height is twice
      the Perlin value at the integer point itself, not at a scaled sample. */
  function SurfaceVertex(perlin: (real, real) -> real, x: int, z: int): (v: Vector3)
    ensures v.x == x as real && v.z == z as real
  {
    Vector3(x as real, perlin(x as real, z as real) * 2.0, z as real)
  }

  /** The six triangle indices the 3D generator writes for the quad with
      running counter `vert`: (vert, vert + w + 1, vert + 1) and
      (vert + 1, vert + w + 1, vert + w + 2). The two triangles share the
      edge from vert + 1 to vert + w + 1, and their other corners lie on
      either side of it. */
  function QuadSlots(width: int, vert: int): (r: seq<int>)
    ensures |r| == 6
    ensures r[2] == r[3] && r[1] == r[4]
    ensures r[0] < r[2] < r[1] < r[5] <==> width >= 1
  {
    [vert, vert + width + 1, vert + 1, vert + 1, vert + width + 1, vert + width + 2]
  }

  /** Slot RowMajor(width, x, z) of a vertex array exists and holds v. */
  ghost predicate Placed(vertices: array<Vector3>, width: int, x: int, z: nat, v: Vector3)
    reads vertices
  {
    0 <= RowMajor(width, x, z) < vertices.Length && vertices[RowMajor(width, x, z)] == v
  }

  /** The noise-map loop: z outer, x inner, cell [x, z] = NoiseSample. */
  method FillNoiseMap(perlin: (real, real) -> real, mapWidth: nat, mapHeight: nat, scale: real) returns (noiseMap: array2<real>)
    requires scale > 0.0
    ensures fresh(noiseMap) && noiseMap.Length0 == mapWidth && noiseMap.Length1 == mapHeight
    ensures forall x, z :: 0 <= x < mapWidth && 0 <= z < mapHeight ==> noiseMap[x, z] == NoiseSample(perlin, scale, x, z)
  {
    noiseMap := new real[mapWidth, mapHeight];
    var z := 0;
    while z < mapHeight
      invariant 0 <= z <= mapHeight
      invariant forall a, b :: 0 <= a < mapWidth && 0 <= b < z ==> noiseMap[a, b] == NoiseSample(perlin, scale, a, b)
    {
      var x := 0;
      while x < mapWidth
        invariant 0 <= x <= mapWidth
        invariant forall a, b :: 0 <= a < mapWidth && 0 <= b <= z && (b < z || a < x) ==>
                    noiseMap[a, b] == NoiseSample(perlin, scale, a, b)
      {
        WriteNoiseSample(noiseMap, perlin, scale, x, z);
        x := x + 1;
      }
      z := z + 1;
    }
  }

  /** The body of the noise-map loop at (x, z), every earlier cell kept. */
  method WriteNoiseSample(noiseMap: array2<real>, perlin: (real, real) -> real, scale: real, x: int, z: int)
    requires scale > 0.0 && 0 <= x < noiseMap.Length0 && 0 <= z < noiseMap.Length1
    requires forall a, b :: 0 <= a < noiseMap.Length0 && 0 <= b <= z && (b < z || a < x) ==>
               noiseMap[a, b] == NoiseSample(perlin, scale, a, b)
    modifies noiseMap
    ensures forall a, b :: 0 <= a < noiseMap.Length0 && 0 <= b <= z && (b < z || a <= x) ==>
              noiseMap[a, b] == NoiseSample(perlin, scale, a, b)
  {
    var sampleX := x as real / scale;
    var sampleZ := z as real / scale;
    var perlinValue := perlin(sampleX, sampleZ);
    noiseMap[x, z] := perlinValue;
  }

  /** The vertex loop as written. The array has (w + 1)(h + 1)
      default-initialised slots. The loop writes grid point (x, z) to slot
      z * w + x for x < w and z < h only, so the last w + h + 1 slots keep
      the zero vector. */
  method FillVertices(perlin: (real, real) -> real, mapWidth: nat, mapHeight: nat) returns (vertices: array<Vector3>)
    ensures fresh(vertices) && vertices.Length == Mul(mapHeight + 1, mapWidth + 1)
    ensures forall x: nat, z: nat :: x < mapWidth && z < mapHeight ==> Placed(vertices, mapWidth, x, z, SurfaceVertex(perlin, x, z))
    ensures forall k :: Mul(mapHeight, mapWidth) <= k < vertices.Length ==> vertices[k] == Zero3
  {
    vertices := new Vector3[Mul(mapHeight + 1, mapWidth + 1)](_ => Zero3);
    CoversGrid(mapWidth, mapHeight);
    var i := 0;
    var z := 0;
    while z < mapHeight
      invariant 0 <= z <= mapHeight && i == RowMajor(mapWidth, 0, z)
      invariant forall x': nat, z': nat :: x' < mapWidth && z' < z ==> Placed(vertices, mapWidth, x', z', SurfaceVertex(perlin, x', z'))
      invariant forall k :: i <= k < vertices.Length ==> vertices[k] == Zero3
    {
      var x := 0;
      while x < mapWidth
        invariant 0 <= x <= mapWidth && i == RowMajor(mapWidth, x, z)
        invariant forall x': nat, z': nat :: x' < mapWidth && VisitedBefore(x', z', x, z) ==>
                    Placed(vertices, mapWidth, x', z', SurfaceVertex(perlin, x', z'))
        invariant forall k :: i <= k < vertices.Length ==> vertices[k] == Zero3
      {
        RowMajorInRange(mapWidth, mapHeight, x, z);
        MulIsProduct(mapHeight, mapWidth);
        WriteVertex(vertices, perlin, mapWidth, x, z, i);
        i := i + 1;
        x := x + 1;
      }
      RowMajorNextRow(mapWidth, z);
      z := z + 1;
    }
  }

  /** w * h vertex slots fit in the (w + 1)(h + 1) the arrays allocate. */
  lemma CoversGrid(w: nat, h: nat)
    ensures Mul(h, w) <= Mul(h + 1, w + 1)
  {
    MulIsProduct(h, w);
    MulIsProduct(h + 1, w + 1);
    assert (h + 1) * (w + 1) == h * w + h + w + 1;
  }

  /** The body of the vertex loop at (x, z): slot i takes the vertex, every
      earlier point is kept and every later slot is still zero. */
  method WriteVertex(vertices: array<Vector3>, perlin: (real, real) -> real, width: int, x: int, z: nat, i: int)
    requires 0 <= x < width && i == RowMajor(width, x, z) && 0 <= i < vertices.Length
    requires forall x': nat, z': nat :: x' < width && VisitedBefore(x', z', x, z) ==>
               Placed(vertices, width, x', z', SurfaceVertex(perlin, x', z'))
    requires forall k :: i <= k < vertices.Length ==> vertices[k] == Zero3
    modifies vertices
    ensures forall x': nat, z': nat :: x' < width && (VisitedBefore(x', z', x, z) || (x' == x && z' == z)) ==>
              Placed(vertices, width, x', z', SurfaceVertex(perlin, x', z'))
    ensures forall k :: i < k < vertices.Length ==> vertices[k] == Zero3
  {
    var y := perlin(x as real, z as real) * 2.0;
    vertices[i] := Vector3(x as real, y, z as real);
    forall x': nat, z': nat | x' < width && VisitedBefore(x', z', x, z)
      ensures Placed(vertices, width, x', z', SurfaceVertex(perlin, x', z'))
    {
      assert old(Placed(vertices, width, x', z', SurfaceVertex(perlin, x', z')));
      if z' < z {
        RowMajorBeforeRow(width, x', z', z);
      }
    }
  }

  /** The triangle loop as written. The counter vert steps once per quad,
      with no skip at the end of a row, and ends at w * h. Quad q fills the
      six slots from 6q with QuadSlots(w, q), so every slot of the
      6 * w * h array is written. */
  method FillTriangles(mapWidth: nat, mapHeight: nat) returns (triangles: array<int>)
    ensures fresh(triangles) && triangles.Length == 6 * Mul(mapHeight, mapWidth)
    ensures forall q, c :: 0 <= q < Mul(mapHeight, mapWidth) && 0 <= c < 6 ==> triangles[6 * q + c] == QuadSlots(mapWidth, q)[c]
  {
    triangles := new int[6 * Mul(mapHeight, mapWidth)];
    var vert := 0;
    var tris := 0;
    var z := 0;
    while z < mapHeight
      invariant 0 <= z <= mapHeight && vert == RowMajor(mapWidth, 0, z) && tris == 6 * vert
      invariant vert <= Mul(mapHeight, mapWidth)
      invariant forall q, c :: 0 <= q < vert && 0 <= c < 6 ==> triangles[6 * q + c] == QuadSlots(mapWidth, q)[c]
    {
      MulIncreasing(z + 1, mapHeight, mapWidth);
      var x := 0;
      while x < mapWidth
        invariant 0 <= x <= mapWidth && vert == RowMajor(mapWidth, x, z) && tris == 6 * vert
        invariant vert <= Mul(mapHeight, mapWidth)
        invariant forall q, c :: 0 <= q < vert && 0 <= c < 6 ==> triangles[6 * q + c] == QuadSlots(mapWidth, q)[c]
      {
        RowMajorInRange(mapWidth, mapHeight, x, z);
        MulIsProduct(mapHeight, mapWidth);
        WriteQuadSlots(triangles, mapWidth, vert, tris);
        vert := vert + 1;
        tris := tris + 6;
        x := x + 1;
      }
      RowMajorNextRow(mapWidth, z);
      z := z + 1;
    }
  }

  /** The body of the triangle loop: QuadSlots(width, vert) in the six slots
      from tris = 6 * vert, every earlier quad kept. */
  method WriteQuadSlots(triangles: array<int>, width: int, vert: int, tris: int)
    requires 0 <= vert && tris == 6 * vert && tris + 6 <= triangles.Length
    requires forall q, c :: 0 <= q < vert && 0 <= c < 6 ==> triangles[6 * q + c] == QuadSlots(width, q)[c]
    modifies triangles
    ensures forall q, c :: 0 <= q <= vert && 0 <= c < 6 ==> triangles[6 * q + c] == QuadSlots(width, q)[c]
  {
    triangles[tris + 0] := vert + 0;
    triangles[tris + 1] := vert + width + 1;
    triangles[tris + 2] := vert + 1;
    triangles[tris + 3] := vert + 1;
    triangles[tris + 4] := vert + width + 1;
    triangles[tris + 5] := vert + width + 2;
    forall q, c | 0 <= q < vert && 0 <= c < 6
      ensures triangles[6 * q + c] == QuadSlots(width, q)[c]
    {
      assert old(triangles[6 * q + c]) == QuadSlots(width, q)[c];
    }
  }

  /** For a non-empty grid every triangle index is below (w + 1)(h + 1),
      the length of the vertex array. */
  lemma TriangleIndicesInRange(w: nat, h: nat, q: int, c: int)
    requires w >= 1 && h >= 1 && 0 <= q < Mul(h, w) && 0 <= c < 6
    ensures 0 <= QuadSlots(w, q)[c] < Mul(h + 1, w + 1)
  {
    MulIsProduct(h, w);
    MulIsProduct(h + 1, w + 1);
    assert (h + 1) * (w + 1) == h * w + w + h + 1;
  }

  /** The last triangle's last corner, w * h + w + 1, is a slot of the vertex
      array that the vertex loop never writes (it holds the zero vector, by
      FillVertices). */
  lemma AsWrittenLastCornerUnwritten(w: nat, h: nat)
    requires w >= 1 && h >= 1
    ensures var last := QuadSlots(w, Mul(h, w) - 1)[5];
      Mul(h, w) <= last < Mul(h + 1, w + 1)
  {
    TriangleIndicesInRange(w, h, Mul(h, w) - 1, 5);
  }

  /** The first quad's second corner, meant to be grid point (0, 1), is slot
      w + 1. The vertex loop put (0, 1) at slot w and, for w >= 2, put (1, 1)
      at slot w + 1. */
  lemma AsWrittenCornerMisplaced(w: nat)
    requires w >= 1
    ensures QuadSlots(w, 0)[1] != RowMajor(w, 0, 1)
    ensures w >= 2 ==> QuadSlots(w, 0)[1] == RowMajor(w, 1, 1)
  {
    assert Mul(1, w) == w by {
      assert Mul(1, w) == Mul(0, w) + w;
    }
  }

  /** Without a skip at row ends, quad number w has corners w and w + 1. In
      the (w + 1)-wide grid the triangle pattern assumes, these are the last
      point of row 0 and the first point of row 1, so the quad wraps across
      the grid's edge. */
  lemma AsWrittenQuadWraps(w: nat, h: nat)
    requires w >= 1 && h >= 2
    ensures w < Mul(h, w)
    ensures QuadSlots(w, w)[0] == RowMajor(w + 1, w, 0) && QuadSlots(w, w)[2] == RowMajor(w + 1, 0, 1)
  {
    MulIncreasing(1, h, w);
    MulIncreasing(2, h, w);
  }

  /** The grid builder the triangle pattern fits: every point (x, z) with
      x <= w and z <= h, at slot z * (w + 1) + x, filling the whole
      (w + 1)(h + 1) array. */
  method FillGridVertices(perlin: (real, real) -> real, mapWidth: nat, mapHeight: nat) returns (vertices: array<Vector3>)
    ensures fresh(vertices) && vertices.Length == Mul(mapHeight + 1, mapWidth + 1)
    ensures forall x: nat, z: nat :: x <= mapWidth && z <= mapHeight ==>
              Placed(vertices, mapWidth + 1, x, z, SurfaceVertex(perlin, x, z))
  {
    vertices := new Vector3[Mul(mapHeight + 1, mapWidth + 1)](_ => Zero3);
    var i := 0;
    var z := 0;
    while z <= mapHeight
      invariant 0 <= z <= mapHeight + 1 && i == RowMajor(mapWidth + 1, 0, z)
      invariant forall x': nat, z': nat :: x' <= mapWidth && z' < z ==>
                  Placed(vertices, mapWidth + 1, x', z', SurfaceVertex(perlin, x', z'))
      invariant forall k :: i <= k < vertices.Length ==> vertices[k] == Zero3
    {
      var x := 0;
      while x <= mapWidth
        invariant 0 <= x <= mapWidth + 1 && i == RowMajor(mapWidth + 1, x, z)
        invariant forall x': nat, z': nat :: x' < mapWidth + 1 && VisitedBefore(x', z', x, z) ==>
                    Placed(vertices, mapWidth + 1, x', z', SurfaceVertex(perlin, x', z'))
        invariant forall k :: i <= k < vertices.Length ==> vertices[k] == Zero3
      {
        RowMajorInRange(mapWidth + 1, mapHeight + 1, x, z);
        MulIsProduct(mapHeight + 1, mapWidth + 1);
        WriteVertex(vertices, perlin, mapWidth + 1, x, z, i);
        i := i + 1;
        x := x + 1;
      }
      RowMajorNextRow(mapWidth + 1, z);
      z := z + 1;
    }
  }

  /** The matching triangle loop: the counter vert skips one point at each
      row end, so quad (x, z) uses the grid points around it. Its six slots,
      from 6 * (z * w + x), hold QuadSlots(w, z * (w + 1) + x). */
  method FillGridTriangles(mapWidth: nat, mapHeight: nat) returns (triangles: array<int>)
    ensures fresh(triangles) && triangles.Length == 6 * Mul(mapHeight, mapWidth)
    ensures forall x: nat, z: nat :: x < mapWidth && z < mapHeight ==> GridQuadWritten(triangles, mapWidth, x, z)
  {
    triangles := new int[6 * Mul(mapHeight, mapWidth)];
    var vert := 0;
    var tris := 0;
    var z := 0;
    while z < mapHeight
      invariant 0 <= z <= mapHeight && vert == RowMajor(mapWidth + 1, 0, z) && tris == 6 * RowMajor(mapWidth, 0, z)
      invariant forall x': nat, z': nat :: x' < mapWidth && z' < z ==> GridQuadWritten(triangles, mapWidth, x', z')
    {
      var x := 0;
      while x < mapWidth
        invariant 0 <= x <= mapWidth && vert == RowMajor(mapWidth + 1, x, z) && tris == 6 * RowMajor(mapWidth, x, z)
        invariant forall x': nat, z': nat :: x' < mapWidth && VisitedBefore(x', z', x, z) ==> GridQuadWritten(triangles, mapWidth, x', z')
      {
        RowMajorInRange(mapWidth, mapHeight, x, z);
        MulIsProduct(mapHeight, mapWidth);
        WriteGridQuadSlots(triangles, mapWidth, x, z, vert, tris);
        vert := vert + 1;
        tris := tris + 6;
        x := x + 1;
      }
      vert := vert + 1;
      RowMajorNextRow(mapWidth, z);
      z := z + 1;
    }
  }

  /** Quad (x, z) of the consistent builder is in place: the six slots from
      6 * (z * width + x) hold QuadSlots(width, z * (width + 1) + x). */
  ghost predicate GridQuadWritten(triangles: array<int>, width: int, x: int, z: nat)
    reads triangles
  {
    0 <= 6 * RowMajor(width, x, z) && 6 * RowMajor(width, x, z) + 6 <= triangles.Length &&
    triangles[6 * RowMajor(width, x, z) .. 6 * RowMajor(width, x, z) + 6] == QuadSlots(width, RowMajor(width + 1, x, z))
  }

  /** Every entry of s lies in [0, n). */
  predicate IndicesBelow(s: seq<int>, n: int) {
    forall k :: 0 <= k < |s| ==> 0 <= s[k] < n
  }

  /** WriteQuadSlots for quad (x, z) of the consistent builder, every earlier
      quad kept. */
  method WriteGridQuadSlots(triangles: array<int>, width: int, x: int, z: nat, vert: int, tris: int)
    requires 0 <= x < width && vert == RowMajor(width + 1, x, z) && tris == 6 * RowMajor(width, x, z)
    requires 0 <= tris && tris + 6 <= triangles.Length
    requires forall x': nat, z': nat :: x' < width && VisitedBefore(x', z', x, z) ==> GridQuadWritten(triangles, width, x', z')
    modifies triangles
    ensures forall x': nat, z': nat :: x' < width && (VisitedBefore(x', z', x, z) || (x' == x && z' == z)) ==>
              GridQuadWritten(triangles, width, x', z')
  {
    triangles[tris + 0] := vert + 0;
    triangles[tris + 1] := vert + width + 1;
    triangles[tris + 2] := vert + 1;
    triangles[tris + 3] := vert + 1;
    triangles[tris + 4] := vert + width + 1;
    triangles[tris + 5] := vert + width + 2;
    forall x': nat, z': nat | x' < width && VisitedBefore(x', z', x, z)
      ensures GridQuadWritten(triangles, width, x', z')
    {
      assert old(GridQuadWritten(triangles, width, x', z'));
      if z' < z {
        RowMajorBeforeRow(width, x', z', z);
        MulIsProduct(z', width);
        MulIsProduct(z, width);
      }
    }
  }

  /** In the consistent builder quad (x, z) is made of its own four grid
      points: (x, z), (x, z + 1), (x + 1, z) and (x + 1, z), (x, z + 1),
      (x + 1, z + 1). All of them lie in the vertex array. */
  lemma GridQuadCorners(w: nat, h: nat, x: nat, z: nat)
    requires x < w && z < h
    ensures QuadSlots(w, RowMajor(w + 1, x, z)) ==
            [RowMajor(w + 1, x, z), RowMajor(w + 1, x, z + 1), RowMajor(w + 1, x + 1, z),
             RowMajor(w + 1, x + 1, z), RowMajor(w + 1, x, z + 1), RowMajor(w + 1, x + 1, z + 1)]
    ensures IndicesBelow(QuadSlots(w, RowMajor(w + 1, x, z)), Mul(h + 1, w + 1))
  {
    assert Mul(z + 1, w + 1) == Mul(z, w + 1) + w + 1;
    RowMajorInRange(w + 1, h + 1, x + 1, z + 1);
    MulIsProduct(h + 1, w + 1);
  }

  /** The black-to-white colour map of both generators: a w * h array whose
      slot y * w + x holds the ramp at noise cell [x, y]. */
  method FillColorMap(noiseMap: array2<real>, mapWidth: nat, mapHeight: nat) returns (colorMap: array<Color>)
    requires noiseMap.Length0 == mapWidth && noiseMap.Length1 == mapHeight
    ensures fresh(colorMap) && colorMap.Length == Mul(mapHeight, mapWidth)
    ensures forall x: nat, y: nat :: x < mapWidth && y < mapHeight ==> Painted(colorMap, mapWidth, x, y, Greyscale(noiseMap[x, y]))
  {
    colorMap := new Color[Mul(mapHeight, mapWidth)](_ => DefaultColor);
    var y := 0;
    while y < mapHeight
      invariant 0 <= y <= mapHeight
      invariant forall x': nat, y': nat :: x' < mapWidth && y' < y ==> Painted(colorMap, mapWidth, x', y', Greyscale(noiseMap[x', y']))
    {
      var x := 0;
      while x < mapWidth
        invariant 0 <= x <= mapWidth
        invariant forall x': nat, y': nat :: x' < mapWidth && VisitedBefore(x', y', x, y) ==>
                    Painted(colorMap, mapWidth, x', y', Greyscale(noiseMap[x', y']))
      {
        RowMajorInRange(mapWidth, mapHeight, x, y);
        MulIsProduct(mapHeight, mapWidth);
        MulIsProduct(y, mapWidth);
        PaintGreyCell(colorMap, mapWidth, x, y, y * mapWidth + x, noiseMap);
        x := x + 1;
      }
      y := y + 1;
    }
  }

  /** The buffers GenerateMap3DPerlinBlackWhite hands to Unity. */
  datatype SurfaceBuffers = SurfaceBuffers(noiseMap: array2<real>, vertices: array<Vector3>, triangles: array<int>,
                                           colorMap: array<Color>)

  /** The buffers GenerateMap2DperlinBlackWhite hands to Unity. */
  datatype FlatBuffers = FlatBuffers(noiseMap: array2<real>, colorMap: array<Color>)

  class MapGenerator {
    var mapType: MapTypeGen
    var mapWidth: int
    var mapHeight: int
    var scale: real
    var autoUpdate: bool

    /** The field initialisers: a 30-by-30 map at scale 0.3, auto-updating. */
    constructor ()
      ensures mapType == Map2DPerlinBlackWhite && mapWidth == 30 && mapHeight == 30 && scale == 0.3 && autoUpdate
    {
      mapType := Map2DPerlinBlackWhite;
      mapWidth := 30;
      mapHeight := 30;
      scale := 0.3;
      autoUpdate := true;
    }

    /** The guard at the top of both generators: it overwrites a non-positive
        scale field with 0.01. */
    method ClampScale()
      modifies this
      ensures scale == ClampedScale(old(scale))
      ensures mapType == old(mapType) && mapWidth == old(mapWidth) && mapHeight == old(mapHeight) && autoUpdate == old(autoUpdate)
    {
      if scale <= 0.0 {
        scale := 0.01;
      }
    }

    /** GenerateMap3DPerlinBlackWhite. The scale is clamped first. A negative
        width or height makes the noise-map allocation throw, modelled as
        None. Otherwise the result holds the noise map, the vertex and
        triangle arrays as written, and the colour map. */
    method GenerateMap3DPerlinBlackWhite(perlin: (real, real) -> real) returns (r: Option<SurfaceBuffers>)
      modifies this
      ensures scale == ClampedScale(old(scale))
      ensures mapType == old(mapType) && mapWidth == old(mapWidth) && mapHeight == old(mapHeight) && autoUpdate == old(autoUpdate)
      ensures r.None? <==> mapWidth < 0 || mapHeight < 0
      ensures r.Some? ==>
                var b := r.value;
                fresh(b.noiseMap) && fresh(b.vertices) && fresh(b.triangles) && fresh(b.colorMap) &&
                b.noiseMap.Length0 == mapWidth && b.noiseMap.Length1 == mapHeight &&
                (forall x, z :: 0 <= x < mapWidth && 0 <= z < mapHeight ==> b.noiseMap[x, z] == NoiseSample(perlin, scale, x, z)) &&
                b.vertices.Length == Mul(mapHeight + 1, mapWidth + 1) &&
                (forall x: nat, z: nat :: x < mapWidth && z < mapHeight ==>
                   Placed(b.vertices, mapWidth, x, z, SurfaceVertex(perlin, x, z))) &&
                (forall k :: Mul(mapHeight, mapWidth) <= k < b.vertices.Length ==> b.vertices[k] == Zero3) &&
                b.triangles.Length == 6 * Mul(mapHeight, mapWidth) &&
                (forall q, c :: 0 <= q < Mul(mapHeight, mapWidth) && 0 <= c < 6 ==>
                   b.triangles[6 * q + c] == QuadSlots(mapWidth, q)[c]) &&
                b.colorMap.Length == Mul(mapHeight, mapWidth) &&
                (forall x: nat, y: nat :: x < mapWidth && y < mapHeight ==>
                   Painted(b.colorMap, mapWidth, x, y, Greyscale(b.noiseMap[x, y])))
    {
      ClampScale();
      if mapWidth < 0 || mapHeight < 0 {
        return None;
      }
      var noiseMap := FillNoiseMap(perlin, mapWidth, mapHeight, scale);
      var vertices := FillVertices(perlin, mapWidth, mapHeight);
      var triangles := FillTriangles(mapWidth, mapHeight);
      var colorMap := FillColorMap(noiseMap, mapWidth, mapHeight);
      r := Some(SurfaceBuffers(noiseMap, vertices, triangles, colorMap));
    }

    /** GenerateMap2DperlinBlackWhite: the clamp, the noise map and the colour
        map of the 3D generator, without the mesh. */
    method GenerateMap2DperlinBlackWhite(perlin: (real, real) -> real) returns (r: Option<FlatBuffers>)
      modifies this
      ensures scale == ClampedScale(old(scale))
      ensures mapType == old(mapType) && mapWidth == old(mapWidth) && mapHeight == old(mapHeight) && autoUpdate == old(autoUpdate)
      ensures r.None? <==> mapWidth < 0 || mapHeight < 0
      ensures r.Some? ==>
                var b := r.value;
                fresh(b.noiseMap) && fresh(b.colorMap) &&
                b.noiseMap.Length0 == mapWidth && b.noiseMap.Length1 == mapHeight &&
                (forall x, z :: 0 <= x < mapWidth && 0 <= z < mapHeight ==> b.noiseMap[x, z] == NoiseSample(perlin, scale, x, z)) &&
                b.colorMap.Length == Mul(mapHeight, mapWidth) &&
                (forall x: nat, y: nat :: x < mapWidth && y < mapHeight ==>
                   Painted(b.colorMap, mapWidth, x, y, Greyscale(b.noiseMap[x, y])))
    {
      ClampScale();
      if mapWidth < 0 || mapHeight < 0 {
        return None;
      }
      var noiseMap := FillNoiseMap(perlin, mapWidth, mapHeight, scale);
      var colorMap := FillColorMap(noiseMap, mapWidth, mapHeight);
      r := Some(FlatBuffers(noiseMap, colorMap));
    }
  }
}
