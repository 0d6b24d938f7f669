# Project-Z terrain core in Dafny

This project models the procedural terrain pipeline of Project-Z, a Unity game.
It also models one small input-quantisation rule.

The pipeline has these parts:
- height fields from Perlin noise, with clamped parameters, octaves, and a rescale to [0, 1] by a min/max scan;
- colour maps that classify each cell by terrain band, or map its height to a grey;
- the level-of-detail terrain mesh builder, with accumulated vertex normals;
- the chunk store that streams chunks around the viewer;
- an early quad-grid generator;
- the editor-driven map generator with its draw-mode switch.

The input rule is the animation snapping of the locomotion axes.

Every core file is one module:

| module | file |
|---|---|
| `TerrainMesh` (`mesh_data.dfy`) | `MeshData.cs` |
| `NoiseGenerator` (`noise_generator.dfy`) | `NoiseGenerator.cs` |
| `TextureHelper` (`texture_helper.dfy`) | `TextureHelper.cs` |
| `ChunkStreaming` (`infinite_chunks.dfy`) | `InfiniteChunks.cs` |
| `GridMapGenerator` (`grid_map_generator.dfy`) | `MapGen/MapGenerator.cs` |
| `MapGenerator` (`map_generator.dfy`) | root `MapGenerator.cs` |
| `AnimatorManager` (`animator_manager.dfy`) | `AnimatorManager.cs` |

Two modules are shared by the others:
- `UnityMath` holds the engine value types and library numerics: Vector2/3, Color, Mathf.InverseLerp, Mathf.Clamp01, Color.Lerp, C# integer division and float.MaxValue.
- `GridIndex` holds the row-major and stride arithmetic.

The code that fills arrays or changes objects is modelled imperatively:
- Each array is an `array`/`array2` filled in `while` loops, with the source's counters.
- `MeshData`, `InfiniteChunks`, `Chunk`, both `MapGenerator` classes and the scene objects are Dafny classes with `modifies` frames.
- The chunk dictionary and the visible list are a `map` field and a `seq` field of the store.

Each loop is proved against a specification function:
- `NormalSum` for the normals;
- `OctaveCell` and `SimpleField` for the noise cells;
- `CellColor` and `FirstBand` for banded colours;
- `ShownIn` and `Window` for the chunk walk.

Those specification functions carry their own lemmas. The snapping rule is pure and is modelled as functions.

Floats are `real`. A bodiless function would be an unproved axiom, so these engine calls are function-typed parameters instead:
- Mathf.PerlinNoise;
- AnimationCurve.Evaluate;
- Vector3.Normalize;
- Mathf.RoundToInt;
- the bounds distance `Mathf.Sqrt(bounds.SqrDistance(p))`.

## Model

| member | source | states |
|---|---|---|
| TerrainMesh.LodStep | Assets/Scripts/MapGen/MeshData.cs:119 | the stride 2^lodLevel is at least 1, and even for every LOD above 0 |
| TerrainMesh.LodVertexCount | Assets/Scripts/MapGen/MeshData.cs:122 | for a non-empty field, n = (cs-1)/step + 1 is the number of stride points below cs: (n-1)·step ≤ cs-1 < n·step; for an empty field, C#'s truncating division gives 0 at LOD 0 and 1 otherwise |
| TerrainMesh.LodReachesEdge | Assets/Scripts/MapGen/MeshData.cs:122-136 | the last stride point lies on the field's far edge exactly when the stride divides cs-1 |
| TerrainMesh.MeshSizesOfSmallChunk | Assets/Scripts/MapGen/MeshData.cs:15-17 | a 5-wide field gives 25 vertices and 96 triangle slots at LOD 0, and 9 vertices and 24 slots at LOD 1 |
| TerrainMesh.QuadCornersAreCells | Assets/Scripts/MapGen/MeshData.cs:144-145 | the six indices written for quad (qi, qj) are its own grid points (qi,qj), (qi+1,qj+1), (qi,qj+1) and (qi+1,qj+1), (qi,qj), (qi+1,qj); all lie below n², so no triangle wraps past a row end |
| TerrainMesh.TriangleSlotInQuad | Assets/Scripts/MapGen/MeshData.cs:16 | each of the (n-1)²·6 triangle slots belongs to exactly one quad, t / 6, taken in row-major order |
| TerrainMesh.TerrainVertex | Assets/Scripts/MapGen/MeshData.cs:125-138 | the vertex of field point (x, y): x shifted left by (cs-1)/2, height = curve(noise[x,y])·multiplier, z = (cs-1)/2 - y; TerrainVertexCentred proves the centring |
| TerrainMesh.TerrainVertexCentred | Assets/Scripts/MapGen/MeshData.cs:125-138 | mirroring a field point through the centre negates the vertex's x and z, so the mesh is centred on the origin |
| TerrainMesh.TerrainUv | Assets/Scripts/MapGen/MeshData.cs:139 | the UV of field point (x, y) is (x/(cs-1), y/(cs-1)); TerrainUvInUnitSquare bounds it |
| TerrainMesh.TerrainUvInUnitSquare | Assets/Scripts/MapGen/MeshData.cs:139 | for cs ≥ 2 every UV lies in the unit square, with (0,0) at the first point and (1,1) at the last |
| TerrainMesh.TriangleNormalFromVertices | Assets/Scripts/MapGen/MeshData.cs:88-103 | the face normal is Normalize applied to AB × AC; FaceNormalPerpendicular proves that vector orthogonal to both edges |
| TerrainMesh.FaceNormalPerpendicular | Assets/Scripts/MapGen/MeshData.cs:88-97 | the cross product handed to Normalize is perpendicular to both edges AB and AC |
| TerrainMesh.NormalSumStep | Assets/Scripts/MapGen/MeshData.cs:73-76 | proof step: triangle t adds its face normal once at each of its three corners |
| TerrainMesh.NormalSumStepLocal | Assets/Scripts/MapGen/MeshData.cs:73-76 | triangle t leaves the sum unchanged at every vertex other than its corners |
| TerrainMesh.ZeroSum | Assets/Scripts/MapGen/MeshData.cs:53-77 | a vertex used by none of the triangles keeps the zero vector |
| TerrainMesh.AddFaceNormal | Assets/Scripts/MapGen/MeshData.cs:74-76 | the face normal is added at a, b and c, twice or three times when corners coincide, and every other entry is unchanged |
| TerrainMesh.NormalizeEach | Assets/Scripts/MapGen/MeshData.cs:80-83 | every entry is replaced by its normalisation |
| TerrainMesh.MeshData.constructor | Assets/Scripts/MapGen/MeshData.cs:13-18 | chunkSize² zeroed vertices and UVs, and (chunkSize-1)²·6 zeroed triangle slots |
| TerrainMesh.MeshData.SetVertex | Assets/Scripts/MapGen/MeshData.cs:21-24 | slot i holds (x, y, z) and no other slot changes |
| TerrainMesh.MeshData.SetTriangle | Assets/Scripts/MapGen/MeshData.cs:26-31 | slots i, i+1 and i+2 hold a, b and c, and no other slot changes |
| TerrainMesh.MeshData.SetUV | Assets/Scripts/MapGen/MeshData.cs:33-36 | slot i holds (x, y) and no other slot changes |
| TerrainMesh.MeshData.AccumulateTriangle | Assets/Scripts/MapGen/MeshData.cs:57-77 | one pass of the first loop takes the buffer from the normal sums over t triangles to the sums over t+1 |
| TerrainMesh.MeshData.CalculateNormals | Assets/Scripts/MapGen/MeshData.cs:51-86 | a fresh array with one entry per vertex; entry v is the normalised sum of the face normals of the triangles.Length/3 triangles, counted once for each corner at v |
| TerrainMesh.WriteCell | Assets/Scripts/MapGen/MeshData.cs:138-139 | slot vi holds the centred vertex and the UV of field point (x, y); no other slot changes |
| TerrainMesh.WriteQuad | Assets/Scripts/MapGen/MeshData.cs:144-147 | the six slots from ti hold the quad pattern of vi; no other slot changes |
| TerrainMesh.WriteGridCell | Assets/Scripts/MapGen/MeshData.cs:138-139 | grid vertex (i, j) goes to row-major slot vi; the earlier vertices of the row are kept |
| TerrainMesh.WriteGridQuad | Assets/Scripts/MapGen/MeshData.cs:142-148 | quad (i, j) goes to the slots from 6·RowMajor(n-1, i, j); the earlier quads of the row are kept |
| TerrainMesh.VertexStep | Assets/Scripts/MapGen/MeshData.cs:136-150 | one inner iteration writes grid vertex i of row j and advances x by the stride and vi by one |
| TerrainMesh.QuadStep | Assets/Scripts/MapGen/MeshData.cs:142-148 | the edge guard fires exactly for quads inside the grid; then the quad is written and ti advances by 6 |
| TerrainMesh.RowDone | Assets/Scripts/MapGen/MeshData.cs:136-151 | once x passes the last column, all n vertices of row j and its n-1 quads are written, and vi and ti are at the start of row j+1 |
| TerrainMesh.FillRow | Assets/Scripts/MapGen/MeshData.cs:136-151 | the inner loop writes row j's vertices, UVs and quads, touching no vertex or UV slot outside [vi0, vi) and no triangle slot outside [ti0, ti) |
| TerrainMesh.FillGridRow | Assets/Scripts/MapGen/MeshData.cs:134-152 | with rows 0 to j-1 complete, one outer iteration completes row j |
| TerrainMesh.WrittenQuadsAreValid | Assets/Scripts/MapGen/MeshData.cs:142-148 | once every quad is written, every triangle slot names an existing vertex |
| TerrainMesh.GenerateTerrainMesh | Assets/Scripts/MapGen/MeshData.cs:108-155 | the buffers for an n-by-n grid, n = (cs-1)/2^lod + 1; every vertex, UV and quad is written, so all triangle indices are valid; an empty field leaves the zero fill, whose 6 slots at LOD 0 name no vertex |
| NoiseGenerator.ScanBoundsAttained | Assets/Scripts/MapGen/NoiseGenerator.cs:91-102 | after the min/max scan over a non-empty field, min ≤ every cell ≤ max and both bounds are attained by a cell |
| NoiseGenerator.ScanBoundsUnique | Assets/Scripts/MapGen/NoiseGenerator.cs:117-129 | the scan's outcome is determined: any two scans of the same non-empty field agree |
| NoiseGenerator.NormalisedCells | Assets/Scripts/MapGen/NoiseGenerator.cs:103-109 | rescaled cells lie in [0,1]; min cells map to 0 and max cells to 1 (when min < max); order between cells is preserved, strictly so for strictly ordered cells |
| NoiseGenerator.SimpleScale | Assets/Scripts/MapGen/NoiseGenerator.cs:11-12 | a scale below 0.3 becomes 0.3 and any other is kept, so the effective scale is ≥ 0.3 |
| NoiseGenerator.OctaveScale | Assets/Scripts/MapGen/NoiseGenerator.cs:49-50 | a scale of 0.3 or less becomes 0.3 and any other is kept |
| NoiseGenerator.ScaleClampsAgree | Assets/Scripts/MapGen/NoiseGenerator.cs:11-50 | the `<` and `<=` clamps give the same scale for every input |
| NoiseGenerator.ClampWidth | Assets/Scripts/MapGen/NoiseGenerator.cs:13-16 | a non-positive width becomes 1 and any other is kept; the height is not clamped at all |
| NoiseGenerator.SimpleField | Assets/Scripts/MapGen/NoiseGenerator.cs:22-36 | the raw w-by-h field with cell [x,y] = P((x+ox)/scale, (y+oy)/scale) |
| NoiseGenerator.OctaveField | Assets/Scripts/MapGen/NoiseGenerator.cs:60-88 | the raw w-by-h field with every cell the octave sum of OctaveCell |
| NoiseGenerator.OctaveSum | Assets/Scripts/MapGen/NoiseGenerator.cs:64-83 | the sum over octaves i < k of amplitude persistance^i times (2·P(sample·lacunarity^i) - 1); OctaveSumBound and FewOctaves state its range and base cases |
| NoiseGenerator.FewOctaves | Assets/Scripts/MapGen/NoiseGenerator.cs:64-86 | with no (or negative) octaves every raw cell is 0; with one octave it is 2·P(sample) - 1 |
| NoiseGenerator.OctaveSumBound | Assets/Scripts/MapGen/NoiseGenerator.cs:64-83 | for Perlin values in [0,1] and persistance ≥ 0, the k-octave sum lies within ±(1 + p + … + p^(k-1)) |
| NoiseGenerator.OctaveHeight | Assets/Scripts/MapGen/NoiseGenerator.cs:64-83 | the amplitude/frequency loop computes OctaveCell: the sum over i < octaves of persistance^i·(2·P(sample·lacunarity^i) - 1) |
| NoiseGenerator.OctaveExtremes | Assets/Scripts/MapGen/NoiseGenerator.cs:91-102 | the y-outer scan yields the scan bounds of the field, starting from float.MinValue/MaxValue |
| NoiseGenerator.NormalizeInPlace | Assets/Scripts/MapGen/NoiseGenerator.cs:103-109 | every cell becomes InverseLerp(min, max, old value) |
| NoiseGenerator.FloatMapExtremes | Assets/Scripts/MapGen/NoiseGenerator.cs:117-129 | the scan over GetLength(0) × GetLength(1) yields the field's scan bounds |
| NoiseGenerator.NormalizeFloatMap | Assets/Scripts/MapGen/NoiseGenerator.cs:115-143 | a fresh array of the same dimensions holding InverseLerp(min, max, v) for each cell; the input is unchanged |
| NoiseGenerator.WriteSimpleCell | Assets/Scripts/MapGen/NoiseGenerator.cs:27-34 | cell [x,y] takes its Perlin sample; earlier cells are kept |
| NoiseGenerator.WriteOctaveCell | Assets/Scripts/MapGen/NoiseGenerator.cs:64-86 | cell [x,y] takes its octave sum; earlier cells are kept |
| NoiseGenerator.GenerateNoiseMap | Assets/Scripts/MapGen/NoiseGenerator.cs:8-43 | None exactly for a negative height (the allocation throws); otherwise a ClampWidth(w)-by-h field, each cell the normalised Perlin sample at the clamped scale, all in [0,1] |
| NoiseGenerator.GenerateOctaveNoiseMap | Assets/Scripts/MapGen/NoiseGenerator.cs:46-113 | None exactly for a negative height; otherwise a ClampWidth(w)-by-h field, each cell InverseLerp of the scan bounds applied to its octave sum |
| TextureHelper.FirstBand | Assets/Scripts/MapGen/TextureHelper.cs:46-53 | the band index found is the first whose height is ≥ the value; None exactly when no band qualifies |
| TextureHelper.LaterBandsIgnored | Assets/Scripts/MapGen/TextureHelper.cs:46-52 | bands after the first qualifying one never affect a cell's colour |
| TextureHelper.CellColor | Assets/Scripts/MapGen/TextureHelper.cs:45-53 | the colour of the first band whose height is ≥ the cell value, or the array default when no band qualifies, as FirstBand finds it |
| TextureHelper.PaintCell | Assets/Scripts/MapGen/TextureHelper.cs:45-53 | with a qualifying band, the slot takes that band's colour; with none, it keeps its value; no other slot changes |
| TextureHelper.PaintGridCell | Assets/Scripts/MapGen/TextureHelper.cs:43-53 | cell (x,y) is coloured at y·size+x; earlier cells are kept and later slots still hold the default |
| TextureHelper.GetColorMapFromNoiseMap | Assets/Scripts/MapGen/TextureHelper.cs:36-58 | size² colours; slot y·size+x holds the colour of the first band reaching cell [x,y], or the default colour when none does; the inputs are not modified |
| TextureHelper.GetGreyscaleColorMap | Assets/Scripts/MapGen/TextureHelper.cs:61-75 | size² colours; slot y·size+x holds Lerp(black, white, cell [x,y]) (the same loop as NoiseMapToTexture, lines 21-30) |
| TextureHelper.PaintGreyCell | Assets/Scripts/MapGen/TextureHelper.cs:70 | cell (x,y) takes its grey at y·size+x; earlier cells are kept |
| ChunkStreaming.ChunkPositionInjective | Assets/Scripts/MapGen/InfiniteChunks.cs:82-84 | for a non-zero size, distinct coordinates give distinct chunk positions |
| ChunkStreaming.ChunkPosition | Assets/Scripts/MapGen/InfiniteChunks.cs:84 | a chunk's world position is its coordinate times the chunk size (in C#, Vector2 × float: float products of whole-number coordinates; the model computes them exactly as integers, having no float rounding); ChunkPositionInjective proves distinct chunks apart |
| ChunkStreaming.ChunkBounds | Assets/Scripts/MapGen/InfiniteChunks.cs:86 | the bounds are centred on the chunk position with extent size on x and y and 0 on z, Vector2 widened to Vector3 |
| ChunkStreaming.Chunk.constructor | Assets/Scripts/MapGen/InfiniteChunks.cs:82-93 | position = coord·size and bounds centred there of extent size; the new object starts active |
| ChunkStreaming.Chunk.UpdateChunk | Assets/Scripts/MapGen/InfiniteChunks.cs:95-100 | visible exactly when the distance to the bounds is ≤ 100 |
| ChunkStreaming.Chunk.SetVisible | Assets/Scripts/MapGen/InfiniteChunks.cs:102-105 | the active flag becomes the argument |
| ChunkStreaming.Chunk.IsVisible | Assets/Scripts/MapGen/InfiniteChunks.cs:107-110 | a chunk is visible exactly when its mesh object is active |
| ChunkStreaming.ViewRadius | Assets/Scripts/MapGen/InfiniteChunks.cs:24 | the integer quotient is taken before rounding: k·size ≤ 100 < (k+1)·size for a positive size, so k = 0 once size > 100 |
| ChunkStreaming.RowCoordsMembers | Assets/Scripts/MapGen/InfiniteChunks.cs:51-54 | a row holds exactly the coordinates (cx+dx, y) for dx in its range |
| ChunkStreaming.RowCoordsShape | Assets/Scripts/MapGen/InfiniteChunks.cs:51 | a row has one coordinate per xOffset, all distinct |
| ChunkStreaming.WindowCoordsMembers | Assets/Scripts/MapGen/InfiniteChunks.cs:49-54 | a prefix of the window holds exactly the coordinates with dx in [-k,k] and dy in [-k, yEnd) |
| ChunkStreaming.WindowCoordsLength | Assets/Scripts/MapGen/InfiniteChunks.cs:49-51 | a window prefix of m rows has m·(2k+1) coordinates |
| ChunkStreaming.WindowCoordsDistinct | Assets/Scripts/MapGen/InfiniteChunks.cs:49-54 | no coordinate is visited twice |
| ChunkStreaming.WindowShape | Assets/Scripts/MapGen/InfiniteChunks.cs:49-54 | the scanned window is the (2k+1)² distinct coordinates within k of the centre on both axes, y outer and x inner; it is empty for a negative k |
| ChunkStreaming.WalkedSplit | Assets/Scripts/MapGen/InfiniteChunks.cs:49-54 | the cells visited mid-row are the finished rows followed by the row's prefix |
| ChunkStreaming.NotYetVisited | Assets/Scripts/MapGen/InfiniteChunks.cs:49-54 | each visited coordinate is new |
| ChunkStreaming.WalkStep | Assets/Scripts/MapGen/InfiniteChunks.cs:51-65 | proof step: one inner step appends its coordinate to the visit order and what it shows to the list |
| ChunkStreaming.WalkEnd | Assets/Scripts/MapGen/InfiniteChunks.cs:49-51 | a finished row completes the next prefix of the window |
| ChunkStreaming.ShownIn | Assets/Scripts/MapGen/InfiniteChunks.cs:57-65 | visiting coordinates appends at most one chunk per coordinate |
| ChunkStreaming.ShownInMembers | Assets/Scripts/MapGen/InfiniteChunks.cs:57-65 | a chunk is appended exactly when it was present at a visited coordinate and is in view |
| ChunkStreaming.ShownInAppend | Assets/Scripts/MapGen/InfiniteChunks.cs:49-65 | visiting a then b appends what a appends, then what b appends |
| ChunkStreaming.ShownSoFarSplit | Assets/Scripts/MapGen/InfiniteChunks.cs:49-65 | the list mid-row is the finished rows' chunks followed by the row prefix's |
| ChunkStreaming.ShownRowEnd | Assets/Scripts/MapGen/InfiniteChunks.cs:49-65 | a finished row is one more row of the window shown |
| ChunkStreaming.ShownRowMatches | Assets/Scripts/MapGen/InfiniteChunks.cs:51-65 | the loop-shaped row list is ShownIn of the row's coordinates |
| ChunkStreaming.ShownWindowMatches | Assets/Scripts/MapGen/InfiniteChunks.cs:49-65 | the loop-shaped window list is ShownIn of the window's coordinates |
| ChunkStreaming.InfiniteChunks.constructor | Assets/Scripts/MapGen/InfiniteChunks.cs:15-28 | an empty dictionary and list, chunkSize = generator size - 1, and the window radius from ViewRadius |
| ChunkStreaming.InfiniteChunks.Update | Assets/Scripts/MapGen/InfiniteChunks.cs:30-34 | the viewer position becomes its (x, z) divided by chunkSize, and chunkSize and the radius are kept. Afterwards the keys are the old keys plus the window around the rounded position, and their count grows by the window coordinates that were missing. Old keys keep their chunks. New chunks are visible and placed at coord·size. Old window chunks carry the distance test, listed chunks outside the window are hidden, and every other chunk keeps its flag. The visible list is ShownIn of the window over the old dictionary |
| ChunkStreaming.InfiniteChunks.HidePrevious | Assets/Scripts/MapGen/InfiniteChunks.cs:39-43 | every chunk of the last visible list is hidden, the list is emptied, and every other chunk keeps its flag |
| ChunkStreaming.InfiniteChunks.WindowStarted | Assets/Scripts/MapGen/InfiniteChunks.cs:49 | proof step: the walk state before the first row: nothing visited or shown |
| ChunkStreaming.InfiniteChunks.WindowFinished | Assets/Scripts/MapGen/InfiniteChunks.cs:49-73 | proof step: after the last row, the whole window is visited and shown |
| ChunkStreaming.InfiniteChunks.RowFinished | Assets/Scripts/MapGen/InfiniteChunks.cs:51-72 | the state after row yOffset's last cell is that before row yOffset+1 |
| ChunkStreaming.InfiniteChunks.VisitCoord | Assets/Scripts/MapGen/InfiniteChunks.cs:54-71 | one inner iteration: a present chunk is retested and listed if visible, a missing one is created; the walk advances one column |
| ChunkStreaming.InfiniteChunks.RetestChunk | Assets/Scripts/MapGen/InfiniteChunks.cs:57-65 | a present chunk gets visibility = in view and is appended iff it ends visible; the dictionary is unchanged |
| ChunkStreaming.InfiniteChunks.AddChunk | Assets/Scripts/MapGen/InfiniteChunks.cs:67-71 | a missing coordinate gets a fresh chunk at its position; nothing is appended to the list |
| ChunkStreaming.InfiniteChunks.WalkRow | Assets/Scripts/MapGen/InfiniteChunks.cs:51-72 | the inner loop visits row yOffset from -k to k and completes the next window prefix |
| ChunkStreaming.InfiniteChunks.WalkWindow | Assets/Scripts/MapGen/InfiniteChunks.cs:49-73 | the outer loop visits the whole window from an empty list |
| ChunkStreaming.InfiniteChunks.WalkOutcome | Assets/Scripts/MapGen/InfiniteChunks.cs:36-74 | a finished walk leaves the old keys plus the window, old chunks kept, the new chunks visible at their positions, the window chunks re-tested, and the list = ShownIn of the window |
| ChunkStreaming.InfiniteChunks.UpdateVisibleChunks | Assets/Scripts/MapGen/InfiniteChunks.cs:36-74 | keys only grow: they become the old keys plus the window, so the dictionary gains exactly as many entries as the window has coordinates it lacked. New chunks are visible and placed at coord·size. Old window chunks carry the distance test. Listed chunks outside the window are hidden, and any other chunk keeps its flag. The list holds the pre-existing window chunks in view, in visiting order |
| ChunkStreaming.WindowStart | Assets/Scripts/MapGen/InfiniteChunks.cs:49 | proof step: before the first row of the window, nothing is visited or shown |
| ChunkStreaming.WindowDone | Assets/Scripts/MapGen/InfiniteChunks.cs:49 | proof step: when the outer loop exits, the window has been visited, also for a negative k |
| ChunkStreaming.KeysGrowth | Assets/Scripts/MapGen/InfiniteChunks.cs:57-71 | a generic set fact: adding a set of coordinates to a key set adds exactly the coordinates it lacked |
| ChunkStreaming.DictionaryGrowth | Assets/Scripts/MapGen/InfiniteChunks.cs:57-71 | a dictionary whose keys are the old keys plus a window's coordinates has gained exactly the window coordinates the old keys lacked |
| GridMapGenerator.ClampedScale | Assets/Scripts/MapGen/MapGenerator.cs:25-26 | a scale ≤ 0 becomes 0.01 and a positive one is kept, so the sampling scale is positive |
| GridMapGenerator.NoiseSample | Assets/Scripts/MapGen/MapGenerator.cs:34-37 | noise cell [x, z] is the Perlin value at (x/scale, z/scale) |
| GridMapGenerator.SurfaceVertex | Assets/Scripts/MapGen/MapGenerator.cs:49-50 | the vertex of point (x, z) sits at its grid position, with height 2·P(x, z) sampled at the unscaled integer point |
| GridMapGenerator.QuadSlots | Assets/Scripts/MapGen/MapGenerator.cs:63-68 | six indices for the quad with counter vert; the two triangles share the edge vert+1 to vert+w+1, and the corners vert < vert+1 < vert+w+1 < vert+w+2 are distinct exactly when w ≥ 1 |
| GridMapGenerator.FillNoiseMap | Assets/Scripts/MapGen/MapGenerator.cs:28-40 | a w-by-h field with cell [x,z] = P(x/scale, z/scale) |
| GridMapGenerator.WriteNoiseSample | Assets/Scripts/MapGen/MapGenerator.cs:34-38 | cell [x,z] takes its sample; earlier cells are kept |
| GridMapGenerator.FillVertices | Assets/Scripts/MapGen/MapGenerator.cs:44-53 | an array of (w+1)(h+1) slots; point (x,z), for x < w and z < h, is at slot z·w+x with value (x, 2·P(x,z), z); the last w+h+1 slots keep the zero vector |
| GridMapGenerator.CoversGrid | Assets/Scripts/MapGen/MapGenerator.cs:44-47 | proof step: the w·h points written fit in the (w+1)(h+1) slots |
| GridMapGenerator.WriteVertex | Assets/Scripts/MapGen/MapGenerator.cs:49-51 | slot i takes the point's vertex; earlier points are kept and later slots stay zero |
| GridMapGenerator.FillTriangles | Assets/Scripts/MapGen/MapGenerator.cs:56-73 | an array of w·h·6 slots; the six slots from 6q hold (q, q+w+1, q+1, q+1, q+w+1, q+w+2) for every quad counter q < w·h; every slot is written |
| GridMapGenerator.WriteQuadSlots | Assets/Scripts/MapGen/MapGenerator.cs:63-68 | the six slots of quad vert take its pattern; earlier quads are kept |
| GridMapGenerator.TriangleIndicesInRange | Assets/Scripts/MapGen/MapGenerator.cs:44-73 | for w, h ≥ 1 every triangle index is below (w+1)(h+1), the vertex array's length |
| GridMapGenerator.AsWrittenLastCornerUnwritten | Assets/Scripts/MapGen/MapGenerator.cs:44-73 | the last triangle's last corner is a slot at or beyond w·h, which the vertex loop never writes |
| GridMapGenerator.AsWrittenCornerMisplaced | Assets/Scripts/MapGen/MapGenerator.cs:50-64 | the first quad's second corner, slot w+1, is not the slot of point (0,1); for w ≥ 2 it holds point (1,1) |
| GridMapGenerator.AsWrittenQuadWraps | Assets/Scripts/MapGen/MapGenerator.cs:63-70 | for h ≥ 2, quad counter w joins the last point of row 0 to the first point of row 1 of the (w+1)-wide grid |
| GridMapGenerator.FillGridVertices | Assets/Scripts/MapGen/MapGenerator.cs:44-53 | corrected: every point (x,z) with x ≤ w and z ≤ h is at slot z·(w+1)+x, filling all (w+1)(h+1) slots |
| GridMapGenerator.FillGridTriangles | Assets/Scripts/MapGen/MapGenerator.cs:56-73 | corrected: the counter skips one point per row, so the six slots of quad (x,z) hold the pattern of z·(w+1)+x |
| GridMapGenerator.WriteGridQuadSlots | Assets/Scripts/MapGen/MapGenerator.cs:63-68 | corrected: quad (x,z) is written; earlier quads are kept |
| GridMapGenerator.GridQuadCorners | Assets/Scripts/MapGen/MapGenerator.cs:63-68 | corrected: each quad's six indices are its own four grid points, all inside the vertex array |
| GridMapGenerator.FillColorMap | Assets/Scripts/MapGen/MapGenerator.cs:99-106 | w·h colours; slot y·w+x holds Lerp(black, white, noise[x,y]) |
| GridMapGenerator.MapGenerator.constructor | Assets/Scripts/MapGen/MapGenerator.cs:15-20 | the defaults: the first map type, 30 by 30, scale 0.3, auto-update on |
| GridMapGenerator.MapGenerator.ClampScale | Assets/Scripts/MapGen/MapGenerator.cs:25-26 | the scale field becomes ClampedScale of its old value; nothing else changes |
| GridMapGenerator.MapGenerator.GenerateMap3DPerlinBlackWhite | Assets/Scripts/MapGen/MapGenerator.cs:23-115 | the scale is clamped; None exactly for a negative width or height; otherwise the noise map, the vertex and triangle arrays and the colour map as stated by the fills above |
| GridMapGenerator.MapGenerator.GenerateMap2DperlinBlackWhite | Assets/Scripts/MapGen/MapGenerator.cs:118-154 | the scale is clamped; None exactly for a negative width or height; otherwise the noise map and its w·h grey colour map |
| MapGenerator.Validated | Assets/Scripts/MapGenerator.cs:82-96 | a width or height below 1 becomes 1, and a scale below 0.5 becomes 0.5; the result is in range, and settings already in range are unchanged, so validation is idempotent |
| MapGenerator.ShowsTexture | Assets/Scripts/MapGenerator.cs:53-79 | the texture renderer is used exactly in the NoiseMap and ColorMap modes |
| MapGenerator.GameObject.SetActive | Assets/Scripts/MapGenerator.cs:57 | the active flag becomes the argument |
| MapGenerator.MapGenerator.constructor | Assets/Scripts/MapGenerator.cs:13-29 | the fields without initialisers take Unity's zero defaults: NoiseMap, 0 by 0, scale 0, auto-update off; the regions are the inspector's array |
| MapGenerator.MapGenerator.OnValidate | Assets/Scripts/MapGenerator.cs:82-96 | the fields become Validated of their old values; nothing else changes |
| MapGenerator.MapGenerator.ColourCells | Assets/Scripts/MapGenerator.cs:35-50 | mapWidth·mapHeight colours; slot mapWidth·y+x holds the colour of the first region with height ≥ noise[x,y], or the default when none does |
| MapGenerator.MapGenerator.ShowRenderers | Assets/Scripts/MapGenerator.cs:53-79 | the mesh renderer ends active exactly in Mesh mode, and a separate texture renderer ends active exactly in the other modes, so exactly one is active |
| MapGenerator.MapGenerator.GenerateMap | Assets/Scripts/MapGenerator.cs:31-80 | None, with both renderers untouched, exactly when mapWidth·mapHeight < 0; otherwise the colouring, the renderer switch, and the mode's buffers handed to the display |
| AnimatorManager.Snap | Assets/Scripts/Animator/AnimatorManager.cs:33-42 | 0 < v < 0.55 gives 0.5, v > 0.55 gives 1, -0.55 < v < 0 gives -0.5, v < -0.55 gives -1, and exactly 0 and ±0.55 give 0; each an if-and-only-if, and the result is always one of the five levels |
| AnimatorManager.SnapOdd | Assets/Scripts/Animator/AnimatorManager.cs:33-42 | the rule is odd-symmetric: snap(-v) = -snap(v) |
| AnimatorManager.SnapNotMonotone | Assets/Scripts/Animator/AnimatorManager.cs:33-36 | 0.54 snaps to 0.5 but 0.55 snaps to 0 |
| AnimatorManager.UpdateAnimatorValues | Assets/Scripts/Animator/AnimatorManager.cs:26-69 | Walking gives (raw horizontal, 0.5) and Sprinting gives (raw horizontal, 2); every other state gives both axes snapped by the same rule |
| UnityMath.InverseLerp | Assets/Scripts/MapGen/NoiseGenerator.cs:107 | Mathf.InverseLerp, clamped to [0,1]: 0 at or below a and 1 at or above b, linear in between, 0 for a = b |
| UnityMath.ColorLerp | Assets/Scripts/MapGen/TextureHelper.cs:70 | Color.Lerp with the parameter clamped: a at or below 0, b at or above 1 |
| UnityMath.TruncDiv | Assets/Scripts/MapGen/InfiniteChunks.cs:24 | C# integer division: the quotient truncates toward zero |
| GridIndex.RowMajorBijective | Assets/Scripts/MapGen/TextureHelper.cs:43-50 | y·size+x is a bijection from the grid onto [0, width·height) |

## Left out

- Unity object plumbing has no semantics visible in the source and is not modelled. This covers:
  - MeshData.ToMesh and TextureHelper.ColorMapToTexture;
  - Texture2D creation, SetPixels and Apply;
  - GetComponent, GameObject creation, naming, parenting, layer, transform position and localScale;
  - mesh.Recalculate*;
  - the material texture setter;
  - MapDisplay's DrawTexture and DrawMesh;
  - Animator.SetFloat and its damping.
- Mathf.PerlinNoise, AnimationCurve.Evaluate, Vector3.Normalize, Mathf.RoundToInt and the bounds distance are parameters with no assumed properties. OctaveSumBound alone assumes Perlin values in [0, 1].
- IEEE float rounding is not modelled: floats are `real`. float.MinValue/MaxValue appear only as the scans' start values.
- Integer overflow of the C# 32-bit arithmetic is not modelled: sizes, counters and products are unbounded.
- The copy of the height curve at MeshData.cs:110 is not modelled, because evaluation is a pure parameter.
- A negative lodLevel is not modelled: it is a `nat`. `(int)Mathf.Pow(2, lodLevel)` would give 0 there and divide by zero.
- TerrainMesh.GenerateTerrainMesh requires `noiseMap.GetLength(0) <= GetLength(1)`. The loops read cell [x, y] with both below GetLength(0), so the code assumes a square field; a narrower field throws an index exception, which is not modelled. TextureHelper's colour maps carry the same requirement for the same reason.
- TerrainMesh.TerrainUv at chunkSize = 1 is not modelled. The UV quotients divide by 0.0f there, giving NaN in C#. FloatQuotient returns 0 instead, and TerrainUvInUnitSquare is stated for chunkSize ≥ 2.
- For an empty noise map at LOD 0, the source allocates 6 zeroed triangle slots for a 0-vertex mesh. GenerateTerrainMesh states this as an ensures: the slots name no vertex. CalculateNormals requires valid indices, so this case is outside what it covers.
- The threaded generation queue, LOD choice by distance and stale-result discarding are not in these files.
- Noise.GenerateNoiseMap is not part of this model; the root MapGenerator.GenerateMap takes the noise map as a parameter. MapGenerator.MapGenerator.GenerateMap requires that map to be at least mapWidth by mapHeight, which that generator evidently returns.
- The root generator's octaves, persistance, lacunarity, seed and offset fields are not modelled, because they are only passed on to Noise.
- TextureGenerator, MeshGenerator and MapDisplay are not part of this model. The drawing is returned as a Drawing value, and MapDisplay is reduced to its two renderer objects.
- The root MapGenerator.cs declares its own TerrainType struct (lines 99-105) with lower-case fields `height` and `color`. TextureHelper.cs reads `Height` and `Color` (lines 48 and 50), so it compiles against another TerrainType declaration, which is not part of this model. The model uses one TerrainType for both and assumes the two declarations carry the same band data.
- PlayerManager.PlayerState is not part of this model. Only Walking and Sprinting are inspected, so every other member is `Other(id)`.
- ChunkStreaming.InfiniteChunks.constructor requires `generatorChunkSize - 1 != 0`. That division by zero in Start throws, and the exception is not modelled; MapGenerator.mapGenerator.chunkSize is a parameter.
- Chunk visibility is the `visible` field, standing for meshObject.activeSelf. A new GameObject starts active, so a new chunk is visible but is not added to the visible list in the update that creates it. The model follows this code.
- ChunkStreaming.Chunk.UpdateChunk compares the viewer position, which InfiniteChunks.cs:32 divides by chunkSize (chunk units), with bounds built at coord·size (world units, line 86). The model reproduces this mixture and states no corrected test. For any generator chunk size above 101, ViewRadius gives 0, so only the viewer's own chunk is scanned; the generator's size is not in these files.
- Dictionary keys are integer Coord values rather than Vector2. The source's keys always hold whole numbers, so equality agrees.
- GridMapGenerator.MapGenerator.GenerateMap3DPerlinBlackWhite does not model that Unity's Texture2D constructor may reject a zero width or height: a 0-wide map succeeds in the model.
- The mapType field and the MapTypeGen enum are kept, but nothing in these files reads mapType.
- GridMapGenerator.MapGenerator.GenerateMap3DPerlinBlackWhite keeps the vertex and triangle loops as written, since it models the source. The corrected builders of the Findings section stand beside it rather than replacing them.
- NoiseGenerator.ClampWidth models the duplicated width check as written: the height is never clamped. A negative height therefore makes the allocation throw, which is None in both generators.

## Findings

| source | as written | input that shows it | evidently intended | confidence | as-written member | corrected member |
|---|---|---|---|---|---|---|
| Assets/Scripts/MapGen/MapGenerator.cs:44-53 | The vertex loop runs z < mapHeight and x < mapWidth, so it writes w·h points with stride w into an array of (w+1)(h+1). The triangle pattern indexes a (w+1)-wide grid, so the last corners name slots the loop never writes. | w = h = 1: one vertex is written, at slot 0; the triangles use slots 0, 1, 2 and 3, and slots 1 to 3 keep the zero vector | z ≤ mapHeight and x ≤ mapWidth, so every point of the (w+1)-by-(h+1) grid is at slot z·(w+1)+x | high (not executed) | GridMapGenerator.FillVertices, GridMapGenerator.AsWrittenLastCornerUnwritten, GridMapGenerator.AsWrittenCornerMisplaced | GridMapGenerator.FillGridVertices, GridMapGenerator.GridQuadCorners |
| Assets/Scripts/MapGen/MapGenerator.cs:56-73 | `vert` steps once per quad with no extra step at a row end. In the (w+1)-wide grid the pattern assumes, the quad after each row's last one spans the grid's edge. | w = 1, h = 2: the second quad has corners 1, 3, 2, 2, 3, 4; corners 1 and 2 are the end of row 0 and the start of row 1 | one extra `vert++` after each row, so quad (x,z) uses the grid points (x,z), (x+1,z), (x,z+1) and (x+1,z+1) | high (not executed) | GridMapGenerator.FillTriangles, GridMapGenerator.AsWrittenQuadWraps | GridMapGenerator.FillGridTriangles, GridMapGenerator.GridQuadCorners |
