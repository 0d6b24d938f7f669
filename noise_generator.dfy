/** NoiseGenerator: the height fields behind every terrain chunk. A field is
    a float[,] indexed [x, y] with x below the map width; Mathf.PerlinNoise is
    the parameter `perlin`. Both generators clamp their parameters, fill the
    field cell by cell, then rescale it to [0, 1] through a min/max scan and
    Mathf.InverseLerp. */
module NoiseGenerator {
  import opened UnityMath

  /** A field as a sequence of columns: g[x][y] is cell [x, y]. */
  type Grid = seq<seq<real>>

  /** The cells of a float[,] as a Grid. */
  ghost function Cells(m: array2<real>): (g: Grid)
    reads m
    ensures |g| == m.Length0 && forall x :: 0 <= x < |g| ==> |g[x]| == m.Length1
    ensures forall x, y :: 0 <= x < m.Length0 && 0 <= y < m.Length1 ==> g[x][y] == m[x, y]
  {
    seq(m.Length0, x requires 0 <= x < m.Length0 reads m =>
      seq(m.Length1, y requires 0 <= y < m.Length1 reads m => m[x, y]))
  }

  /** Every cell is a finite float. */
  predicate InFloatRange(g: Grid) {
    forall x, y :: 0 <= x < |g| && 0 <= y < |g[x]| ==> -FloatMaxValue <= g[x][y] <= FloatMaxValue
  }

  /** What a scan for the minimum that starts from float.MaxValue leaves
      behind: a lower bound of every cell that is either float.MaxValue
      itself or the value of some cell. */
  predicate IsScanMin(lo: real, g: Grid) {
    lo <= FloatMaxValue &&
    (forall x, y :: 0 <= x < |g| && 0 <= y < |g[x]| ==> lo <= g[x][y]) &&
    (lo == FloatMaxValue || exists x, y :: 0 <= x < |g| && 0 <= y < |g[x]| && g[x][y] == lo)
  }

  /** The scan for the maximum, started from float.MinValue. */
  predicate IsScanMax(hi: real, g: Grid) {
    -FloatMaxValue <= hi &&
    (forall x, y :: 0 <= x < |g| && 0 <= y < |g[x]| ==> g[x][y] <= hi) &&
    (hi == -FloatMaxValue || exists x, y :: 0 <= x < |g| && 0 <= y < |g[x]| && g[x][y] == hi)
  }

  /** On a non-empty field of finite floats both scans end on a cell, so the
      bounds are the field's minimum and maximum. */
  lemma ScanBoundsAttained(lo: real, hi: real, g: Grid, x: int, y: int)
    requires IsScanMin(lo, g) && IsScanMax(hi, g) && InFloatRange(g)
    requires 0 <= x < |g| && 0 <= y < |g[x]|
    ensures lo <= g[x][y] <= hi
    ensures exists x', y' :: 0 <= x' < |g| && 0 <= y' < |g[x']| && g[x'][y'] == lo
    ensures exists x', y' :: 0 <= x' < |g| && 0 <= y' < |g[x']| && g[x'][y'] == hi
  {
    if lo == FloatMaxValue {
      assert g[x][y] == lo;
    }
    if hi == -FloatMaxValue {
      assert g[x][y] == hi;
    }
  }

  /** The scans determine their results: on a non-empty field of finite
      floats there is exactly one value each scan can end with. */
  lemma ScanBoundsUnique(lo: real, lo': real, hi: real, hi': real, g: Grid, x: int, y: int)
    requires IsScanMin(lo, g) && IsScanMin(lo', g) && IsScanMax(hi, g) && IsScanMax(hi', g) && InFloatRange(g)
    requires 0 <= x < |g| && 0 <= y < |g[x]|
    ensures lo == lo' && hi == hi'
  {
    ScanBoundsAttained(lo, hi, g, x, y);
    ScanBoundsAttained(lo', hi', g, x, y);
    var a, b :| 0 <= a < |g| && 0 <= b < |g[a]| && g[a][b] == lo;
    var a', b' :| 0 <= a' < |g| && 0 <= b' < |g[a']| && g[a'][b'] == lo';
    assert lo <= g[a'][b'] && lo' <= g[a][b];
    var c, d :| 0 <= c < |g| && 0 <= d < |g[c]| && g[c][d] == hi;
    var c', d' :| 0 <= c' < |g| && 0 <= d' < |g[c']| && g[c'][d'] == hi';
    assert g[c'][d'] <= hi && g[c][d] <= hi';
  }

  /** What rescaling by the scanned bounds promises: every result lies in
      [0, 1]; a minimal cell maps to 0 and, unless the field is constant, a
      maximal cell maps to 1; the order between cells is kept, strictly where
      it is strict. */
  lemma NormalisedCells(lo: real, hi: real, g: Grid, x: int, y: int, x': int, y': int)
    requires IsScanMin(lo, g) && IsScanMax(hi, g)
    requires 0 <= x < |g| && 0 <= y < |g[x]| && 0 <= x' < |g| && 0 <= y' < |g[x']|
    ensures 0.0 <= InverseLerp(lo, hi, g[x][y]) <= 1.0
    ensures g[x][y] == lo ==> InverseLerp(lo, hi, g[x][y]) == 0.0
    ensures g[x][y] == hi && lo < hi ==> InverseLerp(lo, hi, g[x][y]) == 1.0
    ensures lo == hi ==> InverseLerp(lo, hi, g[x][y]) == 0.0
    ensures g[x][y] <= g[x'][y'] ==> InverseLerp(lo, hi, g[x][y]) <= InverseLerp(lo, hi, g[x'][y'])
    ensures g[x][y] < g[x'][y'] ==> InverseLerp(lo, hi, g[x][y]) < InverseLerp(lo, hi, g[x'][y'])
  {
    var v, w := g[x][y], g[x'][y'];
    assert lo <= v <= hi && lo <= w <= hi;
    if lo < hi && v <= w {
      InverseLerpMonotone(lo, hi, v, w);
      if v < w {
        InverseLerpStrict(lo, hi, v, w);
      }
    }
  }

  /** The simple generator's scale clamp: below 0.3 becomes 0.3. */
  function SimpleScale(scale: real): (s: real)
    ensures s >= 0.3
    ensures scale >= 0.3 ==> s == scale
    ensures scale < 0.3 ==> s == 0.3
  {
    if scale < 0.3 then 0.3 else scale
  }

  /** The octave generator's clamp: 0.3 or less becomes 0.3. */
  function OctaveScale(scale: real): (s: real)
    ensures s >= 0.3
    ensures scale > 0.3 ==> s == scale
    ensures scale <= 0.3 ==> s == 0.3
  {
    if scale <= 0.3 then 0.3 else scale
  }

  /** The two clamps differ only at 0.3 itself, which both leave at 0.3. */
  lemma ScaleClampsAgree(scale: real)
    ensures SimpleScale(scale) == OctaveScale(scale)
  {}

  /** The width clamp of both generators. The check is written twice on the
      width, so the second one never fires and the height is not clamped. */
  function ClampWidth(mapWidth: int): (w: int)
    ensures w >= 1
    ensures mapWidth >= 1 ==> w == mapWidth
    ensures mapWidth <= 0 ==> w == 1
  {
    var w := if mapWidth <= 0 then 1 else mapWidth;
    if w <= 0 then 1 else w
  }

  /** Coordinate c, shifted by the offset, in noise space. */
  function SampleCoord(c: int, offset: real, scale: real): real
    requires scale != 0.0
  {
    (c as real + offset) / scale
  }

  /** The simple generator's raw value at cell [x, y]. */
  function SimpleCell(perlin: (real, real) -> real, scale: real, offset: Vector2, x: int, y: int): real
    requires scale != 0.0
  {
    perlin(SampleCoord(x, offset.x, scale), SampleCoord(y, offset.y, scale))
  }

  /** The simple generator's raw w-by-h field. */
  function SimpleField(perlin: (real, real) -> real, scale: real, offset: Vector2, w: nat, h: nat): (g: Grid)
    requires scale != 0.0
    ensures |g| == w && forall x :: 0 <= x < w ==> |g[x]| == h
    ensures forall x, y :: 0 <= x < w && 0 <= y < h ==> g[x][y] == SimpleCell(perlin, scale, offset, x, y)
  {
    seq(w, x => seq(h, y => SimpleCell(perlin, scale, offset, x, y)))
  }

  function Power(b: real, i: nat): real {
    if i == 0 then 1.0 else Power(b, i - 1) * b
  }

  /** A noise-space coordinate at a frequency. */
  function Scaled(sample: real, frequency: real): real {
    sample * frequency
  }

  /** One octave: the Perlin sample at the given point, moved from [0, 1]
      to [-1, 1] and weighted by the amplitude. */
  function OctaveTerm(perlin: (real, real) -> real, sampleX: real, sampleY: real, amplitude: real): real {
    (perlin(sampleX, sampleY) * 2.0 - 1.0) * amplitude
  }

  /** The sum of the first k octaves, octave i at amplitude persistance^i
      and frequency lacunarity^i. */
  function OctaveSum(perlin: (real, real) -> real, sampleX: real, sampleY: real, persistance: real, lacunarity: real, k: nat): real {
    if k == 0 then 0.0
    else
      OctaveSum(perlin, sampleX, sampleY, persistance, lacunarity, k - 1) +
      OctaveTerm(perlin, Scaled(sampleX, Power(lacunarity, k - 1)), Scaled(sampleY, Power(lacunarity, k - 1)), Power(persistance, k - 1))
  }

  /** The octave generator's raw value at cell [x, y]; a negative octave
      count runs no octave. */
  function OctaveCell(perlin: (real, real) -> real, scale: real, octaves: int, persistance: real, lacunarity: real,
                      offset: Vector2, x: int, y: int): real
    requires scale != 0.0
  {
    OctaveSum(perlin, SampleCoord(x, offset.x, scale), SampleCoord(y, offset.y, scale), persistance, lacunarity,
              if octaves < 0 then 0 else octaves)
  }

  /** The octave generator's raw w-by-h field. */
  function OctaveField(perlin: (real, real) -> real, scale: real, octaves: int, persistance: real, lacunarity: real,
                       offset: Vector2, w: nat, h: nat): (g: Grid)
    requires scale != 0.0
    ensures |g| == w && forall x :: 0 <= x < w ==> |g[x]| == h
    ensures forall x, y :: 0 <= x < w && 0 <= y < h ==>
              g[x][y] == OctaveCell(perlin, scale, octaves, persistance, lacunarity, offset, x, y)
  {
    seq(w, x => seq(h, y => OctaveCell(perlin, scale, octaves, persistance, lacunarity, offset, x, y)))
  }

  /** With no octaves every raw cell is 0; with one, it is the simple
      sample moved from [0, 1] to [-1, 1]. */
  lemma FewOctaves(perlin: (real, real) -> real, scale: real, octaves: int, persistance: real, lacunarity: real,
                   offset: Vector2, x: int, y: int)
    requires scale != 0.0
    ensures octaves <= 0 ==> OctaveCell(perlin, scale, octaves, persistance, lacunarity, offset, x, y) == 0.0
    ensures octaves == 1 ==>
              OctaveCell(perlin, scale, octaves, persistance, lacunarity, offset, x, y) == SimpleCell(perlin, scale, offset, x, y) * 2.0 - 1.0
  {
    if octaves == 1 {
      var sx, sy := SampleCoord(x, offset.x, scale), SampleCoord(y, offset.y, scale);
      assert Power(lacunarity, 0) == 1.0 && Power(persistance, 0) == 1.0;
      assert OctaveSum(perlin, sx, sy, persistance, lacunarity, 1) == OctaveTerm(perlin, Scaled(sx, 1.0), Scaled(sy, 1.0), 1.0);
    }
  }

  /** 1 + p + ... + p^(k-1). */
  function GeometricSum(p: real, k: nat): real {
    if k == 0 then 0.0 else GeometricSum(p, k - 1) + Power(p, k - 1)
  }

  lemma {:induction false} PowerNonNegative(b: real, i: nat)
    requires b >= 0.0
    ensures Power(b, i) >= 0.0
  {
    if i > 0 {
      PowerNonNegative(b, i - 1);
    }
  }

  lemma WeightedUnitBound(t: real, a: real)
    requires -1.0 <= t <= 1.0 && a >= 0.0
    ensures -a <= t * a <= a
  {
    assert (1.0 - t) * a >= 0.0;
    assert (1.0 + t) * a >= 0.0;
  }

  /** With a Perlin function in [0, 1] and a non-negative persistance, the
      sum of k octaves lies within the sum of their amplitudes. */
  lemma {:induction false} OctaveSumBound(perlin: (real, real) -> real, sampleX: real, sampleY: real, persistance: real, lacunarity: real, k: nat)
    requires persistance >= 0.0
    requires forall a, b :: 0.0 <= perlin(a, b) <= 1.0
    ensures -GeometricSum(persistance, k) <= OctaveSum(perlin, sampleX, sampleY, persistance, lacunarity, k) <= GeometricSum(persistance, k)
  {
    if k > 0 {
      OctaveSumBound(perlin, sampleX, sampleY, persistance, lacunarity, k - 1);
      var f := Power(lacunarity, k - 1);
      var t := perlin(sampleX * f, sampleY * f) * 2.0 - 1.0;
      PowerNonNegative(persistance, k - 1);
      WeightedUnitBound(t, Power(persistance, k - 1));
    }
  }

  /** The octave loop for one cell (lines 64-83): amplitude and frequency
      start at 1 and are multiplied by persistance and lacunarity after
      each octave. */
  method OctaveHeight(perlin: (real, real) -> real, x: int, y: int, scale: real, octaves: int,
                      persistance: real, lacunarity: real, offset: Vector2) returns (octaveHeight: real)
    requires scale != 0.0
    ensures octaveHeight == OctaveCell(perlin, scale, octaves, persistance, lacunarity, offset, x, y)
  {
    var amplitude := 1.0;
    var frequency := 1.0;
    octaveHeight := 0.0;
    ghost var sx, sy := SampleCoord(x, offset.x, scale), SampleCoord(y, offset.y, scale);
    var i := 0;
    while i < octaves
      invariant 0 <= i <= if octaves < 0 then 0 else octaves
      invariant amplitude == Power(persistance, i) && frequency == Power(lacunarity, i)
      invariant octaveHeight == OctaveSum(perlin, sx, sy, persistance, lacunarity, i)
    {
      var sampleX := (x as real + offset.x) / scale * frequency;
      var sampleY := (y as real + offset.y) / scale * frequency;
      var perlinVal := perlin(sampleX, sampleY) * 2.0 - 1.0;
      assert sampleX == Scaled(sx, frequency) && sampleY == Scaled(sy, frequency);
      octaveHeight := octaveHeight + perlinVal * amplitude;
      amplitude := amplitude * persistance;
      frequency := frequency * lacunarity;
      i := i + 1;
    }
  }

  /** The min/max scan of the octave generator (lines 91-102): y outer over
      the height, x inner over the width. */
  method OctaveExtremes(noiseMap: array2<real>) returns (minNoiseHeight: real, maxNoiseHeight: real)
    ensures IsScanMin(minNoiseHeight, Cells(noiseMap)) && IsScanMax(maxNoiseHeight, Cells(noiseMap))
  {
    maxNoiseHeight := -FloatMaxValue;
    minNoiseHeight := FloatMaxValue;
    var y := 0;
    while y < noiseMap.Length1
      invariant 0 <= y <= noiseMap.Length1
      invariant -FloatMaxValue <= maxNoiseHeight && minNoiseHeight <= FloatMaxValue
      invariant forall a, b :: 0 <= a < noiseMap.Length0 && 0 <= b < y ==>
                  minNoiseHeight <= noiseMap[a, b] <= maxNoiseHeight
      invariant maxNoiseHeight == -FloatMaxValue ||
                exists a, b :: 0 <= a < noiseMap.Length0 && 0 <= b < y && noiseMap[a, b] == maxNoiseHeight
      invariant minNoiseHeight == FloatMaxValue ||
                exists a, b :: 0 <= a < noiseMap.Length0 && 0 <= b < y && noiseMap[a, b] == minNoiseHeight
    {
      var x := 0;
      while x < noiseMap.Length0
        invariant 0 <= x <= noiseMap.Length0
        invariant -FloatMaxValue <= maxNoiseHeight && minNoiseHeight <= FloatMaxValue
        invariant forall a, b :: 0 <= a < noiseMap.Length0 && 0 <= b <= y && (b < y || a < x) ==>
                    minNoiseHeight <= noiseMap[a, b] <= maxNoiseHeight
        invariant maxNoiseHeight == -FloatMaxValue ||
                  exists a, b :: 0 <= a < noiseMap.Length0 && 0 <= b <= y && (b < y || a < x) && noiseMap[a, b] == maxNoiseHeight
        invariant minNoiseHeight == FloatMaxValue ||
                  exists a, b :: 0 <= a < noiseMap.Length0 && 0 <= b <= y && (b < y || a < x) && noiseMap[a, b] == minNoiseHeight
      {
        if noiseMap[x, y] > maxNoiseHeight {
          maxNoiseHeight := noiseMap[x, y];
        }
        if noiseMap[x, y] < minNoiseHeight {
          minNoiseHeight := noiseMap[x, y];
        }
        x := x + 1;
      }
      y := y + 1;
    }
    ScanOnCells(noiseMap, minNoiseHeight, maxNoiseHeight);
  }

  /** Restates scan bounds over the array as bounds over its Cells. */
  lemma ScanOnCells(m: array2<real>, lo: real, hi: real)
    requires -FloatMaxValue <= hi && lo <= FloatMaxValue
    requires forall a, b :: 0 <= a < m.Length0 && 0 <= b < m.Length1 ==> lo <= m[a, b] <= hi
    requires hi == -FloatMaxValue || exists a, b :: 0 <= a < m.Length0 && 0 <= b < m.Length1 && m[a, b] == hi
    requires lo == FloatMaxValue || exists a, b :: 0 <= a < m.Length0 && 0 <= b < m.Length1 && m[a, b] == lo
    ensures IsScanMin(lo, Cells(m)) && IsScanMax(hi, Cells(m))
  {
    var g := Cells(m);
    if hi != -FloatMaxValue {
      var a, b :| 0 <= a < m.Length0 && 0 <= b < m.Length1 && m[a, b] == hi;
      assert g[a][b] == hi;
    }
    if lo != FloatMaxValue {
      var a, b :| 0 <= a < m.Length0 && 0 <= b < m.Length1 && m[a, b] == lo;
      assert g[a][b] == lo;
    }
  }

  /** The rescaling pass of the octave generator (lines 103-109), in place. */
  method NormalizeInPlace(noiseMap: array2<real>, minNoiseHeight: real, maxNoiseHeight: real)
    modifies noiseMap
    ensures forall a, b :: 0 <= a < noiseMap.Length0 && 0 <= b < noiseMap.Length1 ==>
              noiseMap[a, b] == InverseLerp(minNoiseHeight, maxNoiseHeight, old(noiseMap[a, b]))
  {
    var y := 0;
    while y < noiseMap.Length1
      invariant 0 <= y <= noiseMap.Length1
      invariant forall a, b :: 0 <= a < noiseMap.Length0 && 0 <= b < noiseMap.Length1 ==>
                  noiseMap[a, b] == if b < y then InverseLerp(minNoiseHeight, maxNoiseHeight, old(noiseMap[a, b])) else old(noiseMap[a, b])
    {
      var x := 0;
      while x < noiseMap.Length0
        invariant 0 <= x <= noiseMap.Length0
        invariant forall a, b :: 0 <= a < noiseMap.Length0 && 0 <= b < noiseMap.Length1 ==>
                    noiseMap[a, b] == if b < y || (b == y && a < x) then InverseLerp(minNoiseHeight, maxNoiseHeight, old(noiseMap[a, b])) else old(noiseMap[a, b])
      {
        noiseMap[x, y] := InverseLerp(minNoiseHeight, maxNoiseHeight, noiseMap[x, y]);
        x := x + 1;
      }
      y := y + 1;
    }
  }

  /** The min/max scan of NormalizeFloatMap (lines 117-129): the outer loop
      runs over the first dimension and the minimum is tested first. */
  method FloatMapExtremes(floatMap: array2<real>) returns (minValue: real, maxValue: real)
    ensures IsScanMin(minValue, Cells(floatMap)) && IsScanMax(maxValue, Cells(floatMap))
  {
    minValue := FloatMaxValue;
    maxValue := -FloatMaxValue;
    var y := 0;
    while y < floatMap.Length0
      invariant 0 <= y <= floatMap.Length0
      invariant -FloatMaxValue <= maxValue && minValue <= FloatMaxValue
      invariant forall a, b :: 0 <= a < y && 0 <= b < floatMap.Length1 ==> minValue <= floatMap[a, b] <= maxValue
      invariant maxValue == -FloatMaxValue || exists a, b :: 0 <= a < y && 0 <= b < floatMap.Length1 && floatMap[a, b] == maxValue
      invariant minValue == FloatMaxValue || exists a, b :: 0 <= a < y && 0 <= b < floatMap.Length1 && floatMap[a, b] == minValue
    {
      var x := 0;
      while x < floatMap.Length1
        invariant 0 <= x <= floatMap.Length1
        invariant -FloatMaxValue <= maxValue && minValue <= FloatMaxValue
        invariant forall a, b :: 0 <= a <= y && 0 <= b < floatMap.Length1 && (a < y || b < x) ==> minValue <= floatMap[a, b] <= maxValue
        invariant maxValue == -FloatMaxValue ||
                  exists a, b :: 0 <= a <= y && 0 <= b < floatMap.Length1 && (a < y || b < x) && floatMap[a, b] == maxValue
        invariant minValue == FloatMaxValue ||
                  exists a, b :: 0 <= a <= y && 0 <= b < floatMap.Length1 && (a < y || b < x) && floatMap[a, b] == minValue
      {
        var value := floatMap[y, x];
        if value < minValue {
          minValue := value;
        }
        if value > maxValue {
          maxValue := value;
        }
        x := x + 1;
      }
      y := y + 1;
    }
    ScanOnCells(floatMap, minValue, maxValue);
  }

  /** NormalizeFloatMap: a fresh array of the same dimensions holding each
      cell rescaled by the scanned bounds; the input is not modified. */
  method NormalizeFloatMap(floatMap: array2<real>) returns (normalizedMap: array2<real>, ghost lo: real, ghost hi: real)
    ensures fresh(normalizedMap)
    ensures normalizedMap.Length0 == floatMap.Length0 && normalizedMap.Length1 == floatMap.Length1
    ensures IsScanMin(lo, Cells(floatMap)) && IsScanMax(hi, Cells(floatMap))
    ensures forall a, b :: 0 <= a < floatMap.Length0 && 0 <= b < floatMap.Length1 ==>
              normalizedMap[a, b] == InverseLerp(lo, hi, floatMap[a, b])
  {
    var minValue, maxValue := FloatMapExtremes(floatMap);
    lo, hi := minValue, maxValue;
    normalizedMap := new real[floatMap.Length0, floatMap.Length1];
    var y := 0;
    while y < floatMap.Length0
      invariant 0 <= y <= floatMap.Length0
      invariant forall a, b :: 0 <= a < y && 0 <= b < floatMap.Length1 ==>
                  normalizedMap[a, b] == InverseLerp(minValue, maxValue, floatMap[a, b])
    {
      var x := 0;
      while x < floatMap.Length1
        invariant 0 <= x <= floatMap.Length1
        invariant forall a, b :: 0 <= a <= y && 0 <= b < floatMap.Length1 && (a < y || b < x) ==>
                    normalizedMap[a, b] == InverseLerp(minValue, maxValue, floatMap[a, b])
      {
        normalizedMap[y, x] := InverseLerp(minValue, maxValue, floatMap[y, x]);
        x := x + 1;
      }
      y := y + 1;
    }
  }

  /** The simple GenerateNoiseMap (lines 8-43). A negative height makes the
      array allocation throw, modelled as None. Otherwise the field has the
      clamped width and the given height, and each cell is the Perlin
      sample at its scaled, offset coordinates, rescaled by the field's
      scanned bounds. */
  method GenerateNoiseMap(perlin: (real, real) -> real, mapWidth: int, mapHeight: int, scale: real, offset: Vector2)
    returns (r: Option<array2<real>>, ghost lo: real, ghost hi: real)
    ensures r.None? <==> mapHeight < 0
    ensures r.Some? ==> fresh(r.value) && r.value.Length0 == ClampWidth(mapWidth) && r.value.Length1 == mapHeight
    ensures r.Some? ==>
              var field := SimpleField(perlin, SimpleScale(scale), offset, ClampWidth(mapWidth), mapHeight);
              IsScanMin(lo, field) && IsScanMax(hi, field) &&
              forall x, y :: 0 <= x < r.value.Length0 && 0 <= y < r.value.Length1 ==>
                r.value[x, y] == InverseLerp(lo, hi, field[x][y])
  {
    var s := scale;
    if s < 0.3 {
      s := 0.3;
    }
    var w := mapWidth;
    if w <= 0 {
      w := 1;
    }
    if w <= 0 {
      w := 1;
    }
    if mapHeight < 0 {
      return None, 0.0, 0.0;
    }
    var noiseMap := new real[w, mapHeight];
    var y := 0;
    while y < mapHeight
      invariant 0 <= y <= mapHeight
      invariant forall a, b :: 0 <= a < w && 0 <= b < y ==> noiseMap[a, b] == SimpleCell(perlin, s, offset, a, b)
    {
      var x := 0;
      while x < w
        invariant 0 <= x <= w
        invariant forall a, b :: 0 <= a < w && 0 <= b <= y && (b < y || a < x) ==>
                    noiseMap[a, b] == SimpleCell(perlin, s, offset, a, b)
      {
        WriteSimpleCell(noiseMap, perlin, s, offset, x, y);
        x := x + 1;
      }
      y := y + 1;
    }
    ghost var field := SimpleField(perlin, s, offset, w, mapHeight);
    GridsEqual(Cells(noiseMap), field);
    var normalized;
    normalized, lo, hi := NormalizeFloatMap(noiseMap);
    r := Some(normalized);
  }

  /** The body of the simple generator's inner loop: cell [x, y] takes the
      Perlin sample at its scaled, offset coordinates. */
  method WriteSimpleCell(noiseMap: array2<real>, perlin: (real, real) -> real, s: real, offset: Vector2, x: int, y: int)
    requires s != 0.0 && 0 <= x < noiseMap.Length0 && 0 <= y < noiseMap.Length1
    requires forall a, b :: 0 <= a < noiseMap.Length0 && 0 <= b <= y && (b < y || a < x) ==>
               noiseMap[a, b] == SimpleCell(perlin, s, offset, a, b)
    modifies noiseMap
    ensures forall a, b :: 0 <= a < noiseMap.Length0 && 0 <= b <= y && (b < y || a <= x) ==>
              noiseMap[a, b] == SimpleCell(perlin, s, offset, a, b)
  {
    var sampleX := (x as real + offset.x) / s;
    var sampleY := (y as real + offset.y) / s;
    var perlinVal := perlin(sampleX, sampleY);
    noiseMap[x, y] := perlinVal;
  }

  /** The body of the octave generator's inner loop: cell [x, y] takes its
      octave sum. */
  method WriteOctaveCell(noiseMap: array2<real>, perlin: (real, real) -> real, s: real, octaves: int,
                         persistance: real, lacunarity: real, offset: Vector2, x: int, y: int)
    requires s != 0.0 && 0 <= x < noiseMap.Length0 && 0 <= y < noiseMap.Length1
    requires forall a, b :: 0 <= a < noiseMap.Length0 && 0 <= b <= y && (b < y || a < x) ==>
               noiseMap[a, b] == OctaveCell(perlin, s, octaves, persistance, lacunarity, offset, a, b)
    modifies noiseMap
    ensures forall a, b :: 0 <= a < noiseMap.Length0 && 0 <= b <= y && (b < y || a <= x) ==>
              noiseMap[a, b] == OctaveCell(perlin, s, octaves, persistance, lacunarity, offset, a, b)
  {
    var octaveHeight := OctaveHeight(perlin, x, y, s, octaves, persistance, lacunarity, offset);
    noiseMap[x, y] := octaveHeight;
  }

  /** Two grids of the same shape with the same cells are equal. */
  lemma GridsEqual(g: Grid, g': Grid)
    requires |g| == |g'| && forall x :: 0 <= x < |g| ==> |g[x]| == |g'[x]|
    requires forall x, y :: 0 <= x < |g| && 0 <= y < |g[x]| ==> g[x][y] == g'[x][y]
    ensures g == g'
  {
    forall x | 0 <= x < |g|
      ensures g[x] == g'[x]
    {
      assert forall y :: 0 <= y < |g[x]| ==> g[x][y] == g'[x][y];
    }
  }

  /** The octave GenerateNoiseMap (lines 46-113): as the simple generator,
      but each raw cell is the octave sum and the field is rescaled in place
      after its own min/max scan. */
  method GenerateOctaveNoiseMap(perlin: (real, real) -> real, mapWidth: int, mapHeight: int, scale: real, octaves: int,
                                persistance: real, lacunarity: real, offset: Vector2)
    returns (r: Option<array2<real>>, ghost lo: real, ghost hi: real)
    ensures r.None? <==> mapHeight < 0
    ensures r.Some? ==> fresh(r.value) && r.value.Length0 == ClampWidth(mapWidth) && r.value.Length1 == mapHeight
    ensures r.Some? ==>
              var field := OctaveField(perlin, OctaveScale(scale), octaves, persistance, lacunarity, offset, ClampWidth(mapWidth), mapHeight);
              IsScanMin(lo, field) && IsScanMax(hi, field) &&
              forall x, y :: 0 <= x < r.value.Length0 && 0 <= y < r.value.Length1 ==>
                r.value[x, y] == InverseLerp(lo, hi, field[x][y])
  {
    var s := scale;
    if s <= 0.3 {
      s := 0.3;
    }
    var w := mapWidth;
    if w <= 0 {
      w := 1;
    }
    if w <= 0 {
      w := 1;
    }
    if mapHeight < 0 {
      return None, 0.0, 0.0;
    }
    var noiseMap := new real[w, mapHeight];
    var y := 0;
    while y < mapHeight
      invariant 0 <= y <= mapHeight
      invariant forall a, b :: 0 <= a < w && 0 <= b < y ==>
                  noiseMap[a, b] == OctaveCell(perlin, s, octaves, persistance, lacunarity, offset, a, b)
    {
      var x := 0;
      while x < w
        invariant 0 <= x <= w
        invariant forall a, b :: 0 <= a < w && 0 <= b <= y && (b < y || a < x) ==>
                    noiseMap[a, b] == OctaveCell(perlin, s, octaves, persistance, lacunarity, offset, a, b)
      {
        WriteOctaveCell(noiseMap, perlin, s, octaves, persistance, lacunarity, offset, x, y);
        x := x + 1;
      }
      y := y + 1;
    }
    ghost var field := OctaveField(perlin, s, octaves, persistance, lacunarity, offset, w, mapHeight);
    GridsEqual(Cells(noiseMap), field);
    var minNoiseHeight, maxNoiseHeight := OctaveExtremes(noiseMap);
    lo, hi := minNoiseHeight, maxNoiseHeight;
    NormalizeInPlace(noiseMap, minNoiseHeight, maxNoiseHeight);
    r := Some(noiseMap);
  }
}
