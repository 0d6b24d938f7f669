/** TextureHelper: colour maps built from a square height field. The colour
    of cell [x, y] goes to slot y * chunkSize + x of a flat array of
    chunkSize * chunkSize colours, chunkSize being the field's first
    dimension. Creating the Texture2D from the array is not modelled. */
module TextureHelper {
  import opened UnityMath
  import opened GridIndex

  /** A terrain band: cells up to `height` take `color`. */
  datatype TerrainType = TerrainType(name: string, height: real, color: Color)

  /** The index of the first band whose height is at least h, if any. */
  function FirstBand(bands: seq<TerrainType>, h: real): (r: Option<nat>)
    ensures r.Some? ==> r.value < |bands| && h <= bands[r.value].height
    ensures r.Some? ==> forall j :: 0 <= j < r.value ==> h > bands[j].height
    ensures r.None? <==> forall j :: 0 <= j < |bands| ==> h > bands[j].height
  {
    if |bands| == 0 then None
    else if h <= bands[0].height then Some(0)
    else
      match FirstBand(bands[1..], h)
      case None => None
      case Some(i) => Some(i + 1)
  }

  /** The colour a classified cell ends with: that of its first band, or the
      array's default colour when no band reaches its height. */
  function CellColor(bands: seq<TerrainType>, h: real): Color {
    match FirstBand(bands, h)
    case Some(i) => bands[i].color
    case None => DefaultColor
  }

  /** Only the first qualifying band matters: appending bands never changes
      the colour of a cell some band already covers. */
  lemma {:induction false} LaterBandsIgnored(bands: seq<TerrainType>, more: seq<TerrainType>, h: real)
    requires FirstBand(bands, h).Some?
    ensures FirstBand(bands + more, h) == FirstBand(bands, h)
    ensures CellColor(bands + more, h) == CellColor(bands, h)
  {
    if h > bands[0].height {
      assert (bands + more)[1..] == bands[1..] + more;
      LaterBandsIgnored(bands[1..], more, h);
    }
  }

  /** Slot RowMajor(width, x, y) of the colour array exists and holds c. */
  ghost predicate Painted(colorMap: array<Color>, width: int, x: int, y: nat, c: Color)
    reads colorMap
  {
    0 <= RowMajor(width, x, y) < colorMap.Length && colorMap[RowMajor(width, x, y)] == c
  }

  /** Cell (x', y') comes before cell (x, y) in the y-outer, x-inner visit order. */
  predicate VisitedBefore(x': int, y': int, x: int, y: int) {
    y' < y || (y' == y && x' < x)
  }

  /** The band loop for one cell: write the colour of the first band whose
      height is at least currentHeight and stop; write nothing if there is
      none. */
  method PaintCell(colorMap: array<Color>, index: int, currentHeight: real, terrainTypes: array<TerrainType>)
    requires 0 <= index < colorMap.Length
    modifies colorMap
    ensures FirstBand(terrainTypes[..], currentHeight).Some? ==> colorMap[index] == CellColor(terrainTypes[..], currentHeight)
    ensures FirstBand(terrainTypes[..], currentHeight).None? ==> colorMap[index] == old(colorMap[index])
    ensures forall k :: 0 <= k < colorMap.Length && k != index ==> colorMap[k] == old(colorMap[k])
  {
    var i := 0;
    while i < terrainTypes.Length
      invariant 0 <= i <= terrainTypes.Length
      invariant forall j :: 0 <= j < i ==> currentHeight > terrainTypes[j].height
      invariant forall k :: 0 <= k < colorMap.Length ==> colorMap[k] == old(colorMap[k])
    {
      if currentHeight <= terrainTypes[i].height {
        colorMap[index] := terrainTypes[i].color;
        assert FirstBand(terrainTypes[..], currentHeight) == Some(i);
        break;
      }
      i := i + 1;
    }
  }

  /** PaintCell at cell (x, y) of a row-major colour array of the given
      width, visited in order: the slot still holds the default colour, and
      afterwards it holds the cell's colour with every earlier cell kept. */
  method PaintGridCell(colorMap: array<Color>, width: int, x: int, y: nat, index: int,
                       noiseMap: array2<real>, terrainTypes: array<TerrainType>)
    requires 0 <= x < width <= noiseMap.Length0 && y < noiseMap.Length1
    requires index == RowMajor(width, x, y) && 0 <= index < colorMap.Length
    requires forall x': nat, y': nat :: x' < width && VisitedBefore(x', y', x, y) ==>
               Painted(colorMap, width, x', y', CellColor(terrainTypes[..], noiseMap[x', y']))
    requires forall k :: index <= k < colorMap.Length ==> colorMap[k] == DefaultColor
    modifies colorMap
    ensures forall x': nat, y': nat :: x' < width && (VisitedBefore(x', y', x, y) || (x' == x && y' == y)) ==>
              Painted(colorMap, width, x', y', CellColor(terrainTypes[..], noiseMap[x', y']))
    ensures forall k :: index < k < colorMap.Length ==> colorMap[k] == DefaultColor
  {
    var currentHeight := noiseMap[x, y];
    PaintCell(colorMap, index, currentHeight, terrainTypes);
    forall x': nat, y': nat | x' < width && (VisitedBefore(x', y', x, y) || (x' == x && y' == y))
      ensures Painted(colorMap, width, x', y', CellColor(terrainTypes[..], noiseMap[x', y']))
    {
      if VisitedBefore(x', y', x, y) {
        assert old(Painted(colorMap, width, x', y', CellColor(terrainTypes[..], noiseMap[x', y'])));
        if y' < y {
          RowMajorBeforeRow(width, x', y', y);
        }
      }
    }
  }

  /** GetColorMapFromNoiseMap with terrain bands: every cell of the
      chunkSize-by-chunkSize field gets the colour of its first band, or
      keeps the default colour. The field must have at least as many
      columns as rows, since cell [x, y] is read for y below chunkSize. */
  method GetColorMapFromNoiseMap(noiseMap: array2<real>, terrainTypes: array<TerrainType>) returns (colorMap: array<Color>)
    requires noiseMap.Length0 <= noiseMap.Length1
    ensures fresh(colorMap) && colorMap.Length == Square(noiseMap.Length0)
    ensures forall x: nat, y: nat :: x < noiseMap.Length0 && y < noiseMap.Length0 ==>
              Painted(colorMap, noiseMap.Length0, x, y, CellColor(terrainTypes[..], noiseMap[x, y]))
  {
    var chunkSize := noiseMap.Length0;
    colorMap := new Color[Square(chunkSize)](_ => DefaultColor);
    var y := 0;
    while y < chunkSize
      invariant 0 <= y <= chunkSize
      invariant forall x': nat, y': nat :: x' < chunkSize && y' < y ==>
                  Painted(colorMap, chunkSize, x', y', CellColor(terrainTypes[..], noiseMap[x', y']))
      invariant forall k :: RowMajor(chunkSize, 0, y) <= k < colorMap.Length ==> colorMap[k] == DefaultColor
    {
      var x := 0;
      while x < chunkSize
        invariant 0 <= x <= chunkSize
        invariant forall x': nat, y': nat :: x' < chunkSize && VisitedBefore(x', y', x, y) ==>
                    Painted(colorMap, chunkSize, x', y', CellColor(terrainTypes[..], noiseMap[x', y']))
        invariant forall k :: RowMajor(chunkSize, x, y) <= k < colorMap.Length ==> colorMap[k] == DefaultColor
      {
        CellInRange(chunkSize, x, y);
        MulIsProduct(y, chunkSize);
        PaintGridCell(colorMap, chunkSize, x, y, y * chunkSize + x, noiseMap, terrainTypes);
        x := x + 1;
      }
      RowMajorNextRow(chunkSize, y);
      y := y + 1;
    }
  }

  /** The greyscale GetColorMapFromNoiseMap: every cell's slot holds the
      black-to-white ramp at the cell's value. */
  method GetGreyscaleColorMap(noiseMap: array2<real>) returns (colorMap: array<Color>)
    requires noiseMap.Length0 <= noiseMap.Length1
    ensures fresh(colorMap) && colorMap.Length == Square(noiseMap.Length0)
    ensures forall x: nat, y: nat :: x < noiseMap.Length0 && y < noiseMap.Length0 ==>
              Painted(colorMap, noiseMap.Length0, x, y, Greyscale(noiseMap[x, y]))
  {
    var chunkSize := noiseMap.Length0;
    colorMap := new Color[Square(chunkSize)](_ => DefaultColor);
    var y := 0;
    while y < chunkSize
      invariant 0 <= y <= chunkSize
      invariant forall x': nat, y': nat :: x' < chunkSize && y' < y ==>
                  Painted(colorMap, chunkSize, x', y', Greyscale(noiseMap[x', y']))
    {
      var x := 0;
      while x < chunkSize
        invariant 0 <= x <= chunkSize
        invariant forall x': nat, y': nat :: x' < chunkSize && VisitedBefore(x', y', x, y) ==>
                    Painted(colorMap, chunkSize, x', y', Greyscale(noiseMap[x', y']))
      {
        CellInRange(chunkSize, x, y);
        MulIsProduct(y, chunkSize);
        PaintGreyCell(colorMap, chunkSize, x, y, y * chunkSize + x, noiseMap);
        x := x + 1;
      }
      y := y + 1;
    }
  }

  /** One cell of the greyscale map, every earlier cell kept. */
  method PaintGreyCell(colorMap: array<Color>, width: int, x: int, y: nat, index: int, noiseMap: array2<real>)
    requires 0 <= x < width <= noiseMap.Length0 && y < noiseMap.Length1
    requires index == RowMajor(width, x, y) && 0 <= index < colorMap.Length
    requires forall x': nat, y': nat :: x' < width && VisitedBefore(x', y', x, y) ==>
               Painted(colorMap, width, x', y', Greyscale(noiseMap[x', y']))
    modifies colorMap
    ensures forall x': nat, y': nat :: x' < width && (VisitedBefore(x', y', x, y) || (x' == x && y' == y)) ==>
              Painted(colorMap, width, x', y', Greyscale(noiseMap[x', y']))
  {
    colorMap[index] := ColorLerp(Black, White, noiseMap[x, y]);
    forall x': nat, y': nat | x' < width && VisitedBefore(x', y', x, y)
      ensures Painted(colorMap, width, x', y', Greyscale(noiseMap[x', y']))
    {
      assert old(Painted(colorMap, width, x', y', Greyscale(noiseMap[x', y'])));
      if y' < y {
        RowMajorBeforeRow(width, x', y', y);
      }
    }
  }
}
