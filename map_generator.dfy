/** MapGenerator: the editor-driven generator of MapGenerator.cs. It colours
    a noise map by terrain bands and switches the preview between the
    texture renderer and the mesh renderer by draw mode. OnValidate keeps the
    inspector fields in range.

    Noise.GenerateNoiseMap, TextureGenerator, MeshGenerator and MapDisplay's
    drawing calls are not part of this model. The noise map is a
    parameter, and the drawing is returned as a value naming the buffers
    handed to the display. `FindObjectOfType<MapDisplay>()` is the `display`
    parameter, and each renderer is collapsed into its GameObject. */
module MapGenerator {
  import opened UnityMath
  import opened GridIndex
  import opened TextureHelper

  /** DrawMode: what the preview shows. */
  datatype DrawMode = NoiseMap | ColorMap | Mesh

  /** What GenerateMap hands to the display. In NoiseMap mode that is the
      height map as a texture. In ColorMap mode it is the colour map as a
      width-by-height texture. In Mesh mode it is a mesh of the noise map
      textured with the colour map. */
  datatype Drawing =
    | HeightTexture(heightMap: array2<real>)
    | ColourTexture(colours: array<Color>, width: int, height: int)
    | TexturedMesh(heightMap: array2<real>, colours: array<Color>, width: int, height: int)

  /** A scene object that can be switched on and off. */
  class GameObject {
    var activeSelf: bool

    constructor (active: bool)
      ensures activeSelf == active
    {
      activeSelf := active;
    }

    method SetActive(value: bool)
      modifies this
      ensures activeSelf == value
    {
      activeSelf := value;
    }
  }

  /** The display: the objects carrying its texture and mesh renderers. */
  class MapDisplay {
    const textureRenderer: GameObject
    const meshRenderer: GameObject

    constructor (textureRenderer: GameObject, meshRenderer: GameObject)
      ensures this.textureRenderer == textureRenderer && this.meshRenderer == meshRenderer
    {
      this.textureRenderer := textureRenderer;
      this.meshRenderer := meshRenderer;
    }
  }

  /** The inspector fields OnValidate corrects. */
  datatype Settings = Settings(mapWidth: int, mapHeight: int, noiseScale: real)

  /** Settings within the ranges OnValidate enforces. */
  predicate InRange(s: Settings) {
    s.mapWidth >= 1 && s.mapHeight >= 1 && s.noiseScale >= 0.5
  }

  /** OnValidate's corrections. A width or height below 1 becomes 1 and a
      scale below 0.5 becomes 0.5. Each field is either kept or raised to
      its floor, so settings already in range are left alone. */
  function Validated(s: Settings): (r: Settings)
    ensures InRange(r)
    ensures InRange(s) ==> r == s
    ensures r.mapWidth == (if s.mapWidth < 1 then 1 else s.mapWidth)
    ensures r.mapHeight == (if s.mapHeight < 1 then 1 else s.mapHeight)
    ensures r.noiseScale == (if s.noiseScale < 0.5 then 0.5 else s.noiseScale)
  {
    Settings(if s.mapWidth < 1 then 1 else s.mapWidth,
             if s.mapHeight < 1 then 1 else s.mapHeight,
             if s.noiseScale < 0.5 then 0.5 else s.noiseScale)
  }

  /** Whether the texture renderer (rather than the mesh renderer) shows the
      preview in a mode. */
  function ShowsTexture(mode: DrawMode): (r: bool)
    ensures r <==> mode == NoiseMap || mode == ColorMap
  {
    mode != Mesh
  }

  class MapGenerator {
    var drawMode: DrawMode
    var mapWidth: int
    var mapHeight: int
    var noiseScale: real
    var autoUpdate: bool
    var regions: array<TerrainType>

    /** Unity's zero defaults, with the inspector's terrain bands. */
    constructor (regions: array<TerrainType>)
      ensures drawMode == NoiseMap && mapWidth == 0 && mapHeight == 0 && noiseScale == 0.0 && !autoUpdate
      ensures this.regions == regions
    {
      drawMode := NoiseMap;
      mapWidth := 0;
      mapHeight := 0;
      noiseScale := 0.0;
      autoUpdate := false;
      this.regions := regions;
    }

    /** The inspector fields as Settings. */
    function CurrentSettings(): Settings
      reads this
    {
      Settings(mapWidth, mapHeight, noiseScale)
    }

    /** OnValidate: the fields become Validated of their old values, and
        nothing else changes. */
    method OnValidate()
      modifies this
      ensures CurrentSettings() == Validated(old(CurrentSettings()))
      ensures drawMode == old(drawMode) && autoUpdate == old(autoUpdate) && regions == old(regions)
    {
      if mapWidth < 1 {
        mapWidth := 1;
      }
      if mapHeight < 1 {
        mapHeight := 1;
      }
      if noiseScale < 0.5 {
        noiseScale := 0.5;
      }
    }

    /** The colouring loops of GenerateMap. Slot y * mapWidth + x of a
        mapWidth * mapHeight array takes the colour of the first band
        reaching noise cell [x, y]. A cell no band reaches keeps the
        array's default colour. The noise map must be at least
        mapWidth-by-mapHeight, which is what the noise generator returns. */
    method ColourCells(noiseMap: array2<real>) returns (colourMap: array<Color>)
      requires mapWidth <= noiseMap.Length0 && mapHeight <= noiseMap.Length1
      requires mapWidth * mapHeight >= 0
      ensures fresh(colourMap) && colourMap.Length == mapWidth * mapHeight
      ensures forall x: nat, y: nat :: x < mapWidth && y < mapHeight ==>
                Painted(colourMap, mapWidth, x, y, CellColor(regions[..], noiseMap[x, y]))
    {
      colourMap := new Color[mapWidth * mapHeight](_ => DefaultColor);
      var y := 0;
      while y < mapHeight
        invariant 0 <= y && (mapWidth >= 1 ==> y <= mapHeight)
        invariant forall x': nat, y': nat :: x' < mapWidth && y' < y ==>
                    Painted(colourMap, mapWidth, x', y', CellColor(regions[..], noiseMap[x', y']))
        invariant mapWidth >= 1 ==> forall k :: RowMajor(mapWidth, 0, y) <= k < colourMap.Length ==> colourMap[k] == DefaultColor
      {
        var x := 0;
        while x < mapWidth
          invariant 0 <= x && (mapWidth >= 1 ==> x <= mapWidth)
          invariant forall x': nat, y': nat :: x' < mapWidth && VisitedBefore(x', y', x, y) ==>
                      Painted(colourMap, mapWidth, x', y', CellColor(regions[..], noiseMap[x', y']))
          invariant mapWidth >= 1 ==> forall k :: RowMajor(mapWidth, x, y) <= k < colourMap.Length ==> colourMap[k] == DefaultColor
        {
          RowMajorInRange(mapWidth, mapHeight, x, y);
          MulIsProduct(y, mapWidth);
          PaintGridCell(colourMap, mapWidth, x, y, mapWidth * y + x, noiseMap, regions);
          x := x + 1;
        }
        if mapWidth >= 1 {
          RowMajorNextRow(mapWidth, y);
        }
        y := y + 1;
      }
    }

    /** The draw-mode switch of GenerateMap. Each renderer is switched, only
        when needed, to whether the mode uses it. If both renderers sit on
        one object, the mesh renderer's switch comes second and wins. */
    method ShowRenderers(display: MapDisplay)
      modifies display.textureRenderer, display.meshRenderer
      ensures display.meshRenderer.activeSelf == !ShowsTexture(drawMode)
      ensures display.textureRenderer != display.meshRenderer ==> display.textureRenderer.activeSelf == ShowsTexture(drawMode)
    {
      var textureObject, meshObject := display.textureRenderer, display.meshRenderer;
      match drawMode
      case NoiseMap =>
        if !textureObject.activeSelf {
          textureObject.SetActive(true);
        }
        if meshObject.activeSelf {
          meshObject.SetActive(false);
        }
      case ColorMap =>
        if !textureObject.activeSelf {
          textureObject.SetActive(true);
        }
        if meshObject.activeSelf {
          meshObject.SetActive(false);
        }
      case Mesh =>
        if textureObject.activeSelf {
          textureObject.SetActive(false);
        }
        if !meshObject.activeSelf {
          meshObject.SetActive(true);
        }
    }

    /** GenerateMap. A negative mapWidth * mapHeight makes the colour-map
        allocation throw before anything is shown; that is None, with both
        renderers untouched. Otherwise the colour map is the banded
        colouring of the noise map, the renderers are switched to the mode,
        and the drawing hands the mode's buffers to the display. */
    method GenerateMap(noiseMap: array2<real>, display: MapDisplay) returns (r: Option<Drawing>)
      requires mapWidth <= noiseMap.Length0 && mapHeight <= noiseMap.Length1
      modifies display.textureRenderer, display.meshRenderer
      ensures r.None? <==> mapWidth * mapHeight < 0
      ensures r.None? ==> display.textureRenderer.activeSelf == old(display.textureRenderer.activeSelf) &&
                          display.meshRenderer.activeSelf == old(display.meshRenderer.activeSelf)
      ensures r.Some? ==> display.meshRenderer.activeSelf == !ShowsTexture(drawMode)
      ensures r.Some? && display.textureRenderer != display.meshRenderer ==> display.textureRenderer.activeSelf == ShowsTexture(drawMode)
      ensures r.Some? ==> match r.value
                          case HeightTexture(h) => drawMode == NoiseMap && h == noiseMap
                          case ColourTexture(c, w, ht) => drawMode == ColorMap && fresh(c) && w == mapWidth && ht == mapHeight && Coloured(c, noiseMap)
                          case TexturedMesh(h, c, w, ht) => drawMode == Mesh && h == noiseMap && fresh(c) && w == mapWidth && ht == mapHeight && Coloured(c, noiseMap)
    {
      if mapWidth * mapHeight < 0 {
        return None;
      }
      var colourMap := ColourCells(noiseMap);
      ShowRenderers(display);
      match drawMode
      case NoiseMap =>
        r := Some(HeightTexture(noiseMap));
      case ColorMap =>
        r := Some(ColourTexture(colourMap, mapWidth, mapHeight));
      case Mesh =>
        r := Some(TexturedMesh(noiseMap, colourMap, mapWidth, mapHeight));
    }

    /** c is GenerateMap's colour map for the noise map. */
    ghost predicate Coloured(c: array<Color>, noiseMap: array2<real>)
      reads this, regions, c, noiseMap
    {
      mapWidth <= noiseMap.Length0 && mapHeight <= noiseMap.Length1 && c.Length == mapWidth * mapHeight &&
      forall x: nat, y: nat :: x < mapWidth && y < mapHeight ==>
        Painted(c, mapWidth, x, y, CellColor(regions[..], noiseMap[x, y]))
    }
  }
}
