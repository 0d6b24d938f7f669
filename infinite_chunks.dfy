/** InfiniteChunks: the chunk store that streams terrain around the viewer.
    A dictionary maps integer chunk coordinates to chunks that, once created,
    are never removed; a list remembers the chunks made visible by the last
    update. Each update hides the chunks of that list, empties it, and walks
    the square window of chunk coordinates around the viewer, creating the
    chunks that are missing and re-testing the visibility of those already
    present. The distance from the viewer to a chunk's bounds
    (Bounds.SqrDistance followed by Mathf.Sqrt) and Mathf.RoundToInt are
    parameters. */
module ChunkStreaming {
  import opened UnityMath
  import opened GridIndex

  /** InfiniteChunks.maxViewDistance. */
  const MaxViewDistance: int := 100

  /** A dictionary key: the integer chunk coordinate (the source keys by a
      Vector2 whose components are always whole numbers). */
  datatype Coord = Coord(x: int, y: int)

  /** UnityEngine.Bounds, by centre and size. */
  datatype Bounds = Bounds(center: Vector3, size: Vector3)

  /** a * size for an integer a of either sign, by repeated addition. */
  function Times(a: int, size: int): int {
    if a >= 0 then Mul(a, size) else -Mul(-a, size)
  }

  lemma TimesIsProduct(a: int, size: int)
    ensures Times(a, size) == a * size
  {
    if a >= 0 {
      MulIsProduct(a, size);
    } else {
      MulIsProduct(-a, size);
    }
  }

  /** The world position of the chunk at `coord`: coord * size. */
  function ChunkPosition(coord: Coord, size: int): Vector2 {
    Vector2(Times(coord.x, size) as real, Times(coord.y, size) as real)
  }

  /** new Bounds(position, Vector2.one * size): the Vector2 arguments widen to
      Vector3 with z = 0. */
  function ChunkBounds(coord: Coord, size: int): Bounds {
    var p := ChunkPosition(coord, size);
    Bounds(Vector3(p.x, p.y, 0.0), Vector3(size as real, size as real, 0.0))
  }

  /** Chunks at distinct coordinates have distinct positions, whatever the
      non-zero chunk size. */
  lemma ChunkPositionInjective(c: Coord, c': Coord, size: int)
    requires size != 0 && c != c'
    ensures ChunkPosition(c, size) != ChunkPosition(c', size)
  {
    TimesIsProduct(c.x, size);
    TimesIsProduct(c'.x, size);
    TimesIsProduct(c.y, size);
    TimesIsProduct(c'.y, size);
    if c.x != c'.x {
      ProductCancels(c.x, c'.x, size);
    } else {
      ProductCancels(c.y, c'.y, size);
    }
  }

  lemma ProductCancels(a: int, b: int, size: int)
    requires size != 0 && a != b
    ensures a * size != b * size
  {
    assert a * size - b * size == (a - b) * size;
  }

  /** The visibility test of Chunk.UpdateChunk. */
  predicate InView(b: Bounds, viewer: Vector2, distance: (Bounds, Vector2) -> real) {
    distance(b, viewer) <= MaxViewDistance as real
  }

  /** A terrain chunk. Its position and bounds are fixed at construction;
      `visible` stands for meshObject.activeSelf. */
  class Chunk {
    const position: Vector2
    const bounds: Bounds
    var visible: bool

    /** The chunk at `coord`. A new GameObject starts active, so a new chunk
        is visible. */
    constructor (coord: Coord, size: int)
      ensures position == ChunkPosition(coord, size)
      ensures bounds == ChunkBounds(coord, size)
      ensures visible
    {
      position := ChunkPosition(coord, size);
      bounds := ChunkBounds(coord, size);
      visible := true;
    }

    /** Visible exactly when the viewer is within MaxViewDistance of the bounds. */
    method UpdateChunk(viewerPosition: Vector2, distance: (Bounds, Vector2) -> real)
      modifies this
      ensures visible <==> InView(bounds, viewerPosition, distance)
    {
      var viewerDistanceFromNearestEdge := distance(bounds, viewerPosition);
      var isVisible := viewerDistanceFromNearestEdge <= MaxViewDistance as real;
      SetVisible(isVisible);
    }

    method SetVisible(isVisible: bool)
      modifies this
      ensures visible == isVisible
    {
      visible := isVisible;
    }

    function IsVisible(): bool
      reads this
    {
      visible
    }
  }

  /** The radius of the window, in chunks. maxViewDistance / chunkSize is an
      integer division (truncating, as in C#), and Mathf.RoundToInt of the
      whole number it yields is that number. */
  function ViewRadius(chunkSize: int): (k: int)
    requires chunkSize != 0
    ensures chunkSize > MaxViewDistance ==> k == 0
    ensures chunkSize > 0 ==> 0 <= k && k * chunkSize <= MaxViewDistance < (k + 1) * chunkSize
    ensures chunkSize < 0 ==> k <= 0
  {
    TruncDiv(MaxViewDistance, chunkSize)
  }

  /** Chunk coordinates (cx + dx, y) for dx from -k up to xEnd - 1, in
      increasing dx: the inner window loop run up to xOffset = xEnd. */
  function RowCoords(cx: int, y: int, k: int, xEnd: int): seq<Coord>
    decreases xEnd + k
  {
    if xEnd <= -k then [] else RowCoords(cx, y, k, xEnd - 1) + [Coord(cx + xEnd - 1, y)]
  }

  /** The rows cy + dy for dy from -k up to yEnd - 1, each from -k to k:
      the outer window loop run up to yOffset = yEnd. */
  function WindowCoords(cx: int, cy: int, k: int, yEnd: int): seq<Coord>
    decreases yEnd + k
  {
    if yEnd <= -k then [] else WindowCoords(cx, cy, k, yEnd - 1) + RowCoords(cx, cy + yEnd - 1, k, k + 1)
  }

  /** The whole window around (cx, cy), in visiting order. */
  function Window(cx: int, cy: int, k: int): seq<Coord> {
    WindowCoords(cx, cy, k, k + 1)
  }

  predicate InWindow(c: Coord, cx: int, cy: int, k: int) {
    -k <= c.x - cx <= k && -k <= c.y - cy <= k
  }

  predicate Distinct(s: seq<Coord>) {
    forall i, j :: 0 <= i < j < |s| ==> s[i] != s[j]
  }

  lemma {:induction false} RowCoordsMembers(cx: int, y: int, k: int, xEnd: int)
    ensures forall c :: c in RowCoords(cx, y, k, xEnd) <==> c.y == y && -k <= c.x - cx < xEnd
    decreases xEnd + k
  {
    if xEnd > -k {
      RowCoordsMembers(cx, y, k, xEnd - 1);
    }
  }

  lemma {:induction false} RowCoordsShape(cx: int, y: int, k: int, xEnd: int)
    ensures |RowCoords(cx, y, k, xEnd)| == if xEnd + k <= 0 then 0 else xEnd + k
    ensures Distinct(RowCoords(cx, y, k, xEnd))
    decreases xEnd + k
  {
    if xEnd > -k {
      RowCoordsShape(cx, y, k, xEnd - 1);
      RowCoordsMembers(cx, y, k, xEnd - 1);
      DistinctAppend(RowCoords(cx, y, k, xEnd - 1), [Coord(cx + xEnd - 1, y)]);
    }
  }

  lemma {:induction false} WindowCoordsMembers(cx: int, cy: int, k: int, yEnd: int)
    ensures forall c :: c in WindowCoords(cx, cy, k, yEnd) <==> -k <= c.x - cx <= k && -k <= c.y - cy < yEnd
    decreases yEnd + k
  {
    if yEnd > -k {
      WindowCoordsMembers(cx, cy, k, yEnd - 1);
      RowCoordsMembers(cx, cy + yEnd - 1, k, k + 1);
    }
  }

  lemma {:induction false} WindowCoordsLength(cx: int, cy: int, k: int, yEnd: int)
    requires k >= 0
    ensures |WindowCoords(cx, cy, k, yEnd)| == if yEnd + k <= 0 then 0 else Mul(yEnd + k, 2 * k + 1)
    decreases yEnd + k
  {
    if yEnd > -k {
      WindowCoordsLength(cx, cy, k, yEnd - 1);
      RowCoordsShape(cx, cy + yEnd - 1, k, k + 1);
    }
  }

  lemma {:induction false} WindowCoordsDistinct(cx: int, cy: int, k: int, yEnd: int)
    ensures Distinct(WindowCoords(cx, cy, k, yEnd))
    decreases yEnd + k
  {
    if yEnd > -k {
      WindowCoordsDistinct(cx, cy, k, yEnd - 1);
      RowCoordsShape(cx, cy + yEnd - 1, k, k + 1);
      RowsDisjoint(cx, cy, k, yEnd - 1);
      DistinctAppend(WindowCoords(cx, cy, k, yEnd - 1), RowCoords(cx, cy + yEnd - 1, k, k + 1));
    }
  }

  /** Row cy + y shares no coordinate with the rows before it. */
  lemma RowsDisjoint(cx: int, cy: int, k: int, y: int)
    ensures forall c :: c in WindowCoords(cx, cy, k, y) ==> c !in RowCoords(cx, cy + y, k, k + 1)
  {
    WindowCoordsMembers(cx, cy, k, y);
    RowCoordsMembers(cx, cy + y, k, k + 1);
  }

  lemma DistinctAppend(a: seq<Coord>, b: seq<Coord>)
    requires Distinct(a) && Distinct(b)
    requires forall c :: c in a ==> c !in b
    ensures Distinct(a + b)
  {
    forall i, j | 0 <= i < j < |a + b|
      ensures (a + b)[i] != (a + b)[j]
    {
      if i < |a| && j >= |a| {
        assert (a + b)[i] in a && (a + b)[j] in b;
      }
    }
  }

  /** The window is the (2k + 1)^2 distinct coordinates within k chunks of
      (cx, cy) along each axis; for a negative radius it is empty. */
  lemma WindowShape(cx: int, cy: int, k: int)
    ensures forall c :: c in Window(cx, cy, k) <==> InWindow(c, cx, cy, k)
    ensures Distinct(Window(cx, cy, k))
    ensures k >= 0 ==> |Window(cx, cy, k)| == Square(2 * k + 1)
    ensures k < 0 ==> Window(cx, cy, k) == []
  {
    WindowCoordsMembers(cx, cy, k, k + 1);
    WindowCoordsDistinct(cx, cy, k, k + 1);
    if k >= 0 {
      WindowCoordsLength(cx, cy, k, k + 1);
    }
  }

  /** The coordinates visited once the inner loop of row cy + yOffset has
      reached xOffset: the rows before it, then its prefix. */
  function Walked(cx: int, cy: int, k: int, yOffset: int, xOffset: int): seq<Coord>
    decreases xOffset + k
  {
    if xOffset <= -k then WindowCoords(cx, cy, k, yOffset)
    else Walked(cx, cy, k, yOffset, xOffset - 1) + [Coord(cx + xOffset - 1, cy + yOffset)]
  }

  lemma {:induction false} WalkedSplit(cx: int, cy: int, k: int, yOffset: int, xOffset: int)
    ensures Walked(cx, cy, k, yOffset, xOffset) == WindowCoords(cx, cy, k, yOffset) + RowCoords(cx, cy + yOffset, k, xOffset)
    decreases xOffset + k
  {
    if xOffset > -k {
      WalkedSplit(cx, cy, k, yOffset, xOffset - 1);
    }
  }

  /** The coordinate a step visits has not been visited before. */
  lemma NotYetVisited(cx: int, cy: int, k: int, yOffset: int, xOffset: int)
    ensures Coord(cx + xOffset, cy + yOffset) !in Walked(cx, cy, k, yOffset, xOffset)
  {
    WalkedSplit(cx, cy, k, yOffset, xOffset);
    WindowCoordsMembers(cx, cy, k, yOffset);
    RowCoordsMembers(cx, cy + yOffset, k, xOffset);
  }

  /** Visiting (xOffset, yOffset) extends the visit order and the shown
      list by that one coordinate. */
  lemma WalkStep(chunks: map<Coord, Chunk>, cx: int, cy: int, k: int, yOffset: int, xOffset: int, nextColumn: int,
                 viewer: Vector2, distance: (Bounds, Vector2) -> real)
    requires -k <= xOffset && nextColumn == xOffset + 1
    ensures Walked(cx, cy, k, yOffset, nextColumn) == Walked(cx, cy, k, yOffset, xOffset) + [Coord(cx + xOffset, cy + yOffset)]
    ensures ShownSoFar(chunks, cx, cy, k, yOffset, nextColumn, viewer, distance) ==
            ShownSoFar(chunks, cx, cy, k, yOffset, xOffset, viewer, distance) + ShownAt(chunks, Coord(cx + xOffset, cy + yOffset), viewer, distance)
  {}

  /** A finished row completes the next prefix of the window. */
  lemma WalkEnd(cx: int, cy: int, k: int, yOffset: int, xOffset: int)
    requires -k <= yOffset && xOffset == k + 1
    ensures Walked(cx, cy, k, yOffset, xOffset) == WindowCoords(cx, cy, k, yOffset + 1)
  {
    WalkedSplit(cx, cy, k, yOffset, xOffset);
  }

  /** What visiting coordinate c appends to the visible list: the chunk
      already stored at c when it is in view, nothing otherwise. */
  function ShownAt(chunks: map<Coord, Chunk>, c: Coord, viewer: Vector2, distance: (Bounds, Vector2) -> real): seq<Chunk> {
    if c in chunks && InView(chunks[c].bounds, viewer, distance) then [chunks[c]] else []
  }

  /** The chunks an update appends to its visible list while visiting
      `coords` in order: those of the visited coordinates that were already
      in the dictionary and are in view. */
  function ShownIn(chunks: map<Coord, Chunk>, coords: seq<Coord>, viewer: Vector2, distance: (Bounds, Vector2) -> real): (r: seq<Chunk>)
    ensures |r| <= |coords|
  {
    if |coords| == 0 then []
    else ShownIn(chunks, coords[..|coords| - 1], viewer, distance) + ShownAt(chunks, coords[|coords| - 1], viewer, distance)
  }

  /** A chunk is shown exactly when it is the chunk of a visited coordinate
      and in view. */
  lemma {:induction false} ShownInMembers(chunks: map<Coord, Chunk>, coords: seq<Coord>, viewer: Vector2, distance: (Bounds, Vector2) -> real)
    ensures forall ch :: ch in ShownIn(chunks, coords, viewer, distance) ==>
              exists c :: c in coords && c in chunks && chunks[c] == ch && InView(ch.bounds, viewer, distance)
    ensures forall c :: c in coords && c in chunks && InView(chunks[c].bounds, viewer, distance) ==>
              chunks[c] in ShownIn(chunks, coords, viewer, distance)
  {
    if |coords| > 0 {
      var last := coords[|coords| - 1];
      var init := coords[..|coords| - 1];
      ShownInMembers(chunks, init, viewer, distance);
      assert coords == init + [last];
      forall ch | ch in ShownIn(chunks, coords, viewer, distance)
        ensures exists c :: c in coords && c in chunks && chunks[c] == ch && InView(ch.bounds, viewer, distance)
      {
        if ch !in ShownIn(chunks, init, viewer, distance) {
          assert last in coords && last in chunks && chunks[last] == ch;
        }
      }
    }
  }

  /** Visiting a + b shows what visiting a shows, then what visiting b shows. */
  lemma {:induction false} ShownInAppend(chunks: map<Coord, Chunk>, a: seq<Coord>, b: seq<Coord>, viewer: Vector2, distance: (Bounds, Vector2) -> real)
    ensures ShownIn(chunks, a + b, viewer, distance) == ShownIn(chunks, a, viewer, distance) + ShownIn(chunks, b, viewer, distance)
    decreases |b|
  {
    if |b| > 0 {
      var b' := b[..|b| - 1];
      assert (a + b)[..|a + b| - 1] == a + b';
      assert (a + b)[|a + b| - 1] == b[|b| - 1];
      ShownInAppend(chunks, a, b', viewer, distance);
    } else {
      assert a + b == a;
    }
  }

  /** ShownIn of a row prefix, following the inner loop. */
  function ShownRow(chunks: map<Coord, Chunk>, cx: int, y: int, k: int, xEnd: int, viewer: Vector2,
                    distance: (Bounds, Vector2) -> real): seq<Chunk>
    decreases xEnd + k
  {
    if xEnd <= -k then []
    else ShownRow(chunks, cx, y, k, xEnd - 1, viewer, distance) + ShownAt(chunks, Coord(cx + xEnd - 1, y), viewer, distance)
  }

  /** ShownIn of a window prefix, following the outer loop. */
  function ShownWindow(chunks: map<Coord, Chunk>, cx: int, cy: int, k: int, yEnd: int, viewer: Vector2,
                       distance: (Bounds, Vector2) -> real): seq<Chunk>
    decreases yEnd + k
  {
    if yEnd <= -k then []
    else ShownWindow(chunks, cx, cy, k, yEnd - 1, viewer, distance) + ShownRow(chunks, cx, cy + yEnd - 1, k, k + 1, viewer, distance)
  }

  /** What the visible list holds once the inner loop of row cy + yOffset
      has reached xOffset. */
  function ShownSoFar(chunks: map<Coord, Chunk>, cx: int, cy: int, k: int, yOffset: int, xOffset: int, viewer: Vector2,
                      distance: (Bounds, Vector2) -> real): seq<Chunk>
    decreases xOffset + k
  {
    if xOffset <= -k then ShownWindow(chunks, cx, cy, k, yOffset, viewer, distance)
    else ShownSoFar(chunks, cx, cy, k, yOffset, xOffset - 1, viewer, distance) +
         ShownAt(chunks, Coord(cx + xOffset - 1, cy + yOffset), viewer, distance)
  }

  lemma {:induction false} ShownSoFarSplit(chunks: map<Coord, Chunk>, cx: int, cy: int, k: int, yOffset: int, xOffset: int,
                                           viewer: Vector2, distance: (Bounds, Vector2) -> real)
    ensures ShownSoFar(chunks, cx, cy, k, yOffset, xOffset, viewer, distance) ==
            ShownWindow(chunks, cx, cy, k, yOffset, viewer, distance) + ShownRow(chunks, cx, cy + yOffset, k, xOffset, viewer, distance)
    decreases xOffset + k
  {
    if xOffset > -k {
      ShownSoFarSplit(chunks, cx, cy, k, yOffset, xOffset - 1, viewer, distance);
    }
  }

  /** A finished row is one more row of the window shown. */
  lemma ShownRowEnd(chunks: map<Coord, Chunk>, cx: int, cy: int, k: int, yOffset: int, xOffset: int, viewer: Vector2,
                    distance: (Bounds, Vector2) -> real)
    requires -k <= yOffset && xOffset == k + 1
    ensures ShownSoFar(chunks, cx, cy, k, yOffset, xOffset, viewer, distance) == ShownWindow(chunks, cx, cy, k, yOffset + 1, viewer, distance)
  {
    ShownSoFarSplit(chunks, cx, cy, k, yOffset, xOffset, viewer, distance);
  }

  lemma {:induction false} ShownRowMatches(chunks: map<Coord, Chunk>, cx: int, y: int, k: int, xEnd: int, viewer: Vector2,
                                           distance: (Bounds, Vector2) -> real)
    ensures ShownRow(chunks, cx, y, k, xEnd, viewer, distance) == ShownIn(chunks, RowCoords(cx, y, k, xEnd), viewer, distance)
    decreases xEnd + k
  {
    if xEnd > -k {
      ShownRowMatches(chunks, cx, y, k, xEnd - 1, viewer, distance);
      var r := RowCoords(cx, y, k, xEnd);
      assert r[..|r| - 1] == RowCoords(cx, y, k, xEnd - 1);
    }
  }

  /** The loop-shaped ShownWindow is ShownIn of the coordinates visited. */
  lemma {:induction false} ShownWindowMatches(chunks: map<Coord, Chunk>, cx: int, cy: int, k: int, yEnd: int, viewer: Vector2,
                                              distance: (Bounds, Vector2) -> real)
    ensures ShownWindow(chunks, cx, cy, k, yEnd, viewer, distance) == ShownIn(chunks, WindowCoords(cx, cy, k, yEnd), viewer, distance)
    decreases yEnd + k
  {
    if yEnd > -k {
      ShownWindowMatches(chunks, cx, cy, k, yEnd - 1, viewer, distance);
      ShownRowMatches(chunks, cx, cy + yEnd - 1, k, k + 1, viewer, distance);
      ShownInAppend(chunks, WindowCoords(cx, cy, k, yEnd - 1), RowCoords(cx, cy + yEnd - 1, k, k + 1), viewer, distance);
    }
  }

  class InfiniteChunks {
    var chunkSize: int
    var chunksVisibleInViewDistance: int
    /** The viewer's ground position divided by chunkSize (a static field in
        the source). */
    var viewerPosition: Vector2
    var chunkDictionary: map<Coord, Chunk>
    var chunksVisibleLastUpdate: seq<Chunk>
    /** The key of each chunk of the visible list. */
    ghost var visibleKeys: seq<Coord>
    /** The key each chunk was created for. */
    ghost var keyOf: map<Chunk, Coord>

    /** Every listed chunk is the dictionary's chunk at its key, and every
        chunk of the dictionary knows its key, so distinct keys hold distinct
        chunks. */
    ghost predicate Valid()
      reads this
    {
      chunkSize != 0 &&
      |visibleKeys| == |chunksVisibleLastUpdate| &&
      (forall i :: 0 <= i < |visibleKeys| ==>
         visibleKeys[i] in chunkDictionary && chunkDictionary[visibleKeys[i]] == chunksVisibleLastUpdate[i]) &&
      (forall c :: c in chunkDictionary ==> chunkDictionary[c] in keyOf && keyOf[chunkDictionary[c]] == c)
    }

    /** Field initialisers and Start: the chunk size is the generator's map
        size less one, and the window radius follows from it. A chunk size of
        0 makes the integer division throw. */
    constructor (generatorChunkSize: int)
      requires generatorChunkSize - 1 != 0
      ensures Valid()
      ensures chunkSize == generatorChunkSize - 1
      ensures chunksVisibleInViewDistance == ViewRadius(chunkSize)
      ensures chunkDictionary == map[] && chunksVisibleLastUpdate == []
    {
      chunkSize := generatorChunkSize - 1;
      chunksVisibleInViewDistance := ViewRadius(generatorChunkSize - 1);
      viewerPosition := Vector2(0.0, 0.0);
      chunkDictionary := map[];
      chunksVisibleLastUpdate := [];
      visibleKeys := [];
      keyOf := map[];
    }

    /** Update: the viewer's ground position (x, z) in chunk units, then the
        visible set for it, with everything UpdateVisibleChunks promises
        about the store stated in terms of the new position. */
    method Update(viewerX: real, viewerZ: real, roundToInt: real -> int, distance: (Bounds, Vector2) -> real)
      requires Valid()
      modifies this, chunkDictionary.Values
      ensures Valid()
      ensures chunkSize == old(chunkSize) && chunksVisibleInViewDistance == old(chunksVisibleInViewDistance)
      ensures viewerPosition == Vector2(viewerX / chunkSize as real, viewerZ / chunkSize as real)
      ensures forall c :: c in chunkDictionary <==>
                c in old(chunkDictionary) ||
                InWindow(c, roundToInt(viewerPosition.x), roundToInt(viewerPosition.y), chunksVisibleInViewDistance)
      ensures forall c :: c in old(chunkDictionary) ==> chunkDictionary[c] == old(chunkDictionary[c])
      ensures forall c :: c in chunkDictionary && c !in old(chunkDictionary) ==>
                chunkDictionary[c].visible &&
                chunkDictionary[c].position == ChunkPosition(c, chunkSize) &&
                chunkDictionary[c].bounds == ChunkBounds(c, chunkSize)
      ensures forall c :: c in old(chunkDictionary) ==>
                chunkDictionary[c].visible ==
                  if c in Window(roundToInt(viewerPosition.x), roundToInt(viewerPosition.y), chunksVisibleInViewDistance)
                  then InView(chunkDictionary[c].bounds, viewerPosition, distance)
                  else if old(chunkDictionary[c]) in old(chunksVisibleLastUpdate) then false
                  else old(chunkDictionary[c].visible)
      ensures chunksVisibleLastUpdate ==
                ShownIn(old(chunkDictionary),
                        Window(roundToInt(viewerPosition.x), roundToInt(viewerPosition.y), chunksVisibleInViewDistance),
                        viewerPosition, distance)
      ensures |chunkDictionary.Keys| ==
                |old(chunkDictionary).Keys| +
                |WindowSet(roundToInt(viewerPosition.x), roundToInt(viewerPosition.y), chunksVisibleInViewDistance) - old(chunkDictionary).Keys|
    {
      viewerPosition := Vector2(viewerX / chunkSize as real, viewerZ / chunkSize as real);
      UpdateVisibleChunks(roundToInt, distance);
      WindowShape(roundToInt(viewerPosition.x), roundToInt(viewerPosition.y), chunksVisibleInViewDistance);
    }

    /** The first phase of an update: every chunk of the last visible list is
        hidden, then the list is emptied. */
    method HidePrevious()
      requires Valid()
      modifies this, chunkDictionary.Values
      ensures Valid()
      ensures chunkDictionary == old(chunkDictionary) && chunksVisibleLastUpdate == []
      ensures chunkSize == old(chunkSize) && chunksVisibleInViewDistance == old(chunksVisibleInViewDistance)
      ensures viewerPosition == old(viewerPosition)
      ensures forall c :: c in chunkDictionary ==>
                chunkDictionary[c].visible ==
                  if chunkDictionary[c] in old(chunksVisibleLastUpdate) then false else old(chunkDictionary[c].visible)
    {
      var i := 0;
      while i < |chunksVisibleLastUpdate|
        invariant 0 <= i <= |chunksVisibleLastUpdate|
        invariant unchanged(this)
        invariant forall c :: c in chunkDictionary ==>
                    chunkDictionary[c].visible ==
                      if chunkDictionary[c] in chunksVisibleLastUpdate[..i] then false else old(chunkDictionary[c].visible)
      {
        assert chunkDictionary[visibleKeys[i]] == chunksVisibleLastUpdate[i];
        chunksVisibleLastUpdate[i].SetVisible(false);
        assert chunksVisibleLastUpdate[..i + 1] == chunksVisibleLastUpdate[..i] + [chunksVisibleLastUpdate[i]];
        i := i + 1;
      }
      assert chunksVisibleLastUpdate[..i] == chunksVisibleLastUpdate;
      chunksVisibleLastUpdate := [];
      visibleKeys := [];
    }

    /** The state of an update after visiting the coordinates `visited`:
        the dictionary holds the keys it held before the window walk plus the
        visited ones, old keys keep their chunks, visited old chunks carry the
        distance test and the others the visibility left by HidePrevious, and
        every new chunk sits at its coordinate and is visible. */
    ghost predicate Progress(before: map<Coord, Chunk>, hidden: map<Coord, bool>, visited: seq<Coord>,
                             distance: (Bounds, Vector2) -> real)
      reads this, chunkDictionary.Values, before.Values
    {
      KeysProgress(before, visited) && VisibilityProgress(before, hidden, visited, distance)
    }

    ghost predicate KeysProgress(before: map<Coord, Chunk>, visited: seq<Coord>)
      reads this
    {
      (forall c :: c in chunkDictionary <==> c in before || c in visited) &&
      (forall c :: c in before ==> chunkDictionary[c] == before[c]) &&
      (forall c :: c in chunkDictionary && c !in before ==>
         chunkDictionary[c].bounds == ChunkBounds(c, chunkSize) &&
         chunkDictionary[c].position == ChunkPosition(c, chunkSize))
    }

    ghost predicate VisibilityProgress(before: map<Coord, Chunk>, hidden: map<Coord, bool>, visited: seq<Coord>,
                                       distance: (Bounds, Vector2) -> real)
      reads this, chunkDictionary.Values, before.Values
    {
      (forall c :: c in before ==> c in hidden) &&
      (forall c :: c in before ==>
         before[c].visible == if c in visited then InView(before[c].bounds, viewerPosition, distance) else hidden[c]) &&
      (forall c :: c in chunkDictionary && c !in before ==> chunkDictionary[c].visible)
    }

    /** The whole state of the window walk: a valid store, Progress over
        `visited`, the visible list equal to `shown`, and the chunk size,
        radius and viewer position fixed. */
    ghost predicate WalkState(before: map<Coord, Chunk>, hidden: map<Coord, bool>, visited: seq<Coord>, shown: seq<Chunk>,
                              distance: (Bounds, Vector2) -> real, size: int, k: int, viewer: Vector2)
      reads this, chunkDictionary.Values, before.Values
    {
      Valid() && Progress(before, hidden, visited, distance) && chunksVisibleLastUpdate == shown &&
      chunkSize == size && chunksVisibleInViewDistance == k && viewerPosition == viewer
    }

    /** The walk state before the first row of the window. */
    lemma WindowStarted(cx: int, cy: int, distance: (Bounds, Vector2) -> real, before: map<Coord, Chunk>,
                        hidden: map<Coord, bool>, size: int, k: int, viewer: Vector2)
      requires WalkState(before, hidden, [], [], distance, size, k, viewer)
      ensures WalkState(before, hidden, WindowCoords(cx, cy, k, -k), ShownWindow(before, cx, cy, k, -k, viewer, distance),
                        distance, size, k, viewer)
    {
      WindowStart(before, cx, cy, k, viewer, distance);
    }

    /** The walk state after the last row: the whole window visited and shown. */
    lemma WindowFinished(cx: int, cy: int, yOffset: int, distance: (Bounds, Vector2) -> real, before: map<Coord, Chunk>,
                         hidden: map<Coord, bool>, size: int, k: int, viewer: Vector2)
      requires yOffset == if k >= 0 then k + 1 else -k
      requires WalkState(before, hidden, WindowCoords(cx, cy, k, yOffset), ShownWindow(before, cx, cy, k, yOffset, viewer, distance),
                         distance, size, k, viewer)
      ensures WalkState(before, hidden, Window(cx, cy, k), ShownWindow(before, cx, cy, k, k + 1, viewer, distance),
                        distance, size, k, viewer)
    {
      WindowDone(before, cx, cy, k, yOffset, viewer, distance);
    }

    /** The walk state after the last cell of row yOffset is that before row yOffset + 1. */
    lemma RowFinished(cx: int, cy: int, yOffset: int, xOffset: int, nextRow: int, distance: (Bounds, Vector2) -> real, before: map<Coord, Chunk>,
                      hidden: map<Coord, bool>, size: int, k: int, viewer: Vector2)
      requires -k <= yOffset && xOffset == k + 1 && nextRow == yOffset + 1
      requires WalkState(before, hidden, Walked(cx, cy, k, yOffset, xOffset),
                         ShownSoFar(before, cx, cy, k, yOffset, xOffset, viewer, distance), distance, size, k, viewer)
      ensures WalkState(before, hidden, WindowCoords(cx, cy, k, nextRow), ShownWindow(before, cx, cy, k, nextRow, viewer, distance),
                        distance, size, k, viewer)
    {
      WalkEnd(cx, cy, k, yOffset, xOffset);
      ShownRowEnd(before, cx, cy, k, yOffset, xOffset, viewer, distance);
    }

    /** The body of the inner window loop at (xOffset, yOffset): a present
        chunk is re-tested and listed if it is visible; a missing one is
        created (and not listed). */
    method VisitCoord(currentChunkCoordX: int, currentChunkCoordY: int, yOffset: int, xOffset: int,
                      distance: (Bounds, Vector2) -> real, ghost before: map<Coord, Chunk>, ghost hidden: map<Coord, bool>,
                      ghost size: int, ghost k: int, ghost viewer: Vector2) returns (nextColumn: int)
      requires -k <= xOffset
      requires WalkState(before, hidden, Walked(currentChunkCoordX, currentChunkCoordY, k, yOffset, xOffset),
                         ShownSoFar(before, currentChunkCoordX, currentChunkCoordY, k, yOffset, xOffset, viewer, distance),
                         distance, size, k, viewer)
      modifies this, before.Values
      ensures nextColumn == xOffset + 1
      ensures WalkState(before, hidden, Walked(currentChunkCoordX, currentChunkCoordY, k, yOffset, nextColumn),
                        ShownSoFar(before, currentChunkCoordX, currentChunkCoordY, k, yOffset, nextColumn, viewer, distance),
                        distance, size, k, viewer)
    {
      var viewedChunkCoord := Coord(currentChunkCoordX + xOffset, currentChunkCoordY + yOffset);
      ghost var visited := Walked(currentChunkCoordX, currentChunkCoordY, k, yOffset, xOffset);
      NotYetVisited(currentChunkCoordX, currentChunkCoordY, k, yOffset, xOffset);
      if viewedChunkCoord in chunkDictionary {
        RetestChunk(viewedChunkCoord, distance, before, hidden, visited);
      } else {
        AddChunk(viewedChunkCoord, distance, before, hidden, visited);
      }
      nextColumn := xOffset + 1;
      WalkStep(before, currentChunkCoordX, currentChunkCoordY, k, yOffset, xOffset, nextColumn, viewer, distance);
    }

    /** VisitCoord for a coordinate already in the dictionary. */
    method RetestChunk(coord: Coord, distance: (Bounds, Vector2) -> real,
                       ghost before: map<Coord, Chunk>, ghost hidden: map<Coord, bool>, ghost visited: seq<Coord>)
      requires Valid() && Progress(before, hidden, visited, distance)
      requires coord !in visited && coord in chunkDictionary
      modifies this, before.Values
      ensures Valid() && Progress(before, hidden, visited + [coord], distance)
      ensures chunksVisibleLastUpdate == old(chunksVisibleLastUpdate) + ShownAt(before, coord, viewerPosition, distance)
      ensures chunkSize == old(chunkSize) && chunksVisibleInViewDistance == old(chunksVisibleInViewDistance)
      ensures viewerPosition == old(viewerPosition)
      ensures chunkDictionary == old(chunkDictionary)
    {
      var chunk := chunkDictionary[coord];
      chunk.UpdateChunk(viewerPosition, distance);
      forall c | c in chunkDictionary && c != coord
        ensures chunkDictionary[c].visible == old(chunkDictionary[c].visible)
      {
        assert keyOf[chunkDictionary[c]] != keyOf[chunk];
      }
      if chunk.IsVisible() {
        chunksVisibleLastUpdate := chunksVisibleLastUpdate + [chunk];
        visibleKeys := visibleKeys + [coord];
      }
    }

    /** VisitCoord for a coordinate missing from the dictionary. */
    method AddChunk(coord: Coord, distance: (Bounds, Vector2) -> real,
                    ghost before: map<Coord, Chunk>, ghost hidden: map<Coord, bool>, ghost visited: seq<Coord>)
      requires Valid() && Progress(before, hidden, visited, distance)
      requires coord !in visited && coord !in chunkDictionary
      modifies this
      ensures Valid() && Progress(before, hidden, visited + [coord], distance)
      ensures chunksVisibleLastUpdate == old(chunksVisibleLastUpdate) + ShownAt(before, coord, viewerPosition, distance)
      ensures chunkSize == old(chunkSize) && chunksVisibleInViewDistance == old(chunksVisibleInViewDistance)
      ensures viewerPosition == old(viewerPosition)
      ensures coord in chunkDictionary && fresh(chunkDictionary[coord])
      ensures chunkDictionary == old(chunkDictionary)[coord := chunkDictionary[coord]]
    {
      assert coord !in before;
      var chunk := new Chunk(coord, chunkSize);
      chunkDictionary := chunkDictionary[coord := chunk];
      keyOf := keyOf[chunk := coord];
    }

    /** The inner window loop: row cy + yOffset, from xOffset = -k to k. */
    method WalkRow(currentChunkCoordX: int, currentChunkCoordY: int, yOffset: int, distance: (Bounds, Vector2) -> real,
                   ghost before: map<Coord, Chunk>, ghost hidden: map<Coord, bool>, ghost size: int, k: int, ghost viewer: Vector2) returns (nextRow: int)
      requires -k <= yOffset <= k
      requires WalkState(before, hidden, WindowCoords(currentChunkCoordX, currentChunkCoordY, k, yOffset),
                         ShownWindow(before, currentChunkCoordX, currentChunkCoordY, k, yOffset, viewer, distance),
                         distance, size, k, viewer)
      modifies this, before.Values
      ensures nextRow == yOffset + 1
      ensures WalkState(before, hidden, WindowCoords(currentChunkCoordX, currentChunkCoordY, k, nextRow),
                        ShownWindow(before, currentChunkCoordX, currentChunkCoordY, k, nextRow, viewer, distance),
                        distance, size, k, viewer)
    {
      var xOffset := -k;
      while xOffset <= k
        invariant -k <= xOffset <= k + 1
        invariant WalkState(before, hidden, Walked(currentChunkCoordX, currentChunkCoordY, k, yOffset, xOffset),
                            ShownSoFar(before, currentChunkCoordX, currentChunkCoordY, k, yOffset, xOffset, viewer, distance),
                            distance, size, k, viewer)
      {
        xOffset := VisitCoord(currentChunkCoordX, currentChunkCoordY, yOffset, xOffset, distance, before, hidden, size, k, viewer);
      }
      nextRow := yOffset + 1;
      RowFinished(currentChunkCoordX, currentChunkCoordY, yOffset, xOffset, nextRow, distance, before, hidden, size, k, viewer);
    }

    /** UpdateVisibleChunks. Afterwards the keys are the old keys plus the
        window around the viewer's rounded chunk coordinate (so the
        dictionary gains exactly the window coordinates it lacked), old keys keep
        their chunks, the new chunks are visible and placed at their
        coordinate, a window chunk that already existed carries the distance
        test, a listed chunk outside the window is hidden, every other chunk
        keeps its visibility, and the visible list holds, in visiting order,
        the window chunks that already existed and are in view. */
    method UpdateVisibleChunks(roundToInt: real -> int, distance: (Bounds, Vector2) -> real)
      requires Valid()
      modifies this, chunkDictionary.Values
      ensures Valid()
      ensures chunkSize == old(chunkSize) && chunksVisibleInViewDistance == old(chunksVisibleInViewDistance)
      ensures viewerPosition == old(viewerPosition)
      ensures forall c :: c in chunkDictionary <==>
                c in old(chunkDictionary) ||
                c in Window(roundToInt(viewerPosition.x), roundToInt(viewerPosition.y), chunksVisibleInViewDistance)
      ensures forall c :: c in old(chunkDictionary) ==> chunkDictionary[c] == old(chunkDictionary[c])
      ensures forall c :: c in chunkDictionary && c !in old(chunkDictionary) ==>
                chunkDictionary[c].visible &&
                chunkDictionary[c].position == ChunkPosition(c, chunkSize) &&
                chunkDictionary[c].bounds == ChunkBounds(c, chunkSize)
      ensures forall c :: c in old(chunkDictionary) ==>
                chunkDictionary[c].visible ==
                  if c in Window(roundToInt(viewerPosition.x), roundToInt(viewerPosition.y), chunksVisibleInViewDistance)
                  then InView(chunkDictionary[c].bounds, viewerPosition, distance)
                  else if old(chunkDictionary[c]) in old(chunksVisibleLastUpdate) then false
                  else old(chunkDictionary[c].visible)
      ensures chunksVisibleLastUpdate ==
                ShownIn(old(chunkDictionary),
                        Window(roundToInt(viewerPosition.x), roundToInt(viewerPosition.y), chunksVisibleInViewDistance),
                        viewerPosition, distance)
      ensures |chunkDictionary.Keys| ==
                |old(chunkDictionary).Keys| +
                |WindowSet(roundToInt(viewerPosition.x), roundToInt(viewerPosition.y), chunksVisibleInViewDistance) - old(chunkDictionary).Keys|
    {
      HidePrevious();
      ghost var before := chunkDictionary;
      ghost var hidden := map c | c in chunkDictionary :: chunkDictionary[c].visible;
      assert WalkState(before, hidden, [], [], distance, chunkSize, chunksVisibleInViewDistance, viewerPosition);
      var currentChunkCoordX := roundToInt(viewerPosition.x);
      var currentChunkCoordY := roundToInt(viewerPosition.y);
      WalkWindow(currentChunkCoordX, currentChunkCoordY, distance, before, hidden, chunkSize, chunksVisibleInViewDistance, viewerPosition);
      WalkOutcome(currentChunkCoordX, currentChunkCoordY, distance, before, hidden, old(chunkSize), old(chunksVisibleInViewDistance),
                  old(viewerPosition));
      DictionaryGrowth(old(chunkDictionary), chunkDictionary, Window(currentChunkCoordX, currentChunkCoordY, chunksVisibleInViewDistance));
    }

    /** What a finished walk over the whole window leaves, stated field by field. */
    lemma WalkOutcome(cx: int, cy: int, distance: (Bounds, Vector2) -> real, before: map<Coord, Chunk>,
                      hidden: map<Coord, bool>, size: int, k: int, viewer: Vector2)
      requires WalkState(before, hidden, Window(cx, cy, k), ShownWindow(before, cx, cy, k, k + 1, viewer, distance),
                         distance, size, k, viewer)
      ensures Valid() && chunkSize == size && chunksVisibleInViewDistance == k && viewerPosition == viewer
      ensures forall c :: c in chunkDictionary <==> c in before || c in Window(cx, cy, k)
      ensures forall c :: c in before ==> chunkDictionary[c] == before[c]
      ensures forall c :: c in chunkDictionary && c !in before ==>
                chunkDictionary[c].visible &&
                chunkDictionary[c].position == ChunkPosition(c, chunkSize) &&
                chunkDictionary[c].bounds == ChunkBounds(c, chunkSize)
      ensures forall c :: c in before ==>
                c in hidden &&
                chunkDictionary[c].visible ==
                  if c in Window(cx, cy, k) then InView(chunkDictionary[c].bounds, viewer, distance) else hidden[c]
      ensures chunksVisibleLastUpdate == ShownIn(before, Window(cx, cy, k), viewer, distance)
    {
      ShownWindowMatches(before, cx, cy, k, k + 1, viewer, distance);
    }

    /** The outer window loop, from yOffset = -k to k, starting from an empty
        visible list. */
    method WalkWindow(currentChunkCoordX: int, currentChunkCoordY: int, distance: (Bounds, Vector2) -> real,
                      ghost before: map<Coord, Chunk>, ghost hidden: map<Coord, bool>, ghost size: int, k: int, ghost viewer: Vector2)
      requires WalkState(before, hidden, [], [], distance, size, k, viewer)
      modifies this, before.Values
      ensures WalkState(before, hidden, Window(currentChunkCoordX, currentChunkCoordY, k),
                        ShownWindow(before, currentChunkCoordX, currentChunkCoordY, k, k + 1, viewer, distance),
                        distance, size, k, viewer)
    {
      var yOffset := -k;
      WindowStarted(currentChunkCoordX, currentChunkCoordY, distance, before, hidden, size, k, viewer);
      while yOffset <= k
        invariant -k <= yOffset <= if k >= 0 then k + 1 else -k
        invariant WalkState(before, hidden, WindowCoords(currentChunkCoordX, currentChunkCoordY, k, yOffset),
                            ShownWindow(before, currentChunkCoordX, currentChunkCoordY, k, yOffset, viewer, distance),
                            distance, size, k, viewer)
      {
        yOffset := WalkRow(currentChunkCoordX, currentChunkCoordY, yOffset, distance, before, hidden, size, k, viewer);
      }
      WindowFinished(currentChunkCoordX, currentChunkCoordY, yOffset, distance, before, hidden, size, k, viewer);
    }
  }

  /** The outer loop starts with nothing visited or shown and, once past
      row k, has visited and shown the whole window (none of it for a
      negative radius). */
  lemma WindowStart(chunks: map<Coord, Chunk>, cx: int, cy: int, k: int, viewer: Vector2, distance: (Bounds, Vector2) -> real)
    ensures WindowCoords(cx, cy, k, -k) == [] && ShownWindow(chunks, cx, cy, k, -k, viewer, distance) == []
  {}

  lemma WindowDone(chunks: map<Coord, Chunk>, cx: int, cy: int, k: int, yOffset: int, viewer: Vector2,
                   distance: (Bounds, Vector2) -> real)
    requires yOffset == if k >= 0 then k + 1 else -k
    ensures WindowCoords(cx, cy, k, yOffset) == Window(cx, cy, k)
    ensures ShownWindow(chunks, cx, cy, k, yOffset, viewer, distance) == ShownWindow(chunks, cx, cy, k, k + 1, viewer, distance)
  {}

  /** The coordinates of the window, as a set. */
  ghost function WindowSet(cx: int, cy: int, k: int): set<Coord> {
    WindowSetOf(Window(cx, cy, k))
  }

  /** The coordinates of a visit order, as a set. */
  ghost function WindowSetOf(coords: seq<Coord>): set<Coord> {
    set c | c in coords
  }

  /** A dictionary whose keys are those of `before` plus the coordinates of
      `window` has gained exactly the window coordinates `before` lacked. */
  lemma DictionaryGrowth(before: map<Coord, Chunk>, after: map<Coord, Chunk>, window: seq<Coord>)
    requires forall c :: c in after <==> c in before || c in window
    ensures |after.Keys| == |before.Keys| + |WindowSetOf(window) - before.Keys|
  {
    assert after.Keys == before.Keys + WindowSetOf(window);
    KeysGrowth(before.Keys, after.Keys, WindowSetOf(window));
  }

  /** Adding the window's coordinates to a key set grows it by exactly the
      coordinates it lacked. UpdateVisibleChunks applies this to the
      dictionary's keys. */
  lemma KeysGrowth(before: set<Coord>, after: set<Coord>, window: set<Coord>)
    requires after == before + window
    ensures |after| == |before| + |window - before|
  {
    assert after == before + (window - before);
    assert before * (window - before) == {};
  }
}
