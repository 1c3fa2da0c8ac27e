/** The level builder: `TileMap` turns a parsed map document into a tile index
    and sprites sorted into the background, visible and obstacle groups. The
    pure functions below state what the index and the groups become; the
    `TileMap` methods are proved to produce exactly that. */
module Level {
  import opened Documents
  import opened Text
  import opened Tiles

  // ---------------------------------------------------------------------------
  // Base directory of a path

  /** `r` is what `get_basename(url)` returns: a prefix of `url` ending just
      before its last '/', or "" when the only '/' is at index 0 or there is
      none. */
  ghost predicate IsBasename(url: string, r: string)
  {
    && |r| <= |url| && r == url[..|r|]
    && (|url| > 0 ==> |r| < |url|)
    && (r != [] ==> url[|r|] == '/')
    && (forall k :: |r| < k < |url| ==> url[k] != '/')
  }

  /** The basename property determines the result. */
  lemma BasenameUnique(url: string, r1: string, r2: string)
    requires IsBasename(url, r1) && IsBasename(url, r2)
    ensures r1 == r2
  {
    if r1 != [] {
      assert url[|r1|] == '/';
    }
    if r2 != [] {
      assert url[|r2|] == '/';
    }
  }

  /** `get_basename`: scans for the last '/' and cuts there. */
  method GetBasename(url: string) returns (r: string)
    ensures IsBasename(url, r)
  {
    var index := 0;
    var i := 0;
    while i < |url|
      invariant 0 <= i <= |url|
      invariant index <= i && (i > 0 ==> index < i)
      invariant index > 0 ==> url[index] == '/'
      invariant forall k :: index < k < i ==> url[k] != '/'
    {
      if url[i] == '/' {
        index := i;
      }
      i := i + 1;
    }
    r := url[..index];
  }

  // ---------------------------------------------------------------------------
  // Tile lookup

  /** The result of `get_tile`: the sentinel 0 (`Blank`), null (`Unknown`) or a tile. */
  datatype Lookup = Blank | Unknown | Hit(tile: MapTile)

  /** The index of the first tile carrying `id`, or `|tiles|` when none does. */
  function FirstMatch(tiles: seq<MapTile>, id: int): (k: nat)
    ensures k <= |tiles|
    ensures k < |tiles| ==> tiles[k].referenceId == id
    ensures forall m :: 0 <= m < k ==> tiles[m].referenceId != id
    decreases |tiles|
  {
    if tiles == [] then 0
    else if tiles[0].referenceId == id then 0
    else 1 + FirstMatch(tiles[1..], id)
  }

  /** What `get_tile(id)` looks up in the index `tiles`: the sentinel for cell
      value 0, otherwise the first tile with that reference id, or null. */
  function Resolve(tiles: seq<MapTile>, id: int): (r: Lookup)
    ensures r == Blank <==> id == 0
    ensures r == Unknown <==> id != 0 && forall k :: 0 <= k < |tiles| ==> tiles[k].referenceId != id
    ensures r.Hit? ==> exists k :: 0 <= k < |tiles| && tiles[k] == r.tile && r.tile.referenceId == id
                                   && forall m :: 0 <= m < k ==> tiles[m].referenceId != id
  {
    if id == 0 then Blank
    else
      var k := FirstMatch(tiles, id);
      if k < |tiles| then Hit(tiles[k]) else Unknown
  }

  // ---------------------------------------------------------------------------
  // Building the tile index

  /** The tile an inline descriptor becomes: its own image, next to the map,
      and the global id `id + firstgid`. */
  function InlineInfo(d: TileDesc, firstgid: int, baseUrl: string): TileInfo
  {
    TileInfo(Image(baseUrl + "/" + d.image), d.id + firstgid, false, d.cls,
             Colliders(d), d.imagewidth, d.imageheight, 0, 0)
  }

  /** The tiles made from the first `n` inline descriptors, in order. */
  function InlineInfos(ds: seq<TileDesc>, firstgid: int, baseUrl: string, n: nat): (r: seq<TileInfo>)
    requires n <= |ds|
    ensures |r| == n
  {
    if n == 0 then [] else InlineInfos(ds, firstgid, baseUrl, n - 1) + [InlineInfo(ds[n - 1], firstgid, baseUrl)]
  }

  /** Entry `j` of the inline tiles comes from descriptor `j`. */
  lemma {:induction false} InlineInfosAt(ds: seq<TileDesc>, firstgid: int, baseUrl: string, n: nat, j: nat)
    requires j < n <= |ds|
    ensures InlineInfos(ds, firstgid, baseUrl, n)[j] == InlineInfo(ds[j], firstgid, baseUrl)
  {
    if j < n - 1 {
      InlineInfosAt(ds, firstgid, baseUrl, n - 1, j);
    }
  }

  /** An external tileset reference needs a positive atlas width. */
  predicate Loadable(ref: TilesetRef)
  {
    ref.External? ==> ref.doc.imagewidth > 0
  }

  /** The index after one tileset reference: inline tiles are appended; an
      external tileset's tile list replaces the whole index. */
  function IndexStep(index: seq<TileInfo>, ref: TilesetRef, baseUrl: string): seq<TileInfo>
    requires Loadable(ref)
  {
    match ref
    case Inline(firstgid, tiles) => index + InlineInfos(tiles, firstgid, baseUrl, |tiles|)
    case External(firstgid, _, doc) => AtlasInfos(doc, firstgid, Image(baseUrl + "/" + doc.image), BuiltCount(doc))
  }

  /** The index after the tileset references `refs`, in order, starting from `start`. */
  function BuildIndex(start: seq<TileInfo>, refs: seq<TilesetRef>, baseUrl: string): seq<TileInfo>
    requires forall i :: 0 <= i < |refs| ==> Loadable(refs[i])
    decreases |refs|
  {
    if refs == [] then start
    else
      var m := |refs| - 1;
      IndexStep(BuildIndex(start, refs[..m], baseUrl), refs[m], baseUrl)
  }

  /** An inline reference appends exactly one tile per descriptor, in order,
      with global id `id + firstgid`, and leaves the earlier entries alone. */
  lemma InlineStepAppends(index: seq<TileInfo>, firstgid: int, tiles: seq<TileDesc>, baseUrl: string)
    ensures var r := IndexStep(index, Inline(firstgid, tiles), baseUrl);
      && |r| == |index| + |tiles|
      && r[..|index|] == index
      && forall j :: 0 <= j < |tiles| ==>
           r[|index| + j] == InlineInfo(tiles[j], firstgid, baseUrl)
           && r[|index| + j].referenceId == tiles[j].id + firstgid
  {
    var r := IndexStep(index, Inline(firstgid, tiles), baseUrl);
    assert r[..|index|] == index;
    forall j | 0 <= j < |tiles|
      ensures r[|index| + j] == InlineInfo(tiles[j], firstgid, baseUrl)
    {
      InlineInfosAt(tiles, firstgid, baseUrl, |tiles|, j);
    }
  }

  /** With inline references only, the index grows by appending. */
  lemma {:induction false} InlineOnlyExtends(start: seq<TileInfo>, refs: seq<TilesetRef>, baseUrl: string)
    requires forall i :: 0 <= i < |refs| ==> refs[i].Inline?
    ensures start <= BuildIndex(start, refs, baseUrl)
    decreases |refs|
  {
    if refs != [] {
      var m := |refs| - 1;
      InlineOnlyExtends(start, refs[..m], baseUrl);
    }
  }

  /** Once an external reference has been met, the entries before it are
      discarded: the final index does not depend on where it started. */
  lemma {:induction false} ExternalDiscardsEarlier(s1: seq<TileInfo>, s2: seq<TileInfo>,
                                                    refs: seq<TilesetRef>, e: nat, baseUrl: string)
    requires forall i :: 0 <= i < |refs| ==> Loadable(refs[i])
    requires e < |refs| && refs[e].External?
    ensures BuildIndex(s1, refs, baseUrl) == BuildIndex(s2, refs, baseUrl)
    decreases |refs|
  {
    var m := |refs| - 1;
    if e < m {
      ExternalDiscardsEarlier(s1, s2, refs[..m], e, baseUrl);
    }
  }

  /** Two inline tilesets starting at ids 1 and 10 give the global ids 1, 2 and 10. */
  lemma GlobalIdsExample(a: TileDesc, b: TileDesc, c: TileDesc, baseUrl: string)
    requires a.id == 0 && b.id == 1 && c.id == 0
    ensures var index := BuildIndex([], [Inline(1, [a, b]), Inline(10, [c])], baseUrl);
      |index| == 3 && index[0].referenceId == 1 && index[1].referenceId == 2 && index[2].referenceId == 10
  {
    var refs := [Inline(1, [a, b]), Inline(10, [c])];
    var one := [Inline(1, [a, b])];
    assert refs[..1] == one;
    assert one[..0] == [];
    var first := BuildIndex([], one, baseUrl);
    assert first == IndexStep(BuildIndex([], one[..0], baseUrl), one[0], baseUrl);
    InlineStepAppends([], 1, [a, b], baseUrl);
    InlineStepAppends(first, 10, [c], baseUrl);
    var index := BuildIndex([], refs, baseUrl);
    assert index == IndexStep(first, Inline(10, [c]), baseUrl);
    assert [a, b][0] == a && [a, b][1] == b && [c][0] == c;
    assert first[0].referenceId == 1;
    assert first[1].referenceId == 2;
    assert index[0] == first[0] && index[1] == first[1];
    assert index[2].referenceId == 10;
  }

  // ---------------------------------------------------------------------------
  // Placing the layers

  /** The kind `init` asks every tile to generate. */
  const DefaultKind := "map"

  /** A layer with cells needs a positive width. */
  predicate Placeable(layer: Layer)
  {
    |layer.data| > 0 ==> layer.width > 0
  }

  /** The layer name lower-cases to "background". */
  predicate IsBackground(name: string)
  {
    Lower(name) == "background"
  }

  /** Horizontal pixel position of cell `j`. */
  function CellX(layer: Layer, j: nat, tilewidth: int): int
    requires layer.width > 0
  {
    (j % layer.width) * tilewidth
  }

  /** Vertical pixel position of cell `j`; the source scales the row by
      `tilewidth` as well. */
  function CellY(layer: Layer, j: nat, tilewidth: int): int
    requires layer.width > 0
  {
    (j / layer.width) * tilewidth
  }

  /** A logged unresolved cell: its id, layer index and cell position. */
  datatype Miss = Miss(id: int, layer: nat, position: nat)

  /** The three sprite groups and the log of unresolved cells. */
  datatype Output = Output(background: seq<Sprite>, visible: seq<Sprite>, obstacle: seq<Sprite>, unresolved: seq<Miss>)

  /** The sprite tile `t` generates for cell `j`. */
  function SpriteAt(t: MapTile, layer: Layer, j: nat, tilewidth: int, raycast: RayCast): Sprite
    requires layer.width > 0
  {
    t.GenerateSprite(CellX(layer, j, tilewidth), CellY(layer, j, tilewidth), DefaultKind, Some(raycast))
  }

  /** One cell: value 0 adds nothing, an unknown id is logged, a resolved tile
      adds its sprite to the background or visible group by the layer name, and
      also to the obstacle group when the tile has colliders. */
  function PlaceCell(o: Output, tiles: seq<MapTile>, layer: Layer, li: nat, j: nat,
                     tilewidth: int, raycast: RayCast): Output
    requires j < |layer.data| && layer.width > 0
  {
    var id := layer.data[j];
    match Resolve(tiles, id)
    case Blank => o
    case Unknown => o.(unresolved := o.unresolved + [Miss(id, li, j)])
    case Hit(t) =>
      var s := SpriteAt(t, layer, j, tilewidth, raycast);
      var routed := if IsBackground(layer.name) then o.(background := o.background + [s])
                    else o.(visible := o.visible + [s]);
      if |t.colliders| != 0 then routed.(obstacle := routed.obstacle + [s]) else routed
  }

  /** The first `n` cells of a layer, in row-major order. */
  function PlaceCells(o: Output, tiles: seq<MapTile>, layer: Layer, li: nat, n: nat,
                      tilewidth: int, raycast: RayCast): Output
    requires n <= |layer.data| && Placeable(layer)
  {
    if n == 0 then o
    else PlaceCell(PlaceCells(o, tiles, layer, li, n - 1, tilewidth, raycast), tiles, layer, li, n - 1, tilewidth, raycast)
  }

  /** Every layer, in order, each layer knowing its index. */
  function PlaceLayers(o: Output, tiles: seq<MapTile>, layers: seq<Layer>, tilewidth: int, raycast: RayCast): Output
    requires forall i :: 0 <= i < |layers| ==> Placeable(layers[i])
    decreases |layers|
  {
    if layers == [] then o
    else
      var m := |layers| - 1;
      var before := PlaceLayers(o, tiles, layers[..m], tilewidth, raycast);
      PlaceCells(before, tiles, layers[m], m, |layers[m].data|, tilewidth, raycast)
  }

  /** The sprite cell `j` contributes: one when its id resolves, none otherwise. */
  function CellSprite(tiles: seq<MapTile>, layer: Layer, j: nat, tilewidth: int, raycast: RayCast): seq<Sprite>
    requires j < |layer.data| && layer.width > 0
  {
    match Resolve(tiles, layer.data[j])
    case Hit(t) => [SpriteAt(t, layer, j, tilewidth, raycast)]
    case _ => []
  }

  /** The obstacle cell `j` contributes: its sprite when its tile has colliders. */
  function CellObstacle(tiles: seq<MapTile>, layer: Layer, j: nat, tilewidth: int, raycast: RayCast): seq<Sprite>
    requires j < |layer.data| && layer.width > 0
  {
    match Resolve(tiles, layer.data[j])
    case Hit(t) => if |t.colliders| != 0 then [SpriteAt(t, layer, j, tilewidth, raycast)] else []
    case _ => []
  }

  /** The log entry cell `j` contributes: one when its nonzero id is unknown. */
  function CellMiss(tiles: seq<MapTile>, layer: Layer, li: nat, j: nat): seq<Miss>
    requires j < |layer.data|
  {
    if Resolve(tiles, layer.data[j]) == Unknown then [Miss(layer.data[j], li, j)] else []
  }

  /** The sprites of the resolved cells among the first `n`, in order. */
  function Emitted(tiles: seq<MapTile>, layer: Layer, n: nat, tilewidth: int, raycast: RayCast): seq<Sprite>
    requires n <= |layer.data| && Placeable(layer)
  {
    if n == 0 then []
    else Emitted(tiles, layer, n - 1, tilewidth, raycast) + CellSprite(tiles, layer, n - 1, tilewidth, raycast)
  }

  /** The sprites of the resolved cells among the first `n` whose tile has colliders. */
  function EmittedObstacles(tiles: seq<MapTile>, layer: Layer, n: nat, tilewidth: int, raycast: RayCast): seq<Sprite>
    requires n <= |layer.data| && Placeable(layer)
  {
    if n == 0 then []
    else EmittedObstacles(tiles, layer, n - 1, tilewidth, raycast) + CellObstacle(tiles, layer, n - 1, tilewidth, raycast)
  }

  /** The unresolved nonzero cells among the first `n`, in order. */
  function Missed(tiles: seq<MapTile>, layer: Layer, li: nat, n: nat): seq<Miss>
    requires n <= |layer.data|
  {
    if n == 0 then [] else Missed(tiles, layer, li, n - 1) + CellMiss(tiles, layer, li, n - 1)
  }

  /** The number of cells with value 0. */
  function BlankCount(cells: seq<int>): nat
  {
    if cells == [] then 0 else BlankCount(cells[..|cells| - 1]) + (if cells[|cells| - 1] == 0 then 1 else 0)
  }

  /** One cell appends its contribution to each group and to the log. */
  lemma PlaceCellSplit(o: Output, tiles: seq<MapTile>, layer: Layer, li: nat, j: nat,
                       tilewidth: int, raycast: RayCast)
    requires j < |layer.data| && layer.width > 0
    ensures var c := CellSprite(tiles, layer, j, tilewidth, raycast);
      var r := PlaceCell(o, tiles, layer, li, j, tilewidth, raycast);
      && r.background == o.background + (if IsBackground(layer.name) then c else [])
      && r.visible == o.visible + (if IsBackground(layer.name) then [] else c)
      && r.obstacle == o.obstacle + CellObstacle(tiles, layer, j, tilewidth, raycast)
      && r.unresolved == o.unresolved + CellMiss(tiles, layer, li, j)
  {
    assert o.background + [] == o.background;
    assert o.visible + [] == o.visible;
    assert o.obstacle + [] == o.obstacle;
    assert o.unresolved + [] == o.unresolved;
  }

  /** A cell with value 0 or an unknown id adds no sprite to any group; an
      unknown id is logged with its layer and position. */
  lemma SkippedCellAddsNoSprite(o: Output, tiles: seq<MapTile>, layer: Layer, li: nat, j: nat,
                                tilewidth: int, raycast: RayCast)
    requires j < |layer.data| && layer.width > 0
    requires !Resolve(tiles, layer.data[j]).Hit?
    ensures var r := PlaceCell(o, tiles, layer, li, j, tilewidth, raycast);
      && r.background == o.background && r.visible == o.visible && r.obstacle == o.obstacle
      && r.unresolved == o.unresolved + (if layer.data[j] == 0 then [] else [Miss(layer.data[j], li, j)])
  {
    assert o.unresolved + [] == o.unresolved;
  }

  /** A resolved cell adds its tile's sprite, generated at the cell's position
      with kind "map", to the background group when the layer is named
      "background" and to the visible group otherwise, and to the obstacle
      group exactly when the tile has colliders. */
  lemma ResolvedCellRoutes(o: Output, tiles: seq<MapTile>, layer: Layer, li: nat, j: nat,
                           tilewidth: int, raycast: RayCast)
    requires j < |layer.data| && layer.width > 0
    requires Resolve(tiles, layer.data[j]).Hit?
    ensures var t := Resolve(tiles, layer.data[j]).tile;
      var s := t.GenerateSprite(CellX(layer, j, tilewidth), CellY(layer, j, tilewidth), DefaultKind, Some(raycast));
      var r := PlaceCell(o, tiles, layer, li, j, tilewidth, raycast);
      && (IsBackground(layer.name) ==> r.background == o.background + [s] && r.visible == o.visible)
      && (!IsBackground(layer.name) ==> r.visible == o.visible + [s] && r.background == o.background)
      && r.obstacle == (if |t.colliders| != 0 then o.obstacle + [s] else o.obstacle)
      && r.unresolved == o.unresolved
  {
  }

  /** A layer's background group grows by all its emitted sprites when its
      name is "background" (in any case), and by none otherwise. */
  lemma {:induction false} PlaceCellsBackground(o: Output, tiles: seq<MapTile>, layer: Layer, li: nat, n: nat,
                                                tilewidth: int, raycast: RayCast)
    requires n <= |layer.data| && Placeable(layer)
    ensures PlaceCells(o, tiles, layer, li, n, tilewidth, raycast).background ==
            o.background + (if IsBackground(layer.name) then Emitted(tiles, layer, n, tilewidth, raycast) else [])
  {
    if n == 0 {
      assert o.background + [] == o.background;
    } else {
      var prev := PlaceCells(o, tiles, layer, li, n - 1, tilewidth, raycast);
      PlaceCellsBackground(o, tiles, layer, li, n - 1, tilewidth, raycast);
      PlaceCellSplit(prev, tiles, layer, li, n - 1, tilewidth, raycast);
      var e := Emitted(tiles, layer, n - 1, tilewidth, raycast);
      var c := CellSprite(tiles, layer, n - 1, tilewidth, raycast);
      if IsBackground(layer.name) {
        assert o.background + e + c == o.background + (e + c);
      } else {
        assert o.background + [] + [] == o.background + [];
      }
    }
  }

  /** A layer's visible group grows by all its emitted sprites when its name
      is not "background", and by none otherwise. */
  lemma {:induction false} PlaceCellsVisible(o: Output, tiles: seq<MapTile>, layer: Layer, li: nat, n: nat,
                                             tilewidth: int, raycast: RayCast)
    requires n <= |layer.data| && Placeable(layer)
    ensures PlaceCells(o, tiles, layer, li, n, tilewidth, raycast).visible ==
            o.visible + (if IsBackground(layer.name) then [] else Emitted(tiles, layer, n, tilewidth, raycast))
  {
    if n == 0 {
      assert o.visible + [] == o.visible;
    } else {
      var prev := PlaceCells(o, tiles, layer, li, n - 1, tilewidth, raycast);
      PlaceCellsVisible(o, tiles, layer, li, n - 1, tilewidth, raycast);
      PlaceCellSplit(prev, tiles, layer, li, n - 1, tilewidth, raycast);
      var e := Emitted(tiles, layer, n - 1, tilewidth, raycast);
      var c := CellSprite(tiles, layer, n - 1, tilewidth, raycast);
      if IsBackground(layer.name) {
        assert o.visible + [] + [] == o.visible + [];
      } else {
        assert o.visible + e + c == o.visible + (e + c);
      }
    }
  }

  /** A layer's obstacle group grows by the emitted sprites of tiles with colliders. */
  lemma {:induction false} PlaceCellsObstacle(o: Output, tiles: seq<MapTile>, layer: Layer, li: nat, n: nat,
                                              tilewidth: int, raycast: RayCast)
    requires n <= |layer.data| && Placeable(layer)
    ensures PlaceCells(o, tiles, layer, li, n, tilewidth, raycast).obstacle ==
            o.obstacle + EmittedObstacles(tiles, layer, n, tilewidth, raycast)
  {
    if n == 0 {
      assert o.obstacle + [] == o.obstacle;
    } else {
      var prev := PlaceCells(o, tiles, layer, li, n - 1, tilewidth, raycast);
      PlaceCellsObstacle(o, tiles, layer, li, n - 1, tilewidth, raycast);
      PlaceCellSplit(prev, tiles, layer, li, n - 1, tilewidth, raycast);
      var p := EmittedObstacles(tiles, layer, n - 1, tilewidth, raycast);
      var c := CellObstacle(tiles, layer, n - 1, tilewidth, raycast);
      assert o.obstacle + p + c == o.obstacle + (p + c);
    }
  }

  /** A layer's unresolved cells are appended to the log, in order. */
  lemma {:induction false} PlaceCellsUnresolved(o: Output, tiles: seq<MapTile>, layer: Layer, li: nat, n: nat,
                                                tilewidth: int, raycast: RayCast)
    requires n <= |layer.data| && Placeable(layer)
    ensures PlaceCells(o, tiles, layer, li, n, tilewidth, raycast).unresolved ==
            o.unresolved + Missed(tiles, layer, li, n)
  {
    if n == 0 {
      assert o.unresolved + [] == o.unresolved;
    } else {
      var prev := PlaceCells(o, tiles, layer, li, n - 1, tilewidth, raycast);
      PlaceCellsUnresolved(o, tiles, layer, li, n - 1, tilewidth, raycast);
      PlaceCellSplit(prev, tiles, layer, li, n - 1, tilewidth, raycast);
      var q := Missed(tiles, layer, li, n - 1);
      var c := CellMiss(tiles, layer, li, n - 1);
      assert o.unresolved + q + c == o.unresolved + (q + c);
    }
  }

  /** Group by group, a layer appends: all its emitted sprites to exactly one
      of background and visible (chosen by its name), the emitted sprites of
      tiles with colliders to obstacle, and its unresolved cells to the log. */
  lemma PlaceCellsByGroup(o: Output, tiles: seq<MapTile>, layer: Layer, li: nat, n: nat,
                          tilewidth: int, raycast: RayCast)
    requires n <= |layer.data| && Placeable(layer)
    ensures var e := Emitted(tiles, layer, n, tilewidth, raycast);
      PlaceCells(o, tiles, layer, li, n, tilewidth, raycast) ==
        Output(o.background + (if IsBackground(layer.name) then e else []),
               o.visible + (if IsBackground(layer.name) then [] else e),
               o.obstacle + EmittedObstacles(tiles, layer, n, tilewidth, raycast),
               o.unresolved + Missed(tiles, layer, li, n))
  {
    PlaceCellsBackground(o, tiles, layer, li, n, tilewidth, raycast);
    PlaceCellsVisible(o, tiles, layer, li, n, tilewidth, raycast);
    PlaceCellsObstacle(o, tiles, layer, li, n, tilewidth, raycast);
    PlaceCellsUnresolved(o, tiles, layer, li, n, tilewidth, raycast);
  }

  /** Every cell is exactly one of: emitted as a sprite, logged as unresolved, or blank. */
  lemma {:induction false} CellsPartition(tiles: seq<MapTile>, layer: Layer, li: nat, n: nat,
                                          tilewidth: int, raycast: RayCast)
    requires n <= |layer.data| && Placeable(layer)
    ensures |Emitted(tiles, layer, n, tilewidth, raycast)| + |Missed(tiles, layer, li, n)|
            + BlankCount(layer.data[..n]) == n
  {
    if n > 0 {
      CellsPartition(tiles, layer, li, n - 1, tilewidth, raycast);
      assert layer.data[..n][..n - 1] == layer.data[..n - 1];
    }
  }

  /** Obstacle sprites are some of the emitted sprites. */
  lemma {:induction false} ObstaclesAmongEmitted(tiles: seq<MapTile>, layer: Layer, n: nat,
                                                 tilewidth: int, raycast: RayCast)
    requires n <= |layer.data| && Placeable(layer)
    ensures multiset(EmittedObstacles(tiles, layer, n, tilewidth, raycast))
            <= multiset(Emitted(tiles, layer, n, tilewidth, raycast))
  {
    if n > 0 {
      ObstaclesAmongEmitted(tiles, layer, n - 1, tilewidth, raycast);
    }
  }

  /** Routing ignores the case of the layer name. */
  lemma {:induction false} RoutingIgnoresCase(o: Output, tiles: seq<MapTile>, layer: Layer, name: string,
                                              li: nat, n: nat, tilewidth: int, raycast: RayCast)
    requires n <= |layer.data| && Placeable(layer)
    requires Lower(name) == Lower(layer.name)
    ensures PlaceCells(o, tiles, layer.(name := name), li, n, tilewidth, raycast)
            == PlaceCells(o, tiles, layer, li, n, tilewidth, raycast)
  {
    if n > 0 {
      RoutingIgnoresCase(o, tiles, layer, name, li, n - 1, tilewidth, raycast);
    }
  }

  /** The groups and the log only grow, by appending. */
  ghost predicate Extends(o: Output, o': Output)
  {
    o.background <= o'.background && o.visible <= o'.visible
    && o.obstacle <= o'.obstacle && o.unresolved <= o'.unresolved
  }

  /** Placing all layers only appends to the groups and the log. */
  lemma {:induction false} PlaceLayersExtends(o: Output, tiles: seq<MapTile>, layers: seq<Layer>,
                                              tilewidth: int, raycast: RayCast)
    requires forall i :: 0 <= i < |layers| ==> Placeable(layers[i])
    ensures Extends(o, PlaceLayers(o, tiles, layers, tilewidth, raycast))
    decreases |layers|
  {
    if layers != [] {
      var m := |layers| - 1;
      var before := PlaceLayers(o, tiles, layers[..m], tilewidth, raycast);
      PlaceLayersExtends(o, tiles, layers[..m], tilewidth, raycast);
      PlaceCellsByGroup(before, tiles, layers[m], m, |layers[m].data|, tilewidth, raycast);
    }
  }

  /** Cells drawn at the same position are the same cell (for a positive
      tile width): no two cells of a layer overlap. */
  lemma CellPositionsInjective(layer: Layer, j1: nat, j2: nat, tilewidth: int)
    requires layer.width > 0 && tilewidth > 0
    requires CellX(layer, j1, tilewidth) == CellX(layer, j2, tilewidth)
    requires CellY(layer, j1, tilewidth) == CellY(layer, j2, tilewidth)
    ensures j1 == j2
  {
    var w := layer.width;
    MulCancel(j1 % w, j2 % w, tilewidth);
    MulCancel(j1 / w, j2 / w, tilewidth);
    assert j1 == (j1 / w) * w + j1 % w;
    assert j2 == (j2 / w) * w + j2 % w;
  }

  lemma MulMonotonic(a: int, b: int, c: int)
    requires c > 0
    ensures a < b ==> a * c < b * c
  {
    if a < b {
      assert b * c - a * c == (b - a) * c;
    }
  }

  lemma MulCancel(a: int, b: int, c: int)
    requires c > 0 && a * c == b * c
    ensures a == b
  {
    MulMonotonic(a, b, c);
    MulMonotonic(b, a, c);
  }

  /** A well-formed map document: external atlases have a width and layers
      with cells have a width. */
  predicate WellFormed(data: MapDoc)
  {
    && (forall i :: 0 <= i < |data.tilesets| ==> Loadable(data.tilesets[i]))
    && (forall i :: 0 <= i < |data.layers| ==> Placeable(data.layers[i]))
  }

  // ---------------------------------------------------------------------------
  // The map

  /** The level, built when the map document arrives. The three sprite groups
      are handed in by the caller; the completion callback is modelled by
      `callbackLog`, which records the value of `fullLoaded` at each call. */
  class TileMap {
    var backgroundGroup: seq<Sprite>
    var visibleGroup: seq<Sprite>
    var obstacleGroup: seq<Sprite>
    /** The cells `init` logs as unresolved. */
    var unresolved: seq<Miss>
    const raycast: RayCast
    var totalWidth: int
    var totalHeight: int
    var tilewidth: int
    var fullLoaded: bool
    var callbackLog: seq<bool>
    var tileset: seq<MapTile>
    const jsonUrl: string
    const baseUrl: string

    function Groups(): Output
      reads this
    {
      Output(backgroundGroup, visibleGroup, obstacleGroup, unresolved)
    }

    /** The constructor. The source also starts loading `jsonUrl` here, with
        `init` as the completion; that load is the caller's, who then runs `Init`. */
    constructor (jsonUrl: string, backgroundGroup: seq<Sprite>, visibleGroup: seq<Sprite>, obstacleGroup: seq<Sprite>)
      ensures Groups() == Output(backgroundGroup, visibleGroup, obstacleGroup, [])
      ensures totalWidth == 0 && totalHeight == 0 && tilewidth == 0
      ensures !fullLoaded && callbackLog == [] && tileset == []
      ensures this.jsonUrl == jsonUrl && IsBasename(jsonUrl, baseUrl)
    {
      this.backgroundGroup := backgroundGroup;
      this.visibleGroup := visibleGroup;
      this.obstacleGroup := obstacleGroup;
      unresolved := [];
      raycast := RayCast;
      totalWidth := 0;
      totalHeight := 0;
      tilewidth := 0;
      fullLoaded := false;
      callbackLog := [];
      tileset := [];
      this.jsonUrl := jsonUrl;
      var base := GetBasename(jsonUrl);
      baseUrl := base;
    }

    /** `get_tile`: a linear first-match scan of the index. */
    method GetTile(id: int) returns (r: Lookup)
      ensures r == Resolve(tileset, id)
    {
      if id == 0 {
        return Blank;
      }
      var i := 0;
      while i < |tileset|
        invariant 0 <= i <= |tileset|
        invariant forall m :: 0 <= m < i ==> tileset[m].referenceId != id
      {
        if tileset[i].referenceId == id {
          return Hit(tileset[i]);
        }
        i := i + 1;
      }
      return Unknown;
    }

    /** `init`: records the map size, builds the tile index from the tileset
        references, places every layer, then calls back once and sets
        `fullLoaded`. */
    method Init(data: MapDoc)
      requires WellFormed(data)
      modifies this
      ensures totalHeight == data.height && totalWidth == data.width && tilewidth == data.tilewidth
      ensures Infos(tileset) == BuildIndex(Infos(old(tileset)), data.tilesets, baseUrl)
      ensures Groups() == PlaceLayers(old(Groups()), tileset, data.layers, data.tilewidth, raycast)
      ensures callbackLog == old(callbackLog) + [old(fullLoaded)] && fullLoaded
    {
      totalHeight := data.height;
      totalWidth := data.width;
      tilewidth := data.tilewidth;
      LoadTilesets(data.tilesets);
      ghost var index := tileset;
      PlaceAllLayers(data.layers);
      assert tileset == index;
      callbackLog := callbackLog + [fullLoaded];
      fullLoaded := true;
    }

    /** The tileset loop of `init`. An external tileset is loaded
        synchronously and its tile list replaces the index. */
    method LoadTilesets(refs: seq<TilesetRef>)
      requires forall i :: 0 <= i < |refs| ==> Loadable(refs[i])
      modifies this`tileset
      ensures Infos(tileset) == BuildIndex(Infos(old(tileset)), refs, baseUrl)
    {
      var i := 0;
      while i < |refs|
        invariant 0 <= i <= |refs|
        invariant Infos(tileset) == BuildIndex(Infos(old(tileset)), refs[..i], baseUrl)
      {
        assert refs[..i + 1][..i] == refs[..i];
        match refs[i] {
          case External(firstgid, source, doc) =>
            var completeTileset := new TileSet(source, baseUrl, firstgid, true);
            completeTileset.Init(doc);
            tileset := completeTileset.tileList;
          case Inline(firstgid, tiles) =>
            AddInlineTiles(firstgid, tiles);
        }
        i := i + 1;
      }
      assert refs[..i] == refs;
    }

    /** The layer loop of `init`. */
    method PlaceAllLayers(layers: seq<Layer>)
      requires forall i :: 0 <= i < |layers| ==> Placeable(layers[i])
      modifies this`backgroundGroup, this`visibleGroup, this`obstacleGroup, this`unresolved
      ensures Groups() == PlaceLayers(old(Groups()), tileset, layers, tilewidth, raycast)
    {
      var i := 0;
      while i < |layers|
        invariant 0 <= i <= |layers|
        invariant Groups() == PlaceLayers(old(Groups()), tileset, layers[..i], tilewidth, raycast)
      {
        assert layers[..i + 1][..i] == layers[..i];
        PlaceLayer(layers[i], i);
        i := i + 1;
      }
      assert layers[..i] == layers;
    }

    /** The inline branch of `init`: one tile per descriptor, with its own
        image next to the map and the global id `id + firstgid`. */
    method AddInlineTiles(firstgid: int, tiles: seq<TileDesc>)
      modifies this`tileset
      ensures Infos(tileset) == Infos(old(tileset)) + InlineInfos(tiles, firstgid, baseUrl, |tiles|)
    {
      ghost var before := Infos(tileset);
      var j := 0;
      while j < |tiles|
        invariant 0 <= j <= |tiles|
        invariant Infos(tileset) == before + InlineInfos(tiles, firstgid, baseUrl, j)
      {
        var tile := new MapTile(baseUrl + "/" + tiles[j].image, tiles[j].id + firstgid,
                                tiles[j].imagewidth, tiles[j].imageheight, tiles[j]);
        ghost var prev := tileset;
        tileset := tileset + [tile];
        assert tileset[..|tileset| - 1] == prev;
        j := j + 1;
      }
    }

    /** The cell loop of `init` for layer number `li`. */
    method PlaceLayer(layer: Layer, li: nat)
      requires Placeable(layer)
      modifies this`backgroundGroup, this`visibleGroup, this`obstacleGroup, this`unresolved
      ensures Groups() == PlaceCells(old(Groups()), tileset, layer, li, |layer.data|, tilewidth, raycast)
    {
      var lwidth := layer.width;
      var j := 0;
      while j < |layer.data|
        invariant 0 <= j <= |layer.data|
        invariant Groups() == PlaceCells(old(Groups()), tileset, layer, li, j, tilewidth, raycast)
      {
        var x := (j % lwidth) * tilewidth;
        var y := (j / lwidth) * tilewidth;
        var tile := GetTile(layer.data[j]);
        match tile {
          case Unknown =>
            unresolved := unresolved + [Miss(layer.data[j], li, j)];
          case Blank =>
          case Hit(t) =>
            var tileSprite := t.GenerateSprite(x, y, DefaultKind, Some(raycast));
            if Lower(layer.name) == "background" {
              backgroundGroup := backgroundGroup + [tileSprite];
            } else {
              visibleGroup := visibleGroup + [tileSprite];
            }
            if |t.colliders| != 0 {
              obstacleGroup := obstacleGroup + [tileSprite];
            }
        }
        j := j + 1;
      }
    }
  }
}
