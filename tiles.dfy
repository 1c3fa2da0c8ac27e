/** Tile definitions (`MapTile`), tilesets loaded from an external document
    (`TileSet`), collision rectangles and sprite generation. */
module Tiles {
  import opened Documents
  import opened Text

  /** The collision rectangle collaborator: position and size. */
  datatype Rect = Rect(x: int, y: int, width: int, height: int)

  /** An image resource, known by the path it is loaded from. */
  datatype Image = Image(src: string)

  /** The ray-casting index over the obstacle group, an opaque collaborator. */
  datatype RayCast = RayCast

  /** The atlas sub-region a spritesheet tile is drawn from. */
  datatype Region = Region(startX: int, startY: int, width: int, height: int)

  /** What `generate_sprite` produces: the wolf entity, or a static sprite with
      its kind, image, collider list and, for atlas tiles, the atlas region. */
  datatype Sprite =
    | Wolf(x: int, y: int, raycast: Option<RayCast>)
    | Static(x: int, y: int, kind: string, image: Image, colliders: seq<Rect>, region: Option<Region>)

  // ---------------------------------------------------------------------------
  // Colliders

  /** An object whose class lower-cases to "collision". */
  predicate IsCollision(o: Obj)
  {
    Lower(o.cls) == "collision"
  }

  /** The rectangle made from a collision object, every coordinate floored. */
  function RectOf(o: Obj): Rect
  {
    Rect(o.x.Floor, o.y.Floor, o.width.Floor, o.height.Floor)
  }

  /** The rectangles of the collision objects of `objs`, in their order. */
  function CollisionRects(objs: seq<Obj>): (r: seq<Rect>)
    ensures |r| <= |objs|
    ensures (forall i :: 0 <= i < |objs| ==> !IsCollision(objs[i])) ==> r == []
    decreases |objs|
  {
    if objs == [] then []
    else
      var last := objs[|objs| - 1];
      CollisionRects(objs[..|objs| - 1]) + (if IsCollision(last) then [RectOf(last)] else [])
  }

  /** The colliders `load_colliders` extracts from a descriptor: none without
      an `objectgroup`. */
  function Colliders(d: TileDesc): seq<Rect>
  {
    match d.objectgroup
    case None => []
    case Some(objs) => CollisionRects(objs)
  }

  /** Extraction preserves source order: the objects of `a` contribute before those of `b`. */
  lemma {:induction false} CollisionRectsAppend(a: seq<Obj>, b: seq<Obj>)
    ensures CollisionRects(a + b) == CollisionRects(a) + CollisionRects(b)
    decreases |b|
  {
    if b == [] {
      assert a + b == a;
    } else {
      var b' := b[..|b| - 1];
      assert (a + b)[..|a + b| - 1] == a + b';
      CollisionRectsAppend(a, b');
    }
  }

  /** A rectangle is extracted exactly when some collision object of `objs` floors to it. */
  lemma {:induction false} CollisionRectsMembers(objs: seq<Obj>, r: Rect)
    ensures r in CollisionRects(objs) <==> exists o :: o in objs && IsCollision(o) && RectOf(o) == r
    decreases |objs|
  {
    if objs != [] {
      var init := objs[..|objs| - 1];
      CollisionRectsMembers(init, r);
      assert forall o :: o in objs <==> o in init || o == objs[|objs| - 1];
    }
  }

  /** When every object is a collision object, one rectangle per object comes out, in order. */
  lemma {:induction false} CollisionRectsAllCollision(objs: seq<Obj>)
    requires forall i :: 0 <= i < |objs| ==> IsCollision(objs[i])
    ensures |CollisionRects(objs)| == |objs|
    ensures forall i :: 0 <= i < |objs| ==> CollisionRects(objs)[i] == RectOf(objs[i])
    decreases |objs|
  {
    if objs != [] {
      CollisionRectsAllCollision(objs[..|objs| - 1]);
    }
  }

  // ---------------------------------------------------------------------------
  // Tile definitions and sprite generation

  /** The value of a `MapTile`'s fields. */
  datatype TileInfo = TileInfo(
    image: Image,
    referenceId: int,
    spritesheet: bool,
    customType: Option<string>,
    colliders: seq<Rect>,
    width: int,
    height: int,
    startX: int,
    startY: int)

  /** A tile definition. Its fields are fixed once one of its two constructors
      has run (the image `loaded` flag, set asynchronously, is not modelled). */
  class MapTile {
    const image: Image
    const referenceId: int
    const spritesheet: bool
    const customType: Option<string>
    const colliders: seq<Rect>
    const width: int
    const height: int
    const startX: int
    const startY: int

    function Info(): TileInfo
    {
      TileInfo(image, referenceId, spritesheet, customType, colliders, width, height, startX, startY)
    }

    /** The constructor for a tile with its own image. `customType` stays null
        unless the descriptor has a `class`. */
    constructor (imgSrc: string, referenceId: int, width: int, height: int, totalInfo: TileDesc)
      ensures Info() == TileInfo(Image(imgSrc), referenceId, false, totalInfo.cls,
                                 Colliders(totalInfo), width, height, 0, 0)
    {
      spritesheet := false;
      image := Image(imgSrc);
      this.referenceId := referenceId;
      var rects := LoadColliders([], totalInfo);
      colliders := rects;
      customType := totalInfo.cls;
      this.width := width;
      this.height := height;
      startX := 0;
      startY := 0;
    }

    /** `FromTileset`, a tile cut from a shared atlas image. The source declares
        it as a static method and calls it with `new`; it is modelled as the
        constructor it is evidently meant to be. */
    constructor FromTileset(imgObj: Image, referenceId: int, width: int, height: int,
                            startX: int, startY: int, totalInfo: TileDesc)
      ensures Info() == TileInfo(imgObj, referenceId, true, totalInfo.cls,
                                 Colliders(totalInfo), width, height, startX, startY)
    {
      image := imgObj;
      this.referenceId := referenceId;
      spritesheet := true;
      this.width := width;
      this.height := height;
      this.startX := startX;
      this.startY := startY;
      var rects := LoadColliders([], totalInfo);
      colliders := rects;
      customType := totalInfo.cls;
    }

    /** `load_colliders`: pushes one floored rectangle per collision object of
        the descriptor onto the collider list, in order. Both constructors run
        it on the empty list and store the result as `colliders`. */
    static method LoadColliders(colliders: seq<Rect>, totalInfo: TileDesc) returns (r: seq<Rect>)
      ensures r == colliders + Colliders(totalInfo)
    {
      r := colliders;
      if totalInfo.objectgroup.Some? {
        var objects := totalInfo.objectgroup.value;
        var i := 0;
        while i < |objects|
          invariant 0 <= i <= |objects|
          invariant r == colliders + CollisionRects(objects[..i])
        {
          var obj := objects[i];
          assert objects[..i + 1][..i] == objects[..i];
          if IsCollision(obj) {
            r := r + [RectOf(obj)];
          }
          i := i + 1;
        }
        assert objects[..i] == objects;
      }
    }

    /** `generate_sprite(x, y, kind, raycast)`. A "wolf" tile becomes a Wolf
        entity 16 pixels lower; any other tile a static sprite whose kind is the
        tile's class when it has one, sharing the tile's image and colliders,
        with the atlas region attached exactly for spritesheet tiles. The source
        passes `this.tile_width`/`this.tile_height` as the region size, fields a
        MapTile never sets; the region here carries `width` and `height`. */
    function GenerateSprite(x: int, y: int, kind: string, raycast: Option<RayCast>): (s: Sprite)
      ensures s.Wolf? <==> customType == Some("wolf")
      ensures s.Wolf? ==> s == Wolf(x, y + 16, raycast)
      ensures s.Static? ==> s.x == x && s.y == y && s.image == image && s.colliders == colliders
      ensures s.Static? ==> s.kind == (if customType.Some? then customType.value else kind)
      ensures s.Static? ==> (s.region.Some? <==> spritesheet)
      ensures s.Static? && spritesheet ==> s.region == Some(Region(startX, startY, width, height))
    {
      if customType == Some("wolf") then
        Wolf(x, y + 16, raycast)
      else
        var k := if customType.Some? then customType.value else kind;
        Static(x, y, k, image, colliders, if spritesheet then Some(Region(startX, startY, width, height)) else None)
    }
  }

  /** The values of a sequence of tile objects. */
  function Infos(tiles: seq<MapTile>): (r: seq<TileInfo>)
    ensures |r| == |tiles|
  {
    if tiles == [] then [] else Infos(tiles[..|tiles| - 1]) + [tiles[|tiles| - 1].Info()]
  }

  /** Entry `i` of `Infos(tiles)` is the value of `tiles[i]`. */
  lemma {:induction false} InfosAt(tiles: seq<MapTile>, i: nat)
    requires i < |tiles|
    ensures Infos(tiles)[i] == tiles[i].Info()
  {
    if i < |tiles| - 1 {
      InfosAt(tiles[..|tiles| - 1], i);
    }
  }

  // ---------------------------------------------------------------------------
  // External tilesets

  /** The atlas offset of tile `i`, exactly as the tileset loader computes it:
      `start_x = ((tile_width + spacing) * i) % imagewidth`, then the row is
      taken from the already reduced `start_x`, so it is always 0 and so is
      `start_y`. */
  function AtlasOffset(tileWidth: nat, tileHeight: nat, spacing: nat, imageWidth: nat, i: nat): (r: (nat, nat))
    requires imageWidth > 0
    ensures r.0 < imageWidth
    ensures r.1 == 0
  {
    var startX := ((tileWidth + spacing) * i) % imageWidth;
    var row := startX / imageWidth;
    (startX, (tileHeight + spacing) * row)
  }

  /** The tile at index 5 of a 64-pixel-wide atlas of 16-pixel tiles: column
      16, and row 0 (a row-major atlas scan would put it on the second row). */
  lemma AtlasTileFive(tileHeight: nat)
    ensures AtlasOffset(16, tileHeight, 0, 64, 5) == (16, 0)
  {
  }

  /** Tile `i` of an external tileset whose ids start at `startingIndex`. */
  function AtlasTile(data: TilesetDoc, startingIndex: int, img: Image, i: nat): TileInfo
    requires i < |data.tiles| && data.imagewidth > 0
  {
    var offset := AtlasOffset(data.tilewidth, data.tileheight, data.spacing, data.imagewidth, i);
    var d := data.tiles[i];
    TileInfo(img, d.id + startingIndex, true, d.cls, Colliders(d),
             data.tilewidth, data.tileheight, offset.0, offset.1)
  }

  /** The number of tiles the loader builds: `tilecount`, cut short where the
      descriptor list ends. */
  function BuiltCount(data: TilesetDoc): nat
  {
    if data.tilecount <= |data.tiles| then data.tilecount else |data.tiles|
  }

  /** The first `n` tiles an external tileset contributes, in index order. */
  function AtlasInfos(data: TilesetDoc, startingIndex: int, img: Image, n: nat): (r: seq<TileInfo>)
    requires data.imagewidth > 0 && n <= BuiltCount(data)
    ensures |r| == n
  {
    if n == 0 then [] else AtlasInfos(data, startingIndex, img, n - 1) + [AtlasTile(data, startingIndex, img, n - 1)]
  }

  /** Tile `i` of an external tileset: id shifted by the starting index, a
      spritesheet tile on the shared image, cut at column
      `((tile_width + spacing) * i) % imagewidth` (inside the image) of row 0,
      with the descriptor's class and colliders. */
  lemma {:induction false} AtlasInfosAt(data: TilesetDoc, startingIndex: int, img: Image, n: nat, i: nat)
    requires data.imagewidth > 0 && n <= BuiltCount(data) && i < n
    ensures var t := AtlasInfos(data, startingIndex, img, n)[i];
      && t.referenceId == data.tiles[i].id + startingIndex
      && t.spritesheet && t.image == img
      && t.startX == ((data.tilewidth + data.spacing) * i) % data.imagewidth
      && t.startX < data.imagewidth && t.startY == 0
      && t.width == data.tilewidth && t.height == data.tileheight
      && t.customType == data.tiles[i].cls && t.colliders == Colliders(data.tiles[i])
  {
    if i < n - 1 {
      AtlasInfosAt(data, startingIndex, img, n - 1, i);
    }
  }

  /** The path of the tileset's JSON document: `base_dir + "/" + path`, with the
      first ".tsx" of `path` turned into ".json" when `jsonForce` is set. */
  function TilesetUrl(path: string, baseDir: string, jsonForce: bool): string
  {
    baseDir + "/" + (if jsonForce then ReplaceFirst(path, ".tsx", ".json") else path)
  }

  /** A tileset loaded from an external document. */
  class TileSet {
    var tileList: seq<MapTile>
    var tileCount: nat
    var tileWidth: nat
    var tileHeight: nat
    var image: Option<Image>
    var spacing: nat
    var columns: nat
    var rows: nat
    var startingIndex: int
    var jsonUrl: string
    var baseUrl: string
    /** Set when the document's descriptor count differs from its `tilecount`
        (the source logs and alerts). */
    var countError: bool

    constructor (path: string, baseDir: string, startingIndex: int, jsonForce: bool)
      ensures tileList == [] && tileCount == 0 && tileWidth == 0 && tileHeight == 0
      ensures image == None && spacing == 0 && columns == 0 && rows == 0 && !countError
      ensures this.startingIndex == startingIndex && baseUrl == baseDir
      ensures jsonUrl == TilesetUrl(path, baseDir, jsonForce)
    {
      tileList := [];
      tileCount := 0;
      tileWidth := 0;
      tileHeight := 0;
      image := None;
      spacing := 0;
      columns := 0;
      rows := 0;
      countError := false;
      this.startingIndex := startingIndex;
      var p := if jsonForce then ReplaceFirst(path, ".tsx", ".json") else path;
      jsonUrl := baseDir + "/" + p;
      baseUrl := baseDir;
    }

    /** `init`, run on the loaded document: records its sizes, creates the
        shared atlas image and appends one atlas tile per index below
        `tilecount`. The source compares `length(data.tiles)`, an undefined
        function, and passes the undefined `total_info` to each tile; the
        model compares `data.tiles.length` and passes the current descriptor.
        When `tilecount` exceeds the descriptors, the source fails reading the
        missing descriptor; the model stops there with the tiles built so far.
        */
    method Init(data: TilesetDoc)
      requires data.imagewidth > 0
      modifies this
      ensures tileCount == data.tilecount && tileWidth == data.tilewidth
      ensures tileHeight == data.tileheight && spacing == data.spacing
      ensures image == Some(Image(baseUrl + "/" + data.image))
      ensures countError == (old(countError) || |data.tiles| != data.tilecount)
      ensures Infos(tileList) == Infos(old(tileList)) + AtlasInfos(data, startingIndex, Image(baseUrl + "/" + data.image), BuiltCount(data))
      ensures columns == old(columns) && rows == old(rows) && startingIndex == old(startingIndex)
      ensures jsonUrl == old(jsonUrl) && baseUrl == old(baseUrl)
    {
      SetSizes(data);
      var img := Image(baseUrl + "/" + data.image);
      image := Some(img);

      if |data.tiles| != tileCount {
        countError := true;
      }

      AddAtlasTiles(data, img);
    }

    /** The first lines of `init`: the sizes recorded from the document. */
    method SetSizes(data: TilesetDoc)
      modifies this`tileCount, this`tileWidth, this`tileHeight, this`spacing
      ensures tileCount == data.tilecount && tileWidth == data.tilewidth
      ensures tileHeight == data.tileheight && spacing == data.spacing
    {
      tileCount := data.tilecount;
      tileWidth := data.tilewidth;
      tileHeight := data.tileheight;
      spacing := data.spacing;
    }

    /** The tile loop of `init`: one atlas tile per index below `tilecount`,
        each from the descriptor at that index, appended to `tileList`. */
    method AddAtlasTiles(data: TilesetDoc, img: Image)
      requires data.imagewidth > 0
      requires tileCount == data.tilecount && tileWidth == data.tilewidth
      requires tileHeight == data.tileheight && spacing == data.spacing
      modifies this`tileList
      ensures Infos(tileList) == Infos(old(tileList)) + AtlasInfos(data, startingIndex, img, BuiltCount(data))
    {
      ghost var before := Infos(tileList);
      var i := 0;
      // The source loops up to tile_count; reading a descriptor past the end
      // of data.tiles fails there, so the loop also ends at that point.
      while i < tileCount && i < |data.tiles|
        invariant 0 <= i <= BuiltCount(data)
        invariant Infos(tileList) == before + AtlasInfos(data, startingIndex, img, i)
      {
        var currentTile := data.tiles[i];
        var offset := AtlasOffset(tileWidth, tileHeight, spacing, data.imagewidth, i);
        var tile := new MapTile.FromTileset(img, currentTile.id + startingIndex,
                                            tileWidth, tileHeight, offset.0, offset.1, currentTile);
        ghost var prev := tileList;
        tileList := tileList + [tile];
        assert tileList[..|tileList| - 1] == prev;
        i := i + 1;
      }
    }
  }
}
