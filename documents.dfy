/** The parsed Tiled-style JSON documents the level loader consumes: the map
    document, its tileset references (inline or external), the external
    tileset document, layers, raw tile descriptors and their collision objects.
    A field that JSON may omit is an Option. */
module Documents {

  datatype Option<+T> = None | Some(value: T)

  /** One object of a tile's `objectgroup`: its `class` and its box, in
      unrounded pixel coordinates. */
  datatype Obj = Obj(cls: string, x: real, y: real, width: real, height: real)

  /** A raw tile descriptor `{id, image, imagewidth, imageheight, class?, objectgroup?}`;
      `objectgroup` holds the list `objectgroup.objects`. */
  datatype TileDesc = TileDesc(
    id: int,
    image: string,
    imagewidth: int,
    imageheight: int,
    cls: Option<string>,
    objectgroup: Option<seq<Obj>>)

  /** An external tileset document. */
  datatype TilesetDoc = TilesetDoc(
    tilecount: nat,
    tilewidth: nat,
    tileheight: nat,
    spacing: nat,
    image: string,
    imagewidth: nat,
    imageheight: nat,
    tiles: seq<TileDesc>)

  /** A tileset reference of the map: either its tiles inline, or a `source`
      path naming an external tileset document (given here already loaded). */
  datatype TilesetRef =
    | Inline(firstgid: int, tiles: seq<TileDesc>)
    | External(firstgid: int, source: string, doc: TilesetDoc)

  /** A layer: its name, its size in tiles and its row-major cell values
      (0 for an empty cell, otherwise a global tile id). */
  datatype Layer = Layer(name: string, width: nat, height: nat, data: seq<int>)

  /** The map document. */
  datatype MapDoc = MapDoc(
    width: int,
    height: int,
    tilewidth: int,
    tilesets: seq<TilesetRef>,
    layers: seq<Layer>)
}
