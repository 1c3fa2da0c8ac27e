# Tile map loader model

This project models the level builder of a small browser game, `src/tilemap.js`.
It takes a map document already parsed from Tiled-style JSON and produces two things:

- a tile index, built from the map's tileset references (inline tile lists, or external tileset documents cut from one atlas image);
- sprites placed cell by cell and sorted into a background group, a visible group and an obstacle group.

The model has four modules:

- `Text` (`text.dfy`): the two JavaScript string operations the loader uses. `Lower` is `toLowerCase` on ASCII. `ReplaceFirst` is `replace` with a string pattern, which replaces only the first occurrence.
- `Documents` (`documents.dfy`): the parsed documents, i.e. the map, its tileset references, the external tileset document, layers, tile descriptors and their collision objects. Fields that JSON may omit are `Option`s.
- `Tiles` (`tiles.dfy`):
  - collision rectangles, sprites, and the atlas offset arithmetic;
  - the `MapTile` class with its two constructors, `LoadColliders` and `GenerateSprite`;
  - the `TileSet` class with its constructor and `Init`.
- `Level` (`level.dfy`):
  - `GetBasename`;
  - the tile lookup (`Resolve`);
  - the specification of the tile index (`BuildIndex`) and of layer placement (`PlaceLayers`);
  - the `TileMap` class, whose `Init`, `GetTile` and helper loops are proved to compute exactly those specifications.

The map's state is fields of type `seq`: the tile index (`tileset`), the three sprite groups, a log of unresolved cells, and a log of callback calls. Sprites, images and the ray-cast index are plain values. `MapTile` objects are compared through their field values, `Info()`.

The atlas offset is kept exactly as the code computes it. A row-major atlas scan would put the tile at index 5 of a 64-pixel-wide atlas of 16-pixel tiles on the second row. The code takes the row from the already-reduced column (src/tilemap.js:279-280), so every tile lands on row 0. `Tiles.AtlasOffset` keeps the code's arithmetic, and `Tiles.AtlasTileFive` shows the tile at index 5 at (16, 0).

The source has four evident slips, and the model follows the evident intent for each:

- The descriptor count is compared through a function `length(...)` that is not defined; the model compares the length of the descriptor list.
- Each atlas tile is given an undefined `total_info`; the model passes the current descriptor.
- `MapTile.FromTileset` is a static method invoked with `new`; the model treats it as a second constructor.
- `generate_sprite` reads `tile_width`/`tile_height`, which a `MapTile` never sets; the model uses the tile's `width`/`height`.

## Model

| member | source | states |
|---|---|---|
| Level.GetBasename | src/tilemap.js:111-117 | The result is a prefix of the path ending just before its last '/', or empty when the only '/' is at index 0 or there is none. It is strictly shorter than a non-empty path. |
| Level.BasenameUnique | src/tilemap.js:111-117 | That property determines the base name uniquely. |
| Level.TileMap.constructor | src/tilemap.js:10-28 | The groups passed in are kept. Sizes start at 0, the index and the callback log start empty, `fullLoaded` starts false. The base URL is the base name of the map path. |
| Level.Resolve | src/tilemap.js:101-107 | Cell value 0 gives the sentinel. A nonzero id with no tile carrying it gives null. Any other id gives a tile carrying that id, with no earlier tile carrying it: the first match. |
| Level.TileMap.GetTile | src/tilemap.js:101-107 | The linear scan returns exactly `Resolve` of the current index and changes nothing. |
| Level.TileMap.Init | src/tilemap.js:40-99 | Sizes are copied from the document. The new index is `BuildIndex` of the old one, and the groups and log are `PlaceLayers` of the old ones over the new index. The callback fires once, seeing `fullLoaded` as it was, and then `fullLoaded` is true. |
| Level.TileMap.LoadTilesets | src/tilemap.js:49-69 | The tileset loop turns the index into `BuildIndex` of it over the references. |
| Level.TileMap.AddInlineTiles | src/tilemap.js:58-67 | The inline branch appends exactly the tiles `InlineInfos` describes. Each has its own image next to the map, id `id + firstgid`, and the descriptor's class and colliders. |
| Level.TileMap.PlaceAllLayers | src/tilemap.js:72-96 | The layer loop turns the groups and log into `PlaceLayers` of them. |
| Level.TileMap.PlaceLayer | src/tilemap.js:76-95 | The cell loop of one layer turns the groups and log into `PlaceCells` over all its cells. |
| Level.InlineInfosAt | src/tilemap.js:58-66 | Entry `j` of an inline tileset's tiles comes from descriptor `j`. |
| Level.InlineStepAppends | src/tilemap.js:57-68 | An inline tileset appends exactly one tile per descriptor, in order, with id `id + firstgid`, and leaves every earlier entry unchanged. |
| Level.InlineOnlyExtends | src/tilemap.js:49-69 | With only inline tilesets, the starting index is a prefix of the final one. |
| Level.ExternalDiscardsEarlier | src/tilemap.js:54-56 | Once an external tileset has been loaded, the final index does not depend on anything that came before it. |
| Level.GlobalIdsExample | src/tilemap.js:58-66 | Inline tilesets starting at ids 1 and 10 give the global ids 1, 2 and 10. |
| Level.SkippedCellAddsNoSprite | src/tilemap.js:80-83 | A cell with value 0 or an unknown id adds no sprite to any group. An unknown id is logged with its layer and position. |
| Level.ResolvedCellRoutes | src/tilemap.js:84-93 | A resolved cell gets its tile's sprite, made at the cell's position with kind "map". The sprite goes to the background group when the layer name lower-cases to "background" and to the visible group otherwise. It also goes to the obstacle group exactly when the tile has colliders. |
| Level.PlaceCellSplit | src/tilemap.js:80-93 | One cell appends its contribution to each group and to the log, and nothing else. |
| Level.PlaceCellsBackground | src/tilemap.js:85-86 | Over a layer, the background group grows by all emitted sprites, in order, exactly when the layer is named "background". |
| Level.PlaceCellsVisible | src/tilemap.js:87-89 | Over a layer, the visible group grows by all emitted sprites, in order, exactly when the layer is not named "background". |
| Level.PlaceCellsObstacle | src/tilemap.js:91-93 | Over a layer, the obstacle group grows by the emitted sprites of tiles with colliders. |
| Level.PlaceCellsUnresolved | src/tilemap.js:81-82 | Over a layer, the log grows by its unresolved cells, in order. |
| Level.PlaceCellsByGroup | src/tilemap.js:76-95 | A layer's complete effect: emitted sprites go to exactly one of background or visible, obstacle sprites are appended, unresolved cells are logged. |
| Level.CellsPartition | src/tilemap.js:80-94 | Every cell of a layer is exactly one of: emitted, logged as unresolved, or blank. |
| Level.ObstaclesAmongEmitted | src/tilemap.js:91-93 | The obstacle sprites of a layer are a sub-multiset of its emitted sprites: each is the same sprite that also went to background or visible. |
| Level.RoutingIgnoresCase | src/tilemap.js:85 | Two layer names with the same lower-cased form place identically. |
| Level.PlaceLayersExtends | src/tilemap.js:72-96 | Placing layers only appends to the groups and the log. |
| Level.CellPositionsInjective | src/tilemap.js:77-78 | With a positive tile width, two cells of a layer at the same pixel position are the same cell. |
| Text.Lower | src/tilemap.js:85 | `toLowerCase` keeps the length and lower-cases each ASCII letter, position by position. |
| Text.IndexOf | src/tilemap.js:240 | The result is -1 exactly when the pattern does not occur at or after `from`. Otherwise it is the first such occurrence. |
| Text.ReplaceFirst | src/tilemap.js:240 | Without an occurrence the string comes back unchanged. Otherwise only the first occurrence is replaced. |
| Text.TsxBecomesJson | src/tilemap.js:240 | Rewriting ".tsx" puts ".json" at the first ".tsx", keeps everything before it, and adds one character. |
| Tiles.CollisionRects | src/tilemap.js:174-187 | At most one rectangle per object, and none when no object is a collision object. |
| Tiles.CollisionRectsAppend | src/tilemap.js:176-185 | Extraction preserves order: the objects of a prefix contribute first. |
| Tiles.CollisionRectsMembers | src/tilemap.js:176-185 | A rectangle is extracted exactly when some collision object floors to it. |
| Tiles.CollisionRectsAllCollision | src/tilemap.js:176-185 | When every object is a collision object, there is exactly one floored rectangle per object, in order. |
| Tiles.MapTile.LoadColliders | src/tilemap.js:174-187 | The loop appends exactly `Colliders` of the descriptor: one floored rectangle per object whose class lower-cases to "collision", in order, and none without an `objectgroup`. The same descriptor always appends the same rectangles. |
| Tiles.MapTile.constructor | src/tilemap.js:119-149 | A tile with its own image: not a spritesheet tile, origin (0, 0), the descriptor's colliders, and the descriptor's class as custom type (null without one). |
| Tiles.MapTile.FromTileset | src/tilemap.js:151-172 | An atlas tile on the shared image at the given offset, with the descriptor's colliders and class. |
| Tiles.MapTile.GenerateSprite | src/tilemap.js:189-208 | A "wolf" tile (and only that) gives a Wolf at (x, y+16) carrying the ray cast. Any other tile gives a sprite at (x, y) whose kind is the tile's class when it has one and the argument kind otherwise. That sprite has the tile's image and colliders, and carries the atlas region exactly for spritesheet tiles. |
| Tiles.InfosAt | src/tilemap.js:103-104 | Helper of `Infos`: entry `i` of the values of a tile list is the value of tile object `i`, which links the index's contract to the objects `get_tile` scans. |
| Tiles.AtlasOffset | src/tilemap.js:278-282 | The column offset is below the atlas width, and the row offset is always 0. |
| Tiles.AtlasTileFive | src/tilemap.js:278-282 | Tile 5 of a 64-pixel atlas of 16-pixel tiles sits at (16, 0). |
| Tiles.AtlasInfos | src/tilemap.js:275-293 | An external tileset contributes exactly the requested number of tiles. |
| Tiles.AtlasInfosAt | src/tilemap.js:276-292 | Tile `i` has id `tiles[i].id + starting_index` and is a spritesheet tile on the shared image. Its column is `((tile_width + spacing) * i) % imagewidth`, inside the image, its row is 0, its size is the tileset's, and it has the descriptor's class and colliders. |
| Tiles.TileSet.constructor | src/tilemap.js:226-245 | Sizes start at 0 and the tile list starts empty; the starting index and base directory are kept. The JSON path is `base_dir + "/" + path`, with the first ".tsx" turned into ".json" when forced. |
| Tiles.TileSet.Init | src/tilemap.js:250-294 | Sizes and the shared image are recorded. The error flag is raised exactly when the descriptor count differs from `tilecount`, and the load goes on. The tile list grows by exactly `AtlasInfos` of `BuiltCount` tiles, in index order. `BuiltCount` is `tilecount` when the document has that many descriptors, and the number of descriptors otherwise (see the `Tiles.TileSet.AddAtlasTiles` line under "## Left out"). |
| Tiles.TileSet.SetSizes | src/tilemap.js:254-257 | The tileset's sizes are those of the document. |
| Tiles.TileSet.AddAtlasTiles | src/tilemap.js:275-293 | The tile loop appends exactly `AtlasInfos` of the document. |

## Left out

- Resource loading is left out. This covers `File`, `Image` creation, the load listeners with their `loaded` flags, and the asynchronous callback wiring. `TileMap.Init` and `TileSet.Init` take the parsed documents as parameters, and an external tileset is loaded synchronously, as its own doc comment describes.
- Because the load is synchronous, the later aliasing between the map's index and the external tileset's `tile_list` has no effect in the model.
- `get_background_kind` is left out. It depends on `point_rect_collision` and `get_global_imagerect`, which are not part of this model.
- The internals of `Sprite`, `set_static_spritesheet`, `Wolf` and `RayCast` are not part of this model. Sprites are a datatype recording what `generate_sprite` passes to them, and the ray cast is an opaque value.
- Sprite groups are sequences, so `add` is modelled as an append. Any deduplication a group might do is not part of this model.
- `console.log` and `alert` are left out:
  - the unresolved-cell message becomes the `unresolved` log of (id, layer, position);
  - the tile-count alert becomes the `countError` flag;
  - the remaining debug messages are dropped.
- The callback is modelled as `callbackLog`, which records the value of `fullLoaded` at each call.
- Floating point is not modelled. Collision boxes are `real`, floored with `.Floor`. Cell positions and atlas offsets are integers.
- Case folding covers ASCII only. Non-ASCII letters that `toLowerCase` would fold are kept unchanged.
- Tiles.TileSet.Init: requires a positive atlas width, because the source's `% imagewidth` has no meaning at width 0.
- Tiles.TileSet.AddAtlasTiles: when `tilecount` exceeds the descriptor list, the source throws a TypeError reading the missing descriptor (src/tilemap.js:289). With the load synchronous, that error goes up through `new TileSet` (src/tilemap.js:55) and ends `TileMap.init`: later tilesets are not loaded, no layer is placed, the callback is never called and `full_loaded` stays false. The model instead stops building the tileset at that point and carries on with the rest of `init`.
- Level.TileMap.Init: requires every layer with cells to have a positive width, because the source's `j % lwidth` has no meaning at width 0.
- Tiles.MapTile.LoadColliders:
  - it takes the collider list and returns the extended list, and both constructors store the result;
  - tile fields are set once, by a constructor, and never change afterwards;
  - the object identity of each collider array is not modelled.
- The unused `webpack` import is left out.
