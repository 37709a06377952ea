# bevy_tiled_plugin world builder, modelled in Dafny

This project models the map-loading core of a Bevy plugin that turns a Tiled
map and its tileset into entities. The map and tileset documents arrive
already parsed. The plugin then does four things:

- It lays out the tileset's texture atlas (`init_asset`).
- It walks every layer of the map in declaration order and every cell of a
  layer in index order (`spawn_world`).
- It queues one spawn request per non-empty cell on the engine's command
  buffer.
- It picks the spawned shape by the layer's name. `"collision"` gives a
  collision volume, `"objects"` gives a placed object, and any other name
  gives a visual tile sprite.

A cell's linear index becomes a world position: the column is
`index mod width`, the row is `index div width`, and the Y axis is flipped.
Each spawn's depth is its layer's position in the map.

Modules, one per component of `src/default_plugin.rs` and its data types:

- `Resource` holds the parsed `TiledMap`, `Layer`, `TileSet` and
  `TiledObject` values, keeping only the fields the loader reads.
- `Cells` holds the cell filter (`allow_tile`).
- `Grid` holds the coordinate mapper (`spawner`), its inverse `CellIndexAt`,
  and lemmas about the mapping: grid layout, rows descending, round trip and
  injectivity.
- `Atlas` holds the atlas resource and `init_asset`.
- `Bundles` holds the `Spawn` datatype and the three bundle constructors.
- `World` holds the world builder and its `WellFormedMap` precondition: a
  non-zero width, and non-negative cells in every layer whose bundle casts
  the cell value (object and tile layers; a collision layer takes any
  value). `CellSpawn`, `CellsSpawns`, `LayerSpawns`
  and `WorldSpawns` specify what gets queued. `SpawnWorld` is the imperative
  builder: nested loops that append to the command queue, proved equal to
  that specification. The lemmas prove three things: one spawn per
  non-empty cell in index order, depth equal to the layer index, and spawns
  queued layer by layer.
- `Plugin` holds the `TiledPlugin` configuration class: `from_json`, the two
  setters and `build`. It also holds the startup schedule and an execution
  model of it. Every order the schedule admits runs atlas initialisation
  before world building and queues exactly the world's spawns. Without the
  ordering constraint, the reverse order is admissible and fails.

Modelling choices:

- The engine's command buffer is a `seq<Spawn>`. `SpawnWorld` takes the
  queue as it is and returns it with the world's spawns appended.
- 32-bit floats are exact `real`s. `i32` and `u32` are integer subset types.
- The texture handle the asset server returns is represented by the image
  path it was loaded from.
- The source's `spawner` passes `(col, row, xoffset, yoffset)` to a closure
  that builds the bundle. Here `Spawner` returns those four values as a
  `Placement`, and each call site applies the bundle constructor to them.
- The source matches on the layer name and then runs one of three
  near-identical cell loops. The model computes a `LayerKind` once per layer
  from the name and runs one cell loop that builds the bundle for that kind.
  The same cells produce the same spawns in the same order.
- The documents are read inside `build`. Here `Build` takes the two
  path-to-document readers as function parameters.

Three behaviours of the code are worth stating outright:

- An `"objects"` layer is read from its `data` cells, like every other
  layer. Each non-empty cell becomes one object whose id is `raw - 1` and
  whose position is the cell's grid position.
- The object-insert function is stored as a resource
  (src/default_plugin.rs:61), but `spawn_world` never calls it, so no spawn
  here invokes it.
- Tile indices are not checked against the tileset's `tilecount`. A sprite
  may select an atlas cell the atlas does not have.

## Model

| member | source | states |
|---|---|---|
| `Cells.AllowTile` | src/default_plugin.rs:229-235 | nothing exactly when the raw value is 0; otherwise a value one less than the raw value, which is a valid non-negative `u32` whenever the raw value is positive |
| `Grid.SpawnerGridLayout` | src/default_plugin.rs:217-227 | the cell in column `c` of grid row `r` (index `r*width + c`) is placed at `(c*tilewidth*scale - pos.x, -(r*tileheight*scale) - pos.y)`, with footprint `(tilewidth*scale, tileheight*scale)` |
| `Grid.Spawner` | src/default_plugin.rs:217-227 | no contract of its own; `Grid.SpawnerGridLayout`, `Grid.SpawnerRowsDescend`, `Grid.SpawnerIndexOrder`, `Grid.SpawnerRoundTrip` and `Grid.SpawnerInjective` pin it down |
| `Grid.SpawnerRowsDescend` | src/default_plugin.rs:225 | for a non-negative footprint height, a later grid row has a world Y no higher than an earlier one, and strictly lower when the footprint height is positive |
| `Grid.SpawnerIndexOrder` | src/default_plugin.rs:224-225 | for a non-negative footprint height, a larger cell index is never placed above a smaller one |
| `Grid.SpawnerRoundTrip` | src/default_plugin.rs:222-226 | with a non-degenerate footprint, the cell index can be recovered from the world position the mapper gives it |
| `Grid.SpawnerInjective` | src/default_plugin.rs:222-226 | with a non-degenerate footprint, distinct cells get distinct world positions |
| `Atlas.InitAsset` | src/default_plugin.rs:155-172 | the atlas has the tileset's columns and cell size, the largest number of whole rows the tile count fills, index 0, and the texture of the tileset's image |
| `Atlas.AtlasDropsPartialRow` | src/default_plugin.rs:161 | the atlas holds exactly `tilecount` cells if and only if `columns` divides it; otherwise the `tilecount mod columns` cells of the incomplete last row are dropped |
| `World.KindOf` | src/default_plugin.rs:81-83 | dispatch is by exact name: collision if and only if the name is `"collision"`, object if and only if it is `"objects"`, visual tile for every other name |
| `World.CellSpawn` | src/default_plugin.rs:86 | a cell spawns nothing exactly when its raw value is 0 |
| `World.CellSpawnShape` | src/default_plugin.rs:174-215 | a non-empty cell spawns one entity at the cell's placement, as deep as its layer. A collision layer gives a volume of footprint size with no texture. An object layer gives a `TiledObject` with id `raw - 1` at `(col, row)`. Any other layer gives a sprite with the shared texture, atlas index `raw - 1` and the footprint as its size |
| `Bundles.CreateTileBundle` | src/default_plugin.rs:174-195 | no contract of its own; the tile-layer case of `World.CellSpawnShape` pins it down: shared texture, atlas index `raw - 1`, transform `(col, row, layer)`, footprint as custom size |
| `Bundles.SpawnCollision` | src/default_plugin.rs:197-208 | no contract of its own; the collision case of `World.CellSpawnShape` pins it down: a volume of footprint size at `(col, row, layer)` |
| `Bundles.SpawnTiledObject` | src/default_plugin.rs:210-215 | no contract of its own; the object case of `World.CellSpawnShape` pins it down: a `TiledObject` with id `raw - 1` at `(col, row)`, transform `(col, row, layer)` |
| `World.CellsSpawns` | src/default_plugin.rs:85-97 | no contract of its own; `World.CellsSpawnsPerCell`, `World.CellsSpawnsDepth` and `World.SpawnLayerCells` pin it down |
| `World.LayerSpawns` | src/default_plugin.rs:81-144 | no contract of its own; `World.LayerSpawnsPerCell` and `World.LayerSpawnsDepth` pin it down |
| `World.WorldSpawns` | src/default_plugin.rs:77-146 | no contract of its own; `World.WorldSpawnsLayered`, `World.WorldSpawnsPrefix`, `World.WorldSpawnsCount` and `World.SpawnWorld` pin it down |
| `World.NonZeroIndicesSound` | src/default_plugin.rs:85-86 | every index listed as non-empty holds a non-zero raw value |
| `World.NonZeroIndicesIncreasing` | src/default_plugin.rs:85 | the non-empty indices are listed in strictly increasing order, each once |
| `World.NonZeroIndicesComplete` | src/default_plugin.rs:85-86 | every non-empty cell's index is listed |
| `World.CellsSpawnsPerCell` | src/default_plugin.rs:85-97 | the k-th spawn of a layer's cells is the spawn of its k-th non-empty cell, and there are as many spawns as non-empty cells |
| `World.LayerSpawnsPerCell` | src/default_plugin.rs:83-144 | a layer without data spawns nothing; otherwise it spawns one entity per non-empty cell, in increasing index order, shaped by the layer's name |
| `World.CellsSpawnsDepth` | src/default_plugin.rs:183-212 | every spawn of a layer's cells has z equal to the layer's index |
| `World.LayerSpawnsDepth` | src/default_plugin.rs:77-80 | every spawn of a layer, of whatever kind, has z equal to the layer's position in the map |
| `World.WorldSpawnsLayered` | src/default_plugin.rs:77-146 | across the whole map, every spawn's depth is a whole number below the number of layers, so the index of an existing layer, and depths never decrease along the queue |
| `World.WorldSpawnsPrefix` | src/default_plugin.rs:77-80 | building more layers only appends: the spawns of earlier layers come first and are unchanged |
| `World.WorldSpawnsCount` | src/default_plugin.rs:77-146 | the whole map queues exactly as many spawns as there are non-empty cells across the layers that have data |
| `World.GroundLayerScenario` | src/default_plugin.rs:119-141 | a 2x1 map with a `"ground"` layer `[1, 0]` spawns exactly one sprite, of atlas cell 0, at the origin |
| `World.ObjectLayerScenario` | src/default_plugin.rs:101-118 | an `"objects"` layer `[0, 17]` on a two-cell-wide map at scale 2 spawns exactly one object, id 16, in the second column at depth 1; a preceding layer without data spawns nothing |
| `World.CollisionLayerScenario` | src/default_plugin.rs:84-97 | a `"collision"` layer `[-5, 0]` on a two-cell-wide map spawns exactly one volume, at the origin with the tile's footprint: a negative cell counts as non-empty |
| `World.SpawnLayerCells` | src/default_plugin.rs:85-97 | the queue afterwards is the queue before followed by the spawns of the layer's cells, in index order |
| `World.SpawnWorld` | src/default_plugin.rs:70-147 | the queue afterwards is the queue before followed by the spawns of every layer in declaration order, each layer's cells in index order |
| `Plugin.StartupScheduleOrder` | src/default_plugin.rs:66 | the plugin's startup schedule admits exactly one order: atlas initialisation, then world building |
| `Plugin.StartupSchedule` | src/default_plugin.rs:66 | no contract of its own; `Plugin.StartupScheduleOrder` and `Plugin.TiledPlugin.Build` pin it down |
| `Plugin.StartupSpawnsWorld` | src/default_plugin.rs:57-66 | every order the plugin's schedule admits inserts the atlas built from the tileset, then queues exactly the world's spawns using that atlas |
| `Plugin.UnorderedStartupFails` | src/default_plugin.rs:66 | without the "runs before" constraint the reverse order is admissible, and world building then fails for lack of the atlas resource |
| `Plugin.TiledPlugin.FromJson` | src/default_plugin.rs:25-39 | keeps the given paths and scale, puts the origin at (0, 0), and uses the no-op insert function |
| `Plugin.TiledPlugin.SetPosition` | src/default_plugin.rs:40-43 | replaces the origin offset and changes no other field |
| `Plugin.TiledPlugin.SetObjectInsertFunc` | src/default_plugin.rs:44-50 | replaces the insert function and changes no other field |
| `Plugin.TiledPlugin.Build` | src/default_plugin.rs:57-67 | the app gets the map read from the map path and the tileset read from the tileset path, with the image replaced by the configured path. It also gets the configured insert function, origin and scale, and exactly the plugin's startup schedule, whose admissible orders are exactly one: atlas initialisation, then world building |

## Left out

- JSON loading (`TiledMap::from_json`, `TileSet::from_json`, src/tilesheet.rs) is file I/O and a foreign parser that panics on failure. The parsed documents are inputs, and `Build` takes the readers as parameters.
- Engine plumbing is represented by values and not modelled further: `App`, `Commands`, `Res`, the asset server's `load`/`add`, `Handle<Image>`, `TextureAtlasLayout::from_grid`, and the defaults `SpriteBundle` fills in. Entity identifiers are not modelled.
- Commands are applied when the system queues them. The engine defers them to a sync point, which it inserts between two systems ordered with `before`.
- `App` is built as a fresh value, not changed in place.
- Only the fields the loader reads are kept from the map and tileset. The map's `height`, `orientation`, `tilesets` and the like are not modelled, and neither are a layer's `id`, `opacity`, `type`, `visible` and offsets.
- Floating-point rounding is not modelled: positions, scale and depth are exact reals.
- The runtime type check of a cell (`downcast_ref::<i32>().unwrap()`) is not modelled, because cells are typed `I32` values.
- `Cells.AllowTile`: at `i32::MIN` the source's `tile - 1` overflows, which panics in debug builds and wraps in release builds. The model returns the mathematical value instead. Only a collision layer can reach that case, and there only the presence of a value matters, so the model spawns the volume a release build spawns.
- Negative cells on object and tile layers wrap through the `as u32` and `as usize` casts. `WellFormedMap` excludes them there, and allows them on collision layers, which cast nothing.
- A zero map width and a zero tileset column count are excluded by preconditions, because the source divides by both. The source panics on a zero width only when a non-empty cell reaches the mapper (src/default_plugin.rs:224). A map of zero width whose cells are all empty spawns nothing in the source, but lies outside the model.
- The object-insert function is an opaque tag. Its effect on an entity is host code (src/main.rs) and is never invoked by the loader.
- src/debug_plugin.rs, a rendering overlay, is not part of this model. src/main.rs, the app bootstrap and an example insert function, is not part of this model either. Nor is src/plugin.rs, an older revision of the plugin.
