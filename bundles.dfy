/**
 * The three entity shapes the world builder spawns (`create_tile_bundle`,
 * `spawn_collision`, `spawn_tiled_object`). Only the components the loader
 * sets are kept; engine defaults are left out.
 */
module Bundles {
  import opened Geometry
  import opened Resource
  import opened Atlas

  /** One spawn request queued on the engine's command buffer. */
  datatype Spawn =
    | /** A visual tile: the shared texture, the atlas with the tile's cell selected, a sized sprite. */
      TileSprite(texture: ImageHandle, atlas: TextureAtlas, transform: Transform, customSize: Vec2)
    | /** A collision volume: a size and a transform, nothing drawn. */
      CollisionVolume(size: Vec2, transform: Transform)
    | /** A placed object: a transform and its `TiledObject` component. */
      ObjectEntity(transform: Transform, tiledObject: TiledObject)

  /** A sprite drawing atlas cell `tile` at (col, row), `layerIndex` deep, sized to the footprint. */
  function CreateTileBundle(tile: nat, tilesImage: TilesImage, col: real, row: real,
                            xoffset: real, yoffset: real, layerIndex: nat): Spawn
  {
    TileSprite(tilesImage.texture, tilesImage.atlas.(index := tile),
               Transform(col, row, layerIndex as real), Vec2(xoffset, yoffset))
  }

  /** A collision volume of the footprint's size at (col, row), `layerIndex` deep. */
  function SpawnCollision(col: real, row: real, xoffset: real, yoffset: real, layerIndex: nat): Spawn
  {
    CollisionVolume(Vec2(xoffset, yoffset), Transform(col, row, layerIndex as real))
  }

  /** An object with identifier `id` at (col, row), `layerIndex` deep. */
  function SpawnTiledObject(col: real, row: real, layerIndex: nat, id: U32): Spawn
  {
    ObjectEntity(Transform(col, row, layerIndex as real), TiledObject(Vec2(col, row), id))
  }
}
