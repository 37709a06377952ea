/**
 * The parsed map and tileset documents (src/map.rs, src/resource.rs,
 * src/components.rs). Only the fields the loader reads are kept; the JSON
 * parsing that produces them is outside the model.
 */
module Resource {
  import opened Wrappers
  import opened Geometry

  /** Rust's `i32`. */
  type I32 = x: int | -0x8000_0000 <= x < 0x8000_0000

  /** Rust's `u32`. */
  type U32 = x: int | 0 <= x < 0x1_0000_0000

  /** One layer of the map: its name drives dispatch, `data` holds one raw value per cell. */
  datatype Layer = Layer(name: string, data: Option<seq<I32>>)

  /** The map document: tile size in source units, grid width in cells, layers in declaration order. */
  datatype TiledMap = TiledMap(tilewidth: real, tileheight: real, width: nat, layers: seq<Layer>)

  /** The tileset document; `image` is replaced by the host-configured path when the plugin is built. */
  datatype TileSet = TileSet(columns: U32, image: string, tilecount: U32, tilewidth: U32, tileheight: U32)

  /** The `TiledObject` component attached to every entity of the "objects" layer. */
  datatype TiledObject = TiledObject(position: Vec2, id: U32)

  /** Every raw value is non-negative: each survives the source's `as u32` and `as usize` casts unchanged. */
  predicate NonNegativeCells(data: seq<I32>)
  {
    forall i | 0 <= i < |data| :: data[i] >= 0
  }
}
