/**
 * The atlas initialisation step (`init_asset`) and the resource it
 * produces (`TilesImage`). The engine's asset server and texture-atlas
 * layout are represented by plain values.
 */
module Atlas {
  import opened Resource

  /** The handle the asset server returns for the image at `path`. */
  datatype ImageHandle = ImageHandle(path: string)

  /** A uniform grid of atlas cells: cell size in pixels, column and row counts. */
  datatype AtlasLayout = AtlasLayout(tileWidth: nat, tileHeight: nat, columns: nat, rows: nat)

  /** A layout together with the selected cell. */
  datatype TextureAtlas = TextureAtlas(layout: AtlasLayout, index: nat)

  /** The resource shared by every tile sprite: the atlas and the texture handle. */
  datatype TilesImage = TilesImage(atlas: TextureAtlas, texture: ImageHandle)

  /**
   * Loads the tileset image and lays out its atlas: `columns` columns, as
   * many whole rows as `tilecount` fills, cells of the tileset's tile size,
   * cell 0 selected.
   */
  function InitAsset(tileset: TileSet): (r: TilesImage)
    requires tileset.columns > 0
    ensures r.texture == ImageHandle(tileset.image)
    ensures r.atlas.index == 0
    ensures r.atlas.layout.tileWidth == tileset.tilewidth
    ensures r.atlas.layout.tileHeight == tileset.tileheight
    ensures r.atlas.layout.columns == tileset.columns
    ensures r.atlas.layout.rows * tileset.columns <= tileset.tilecount
                                               < (r.atlas.layout.rows + 1) * tileset.columns
  {
    var image := ImageHandle(tileset.image);
    var layout := AtlasLayout(tileset.tilewidth, tileset.tileheight,
                              tileset.columns, tileset.tilecount / tileset.columns);
    TilesImage(TextureAtlas(layout, 0), image)
  }

  /**
   * The atlas holds exactly `tilecount` cells when `columns` divides
   * `tilecount`; otherwise the incomplete last row is dropped, fewer than
   * `columns` cells.
   */
  lemma AtlasDropsPartialRow(tileset: TileSet)
    requires tileset.columns > 0
    ensures var layout := InitAsset(tileset).atlas.layout;
            && (layout.rows * layout.columns == tileset.tilecount <==> tileset.tilecount % tileset.columns == 0)
            && tileset.tilecount - layout.rows * layout.columns == tileset.tilecount % tileset.columns
  {
  }
}
