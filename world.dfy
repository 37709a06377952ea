/**
 * The world builder (`spawn_world`): walks the map's layers in declaration
 * order and each layer's cells in index order, and queues one spawn per
 * non-empty cell. The layer's name decides what is spawned; its position
 * in the layer list is the spawn's depth.
 */
module World {
  import opened Wrappers
  import opened Geometry
  import opened Resource
  import opened Cells
  import opened Grid
  import opened Atlas
  import opened Bundles

  /** The three layer behaviours, chosen by exact name. */
  datatype LayerKind = CollisionLayer | ObjectLayer | TileLayer

  /** "collision" and "objects" are reserved names; any other name is a visual tile layer. */
  function KindOf(name: string): (k: LayerKind)
    ensures k == CollisionLayer <==> name == "collision"
    ensures k == ObjectLayer <==> name == "objects"
    ensures k == TileLayer <==> name != "collision" && name != "objects"
  {
    if name == "collision" then CollisionLayer
    else if name == "objects" then ObjectLayer
    else TileLayer
  }

  /**
   * The cells of a layer of kind `kind` survive the casts its bundle applies:
   * object and tile layers cast the filtered value to `u32` or `usize`, so
   * their cells must be non-negative; a collision layer only tests whether a
   * cell is empty, so any value will do.
   */
  predicate CastableCells(kind: LayerKind, data: seq<I32>)
  {
    kind != CollisionLayer ==> NonNegativeCells(data)
  }

  /** A layer without data, or one whose cells survive the casts its name selects. */
  predicate CastableLayer(layer: Layer)
  {
    layer.data.Some? ==> CastableCells(KindOf(layer.name), layer.data.value)
  }

  /** What the world builder needs of a map: a non-zero width (the mapper divides by it) and castable cells in every layer. */
  predicate WellFormedMap(tiledMap: TiledMap)
  {
    && tiledMap.width > 0
    && forall l | 0 <= l < |tiledMap.layers| :: CastableLayer(tiledMap.layers[l])
  }

  /** The resources the world builder reads: the map, the atlas resource, the scale and the origin offset. */
  datatype WorldResources = WorldResources(tiledMap: TiledMap, tilesImage: TilesImage, scale: real, pos: Vec2)

  /**
   * What the cell at `index` of layer `layerIndex`, holding `raw`, spawns:
   * nothing for an empty cell, otherwise one entity (see `CellSpawnShape`).
   */
  function CellSpawn(res: WorldResources, layerIndex: nat, kind: LayerKind, index: nat, raw: I32): (r: Option<Spawn>)
    requires res.tiledMap.width > 0 && (kind != CollisionLayer ==> raw >= 0)
    ensures r.None? <==> raw == 0
  {
    match AllowTile(raw)
    case None => None
    case Some(tile) =>
      var p := Spawner(res.tiledMap, res.pos, res.scale, index);
      Some(match kind
           case CollisionLayer => SpawnCollision(p.col, p.row, p.xoffset, p.yoffset, layerIndex)
           case ObjectLayer => SpawnTiledObject(p.col, p.row, layerIndex, tile)
           case TileLayer => CreateTileBundle(tile, res.tilesImage, p.col, p.row, p.xoffset, p.yoffset, layerIndex))
  }

  /**
   * A non-empty cell spawns one entity at the cell's grid placement,
   * `layerIndex` deep, whose shape the layer kind decides: a volume of the
   * footprint's size, an object whose id is one less than the raw value, or
   * a sprite of the shared texture selecting atlas cell `raw - 1`.
   */
  lemma CellSpawnShape(res: WorldResources, layerIndex: nat, kind: LayerKind, index: nat, raw: I32)
    requires res.tiledMap.width > 0 && raw != 0 && (kind != CollisionLayer ==> raw > 0)
    ensures var r := CellSpawn(res, layerIndex, kind, index, raw);
            var p := Spawner(res.tiledMap, res.pos, res.scale, index);
            && r.Some?
            && r.value.transform == Transform(p.col, p.row, layerIndex as real)
            && (kind == CollisionLayer ==>
                  r.value.CollisionVolume? && r.value.size == Vec2(p.xoffset, p.yoffset))
            && (kind == ObjectLayer ==>
                  r.value.ObjectEntity? && r.value.tiledObject == TiledObject(Vec2(p.col, p.row), raw - 1))
            && (kind == TileLayer ==>
                  && r.value.TileSprite?
                  && r.value.texture == res.tilesImage.texture
                  && r.value.atlas == res.tilesImage.atlas.(index := raw - 1)
                  && r.value.customSize == Vec2(p.xoffset, p.yoffset))
  {
  }

  /** The spawns of the first `n` cells of a layer's data, in index order. */
  function CellsSpawns(res: WorldResources, layerIndex: nat, kind: LayerKind, data: seq<I32>, n: nat): seq<Spawn>
    requires res.tiledMap.width > 0 && CastableCells(kind, data) && n <= |data|
  {
    if n == 0 then []
    else
      var earlier := CellsSpawns(res, layerIndex, kind, data, n - 1);
      match CellSpawn(res, layerIndex, kind, n - 1, data[n - 1])
      case None => earlier
      case Some(s) => earlier + [s]
  }

  /** The spawns of one layer: none when it has no data, otherwise those of all its cells. */
  function LayerSpawns(res: WorldResources, layerIndex: nat, layer: Layer): seq<Spawn>
    requires res.tiledMap.width > 0 && CastableLayer(layer)
  {
    match layer.data
    case None => []
    case Some(data) => CellsSpawns(res, layerIndex, KindOf(layer.name), data, |data|)
  }

  /** The spawns of the first `n` layers of the map, layer after layer. */
  function WorldSpawns(res: WorldResources, n: nat): seq<Spawn>
    requires WellFormedMap(res.tiledMap) && n <= |res.tiledMap.layers|
  {
    if n == 0 then []
    else WorldSpawns(res, n - 1) + LayerSpawns(res, n - 1, res.tiledMap.layers[n - 1])
  }

  /** The indices of the non-empty cells among the first `n`, in index order. */
  function NonZeroIndices(data: seq<I32>, n: nat): (idx: seq<nat>)
    requires n <= |data|
    ensures forall k | 0 <= k < |idx| :: idx[k] < n
  {
    if n == 0 then []
    else NonZeroIndices(data, n - 1) + (if data[n - 1] != 0 then [n - 1] else [])
  }

  /** Every index `NonZeroIndices` lists is that of a non-empty cell. */
  lemma {:induction false} NonZeroIndicesSound(data: seq<I32>, n: nat)
    requires n <= |data|
    ensures forall k | 0 <= k < |NonZeroIndices(data, n)| :: data[NonZeroIndices(data, n)[k]] != 0
  {
    if n > 0 {
      NonZeroIndicesSound(data, n - 1);
    }
  }

  /** `NonZeroIndices` lists indices in strictly increasing order, so each at most once. */
  lemma {:induction false} NonZeroIndicesIncreasing(data: seq<I32>, n: nat)
    requires n <= |data|
    ensures forall k, k' | 0 <= k < k' < |NonZeroIndices(data, n)| :: NonZeroIndices(data, n)[k] < NonZeroIndices(data, n)[k']
  {
    if n > 0 {
      NonZeroIndicesIncreasing(data, n - 1);
    }
  }

  /** Every non-empty cell among the first `n` is listed by `NonZeroIndices`. */
  lemma {:induction false} NonZeroIndicesComplete(data: seq<I32>, n: nat)
    requires n <= |data|
    ensures forall i | 0 <= i < n && data[i] != 0 :: i in NonZeroIndices(data, n)
  {
    if n > 0 {
      NonZeroIndicesComplete(data, n - 1);
    }
  }

  /**
   * A layer's first `n` cells spawn exactly one entity per non-empty cell,
   * in increasing index order: the k-th spawn is the one of the k-th
   * non-empty cell.
   */
  lemma {:induction false} CellsSpawnsPerCell(res: WorldResources, layerIndex: nat, kind: LayerKind, data: seq<I32>, n: nat)
    requires res.tiledMap.width > 0 && CastableCells(kind, data) && n <= |data|
    ensures var spawns, idx := CellsSpawns(res, layerIndex, kind, data, n), NonZeroIndices(data, n);
            && |spawns| == |idx|
            && forall k | 0 <= k < |spawns| :: CellSpawn(res, layerIndex, kind, idx[k], data[idx[k]]) == Some(spawns[k])
  {
    if n > 0 {
      CellsSpawnsPerCell(res, layerIndex, kind, data, n - 1);
      var before, idxBefore := CellsSpawns(res, layerIndex, kind, data, n - 1), NonZeroIndices(data, n - 1);
      var spawns, idx := CellsSpawns(res, layerIndex, kind, data, n), NonZeroIndices(data, n);
      var last := CellSpawn(res, layerIndex, kind, n - 1, data[n - 1]);
      if data[n - 1] == 0 {
        assert spawns == before && idx == idxBefore;
      } else {
        assert spawns == before + [last.value] && idx == idxBefore + [n - 1];
        forall k | 0 <= k < |spawns|
          ensures CellSpawn(res, layerIndex, kind, idx[k], data[idx[k]]) == Some(spawns[k])
        {
          if k < |before| {
            assert spawns[k] == before[k] && idx[k] == idxBefore[k];
          }
        }
      }
    }
  }

  /**
   * A layer without data spawns nothing; otherwise it spawns one entity per
   * non-empty cell, in increasing index order, each shaped by the layer's
   * name.
   */
  lemma LayerSpawnsPerCell(res: WorldResources, layerIndex: nat, layer: Layer)
    requires res.tiledMap.width > 0 && CastableLayer(layer)
    ensures layer.data.None? ==> LayerSpawns(res, layerIndex, layer) == []
    ensures layer.data.Some? ==>
      var spawns, data := LayerSpawns(res, layerIndex, layer), layer.data.value;
      var idx := NonZeroIndices(data, |data|);
      && |spawns| == |idx|
      && forall k | 0 <= k < |spawns| ::
           CellSpawn(res, layerIndex, KindOf(layer.name), idx[k], data[idx[k]]) == Some(spawns[k])
  {
    if layer.data.Some? {
      var data := layer.data.value;
      CellsSpawnsPerCell(res, layerIndex, KindOf(layer.name), data, |data|);
    }
  }

  /** Every spawn of a layer is as deep as the layer's position in the map. */
  lemma {:induction false} CellsSpawnsDepth(res: WorldResources, layerIndex: nat, kind: LayerKind, data: seq<I32>, n: nat)
    requires res.tiledMap.width > 0 && CastableCells(kind, data) && n <= |data|
    ensures forall s | s in CellsSpawns(res, layerIndex, kind, data, n) :: s.transform.z == layerIndex as real
  {
    if n > 0 {
      CellsSpawnsDepth(res, layerIndex, kind, data, n - 1);
      if data[n - 1] != 0 {
        CellSpawnShape(res, layerIndex, kind, n - 1, data[n - 1]);
      }
    }
  }

  /** Every spawn of a layer is as deep as the layer's position in the map. */
  lemma LayerSpawnsDepth(res: WorldResources, layerIndex: nat, layer: Layer)
    requires res.tiledMap.width > 0 && CastableLayer(layer)
    ensures forall s | s in LayerSpawns(res, layerIndex, layer) :: s.transform.z == layerIndex as real
  {
    if layer.data.Some? {
      CellsSpawnsDepth(res, layerIndex, KindOf(layer.name), layer.data.value, |layer.data.value|);
    }
  }

  /** Every depth is a whole number below `n`, so the index of one of `n` layers, and depths never decrease along the queue. */
  ghost predicate Layered(spawns: seq<Spawn>, n: nat)
  {
    && (forall k | 0 <= k < |spawns| :: 0.0 <= spawns[k].transform.z < n as real)
    && (forall k | 0 <= k < |spawns| :: spawns[k].transform.z.Floor as real == spawns[k].transform.z)
    && (forall j, k | 0 <= j < k < |spawns| :: spawns[j].transform.z <= spawns[k].transform.z)
  }

  /** Appending a layer of depth `d` to a queue layered below `d` gives a queue layered below `d + 1`. */
  lemma AppendLayer(earlier: seq<Spawn>, last: seq<Spawn>, d: nat)
    requires Layered(earlier, d)
    requires forall s | s in last :: s.transform.z == d as real
    ensures Layered(earlier + last, d + 1)
  {
  }

  /**
   * The spawns of the first `n` layers come layer by layer: every depth is
   * the index of a layer among them, and depths never decrease along the
   * queue.
   */
  lemma {:induction false} WorldSpawnsLayered(res: WorldResources, n: nat)
    requires WellFormedMap(res.tiledMap) && n <= |res.tiledMap.layers|
    ensures Layered(WorldSpawns(res, n), n)
  {
    if n > 0 {
      WorldSpawnsLayered(res, n - 1);
      var layer := res.tiledMap.layers[n - 1];
      LayerSpawnsDepth(res, n - 1, layer);
      var earlier, last := WorldSpawns(res, n - 1), LayerSpawns(res, n - 1, layer);
      AppendLayer(earlier, last, n - 1);
      assert WorldSpawns(res, n) == earlier + last;
    }
  }

  /** Building more layers only appends: the spawns of earlier layers come first, unchanged. */
  lemma {:induction false} WorldSpawnsPrefix(res: WorldResources, m: nat, n: nat)
    requires WellFormedMap(res.tiledMap) && m <= n <= |res.tiledMap.layers|
    ensures WorldSpawns(res, m) <= WorldSpawns(res, n)
    decreases n - m
  {
    if m < n {
      WorldSpawnsPrefix(res, m, n - 1);
    }
  }

  /** A two-cell "ground" layer holding [1, 0] spawns one sprite of atlas cell 0 at the origin, and nothing for the empty cell. */
  lemma GroundLayerScenario(tilesImage: TilesImage)
    ensures var res := WorldResources(TiledMap(16.0, 16.0, 2, [Layer("ground", Some([1, 0]))]),
                                      tilesImage, 1.0, Vec2(0.0, 0.0));
            WorldSpawns(res, 1)
              == [TileSprite(tilesImage.texture, tilesImage.atlas.(index := 0),
                             Transform(0.0, 0.0, 0.0), Vec2(16.0, 16.0))]
  {
    var res := WorldResources(TiledMap(16.0, 16.0, 2, [Layer("ground", Some([1, 0]))]),
                              tilesImage, 1.0, Vec2(0.0, 0.0));
    assert KindOf("ground") == TileLayer;
    assert CellsSpawns(res, 0, TileLayer, [1, 0], 1)
        == [TileSprite(tilesImage.texture, tilesImage.atlas.(index := 0),
                       Transform(0.0, 0.0, 0.0), Vec2(16.0, 16.0))];
  }

  /**
   * An "objects" layer two cells wide holding [0, 17], drawn at scale 2,
   * spawns one object with identifier 16 in the second column, one layer
   * deep.
   */
  lemma ObjectLayerScenario(tilesImage: TilesImage)
    ensures var res := WorldResources(TiledMap(16.0, 16.0, 2, [Layer("ground", None), Layer("objects", Some([0, 17]))]),
                                      tilesImage, 2.0, Vec2(0.0, 0.0));
            WorldSpawns(res, 2)
              == [ObjectEntity(Transform(32.0, 0.0, 1.0), TiledObject(Vec2(32.0, 0.0), 16))]
  {
    var res := WorldResources(TiledMap(16.0, 16.0, 2, [Layer("ground", None), Layer("objects", Some([0, 17]))]),
                              tilesImage, 2.0, Vec2(0.0, 0.0));
    assert KindOf("objects") == ObjectLayer;
    assert CellsSpawns(res, 1, ObjectLayer, [0, 17], 1) == [];
    assert WorldSpawns(res, 1) == [];
  }

  /**
   * A "collision" layer two cells wide holding [-5, 0] spawns one volume at
   * the origin: a negative cell is not empty, and nothing is cast from it.
   */
  lemma CollisionLayerScenario(tilesImage: TilesImage)
    ensures var res := WorldResources(TiledMap(16.0, 8.0, 2, [Layer("collision", Some([-5, 0]))]),
                                      tilesImage, 1.0, Vec2(0.0, 0.0));
            WorldSpawns(res, 1) == [CollisionVolume(Vec2(16.0, 8.0), Transform(0.0, 0.0, 0.0))]
  {
    var res := WorldResources(TiledMap(16.0, 8.0, 2, [Layer("collision", Some([-5, 0]))]),
                              tilesImage, 1.0, Vec2(0.0, 0.0));
    assert KindOf("collision") == CollisionLayer;
    assert CellsSpawns(res, 0, CollisionLayer, [-5, 0], 1)
        == [CollisionVolume(Vec2(16.0, 8.0), Transform(0.0, 0.0, 0.0))];
  }

  /** The number of non-empty cells in the first `n` layers that have data. */
  function NonEmptyCells(layers: seq<Layer>, n: nat): nat
    requires n <= |layers|
  {
    if n == 0 then 0
    else
      NonEmptyCells(layers, n - 1)
        + match layers[n - 1].data
          case None => 0
          case Some(data) => |NonZeroIndices(data, |data|)|
  }

  /** The first `n` layers queue exactly one spawn per non-empty cell of a layer with data. */
  lemma {:induction false} WorldSpawnsCount(res: WorldResources, n: nat)
    requires WellFormedMap(res.tiledMap) && n <= |res.tiledMap.layers|
    ensures |WorldSpawns(res, n)| == NonEmptyCells(res.tiledMap.layers, n)
  {
    if n > 0 {
      WorldSpawnsCount(res, n - 1);
      LayerSpawnsPerCell(res, n - 1, res.tiledMap.layers[n - 1]);
    }
  }

  /**
   * Queues the spawns of one layer's cells on `commands`, in index order:
   * one per non-empty cell, shaped by the layer's kind.
   */
  method SpawnLayerCells(commands: seq<Spawn>, res: WorldResources, layerIndex: nat, kind: LayerKind, data: seq<I32>)
    returns (queued: seq<Spawn>)
    requires res.tiledMap.width > 0 && CastableCells(kind, data)
    ensures queued == commands + CellsSpawns(res, layerIndex, kind, data, |data|)
  {
    queued := commands;
    for index := 0 to |data|
      invariant queued == commands + CellsSpawns(res, layerIndex, kind, data, index)
    {
      var tile := AllowTile(data[index]);
      if tile.Some? {
        var p := Spawner(res.tiledMap, res.pos, res.scale, index);
        var bundle := match kind
          case CollisionLayer => SpawnCollision(p.col, p.row, p.xoffset, p.yoffset, layerIndex)
          case ObjectLayer => SpawnTiledObject(p.col, p.row, layerIndex, tile.value)
          case TileLayer => CreateTileBundle(tile.value, res.tilesImage, p.col, p.row,
                                             p.xoffset, p.yoffset, layerIndex);
        queued := queued + [bundle];
      }
    }
  }

  /**
   * Queues the spawns of every layer of the map on `commands`, layer by
   * layer in declaration order and cell by cell in index order.
   */
  method SpawnWorld(commands: seq<Spawn>, res: WorldResources) returns (queued: seq<Spawn>)
    requires WellFormedMap(res.tiledMap)
    ensures queued == commands + WorldSpawns(res, |res.tiledMap.layers|)
  {
    queued := commands;
    var layers := res.tiledMap.layers;
    for layerIndex := 0 to |layers|
      invariant queued == commands + WorldSpawns(res, layerIndex)
    {
      var layer := layers[layerIndex];
      assert CastableLayer(layer);
      ghost var before := queued;
      var kind := KindOf(layer.name);
      match layer.data {
        case None =>
        case Some(data) =>
          queued := SpawnLayerCells(queued, res, layerIndex, kind, data);
      }
      assert queued == before + LayerSpawns(res, layerIndex, layer);
    }
  }
}
