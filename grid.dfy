/**
 * The coordinate mapper of the world builder (`spawner`): a cell's linear
 * index in a layer becomes a world position and a footprint. Columns grow to
 * the right, rows grow downwards in the grid but towards negative Y in the
 * world.
 */
module Grid {
  import opened Geometry
  import opened Resource

  /**
   * The four values the source hands to a bundle constructor: the cell's
   * world position (`col`, `row`) and its scaled footprint.
   */
  datatype Placement = Placement(col: real, row: real, xoffset: real, yoffset: real)

  /** World position and footprint of the cell at `index` of a layer. */
  function Spawner(tiledMap: TiledMap, pos: Vec2, scale: real, index: nat): Placement
    requires tiledMap.width > 0
  {
    var xoffset := tiledMap.tilewidth * scale;
    var yoffset := tiledMap.tileheight * scale;
    var col := (index % tiledMap.width) as real * xoffset - pos.x;
    var row := -((index / tiledMap.width) as real * yoffset) - pos.y;
    Placement(col, row, xoffset, yoffset)
  }

  /**
   * The inverse of `Spawner`: the linear index of the cell of a grid
   * `width` cells wide, with footprint (xoffset, yoffset) and origin offset
   * `pos`, whose placement is at world position (x, y).
   */
  function CellIndexAt(width: nat, pos: Vec2, xoffset: real, yoffset: real, x: real, y: real): int
    requires xoffset != 0.0 && yoffset != 0.0
  {
    var c := ((x + pos.x) / xoffset).Floor;
    var r := (-(y + pos.y) / yoffset).Floor;
    r * width + c
  }

  /** Multiplying by a non-negative width preserves order. */
  lemma {:induction false} MulMonotonic(a: int, b: int, w: nat)
    requires a <= b
    ensures a * w <= b * w
    decreases b - a
  {
    if a < b {
      MulMonotonic(a + 1, b, w);
      assert (a + 1) * w == a * w + w;
    }
  }

  /** Row-major decomposition of a linear index is unique. */
  lemma DivModOfRowMajor(w: nat, r: nat, c: nat)
    requires c < w
    ensures (r * w + c) / w == r && (r * w + c) % w == c
  {
    var n := r * w + c;
    var q, m := n / w, n % w;
    assert q * w + m == n;
    if q < r {
      MulMonotonic(q + 1, r, w);
    } else if q > r {
      MulMonotonic(r + 1, q, w);
    }
  }

  /** Integer division by a positive width is monotonic. */
  lemma DivMonotonic(w: nat, i: nat, j: nat)
    requires w > 0 && i <= j
    ensures i / w <= j / w
  {
    var qi, qj := i / w, j / w;
    assert qi * w + i % w == i && qj * w + j % w == j;
    if qj < qi {
      MulMonotonic(qj + 1, qi, w);
    }
  }

  /** Dividing a product by its non-zero factor gives the other factor back. */
  lemma MulDivCancel(a: real, x: real)
    requires x != 0.0
    ensures (a * x) / x == a
  {
  }

  /**
   * The cell in column `c` of grid row `r` is placed `c` footprints right of
   * the origin and `r` footprints below it, with a footprint of tile size
   * times scale.
   */
  lemma SpawnerGridLayout(tiledMap: TiledMap, pos: Vec2, scale: real, r: nat, c: nat)
    requires c < tiledMap.width
    ensures Spawner(tiledMap, pos, scale, r * tiledMap.width + c)
         == Placement(c as real * (tiledMap.tilewidth * scale) - pos.x,
                      -(r as real * (tiledMap.tileheight * scale)) - pos.y,
                      tiledMap.tilewidth * scale, tiledMap.tileheight * scale)
  {
    var index := r * tiledMap.width + c;
    DivModOfRowMajor(tiledMap.width, r, c);
    var xoffset, yoffset := tiledMap.tilewidth * scale, tiledMap.tileheight * scale;
    var p := Spawner(tiledMap, pos, scale, index);
    assert p.xoffset == xoffset && p.yoffset == yoffset;
    assert p.col == (index % tiledMap.width) as real * xoffset - pos.x == c as real * xoffset - pos.x;
    assert p.row == -((index / tiledMap.width) as real * yoffset) - pos.y == -(r as real * yoffset) - pos.y;
  }

  /**
   * Lower grid rows have a lower (or equal) world Y, strictly lower when the
   * footprint height is positive.
   */
  lemma SpawnerRowsDescend(tiledMap: TiledMap, pos: Vec2, scale: real, i: nat, j: nat)
    requires tiledMap.width > 0 && tiledMap.tileheight * scale >= 0.0
    requires i / tiledMap.width <= j / tiledMap.width
    ensures Spawner(tiledMap, pos, scale, j).row <= Spawner(tiledMap, pos, scale, i).row
    ensures tiledMap.tileheight * scale > 0.0 && i / tiledMap.width < j / tiledMap.width
            ==> Spawner(tiledMap, pos, scale, j).row < Spawner(tiledMap, pos, scale, i).row
  {
    var y := tiledMap.tileheight * scale;
    var ri, rj := (i / tiledMap.width) as real, (j / tiledMap.width) as real;
    assert rj * y - ri * y == (rj - ri) * y;
    if y > 0.0 && ri < rj {
      assert (rj - ri) * y > 0.0;
    }
  }

  /** Cells later in a layer never lie above earlier ones. */
  lemma SpawnerIndexOrder(tiledMap: TiledMap, pos: Vec2, scale: real, i: nat, j: nat)
    requires tiledMap.width > 0 && tiledMap.tileheight * scale >= 0.0 && i <= j
    ensures Spawner(tiledMap, pos, scale, j).row <= Spawner(tiledMap, pos, scale, i).row
  {
    DivMonotonic(tiledMap.width, i, j);
    SpawnerRowsDescend(tiledMap, pos, scale, i, j);
  }

  /** A value that is `k` whole footprints long lies in footprint number `k`. */
  lemma ScaledFloor(k: int, step: real, v: real)
    requires step != 0.0 && v == k as real * step
    ensures (v / step).Floor == k
  {
    MulDivCancel(k as real, step);
  }

  /** A cell's index can be recovered from its world position. */
  lemma SpawnerRoundTrip(tiledMap: TiledMap, pos: Vec2, scale: real, index: nat)
    requires tiledMap.width > 0
    requires tiledMap.tilewidth * scale != 0.0 && tiledMap.tileheight * scale != 0.0
    ensures var p := Spawner(tiledMap, pos, scale, index);
            CellIndexAt(tiledMap.width, pos, p.xoffset, p.yoffset, p.col, p.row) == index
  {
    var c, r := index % tiledMap.width, index / tiledMap.width;
    var p := Spawner(tiledMap, pos, scale, index);
    assert p.col + pos.x == c as real * p.xoffset;
    assert -(p.row + pos.y) == r as real * p.yoffset;
    ScaledFloor(c, p.xoffset, p.col + pos.x);
    ScaledFloor(r, p.yoffset, -(p.row + pos.y));
    assert CellIndexAt(tiledMap.width, pos, p.xoffset, p.yoffset, p.col, p.row) == r * tiledMap.width + c;
  }

  /** Distinct cells of a layer are placed at distinct world positions. */
  lemma SpawnerInjective(tiledMap: TiledMap, pos: Vec2, scale: real, i: nat, j: nat)
    requires tiledMap.width > 0
    requires tiledMap.tilewidth * scale != 0.0 && tiledMap.tileheight * scale != 0.0
    requires i != j
    ensures Spawner(tiledMap, pos, scale, i).col != Spawner(tiledMap, pos, scale, j).col
         || Spawner(tiledMap, pos, scale, i).row != Spawner(tiledMap, pos, scale, j).row
  {
  }
}
