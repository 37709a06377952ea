/** The cell filter of the world builder (`allow_tile`). */
module Cells {
  import opened Wrappers
  import opened Resource

  /**
   * Raw value 0 is the empty cell and yields nothing; any other raw value
   * yields its zero-based atlas index or object id.
   */
  function AllowTile(tile: I32): (r: Option<int>)
    ensures r.None? <==> tile == 0
    ensures r.Some? ==> r.value + 1 == tile
    ensures tile > 0 ==> r.Some? && 0 <= r.value < 0x7fff_ffff
  {
    if tile == 0 then None else Some(tile - 1)
  }
}
