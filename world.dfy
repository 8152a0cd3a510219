/** Stand-ins for the engine's world access: block positions, the four
    horizontal facings, and a read-only view of the blocks in the world. */
module World {

  /** A block position; north is -z, south is +z, west is -x, east is +x, up is +y. */
  datatype Pos = Pos(x: int, y: int, z: int)

  /** The four horizontal facings a wall can join towards. */
  datatype Facing = North | South | West | East

  /** What the wall rule asks about the block at a position. */
  datatype BlockInfo = BlockInfo(
    isGenericWall: bool,  // the block is one of this mod's walls
    isFenceGate: bool,    // the block is a fence gate
    isTorch: bool,        // the block is a torch
    isOpaque: bool,       // the block's material is opaque
    isFullCube: bool,     // the block fills its whole cube
    isGourd: bool)        // the block's material is the gourd material

  /** The block reported for a position the view holds nothing for. */
  const Air := BlockInfo(false, false, false, false, false, false)

  /** A view of the world: the blocks it knows of, by position. */
  type BlockView = map<Pos, BlockInfo>

  function BlockAt(view: BlockView, p: Pos): (b: BlockInfo)
    ensures p in view ==> b == view[p]
    ensures p !in view ==> b == Air
  {
    if p in view then view[p] else Air
  }

  /** The position directly above p, which is none of its horizontal neighbours. */
  function Up(p: Pos): (q: Pos)
    ensures q.x == p.x && q.z == p.z && q.y == p.y + 1
    ensures forall f :: q != Offset(p, f)
  {
    Pos(p.x, p.y + 1, p.z)
  }

  /** The horizontally adjacent position in direction f. */
  function Offset(p: Pos, f: Facing): (q: Pos)
    ensures q.y == p.y
    ensures (q.x - p.x) * (q.x - p.x) + (q.z - p.z) * (q.z - p.z) == 1
    ensures f == North ==> q.x == p.x && q.z == p.z - 1
    ensures f == South ==> q.x == p.x && q.z == p.z + 1
    ensures f == West ==> q.x == p.x - 1 && q.z == p.z
    ensures f == East ==> q.x == p.x + 1 && q.z == p.z
  {
    match f
    case North => Pos(p.x, p.y, p.z - 1)
    case South => Pos(p.x, p.y, p.z + 1)
    case West => Pos(p.x - 1, p.y, p.z)
    case East => Pos(p.x + 1, p.y, p.z)
  }

  /** The facing's horizontal index; the engine's values are South 0, West 1,
      North 2, East 3, the order the bounding-box table is laid out in. */
  function HorizontalIndex(f: Facing): (k: nat)
    ensures k < 4
  {
    match f
    case South => 0
    case West => 1
    case North => 2
    case East => 3
  }
}
