/** The wall block whose shape follows its neighbours: which sides it joins,
    whether its centre post is drawn, and which box it collides with and is
    outlined by. Lengths are in sixteenths of a block. */
module GenericWall {
  import opened World

  /** The wall's block state: its four side connections and its full-height post. */
  datatype WallState = WallState(north: bool, east: bool, west: bool, south: bool, up: bool)

  /** The state a freshly constructed wall block starts from. */
  const DefaultState := WallState(false, false, false, false, false)

  /** Whether the state joins the wall towards f. */
  function Connected(s: WallState, f: Facing): bool {
    match f
    case North => s.north
    case South => s.south
    case West => s.west
    case East => s.east
  }

  /** Two states agree on all four side connections (the post may differ). */
  predicate SameConnections(a: WallState, b: WallState) {
    forall f :: Connected(a, f) == Connected(b, f)
  }

  // ---------------------------------------------------------------------------
  // Connectivity
  // ---------------------------------------------------------------------------

  /** Whether a wall joins to the block at p: always to another wall or a fence
      gate, otherwise only to an opaque full cube that is not a gourd. */
  function CanConnectTo(view: BlockView, p: Pos): (r: bool)
    ensures BlockAt(view, p).isGenericWall || BlockAt(view, p).isFenceGate ==> r
    ensures !BlockAt(view, p).isGenericWall && !BlockAt(view, p).isFenceGate ==>
      (r <==> BlockAt(view, p).isOpaque && BlockAt(view, p).isFullCube && !BlockAt(view, p).isGourd)
    ensures p !in view ==> !r
  {
    var b := BlockAt(view, p);
    if b.isGenericWall || b.isFenceGate then
      true
    else if b.isOpaque && b.isFullCube then
      !b.isGourd
    else
      false
  }

  /** Whether the block above the wall at pos asks for full height: a torch
      always does, anything else only when the wall would join to it. */
  function CanConnectUp(view: BlockView, pos: Pos): (r: bool)
    ensures BlockAt(view, Up(pos)).isTorch ==> r
    ensures !BlockAt(view, Up(pos)).isTorch ==> r == CanConnectTo(view, Up(pos))
  {
    var upPos := Up(pos);
    BlockAt(view, upPos).isTorch || CanConnectTo(view, upPos)
  }

  /** Number of the four sides that are joined. */
  function ConnectionCount(north: bool, south: bool, west: bool, east: bool): (n: nat)
    ensures n <= 4
  {
    (if north then 1 else 0) + (if south then 1 else 0) + (if west then 1 else 0) + (if east then 1 else 0)
  }

  /** The post rule: the centre post is left out only for a straight run along one
      axis with the other axis open and nothing above asking for full height. */
  function HasPost(isUp: bool, isNorth: bool, isSouth: bool, isWest: bool, isEast: bool): (r: bool)
    ensures isUp ==> r
    ensures !isUp ==>
      (!r <==> ConnectionCount(isNorth, isSouth, isWest, isEast) == 2 && isNorth == isSouth && isWest == isEast)
    ensures ConnectionCount(isNorth, isSouth, isWest, isEast) != 2 ==> r
  {
    isUp || !((isNorth && isSouth && !isEast && !isWest) || (isEast && isWest && !isNorth && !isSouth))
  }

  /** The state the wall at pos is shown in: each side joined exactly when the
      neighbour there is connectable, and the post set by the post rule. */
  function ActualState(state: WallState, view: BlockView, pos: Pos): (r: WallState)
    ensures forall f :: Connected(r, f) == CanConnectTo(view, Offset(pos, f))
    ensures r.up == HasPost(CanConnectUp(view, pos), r.north, r.south, r.west, r.east)
  {
    var isUp := CanConnectUp(view, pos);
    var isNorth := CanConnectTo(view, Offset(pos, North));
    var isSouth := CanConnectTo(view, Offset(pos, South));
    var isWest := CanConnectTo(view, Offset(pos, West));
    var isEast := CanConnectTo(view, Offset(pos, East));
    var hasPost := HasPost(isUp, isNorth, isSouth, isWest, isEast);
    state.(north := isNorth).(south := isSouth).(west := isWest).(east := isEast).(up := hasPost)
  }

  /** The shown state is recomputed from the world alone: the stored state plays
      no part, so it is the one shown for a wall still in its default state. */
  lemma ActualStateIgnoresStoredState(s1: WallState, s2: WallState, view: BlockView, pos: Pos)
    ensures ActualState(s1, view, pos) == ActualState(s2, view, pos)
    ensures ActualState(s1, view, pos) == ActualState(DefaultState, view, pos)
  {
  }

  /** A torch on top always gives a post; with nothing connectable above, the post
      is missing exactly for a straight north-south or east-west run. */
  lemma ActualStatePost(state: WallState, view: BlockView, pos: Pos)
    ensures BlockAt(view, Up(pos)).isTorch ==> ActualState(state, view, pos).up
    ensures !ActualState(state, view, pos).up <==>
      && !BlockAt(view, Up(pos)).isTorch
      && !CanConnectTo(view, Up(pos))
      && CanConnectTo(view, Offset(pos, North)) == CanConnectTo(view, Offset(pos, South))
      && CanConnectTo(view, Offset(pos, West)) == CanConnectTo(view, Offset(pos, East))
      && CanConnectTo(view, Offset(pos, North)) != CanConnectTo(view, Offset(pos, West))
  {
    var r := ActualState(state, view, pos);
    assert r.north == CanConnectTo(view, Offset(pos, North)) by { assert Connected(r, North) == r.north; }
    assert r.south == CanConnectTo(view, Offset(pos, South)) by { assert Connected(r, South) == r.south; }
    assert r.west == CanConnectTo(view, Offset(pos, West)) by { assert Connected(r, West) == r.west; }
    assert r.east == CanConnectTo(view, Offset(pos, East)) by { assert Connected(r, East) == r.east; }
  }

  // ---------------------------------------------------------------------------
  // Bounding-box index
  // ---------------------------------------------------------------------------

  function Pow2(k: nat): (p: nat)
    ensures p >= 1
  {
    if k == 0 then 1 else 2 * Pow2(k - 1)
  }

  /** Whether bit k of n is set. */
  predicate TestBit(n: nat, k: nat) {
    (n / Pow2(k)) % 2 == 1
  }

  /** The weight the facing's flag carries in the index: 1 shifted by its horizontal index. */
  function Weight(f: Facing): nat {
    Pow2(HorizontalIndex(f))
  }

  /** Reference definition of the index: the sum of the weights of the joined
      sides, which are distinct powers of two, so the sum is their bitwise OR. */
  function ConnectionMask(s: WallState): (m: nat)
    ensures m < 16
  {
    (if s.south then Weight(South) else 0)
    + (if s.west then Weight(West) else 0)
    + (if s.north then Weight(North) else 0)
    + (if s.east then Weight(East) else 0)
  }

  /** The index packs the flags into a bit each: the bit at a facing's horizontal
      index is set exactly when the state joins towards that facing. */
  lemma ConnectionMaskBits(s: WallState, f: Facing)
    ensures TestBit(ConnectionMask(s), HorizontalIndex(f)) <==> Connected(s, f)
  {
    var m := ConnectionMask(s);
    assert Pow2(0) == 1 && Pow2(1) == 2 && Pow2(2) == 4 && Pow2(3) == 8;
    assert m == (if s.south then 1 else 0) + (if s.west then 2 else 0)
              + (if s.north then 4 else 0) + (if s.east then 8 else 0);
  }

  /** Two states get the same index exactly when they agree on the four sides:
      different connection patterns never share an index, and the post flag
      never changes it. */
  lemma ConnectionMaskInjective(a: WallState, b: WallState)
    ensures ConnectionMask(a) == ConnectionMask(b) <==> SameConnections(a, b)
  {
    if ConnectionMask(a) == ConnectionMask(b) {
      forall f ensures Connected(a, f) == Connected(b, f) {
        ConnectionMaskBits(a, f);
        ConnectionMaskBits(b, f);
      }
    }
    if SameConnections(a, b) {
      assert Connected(a, North) == Connected(b, North);
      assert Connected(a, South) == Connected(b, South);
      assert Connected(a, West) == Connected(b, West);
      assert Connected(a, East) == Connected(b, East);
    }
  }

  /** The connection pattern an index stands for (post cleared). */
  function DecodeMask(i: nat): (s: WallState)
    requires i < 16
    ensures !s.up
  {
    WallState(TestBit(i, HorizontalIndex(North)), TestBit(i, HorizontalIndex(East)),
              TestBit(i, HorizontalIndex(West)), TestBit(i, HorizontalIndex(South)), false)
  }

  /** Decoding an index and packing it again gives the index back: every entry
      of the 16-entry tables is reached by some connection pattern. */
  lemma DecodeMaskRoundTrip(i: nat)
    requires i < 16
    ensures ConnectionMask(DecodeMask(i)) == i
  {
    assert Pow2(0) == 1 && Pow2(1) == 2 && Pow2(2) == 4 && Pow2(3) == 8;
    assert i == i % 2 + 2 * ((i / 2) % 2) + 4 * ((i / 4) % 2) + 8 * ((i / 8) % 2);
  }

  /** Packing a state and decoding the index gives back its four connections. */
  lemma MaskDecodeRoundTrip(s: WallState)
    ensures DecodeMask(ConnectionMask(s)) == s.(up := false)
  {
    var d := DecodeMask(ConnectionMask(s));
    forall f ensures Connected(d, f) == Connected(s, f) {
      ConnectionMaskBits(s, f);
    }
    assert d.north == s.north by { assert Connected(d, North) == Connected(s, North); }
    assert d.south == s.south by { assert Connected(d, South) == Connected(s, South); }
    assert d.west == s.west by { assert Connected(d, West) == Connected(s, West); }
    assert d.east == s.east by { assert Connected(d, East) == Connected(s, East); }
  }

  /** The index of the bounding-box tables for a state, built by OR-ing in one
      bit per joined side, as the engine's 32-bit int. */
  method GetBoundingBoxIndex(blockState: WallState) returns (index: bv32)
    ensures index < 16
    ensures index as int == ConnectionMask(blockState)
    ensures forall f :: TestBit(index as int, HorizontalIndex(f)) <==> Connected(blockState, f)
  {
    index := 0;
    if blockState.north {
      index := index | (1 << HorizontalIndex(North));
    }
    if blockState.east {
      index := index | (1 << HorizontalIndex(East));
    }
    if blockState.south {
      index := index | (1 << HorizontalIndex(South));
    }
    if blockState.west {
      index := index | (1 << HorizontalIndex(West));
    }
    assert Pow2(0) == 1 && Pow2(1) == 2 && Pow2(2) == 4 && Pow2(3) == 8;
    forall f ensures TestBit(index as int, HorizontalIndex(f)) <==> Connected(blockState, f) {
      ConnectionMaskBits(blockState, f);
    }
  }

  // ---------------------------------------------------------------------------
  // Bounding-box tables
  // ---------------------------------------------------------------------------

  /** An axis-aligned box, each coordinate in sixteenths of a block. */
  datatype Box = Box(minX: int, minY: int, minZ: int, maxX: int, maxY: int, maxZ: int)

  /** The box lies within the unit block, up to the given height. */
  predicate WithinCube(b: Box, height: int) {
    0 <= b.minX < b.maxX <= 16 && 0 <= b.minY < b.maxY <= height && 0 <= b.minZ < b.maxZ <= 16
  }

  /** The box touches the block's face on side f. */
  predicate ReachesFace(b: Box, f: Facing) {
    match f
    case North => b.minZ == 0
    case South => b.maxZ == 16
    case West => b.minX == 0
    case East => b.maxX == 16
  }

  /** The box, placed in the block at from, touches the face that block shares
      with the block at to, the neighbour one step away along x or z. */
  predicate ExtendsToward(b: Box, from: Pos, to: Pos) {
    || (to.z < from.z && b.minZ == 0)
    || (to.z > from.z && b.maxZ == 16)
    || (to.x < from.x && b.minX == 0)
    || (to.x > from.x && b.maxX == 16)
  }

  /** Reaching the face named f is reaching toward the neighbour in direction f:
      the face names agree with where the neighbours are. */
  lemma ReachesFaceTowardNeighbour(b: Box, p: Pos, f: Facing)
    ensures ReachesFace(b, f) <==> ExtendsToward(b, p, Offset(p, f))
  {
  }

  /** Two boxes have the same horizontal extents and the same bottom. */
  predicate SameFootprint(a: Box, b: Box) {
    a.minX == b.minX && a.maxX == b.maxX && a.minZ == b.minZ && a.maxZ == b.maxZ && a.minY == b.minY
  }

  /** The box with only its top moved to y. */
  function SetMaxY(b: Box, y: int): (r: Box)
    ensures SameFootprint(r, b) && r.maxY == y
  {
    b.(maxY := y)
  }

  /** Collision boxes by index (1/4 = 4, 5/16 = 5, 11/16 = 11, 3/4 = 12, 7/8 = 14, 1 = 16):
      sixteen boxes, each standing on the floor of the block and lying within it. */
  function BoundingBoxes(): (boxes: seq<Box>)
    ensures |boxes| == 16
    ensures forall i :: 0 <= i < 16 ==> boxes[i].minY == 0 && WithinCube(boxes[i], 16)
  {
    [
    Box(4, 0, 4, 12, 16, 12),
    Box(4, 0, 4, 12, 16, 16),
    Box(0, 0, 4, 12, 16, 12),
    Box(0, 0, 4, 12, 16, 16),
    Box(4, 0, 0, 12, 16, 12),
    Box(5, 0, 0, 11, 14, 16),
    Box(0, 0, 0, 12, 16, 12),
    Box(0, 0, 0, 12, 16, 16),
    Box(4, 0, 4, 16, 16, 12),
    Box(4, 0, 4, 16, 16, 16),
    Box(0, 0, 5, 16, 14, 11),
    Box(0, 0, 4, 16, 16, 16),
    Box(4, 0, 0, 16, 16, 12),
    Box(4, 0, 0, 16, 16, 16),
    Box(0, 0, 0, 16, 16, 12),
    Box(0, 0, 0, 16, 16, 16)
    ]
  }

  /** The height of the selection outline: one and a half blocks. */
  const SelectedMaxY := 24

  /** Selection-outline boxes: entry i is collision box i with its top raised
      to one and a half blocks. */
  function SelectedBoundingBoxes(): (boxes: seq<Box>)
    ensures |boxes| == 16
    ensures forall i :: 0 <= i < 16 ==>
      SameFootprint(boxes[i], BoundingBoxes()[i]) && boxes[i].maxY == SelectedMaxY
  {
    var table := BoundingBoxes();
    seq(16, i requires 0 <= i < 16 => SetMaxY(table[i], SelectedMaxY))
  }

  /** Collision box i reaches the block face on side f exactly when the bit for
      f is set in i: the table is laid out by the packed index. */
  lemma BoundingBoxReachesFace(i: nat, f: Facing)
    requires i < 16
    ensures ReachesFace(BoundingBoxes()[i], f) <==> TestBit(i, HorizontalIndex(f))
  {
    assert Pow2(0) == 1 && Pow2(1) == 2 && Pow2(2) == 4 && Pow2(3) == 8;
  }

  /** Each selection box keeps the footprint and bottom of the collision box at
      the same index, with a top that is strictly higher. */
  lemma SelectedBoxRaisesTop(i: nat)
    requires i < 16
    ensures |SelectedBoundingBoxes()| == 16
    ensures SameFootprint(SelectedBoundingBoxes()[i], BoundingBoxes()[i])
    ensures SelectedBoundingBoxes()[i].maxY == SelectedMaxY > BoundingBoxes()[i].maxY
    ensures WithinCube(SelectedBoundingBoxes()[i], SelectedMaxY)
  {
  }

  /** The collision box is lowered below full height exactly for the patterns
      where the post rule, with nothing above, leaves the post out. */
  lemma LoweredBoxExactlyWithoutPost(s: WallState)
    ensures BoundingBoxes()[ConnectionMask(s)].maxY < 16 <==> !HasPost(false, s.north, s.south, s.west, s.east)
  {
    assert Pow2(0) == 1 && Pow2(1) == 2 && Pow2(2) == 4 && Pow2(3) == 8;
  }

  /** The collision box of the wall at pos: taken from the table at the index of
      the recomputed state, so it reaches exactly the faces whose neighbours are
      connectable. */
  method GetBoundingBox(state: WallState, source: BlockView, pos: Pos) returns (box: Box)
    ensures box == BoundingBoxes()[ConnectionMask(ActualState(state, source, pos))]
    ensures box.minY == 0 && WithinCube(box, 16)
    ensures forall f :: ReachesFace(box, f) <==> CanConnectTo(source, Offset(pos, f))
    ensures forall f :: ExtendsToward(box, pos, Offset(pos, f)) <==> CanConnectTo(source, Offset(pos, f))
  {
    var actualState := ActualState(state, source, pos);
    var index := GetBoundingBoxIndex(actualState);
    box := BoundingBoxes()[index];
    forall f ensures ReachesFace(box, f) <==> CanConnectTo(source, Offset(pos, f)) {
      BoundingBoxReachesFace(index as int, f);
    }
    forall f ensures ExtendsToward(box, pos, Offset(pos, f)) <==> ReachesFace(box, f) {
      ReachesFaceTowardNeighbour(box, pos, f);
    }
  }

  /** The selection outline of the wall at pos: the box at the same index as the
      collision box, raised to one and a half blocks. */
  method GetSelectedBoundingBox(blockState: WallState, worldIn: BlockView, pos: Pos) returns (box: Box)
    ensures box == SelectedBoundingBoxes()[ConnectionMask(ActualState(blockState, worldIn, pos))]
    ensures SameFootprint(box, BoundingBoxes()[ConnectionMask(ActualState(blockState, worldIn, pos))])
    ensures box.maxY == SelectedMaxY && box.minY == 0
    ensures forall f :: ReachesFace(box, f) <==> CanConnectTo(worldIn, Offset(pos, f))
    ensures forall f :: ExtendsToward(box, pos, Offset(pos, f)) <==> CanConnectTo(worldIn, Offset(pos, f))
  {
    var actualState := ActualState(blockState, worldIn, pos);
    var index := GetBoundingBoxIndex(actualState);
    box := SelectedBoundingBoxes()[index];
    SelectedBoxRaisesTop(index as int);
    forall f ensures ReachesFace(box, f) <==> CanConnectTo(worldIn, Offset(pos, f)) {
      BoundingBoxReachesFace(index as int, f);
    }
    forall f ensures ExtendsToward(box, pos, Offset(pos, f)) <==> ReachesFace(box, f) {
      ReachesFaceTowardNeighbour(box, pos, f);
    }
  }
}
