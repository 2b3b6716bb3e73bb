/** The structure builders of src/gdmc_mcp/gdpc_utils.py: `build_well`, `build_house`,
    `decorate_area`, `build_path` and `generate_village`. Each builder is a plan, the sequence of
    backend calls its loops make in order, and a method that runs the plan on the editor.
    Random draws are parameters; the library geometry calls are recorded as commands. */
module Builders {
  import opened Types
  import opened Backend
  import opened Errors

  function Abs(v: int): nat { if v < 0 then -v else v }

  // ---------------------------------------------------------------- loop ranges

  /** `range(lo, hi, step)` with a positive step. */
  function RangeStep(lo: int, hi: int, step: int): seq<int>
    requires step > 0
    decreases hi - lo
  {
    if lo >= hi then [] else [lo] + RangeStep(lo + step, hi, step)
  }

  /** `range(lo, hi)` holds exactly lo..hi-1. */
  lemma {:induction false} RangeMembers(lo: int, hi: int)
    ensures forall v :: v in RangeStep(lo, hi, 1) <==> lo <= v < hi
    decreases hi - lo
  {
    if lo < hi {
      RangeMembers(lo + 1, hi);
    }
  }

  /** The stepped ranges of the builders: every step-th value from lo below hi. */
  lemma {:induction false} RangeStepMembers(lo: int, hi: int, step: int)
    requires step == 2 || step == 3
    ensures forall v :: v in RangeStep(lo, hi, step) <==> lo <= v < hi && (v - lo) % step == 0
    decreases hi - lo
  {
    if lo < hi {
      RangeStepMembers(lo + step, hi, step);
      assert RangeStep(lo, hi, step) == [lo] + RangeStep(lo + step, hi, step);
      forall v ensures v in RangeStep(lo, hi, step) <==> lo <= v < hi && (v - lo) % step == 0 {
        if step == 2 {
          assert (v - (lo + 2)) % 2 == (v - lo) % 2;
        } else {
          assert (v - (lo + 3)) % 3 == (v - lo) % 3;
        }
      }
    }
  }

  /** `len(range(lo, hi, step))`, for the builders' steps. */
  lemma {:induction false} RangeStepLength(lo: int, hi: int, step: int)
    requires step == 2 || step == 3
    ensures |RangeStep(lo, hi, step)| == if lo < hi then (hi - lo + step - 1) / step else 0
    decreases hi - lo
  {
    if lo < hi {
      RangeStepLength(lo + step, hi, step);
    }
  }

  // ---------------------------------------------------------------- nested offset loops

  /** The filters of the nested `for dx ... for dz ...` loops. */
  datatype Shape =
    | Square       // no filter
    | NoCorners    // skip `abs(dx) == 2 and abs(dz) == 2`
    | FenceSpots   // skip the centre and the corners
    | SlabRing     // `2.5 <= sqrt(dx*dx + dz*dz) <= 3.5`, squared

  predicate Keeps(s: Shape, dx: int, dz: int)
  {
    match s
    case Square => true
    case NoCorners => !(Abs(dx) == 2 && Abs(dz) == 2)
    case FenceSpots => !(dx == 0 && dz == 0) && !(Abs(dx) == 2 && Abs(dz) == 2)
    case SlabRing => 7 <= dx * dx + dz * dz <= 12
  }

  /** The square root comparison on whole offsets: 2.5 <= dist <= 3.5 exactly when the squared
      distance lies in 7..12. */
  lemma SlabRingInteger(dx: int, dz: int)
    ensures Keeps(SlabRing, dx, dz) <==> 2.5 * 2.5 <= (dx * dx + dz * dz) as real <= 3.5 * 3.5
  {
  }

  function RowOffsets(dx: int, z: int, hi: int, step: int, s: Shape): seq<(int, int)>
    requires step > 0
    decreases hi - z
  {
    if z >= hi then []
    else (if Keeps(s, dx, z) then [(dx, z)] else []) + RowOffsets(dx, z + step, hi, step, s)
  }

  /** The offsets that `for dx in range(lo, hi, step): for dz in range(lo, hi, step)` visits
      and keeps, row by row; `x` is where the outer loop stands. */
  function Offsets(x: int, lo: int, hi: int, step: int, s: Shape): seq<(int, int)>
    requires step > 0
    decreases hi - x
  {
    if x >= hi then [] else RowOffsets(x, lo, hi, step, s) + Offsets(x + step, lo, hi, step, s)
  }

  lemma {:induction false} RowOffsetsMembers(dx: int, z: int, hi: int, step: int, s: Shape)
    requires step > 0
    ensures forall o :: o in RowOffsets(dx, z, hi, step, s) <==>
      o.0 == dx && o.1 in RangeStep(z, hi, step) && Keeps(s, dx, o.1)
    decreases hi - z
  {
    if z < hi {
      RowOffsetsMembers(dx, z + step, hi, step, s);
      var here := if Keeps(s, dx, z) then [(dx, z)] else [];
      var rest := RowOffsets(dx, z + step, hi, step, s);
      assert RowOffsets(dx, z, hi, step, s) == here + rest;
      assert RangeStep(z, hi, step) == [z] + RangeStep(z + step, hi, step);
      forall o: (int, int)
        ensures o in here + rest <==> o.0 == dx && o.1 in RangeStep(z, hi, step) && Keeps(s, dx, o.1)
      {
        assert o in here + rest <==> o in here || o in rest;
        assert o.1 in RangeStep(z, hi, step) <==> o.1 == z || o.1 in RangeStep(z + step, hi, step);
      }
    }
  }

  lemma {:induction false} OffsetsMembers(x: int, lo: int, hi: int, step: int, s: Shape)
    requires step > 0
    ensures forall o :: o in Offsets(x, lo, hi, step, s) <==>
      o.0 in RangeStep(x, hi, step) && o.1 in RangeStep(lo, hi, step) && Keeps(s, o.0, o.1)
    decreases hi - x
  {
    if x < hi {
      RowOffsetsMembers(x, lo, hi, step, s);
      OffsetsMembers(x + step, lo, hi, step, s);
      var row := RowOffsets(x, lo, hi, step, s);
      var rest := Offsets(x + step, lo, hi, step, s);
      assert RangeStep(x, hi, step) == [x] + RangeStep(x + step, hi, step);
      assert Offsets(x, lo, hi, step, s) == row + rest;
      forall o: (int, int)
        ensures o in row + rest <==> o.0 in RangeStep(x, hi, step) && o.1 in RangeStep(lo, hi, step) && Keeps(s, o.0, o.1)
      {
        assert o in row + rest <==> o in row || o in rest;
        assert o.0 in RangeStep(x, hi, step) <==> o.0 == x || o.0 in RangeStep(x + step, hi, step);
      }
    }
  }

  /** One `placeBlock` per offset, at level `dy` relative to p. */
  function Level(p: Vec3, offs: seq<(int, int)>, dy: int, b: Block): (cs: seq<Call>)
    ensures |cs| == |offs|
  {
    seq(|offs|, i requires 0 <= i < |offs| => SetBlock(Vec3(p.x + offs[i].0, p.y + dy, p.z + offs[i].1), b))
  }

  lemma LevelMembers(p: Vec3, offs: seq<(int, int)>, dy: int, b: Block)
    ensures forall c :: c in Level(p, offs, dy, b) <==>
      c.SetBlock? && c.block == b && c.pos.y == p.y + dy && (c.pos.x - p.x, c.pos.z - p.z) in offs
  {
    var cs := Level(p, offs, dy, b);
    forall c: Call | c.SetBlock? && c.block == b && c.pos.y == p.y + dy && (c.pos.x - p.x, c.pos.z - p.z) in offs
      ensures c in cs
    {
      var i :| 0 <= i < |offs| && offs[i] == (c.pos.x - p.x, c.pos.z - p.z);
      assert cs[i] == c;
    }
  }

  // ---------------------------------------------------------------- build_well

  const StoneBricks: Block := Simple("stone_bricks")
  const CobblestoneWall: Block := Simple("cobblestone_wall")
  const OakFence: Block := Simple("oak_fence")
  const OakSlab: Block := Simple("oak_slab")
  const Water: Block := Simple("water")
  const StoneSlab: Block := Simple("stone_slab")

  /** The offsets the well's nested loops visit, in loop order; each list is proved equal to
      its loop below. */
  function BaseOffsets(): seq<(int, int)>
  {
    [(-2, -1), (-2, 0), (-2, 1)]
    + ([(-1, -2), (-1, -1), (-1, 0), (-1, 1), (-1, 2)]
    + ([(0, -2), (0, -1), (0, 0), (0, 1), (0, 2)]
    + ([(1, -2), (1, -1), (1, 0), (1, 1), (1, 2)]
    + ([(2, -1), (2, 0), (2, 1)]))))
  }

  function FenceOffsets(): seq<(int, int)> { [(-2, 0), (0, -2), (0, 2), (2, 0)] }

  function RoofOffsets(): seq<(int, int)>
  {
    [(-1, -1), (-1, 0), (-1, 1)]
    + ([(0, -1), (0, 0), (0, 1)]
    + ([(1, -1), (1, 0), (1, 1)]))
  }

  function RingOffsets(): seq<(int, int)>
  {
    [(-3, -1), (-3, 0), (-3, 1)]
    + ([(-2, -2), (-2, 2)]
    + ([(-1, -3), (-1, 3)]
    + ([(0, -3), (0, 3)]
    + ([(1, -3), (1, 3)]
    + ([(2, -2), (2, 2)]
    + ([(3, -1), (3, 0), (3, 1)]))))))
  }

  /** `for dx in range(-2, 3): for dz in range(-2, 3)`, skipping the four corners. */
  lemma BaseLoop()
    ensures BaseOffsets() == Offsets(-2, -2, 3, 1, NoCorners)
  {
    BaseRowsWest();
    BaseRowsEast();
    assert Offsets(2, -2, 3, 1, NoCorners) == RowOffsets(2, -2, 3, 1, NoCorners);
    assert Offsets(1, -2, 3, 1, NoCorners) == RowOffsets(1, -2, 3, 1, NoCorners) + Offsets(2, -2, 3, 1, NoCorners);
    assert Offsets(0, -2, 3, 1, NoCorners) == RowOffsets(0, -2, 3, 1, NoCorners) + Offsets(1, -2, 3, 1, NoCorners);
    assert Offsets(-1, -2, 3, 1, NoCorners) == RowOffsets(-1, -2, 3, 1, NoCorners) + Offsets(0, -2, 3, 1, NoCorners);
    assert Offsets(-2, -2, 3, 1, NoCorners) == RowOffsets(-2, -2, 3, 1, NoCorners) + Offsets(-1, -2, 3, 1, NoCorners);
  }

  /** The base rows for dx = -2 and -1. */
  lemma BaseRowsWest()
    ensures RowOffsets(-2, -2, 3, 1, NoCorners) == [(-2, -1), (-2, 0), (-2, 1)]
    ensures RowOffsets(-1, -2, 3, 1, NoCorners) == [(-1, -2), (-1, -1), (-1, 0), (-1, 1), (-1, 2)]
  {
  }

  /** The base rows for dx = 0 .. 2. */
  lemma BaseRowsEast()
    ensures RowOffsets(0, -2, 3, 1, NoCorners) == [(0, -2), (0, -1), (0, 0), (0, 1), (0, 2)]
    ensures RowOffsets(1, -2, 3, 1, NoCorners) == [(1, -2), (1, -1), (1, 0), (1, 1), (1, 2)]
    ensures RowOffsets(2, -2, 3, 1, NoCorners) == [(2, -1), (2, 0), (2, 1)]
  {
  }

  /** `for dx in [-2, 0, 2]: for dz in [-2, 0, 2]`, skipping the centre and the corners. */
  lemma FenceLoop()
    ensures FenceOffsets() == Offsets(-2, -2, 3, 2, FenceSpots)
  {
  }

  /** `for dx in range(-1, 2): for dz in range(-1, 2)`. */
  lemma RoofLoop()
    ensures RoofOffsets() == Offsets(-1, -1, 2, 1, Square)
  {
    assert RowOffsets(-1, -1, 2, 1, Square) == [(-1, -1), (-1, 0), (-1, 1)];
    assert RowOffsets(0, -1, 2, 1, Square) == [(0, -1), (0, 0), (0, 1)];
    assert RowOffsets(1, -1, 2, 1, Square) == [(1, -1), (1, 0), (1, 1)];
    assert Offsets(1, -1, 2, 1, Square) == RowOffsets(1, -1, 2, 1, Square);
    assert Offsets(0, -1, 2, 1, Square) == RowOffsets(0, -1, 2, 1, Square) + Offsets(1, -1, 2, 1, Square);
    assert Offsets(-1, -1, 2, 1, Square) == RowOffsets(-1, -1, 2, 1, Square) + Offsets(0, -1, 2, 1, Square);
  }

  /** `for dx in range(-3, 4): for dz in range(-3, 4)`, keeping 2.5 <= dist <= 3.5. */
  lemma RingLoop()
    ensures RingOffsets() == Offsets(-3, -3, 4, 1, SlabRing)
  {
    RingRowsWest();
    RingRowsEast();
    assert Offsets(3, -3, 4, 1, SlabRing) == RowOffsets(3, -3, 4, 1, SlabRing);
    assert Offsets(2, -3, 4, 1, SlabRing) == RowOffsets(2, -3, 4, 1, SlabRing) + Offsets(3, -3, 4, 1, SlabRing);
    assert Offsets(1, -3, 4, 1, SlabRing) == RowOffsets(1, -3, 4, 1, SlabRing) + Offsets(2, -3, 4, 1, SlabRing);
    assert Offsets(0, -3, 4, 1, SlabRing) == RowOffsets(0, -3, 4, 1, SlabRing) + Offsets(1, -3, 4, 1, SlabRing);
    assert Offsets(-1, -3, 4, 1, SlabRing) == RowOffsets(-1, -3, 4, 1, SlabRing) + Offsets(0, -3, 4, 1, SlabRing);
    assert Offsets(-2, -3, 4, 1, SlabRing) == RowOffsets(-2, -3, 4, 1, SlabRing) + Offsets(-1, -3, 4, 1, SlabRing);
    assert Offsets(-3, -3, 4, 1, SlabRing) == RowOffsets(-3, -3, 4, 1, SlabRing) + Offsets(-2, -3, 4, 1, SlabRing);
  }

  /** The slab ring rows for dx = -3 .. -1. */
  lemma RingRowsWest()
    ensures RowOffsets(-3, -3, 4, 1, SlabRing) == [(-3, -1), (-3, 0), (-3, 1)]
    ensures RowOffsets(-2, -3, 4, 1, SlabRing) == [(-2, -2), (-2, 2)]
    ensures RowOffsets(-1, -3, 4, 1, SlabRing) == [(-1, -3), (-1, 3)]
  {
  }

  /** The slab ring rows for dx = 0 .. 3. */
  lemma RingRowsEast()
    ensures RowOffsets(0, -3, 4, 1, SlabRing) == [(0, -3), (0, 3)]
    ensures RowOffsets(1, -3, 4, 1, SlabRing) == [(1, -3), (1, 3)]
    ensures RowOffsets(2, -3, 4, 1, SlabRing) == [(2, -2), (2, 2)]
    ensures RowOffsets(3, -3, 4, 1, SlabRing) == [(3, -1), (3, 0), (3, 1)]
  {
  }

  /** The well base is the 5x5 square without its corners, and the slab ring has 16 places. */
  lemma WellCounts()
    ensures |Offsets(-2, -2, 3, 1, NoCorners)| == 21
    ensures |Offsets(-1, -1, 2, 1, Square)| == 9
    ensures |Offsets(-2, -2, 3, 2, FenceSpots)| == 4
    ensures |Offsets(-3, -3, 4, 1, SlabRing)| == 16
  {
    BaseLoop();
    RoofLoop();
    FenceLoop();
    RingLoop();
  }

  /** The fence loop runs over `[-2, 0, 2]` in both directions. */
  lemma FenceRange()
    ensures RangeStep(-2, 3, 2) == [-2, 0, 2]
  {
  }

  /** The two wall posts at each corner, at `y + 1` then `y + 2`. */
  function Posts(p: Vec3, dirs: seq<(int, int)>): seq<Call>
  {
    if dirs == [] then []
    else [SetBlock(Vec3(p.x + dirs[0].0 * 2, p.y + 1, p.z + dirs[0].1 * 2), CobblestoneWall),
          SetBlock(Vec3(p.x + dirs[0].0 * 2, p.y + 2, p.z + dirs[0].1 * 2), CobblestoneWall)]
         + Posts(p, dirs[1..])
  }

  const Corners: seq<(int, int)> := [(-1, -1), (-1, 1), (1, -1), (1, 1)]

  lemma {:induction false} PostsMembers(p: Vec3, dirs: seq<(int, int)>)
    ensures forall c :: c in Posts(p, dirs) <==>
      c.SetBlock? && c.block == CobblestoneWall && (c.pos.y == p.y + 1 || c.pos.y == p.y + 2)
      && (c.pos.x - p.x) % 2 == 0 && (c.pos.z - p.z) % 2 == 0
      && ((c.pos.x - p.x) / 2, (c.pos.z - p.z) / 2) in dirs
  {
    if dirs != [] {
      PostsMembers(p, dirs[1..]);
      assert dirs == [dirs[0]] + dirs[1..];
    }
  }

  /** The water under one offset: three deep at the centre, one deep elsewhere. */
  function Column(p: Vec3, dx: int, dz: int): seq<Call>
  {
    var depth := if dx == 0 && dz == 0 then 3 else 1;
    seq(depth, i requires 0 <= i < depth => SetBlock(Vec3(p.x + dx, p.y - (i + 1), p.z + dz), Water))
  }

  function WaterColumns(p: Vec3, offs: seq<(int, int)>): seq<Call>
  {
    if offs == [] then [] else Column(p, offs[0].0, offs[0].1) + WaterColumns(p, offs[1..])
  }

  lemma ColumnMembers(p: Vec3, dx: int, dz: int)
    ensures forall c :: c in Column(p, dx, dz) <==>
      c.SetBlock? && c.block == Water && c.pos.x - p.x == dx && c.pos.z - p.z == dz
      && (c.pos.y == p.y - 1 || (c.pos.x == p.x && c.pos.z == p.z && (c.pos.y == p.y - 2 || c.pos.y == p.y - 3)))
  {
    var col := Column(p, dx, dz);
    forall c: Call | c.SetBlock? && c.block == Water && c.pos.x - p.x == dx && c.pos.z - p.z == dz
      && (c.pos.y == p.y - 1 || (c.pos.x == p.x && c.pos.z == p.z && (c.pos.y == p.y - 2 || c.pos.y == p.y - 3)))
      ensures c in col
    {
      assert col[p.y - c.pos.y - 1] == c;
    }
  }


  lemma {:induction false} WaterColumnsMembers(p: Vec3, offs: seq<(int, int)>)
    ensures forall c :: c in WaterColumns(p, offs) <==>
      c.SetBlock? && c.block == Water && (c.pos.x - p.x, c.pos.z - p.z) in offs
      && (c.pos.y == p.y - 1 || (c.pos.x == p.x && c.pos.z == p.z && (c.pos.y == p.y - 2 || c.pos.y == p.y - 3)))
  {
    if offs != [] {
      WaterColumnsMembers(p, offs[1..]);
      ColumnMembers(p, offs[0].0, offs[0].1);
      assert offs == [offs[0]] + offs[1..];
    }
  }

  /** `build_well`: base, wall posts, fences, roof, water, then the ring of slabs. */
  function WellPlan(p: Vec3): seq<Call>
  {
    Level(p, BaseOffsets(), 0, StoneBricks)
    + Posts(p, Corners)
    + Level(p, FenceOffsets(), 1, OakFence)
    + Level(p, RoofOffsets(), 3, OakSlab)
    + WaterColumns(p, RoofOffsets())
    + Level(p, RingOffsets(), 0, StoneSlab)
  }

  /** The parts of the well. */
  datatype WellPart = Base | Ring | Post | Fence | Roof | WaterPart

  function PartBlock(part: WellPart): Block
  {
    match part
    case Base => StoneBricks
    case Ring => StoneSlab
    case Post => CobblestoneWall
    case Fence => OakFence
    case Roof => OakSlab
    case WaterPart => Water
  }

  /** The finished well relative to its centre: which part, if any, holds each offset. */
  function WellLayout(d: Vec3): Option<WellPart>
  {
    var corner := Abs(d.x) == 2 && Abs(d.z) == 2;
    if d.y == 0 && Abs(d.x) <= 2 && Abs(d.z) <= 2 && !corner then Some(Base)
    else if d.y == 0 && 7 <= d.x * d.x + d.z * d.z <= 12 then Some(Ring)
    else if (d.y == 1 || d.y == 2) && corner then Some(Post)
    else if d.y == 1 && (d.x == -2 || d.x == 0 || d.x == 2) && (d.z == -2 || d.z == 0 || d.z == 2)
            && !(d.x == 0 && d.z == 0) then Some(Fence)
    else if d.y == 3 && Abs(d.x) <= 1 && Abs(d.z) <= 1 then Some(Roof)
    else if d.y == -1 && Abs(d.x) <= 1 && Abs(d.z) <= 1 then Some(WaterPart)
    else if (d.y == -2 || d.y == -3) && d.x == 0 && d.z == 0 then Some(WaterPart)
    else None
  }

  lemma SquareBounds(v: int, k: nat)
    ensures Abs(v) >= k ==> v * v >= k * k
    ensures Abs(v) <= k ==> v * v <= k * k
    ensures v * v >= 0
  {
    var a := Abs(v);
    assert v * v == a * a;
    if a >= k {
      assert a * a >= k * a >= k * k;
    } else {
      assert a * a <= k * a <= k * k;
    }
  }

  /** The ring offsets lie in the 7x7 square, and none of them is a base offset. */
  lemma RingBounds(dx: int, dz: int)
    requires 7 <= dx * dx + dz * dz <= 12
    ensures -3 <= dx <= 3 && -3 <= dz <= 3
    ensures !(Abs(dx) <= 2 && Abs(dz) <= 2 && !(Abs(dx) == 2 && Abs(dz) == 2))
  {
    SquareBounds(dx, 4);
    SquareBounds(dz, 4);
    SquareBounds(dx, 1);
    SquareBounds(dz, 1);
    SquareBounds(dx, 2);
    SquareBounds(dz, 2);
  }

  /** One level of a nested offset loop. */
  lemma LevelOffsetsMembers(p: Vec3, lo: int, hi: int, step: int, s: Shape, dy: int, b: Block)
    requires step > 0
    ensures forall c :: c in Level(p, Offsets(lo, lo, hi, step, s), dy, b) <==>
      c.SetBlock? && c.block == b && c.pos.y == p.y + dy
      && c.pos.x - p.x in RangeStep(lo, hi, step) && c.pos.z - p.z in RangeStep(lo, hi, step)
      && Keeps(s, c.pos.x - p.x, c.pos.z - p.z)
  {
    var offs := Offsets(lo, lo, hi, step, s);
    LevelMembers(p, offs, dy, b);
    OffsetsMembers(lo, lo, hi, step, s);
    forall c: Call | c.SetBlock?
      ensures (c.pos.x - p.x, c.pos.z - p.z) in offs <==>
        c.pos.x - p.x in RangeStep(lo, hi, step) && c.pos.z - p.z in RangeStep(lo, hi, step) && Keeps(s, c.pos.x - p.x, c.pos.z - p.z)
    {
      var o := (c.pos.x - p.x, c.pos.z - p.z);
      assert o.0 == c.pos.x - p.x && o.1 == c.pos.z - p.z;
    }
  }

  lemma BaseMembersInLoop(p: Vec3, lo: int, hi: int)
    requires lo == -2 && hi == 3
    ensures forall c :: c in Level(p, Offsets(lo, lo, hi, 1, NoCorners), 0, StoneBricks) <==>
      c.SetBlock? && c.block == StoneBricks && WellLayout(c.pos.Minus(p)) == Some(Base)
  {
    LevelOffsetsMembers(p, lo, hi, 1, NoCorners, 0, StoneBricks);
    RangeMembers(lo, hi);
    BaseChain(Level(p, Offsets(lo, lo, hi, 1, NoCorners), 0, StoneBricks), p, RangeStep(lo, hi, 1));
  }

  /** The base level, given as the loop's members, is the base of the well's layout. */
  lemma BaseChain(level: seq<Call>, p: Vec3, xs: seq<int>)
    requires forall v :: v in xs <==> -2 <= v < 3
    requires forall c :: c in level <==>
      c.SetBlock? && c.block == StoneBricks && c.pos.y == p.y + 0
      && c.pos.x - p.x in xs && c.pos.z - p.z in xs && Keeps(NoCorners, c.pos.x - p.x, c.pos.z - p.z)
    ensures forall c :: c in level <==> c.SetBlock? && c.block == StoneBricks && WellLayout(c.pos.Minus(p)) == Some(Base)
  {
  }
  lemma BaseMembers(p: Vec3)
    ensures forall c :: c in Level(p, BaseOffsets(), 0, StoneBricks) <==>
      c.SetBlock? && c.block == StoneBricks && WellLayout(c.pos.Minus(p)) == Some(Base)
  {
    BaseLoop();
    BaseMembersInLoop(p, -2, 3);
  }


  lemma RingMembersInLoop(p: Vec3, lo: int, hi: int)
    requires lo == -3 && hi == 4
    ensures forall c :: c in Level(p, Offsets(lo, lo, hi, 1, SlabRing), 0, StoneSlab) <==>
      c.SetBlock? && c.block == StoneSlab && WellLayout(c.pos.Minus(p)) == Some(Ring)
  {
    LevelOffsetsMembers(p, lo, hi, 1, SlabRing, 0, StoneSlab);
    RangeMembers(lo, hi);
    RingChain(Level(p, Offsets(lo, lo, hi, 1, SlabRing), 0, StoneSlab), p, RangeStep(lo, hi, 1));
  }

  /** The ring level, given as the loop's members, is the ring of the well's layout. */
  lemma RingChain(level: seq<Call>, p: Vec3, xs: seq<int>)
    requires forall v :: v in xs <==> -3 <= v < 4
    requires forall c :: c in level <==>
      c.SetBlock? && c.block == StoneSlab && c.pos.y == p.y + 0
      && c.pos.x - p.x in xs && c.pos.z - p.z in xs && Keeps(SlabRing, c.pos.x - p.x, c.pos.z - p.z)
    ensures forall c :: c in level <==> c.SetBlock? && c.block == StoneSlab && WellLayout(c.pos.Minus(p)) == Some(Ring)
  {
    forall c: Call | c.SetBlock?
      ensures (c.pos.y == p.y + 0 && c.pos.x - p.x in xs && c.pos.z - p.z in xs
               && Keeps(SlabRing, c.pos.x - p.x, c.pos.z - p.z)) <==> WellLayout(c.pos.Minus(p)) == Some(Ring)
    {
      RingLayout(c.pos.Minus(p));
    }
  }

  lemma RingLayout(d: Vec3)
    ensures WellLayout(d) == Some(Ring) <==> d.y == 0 && -3 <= d.x < 4 && -3 <= d.z < 4 && Keeps(SlabRing, d.x, d.z)
  {
    if 7 <= d.x * d.x + d.z * d.z <= 12 {
      RingBounds(d.x, d.z);
    }
  }
  lemma RingMembers(p: Vec3)
    ensures forall c :: c in Level(p, RingOffsets(), 0, StoneSlab) <==>
      c.SetBlock? && c.block == StoneSlab && WellLayout(c.pos.Minus(p)) == Some(Ring)
  {
    RingLoop();
    RingMembersInLoop(p, -3, 4);
  }


  lemma FenceMembersInLoop(p: Vec3, lo: int, hi: int)
    requires lo == -2 && hi == 3
    ensures forall c :: c in Level(p, Offsets(lo, lo, hi, 2, FenceSpots), 1, OakFence) <==>
      c.SetBlock? && c.block == OakFence && WellLayout(c.pos.Minus(p)) == Some(Fence)
  {
    LevelOffsetsMembers(p, lo, hi, 2, FenceSpots, 1, OakFence);
    FenceRange();
  }
  lemma FenceMembers(p: Vec3)
    ensures forall c :: c in Level(p, FenceOffsets(), 1, OakFence) <==>
      c.SetBlock? && c.block == OakFence && WellLayout(c.pos.Minus(p)) == Some(Fence)
  {
    FenceLoop();
    FenceMembersInLoop(p, -2, 3);
  }


  lemma RoofMembersInLoop(p: Vec3, lo: int, hi: int)
    requires lo == -1 && hi == 2
    ensures forall c :: c in Level(p, Offsets(lo, lo, hi, 1, Square), 3, OakSlab) <==>
      c.SetBlock? && c.block == OakSlab && WellLayout(c.pos.Minus(p)) == Some(Roof)
  {
    LevelOffsetsMembers(p, lo, hi, 1, Square, 3, OakSlab);
    RangeMembers(lo, hi);
  }
  lemma RoofMembers(p: Vec3)
    ensures forall c :: c in Level(p, RoofOffsets(), 3, OakSlab) <==>
      c.SetBlock? && c.block == OakSlab && WellLayout(c.pos.Minus(p)) == Some(Roof)
  {
    RoofLoop();
    RoofMembersInLoop(p, -1, 2);
  }


  lemma PostsInLayout(p: Vec3)
    ensures forall c :: c in Posts(p, Corners) <==>
      c.SetBlock? && c.block == CobblestoneWall && WellLayout(c.pos.Minus(p)) == Some(Post)
  {
    PostsMembers(p, Corners);
  }

  lemma WaterSquareMembers(p: Vec3, lo: int, hi: int)
    ensures forall c :: c in WaterColumns(p, Offsets(lo, lo, hi, 1, Square)) <==>
      c.SetBlock? && c.block == Water && lo <= c.pos.x - p.x < hi && lo <= c.pos.z - p.z < hi
      && (c.pos.y == p.y - 1 || (c.pos.x == p.x && c.pos.z == p.z && (c.pos.y == p.y - 2 || c.pos.y == p.y - 3)))
  {
    WaterColumnsMembers(p, Offsets(lo, lo, hi, 1, Square));
    OffsetsMembers(lo, lo, hi, 1, Square);
    RangeMembers(lo, hi);
  }

  lemma WaterInLayout(p: Vec3)
    ensures forall c :: c in WaterColumns(p, RoofOffsets()) <==>
      c.SetBlock? && c.block == Water && WellLayout(c.pos.Minus(p)) == Some(WaterPart)
  {
    RoofLoop();
    WaterSquareMembers(p, -1, 2);
  }

  /** Every call of the well plan is a `placeBlock` of what the layout says for its place, and
      every place of the layout gets one: the ring never overwrites the base, and no two
      parts of the well overlap. */
  lemma WellPlanMembers(p: Vec3)
    ensures forall c :: c in WellPlan(p) <==>
      c.SetBlock? && WellLayout(c.pos.Minus(p)).Some? && c.block == PartBlock(WellLayout(c.pos.Minus(p)).value)
  {
    var base := Level(p, BaseOffsets(), 0, StoneBricks);
    var posts := Posts(p, Corners);
    var fences := Level(p, FenceOffsets(), 1, OakFence);
    var roof := Level(p, RoofOffsets(), 3, OakSlab);
    var water := WaterColumns(p, RoofOffsets());
    var ring := Level(p, RingOffsets(), 0, StoneSlab);
    BaseMembers(p);
    PostsInLayout(p);
    FenceMembers(p);
    RoofMembers(p);
    WaterInLayout(p);
    RingMembers(p);
    assert WellPlan(p) == base + posts + fences + roof + water + ring;
    forall c: Call ensures c in WellPlan(p) <==>
      c.SetBlock? && WellLayout(c.pos.Minus(p)).Some? && c.block == PartBlock(WellLayout(c.pos.Minus(p)).value)
    {
      assert c in WellPlan(p) <==> c in base || c in posts || c in fences || c in roof || c in water || c in ring;
      if c.SetBlock? && WellLayout(c.pos.Minus(p)).Some? {
        match WellLayout(c.pos.Minus(p)).value
        case Base =>
        case Ring =>
        case Post =>
        case Fence =>
        case Roof =>
        case WaterPart =>
      }
    }
  }

  /** What the well leaves in the block map: the layout where it places, the old contents
      everywhere else. */
  lemma WellBuildsLayout(m: map<Vec3, Block>, p: Vec3, q: Vec3)
    ensures var r := ApplyAll(m, WellPlan(p));
      && (WellLayout(q.Minus(p)).Some? ==> q in r && r[q] == PartBlock(WellLayout(q.Minus(p)).value))
      && (WellLayout(q.Minus(p)).None? ==> (q in r <==> q in m) && (q in m ==> r[q] == m[q]))
  {
    var cs := WellPlan(p);
    WellPlanMembers(p);
    if WellLayout(q.Minus(p)).Some? {
      var b := PartBlock(WellLayout(q.Minus(p)).value);
      assert SetBlock(q, b).pos.Minus(p) == q.Minus(p);
      ApplyAllPlaced(m, cs, q, b);
    } else {
      forall i | 0 <= i < |cs| ensures !PlacesAt(cs[i], q) {
        assert cs[i] in cs;
      }
      ApplyAllUntouched(m, cs, q);
    }
  }

  /** `build_well`. */
  method BuildWell(ed: Editor, p: Vec3) returns (ok: bool)
    modifies ed`log, ed`blocks, ed`failAfter
    ensures ed.Performed(WellPlan(p), ok)
  {
    ok := ed.Perform(WellPlan(p));
  }

  // ---------------------------------------------------------------- build_house

  const FoundationDepth: int := 5
  const ClearAir: Block := Simple("air")
  const Door: Block := Block("oak_door", map["facing" := "north", "hinge" := "left"], None)
  const PaneEastWest: Block := Block("glass_pane", map["east" := "true", "west" := "true"], None)
  const PaneNorthSouth: Block := Block("glass_pane", map["north" := "true", "south" := "true"], None)
  const StairsEast: Block := Block("oak_stairs", map["facing" := "east"], None)
  const StairsWest: Block := Block("oak_stairs", map["facing" := "west"], None)
  const TopStairsWest: Block := Block("oak_stairs", map["facing" := "west", "half" := "top"], None)
  const TopStairsEast: Block := Block("oak_stairs", map["facing" := "east", "half" := "top"], None)
  const RidgePlanks: Block := Simple("oak_planks")
  const Lantern: Block := Simple("lantern")
  const BedFoot: Block := Block("red_bed", map["facing" := "west", "part" := "foot"], None)
  const BedHead: Block := Block("red_bed", map["facing" := "west", "part" := "head"], None)

  /** The width actually built: an even width grows by one so that the door is centred. */
  function OddWidth(w: int): (r: int)
    ensures r % 2 == 1
    ensures r == w || r == w + 1
  {
    if w % 2 == 0 then w + 1 else w
  }

  /** The floor palette; a stone-brick floor is varied with cracked bricks and cobblestone. */
  function FloorPalette(floor: string): (ps: seq<Block>)
    ensures |ps| == 5 && ps[0] == ps[1] == ps[2] == Simple(floor)
    ensures ps[3] == if Contains(floor, "stone_bricks") then Simple("cracked_stone_bricks") else Simple(floor)
    ensures ps[4] == if Contains(floor, "stone") then Simple("cobblestone") else Simple(floor)
  {
    [Simple(floor), Simple(floor), Simple(floor),
     if Contains(floor, "stone_bricks") then Simple("cracked_stone_bricks") else Simple(floor),
     if Contains(floor, "stone") then Simple("cobblestone") else Simple(floor)]
  }

  /** The glass panes on both side walls at each z of `range(z + 2, z + depth - 2, 2)`. */
  function SideWindows(p: Vec3, w: int, zs: seq<int>): seq<Call>
  {
    if zs == [] then []
    else [SetBlock(Vec3(p.x, p.y + 2, zs[0]), PaneNorthSouth), SetBlock(Vec3(p.x + w - 1, p.y + 2, zs[0]), PaneNorthSouth)]
         + SideWindows(p, w, zs[1..])
  }

  /** The east-facing stairs of a roof course, k columns left of the ridge, along the depth. */
  function EastStairsRow(p: Vec3, w: int, height: int, depth: int, k: int): Call
  {
    var yy := p.y + height + 2 - k;
    Cuboid(Solid, Vec3(p.x + w / 2 - k, yy, p.z - 1), Vec3(p.x + w / 2 - k, yy, p.z + depth), Single(StairsEast))
  }

  /** The ridge of planks along the depth, one above the top course. */
  function Ridge(p: Vec3, w: int, height: int, depth: int): Call
  {
    Cuboid(Solid, Vec3(p.x + w / 2, p.y + height + 1, p.z - 1), Vec3(p.x + w / 2, p.y + height + 1, p.z + depth), Single(RidgePlanks))
  }

  /** One row of the pitched roof, k columns out from the ridge. */
  function RoofCourse(p: Vec3, w: int, height: int, depth: int, k: int): seq<Call>
  {
    var yy := p.y + height + 2 - k;
    var cx := p.x + w / 2;
    [EastStairsRow(p, w, height, depth, k),
     Cuboid(Solid, Vec3(cx + k, yy, p.z - 1), Vec3(cx + k, yy, p.z + depth), Single(StairsWest)),
     SetBlock(Vec3(cx - k + 1, yy, p.z - 1), TopStairsWest), SetBlock(Vec3(cx + k - 1, yy, p.z - 1), TopStairsEast),
     SetBlock(Vec3(cx - k + 1, yy, p.z + depth), TopStairsWest), SetBlock(Vec3(cx + k - 1, yy, p.z + depth), TopStairsEast)]
  }

  /** The roof loop over `range(1, width // 2 + 2)`, whose last round is skipped by `continue`. */
  function RoofCourses(p: Vec3, w: int, height: int, depth: int, ks: seq<int>): seq<Call>
  {
    if ks == [] then []
    else (if ks[0] > w / 2 then [] else RoofCourse(p, w, height, depth, ks[0])) + RoofCourses(p, w, height, depth, ks[1..])
  }

  function Interior(p: Vec3, w: int, depth: int): seq<Call>
  {
    if w >= 5 && depth >= 6 then
      [SetBlock(Vec3(p.x + w - 3, p.y + 1, p.z + depth - 2), BedFoot),
       SetBlock(Vec3(p.x + w - 3, p.y + 1, p.z + depth - 3), BedHead),
       SetBlock(Vec3(p.x + 1, p.y + 1, p.z + depth - 2), Simple("crafting_table"))]
      + (if depth >= 8 then [SetBlock(Vec3(p.x + w / 2, p.y + 1, p.z + 2), Simple("oak_fence")),
                             SetBlock(Vec3(p.x + w / 2, p.y + 2, p.z + 2), Simple("torch"))] else [])
    else []
  }

  /** The walls, the floor, the foundation, the cleared interior, the door and its opening. */
  function HouseShell(p: Vec3, w: int, height: int, depth: int, wall: string, floor: string): seq<Call>
  {
    var (x, y, z) := (p.x, p.y, p.z);
    var cx := x + w / 2;
    [Cuboid(Hollow, p, Vec3(x + w - 1, y + height - 1, z + depth - 1), Single(Simple(wall))),
     Cuboid(Solid, p, Vec3(x + w - 1, y, z + depth - 1), Palette(FloorPalette(floor))),
     Cuboid(Solid, p, Vec3(x + w - 1, y - FoundationDepth, z + depth - 1), Palette(FloorPalette(floor))),
     Cuboid(Solid, Vec3(x + 1, y + 1, z + 1), Vec3(x + w - 2, y + height - 2, z + depth - 2), Single(ClearAir)),
     SetBlock(Vec3(cx, y + 1, z), Door),
     Cuboid(Solid, Vec3(cx - 1, y + 1, z - 1), Vec3(cx + 1, y + 3, z - 1), Single(ClearAir))]
  }

  /** The two front windows either side of the door, on houses at least five wide. */
  function FrontPanes(p: Vec3, w: int): seq<Call>
  {
    if w >= 5 then [SetBlock(Vec3(p.x + 1, p.y + 2, p.z), PaneEastWest), SetBlock(Vec3(p.x + w - 2, p.y + 2, p.z), PaneEastWest)] else []
  }

  /** The window in the middle of the back wall. */
  function BackPane(p: Vec3, w: int, depth: int): seq<Call>
  {
    [SetBlock(Vec3(p.x + w / 2, p.y + 2, p.z + depth - 1), PaneEastWest)]
  }

  /** The calls before the roof; the back window comes after the side windows. */
  function HouseBody(p: Vec3, w: int, height: int, depth: int, wall: string, floor: string): seq<Call>
  {
    HouseShell(p, w, height, depth, wall, floor)
    + FrontPanes(p, w)
    + SideWindows(p, w, RangeStep(p.z + 2, p.z + depth - 2, 2))
    + BackPane(p, w, depth)
  }

  /** The calls from the roof on: stair rows, ridge, lantern, furniture. */
  function HouseTop(p: Vec3, w: int, height: int, depth: int): seq<Call>
  {
    RoofCourses(p, w, height, depth, RangeStep(1, w / 2 + 2, 1))
    + [Ridge(p, w, height, depth), SetBlock(Vec3(p.x + w / 2, p.y + height - 2, p.z + depth / 2), Lantern)]
    + Interior(p, w, depth)
  }

  /** `build_house`, with the width made odd first. */
  function HousePlan(p: Vec3, height: int, depth: int, width: int, wall: string, floor: string): seq<Call>
  {
    var w := OddWidth(width);
    HouseBody(p, w, height, depth, wall, floor) + HouseTop(p, w, height, depth)
  }

  datatype HouseInfo = HouseInfo(position: Vec3, width: int, height: int, depth: int, walls: string, floor: string)

  /** The dictionary `build_house` returns: it reports the width as built. */
  function HouseReport(p: Vec3, height: int, depth: int, width: int, wall: string, floor: string): HouseInfo
  {
    HouseInfo(p, OddWidth(width), height, depth, wall, floor)
  }

  /** The door is the fifth call, in the front wall, and the same distance from both side
      walls; the reported width is the odd width that was built. */
  lemma HouseDoorCentred(p: Vec3, height: int, depth: int, width: int, wall: string, floor: string)
    ensures var w := OddWidth(width);
      && HousePlan(p, height, depth, width, wall, floor)[4] == SetBlock(Vec3(p.x + w / 2, p.y + 1, p.z), Door)
      && (p.x + w / 2) - p.x == (p.x + w - 1) - (p.x + w / 2)
      && HouseReport(p, height, depth, width, wall, floor).width == w
  {
  }

  lemma {:induction false} SideWindowsMembers(p: Vec3, w: int, zs: seq<int>)
    ensures forall c :: c in SideWindows(p, w, zs) <==>
      c.SetBlock? && c.block == PaneNorthSouth && c.pos.y == p.y + 2 && (c.pos.x == p.x || c.pos.x == p.x + w - 1)
      && c.pos.z in zs
  {
    if zs != [] {
      SideWindowsMembers(p, w, zs[1..]);
      assert zs == [zs[0]] + zs[1..];
    }
  }

  /** The side windows: a pane on each side wall at y + 2 for every second z from z + 2 up to,
      not including, z + depth - 2, and no other north-south pane in the house. */
  lemma HouseSideWindows(p: Vec3, height: int, depth: int, width: int, wall: string, floor: string)
    ensures forall c :: c in HousePlan(p, height, depth, width, wall, floor) && c.SetBlock? && SidePane(c.block) <==>
      SideWindowSpot(c, p, OddWidth(width), depth)
  {
    PanesDiffer();
    PlanSidePanes(p, height, depth, width, wall, floor);
    SideWindowsAt(p, OddWidth(width), depth);
  }

  /** Where the side windows of a house `w` wide go: a north-south pane on either side wall at
      y + 2, for every second z from z + 2 up to, not including, z + depth - 2. */
  predicate SideWindowSpot(c: Call, p: Vec3, w: int, depth: int)
  {
    c.SetBlock? && c.block == PaneNorthSouth && c.pos.y == p.y + 2 && (c.pos.x == p.x || c.pos.x == p.x + w - 1)
    && p.z + 2 <= c.pos.z < p.z + depth - 2 && (c.pos.z - (p.z + 2)) % 2 == 0
  }

  /** The north-south panes of `plan` are the calls of `side`. */
  ghost predicate SidePanesFrom(plan: seq<Call>, side: seq<Call>)
  {
    forall c :: c in plan && c.SetBlock? && SidePane(c.block) <==> c in side
  }

  lemma PlanSidePanes(p: Vec3, height: int, depth: int, width: int, wall: string, floor: string)
    ensures SidePanesFrom(HousePlan(p, height, depth, width, wall, floor),
                          SideWindows(p, OddWidth(width), RangeStep(p.z + 2, p.z + depth - 2, 2)))
  {
    var w := OddWidth(width);
    BodySidePanes(p, w, height, depth, wall, floor);
    TopHasNoSidePanes(p, w, height, depth);
    assert HousePlan(p, height, depth, width, wall, floor) == HouseBody(p, w, height, depth, wall, floor) + HouseTop(p, w, height, depth);
  }

  lemma SideWindowsAt(p: Vec3, w: int, depth: int)
    ensures forall c :: c in SideWindows(p, w, RangeStep(p.z + 2, p.z + depth - 2, 2)) <==> SideWindowSpot(c, p, w, depth)
  {
    SideWindowsMembers(p, w, RangeStep(p.z + 2, p.z + depth - 2, 2));
    RangeStepMembers(p.z + 2, p.z + depth - 2, 2);
  }

  /** A glass pane joined north and south, as on the side walls. */
  predicate SidePane(b: Block)
  {
    b.id == "glass_pane" && "north" in b.states
  }

  lemma PanesDiffer()
    ensures SidePane(PaneNorthSouth) && !SidePane(PaneEastWest) && !SidePane(Door)
    ensures PaneNorthSouth != PaneEastWest && PaneNorthSouth != Door
  {
  }

  lemma BodySidePanes(p: Vec3, w: int, height: int, depth: int, wall: string, floor: string)
    ensures forall c :: c in HouseBody(p, w, height, depth, wall, floor) && c.SetBlock? && SidePane(c.block) <==>
      c in SideWindows(p, w, RangeStep(p.z + 2, p.z + depth - 2, 2))
  {
    var side := SideWindows(p, w, RangeStep(p.z + 2, p.z + depth - 2, 2));
    ShellHasNoSidePanes(p, w, height, depth, wall, floor);
    SideWindowsMembers(p, w, RangeStep(p.z + 2, p.z + depth - 2, 2));
    PanesDiffer();
    assert forall c :: c in side ==> c.SetBlock? && SidePane(c.block);
    assert HouseBody(p, w, height, depth, wall, floor)
        == HouseShell(p, w, height, depth, wall, floor) + FrontPanes(p, w) + side + BackPane(p, w, depth);
  }

  lemma ShellHasNoSidePanes(p: Vec3, w: int, height: int, depth: int, wall: string, floor: string)
    ensures forall c :: c in HouseShell(p, w, height, depth, wall, floor) ==> !(c.SetBlock? && SidePane(c.block))
    ensures forall c :: c in FrontPanes(p, w) ==> !(c.SetBlock? && SidePane(c.block))
    ensures forall c :: c in BackPane(p, w, depth) ==> !(c.SetBlock? && SidePane(c.block))
  {
    PanesDiffer();
  }

  lemma TopHasNoSidePanes(p: Vec3, w: int, height: int, depth: int)
    ensures NoSidePanes(HouseTop(p, w, height, depth))
  {
    var courses := RoofCourses(p, w, height, depth, RangeStep(1, w / 2 + 2, 1));
    var marks := [Ridge(p, w, height, depth), SetBlock(Vec3(p.x + w / 2, p.y + height - 2, p.z + depth / 2), Lantern)];
    CoursesHaveNoSidePanes(p, w, height, depth, RangeStep(1, w / 2 + 2, 1));
    assert NoSidePanes(marks) && NoSidePanes(Interior(p, w, depth));
    assert HouseTop(p, w, height, depth) == courses + marks + Interior(p, w, depth);
  }

  /** No north-south pane among the calls. */
  ghost predicate NoSidePanes(cs: seq<Call>)
  {
    forall c :: c in cs ==> !(c.SetBlock? && SidePane(c.block))
  }

  lemma {:induction false} CoursesHaveNoSidePanes(p: Vec3, w: int, height: int, depth: int, ks: seq<int>)
    ensures NoSidePanes(RoofCourses(p, w, height, depth, ks))
  {
    if ks != [] {
      CoursesHaveNoSidePanes(p, w, height, depth, ks[1..]);
      assert NoSidePanes(if ks[0] > w / 2 then [] else RoofCourse(p, w, height, depth, ks[0]));
    }
  }

  /** Course j holds the east-facing stairs k columns out exactly when j = k. */
  lemma CourseHasEastRow(p: Vec3, w: int, height: int, depth: int, j: int, k: int)
    ensures EastStairsRow(p, w, height, depth, k) in RoofCourse(p, w, height, depth, j) <==> j == k
  {
    assert StairsWest.states["facing"] == "west" && StairsEast.states["facing"] == "east";
  }

  lemma {:induction false} EastRowInCourses(p: Vec3, w: int, height: int, depth: int, ks: seq<int>, k: int)
    ensures EastStairsRow(p, w, height, depth, k) in RoofCourses(p, w, height, depth, ks) <==> k in ks && k <= w / 2
  {
    if ks != [] {
      EastRowInCourses(p, w, height, depth, ks[1..], k);
      CourseHasEastRow(p, w, height, depth, ks[0], k);
      assert ks == [ks[0]] + ks[1..];
    }
  }

  /** East-facing stairs are laid only by the roof courses. */
  ghost predicate NoEastStairs(cs: seq<Call>)
  {
    forall c :: c in cs ==> !(c.Cuboid? && c.fill == Single(StairsEast))
  }

  /** Where a course of east-facing stairs lies in the house's roof. */
  lemma EastStairsCourse(p: Vec3, w: int, height: int, depth: int, k: int)
    ensures EastStairsRow(p, w, height, depth, k) in HouseTop(p, w, height, depth) <==> 1 <= k <= w / 2
  {
    var courses := RoofCourses(p, w, height, depth, RangeStep(1, w / 2 + 2, 1));
    var marks := [Ridge(p, w, height, depth), SetBlock(Vec3(p.x + w / 2, p.y + height - 2, p.z + depth / 2), Lantern)];
    assert NoEastStairs(marks) && NoEastStairs(Interior(p, w, depth));
    assert HouseTop(p, w, height, depth) == courses + marks + Interior(p, w, depth);
    EastRowInCourses(p, w, height, depth, RangeStep(1, w / 2 + 2, 1), k);
    RangeMembers(1, w / 2 + 2);
  }

  lemma BodyHasNoStairs(p: Vec3, w: int, height: int, depth: int, wall: string, floor: string)
    ensures NoEastStairs(HouseBody(p, w, height, depth, wall, floor))
  {
    ShellHasNoStairs(p, w, height, depth, wall, floor);
    PanesHaveNoStairs(p, w, depth);
    assert HouseBody(p, w, height, depth, wall, floor)
        == HouseShell(p, w, height, depth, wall, floor) + FrontPanes(p, w)
           + SideWindows(p, w, RangeStep(p.z + 2, p.z + depth - 2, 2)) + BackPane(p, w, depth);
  }

  lemma PanesHaveNoStairs(p: Vec3, w: int, depth: int)
    ensures NoEastStairs(FrontPanes(p, w)) && NoEastStairs(BackPane(p, w, depth))
    ensures NoEastStairs(SideWindows(p, w, RangeStep(p.z + 2, p.z + depth - 2, 2)))
  {
    SideWindowsMembers(p, w, RangeStep(p.z + 2, p.z + depth - 2, 2));
  }

  lemma ShellHasNoStairs(p: Vec3, w: int, height: int, depth: int, wall: string, floor: string)
    ensures NoEastStairs(HouseShell(p, w, height, depth, wall, floor))
  {
    assert "facing" in StairsEast.states && Simple(wall).states == map[] && ClearAir.states == map[];
  }

  /** The roof: a course of east-facing stairs k columns left of the ridge, at height
      y + height + 2 - k, exists exactly for k = 1 .. width // 2, and the ridge runs at
      y + height + 1. */
  lemma HouseRoof(p: Vec3, height: int, depth: int, width: int, wall: string, floor: string, k: int)
    ensures EastStairsRow(p, OddWidth(width), height, depth, k) in HousePlan(p, height, depth, width, wall, floor)
            <==> 1 <= k <= OddWidth(width) / 2
    ensures Ridge(p, OddWidth(width), height, depth) in HousePlan(p, height, depth, width, wall, floor)
  {
    assert HousePlan(p, height, depth, width, wall, floor)
        == HouseBody(p, OddWidth(width), height, depth, wall, floor) + HouseTop(p, OddWidth(width), height, depth);
    EastStairsCourse(p, OddWidth(width), height, depth, k);
    BodyHasNoStairs(p, OddWidth(width), height, depth, wall, floor);
    TopHasRidge(p, OddWidth(width), height, depth);
  }

  lemma TopHasRidge(p: Vec3, w: int, height: int, depth: int)
    ensures Ridge(p, w, height, depth) in HouseTop(p, w, height, depth)
  {
    var courses := RoofCourses(p, w, height, depth, RangeStep(1, w / 2 + 2, 1));
    var marks := [Ridge(p, w, height, depth), SetBlock(Vec3(p.x + w / 2, p.y + height - 2, p.z + depth / 2), Lantern)];
    assert HouseTop(p, w, height, depth) == courses + marks + Interior(p, w, depth);
    assert marks[0] == Ridge(p, w, height, depth);
  }

  /** `build_house`: runs the plan and reports the house, or the failure that propagated. */
  method BuildHouse(ed: Editor, p: Vec3, height: int, depth: int, width: int, wall: string, floor: string)
    returns (r: Result<HouseInfo, ToolError>)
    modifies ed`log, ed`blocks, ed`failAfter
    ensures ed.Performed(HousePlan(p, height, depth, width, wall, floor), r.Success?)
    ensures r.Success? ==> r.value == HouseReport(p, height, depth, width, wall, floor)
    ensures r.Failure? ==> r.error == Raised(BackendRaised)
  {
    var ok := ed.Perform(HousePlan(p, height, depth, width, wall, floor));
    r := if ok then Success(HouseReport(p, height, depth, width, wall, floor)) else Failure(Raised(BackendRaised));
  }

  // ---------------------------------------------------------------- decorate_area

  /** The (base, top) pairs that can stand around a house. */
  const Decorations: seq<(string, Option<string>)> := [
    ("oak_fence", Some("lantern")), ("spruce_fence", Some("flower_pot")),
    ("barrel", None), ("campfire", None), ("composter", None)]

  const Flowers: seq<string> := [
    "poppy", "dandelion", "blue_orchid", "allium",
    "azure_bluet", "red_tulip", "orange_tulip", "white_tulip"]

  /** A flower pot holding the given flower, carried in the block's SNBT data. */
  function PotWith(flower: string): Block
  {
    Block("flower_pot", map[], Some("{Contents:{id:\"" + flower + "\"}}"))
  }

  /** The spots beside both side walls, two per z of `range(z + 2, z + depth - 2, 3)`. */
  function SideSpots(p: Vec3, w: int, zs: seq<int>): (ss: seq<Vec3>)
    ensures |ss| == 2 * |zs|
  {
    seq(2 * |zs|, i requires 0 <= i < 2 * |zs| =>
      if i % 2 == 0 then Vec3(p.x - 2, p.y, zs[i / 2]) else Vec3(p.x + w + 1, p.y, zs[i / 2]))
  }

  /** The candidate spots of `decorate_area`: the front, the sides, the back, in that order. */
  function Candidates(p: Vec3, w: int, d: int): seq<Vec3>
  {
    [Vec3(p.x + w / 2, p.y, p.z - 2)]
    + SideSpots(p, w, RangeStep(p.z + 2, p.z + d - 2, 3))
    + [Vec3(p.x + w / 2, p.y, p.z + d + 1)]
  }

  /** One decoration: the sampled candidate spot, the chosen pair and, for a pot, its flower. */
  datatype Pick = Pick(spot: nat, kind: nat, flower: nat)

  /** One round of the flower loop: the offsets drawn and whether a flower (else grass) was drawn. */
  datatype Sprinkle = Sprinkle(dx: int, dz: int, isFlower: bool, flower: nat)

  /** The random draws of one `decorate_area` call. */
  datatype DecorDraws = DecorDraws(count: int, picks: seq<Pick>, sprinkles: seq<Sprinkle>)

  /** What `random.randint`, `random.sample` and `random.choice` can produce. */
  predicate DecorDrawsValid(w: int, d: int, n: int, dr: DecorDraws)
  {
    && 2 <= dr.count <= 5
    && |dr.picks| == Min(dr.count, n)
    && (forall i :: 0 <= i < |dr.picks| ==> dr.picks[i].spot < n && dr.picks[i].kind < |Decorations| && dr.picks[i].flower < |Flowers|)
    && (forall i, j :: 0 <= i < j < |dr.picks| ==> dr.picks[i].spot != dr.picks[j].spot)
    && 5 <= |dr.sprinkles| <= 10
    && (forall i :: 0 <= i < |dr.sprinkles| ==>
          -5 <= dr.sprinkles[i].dx <= w + 5 && -5 <= dr.sprinkles[i].dz <= d + 5 && dr.sprinkles[i].flower < |Flowers|)
  }

  function PickCalls(cands: seq<Vec3>, picks: seq<Pick>): seq<Call>
    requires forall i :: 0 <= i < |picks| ==> picks[i].spot < |cands| && picks[i].kind < |Decorations| && picks[i].flower < |Flowers|
  {
    if picks == [] then []
    else
      var q := cands[picks[0].spot];
      var (base, top) := Decorations[picks[0].kind];
      var above := Vec3(q.x, q.y + 1, q.z);
      [SetBlock(q, Simple(base))]
      + (if top == Some("flower_pot") then [SetBlock(above, PotWith(Flowers[picks[0].flower]))]
         else if top.Some? then [SetBlock(above, Simple(top.value))]
         else [])
      + PickCalls(cands, picks[1..])
  }

  /** Inside the exclusion zone around the house, relative offsets [-1, width] x [-1, depth]. */
  predicate NearHouse(w: int, d: int, dx: int, dz: int)
  {
    -1 <= dx <= w && -1 <= dz <= d
  }

  function SprinkleBlock(s: Sprinkle): Block
    requires s.flower < |Flowers|
  {
    if s.isFlower then Simple(Flowers[s.flower]) else Simple("grass")
  }

  function SprinkleCalls(p: Vec3, w: int, d: int, ss: seq<Sprinkle>): seq<Call>
    requires forall i :: 0 <= i < |ss| ==> ss[i].flower < |Flowers|
  {
    if ss == [] then []
    else
      var s := ss[0];
      (if NearHouse(w, d, s.dx, s.dz) then []
       else [SetBlock(Vec3(p.x + s.dx, p.y + 1, p.z + s.dz), SprinkleBlock(s))])
      + SprinkleCalls(p, w, d, ss[1..])
  }

  /** `decorate_area`. */
  function DecoratePlan(p: Vec3, w: int, d: int, dr: DecorDraws): seq<Call>
    requires DecorDrawsValid(w, d, |Candidates(p, w, d)|, dr)
  {
    PickCalls(Candidates(p, w, d), dr.picks) + SprinkleCalls(p, w, d, dr.sprinkles)
  }

  lemma {:induction false} RangeStepBounds(lo: int, hi: int, step: int)
    requires step > 0
    ensures forall i :: 0 <= i < |RangeStep(lo, hi, step)| ==> lo <= RangeStep(lo, hi, step)[i] < hi
    ensures forall i, j :: 0 <= i < j < |RangeStep(lo, hi, step)| ==> RangeStep(lo, hi, step)[i] < RangeStep(lo, hi, step)[j]
    decreases hi - lo
  {
    if lo < hi {
      RangeStepBounds(lo + step, hi, step);
    }
  }

  lemma SideSpotsDistinct(p: Vec3, w: int, zs: seq<int>)
    requires w != -3
    requires forall i, j :: 0 <= i < j < |zs| ==> zs[i] < zs[j]
    ensures forall i, j :: 0 <= i < j < |SideSpots(p, w, zs)| ==> SideSpots(p, w, zs)[i] != SideSpots(p, w, zs)[j]
  {
    var ss := SideSpots(p, w, zs);
    forall i, j | 0 <= i < j < |ss| ensures ss[i] != ss[j] {
      if i / 2 < j / 2 {
        assert ss[i].z == zs[i / 2] < zs[j / 2] == ss[j].z;
      } else {
        assert i % 2 == 0 && j % 2 == 1;
      }
    }
  }

  /** The candidate spots around a house are pairwise different and all at its base level;
      there are two of them plus two per side row. */
  lemma CandidatesDistinct(p: Vec3, w: int, d: int)
    requires w >= 0 && d >= 0
    ensures var cs := Candidates(p, w, d);
      && |cs| == 2 + 2 * |RangeStep(p.z + 2, p.z + d - 2, 3)|
      && (forall i :: 0 <= i < |cs| ==> cs[i].y == p.y)
      && (forall i, j :: 0 <= i < j < |cs| ==> cs[i] != cs[j])
  {
    var zs := RangeStep(p.z + 2, p.z + d - 2, 3);
    var cs := Candidates(p, w, d);
    var side := SideSpots(p, w, zs);
    RangeStepBounds(p.z + 2, p.z + d - 2, 3);
    SideSpotsDistinct(p, w, zs);
    assert cs == [Vec3(p.x + w / 2, p.y, p.z - 2)] + side + [Vec3(p.x + w / 2, p.y, p.z + d + 1)];
    forall k | 0 <= k < |side| ensures p.z + 2 <= side[k].z < p.z + d - 2 {
      assert side[k].z == zs[k / 2];
    }
    forall i, j | 0 <= i < j < |cs| ensures cs[i] != cs[j] {
      if 0 < i && j < |cs| - 1 {
        assert cs[i] == side[i - 1] && cs[j] == side[j - 1];
      } else if i == 0 && j < |cs| - 1 {
        assert cs[j] == side[j - 1];
      } else if 0 < i {
        assert cs[i] == side[i - 1];
      }
    }
  }

  /** The spots that get a decoration, in the order `random.sample` drew them. */
  function Chosen(cands: seq<Vec3>, picks: seq<Pick>): seq<Vec3>
    requires forall i :: 0 <= i < |picks| ==> picks[i].spot < |cands|
  {
    seq(|picks|, i requires 0 <= i < |picks| => cands[picks[i].spot])
  }

  /** The base blocks of the chosen decorations, one per pick. */
  function Bases(cands: seq<Vec3>, picks: seq<Pick>): (bs: seq<Call>)
    requires forall i :: 0 <= i < |picks| ==> picks[i].spot < |cands| && picks[i].kind < |Decorations|
    ensures |bs| == |picks|
  {
    seq(|picks|, i requires 0 <= i < |picks| => SetBlock(cands[picks[i].spot], Simple(Decorations[picks[i].kind].0)))
  }

  lemma {:induction false} PickCallsMembers(cands: seq<Vec3>, picks: seq<Pick>, level: int)
    requires forall i :: 0 <= i < |picks| ==> picks[i].spot < |cands| && picks[i].kind < |Decorations| && picks[i].flower < |Flowers|
    requires forall i :: 0 <= i < |cands| ==> cands[i].y == level
    ensures forall c :: c in PickCalls(cands, picks) ==> c.SetBlock? && (c.pos.y == level || c.pos.y == level + 1)
    ensures forall c :: c in PickCalls(cands, picks) && c.SetBlock? && c.pos.y == level <==> c in Bases(cands, picks)
  {
    if picks != [] {
      PickCallsMembers(cands, picks[1..], level);
      assert Bases(cands, picks) == [Bases(cands, picks)[0]] + Bases(cands, picks[1..]);
    }
  }

  /** The decorations: as many as `min(num_decorations, len(decoration_positions))`, each base
      block on a different candidate spot, and no other call of `decorate_area` at ground level. */
  lemma DecorationsPlaced(p: Vec3, w: int, d: int, dr: DecorDraws)
    requires w >= 0 && d >= 0
    requires DecorDrawsValid(w, d, |Candidates(p, w, d)|, dr)
    ensures var cands := Candidates(p, w, d);
      var spots := Chosen(cands, dr.picks);
      && |spots| == Min(dr.count, |cands|)
      && (forall i, j :: 0 <= i < j < |spots| ==> spots[i] != spots[j])
      && (forall i :: 0 <= i < |spots| ==> spots[i] in cands)
      && (forall i :: 0 <= i < |spots| ==> Bases(cands, dr.picks)[i] == SetBlock(spots[i], Simple(Decorations[dr.picks[i].kind].0)))
      && forall c :: c in DecoratePlan(p, w, d, dr) && c.SetBlock? && c.pos.y == p.y <==> c in Bases(cands, dr.picks)
  {
    var cands := Candidates(p, w, d);
    CandidatesDistinct(p, w, d);
    PickCallsMembers(cands, dr.picks, p.y);
    SprinklesAvoidHouse(p, w, d, dr.sprinkles);
  }

  /** The flowers and grass: each lands one above the base level and outside the zone
      [-1, width] x [-1, depth] around the house, and every draw outside that zone is placed. */
  lemma {:induction false} SprinklesAvoidHouse(p: Vec3, w: int, d: int, ss: seq<Sprinkle>)
    requires forall i :: 0 <= i < |ss| ==> ss[i].flower < |Flowers|
    ensures forall c :: c in SprinkleCalls(p, w, d, ss) ==>
      && c.SetBlock? && c.pos.y == p.y + 1
      && !NearHouse(w, d, c.pos.x - p.x, c.pos.z - p.z)
      && (c.block == Simple("grass") || exists f :: f in Flowers && c.block == Simple(f))
    ensures forall i :: 0 <= i < |ss| && !NearHouse(w, d, ss[i].dx, ss[i].dz) ==>
      SetBlock(Vec3(p.x + ss[i].dx, p.y + 1, p.z + ss[i].dz), SprinkleBlock(ss[i])) in SprinkleCalls(p, w, d, ss)
  {
    if ss != [] {
      SprinklesAvoidHouse(p, w, d, ss[1..]);
      var s := ss[0];
      var pos := Vec3(p.x + s.dx, p.y + 1, p.z + s.dz);
      if !NearHouse(w, d, s.dx, s.dz) {
        assert SetBlock(pos, SprinkleBlock(s)) in SprinkleCalls(p, w, d, ss);
        if s.isFlower {
          assert Flowers[s.flower] in Flowers;
        }
      }
      forall i | 1 <= i < |ss| && !NearHouse(w, d, ss[i].dx, ss[i].dz)
        ensures SetBlock(Vec3(p.x + ss[i].dx, p.y + 1, p.z + ss[i].dz), SprinkleBlock(ss[i])) in SprinkleCalls(p, w, d, ss)
      {
        assert ss[i] == ss[1..][i - 1];
      }
    }
  }

  // ---------------------------------------------------------------- build_path

  const PathPalette: seq<Block> := [Simple("grass_path"), Simple("grass_path"), Simple("grass_path"), Simple("coarse_dirt"), Simple("gravel")]

  /** The draws for one path point: the palette entry and whether a lantern goes on top. */
  datatype PathDraw = PathDraw(material: nat, lantern: bool)

  predicate PathDrawsValid(points: seq<Vec2>, ds: seq<PathDraw>)
  {
    |ds| == |points| && forall i :: 0 <= i < |ds| ==> ds[i].material < |PathPalette|
  }

  /** The heightmap cell below a world column, when the column lies in the build rectangle. */
  predicate Inside(rect: Rect, g: Heightmap, q: Vec2)
  {
    InGrid(g, q.x - rect.offset.x, q.y - rect.offset.y)
  }

  /** The surface height at a column inside the rectangle: the heightmap value minus one. */
  function GroundAt(rect: Rect, g: Heightmap, q: Vec2): int
    requires Inside(rect, g, q)
  {
    At(g, q.x - rect.offset.x, q.y - rect.offset.y) - 1
  }

  /** `build_path` over the points `line2D` yields. */
  function PathCalls(points: seq<Vec2>, rect: Rect, g: Heightmap, ds: seq<PathDraw>): seq<Call>
    requires PathDrawsValid(points, ds)
  {
    if points == [] then []
    else
      var q := points[0];
      (if Inside(rect, g, q) then
         [SetBlock(Vec3(q.x, GroundAt(rect, g, q), q.y), PathPalette[ds[0].material])]
         + (if ds[0].lantern then [SetBlock(Vec3(q.x, GroundAt(rect, g, q) + 1, q.y), Lantern)] else [])
       else [])
      + PathCalls(points[1..], rect, g, ds[1..])
  }

  /** A call of `build_path` for the i-th point: the paving block at the surface, or the lantern above. */
  predicate PavesPoint(points: seq<Vec2>, rect: Rect, g: Heightmap, i: int, c: Call)
  {
    && 0 <= i < |points| && Inside(rect, g, points[i]) && c.SetBlock?
    && c.pos.x == points[i].x && c.pos.z == points[i].y
    && ((c.pos.y == GroundAt(rect, g, points[i]) && c.block in PathPalette)
        || (c.pos.y == GroundAt(rect, g, points[i]) + 1 && c.block == Lantern))
  }

  /** A path only touches columns inside the build rectangle, at the surface height or one above,
      and paves every point of the line that lies inside it. */
  lemma {:induction false} PathInBounds(points: seq<Vec2>, rect: Rect, g: Heightmap, ds: seq<PathDraw>)
    requires PathDrawsValid(points, ds)
    ensures forall c :: c in PathCalls(points, rect, g, ds) ==> exists i :: PavesPoint(points, rect, g, i, c)
    ensures forall i :: 0 <= i < |points| && Inside(rect, g, points[i]) ==>
      SetBlock(Vec3(points[i].x, GroundAt(rect, g, points[i]), points[i].y), PathPalette[ds[i].material])
        in PathCalls(points, rect, g, ds)
  {
    if points != [] {
      PathInBounds(points[1..], rect, g, ds[1..]);
      var rest := PathCalls(points[1..], rect, g, ds[1..]);
      forall c | c in PathCalls(points, rect, g, ds) ensures exists i :: PavesPoint(points, rect, g, i, c) {
        if c in rest {
          var i :| PavesPoint(points[1..], rect, g, i, c);
          assert PavesPoint(points, rect, g, i + 1, c);
        } else {
          assert PavesPoint(points, rect, g, 0, c);
        }
      }
      forall i | 1 <= i < |points| && Inside(rect, g, points[i])
        ensures SetBlock(Vec3(points[i].x, GroundAt(rect, g, points[i]), points[i].y), PathPalette[ds[i].material])
          in PathCalls(points, rect, g, ds)
      {
        assert points[1..][i - 1] == points[i] && ds[1..][i - 1] == ds[i];
      }
    }
  }

  /** `decorate_area`: runs the decoration plan. */
  method DecorateArea(ed: Editor, p: Vec3, w: int, d: int, dr: DecorDraws) returns (ok: bool)
    requires DecorDrawsValid(w, d, |Candidates(p, w, d)|, dr)
    modifies ed`log, ed`blocks, ed`failAfter
    ensures ed.Performed(DecoratePlan(p, w, d, dr), ok)
  {
    ok := ed.Perform(DecoratePlan(p, w, d, dr));
  }

  /** `build_path`: runs the paving plan over the points of the line. */
  method BuildPath(ed: Editor, points: seq<Vec2>, rect: Rect, g: Heightmap, ds: seq<PathDraw>) returns (ok: bool)
    requires PathDrawsValid(points, ds)
    modifies ed`log, ed`blocks, ed`failAfter
    ensures ed.Performed(PathCalls(points, rect, g, ds), ok)
  {
    ok := ed.Perform(PathCalls(points, rect, g, ds));
  }

  // ---------------------------------------------------------------- generate_village

  const HouseMaterials: seq<string> := ["oak_planks", "spruce_planks", "birch_planks", "dark_oak_planks"]
  const VillageFloor: string := "stone_bricks"
  const SurfaceNoLeaves: string := "MOTION_BLOCKING_NO_LEAVES"

  /** The number of side rows `decorate_area` uses for a given depth. */
  function SideRows(d: int): nat
  {
    if d > 4 then (d - 2) / 3 else 0
  }

  lemma CandidatesLength(p: Vec3, w: int, d: int)
    ensures |Candidates(p, w, d)| == 2 + 2 * SideRows(d)
  {
    RangeStepLength(p.z + 2, p.z + d - 2, 3);
  }

  /** The draws for one house of the village. The offset from the centre is what the polar
      placement `int(distance * cos(angle))`, `int(distance * sin(angle))` produced; the line
      is the points `line2D` yields for the path from the centre to the house. */
  datatype HouseDraw = HouseDraw(
    dx: int, dz: int, height: int, depth: int, width: int, wall: nat,
    decor: DecorDraws, line: seq<Vec2>, path: seq<PathDraw>)

  predicate HouseDrawValid(hd: HouseDraw)
  {
    && 3 <= hd.height <= 6 && 6 <= hd.depth <= 9 && 5 <= hd.width <= 7 && hd.wall < |HouseMaterials|
    && DecorDrawsValid(hd.width, hd.depth, 2 + 2 * SideRows(hd.depth), hd.decor)
    && PathDrawsValid(hd.line, hd.path)
  }

  predicate DrawsValid(hs: seq<HouseDraw>)
  {
    forall i :: 0 <= i < |hs| ==> HouseDrawValid(hs[i])
  }

  /** Where a house goes: at the drawn column if it lies inside the heightmap, on its surface. */
  function Site(center: Vec3, rect: Rect, g: Heightmap, hd: HouseDraw): Option<Vec3>
  {
    var q := Vec2(center.x + hd.dx, center.z + hd.dz);
    if Inside(rect, g, q) then Some(Vec3(q.x, GroundAt(rect, g, q), q.y)) else None
  }

  /** The houses that are built, with their sites, in drawing order. */
  function Kept(center: Vec3, rect: Rect, g: Heightmap, hs: seq<HouseDraw>): (ks: seq<(Vec3, HouseDraw)>)
    ensures |ks| <= |hs|
    ensures forall k :: k in ks ==> k.1 in hs && Site(center, rect, g, k.1) == Some(k.0)
    ensures DrawsValid(hs) ==> AllValid(ks)
  {
    if hs == [] then []
    else
      var site := Site(center, rect, g, hs[0]);
      (if site.Some? then [(site.value, hs[0])] else []) + Kept(center, rect, g, hs[1..])
  }

  predicate AllValid(ks: seq<(Vec3, HouseDraw)>)
  {
    forall k :: k in ks ==> HouseDrawValid(k.1)
  }

  /** Each kept house: `build_house` at the site, then `decorate_area` with the drawn width. */
  function HousesPlan(ks: seq<(Vec3, HouseDraw)>): seq<Call>
    requires AllValid(ks)
  {
    if ks == [] then []
    else
      var (site, hd) := ks[0];
      CandidatesLength(site, hd.width, hd.depth);
      HousePlan(site, hd.height, hd.depth, hd.width, HouseMaterials[hd.wall], VillageFloor)
      + DecoratePlan(site, hd.width, hd.depth, hd.decor)
      + HousesPlan(ks[1..])
  }

  /** The paths from the centre to every kept house. */
  function PathsPlan(rect: Rect, g: Heightmap, ks: seq<(Vec3, HouseDraw)>): seq<Call>
    requires AllValid(ks)
  {
    if ks == [] then []
    else PathCalls(ks[0].1.line, rect, g, ks[0].1.path) + PathsPlan(rect, g, ks[1..])
  }

  /** `generate_village` once the heightmap is loaded: the well, the houses, then the paths. */
  function VillagePlan(center: Vec3, rect: Rect, g: Heightmap, hs: seq<HouseDraw>): seq<Call>
    requires DrawsValid(hs)
  {
    var ks := Kept(center, rect, g, hs);
    WellPlan(center) + HousesPlan(ks) + PathsPlan(rect, g, ks)
  }

  datatype Structure = WellAt(position: Vec3) | HouseAt(house: HouseInfo)

  datatype VillageInfo = VillageInfo(center: Vec3, radius: int, structures: seq<Structure>)

  function VillageReport(center: Vec3, radius: int, ks: seq<(Vec3, HouseDraw)>): VillageInfo
    requires AllValid(ks)
  {
    VillageInfo(center, radius, [WellAt(center)] + seq(|ks|, i requires 0 <= i < |ks| =>
      HouseAt(HouseReport(ks[i].0, ks[i].1.height, ks[i].1.depth, ks[i].1.width, HouseMaterials[ks[i].1.wall], VillageFloor))))
  }

  lemma {:induction false} KeptComplete(center: Vec3, rect: Rect, g: Heightmap, hs: seq<HouseDraw>)
    ensures forall i :: 0 <= i < |hs| && Site(center, rect, g, hs[i]).Some? ==>
      (Site(center, rect, g, hs[i]).value, hs[i]) in Kept(center, rect, g, hs)
  {
    if hs != [] {
      KeptComplete(center, rect, g, hs[1..]);
      forall i | 1 <= i < |hs| && Site(center, rect, g, hs[i]).Some?
        ensures (Site(center, rect, g, hs[i]).value, hs[i]) in Kept(center, rect, g, hs)
      {
        assert hs[i] == hs[1..][i - 1];
      }
    }
  }

  /** The village report: the well at the centre comes first, then one house per drawn house
      whose column lies inside the heightmap, sitting on the surface (height value minus one)
      and with the odd width it was built with; every such drawn house is reported. */
  lemma VillageStructures(center: Vec3, radius: int, rect: Rect, g: Heightmap, hs: seq<HouseDraw>)
    requires DrawsValid(hs)
    ensures var ks := Kept(center, rect, g, hs);
      var info := VillageReport(center, radius, ks);
      && info.center == center && info.radius == radius
      && info.structures[0] == WellAt(center)
      && |info.structures| <= 1 + |hs|
      && (forall i :: 1 <= i < |info.structures| ==> HouseSited(center, rect, g, hs, info.structures[i], ks[i - 1].1))
      && (forall hd :: hd in hs && Site(center, rect, g, hd).Some? ==> (Site(center, rect, g, hd).value, hd) in ks)
  {
    var ks := Kept(center, rect, g, hs);
    var info := VillageReport(center, radius, ks);
    KeptComplete(center, rect, g, hs);
    forall i | 1 <= i < |info.structures|
      ensures HouseSited(center, rect, g, hs, info.structures[i], ks[i - 1].1)
    {
      var k := ks[i - 1];
      assert k in ks;
      assert info.structures[i] == HouseAt(HouseReport(k.0, k.1.height, k.1.depth, k.1.width, HouseMaterials[k.1.wall], VillageFloor));
    }
  }

  /** A reported house stands at the site of its draw: inside the heightmap, on the surface. */
  predicate HouseSited(center: Vec3, rect: Rect, g: Heightmap, hs: seq<HouseDraw>, st: Structure, hd: HouseDraw)
  {
    var q := Vec2(center.x + hd.dx, center.z + hd.dz);
    && st.HouseAt? && hd in hs && Inside(rect, g, q)
    && st.house.position == Vec3(q.x, GroundAt(rect, g, q), q.y)
    && st.house.width == OddWidth(hd.width)
  }

  /** `generate_village`: reads the build area and the heightmap, then runs the village plan. */
  method GenerateVillage(ed: Editor, center: Vec3, numHouses: int, radius: int, hs: seq<HouseDraw>)
    returns (r: Result<VillageInfo, ToolError>)
    requires |hs| == Max(numHouses, 0)
    requires DrawsValid(hs)
    modifies ed`log, ed`blocks, ed`failAfter
    ensures old(ed.failAfter) == Some(0) ==> r == Failure(Raised(BackendRaised))
    ensures old(ed.failAfter) != Some(0) && ed.buildArea.None? ==> r == Failure(Raised(NoBuildArea))
    ensures old(ed.failAfter) == None && ed.buildArea.Some? && SurfaceNoLeaves in ed.worldSlice.heightmaps ==> r.Success?
    ensures old(ed.failAfter) == Some(1) && ed.buildArea.Some? ==> r == Failure(Raised(BackendRaised))
    ensures Completed(old(ed.failAfter), 2) == 2 && ed.buildArea.Some? && SurfaceNoLeaves !in ed.worldSlice.heightmaps ==>
      r == Failure(Raised(HeightmapNotAvailable))
    ensures Completed(old(ed.failAfter), 2) == 2 && ed.buildArea.Some? && SurfaceNoLeaves in ed.worldSlice.heightmaps ==>
      var plan := VillagePlan(center, ed.buildArea.value.ToRect(), ed.worldSlice.heightmaps[SurfaceNoLeaves], hs);
      var fa := Remaining(old(ed.failAfter), 2);
      && (r.Success? <==> Completed(fa, |plan|) == |plan|)
      && ed.log == old(ed.log) + [Entry(GetBuildArea, old(ed.CurrentMode()), false),
                                  Entry(LoadSlice(ed.buildArea.value.ToRect()), old(ed.CurrentMode()), false)]
                               + PlanLog(plan, old(ed.CurrentMode()), fa)
      && ed.blocks == ApplyAll(old(ed.blocks), plan[..Completed(fa, |plan|)])
    ensures r.Failure? ==> r.error in {Raised(BackendRaised), Raised(NoBuildArea), Raised(HeightmapNotAvailable)}
    ensures r.Success? ==> (ed.buildArea.Some? && SurfaceNoLeaves in ed.worldSlice.heightmaps
      && var rect := ed.buildArea.value.ToRect();
         var g := ed.worldSlice.heightmaps[SurfaceNoLeaves];
         var plan := VillagePlan(center, rect, g, hs);
         && ed.log == old(ed.log) + [Entry(GetBuildArea, old(ed.CurrentMode()), false),
                                     Entry(LoadSlice(rect), old(ed.CurrentMode()), false)] + Tag(plan, old(ed.CurrentMode()))
         && ed.blocks == ApplyAll(old(ed.blocks), plan)
         && r.value == VillageReport(center, radius, Kept(center, rect, g, hs)))
  {
    var ground := LoadVillageGround(ed);
    if ground.Failure? {
      return Failure(ground.error);
    }
    var rect := ground.value.0;
    var g := ground.value.1;
    assert rect == ed.buildArea.value.ToRect() && g == ed.worldSlice.heightmaps[SurfaceNoLeaves];
    ghost var plan := VillagePlan(center, ed.buildArea.value.ToRect(), ed.worldSlice.heightmaps[SurfaceNoLeaves], hs);
    assert VillagePlan(center, rect, g, hs) == plan;
    r := BuildVillageOn(ed, center, radius, rect, g, hs);
  }

  /** The reading half of `generate_village`: the build area, then its surface heightmap. */
  method LoadVillageGround(ed: Editor) returns (r: Result<(Rect, Heightmap), ToolError>)
    modifies ed`log, ed`blocks, ed`failAfter
    ensures old(ed.failAfter) == Some(0) ==> r == Failure(Raised(BackendRaised))
    ensures old(ed.failAfter) != Some(0) && ed.buildArea.None? ==> r == Failure(Raised(NoBuildArea))
    ensures old(ed.failAfter) == Some(1) && ed.buildArea.Some? ==> r == Failure(Raised(BackendRaised))
    ensures Completed(old(ed.failAfter), 2) == 2 && ed.buildArea.Some? ==>
      (SurfaceNoLeaves in ed.worldSlice.heightmaps <==> r.Success?)
      && (SurfaceNoLeaves !in ed.worldSlice.heightmaps ==> r == Failure(Raised(HeightmapNotAvailable)))
    ensures r.Failure? ==> r.error in {Raised(BackendRaised), Raised(NoBuildArea), Raised(HeightmapNotAvailable)}
    ensures r.Success? ==> (ed.buildArea.Some? && SurfaceNoLeaves in ed.worldSlice.heightmaps
      && ed.failAfter == Remaining(old(ed.failAfter), 2)
      && r.value == (ed.buildArea.value.ToRect(), ed.worldSlice.heightmaps[SurfaceNoLeaves])
      && ed.log == old(ed.log) + [Entry(GetBuildArea, old(ed.CurrentMode()), false),
                                  Entry(LoadSlice(r.value.0), old(ed.CurrentMode()), false)]
      && ed.blocks == old(ed.blocks))
  {
    var area := ed.GetBuildAreaBox();
    if area.Failure? {
      return if area.error == BuildAreaNotSetError then Failure(Raised(NoBuildArea)) else Failure(Raised(BackendRaised));
    }
    var rect := area.value.ToRect();
    var slice := ed.LoadWorldSlice(rect);
    if slice.Failure? {
      return Failure(Raised(BackendRaised));
    }
    if SurfaceNoLeaves !in slice.value.heightmaps {
      return Failure(Raised(HeightmapNotAvailable));
    }
    r := Success((rect, slice.value.heightmaps[SurfaceNoLeaves]));
  }

  /** The building half of `generate_village`: the plan runs to the end or stops where a call raised. */
  method BuildVillageOn(ed: Editor, center: Vec3, radius: int, rect: Rect, g: Heightmap, hs: seq<HouseDraw>)
    returns (r: Result<VillageInfo, ToolError>)
    requires DrawsValid(hs)
    modifies ed`log, ed`blocks, ed`failAfter
    ensures ed.Performed(VillagePlan(center, rect, g, hs), r.Success?)
    ensures r.Success? ==> && ed.log == old(ed.log) + Tag(VillagePlan(center, rect, g, hs), old(ed.CurrentMode()))
                           && ed.blocks == ApplyAll(old(ed.blocks), VillagePlan(center, rect, g, hs))
                           && r.value == VillageReport(center, radius, Kept(center, rect, g, hs))
    ensures r.Failure? ==> r.error == Raised(BackendRaised)
  {
    var plan := VillagePlan(center, rect, g, hs);
    ghost var fa := ed.failAfter;
    var ok := ed.Perform(plan);
    if !ok {
      return Failure(Raised(BackendRaised));
    }
    PlanLogComplete(plan, old(ed.CurrentMode()), fa);
    r := Success(VillageReport(center, radius, Kept(center, rect, g, hs)));
  }
}
