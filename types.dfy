/** Shared value types: integer vectors, blocks, boxes, rectangles and heightmap grids,
    as the gdpc library hands them to the bridge. */
module Types {

  datatype Option<+T> = None | Some(value: T)

  datatype Result<+T, +E> = Success(value: T) | Failure(error: E)

  /** A three-component integer vector (gdpc `ivec3`). */
  datatype Vec3 = Vec3(x: int, y: int, z: int)
  {
    function Plus(o: Vec3): Vec3 { Vec3(x + o.x, y + o.y, z + o.z) }
    function Minus(o: Vec3): Vec3 { Vec3(x - o.x, y - o.y, z - o.z) }
    function ToList(): (l: seq<int>)
      ensures |l| == 3 && l[0] == x && l[1] == y && l[2] == z
    { [x, y, z] }
  }

  /** A two-component integer vector; in a `Rect` the second component is the world z. */
  datatype Vec2 = Vec2(x: int, y: int)

  /** A block as gdpc stores it: an id, a map of states and optional SNBT data. */
  datatype Block = Block(id: string, states: map<string, string>, data: Option<string>)

  function Simple(id: string): Block { Block(id, map[], None) }

  /** The fallback string form of a block: `Block(<id>)`. */
  function BlockStr(b: Block): (s: string)
    ensures |s| == |b.id| + 7 && s[..6] == "Block(" && s[6..|s| - 1] == b.id && s[|s| - 1] == ')'
  {
    "Block(" + b.id + ")"
  }

  predicate StartsWithBlock(s: string)
  {
    |s| >= 6 && s[..6] == "Block("
  }

  /** The block text of a `place_block` reply. `shown` is gdpc's own `str` of the block,
      which is not part of this model. It is kept when it already begins with `Block(`, and
      replaced by `Block(<id>)` otherwise, so the reply always begins with `Block(`. */
  function PlacedBlockStr(b: Block, shown: string): (s: string)
    ensures StartsWithBlock(s)
    ensures StartsWithBlock(shown) ==> s == shown
    ensures !StartsWithBlock(shown) ==> s == BlockStr(b)
  {
    if StartsWithBlock(shown) then shown else BlockStr(b)
  }

  /** A three-dimensional box: offset plus size; its end is offset + size. */
  datatype Box = Box(offset: Vec3, size: Vec3)
  {
    function End(): (e: Vec3)
      ensures e.x - offset.x == size.x && e.y - offset.y == size.y && e.z - offset.z == size.z
    { offset.Plus(size) }

    /** The x/z footprint of the box; the rectangle's `y` is the box's `z`. */
    function ToRect(): (r: Rect)
      ensures r.offset == Vec2(offset.x, offset.z) && r.size == Vec2(size.x, size.z)
    { Rect(Vec2(offset.x, offset.z), Vec2(size.x, size.z)) }
  }

  /** A rectangle in the horizontal plane (gdpc `Rect`). */
  datatype Rect = Rect(offset: Vec2, size: Vec2)

  /** A heightmap as a row-major grid indexed `[x][z]` in coordinates local to its slice. */
  type Grid = seq<seq<int>>

  function Rows(g: Grid): nat { |g| }

  function Cols(g: Grid): nat { if |g| == 0 then 0 else |g[0]| }

  /** Every row has the same length, as in a numpy array. */
  predicate Rectangular(g: Grid)
  {
    forall i :: 0 <= i < |g| ==> |g[i]| == Cols(g)
  }

  predicate InGrid(g: Grid, i: int, j: int)
  {
    0 <= i < Rows(g) && 0 <= j < Cols(g) && Rectangular(g)
  }

  function At(g: Grid, i: int, j: int): int
    requires InGrid(g, i, j)
  {
    g[i][j]
  }

  /** Python's `sub in s` on strings. */
  predicate Contains(s: string, sub: string)
    decreases |s|
  {
    sub <= s || (|s| > 0 && Contains(s[1..], sub))
  }

  function Min(a: int, b: int): int { if a <= b then a else b }

  function Max(a: int, b: int): int { if a >= b then a else b }

  /** Python `int(v)` on a float: truncation toward zero. */
  function TruncReal(v: real): (r: int)
    ensures v >= 0.0 ==> r as real <= v < r as real + 1.0
    ensures v < 0.0 ==> r as real - 1.0 < v <= r as real
  {
    if v >= 0.0 then v.Floor else -((-v).Floor)
  }
}
