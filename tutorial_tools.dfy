/** The tutorial tools (src/gdmc_mcp/tutorial_tools.py): the context check of their wrappers,
    the default positions and rectangles they choose, and the two demos that switch the
    editor to buffering around a run of calls and restore its flags whatever happens. */
module TutorialTools {
  import opened Types
  import opened Backend
  import opened Errors
  import Server
  import Terrain
  import Builders

  // ---------------------------------------------------------------- tool wrappers

  /** What a registered tutorial tool takes from its `ctx`: a missing context, or one without
      a request context, is refused before anything else; otherwise the lifespan's `editor`
      entry is handed on unchecked, and a missing or non-editor value fails at its first use. */
  function ToolEditor(ctx: Server.Context): (r: Result<Editor, ToolError>)
    ensures r == Failure(ContextRequired) <==> !ctx.RequestContext?
    ensures r.Success? <==> ctx.RequestContext? && "editor" in ctx.lifespan
                            && (ctx.lifespan["editor"].GdpcEditor? || ctx.lifespan["editor"].MockEditor?)
    ensures r.Success? ==> r.value == ctx.lifespan["editor"].ed
    ensures ctx.RequestContext? && r.Failure? ==> r.error == Raised(NotAnEditor)
  {
    if !ctx.RequestContext? then Failure(ContextRequired)
    else if "editor" !in ctx.lifespan then Failure(Raised(NotAnEditor))
    else match ctx.lifespan["editor"]
      case GdpcEditor(e) => Success(e)
      case MockEditor(e) => Success(e)
      case _ => Failure(Raised(NotAnEditor))
  }

  /** The tutorial tools reach the editor the server's `_get_editor` finds, and no other;
      only the error they report differs. */
  lemma ToolEditorAgreesWithServer(ctx: Server.Context)
    ensures ToolEditor(ctx).Success? <==> Server.GetEditor(ctx).Success?
    ensures ToolEditor(ctx).Success? ==> ToolEditor(ctx).value == Server.GetEditor(ctx).value
    ensures !ctx.RequestContext? ==>
      ToolEditor(ctx).error == ContextRequired && Server.GetEditor(ctx).error == ContextNotAvailable
  {
  }

  /** The objects a tutorial tool may change: the editor it reaches, if any. */
  function ToolEditors(ctx: Server.Context): set<object>
  {
    if ToolEditor(ctx).Success? then {ToolEditor(ctx).value} else {}
  }

  /** `tuple(position) if position else None`: an absent or empty list means "no position". */
  function PositionArg(position: Option<seq<int>>): (r: Option<Vec3>)
    requires position.Some? && position.value != [] ==> |position.value| == 3
    ensures r.None? <==> position.None? || position.value == []
    ensures r.Some? ==> r.value.ToList() == position.value
  {
    if position.None? || position.value == [] then None
    else Some(Vec3(position.value[0], position.value[1], position.value[2]))
  }

  // ---------------------------------------------------------------- positions

  /** `editor.getBuildArea()` with `BuildAreaNotSetError` caught: None when no area is set. */
  method BuildAreaIfSet(ed: Editor) returns (r: Result<Option<Box>, ToolError>)
    modifies ed`log, ed`blocks, ed`failAfter
    ensures ed.Issued(GetBuildArea, r.Success?)
    ensures r.Success? <==> old(ed.failAfter) != Some(0)
    ensures r.Success? ==> r.value == ed.buildArea
    ensures r.Failure? ==> r.error == Raised(BackendRaised)
  {
    var area := ed.GetBuildAreaBox();
    if area.Success? {
      r := Success(Some(area.value));
    } else if area.error == BuildAreaNotSetError {
      r := Success(None);
    } else {
      r := Failure(Raised(BackendRaised));
    }
  }

  /** The default spot when no build area is set. */
  const DefaultSpot: Vec3 := Vec3(0, 80, 0)

  /** The house tutorial's fallback: three blocks above the build-area corner. */
  function CornerSite(area: Option<Box>): (p: Vec3)
    ensures area.Some? ==> p.Minus(area.value.offset) == Vec3(0, 3, 0)
    ensures area.None? ==> p == DefaultSpot
  {
    if area.Some? then area.value.offset.Plus(Vec3(0, 3, 0)) else DefaultSpot
  }

  /** The columns of a build area through its middle, at a chosen height. */
  function AreaCentre(area: Box, y: int): (p: Vec3)
    ensures p.y == y
    ensures area.size.x - 1 <= 2 * (p.x - area.offset.x) <= area.size.x
    ensures area.size.z - 1 <= 2 * (p.z - area.offset.z) <= area.size.z
  {
    Vec3(area.offset.x + area.size.x / 2, y, area.offset.z + area.size.z / 2)
  }

  /** The vector demo starts at the build area's centre, five above its floor. */
  function VectorDemoStart(area: Option<Box>): (p: Vec3)
    ensures area.Some? ==> p == AreaCentre(area.value, area.value.offset.y + 5)
    ensures area.None? ==> p == DefaultSpot
  {
    if area.Some? then AreaCentre(area.value, area.value.offset.y + 5) else DefaultSpot
  }

  /** The transformation demo starts at (10, 5, 10) from the build-area corner. */
  function TransformDemoStart(area: Option<Box>): (p: Vec3)
    ensures area.Some? ==> p.Minus(area.value.offset) == Vec3(10, 5, 10)
    ensures area.None? ==> p == DefaultSpot
  {
    if area.Some? then area.value.offset.Plus(Vec3(10, 5, 10)) else DefaultSpot
  }

  /** A site `find_build_position` may answer for a build area and the surface heightmap of
      its slice. */
  ghost predicate FoundSite(area: Option<Box>, slice: WorldSlice, site: Vec3)
  {
    && area.Some? && Terrain.SurfaceNoLeaves in slice.heightmaps
    && exists f: Result<(Vec3, real), ToolError> ::
         && Terrain.Answers(slice.heightmaps[Terrain.SurfaceNoLeaves], area.value.ToRect(), f)
         && f.Success? && f.value.0 == site
  }

  /** The house position when none is given: the one `find_build_position` picks when
      auto-placement is on, else the corner fallback. */
  method HouseSite(ed: Editor, autoPosition: bool) returns (r: Result<Vec3, ToolError>)
    modifies ed`log, ed`blocks, ed`failAfter
    ensures ed.blocks == old(ed.blocks)
    ensures old(ed.failAfter) == Some(0) ==> r == Failure(Raised(BackendRaised))
    ensures autoPosition && r.Success? ==> FoundSite(ed.buildArea, ed.worldSlice, r.value)
    ensures autoPosition && old(ed.failAfter) != Some(0) && ed.buildArea.None? ==> r == Failure(BuildAreaNotSet)
    ensures autoPosition && Completed(old(ed.failAfter), 2) == 2 && ed.buildArea.Some? ==>
      (r.Success? <==> Terrain.Locatable(ed.buildArea, ed.worldSlice))
    ensures autoPosition && r.Success? ==>
      && ed.log == old(ed.log) + [Entry(GetBuildArea, old(ed.CurrentMode()), false),
                                  Entry(LoadSlice(ed.buildArea.value.ToRect()), old(ed.CurrentMode()), false)]
      && ed.failAfter == Remaining(old(ed.failAfter), 2)
    ensures !autoPosition ==>
      && ed.log == old(ed.log) + [Entry(GetBuildArea, old(ed.CurrentMode()), old(ed.failAfter) == Some(0))]
      && ed.failAfter == Remaining(old(ed.failAfter), 1)
      && (old(ed.failAfter) != Some(0) ==> r == Success(CornerSite(ed.buildArea)))
  {
    if autoPosition {
      var found := Terrain.FindBuildPosition(ed);
      if found.Failure? {
        return Failure(found.error);
      }
      assert Terrain.Answers(ed.worldSlice.heightmaps[Terrain.SurfaceNoLeaves], ed.buildArea.value.ToRect(), found);
      return Success(found.value.0);
    }
    var area := BuildAreaIfSet(ed);
    if area.Failure? {
      return Failure(area.error);
    }
    r := Success(CornerSite(area.value));
  }

  // ---------------------------------------------------------------- run_house_tutorial

  const TutorialFloors: seq<string> := ["stone_bricks", "cobblestone", "polished_andesite"]
  const TutorialWalls: seq<string> := [
    "oak_planks", "spruce_planks", "birch_planks", "dark_oak_planks", "white_terracotta", "green_terracotta"]

  /** The random draws of the house tutorial: `randint(3, 7)`, `randint(5, 10)`,
      `randint(5, 9)` and the indices `random.choice` took. */
  datatype HouseDraws = HouseDraws(height: int, depth: int, width: int, floor: nat, wall: nat)

  predicate HouseDrawsValid(d: HouseDraws)
  {
    3 <= d.height <= 7 && 5 <= d.depth <= 10 && 5 <= d.width <= 9
    && d.floor < |TutorialFloors| && d.wall < |TutorialWalls|
  }

  /** The house the tutorial builds at p. */
  function TutorialHouse(p: Vec3, d: HouseDraws): seq<Call>
    requires HouseDrawsValid(d)
  {
    Builders.HousePlan(p, d.height, d.depth, d.width, TutorialWalls[d.wall], TutorialFloors[d.floor])
  }

  /** What the tutorial reports about the house at p. */
  function TutorialReport(p: Vec3, d: HouseDraws): (h: Builders.HouseInfo)
    requires HouseDrawsValid(d)
    ensures h.position == p && h.height == d.height && h.depth == d.depth
    ensures h.width == Builders.OddWidth(d.width) && 5 <= h.width <= 9
    ensures h.walls in TutorialWalls && h.floor in TutorialFloors
  {
    Builders.HouseReport(p, d.height, d.depth, d.width, TutorialWalls[d.wall], TutorialFloors[d.floor])
  }

  /** `build_house` with the tutorial's draws. */
  method BuildTutorialHouse(ed: Editor, p: Vec3, d: HouseDraws) returns (r: Result<Builders.HouseInfo, ToolError>)
    requires HouseDrawsValid(d)
    modifies ed`log, ed`blocks, ed`failAfter
    ensures ed.Performed(TutorialHouse(p, d), r.Success?)
    ensures r.Success? ==> r.value == TutorialReport(p, d)
    ensures r.Failure? ==> r.error == Raised(BackendRaised)
  {
    r := Builders.BuildHouse(ed, p, d.height, d.depth, d.width, TutorialWalls[d.wall], TutorialFloors[d.floor]);
  }

  /** `run_house_tutorial`. */
  method RunHouseTutorial(ed: Editor, position: Option<Vec3>, autoPosition: bool, d: HouseDraws)
    returns (r: Result<Builders.HouseInfo, ToolError>)
    requires HouseDrawsValid(d)
    modifies ed`log, ed`blocks, ed`failAfter
    ensures position.Some? ==> ed.Performed(TutorialHouse(position.value, d), r.Success?)
    ensures position.None? && old(ed.failAfter) == Some(0) ==> r == Failure(Raised(BackendRaised))
    ensures r.Success? ==> r.value == TutorialReport(r.value.position, d)
    ensures r.Success? && position.Some? ==> r.value.position == position.value
    ensures r.Success? && position.None? && autoPosition ==> FoundSite(ed.buildArea, ed.worldSlice, r.value.position)
    ensures r.Success? && position.None? && !autoPosition ==> r.value.position == CornerSite(ed.buildArea)
    ensures position.None? && !autoPosition && old(ed.failAfter) != Some(0) ==>
      var plan := TutorialHouse(CornerSite(ed.buildArea), d);
      var fa := Remaining(old(ed.failAfter), 1);
      && ed.log == old(ed.log) + [Entry(GetBuildArea, old(ed.CurrentMode()), false)] + PlanLog(plan, old(ed.CurrentMode()), fa)
      && ed.blocks == ApplyAll(old(ed.blocks), plan[..Completed(fa, |plan|)])
      && (r.Success? <==> Completed(fa, |plan|) == |plan|)
    ensures position.None? && autoPosition && old(ed.failAfter) == None && Terrain.Locatable(ed.buildArea, ed.worldSlice) ==>
      r.Success?
    ensures position.None? && autoPosition && r.Success? ==>
      var plan := TutorialHouse(r.value.position, d);
      && ed.log == old(ed.log) + [Entry(GetBuildArea, old(ed.CurrentMode()), false),
                                  Entry(LoadSlice(ed.buildArea.value.ToRect()), old(ed.CurrentMode()), false)]
                               + Tag(plan, old(ed.CurrentMode()))
      && ed.blocks == ApplyAll(old(ed.blocks), plan)
  {
    if position.Some? {
      r := BuildTutorialHouse(ed, position.value, d);
      return;
    }
    var site := HouseSite(ed, autoPosition);
    if site.Failure? {
      return Failure(site.error);
    }
    r := BuildTutorialHouse(ed, site.value, d);
    if r.Success? {
      PlanLogComplete(TutorialHouse(site.value, d), ed.CurrentMode(), Remaining(old(ed.failAfter), if autoPosition then 2 else 1));
    }
  }

  // ---------------------------------------------------------------- run_terrain_analysis_tutorial

  /** The rectangle the terrain tutorial analyses: a square of side min(50, width, depth)
      around the given position, else the whole build rectangle. */
  function TutorialRect(build: Rect, position: Option<Vec3>): (r: Rect)
    ensures position.None? ==> r == build
    ensures position.Some? ==>
      && r.size.x == r.size.y
      && r.size.x <= 50 && r.size.x <= build.size.x && r.size.x <= build.size.y
      && (r.size.x == 50 || r.size.x == build.size.x || r.size.x == build.size.y)
      && r.offset.x + r.size.x / 2 == position.value.x && r.offset.y + r.size.y / 2 == position.value.z
  {
    if position.None? then build
    else
      var side := Min(50, Min(build.size.x, build.size.y));
      Rect(Vec2(position.value.x - side / 2, position.value.z - side / 2), Vec2(side, side))
  }

  /** `run_terrain_analysis_tutorial`. */
  method RunTerrainAnalysisTutorial(ed: Editor, position: Option<Vec3>, s: Terrain.Samples)
    returns (r: Result<Terrain.TerrainAnalysis, ToolError>)
    modifies ed`log, ed`blocks, ed`failAfter
    ensures old(ed.failAfter) == Some(0) ==> r == Failure(Raised(BackendRaised))
    ensures old(ed.failAfter) != Some(0) && ed.buildArea.None? ==> r == Failure(BuildAreaNotSet)
    ensures Completed(old(ed.failAfter), 2) == 2 && ed.buildArea.Some? ==>
      var rect := TutorialRect(ed.buildArea.value.ToRect(), position);
      Terrain.SurfaceOf(ed.worldSlice, rect).Failure? ==> r == Failure(Terrain.SurfaceOf(ed.worldSlice, rect).error)
    ensures Completed(old(ed.failAfter), 3) == 3 && ed.buildArea.Some? ==>
      var rect := TutorialRect(ed.buildArea.value.ToRect(), position);
      Terrain.SurfaceOf(ed.worldSlice, rect).Success? ==> r.Success?
    ensures r.Success? ==> ed.buildArea.Some? && var rect := TutorialRect(ed.buildArea.value.ToRect(), position);
      && Terrain.SurfaceOf(ed.worldSlice, rect).Success?
      && r.value == Terrain.Analysis(Terrain.SurfaceOf(ed.worldSlice, rect).value, rect, s)
      && ed.log == old(ed.log) + [Entry(GetBuildArea, old(ed.CurrentMode()), false),
                                  Entry(LoadSlice(rect), old(ed.CurrentMode()), false),
                                  Entry(Terrain.MarkerCall(rect, Terrain.HeightCenter(r.value.minHeight, r.value.maxHeight)),
                                        old(ed.CurrentMode()), false)]
  {
    var area := ed.GetBuildAreaBox();
    if area.Failure? {
      return if area.error == BuildAreaNotSetError then Failure(BuildAreaNotSet) else Failure(Raised(BackendRaised));
    }
    var rect := TutorialRect(area.value.ToRect(), position);
    r := Terrain.AnalyzeTerrain(ed, rect, s);
  }

  // ---------------------------------------------------------------- run_vector_operations_demo

  /** One entry of the vector demo's `operations` list. */
  datatype Operation =
    | LineOp(start: Vec3, end: Vec3)
    | CircleOp(center: Vec3, radius: int)
    | RectOp(corner1: Vec3, corner2: Vec3)
    | BoxOp(corner1: Vec3, corner2: Vec3)
    | RotateOp(center: Vec3, radius: int)

  function OperationName(op: Operation): string
  {
    match op
    case LineOp(_, _) => "line3D"
    case CircleOp(_, _) => "circle"
    case RectOp(_, _) => "Rect"
    case BoxOp(_, _) => "Box"
    case RotateOp(_, _) => "rotate2D"
  }

  /** The calls of the vector demo from `start`: clear the space, lay a platform, then one
      drawing per operation, then flush. */
  function VectorDemoPlan(start: Vec3): (plan: seq<Call>)
    ensures |plan| == 8 && plan[7] == Flush
  {
    [Cuboid(Solid, start.Minus(Vec3(10, 0, 10)), start.Plus(Vec3(10, 15, 10)), Single(Simple("air"))),
     Cuboid(Solid, start.Minus(Vec3(10, 1, 10)), start.Plus(Vec3(10, -1, 10)), Single(Simple("smooth_stone"))),
     Line(start, start.Plus(Vec3(8, 8, 8)), Simple("red_concrete")),
     Circle(start, 5, Simple("blue_concrete")),
     RectOutline(start.Plus(Vec3(-8, 0, -8)), start.Plus(Vec3(-3, 0, -3)), Simple("green_concrete")),
     Cuboid(Wireframe, start.Plus(Vec3(3, 1, -8)), start.Plus(Vec3(8, 6, -3)), Single(Simple("purple_concrete"))),
     RotationColumns(start, 8, Simple("yellow_concrete")),
     Flush]
  }

  /** The `operations` list, in the order the demo appends to it. */
  function VectorOperations(start: Vec3): (ops: seq<Operation>)
    ensures |ops| == 5
  {
    [LineOp(start, start.Plus(Vec3(8, 8, 8))),
     CircleOp(start, 5),
     RectOp(start.Plus(Vec3(-8, 0, -8)), start.Plus(Vec3(-3, 0, -3))),
     BoxOp(start.Plus(Vec3(3, 1, -8)), start.Plus(Vec3(8, 6, -3))),
     RotateOp(start, 8)]
  }

  /** A reported operation names the shape a call drew and its defining points. */
  predicate Describes(op: Operation, c: Call)
  {
    match op
    case LineOp(s, e) => c.Line? && c.from == s && c.to == e
    case CircleOp(m, k) => c.Circle? && c.center == m && c.radius == k
    case RectOp(a, b) => c.RectOutline? && c.corner1 == a && c.corner2 == b
    case BoxOp(a, b) => c.Cuboid? && c.kind == Wireframe && c.corner1 == a && c.corner2 == b
    case RotateOp(m, k) => c.RotationColumns? && c.center == m && c.radius == k
  }

  /** The five operations come in the fixed order line3D, circle, Rect, Box, rotate2D, and
      the i-th describes the drawing made after the clearing and the platform. */
  lemma VectorOperationsDescribePlan(start: Vec3)
    ensures var ops := VectorOperations(start);
      && OperationName(ops[0]) == "line3D" && OperationName(ops[1]) == "circle"
      && OperationName(ops[2]) == "Rect" && OperationName(ops[3]) == "Box" && OperationName(ops[4]) == "rotate2D"
      && forall i :: 0 <= i < 5 ==> Describes(ops[i], VectorDemoPlan(start)[i + 2])
  {
  }

  datatype VectorDemo = VectorDemo(position: Vec3, operations: seq<Operation>)

  /** The demo proper: buffering on, the calls, buffering restored whether or not a call raised. */
  method VectorDemoAt(ed: Editor, start: Vec3) returns (r: Result<VectorDemo, ToolError>)
    modifies ed`log, ed`blocks, ed`failAfter, ed`buffering
    ensures ed.buffering == old(ed.buffering)
    ensures ed.log == old(ed.log) + PlanLog(VectorDemoPlan(start), Mode(true, old(ed.multithreading)), old(ed.failAfter))
    ensures ed.blocks == ApplyAll(old(ed.blocks), VectorDemoPlan(start)[..Completed(old(ed.failAfter), 8)])
    ensures ed.failAfter == Remaining(old(ed.failAfter), 8)
    ensures r.Success? <==> Completed(old(ed.failAfter), 8) == 8
    ensures r.Success? ==> r.value == VectorDemo(start, VectorOperations(start))
    ensures r.Failure? ==> r.error == Raised(BackendRaised)
  {
    var saved := ed.buffering;
    ed.buffering := true;
    var ok := ed.Perform(VectorDemoPlan(start));
    ed.buffering := saved;
    r := if ok then Success(VectorDemo(start, VectorOperations(start))) else Failure(Raised(BackendRaised));
  }

  /** `run_vector_operations_demo`. */
  method RunVectorOperationsDemo(ed: Editor, position: Option<Vec3>) returns (r: Result<VectorDemo, ToolError>)
    modifies ed`log, ed`blocks, ed`failAfter, ed`buffering
    ensures ed.buffering == old(ed.buffering) && ed.multithreading == old(ed.multithreading)
    ensures position.Some? ==>
      && ed.log == old(ed.log) + PlanLog(VectorDemoPlan(position.value), Mode(true, old(ed.multithreading)), old(ed.failAfter))
      && ed.blocks == ApplyAll(old(ed.blocks), VectorDemoPlan(position.value)[..Completed(old(ed.failAfter), 8)])
      && (r.Success? <==> Completed(old(ed.failAfter), 8) == 8)
    ensures position.None? && old(ed.failAfter) == Some(0) ==>
      r == Failure(Raised(BackendRaised)) && ed.log == old(ed.log) + [Entry(GetBuildArea, old(ed.CurrentMode()), true)]
    ensures position.None? && old(ed.failAfter) != Some(0) ==>
      ed.log == old(ed.log) + [Entry(GetBuildArea, old(ed.CurrentMode()), false)]
                            + PlanLog(VectorDemoPlan(VectorDemoStart(ed.buildArea)), Mode(true, old(ed.multithreading)),
                                      Remaining(old(ed.failAfter), 1))
    ensures r.Success? ==>
      && r.value.operations == VectorOperations(r.value.position)
      && r.value.position == if position.Some? then position.value else VectorDemoStart(ed.buildArea)
  {
    var start: Vec3;
    if position.Some? {
      start := position.value;
    } else {
      var area := BuildAreaIfSet(ed);
      if area.Failure? {
        return Failure(area.error);
      }
      start := VectorDemoStart(area.value);
    }
    r := VectorDemoAt(ed, start);
  }

  // ---------------------------------------------------------------- run_transformation_tutorial

  /** The L-shaped structure, in coordinates local to its transform. */
  function LShape(): seq<Call>
  {
    [Cuboid(Solid, Vec3(0, 0, 0), Vec3(4, 0, 4), Single(Simple("stone_bricks"))),
     Cuboid(Solid, Vec3(0, 1, 0), Vec3(0, 3, 4), Single(Simple("oak_planks"))),
     Cuboid(Solid, Vec3(0, 1, 0), Vec3(4, 3, 0), Single(Simple("oak_planks"))),
     SetBlock(Vec3(2, 1, 2), Block("oak_stairs", map["facing" := "north"], None)),
     SetBlock(Vec3(0, 4, 0), Simple("red_banner"))]
  }

  const NoFlip: (bool, bool, bool) := (false, false, false)

  /** One entry of the `transformations` list; `rotation` and `flip` appear only where set. */
  datatype TransformEntry = TransformEntry(name: string, position: Vec3, rotation: Option<int>, flip: Option<(bool, bool, bool)>)

  /** The `transformations` list, in the order the demo appends to it. */
  function Transformations(start: Vec3): (ts: seq<TransformEntry>)
    ensures |ts| == 6
  {
    [TransformEntry("original", start, None, None),
     TransformEntry("translation", start.Plus(Vec3(15, 0, 0)), None, None),
     TransformEntry("rotation_90", start.Plus(Vec3(0, 0, 15)), Some(1), None),
     TransformEntry("rotation_180", start.Plus(Vec3(15, 0, 15)), Some(2), None),
     TransformEntry("flip_x", start.Plus(Vec3(30, 0, 0)), None, Some((true, false, false))),
     TransformEntry("combined", start.Plus(Vec3(30, 0, 15)), Some(3), Some((false, false, true)))]
  }

  /** The transform an entry reports: an unreported rotation is 0, an unreported flip none. */
  function TransformOf(e: TransformEntry): Transform
  {
    Transform(e.position, if e.rotation.Some? then e.rotation.value else 0,
              if e.flip.Some? then e.flip.value else NoFlip)
  }

  /** The calls of the transformation demo from `start`: clear, platform, six L-shapes under
      their transforms, flush. */
  function TransformDemoPlan(start: Vec3): (plan: seq<Call>)
    ensures |plan| == 9 && plan[8] == Flush
  {
    [Cuboid(Solid, start.Minus(Vec3(15, 0, 15)), start.Plus(Vec3(40, 15, 40)), Single(Simple("air"))),
     Cuboid(Solid, start.Minus(Vec3(15, 1, 15)), start.Plus(Vec3(40, -1, 40)), Single(Simple("smooth_stone"))),
     Transformed(Transform(start, 0, NoFlip), LShape()),
     Transformed(Transform(start.Plus(Vec3(15, 0, 0)), 0, NoFlip), LShape()),
     Transformed(Transform(start.Plus(Vec3(0, 0, 15)), 1, NoFlip), LShape()),
     Transformed(Transform(start.Plus(Vec3(15, 0, 15)), 2, NoFlip), LShape()),
     Transformed(Transform(start.Plus(Vec3(30, 0, 0)), 0, (true, false, false)), LShape()),
     Transformed(Transform(start.Plus(Vec3(30, 0, 15)), 3, (false, false, true)), LShape()),
     Flush]
  }

  /** The six entries sit at (0,0,0), (15,0,0), (0,0,15), (15,0,15), (30,0,0) and (30,0,15)
      from the start, and each reports the transform its L-shape was built under. */
  lemma TransformationsDescribePlan(start: Vec3)
    ensures var ts := Transformations(start);
      && ts[0].position.Minus(start) == Vec3(0, 0, 0) && ts[1].position.Minus(start) == Vec3(15, 0, 0)
      && ts[2].position.Minus(start) == Vec3(0, 0, 15) && ts[3].position.Minus(start) == Vec3(15, 0, 15)
      && ts[4].position.Minus(start) == Vec3(30, 0, 0) && ts[5].position.Minus(start) == Vec3(30, 0, 15)
      && forall i :: 0 <= i < 6 ==> TransformDemoPlan(start)[i + 2] == Transformed(TransformOf(ts[i]), LShape())
  {
  }

  datatype TransformDemo = TransformDemo(position: Vec3, transformations: seq<TransformEntry>)

  /** The demo proper: buffering on and multithreading off for the calls, both flags restored
      whether or not a call raised. */
  method TransformDemoAt(ed: Editor, start: Vec3) returns (r: Result<TransformDemo, ToolError>)
    modifies ed`log, ed`blocks, ed`failAfter, ed`buffering, ed`multithreading
    ensures ed.buffering == old(ed.buffering) && ed.multithreading == old(ed.multithreading)
    ensures ed.log == old(ed.log) + PlanLog(TransformDemoPlan(start), Mode(true, false), old(ed.failAfter))
    ensures ed.blocks == ApplyAll(old(ed.blocks), TransformDemoPlan(start)[..Completed(old(ed.failAfter), 9)])
    ensures ed.failAfter == Remaining(old(ed.failAfter), 9)
    ensures r.Success? <==> Completed(old(ed.failAfter), 9) == 9
    ensures r.Success? ==> r.value == TransformDemo(start, Transformations(start))
    ensures r.Failure? ==> r.error == Raised(BackendRaised)
  {
    var savedBuffering := ed.buffering;
    var savedThreads := ed.multithreading;
    ed.buffering := true;
    ed.multithreading := false;
    var ok := ed.Perform(TransformDemoPlan(start));
    ed.buffering := savedBuffering;
    ed.multithreading := savedThreads;
    r := if ok then Success(TransformDemo(start, Transformations(start))) else Failure(Raised(BackendRaised));
  }

  /** `run_transformation_tutorial`. */
  method RunTransformationTutorial(ed: Editor, position: Option<Vec3>) returns (r: Result<TransformDemo, ToolError>)
    modifies ed`log, ed`blocks, ed`failAfter, ed`buffering, ed`multithreading
    ensures ed.buffering == old(ed.buffering) && ed.multithreading == old(ed.multithreading)
    ensures position.Some? ==>
      && ed.log == old(ed.log) + PlanLog(TransformDemoPlan(position.value), Mode(true, false), old(ed.failAfter))
      && ed.blocks == ApplyAll(old(ed.blocks), TransformDemoPlan(position.value)[..Completed(old(ed.failAfter), 9)])
      && (r.Success? <==> Completed(old(ed.failAfter), 9) == 9)
    ensures position.None? && old(ed.failAfter) == Some(0) ==>
      r == Failure(Raised(BackendRaised)) && ed.log == old(ed.log) + [Entry(GetBuildArea, old(ed.CurrentMode()), true)]
    ensures position.None? && old(ed.failAfter) != Some(0) ==>
      ed.log == old(ed.log) + [Entry(GetBuildArea, old(ed.CurrentMode()), false)]
                            + PlanLog(TransformDemoPlan(TransformDemoStart(ed.buildArea)), Mode(true, false),
                                      Remaining(old(ed.failAfter), 1))
    ensures r.Success? ==>
      && r.value.transformations == Transformations(r.value.position)
      && r.value.position == if position.Some? then position.value else TransformDemoStart(ed.buildArea)
  {
    var start: Vec3;
    if position.Some? {
      start := position.value;
    } else {
      var area := BuildAreaIfSet(ed);
      if area.Failure? {
        return Failure(area.error);
      }
      start := TransformDemoStart(area.value);
    }
    r := TransformDemoAt(ed, start);
  }

  /** Every call a plan makes is logged in the mode the plan ran in: the demos' calls all
      carry buffering on, and the transformation demo's multithreading off. */
  lemma {:induction false} PlanLogInMode(plan: seq<Call>, mode: Mode, fa: Option<nat>)
    ensures forall i :: 0 <= i < |PlanLog(plan, mode, fa)| ==> PlanLog(plan, mode, fa)[i].mode == mode
  {
    var k := Completed(fa, |plan|);
    var done := Tag(plan[..k], mode);
    var rest: seq<Entry> := if k < |plan| then [Entry(plan[k], mode, true)] else [];
    assert PlanLog(plan, mode, fa) == done + rest;
    forall i | 0 <= i < |done + rest|
      ensures (done + rest)[i].mode == mode
    {
      if i < |done| {
        assert (done + rest)[i] == done[i];
      } else {
        assert (done + rest)[i] == rest[i - |done|];
      }
    }
  }

  // ---------------------------------------------------------------- generate_terrain_report

  /** A local index clamped into [0, n - 1] as `max(0, min(v, n - 1))`; 0 when n is 0. */
  function ClampIndex(v: int, n: int): (i: int)
    ensures n > 0 ==> 0 <= i < n
    ensures 0 <= v < n ==> i == v
    ensures n > 0 && v >= n ==> i == n - 1
    ensures v < 0 || n <= 0 ==> i == 0
  {
    Max(0, Min(v, n - 1))
  }

  /** The centre of the report when no position is given: the build area's middle column,
      one below the heightmap value there, the local indices clamped into the heightmap. */
  function ReportCentre(area: Box, g: Heightmap): (r: Result<Vec3, ToolError>)
    ensures r.Success? <==> Rows(g) > 0 && Cols(g) > 0
    ensures r.Success? ==> var c := AreaCentre(area, 0);
      var i := ClampIndex(c.x - area.offset.x, Rows(g));
      var j := ClampIndex(c.z - area.offset.z, Cols(g));
      && InGrid(g, i, j) && r.value == Vec3(c.x, At(g, i, j) - 1, c.z)
    ensures r.Failure? ==> r.error == Raised(OutsideHeightmap)
  {
    var c := AreaCentre(area, 0);
    var i := ClampIndex(c.x - area.offset.x, Rows(g));
    var j := ClampIndex(c.z - area.offset.z, Cols(g));
    if InGrid(g, i, j) then Success(Vec3(c.x, At(g, i, j) - 1, c.z))
    else Failure(Raised(OutsideHeightmap))
  }

  /** The square of side min(2 * radius, width, depth) centred on (x, z). */
  function ReportSquare(area: Box, x: int, z: int, radius: int): (r: Rect)
    ensures r.size.x == r.size.y == Min(2 * radius, Min(area.size.x, area.size.z))
    ensures r.offset.x + r.size.x / 2 == x && r.offset.y + r.size.y / 2 == z
  {
    var side := Min(radius * 2, Min(area.size.x, area.size.z));
    Rect(Vec2(x - side / 2, z - side / 2), Vec2(side, side))
  }

  /** The rectangle lies within the build area's footprint on both axes. */
  predicate WithinArea(r: Rect, area: Box)
  {
    && area.offset.x <= r.offset.x && r.offset.x + r.size.x <= area.offset.x + area.size.x
    && area.offset.z <= r.offset.y && r.offset.y + r.size.y <= area.offset.z + area.size.z
  }

  /** The report's rectangle: the square if it fits, else its offset raised to the area's and
      its size cut to what lies between its own (unraised) offset and the area's end. */
  function ReportRect(area: Box, x: int, z: int, radius: int): (r: Rect)
    ensures WithinArea(ReportSquare(area, x, z, radius), area) ==> r == ReportSquare(area, x, z, radius)
  {
    var sq := ReportSquare(area, x, z, radius);
    if WithinArea(sq, area) then sq
    else
      Rect(Vec2(Max(area.offset.x, sq.offset.x), Max(area.offset.z, sq.offset.y)),
           Vec2(Min(area.offset.x + area.size.x - sq.offset.x, sq.size.x),
                Min(area.offset.z + area.size.z - sq.offset.y, sq.size.y)))
  }

  /** Whatever the centre and radius, the report's rectangle starts inside the build area and
      ends before its end on both axes. */
  lemma ReportRectWithinArea(area: Box, x: int, z: int, radius: int)
    ensures WithinArea(ReportRect(area, x, z, radius), area)
  {
    var sq := ReportSquare(area, x, z, radius);
    if !WithinArea(sq, area) {
      var r := ReportRect(area, x, z, radius);
      assert sq.size.x <= area.size.x && sq.size.y <= area.size.z;
      assert r.offset.x + r.size.x <= area.offset.x + area.size.x by {
        if sq.offset.x < area.offset.x {
          assert r.offset.x == area.offset.x && r.size.x <= sq.size.x;
        } else {
          assert r.offset.x == sq.offset.x && r.size.x <= area.offset.x + area.size.x - sq.offset.x;
        }
      }
      assert r.offset.y + r.size.y <= area.offset.z + area.size.z by {
        if sq.offset.y < area.offset.z {
          assert r.offset.y == area.offset.z && r.size.y <= sq.size.y;
        } else {
          assert r.offset.y == sq.offset.y && r.size.y <= area.offset.z + area.size.z - sq.offset.y;
        }
      }
    }
  }

  /** The cut size is measured from the unraised offset: a centre far east of a 10-wide area
      yields a rectangle of negative width. */
  lemma ReportRectCanHaveNegativeWidth()
    ensures ReportRect(Box(Vec3(0, 0, 0), Vec3(10, 10, 10)), 100, 0, 2) == Rect(Vec2(98, 0), Vec2(-88, 4))
  {
    assert ReportSquare(Box(Vec3(0, 0, 0), Vec3(10, 10, 10)), 100, 0, 2) == Rect(Vec2(98, -2), Vec2(4, 4));
  }

  /** The report's centre: the position given, else the centre of the build area found on
      the surface heightmap of the slice loaded for it. */
  function CentreChoice(position: Option<Vec3>, area: Box, slice: WorldSlice): (r: Result<Vec3, ToolError>)
    ensures position.Some? ==> r == Success(position.value)
    ensures position.None? && Terrain.SurfaceNoLeaves !in slice.heightmaps ==> r == Failure(Raised(HeightmapNotAvailable))
    ensures position.None? && Terrain.SurfaceNoLeaves in slice.heightmaps ==>
      r == ReportCentre(area, slice.heightmaps[Terrain.SurfaceNoLeaves])
  {
    if position.Some? then Success(position.value)
    else if Terrain.SurfaceNoLeaves !in slice.heightmaps then Failure(Raised(HeightmapNotAvailable))
    else ReportCentre(area, slice.heightmaps[Terrain.SurfaceNoLeaves])
  }

  /** The centre step of `generate_terrain_report`: with no position, the slice of the whole
      build area is loaded first. */
  method ReportCentreIn(ed: Editor, position: Option<Vec3>, area: Box) returns (r: Result<Vec3, ToolError>)
    modifies ed`log, ed`blocks, ed`failAfter
    ensures ed.blocks == old(ed.blocks)
    ensures position.Some? ==> r == Success(position.value) && ed.log == old(ed.log) && ed.failAfter == old(ed.failAfter)
    ensures position.None? ==> ed.Issued(LoadSlice(area.ToRect()), old(ed.failAfter) != Some(0))
    ensures position.None? && old(ed.failAfter) == Some(0) ==> r == Failure(Raised(BackendRaised))
    ensures position.None? && old(ed.failAfter) != Some(0) ==> r == CentreChoice(position, area, ed.worldSlice)
  {
    if position.Some? {
      return Success(position.value);
    }
    var slice := ed.LoadWorldSlice(area.ToRect());
    if slice.Failure? {
      return Failure(Raised(BackendRaised));
    }
    r := CentreChoice(position, area, slice.value);
  }

  /** The backend calls `generate_terrain_report` makes when none raises: the build area, the
      slice for the centre when no position is given, and the two of `analyze_terrain`. */
  function ReportCalls(position: Option<Vec3>): nat
  {
    if position.Some? then 3 else 4
  }

  /** `generate_terrain_report`. */
  method GenerateTerrainReport(ed: Editor, position: Option<Vec3>, radius: int, s: Terrain.Samples)
    returns (r: Result<Terrain.TerrainAnalysis, ToolError>)
    modifies ed`log, ed`blocks, ed`failAfter
    ensures old(ed.failAfter) == Some(0) ==> r == Failure(Raised(BackendRaised))
    ensures old(ed.failAfter) != Some(0) && ed.buildArea.None? ==> r == Failure(BuildAreaNotSet)
    ensures (old(ed.failAfter) == None && ed.buildArea.Some?
             && CentreChoice(position, ed.buildArea.value, ed.worldSlice).Failure?) ==>
      r == Failure(CentreChoice(position, ed.buildArea.value, ed.worldSlice).error)
    ensures (Completed(old(ed.failAfter), ReportCalls(position)) == ReportCalls(position) && ed.buildArea.Some?
             && CentreChoice(position, ed.buildArea.value, ed.worldSlice).Success?) ==>
      var c := CentreChoice(position, ed.buildArea.value, ed.worldSlice).value;
      var rect := ReportRect(ed.buildArea.value, c.x, c.z, radius);
      && (Terrain.SurfaceOf(ed.worldSlice, rect).Success? ==> r.Success?)
      && (Terrain.SurfaceOf(ed.worldSlice, rect).Failure? ==> r == Failure(Terrain.SurfaceOf(ed.worldSlice, rect).error))
    ensures r.Success? ==>
      && ed.buildArea.Some?
      && CentreChoice(position, ed.buildArea.value, ed.worldSlice).Success?
      && var c := CentreChoice(position, ed.buildArea.value, ed.worldSlice).value;
         var rect := ReportRect(ed.buildArea.value, c.x, c.z, radius);
         && Terrain.SurfaceOf(ed.worldSlice, rect).Success?
         && r.value == Terrain.Analysis(Terrain.SurfaceOf(ed.worldSlice, rect).value, rect, s)
  {
    var got := ed.GetBuildAreaBox();
    if got.Failure? {
      return if got.error == BuildAreaNotSetError then Failure(BuildAreaNotSet) else Failure(Raised(BackendRaised));
    }
    var area := got.value;
    var c := ReportCentreIn(ed, position, area);
    if c.Failure? {
      return Failure(c.error);
    }
    var rect := ReportRect(area, c.value.x, c.value.z, radius);
    r := Terrain.AnalyzeTerrain(ed, rect, s);
  }

  // ---------------------------------------------------------------- build_example_village

  /** `generate_village` around a chosen centre, as far as the wrapper relies on it. */
  method VillageAt(ed: Editor, centre: Vec3, numHouses: int, radius: int, hs: seq<Builders.HouseDraw>)
    returns (r: Result<Builders.VillageInfo, ToolError>)
    requires |hs| == Max(numHouses, 0) && Builders.DrawsValid(hs)
    modifies ed`log, ed`blocks, ed`failAfter
    ensures old(ed.failAfter) == Some(0) ==> r == Failure(Raised(BackendRaised))
    ensures old(ed.failAfter) != Some(0) && ed.buildArea.None? ==> r == Failure(Raised(NoBuildArea))
    ensures r.Success? ==> r.value.center == centre && r.value.radius == radius
  {
    r := Builders.GenerateVillage(ed, centre, numHouses, radius, hs);
    if r.Success? {
      Builders.VillageStructures(centre, radius, ed.buildArea.value.ToRect(),
                                 ed.worldSlice.heightmaps[Terrain.SurfaceNoLeaves], hs);
    }
  }

  /** `build_example_village`: the given centre or the one `find_build_position` picks, then
      `generate_village`. */
  method BuildExampleVillage(ed: Editor, position: Option<Vec3>, numHouses: int, radius: int, hs: seq<Builders.HouseDraw>)
    returns (r: Result<Builders.VillageInfo, ToolError>)
    requires |hs| == Max(numHouses, 0) && Builders.DrawsValid(hs)
    modifies ed`log, ed`blocks, ed`failAfter
    ensures old(ed.failAfter) == Some(0) ==> r == Failure(Raised(BackendRaised))
    ensures old(ed.failAfter) != Some(0) && ed.buildArea.None? ==>
      r == if position.Some? then Failure(Raised(NoBuildArea)) else Failure(BuildAreaNotSet)
    ensures r.Success? ==> r.value.radius == radius
    ensures r.Success? && position.Some? ==> r.value.center == position.value
    ensures r.Success? && position.None? ==> FoundSite(ed.buildArea, ed.worldSlice, r.value.center)
  {
    if position.Some? {
      r := VillageAt(ed, position.value, numHouses, radius, hs);
      return;
    }
    var found := Terrain.FindBuildPosition(ed);
    if found.Failure? {
      return Failure(found.error);
    }
    assert Terrain.Answers(ed.worldSlice.heightmaps[Terrain.SurfaceNoLeaves], ed.buildArea.value.ToRect(), found);
    r := VillageAt(ed, found.value.0, numHouses, radius, hs);
  }

  // ---------------------------------------------------------------- the runners as written

  /* The runners above hand each step to a worker thread and get its result back, as anyio's
     `to_thread.run_sync` (the one server.py uses) does. As written, tutorial_tools.py spells
     that function `asyncio.to_thread.run_sync`. The standard library's `asyncio.to_thread` is
     a coroutine function with no `run_sync` attribute, so the lookup raises AttributeError at
     a runner's first offloaded step, before that step runs. The members below are the runners
     as written. Nothing they do before the raise touches the backend. The two demos flip the
     editor's flags first and restore them in their `finally`. */

  /** `run_house_tutorial` as written. Its first offload is `find_build_position` when
      auto-placement is on. Otherwise it is the corner fallback's `getBuildArea`, whose
      `except BuildAreaNotSetError` does not catch the AttributeError. With a position, it is
      `build_house`, after the random draws. */
  method RunHouseTutorialAsWritten(ed: Editor, position: Option<Vec3>, autoPosition: bool, d: HouseDraws)
    returns (r: Result<Builders.HouseInfo, ToolError>)
    requires HouseDrawsValid(d)
    ensures r == Failure(Raised(MissingRunSync))
  {
    r := Failure(Raised(MissingRunSync));
  }

  /** `run_terrain_analysis_tutorial` as written: its first offload is `getBuildArea`, and the
      AttributeError is no BuildAreaNotSetError, so it is not turned into the "Build area not
      set" error. */
  method RunTerrainAnalysisTutorialAsWritten(ed: Editor, position: Option<Vec3>, s: Terrain.Samples)
    returns (r: Result<Terrain.TerrainAnalysis, ToolError>)
    ensures r == Failure(Raised(MissingRunSync))
  {
    r := Failure(Raised(MissingRunSync));
  }

  /** The vector demo proper as written: buffering is switched on, the clearing cuboid's
      offload raises, and the `finally` restores the flag. */
  method VectorDemoAtAsWritten(ed: Editor, start: Vec3) returns (r: Result<VectorDemo, ToolError>)
    modifies ed`buffering
    ensures r == Failure(Raised(MissingRunSync))
    ensures ed.buffering == old(ed.buffering)
    ensures ed.log == old(ed.log) && ed.blocks == old(ed.blocks) && ed.failAfter == old(ed.failAfter)
  {
    var saved := ed.buffering;
    ed.buffering := true;
    r := Failure(Raised(MissingRunSync));
    ed.buffering := saved;
  }

  /** `run_vector_operations_demo` as written: without a position its first offload is
      `getBuildArea`; with one, it is the demo's first drawing. */
  method RunVectorOperationsDemoAsWritten(ed: Editor, position: Option<Vec3>) returns (r: Result<VectorDemo, ToolError>)
    modifies ed`buffering
    ensures r == Failure(Raised(MissingRunSync))
    ensures ed.buffering == old(ed.buffering) && ed.multithreading == old(ed.multithreading)
    ensures ed.log == old(ed.log) && ed.blocks == old(ed.blocks) && ed.failAfter == old(ed.failAfter)
  {
    if position.None? {
      return Failure(Raised(MissingRunSync));
    }
    r := VectorDemoAtAsWritten(ed, position.value);
  }

  /** The transformation demo proper as written: buffering on and multithreading off, the
      clearing cuboid's offload raises, and the `finally` restores both flags. */
  method TransformDemoAtAsWritten(ed: Editor, start: Vec3) returns (r: Result<TransformDemo, ToolError>)
    modifies ed`buffering, ed`multithreading
    ensures r == Failure(Raised(MissingRunSync))
    ensures ed.buffering == old(ed.buffering) && ed.multithreading == old(ed.multithreading)
    ensures ed.log == old(ed.log) && ed.blocks == old(ed.blocks) && ed.failAfter == old(ed.failAfter)
  {
    var savedBuffering := ed.buffering;
    var savedThreads := ed.multithreading;
    ed.buffering := true;
    ed.multithreading := false;
    r := Failure(Raised(MissingRunSync));
    ed.buffering := savedBuffering;
    ed.multithreading := savedThreads;
  }

  /** `run_transformation_tutorial` as written: without a position its first offload is
      `getBuildArea`; with one, it is the demo's first drawing. */
  method RunTransformationTutorialAsWritten(ed: Editor, position: Option<Vec3>) returns (r: Result<TransformDemo, ToolError>)
    modifies ed`buffering, ed`multithreading
    ensures r == Failure(Raised(MissingRunSync))
    ensures ed.buffering == old(ed.buffering) && ed.multithreading == old(ed.multithreading)
    ensures ed.log == old(ed.log) && ed.blocks == old(ed.blocks) && ed.failAfter == old(ed.failAfter)
  {
    if position.None? {
      return Failure(Raised(MissingRunSync));
    }
    r := TransformDemoAtAsWritten(ed, position.value);
  }

  /** `build_example_village` as written: its first offload is `find_build_position` without
      a position, and `generate_village` with one. */
  method BuildExampleVillageAsWritten(ed: Editor, position: Option<Vec3>, numHouses: int, radius: int)
    returns (r: Result<Builders.VillageInfo, ToolError>)
    ensures r == Failure(Raised(MissingRunSync))
  {
    r := Failure(Raised(MissingRunSync));
  }

  /** `generate_terrain_report` as written: its first offload is `getBuildArea`, and the
      AttributeError passes its `except BuildAreaNotSetError`. */
  method GenerateTerrainReportAsWritten(ed: Editor, position: Option<Vec3>, radius: int)
    returns (r: Result<Terrain.TerrainAnalysis, ToolError>)
    ensures r == Failure(Raised(MissingRunSync))
  {
    r := Failure(Raised(MissingRunSync));
  }

  /** Where the house tutorial as written leaves the world as it was, the intended one's plan,
      run in full, places the door, so an empty world does not stay empty. */
  lemma HouseTutorialBuildsWhereWrittenFails(p: Vec3, d: HouseDraws)
    requires HouseDrawsValid(d)
    ensures ApplyAll(map[], TutorialHouse(p, d)) != map[]
  {
    var plan := TutorialHouse(p, d);
    Builders.HouseDoorCentred(p, d.height, d.depth, d.width, TutorialWalls[d.wall], TutorialFloors[d.floor]);
    ApplyAllCovers(map[], plan, 4);
  }

  // ---------------------------------------------------------------- registered tools

  /** `tutorial_build_house`. */
  method TutorialBuildHouse(ctx: Server.Context, position: Option<seq<int>>, autoPosition: bool, d: HouseDraws)
    returns (r: Result<Builders.HouseInfo, ToolError>)
    requires position.Some? && position.value != [] ==> |position.value| == 3
    requires HouseDrawsValid(d)
    modifies ToolEditors(ctx)
    ensures ToolEditor(ctx).Failure? ==> r == Failure(ToolEditor(ctx).error)
    ensures r.Success? ==> r.value == TutorialReport(r.value.position, d)
    ensures r.Success? && PositionArg(position).Some? ==> r.value.position == PositionArg(position).value
    ensures ToolEditor(ctx).Success? && PositionArg(position).Some? ==>
      ToolEditor(ctx).value.Performed(TutorialHouse(PositionArg(position).value, d), r.Success?)
  {
    var e := ToolEditor(ctx);
    if e.Failure? {
      return Failure(e.error);
    }
    r := RunHouseTutorial(e.value, PositionArg(position), autoPosition, d);
  }

  /** `tutorial_analyze_terrain`. */
  method TutorialAnalyzeTerrain(ctx: Server.Context, position: Option<seq<int>>, s: Terrain.Samples)
    returns (r: Result<Terrain.TerrainAnalysis, ToolError>)
    requires position.Some? && position.value != [] ==> |position.value| == 3
    modifies ToolEditors(ctx)
    ensures ToolEditor(ctx).Failure? ==> r == Failure(ToolEditor(ctx).error)
    ensures r.Success? ==> var ed := ToolEditor(ctx).value;
      && ed.buildArea.Some? && var rect := TutorialRect(ed.buildArea.value.ToRect(), PositionArg(position));
         && Terrain.SurfaceOf(ed.worldSlice, rect).Success?
         && r.value == Terrain.Analysis(Terrain.SurfaceOf(ed.worldSlice, rect).value, rect, s)
    ensures ToolEditor(ctx).Success? ==> var ed := ToolEditor(ctx).value;
      (&& Completed(old(ed.failAfter), 3) == 3 && ed.buildArea.Some?
       && Terrain.SurfaceOf(ed.worldSlice, TutorialRect(ed.buildArea.value.ToRect(), PositionArg(position))).Success?)
      ==> r.Success?
  {
    var e := ToolEditor(ctx);
    if e.Failure? {
      return Failure(e.error);
    }
    r := RunTerrainAnalysisTutorial(e.value, PositionArg(position), s);
  }

  /** `tutorial_vector_demo`. */
  method TutorialVectorDemo(ctx: Server.Context, position: Option<seq<int>>) returns (r: Result<VectorDemo, ToolError>)
    requires position.Some? && position.value != [] ==> |position.value| == 3
    modifies ToolEditors(ctx)
    ensures ToolEditor(ctx).Failure? ==> r == Failure(ToolEditor(ctx).error)
    ensures ToolEditor(ctx).Success? ==> var ed := ToolEditor(ctx).value;
      ed.buffering == old(ed.buffering) && ed.multithreading == old(ed.multithreading)
    ensures r.Success? ==> r.value.operations == VectorOperations(r.value.position)
    ensures ToolEditor(ctx).Success? && PositionArg(position).Some? ==> var ed := ToolEditor(ctx).value;
      && r.Success? == (Completed(old(ed.failAfter), 8) == 8)
      && (r.Success? ==> r.value.position == PositionArg(position).value)
  {
    var e := ToolEditor(ctx);
    if e.Failure? {
      return Failure(e.error);
    }
    r := RunVectorOperationsDemo(e.value, PositionArg(position));
  }

  /** `tutorial_transformation_demo`. */
  method TutorialTransformationDemo(ctx: Server.Context, position: Option<seq<int>>) returns (r: Result<TransformDemo, ToolError>)
    requires position.Some? && position.value != [] ==> |position.value| == 3
    modifies ToolEditors(ctx)
    ensures ToolEditor(ctx).Failure? ==> r == Failure(ToolEditor(ctx).error)
    ensures ToolEditor(ctx).Success? ==> var ed := ToolEditor(ctx).value;
      ed.buffering == old(ed.buffering) && ed.multithreading == old(ed.multithreading)
    ensures r.Success? ==> r.value.transformations == Transformations(r.value.position)
    ensures ToolEditor(ctx).Success? && PositionArg(position).Some? ==> var ed := ToolEditor(ctx).value;
      && r.Success? == (Completed(old(ed.failAfter), 9) == 9)
      && (r.Success? ==> r.value.position == PositionArg(position).value)
  {
    var e := ToolEditor(ctx);
    if e.Failure? {
      return Failure(e.error);
    }
    r := RunTransformationTutorial(e.value, PositionArg(position));
  }

  /** `tutorial_build_village`: the tool's `size` is the number of houses; the radius stays 30. */
  method TutorialBuildVillage(ctx: Server.Context, position: Option<seq<int>>, size: int, hs: seq<Builders.HouseDraw>)
    returns (r: Result<Builders.VillageInfo, ToolError>)
    requires position.Some? && position.value != [] ==> |position.value| == 3
    requires |hs| == Max(size, 0) && Builders.DrawsValid(hs)
    modifies ToolEditors(ctx)
    ensures ToolEditor(ctx).Failure? ==> r == Failure(ToolEditor(ctx).error)
    ensures r.Success? ==> r.value.radius == 30
    ensures r.Success? && PositionArg(position).Some? ==> r.value.center == PositionArg(position).value
  {
    var e := ToolEditor(ctx);
    if e.Failure? {
      return Failure(e.error);
    }
    r := BuildExampleVillage(e.value, PositionArg(position), size, 30, hs);
  }

  /** `tutorial_terrain_report`. */
  method TutorialTerrainReport(ctx: Server.Context, position: Option<seq<int>>, radius: int, s: Terrain.Samples)
    returns (r: Result<Terrain.TerrainAnalysis, ToolError>)
    requires position.Some? && position.value != [] ==> |position.value| == 3
    modifies ToolEditors(ctx)
    ensures ToolEditor(ctx).Failure? ==> r == Failure(ToolEditor(ctx).error)
    ensures ToolEditor(ctx).Success? && old(ToolEditor(ctx).value.failAfter) == Some(0) ==> r == Failure(Raised(BackendRaised))
    ensures ToolEditor(ctx).Success? ==> var ed := ToolEditor(ctx).value; var p := PositionArg(position);
      (&& Completed(old(ed.failAfter), ReportCalls(p)) == ReportCalls(p) && ed.buildArea.Some?
       && CentreChoice(p, ed.buildArea.value, ed.worldSlice).Success?
       && var c := CentreChoice(p, ed.buildArea.value, ed.worldSlice).value;
          Terrain.SurfaceOf(ed.worldSlice, ReportRect(ed.buildArea.value, c.x, c.z, radius)).Success?)
      ==> r.Success?
    ensures r.Success? ==> var ed := ToolEditor(ctx).value; var p := PositionArg(position);
      && ed.buildArea.Some? && CentreChoice(p, ed.buildArea.value, ed.worldSlice).Success?
      && var c := CentreChoice(p, ed.buildArea.value, ed.worldSlice).value;
         var rect := ReportRect(ed.buildArea.value, c.x, c.z, radius);
         && Terrain.SurfaceOf(ed.worldSlice, rect).Success?
         && r.value == Terrain.Analysis(Terrain.SurfaceOf(ed.worldSlice, rect).value, rect, s)
  {
    var e := ToolEditor(ctx);
    if e.Failure? {
      return Failure(e.error);
    }
    r := GenerateTerrainReport(e.value, PositionArg(position), radius, s);
  }
}
