# GDMC bridge: a Dafny model

The GDMC bridge is an MCP server that exposes the GDPC Minecraft-editing library as tools and
resources. This project models the bridge's sequential, integer-valued core and proves what its
code promises:

- the request models and their validators and serialisers (`src/gdmc_mcp/models.py`);
- the tool and resource handlers, and the server lifespan (`src/gdmc_mcp/server.py`);
- the tutorial tools (`src/gdmc_mcp/tutorial_tools.py`);
- the procedural builders and the terrain analysis (`src/gdmc_mcp/gdpc_utils.py`).

One module per concern:

| file | module | what it holds |
|---|---|---|
| `types.dfy` | `Types` | vectors, blocks, boxes, rectangles, heightmap grids, Python truncation |
| `errors.dfy` | `Errors` | the error cases the tools report, one constructor per raise site |
| `backend.dfy` | `Backend` | the gdpc `Editor` as a class, after the recording mock of the test suite |
| `models.dfy` | `Models` | the pydantic models: validated constructors, `to_dict`, round trips |
| `server.dfy` | `Server` | `_get_editor`, every tool and resource handler, the lifespan `Session` |
| `terrain.dfy` | `Terrain` | classification, recommendations, `find_build_position`, `analyze_terrain` |
| `builders.dfy` | `Builders` | `build_well`, `build_house`, `decorate_area`, `build_path`, `generate_village` |
| `tutorial_tools.dfy` | `TutorialTools` | the tutorial runners and the registered tutorial tools |

## How the backend is modelled

`Backend.Editor` is a class with these fields:

- a block map, which only `placeBlock` writes;
- recorded biomes and an optional build area;
- the loaded world slice's heightmaps;
- the `buffering` and `multithreading` flags;
- a log of every call made;
- a failure switch `failAfter`.

A log entry records the call, the two flags at the time of the call and whether the call raised.
`failAfter == Some(n)` makes the call after `n` more successful calls raise. This lets a model
fail a tool at any step and check what the tool then reports.

The slice's heightmaps are fixed when the editor is set up and do not depend on the rectangle
loaded. Every `loadWorldSlice` sees the same grids. gdpc's heightmaps are local to each loaded
rectangle, so two loads of different rectangles see different grids. `GenerateTerrainReport`'s
two loads, one for the centre and one for the report rectangle, therefore read the same grid in
the model. An answer that depends on the rectangle is left to the caller's choice of heightmaps.

Geometry library calls are recorded as single commands and never expanded. These are
`placeCuboid`, `placeCuboidHollow`, `placeCuboidWireframe`, `placeLine`, the circle and outline
helpers, and shapes drawn under a `Transform`.

A builder is a pure plan: a sequence of calls. `Editor.Perform` runs a plan in order and stops at
the first call that raises. Lemmas about the plan then speak about the resulting block map through
`Backend.ApplyAll`.

Random choices are parameters bounded by what `random` can return. Examples are the house sizes
and materials, the decoration picks, and the village draws.

Where the code and its documentation or tests disagree, the model follows the code:

- `_get_editor` reports "Invalid editor type" for an object that is not an editor, as the code
  does (`src/gdmc_mcp/server.py:83-85`). A test expects "not found" there.
- The terrain-report rectangle is clamped using the offset from before clamping
  (`src/gdmc_mcp/tutorial_tools.py:755-769`). Its width can therefore go negative when the centre
  lies far outside the build area. `TutorialTools.ReportRectCanHaveNegativeWidth` exhibits one
  such input.
- The tutorial runners hand their steps to `asyncio.to_thread.run_sync`, an attribute that does
  not exist, so as written each one raises AttributeError before its first backend call. The
  runners the rest of the model uses are the intended ones, with anyio's `to_thread.run_sync`.
  See "## Findings".

## Model

| member | source | states |
|---|---|---|
| Types.BlockStr | src/gdmc_mcp/server.py:108 | the fallback reply string of a block is `Block(` + id + `)` |
| Types.PlacedBlockStr | src/gdmc_mcp/server.py:107-108 | gdpc's `str` of the block is kept when it begins with `Block(`, else the fallback is used; the text always begins with `Block(` |
| Types.TruncReal | src/gdmc_mcp/gdpc_utils.py:90 | Python `int()` of a float truncates toward zero, from either side |
| Backend.Apply | tests/conftest.py:73-77 | only a `placeBlock` changes the block map, and it stores the block at its position |
| Backend.ApplyAllAppend | tests/conftest.py:73-77 | running one more call applies it to the map left by the earlier calls |
| Backend.ApplyAllUntouched | tests/conftest.py:73-77 | a position no call places keeps its old block, or stays absent |
| Backend.ApplyAllLastPlacement | tests/conftest.py:73-77 | the last placement at a position decides the block it ends up holding |
| Backend.ApplyAllPlaced | tests/conftest.py:73-77 | a position always placed with the same block ends up holding that block |
| Backend.ApplyAllCovers | tests/conftest.py:73-77 | a position some call places is present in the map afterwards |
| Backend.KeysKept | tests/conftest.py:73-77 | no call removes a block from the map |
| Backend.Tag | tests/conftest.py:73-102 | the log of successful calls holds one entry per call, in order and in one mode |
| Backend.Completed | tests/conftest.py:73-102 | a plan stops short exactly when the failure switch fires within it |
| Backend.PlanLog | tests/conftest.py:73-102 | the log of a plan holds the completed calls plus the one that raised, if any |
| Backend.PlanLogComplete | tests/conftest.py:73-102 | a plan that ran to the end logs exactly its calls, none of them raising |
| Backend.Editor.constructor | tests/conftest.py:52-59 | the editor starts with the given retries, timeout and buffering, an empty block map and the 10x10x10 build area at the origin |
| Backend.Editor.Issue | tests/conftest.py:73-102 | one call is logged; it raises iff the switch stands at zero; only a successful `placeBlock` changes the blocks |
| Backend.Editor.Perform | tests/conftest.py:73-102 | the plan's calls are made in order up to the first that raises |
| Backend.Editor.PlaceBlock | tests/conftest.py:73-77 | `placeBlock` stores the block at the position and answers true |
| Backend.Editor.GetBlockGlobal | tests/conftest.py:79-82 | the stored block is answered, or `minecraft:air` where nothing was placed |
| Backend.Editor.GetBiomeGlobal | tests/conftest.py:84-86 | the recorded biome is answered, or plains elsewhere |
| Backend.Editor.GetBuildAreaBox | tests/conftest.py:88-90 | the build area is answered; `BuildAreaNotSetError` is raised iff none is set |
| Backend.Editor.RunCommandGlobal | tests/conftest.py:92-94 | a command is answered with the backend's reply tuples |
| Backend.Editor.LoadWorldSlice | tests/conftest.py:100-102 | loading a slice answers the backend's heightmaps |
| Backend.Editor.CheckConnectionWith | tests/conftest.py:69-71 | the connection check is logged, raising iff it did not connect |
| Models.BlockToDict | src/gdmc_mcp/models.py:18-20 | `id` is always kept; `states` and `data` appear iff they are set, with their values |
| Models.BlockDictRoundTrip | src/gdmc_mcp/models.py:12-20 | rebuilding a block model from its dict gives the same model back |
| Models.ToBlock | src/gdmc_mcp/models.py:22-25 | `to_block` passes id, states and data through; absent states become the empty map |
| Models.Vec3iAcceptedIff | src/gdmc_mcp/models.py:29-35 | a position is accepted iff it has exactly three coordinates; otherwise `coords` is the rejected field |
| Models.Vec3iConversionsPreserve | src/gdmc_mcp/models.py:37-43 | `to_ivec3` and `to_tuple` return the three coordinates unchanged and in order |
| Models.Vec3RoundTrip | src/gdmc_mcp/models.py:27-39 | any vector survives the trip to a coordinate list and back |
| Models.EntityToDict | src/gdmc_mcp/models.py:51-56 | `id` and `pos` are always present; `nbt` appears iff it is a non-empty string |
| Models.EntityDictRoundTrip | src/gdmc_mcp/models.py:45-56 | the entity rebuilds exactly from its dict iff `nbt` is not the empty string |
| Models.StructureAcceptedIff | src/gdmc_mcp/models.py:58-65 | a structure is accepted iff `integrity` is absent or in [0, 1]; `rotation` is not range-checked |
| Models.StructureToDict | src/gdmc_mcp/models.py:67-78 | `name` and `position` are always present; each optional field appears iff it is not None, so `mirror=False` is kept |
| Models.StructureDictRoundTrip | src/gdmc_mcp/models.py:58-78 | rebuilding a structure model from its dict gives the same model back |
| Models.HeightmapAcceptedIff | src/gdmc_mcp/models.py:91-96 | a heightmap type is accepted iff it is one of the four Minecraft names |
| Models.HeightmapToDict | src/gdmc_mcp/models.py:98-105 | `type` is always present; `position` and `chunk` appear iff they are set |
| Models.TerrainRequestAcceptedIff | src/gdmc_mcp/models.py:109-127 | a request is accepted iff the area is None or two corners and every type is one of the seven; the default types are heightmap, biomes, water, trees |
| Server.GetEditor | src/gdmc_mcp/server.py:76-88 | no request context gives "not available"; a missing or None editor gives "not found"; another object gives "Invalid editor type"; an Editor or MockEditor is returned |
| Server.PlaceBlock | src/gdmc_mcp/server.py:93-112 | one `placeBlock` at the given position; the reply holds its success, the position list and the block text of `PlacedBlockStr`; a failure is wrapped |
| Server.CuboidCall | src/gdmc_mcp/server.py:150-153 | the cuboid is hollow iff `hollow`, with the corners as given |
| Server.PlaceCuboid | src/gdmc_mcp/server.py:132-157 | exactly one geometry call is made, and the reply echoes both corners unreordered and gdpc's `str` of the block |
| Server.ProcessResults | src/gdmc_mcp/server.py:126 | one `{success, message}` per backend tuple, in the same order |
| Server.RunCommand | src/gdmc_mcp/server.py:114-130 | the reply echoes the command with the processed backend results; a failure is wrapped |
| Server.ToPayload | src/gdmc_mcp/server.py:176-187 | an entity's payload has its id and coordinates, and `nbt` iff it is non-empty |
| Server.PayloadAgreesWithToDict | src/gdmc_mcp/server.py:176-187 | the payload and the entity's `to_dict` agree on `nbt` and on the coordinates |
| Server.BuildEntityPayload | src/gdmc_mcp/server.py:174-189 | the append loop builds one payload per entity, in input order |
| Server.PlaceEntities | src/gdmc_mcp/server.py:159-211 | a count outside 1..50 is rejected before the editor is used; otherwise one backend call with every payload in order; the reply reports the count |
| Server.StructureCall | src/gdmc_mcp/server.py:226-236 | the structure call carries name, position, rotation and mirror |
| Server.StructureCallIgnoresIntegrityAndSeed | src/gdmc_mcp/server.py:226-236 | `integrity` and `seed` are never sent |
| Server.PlaceStructure | src/gdmc_mcp/server.py:213-248 | one structure call; the reply echoes name, position, rotation and mirror; a failure is wrapped |
| Server.BuildAreaReplyOf | src/gdmc_mcp/server.py:262-266 | the reply lists offset and size, and end = offset + size componentwise |
| Server.GetBuildArea | src/gdmc_mcp/server.py:253-272 | the build area is returned; "not set" is reported apart from a wrapped backend failure |
| Server.GetHeightmapTypes | src/gdmc_mcp/server.py:331-346 | four distinct names, exactly those the heightmap model accepts |
| Server.GetBlock | src/gdmc_mcp/server.py:351-371 | the stored block is returned; `minecraft:void_air` or a raise is a wrapped error |
| Server.GetBiome | src/gdmc_mcp/server.py:373-392 | the biome id and position are returned; an empty id or a raise is a wrapped error |
| Server.HeightFromSlice | src/gdmc_mcp/server.py:416-436 | height = raw height minus one at position [x, z]; a missing type key or an empty map is an error |
| Server.GetHeight | src/gdmc_mcp/server.py:394-439 | an unknown type is rejected before any slice is loaded; otherwise one 1x1 slice is loaded and read |
| Server.Session.constructor | src/gdmc_mcp/server.py:31-34 | the lifespan starts with no editor |
| Server.Session.Start | src/gdmc_mcp/server.py:32-61 | the editor is created with retries 2, timeout 10 and no buffering, then the connection is checked; a connection error, from the construction or the check, is "Failed to connect" and any other error is "Failed to initialize"; a failed check still flushes |
| Server.Session.Stop | src/gdmc_mcp/server.py:44-61 | shutdown flushes once; a flush failure is swallowed; an `InterfaceConnectionError` raised while serving leaves as "Failed to connect", any other error as "Failed to initialize", and no error gives none |
| Terrain.TerrainType | src/gdmc_mcp/gdpc_utils.py:161-170 | the terrain type steps at 3, 7 and 15, with strict bounds |
| Terrain.TerrainTypeMonotone | src/gdmc_mcp/gdpc_utils.py:161-170 | a rougher terrain never classifies as flatter |
| Terrain.WaterDescription | src/gdmc_mcp/gdpc_utils.py:172-180 | the water description steps at 0.05, 0.2 and 0.5, with strict bounds |
| Terrain.WaterDescriptionMonotone | src/gdmc_mcp/gdpc_utils.py:172-180 | more water never gives a drier description |
| Terrain.TreeDescription | src/gdmc_mcp/gdpc_utils.py:182-190 | the vegetation description steps at 0.02, 0.1 and 0.2, with strict bounds |
| Terrain.TreeDescriptionMonotone | src/gdmc_mcp/gdpc_utils.py:182-190 | denser trees never give a barer description |
| Terrain.FeatureAdviceOrdered | src/gdmc_mcp/gdpc_utils.py:284-302 | the water, vegetation and elevation advice come in code order, after the biome advice |
| Terrain.RecommendationsOrdered | src/gdmc_mcp/gdpc_utils.py:232-304 | the recommendations follow the order of the rules, each case at most once, and at most one biome case |
| Terrain.TerrainAdviceRules | src/gdmc_mcp/gdpc_utils.py:244-259 | settlement iff very flat or flat; multi-level and towers iff hilly or mountainous |
| Terrain.BiomeAdviceRules | src/gdmc_mcp/gdpc_utils.py:262-281 | the biome advice follows substring precedence: desert, then forest or taiga, then mountain, then plains |
| Terrain.FeatureAdviceRules | src/gdmc_mcp/gdpc_utils.py:284-302 | water iff moderate or extensive; vegetation iff forested or heavily forested; elevation iff max − min > 20 |
| Terrain.RecommendationsTerrainRules | src/gdmc_mcp/gdpc_utils.py:244-259 | in the whole list: settlement iff flat terrain; multi-level and towers iff varied terrain |
| Terrain.RecommendationsBiomeRules | src/gdmc_mcp/gdpc_utils.py:262-281 | in the whole list, the first matching biome substring picks the palette or style |
| Terrain.RecommendationsFeatureRules | src/gdmc_mcp/gdpc_utils.py:284-302 | in the whole list, water, vegetation and elevation each appear iff their rule holds |
| Terrain.GridMin | src/gdmc_mcp/gdpc_utils.py:114 | the minimum height is a lower bound of the heightmap and is attained |
| Terrain.GridMax | src/gdmc_mcp/gdpc_utils.py:115 | the maximum height is an upper bound of the heightmap and is attained |
| Terrain.HeightCenterBetween | src/gdmc_mcp/gdpc_utils.py:193 | the marker level lies between the lowest and the highest ground |
| Terrain.ScannedFits | src/gdmc_mcp/gdpc_utils.py:57-67 | every scanned centre leaves room for its 7x7 window |
| Terrain.ScanFlattest | src/gdmc_mcp/gdpc_utils.py:59-78 | the scan keeps the first eligible window of least variance, and finds none iff no window has a mean in [60, 120] |
| Terrain.Placement | src/gdmc_mcp/gdpc_utils.py:80-92 | the chosen window's centre plus the rect offset, at the truncated mean; without a window, the heightmap centre at its own height, with Rect.y as z |
| Terrain.PlacementHeight | src/gdmc_mcp/gdpc_utils.py:71-90 | for an eligible window the truncated mean is the floor of sum / 49, within [60, 120] |
| Terrain.FindBuildPosition | src/gdmc_mcp/gdpc_utils.py:21-92 | an unset build area is a ValueError; once both calls go through, it succeeds iff the surface heightmap is there and has an eligible window or an inner centre, a missing heightmap is a KeyError, and otherwise an IndexError; an answer is the placement of the flattest eligible window |
| Terrain.Analysis | src/gdmc_mcp/gdpc_utils.py:113-230 | the report's dimensions, its height bounds over the heightmap, the three classifications and the recommendations |
| Terrain.SurfaceOf | src/gdmc_mcp/gdpc_utils.py:106-183 | the heightmap is used iff both keys exist, it is non-empty, every sample lies in it and the area is not zero; otherwise the matching error, in code order |
| Terrain.AnalyzeTerrain | src/gdmc_mcp/gdpc_utils.py:94-230 | the slice is loaded and checked by `SurfaceOf`; it succeeds iff both calls go through and the check passes, with the analysis of that heightmap and the red marker drawn at the middle height |
| Builders.RangeMembers | src/gdmc_mcp/gdpc_utils.py:689-690 | `range(lo, hi)` holds exactly lo..hi−1 |
| Builders.RangeStepMembers | src/gdmc_mcp/gdpc_utils.py:384 | a stepped range holds every step-th value from lo below hi |
| Builders.RangeStepLength | src/gdmc_mcp/gdpc_utils.py:779 | the length of a stepped range |
| Builders.SlabRingInteger | src/gdmc_mcp/gdpc_utils.py:729-730 | 2.5 ≤ dist ≤ 3.5 holds exactly for the integer offsets with 7 ≤ dx² + dz² ≤ 12 |
| Builders.OffsetsMembers | src/gdmc_mcp/gdpc_utils.py:689-731 | the nested offset loops visit exactly the filtered pairs of their ranges |
| Builders.LevelMembers | src/gdmc_mcp/gdpc_utils.py:695 | one level places the block at every offset, at the given height |
| Builders.BaseLoop | src/gdmc_mcp/gdpc_utils.py:689-695 | the base loop visits the 5x5 square without its corners, in loop order |
| Builders.FenceLoop | src/gdmc_mcp/gdpc_utils.py:703-709 | the fence loop visits the four edge midpoints |
| Builders.RoofLoop | src/gdmc_mcp/gdpc_utils.py:712-715 | the roof loop visits the 3x3 square |
| Builders.RingLoop | src/gdmc_mcp/gdpc_utils.py:726-731 | the slab loop visits exactly the ring offsets, in loop order |
| Builders.WellCounts | src/gdmc_mcp/gdpc_utils.py:689-731 | the base has 21 blocks, the roof 9, the fences 4 and the slab ring 16 |
| Builders.FenceRange | src/gdmc_mcp/gdpc_utils.py:703-704 | the fence loop runs over -2, 0, 2 |
| Builders.PostsMembers | src/gdmc_mcp/gdpc_utils.py:698-700 | cobblestone walls stand at y + 1 and y + 2 at each doubled corner offset |
| Builders.WaterColumnsMembers | src/gdmc_mcp/gdpc_utils.py:718-723 | water is one deep under the 3x3 and three deep at the centre |
| Builders.RingBounds | src/gdmc_mcp/gdpc_utils.py:726-731 | the slab ring lies within the 7x7 square and is disjoint from the base |
| Builders.WellPlanMembers | src/gdmc_mcp/gdpc_utils.py:676-731 | every call of the well is a `placeBlock` of what the well's layout says for its place, and every place of the layout gets one |
| Builders.WellBuildsLayout | src/gdmc_mcp/gdpc_utils.py:676-731 | after the well, each layout position holds its part's block and every other position is unchanged |
| Builders.BuildWell | src/gdmc_mcp/gdpc_utils.py:676-731 | `build_well` makes the well's calls in order up to the first that raises |
| Builders.OddWidth | src/gdmc_mcp/gdpc_utils.py:337-338 | the built width is odd and is the given width or one more |
| Builders.FloorPalette | src/gdmc_mcp/gdpc_utils.py:341-347 | five floor blocks; the fourth is cracked bricks for stone bricks and the fifth cobblestone for stone |
| Builders.HouseDoorCentred | src/gdmc_mcp/gdpc_utils.py:370-372 | the door is at (x + width//2, y + 1, z), as far from both side walls, and the report gives the adjusted width |
| Builders.HouseSideWindows | src/gdmc_mcp/gdpc_utils.py:384-386 | the north-south panes are exactly those at y + 2 on both side walls, at z + 2, z + 4, … below z + depth − 2 |
| Builders.HouseRoof | src/gdmc_mcp/gdpc_utils.py:393-421 | a stair course k columns from the ridge exists iff 1 ≤ k ≤ width//2; the ridge is laid |
| Builders.BuildHouse | src/gdmc_mcp/gdpc_utils.py:308-456 | `build_house` runs the house's calls and reports position, adjusted dimensions and materials |
| Builders.SideSpotsDistinct | src/gdmc_mcp/gdpc_utils.py:779-781 | the side decoration spots are pairwise different |
| Builders.CandidatesDistinct | src/gdmc_mcp/gdpc_utils.py:771-786 | the candidate spots are front, sides and back, pairwise different, all at base level |
| Builders.PickCallsMembers | src/gdmc_mcp/gdpc_utils.py:791-806 | decorations place only at base level or one above, and the base-level ones are the bases |
| Builders.DecorationsPlaced | src/gdmc_mcp/gdpc_utils.py:768-806 | min(num_decorations, number of candidates) distinct spots get a decoration, each base the drawn block |
| Builders.SprinklesAvoidHouse | src/gdmc_mcp/gdpc_utils.py:809-821 | a flower or grass is placed at y + 1 iff its offset lies outside [−1, width] × [−1, depth] |
| Builders.PathInBounds | src/gdmc_mcp/gdpc_utils.py:853-869 | a path places only at points inside the heightmap, at height value − 1 or a lantern above, and paves every such point |
| Builders.DecorateArea | src/gdmc_mcp/gdpc_utils.py:733-821 | `decorate_area` makes the decoration calls in order up to the first that raises |
| Builders.BuildPath | src/gdmc_mcp/gdpc_utils.py:823-869 | `build_path` makes the path calls in order up to the first that raises |
| Builders.CandidatesLength | src/gdmc_mcp/gdpc_utils.py:771-786 | there are two candidate spots per side row plus the front and the back |
| Builders.Kept | src/gdmc_mcp/gdpc_utils.py:628-637 | a house is kept only at a site inside the heightmap, on its surface |
| Builders.KeptComplete | src/gdmc_mcp/gdpc_utils.py:628-637 | every drawn house whose site lies inside the heightmap is kept |
| Builders.VillageStructures | src/gdmc_mcp/gdpc_utils.py:597-674 | the report has the centre and radius, the well first, then the kept houses at their sites |
| Builders.GenerateVillage | src/gdmc_mcp/gdpc_utils.py:568-674 | the build area and its heightmap are read, then the well, houses, decorations and paths are placed; the report follows; a raise at either read, a missing heightmap (KeyError) or an unset area is the matching error; once both reads go through, the village plan's log and blocks up to the first raise, and success iff it completes |
| Builders.LoadVillageGround | src/gdmc_mcp/gdpc_utils.py:591-594 | the build area is read, then its surface heightmap; an unset area is not caught; once both calls go through, it succeeds iff the heightmap is there, and a missing one is a KeyError |
| Builders.BuildVillageOn | src/gdmc_mcp/gdpc_utils.py:600-674 | the village calls run to the end, or stop where a call raised |
| TutorialTools.ToolEditor | src/gdmc_mcp/tutorial_tools.py:36-38 | no request context is a ValueError before any editor use; the lifespan editor is used |
| TutorialTools.ToolEditorAgreesWithServer | src/gdmc_mcp/tutorial_tools.py:36-38 | the tutorial tools find the same editor as `_get_editor` |
| TutorialTools.PositionArg | src/gdmc_mcp/tutorial_tools.py:39 | an absent or empty list gives None; otherwise the three coordinates in order |
| TutorialTools.BuildAreaIfSet | src/gdmc_mcp/tutorial_tools.py:141-147 | the build area is read; "not set" is caught and gives None |
| TutorialTools.CornerSite | src/gdmc_mcp/tutorial_tools.py:144-147 | the house corner is the build-area offset with y + 3, else (0, 80, 0) |
| TutorialTools.AreaCentre | src/gdmc_mcp/tutorial_tools.py:257-261 | offset + size//2 lies in the middle of the area on x and z |
| TutorialTools.VectorDemoStart | src/gdmc_mcp/tutorial_tools.py:253-264 | the vector demo starts at the build-area centre with y = offset.y + 5, else (0, 80, 0) |
| TutorialTools.TransformDemoStart | src/gdmc_mcp/tutorial_tools.py:438-449 | the transformation demo starts at the offset + (10, 5, 10), else (0, 80, 0) |
| TutorialTools.HouseSite | src/gdmc_mcp/tutorial_tools.py:133-147 | with auto position the flattest spot, found iff `find_build_position` has an answer, after its two calls; otherwise the build-area corner, or (0, 80, 0) when not set, after one call |
| TutorialTools.TutorialReport | src/gdmc_mcp/tutorial_tools.py:150-166 | the drawn sizes, an odd width of 5..9, and materials from the two lists |
| TutorialTools.BuildTutorialHouse | src/gdmc_mcp/tutorial_tools.py:171-187 | the house is built at the site with the drawn sizes and materials |
| TutorialTools.RunHouseTutorial | src/gdmc_mcp/tutorial_tools.py:117-187 | an explicit position is used as is; on the corner path the house plan is run at the corner after `getBuildArea`, with its log and blocks, and succeeds iff the plan completes; on the auto path it succeeds with no failure pending whenever a site is found, and the house is then built there in full; the house report follows |
| TutorialTools.TutorialRect | src/gdmc_mcp/tutorial_tools.py:211-221 | side = min(50, size.x, size.y), centred on the position; without a position the whole build rect |
| TutorialTools.RunTerrainAnalysisTutorial | src/gdmc_mcp/tutorial_tools.py:189-237 | an unset build area is a ValueError; otherwise the analysis of the chosen rectangle, which succeeds whenever its three calls go through and `SurfaceOf` accepts, and fails with the check's error otherwise |
| TutorialTools.VectorOperationsDescribePlan | src/gdmc_mcp/tutorial_tools.py:311-413 | five operations in the order line3D, circle, Rect, Box, rotate2D, each describing the drawing it follows |
| TutorialTools.VectorDemoAt | src/gdmc_mcp/tutorial_tools.py:277-422 | the demo draws with buffering on, and `buffering` afterwards equals its value before, whether or not a step raised |
| TutorialTools.RunVectorOperationsDemo | src/gdmc_mcp/tutorial_tools.py:239-422 | the demo starts at the given or default position and restores both flags on every exit; with a position, its log and blocks are the plan's, and it succeeds iff the plan completes |
| TutorialTools.TransformationsDescribePlan | src/gdmc_mcp/tutorial_tools.py:527-595 | six entries at start + (0,0,0), (15,0,0), (0,0,15), (15,0,15), (30,0,0), (30,0,15), each the transform of its drawing |
| TutorialTools.TransformDemoAt | src/gdmc_mcp/tutorial_tools.py:462-605 | the body runs with buffering on and multithreading off; both flags are restored on every exit |
| TutorialTools.RunTransformationTutorial | src/gdmc_mcp/tutorial_tools.py:424-605 | the demo starts at the given or default position and restores both flags on every exit; with a position, its log and blocks are the plan's, and it succeeds iff the plan completes |
| TutorialTools.PlanLogInMode | src/gdmc_mcp/tutorial_tools.py:462-465 | every call of a demo body is made in the mode the demo set |
| TutorialTools.ClampIndex | src/gdmc_mcp/tutorial_tools.py:733-734 | a local index is clamped into [0, shape − 1] |
| TutorialTools.ReportCentre | src/gdmc_mcp/tutorial_tools.py:722-737 | the default centre is the build-area centre, at the clamped heightmap value − 1 |
| TutorialTools.ReportSquare | src/gdmc_mcp/tutorial_tools.py:741-746 | side = min(2·radius, size.x, size.z), centred on the position |
| TutorialTools.ReportRect | src/gdmc_mcp/tutorial_tools.py:749-770 | a square that fits the build area is kept |
| TutorialTools.ReportRectWithinArea | src/gdmc_mcp/tutorial_tools.py:749-770 | after adjustment the offset is at least the build-area offset and offset + size at most its end, on both axes |
| TutorialTools.ReportRectCanHaveNegativeWidth | src/gdmc_mcp/tutorial_tools.py:755-769 | with a centre far outside the area the adjusted width is negative |
| TutorialTools.CentreChoice | src/gdmc_mcp/tutorial_tools.py:722-740 | the given position, or the default centre from the surface heightmap |
| TutorialTools.ReportCentreIn | src/gdmc_mcp/tutorial_tools.py:722-740 | the slice is loaded only when no position is given |
| TutorialTools.GenerateTerrainReport | src/gdmc_mcp/tutorial_tools.py:699-777 | an unset build area is a ValueError; otherwise the analysis of the report rectangle around the centre, which succeeds whenever its calls go through and the centre and `SurfaceOf` checks pass, and otherwise fails with the check's error |
| TutorialTools.VillageAt | src/gdmc_mcp/tutorial_tools.py:635-644 | the village is generated at the centre with the given radius |
| TutorialTools.BuildExampleVillage | src/gdmc_mcp/tutorial_tools.py:607-644 | the given centre or the flattest spot; an unset build area is a ValueError only when searching |
| TutorialTools.TutorialBuildHouse | src/gdmc_mcp/tutorial_tools.py:29-40 | the context check, then the house tutorial; at a given position the house plan runs there and the call succeeds iff it completes |
| TutorialTools.TutorialAnalyzeTerrain | src/gdmc_mcp/tutorial_tools.py:42-52 | the context check, then the terrain tutorial on the chosen rectangle, which succeeds whenever its calls go through and `SurfaceOf` accepts |
| TutorialTools.TutorialVectorDemo | src/gdmc_mcp/tutorial_tools.py:54-64 | the context check, then the vector demo; the flags are restored; at a given position it succeeds iff its eight calls go through |
| TutorialTools.TutorialTransformationDemo | src/gdmc_mcp/tutorial_tools.py:66-76 | the context check, then the transformation demo; the flags are restored; at a given position it succeeds iff its nine calls go through |
| TutorialTools.TutorialBuildVillage | src/gdmc_mcp/tutorial_tools.py:78-89 | the context check, then a village of `size` houses with radius 30 |
| TutorialTools.TutorialTerrainReport | src/gdmc_mcp/tutorial_tools.py:104-115 | the context check, then the terrain report, which succeeds whenever its calls go through and its checks pass, with the analysis of the report rectangle |
| TutorialTools.RunHouseTutorialAsWritten | src/gdmc_mcp/tutorial_tools.py:117-187 | as written, every path raises AttributeError at its first offload (lines 135, 143 or 171), before any backend call |
| TutorialTools.RunTerrainAnalysisTutorialAsWritten | src/gdmc_mcp/tutorial_tools.py:189-207 | as written, the `getBuildArea` offload raises AttributeError, which the `except` does not turn into "Build area not set" |
| TutorialTools.VectorDemoAtAsWritten | src/gdmc_mcp/tutorial_tools.py:276-422 | as written, buffering is set, the first offload raises, and the flag is restored; log and blocks are unchanged |
| TutorialTools.RunVectorOperationsDemoAsWritten | src/gdmc_mcp/tutorial_tools.py:239-422 | as written, the first offload raises (line 256 or 282); both flags, log and blocks are as before |
| TutorialTools.TransformDemoAtAsWritten | src/gdmc_mcp/tutorial_tools.py:461-605 | as written, buffering and multithreading are set, the first offload raises, and both flags are restored; log and blocks are unchanged |
| TutorialTools.RunTransformationTutorialAsWritten | src/gdmc_mcp/tutorial_tools.py:424-605 | as written, the first offload raises (line 441 or 469); both flags, log and blocks are as before |
| TutorialTools.BuildExampleVillageAsWritten | src/gdmc_mcp/tutorial_tools.py:607-644 | as written, the first offload raises AttributeError (line 627 or 635), before any backend call |
| TutorialTools.GenerateTerrainReportAsWritten | src/gdmc_mcp/tutorial_tools.py:699-719 | as written, the `getBuildArea` offload raises AttributeError, which the `except` lets through |
| TutorialTools.HouseTutorialBuildsWhereWrittenFails | src/gdmc_mcp/tutorial_tools.py:171-187 | the intended house plan, run in full, leaves an empty world non-empty, which the runner as written never does |

## Left out

- The FastMCP registration, decorators, resource URIs and `ctx.info`/`error`/`warning` logging.
- server.py's offloading through anyio's `to_thread.run_sync`: those handlers run the offloaded
  call in line. The tutorial runners' `asyncio.to_thread.run_sync` is not left out; it is the
  subject of "## Findings".
- The `get_players`, `get_entities` and `get_minecraft_version` resources. They pass a backend
  answer through unchanged.
- The network behind `placeEntities`, `placeStructure` and `checkConnection`. Each is one logged
  backend call that succeeds or raises. The connection outcome and startup errors are parameters
  of `Server.Session.Start`. The backend's answer to `placeEntities` and `placeStructure` is
  therefore not modelled. The replies of `Server.PlaceEntities` and `Server.PlaceStructure` leave
  out the source's `"result"` field (`src/gdmc_mcp/server.py:207`, `:244`).
- Error messages. Each error keeps its case and drops its wording.
- The `"tutorial"` and `"message"` keys that the tutorial runners add to their results.
- `build_tower`, `tutorial_build_tower` and `build_example_tower`. They depend on `sqrt`, `cos`
  and `sin` and on a fractional roof radius.
- The polar placement of village houses. The drawn offset from the centre is a parameter.
- Float statistics are inputs of the model, not computed by it:
  - the standard deviation, water coverage, tree density and primary biome of `analyze_terrain`;
  - the world-slice block and biome sampling that produces them.

  `find_build_position` compares variances exactly as 49·Σh² − (Σh)² and means as Σh / 49, with
  no rounding.
- The entity coordinates are kept as integers; the source converts them to float.
- The geometry library is recorded, not expanded:
  - `placeCuboid*`, `placeLine`, `line2D`, `vector_tools.circle`, `Rect.outline`;
  - the L-shape under `pushTransform`;
  - the rotation columns of the vector demo.

  Each is one command in the log. A failure part-way through one of them is therefore not
  modelled, and `build_path` takes its points as given.
- `TutorialTools.PositionArg`: a non-empty position list must have three elements, and the
  other lengths are not modelled. In the source, lengths 2 and 4 or more raise in every runner.
  The terrain tutorial and the report raise at `x, y, z = position`
  (`src/gdmc_mcp/tutorial_tools.py:213`, `:740`). The house, vector, transformation and village
  runners raise at `ivec3(*position)` (`src/gdmc_mcp/tutorial_tools.py:266`, `:451`;
  `src/gdmc_mcp/gdpc_utils.py:333`, `:587`). A one-element list `[v]` raises in the terrain
  tutorial and the report. The four `ivec3` runners accept it, because `ivec3(v)` broadcasts it to
  (v, v, v).
- `TutorialTools.ToolEditor`: a missing or non-editor lifespan value is reported when the tool
  starts. The source fails only at the first use of the editor.
- `TutorialTools.GenerateTerrainReport`: does not state its log of backend calls. The analysis it
  returns, its error cases and when it succeeds are stated.
- `TutorialTools.BuildAreaIfSet`, `TutorialTools.HouseSite`, `TutorialTools.BuildTutorialHouse`,
  `TutorialTools.VectorDemoAt`, `TutorialTools.TransformDemoAt` and `TutorialTools.VillageAt`:
  these are parts of the intended runners, whose offloaded steps run. As written, each step raises
  AttributeError before it runs. The `...AsWritten` runners of "## Findings" model that.
- `TutorialTools.VillageAt`, `TutorialTools.BuildExampleVillage` and
  `TutorialTools.TutorialBuildVillage`: state only the reported centre and radius and the errors.
  `Builders.GenerateVillage` states the rest of the report and the blocks placed.
- `TutorialTools.TutorialBuildHouse`, `TutorialTools.TutorialAnalyzeTerrain`,
  `TutorialTools.TutorialVectorDemo`, `TutorialTools.TutorialTransformationDemo` and
  `TutorialTools.TutorialTerrainReport`: state the context check, the result's shape and when the
  call succeeds, but not the log. They call the intended runners, not the runners as written.
- `Server.Session.Start`: a cancellation of the server task is not modelled. Only exceptions are.

## Findings

Every tutorial runner hands its steps to `asyncio.to_thread.run_sync`. The standard library's
`asyncio.to_thread` is a coroutine function with no `run_sync` attribute. The name is anyio's,
and server.py calls `anyio.to_thread.run_sync`. Looking the attribute up raises AttributeError
at the runner's first offloaded step, before that step runs. Only
`src/test_tutorial_tools_direct.py:89` patches the name `asyncio.to_thread.run_sync`; without
`create=True` that patch raises the same AttributeError. `tests/test_tutorial_tools_direct.py:84`
and `:140` patch `anyio.to_thread.run_sync` instead. That attribute exists, so the patch succeeds,
but it never reaches the runners' `asyncio.to_thread.run_sync` lookup.

| source | as written | input that shows it | evidently intended | confidence | as-written member | corrected member |
|---|---|---|---|---|---|---|
| src/gdmc_mcp/tutorial_tools.py:135-187 | `asyncio.to_thread.run_sync` at lines 135, 143 and 171 | `run_house_tutorial(editor, (0, 64, 0))` raises AttributeError and places nothing | `anyio.to_thread.run_sync`, as in server.py | high, not executed | TutorialTools.RunHouseTutorialAsWritten | TutorialTools.RunHouseTutorial |
| src/gdmc_mcp/tutorial_tools.py:204-229 | `asyncio.to_thread.run_sync` at lines 205 and 226 | `run_terrain_analysis_tutorial(editor)` raises AttributeError, not the "Build area not set" ValueError | `anyio.to_thread.run_sync` | high, not executed | TutorialTools.RunTerrainAnalysisTutorialAsWritten | TutorialTools.RunTerrainAnalysisTutorial |
| src/gdmc_mcp/tutorial_tools.py:276-420 | `asyncio.to_thread.run_sync` at line 282 and after | `run_vector_operations_demo(editor, (0, 64, 0))` sets and restores buffering, draws nothing, and raises AttributeError | `anyio.to_thread.run_sync` | high, not executed | TutorialTools.VectorDemoAtAsWritten | TutorialTools.VectorDemoAt |
| src/gdmc_mcp/tutorial_tools.py:253-422 | `asyncio.to_thread.run_sync` at lines 256 and 282 | `run_vector_operations_demo(editor)` raises AttributeError before `getBuildArea` | `anyio.to_thread.run_sync` | high, not executed | TutorialTools.RunVectorOperationsDemoAsWritten | TutorialTools.RunVectorOperationsDemo |
| src/gdmc_mcp/tutorial_tools.py:461-603 | `asyncio.to_thread.run_sync` at line 469 and after | `run_transformation_tutorial(editor, (0, 64, 0))` sets and restores both flags, draws nothing, and raises AttributeError | `anyio.to_thread.run_sync` | high, not executed | TutorialTools.TransformDemoAtAsWritten | TutorialTools.TransformDemoAt |
| src/gdmc_mcp/tutorial_tools.py:438-605 | `asyncio.to_thread.run_sync` at lines 441 and 469 | `run_transformation_tutorial(editor)` raises AttributeError before `getBuildArea` | `anyio.to_thread.run_sync` | high, not executed | TutorialTools.RunTransformationTutorialAsWritten | TutorialTools.RunTransformationTutorial |
| src/gdmc_mcp/tutorial_tools.py:625-644 | `asyncio.to_thread.run_sync` at lines 627 and 635 | `build_example_village(editor, (0, 64, 0))` raises AttributeError and builds nothing | `anyio.to_thread.run_sync` | high, not executed | TutorialTools.BuildExampleVillageAsWritten | TutorialTools.BuildExampleVillage |
| src/gdmc_mcp/tutorial_tools.py:715-777 | `asyncio.to_thread.run_sync` at lines 717 and 775 | `generate_terrain_report(editor)` raises AttributeError, not the "Build area not set" ValueError | `anyio.to_thread.run_sync` | high, not executed | TutorialTools.GenerateTerrainReportAsWritten | TutorialTools.GenerateTerrainReport |

`TutorialTools.HouseTutorialBuildsWhereWrittenFails` shows the two halves apart for the house
tutorial. With no failure pending, the intended runner completes the house plan and places blocks
in an empty world. The runner as written leaves the world empty.
