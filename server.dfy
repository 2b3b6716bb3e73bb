/** The bridge's tools and resources (src/gdmc_mcp/server.py), run synchronously against the
    editor model, and the lifespan that creates, checks and finally flushes the editor. */
module Server {
  import opened Types
  import opened Models
  import opened Backend
  import opened Errors

  // ---------------------------------------------------------------- request context

  /** The value stored under a key of the lifespan context. */
  datatype Handle =
    | GdpcEditor(ed: Editor)          // an instance of gdpc's `Editor`
    | MockEditor(ed: Editor)          // an object whose class name contains `MockEditor`
    | OtherObject(typeName: string)   // anything else
    | NoneValue

  /** The `ctx` handed to a tool: absent, without a `request_context`, or carrying the
      lifespan context. */
  datatype Context = NoContext | NoRequestContext | RequestContext(lifespan: map<string, Handle>)

  /** `_get_editor`. */
  function GetEditor(ctx: Context): (r: Result<Editor, ToolError>)
    ensures r.Success? <==> ctx.RequestContext? && "editor" in ctx.lifespan
                            && (ctx.lifespan["editor"].GdpcEditor? || ctx.lifespan["editor"].MockEditor?)
    ensures r.Success? ==> r.value == ctx.lifespan["editor"].ed
    ensures r == Failure(ContextNotAvailable) <==> !ctx.RequestContext?
    ensures r == Failure(EditorNotFound) <==>
      ctx.RequestContext? && ("editor" !in ctx.lifespan || ctx.lifespan["editor"] == NoneValue)
    ensures r.Failure? && r.error.InvalidEditorType? <==>
      ctx.RequestContext? && "editor" in ctx.lifespan && ctx.lifespan["editor"].OtherObject?
  {
    if !ctx.RequestContext? then Failure(ContextNotAvailable)
    else if "editor" !in ctx.lifespan then Failure(EditorNotFound)
    else match ctx.lifespan["editor"]
      case NoneValue => Failure(EditorNotFound)
      case GdpcEditor(e) => Success(e)
      case MockEditor(e) => Success(e)
      case OtherObject(t) => Failure(InvalidEditorType(t))
  }

  /** The objects a handler may change: the editor it finds, if any. */
  function Editors(ctx: Context): set<object>
  {
    if GetEditor(ctx).Success? then {GetEditor(ctx).value} else {}
  }

  // ---------------------------------------------------------------- replies

  datatype PlaceBlockReply = PlaceBlockReply(success: bool, position: seq<int>, block: string)

  datatype CuboidReply = CuboidReply(success: bool, corner1: seq<int>, corner2: seq<int>, block: string, hollow: bool)

  datatype CommandResult = CommandResult(success: bool, message: Option<string>)

  datatype CommandReply = CommandReply(command: string, results: seq<CommandResult>)

  datatype EntitiesReply = EntitiesReply(success: bool, placed: nat)

  datatype StructureReply = StructureReply(success: bool, structure: string, position: seq<int>,
                                           rotation: Option<int>, mirror: Option<bool>)

  datatype BuildAreaReply = BuildAreaReply(offset: seq<int>, size: seq<int>, end: seq<int>)

  datatype BlockReply = BlockReply(id: string, states: map<string, string>, data: Option<string>)

  datatype BiomeReply = BiomeReply(biomeId: string, position: seq<int>)

  datatype HeightReply = HeightReply(kind: string, position: seq<int>, height: int, rawHeight: int)

  // ---------------------------------------------------------------- tools

  /** `place_block`: one `placeBlock` at the given position. `shown` is gdpc's `str` of the
      block. */
  method PlaceBlock(ctx: Context, position: Vec3iInput, block: BlockData, shown: string)
    returns (r: Result<PlaceBlockReply, ToolError>)
    requires position.Valid()
    modifies Editors(ctx)
    ensures GetEditor(ctx).Failure? ==> r == Failure(GetEditor(ctx).error)
    ensures GetEditor(ctx).Success? ==>
      GetEditor(ctx).value.Issued(SetBlock(position.ToIvec3(), ToBlock(block)), r.Success?)
    ensures r.Success? ==> r.value == PlaceBlockReply(true, position.coords, PlacedBlockStr(ToBlock(block), shown))
    ensures r.Failure? && GetEditor(ctx).Success? ==> r.error == Failed(PlaceBlockOp, BackendRaised)
  {
    var e := GetEditor(ctx);
    if e.Failure? {
      return Failure(e.error);
    }
    var ed := e.value;
    var pos := position.ToIvec3();
    var b := ToBlock(block);
    var placed := ed.PlaceBlock(pos, b);
    if placed.Failure? {
      return Failure(Failed(PlaceBlockOp, BackendRaised));
    }
    r := Success(PlaceBlockReply(placed.value, pos.ToList(), PlacedBlockStr(b, shown)));
  }

  /** The cuboid command `place_cuboid` sends: a hollow shell iff `hollow`, corners as given. */
  function CuboidCall(c1: Vec3, c2: Vec3, b: Block, hollow: bool): (c: Call)
    ensures c.Cuboid? && c.corner1 == c1 && c.corner2 == c2 && c.fill == Single(b)
    ensures c.kind == Hollow <==> hollow
    ensures c.kind == Solid <==> !hollow
  {
    Cuboid(if hollow then Hollow else Solid, c1, c2, Single(b))
  }

  /** `place_cuboid`: exactly one geometry call; the corners are echoed unreordered and the
      block as gdpc's `str` of it, `shown`. */
  method PlaceCuboid(ctx: Context, corner1: Vec3iInput, corner2: Vec3iInput, block: BlockData, hollow: bool, shown: string)
    returns (r: Result<CuboidReply, ToolError>)
    requires corner1.Valid() && corner2.Valid()
    modifies Editors(ctx)
    ensures GetEditor(ctx).Failure? ==> r == Failure(GetEditor(ctx).error)
    ensures GetEditor(ctx).Success? ==>
      GetEditor(ctx).value.Issued(CuboidCall(corner1.ToIvec3(), corner2.ToIvec3(), ToBlock(block), hollow), r.Success?)
    ensures r.Success? ==>
      r.value == CuboidReply(true, corner1.coords, corner2.coords, shown, hollow)
    ensures r.Failure? && GetEditor(ctx).Success? ==> r.error == Failed(PlaceCuboidOp, BackendRaised)
  {
    var e := GetEditor(ctx);
    if e.Failure? {
      return Failure(e.error);
    }
    var ed := e.value;
    var c1 := corner1.ToIvec3();
    var c2 := corner2.ToIvec3();
    var b := ToBlock(block);
    var ok := ed.Issue(CuboidCall(c1, c2, b, hollow));
    if !ok {
      return Failure(Failed(PlaceCuboidOp, BackendRaised));
    }
    r := Success(CuboidReply(true, c1.ToList(), c2.ToList(), shown, hollow));
  }

  /** The reply list of `run_command`: one result per backend tuple, in order. */
  function ProcessResults(rs: seq<Reply>): (out: seq<CommandResult>)
    ensures |out| == |rs|
    ensures forall i :: 0 <= i < |rs| ==> out[i].success == rs[i].success && out[i].message == rs[i].message
  {
    seq(|rs|, i requires 0 <= i < |rs| => CommandResult(rs[i].success, rs[i].message))
  }

  /** `run_command`. */
  method RunCommand(ctx: Context, command: string) returns (r: Result<CommandReply, ToolError>)
    modifies Editors(ctx)
    ensures GetEditor(ctx).Failure? ==> r == Failure(GetEditor(ctx).error)
    ensures GetEditor(ctx).Success? ==> GetEditor(ctx).value.Issued(Call.RunCommand(command), r.Success?)
    ensures r.Success? ==>
      r.value == CommandReply(command, ProcessResults(GetEditor(ctx).value.RepliesTo(command)))
    ensures r.Failure? && GetEditor(ctx).Success? ==> r.error == Failed(RunCommandOp, BackendRaised)
  {
    var e := GetEditor(ctx);
    if e.Failure? {
      return Failure(e.error);
    }
    var ed := e.value;
    var results := ed.RunCommandGlobal(command);
    if results.Failure? {
      return Failure(Failed(RunCommandOp, BackendRaised));
    }
    r := Success(CommandReply(command, ProcessResults(results.value)));
  }

  /** The payload dict of one entity: integer coordinates, `nbt` only when truthy. */
  function ToPayload(e: EntityData): (p: EntityPayload)
    requires e.pos.Valid()
    ensures p.id == e.id && [p.x, p.y, p.z] == e.pos.coords
    ensures p.nbt.Some? <==> Truthy(e.nbt)
    ensures p.nbt.Some? ==> p.nbt == e.nbt
  {
    var v := e.pos.ToIvec3();
    EntityPayload(e.id, v.x, v.y, v.z, if Truthy(e.nbt) then e.nbt else None)
  }

  /** The payload and the entity's own `to_dict` agree on whether `nbt` is sent. */
  lemma PayloadAgreesWithToDict(e: EntityData)
    requires e.pos.Valid()
    ensures ToPayload(e).nbt.Some? <==> "nbt" in EntityToDict(e)
    ensures ToPayload(e).nbt.Some? ==> EntityToDict(e)["nbt"] == VStr(ToPayload(e).nbt.value)
    ensures EntityToDict(e)["pos"] == VCoords([ToPayload(e).x, ToPayload(e).y, ToPayload(e).z])
  {
  }

  predicate AllValid(entities: seq<EntityData>)
  {
    forall i :: 0 <= i < |entities| ==> entities[i].pos.Valid()
  }

  /** The append loop of `place_entities`: one dict per entity, in input order. */
  method BuildEntityPayload(entities: seq<EntityData>) returns (payload: seq<EntityPayload>)
    requires AllValid(entities)
    ensures |payload| == |entities|
    ensures forall i :: 0 <= i < |entities| ==> payload[i] == ToPayload(entities[i])
  {
    payload := [];
    var k := 0;
    while k < |entities|
      invariant 0 <= k <= |entities|
      invariant |payload| == k
      invariant forall i :: 0 <= i < k ==> payload[i] == ToPayload(entities[i])
    {
      payload := payload + [ToPayload(entities[k])];
      k := k + 1;
    }
  }

  const MinEntities: nat := 1
  const MaxEntities: nat := 50

  /** `place_entities`: the list length is validated before the handler runs; then one
      backend call carries every entity, relative to the origin. */
  method PlaceEntities(ctx: Context, entities: seq<EntityData>) returns (r: Result<EntitiesReply, ToolError>)
    requires AllValid(entities)
    modifies Editors(ctx)
    ensures !(MinEntities <= |entities| <= MaxEntities) ==> r == Failure(InvalidEntityCount(|entities|))
    ensures !(MinEntities <= |entities| <= MaxEntities) && GetEditor(ctx).Success? ==> unchanged(GetEditor(ctx).value)
    ensures MinEntities <= |entities| <= MaxEntities && GetEditor(ctx).Failure? ==> r == Failure(GetEditor(ctx).error)
    ensures MinEntities <= |entities| <= MaxEntities && GetEditor(ctx).Success? ==>
      exists payload :: |payload| == |entities| && (forall i :: 0 <= i < |entities| ==> payload[i] == ToPayload(entities[i]))
        && GetEditor(ctx).value.Issued(Call.PlaceEntities(payload, Vec3(0, 0, 0)), r.Success?)
    ensures r.Success? ==> r.value == EntitiesReply(true, |entities|)
    ensures r.Failure? && MinEntities <= |entities| <= MaxEntities && GetEditor(ctx).Success? ==>
      r.error == Failed(PlaceEntitiesOp, BackendRaised)
  {
    if !(MinEntities <= |entities| <= MaxEntities) {
      return Failure(InvalidEntityCount(|entities|));
    }
    var e := GetEditor(ctx);
    if e.Failure? {
      return Failure(e.error);
    }
    var ed := e.value;
    var payload := BuildEntityPayload(entities);
    var ok := ed.Issue(Call.PlaceEntities(payload, Vec3(0, 0, 0)));
    if !ok {
      return Failure(Failed(PlaceEntitiesOp, BackendRaised));
    }
    r := Success(EntitiesReply(true, |entities|));
  }

  /** The `placeStructure` call of `place_structure`: name, position, rotation and mirror. */
  function StructureCall(s: StructureData): (c: Call)
    requires s.position.Valid()
    ensures c == Call.PlaceStructure(s.name, s.position.ToIvec3(), s.rotation, s.mirror)
  {
    Call.PlaceStructure(s.name, s.position.ToIvec3(), s.rotation, s.mirror)
  }

  /** `integrity` and `seed` are never sent: structures differing only there make the same call. */
  lemma StructureCallIgnoresIntegrityAndSeed(s: StructureData, integrity: Option<real>, seed: Option<int>)
    requires s.position.Valid()
    ensures StructureCall(s.(integrity := integrity, seed := seed)) == StructureCall(s)
  {
  }

  /** `place_structure`. */
  method PlaceStructure(ctx: Context, s: StructureData) returns (r: Result<StructureReply, ToolError>)
    requires s.position.Valid()
    modifies Editors(ctx)
    ensures GetEditor(ctx).Failure? ==> r == Failure(GetEditor(ctx).error)
    ensures GetEditor(ctx).Success? ==> GetEditor(ctx).value.Issued(StructureCall(s), r.Success?)
    ensures r.Success? ==> r.value == StructureReply(true, s.name, s.position.coords, s.rotation, s.mirror)
    ensures r.Failure? && GetEditor(ctx).Success? ==> r.error == Failed(PlaceStructureOp, BackendRaised)
  {
    var e := GetEditor(ctx);
    if e.Failure? {
      return Failure(e.error);
    }
    var ed := e.value;
    var ok := ed.Issue(StructureCall(s));
    if !ok {
      return Failure(Failed(PlaceStructureOp, BackendRaised));
    }
    r := Success(StructureReply(true, s.name, s.position.ToIvec3().ToList(), s.rotation, s.mirror));
  }

  // ---------------------------------------------------------------- resources

  /** The serialised build area: componentwise, end = offset + size. */
  function BuildAreaReplyOf(b: Box): (r: BuildAreaReply)
    ensures r.offset == b.offset.ToList() && r.size == b.size.ToList()
    ensures |r.end| == 3 && forall i :: 0 <= i < 3 ==> r.end[i] == r.offset[i] + r.size[i]
  {
    BuildAreaReply(b.offset.ToList(), b.size.ToList(), b.End().ToList())
  }

  /** `get_build_area`: "not set" is reported apart from other failures. */
  method GetBuildArea(ctx: Context) returns (r: Result<BuildAreaReply, ToolError>)
    modifies Editors(ctx)
    ensures GetEditor(ctx).Failure? ==> r == Failure(GetEditor(ctx).error)
    ensures GetEditor(ctx).Success? ==> var ed := GetEditor(ctx).value;
      && ed.Issued(Call.GetBuildArea, old(ed.failAfter) != Some(0))
      && (r.Success? <==> old(ed.failAfter) != Some(0) && ed.buildArea.Some?)
      && (r.Success? ==> r.value == BuildAreaReplyOf(ed.buildArea.value))
      && (r == Failure(BuildAreaNotSet) <==> old(ed.failAfter) != Some(0) && ed.buildArea.None?)
      && (r == Failure(Failed(GetBuildAreaOp, BackendRaised)) <==> old(ed.failAfter) == Some(0))
  {
    var e := GetEditor(ctx);
    if e.Failure? {
      return Failure(e.error);
    }
    var ed := e.value;
    var area := ed.GetBuildAreaBox();
    if area.Failure? {
      if area.error == BuildAreaNotSetError {
        return Failure(BuildAreaNotSet);
      }
      return Failure(Failed(GetBuildAreaOp, BackendRaised));
    }
    r := Success(BuildAreaReplyOf(area.value));
  }

  /** The list `get_heightmap_types` returns; `get_height` checks against the same four names. */
  const ServerHeightmapTypes: seq<string> := ["WORLD_SURFACE", "MOTION_BLOCKING", "MOTION_BLOCKING_NO_LEAVES", "OCEAN_FLOOR"]

  /** `get_heightmap_types`: four distinct names, exactly those the request model accepts. */
  function GetHeightmapTypes(): (r: seq<string>)
    ensures |r| == 4
    ensures forall i, j :: 0 <= i < j < |r| ==> r[i] != r[j]
    ensures forall t :: t in r <==> NewHeightmapData(t, None, None).Success?
  {
    ServerHeightmapTypes
  }

  const VoidAir: string := "minecraft:void_air"

  /** `get_block`; the void-air sentinel is an error, wrapped like a backend failure. */
  method GetBlock(ctx: Context, x: int, y: int, z: int) returns (r: Result<BlockReply, ToolError>)
    modifies Editors(ctx)
    ensures GetEditor(ctx).Failure? ==> r == Failure(GetEditor(ctx).error)
    ensures GetEditor(ctx).Success? ==> var ed := GetEditor(ctx).value; var p := Vec3(x, y, z);
      var b := if p in ed.blocks then ed.blocks[p] else Air;
      && ed.Issued(Call.GetBlock(p), old(ed.failAfter) != Some(0))
      && (old(ed.failAfter) == Some(0) ==> r == Failure(Failed(GetBlockOp, BackendRaised)))
      && (old(ed.failAfter) != Some(0) && b.id == VoidAir ==> r == Failure(Failed(GetBlockOp, OutsideLoadedWorld)))
      && (old(ed.failAfter) != Some(0) && b.id != VoidAir ==> r == Success(BlockReply(b.id, b.states, b.data)))
  {
    var e := GetEditor(ctx);
    if e.Failure? {
      return Failure(e.error);
    }
    var ed := e.value;
    var got := ed.GetBlockGlobal(Vec3(x, y, z));
    if got.Failure? {
      return Failure(Failed(GetBlockOp, BackendRaised));
    }
    if got.value.id == VoidAir {
      return Failure(Failed(GetBlockOp, OutsideLoadedWorld));
    }
    r := Success(BlockReply(got.value.id, got.value.states, got.value.data));
  }

  /** `get_biome`; an empty biome id is an error, wrapped like a backend failure. */
  method GetBiome(ctx: Context, x: int, y: int, z: int) returns (r: Result<BiomeReply, ToolError>)
    modifies Editors(ctx)
    ensures GetEditor(ctx).Failure? ==> r == Failure(GetEditor(ctx).error)
    ensures GetEditor(ctx).Success? ==> var ed := GetEditor(ctx).value; var p := Vec3(x, y, z);
      var id := if p in ed.biomes then ed.biomes[p] else DefaultBiome;
      && ed.Issued(Call.GetBiome(p), old(ed.failAfter) != Some(0))
      && (old(ed.failAfter) == Some(0) ==> r == Failure(Failed(GetBiomeOp, BackendRaised)))
      && (old(ed.failAfter) != Some(0) && id == "" ==> r == Failure(Failed(GetBiomeOp, OutsideLoadedWorld)))
      && (old(ed.failAfter) != Some(0) && id != "" ==> r == Success(BiomeReply(id, [x, y, z])))
  {
    var e := GetEditor(ctx);
    if e.Failure? {
      return Failure(e.error);
    }
    var ed := e.value;
    var got := ed.GetBiomeGlobal(Vec3(x, y, z));
    if got.Failure? {
      return Failure(Failed(GetBiomeOp, BackendRaised));
    }
    if got.value == "" {
      return Failure(Failed(GetBiomeOp, OutsideLoadedWorld));
    }
    r := Success(BiomeReply(got.value, [x, y, z]));
  }

  /** The height read from a 1x1 slice at (x, z): the heightmap holds the y of the block above
      the ground, so the height is one less. */
  function HeightFromSlice(slice: WorldSlice, kind: string, x: int, z: int): (r: Result<HeightReply, ToolError>)
    ensures r.Success? <==> kind in slice.heightmaps && InGrid(slice.heightmaps[kind], 0, 0)
    ensures r.Success? ==> (r.value.kind == kind && r.value.position == [x, z]
      && r.value.rawHeight == slice.heightmaps[kind][0][0] && r.value.height == r.value.rawHeight - 1)
    ensures kind !in slice.heightmaps ==> r == Failure(Failed(GetHeightOp, HeightmapNotAvailable))
    ensures kind in slice.heightmaps && !InGrid(slice.heightmaps[kind], 0, 0) ==>
      r == Failure(Failed(GetHeightOp, OutsideHeightmap))
  {
    if kind !in slice.heightmaps then Failure(Failed(GetHeightOp, HeightmapNotAvailable))
    else
      var hm := slice.heightmaps[kind];
      if !InGrid(hm, 0, 0) then Failure(Failed(GetHeightOp, OutsideHeightmap))
      else
        var raw := At(hm, 0, 0);
        Success(HeightReply(kind, [x, z], raw - 1, raw))
  }

  /** `get_height`: an unknown type is rejected, unwrapped, before the slice is loaded. */
  method GetHeight(ctx: Context, kind: string, x: int, z: int) returns (r: Result<HeightReply, ToolError>)
    modifies Editors(ctx)
    ensures GetEditor(ctx).Failure? ==> r == Failure(GetEditor(ctx).error)
    ensures GetEditor(ctx).Success? && kind !in ServerHeightmapTypes ==>
      r == Failure(InvalidHeightmapType(kind)) && unchanged(GetEditor(ctx).value)
    ensures GetEditor(ctx).Success? && kind in ServerHeightmapTypes ==> var ed := GetEditor(ctx).value;
      && ed.Issued(LoadSlice(Rect(Vec2(x, z), Vec2(1, 1))), old(ed.failAfter) != Some(0))
      && r == if old(ed.failAfter) == Some(0) then Failure(Failed(GetHeightOp, BackendRaised))
              else HeightFromSlice(ed.worldSlice, kind, x, z)
  {
    var e := GetEditor(ctx);
    if e.Failure? {
      return Failure(e.error);
    }
    var ed := e.value;
    if kind !in ServerHeightmapTypes {
      return Failure(InvalidHeightmapType(kind));
    }
    var slice := ed.LoadWorldSlice(Rect(Vec2(x, z), Vec2(1, 1)));
    if slice.Failure? {
      return Failure(Failed(GetHeightOp, BackendRaised));
    }
    r := HeightFromSlice(slice.value, kind, x, z);
  }

  // ---------------------------------------------------------------- lifespan

  datatype Phase = NotStarted | Serving | Stopped

  datatype StartupError = FailedToConnect(message: string) | FailedToInitialize(message: string)

  /** An exception met inside the lifespan's `try`: raised by the editor's construction, or by
      the server while serving and thrown back in at the `yield`. It is gdpc's
      `InterfaceConnectionError` or any other exception. */
  datatype ServeError = ServeInterfaceError(message: string) | ServeOtherError(message: string)

  const EditorRetries: int := 2
  const EditorTimeout: int := 10

  /** The server's lifespan: create the editor, check the connection, serve, and flush the
      buffer on the way out whenever an editor was created. */
  class Session {
    var phase: Phase
    var editor: Editor?

    predicate Valid()
      reads this
    {
      phase == Serving ==> editor != null
    }

    constructor ()
      ensures phase == NotStarted && editor == null && Valid()
    {
      phase := NotStarted;
      editor := null;
    }

    /** Startup. `creationError` is the exception the editor's construction raises, if any,
        which leaves through the same handlers as the connection check's;
        `connection` is what the connection check meets; `failures` schedules the editor's
        later backend failures. */
    method Start(creationError: Option<ServeError>, connection: ConnectionCheck, failures: Option<nat>)
      returns (r: Result<map<string, Handle>, StartupError>)
      requires phase == NotStarted
      modifies this
      ensures Valid()
      ensures creationError.Some? ==> editor == null && phase == Stopped
      ensures creationError.Some? && creationError.value.ServeInterfaceError? ==>
        r == Failure(FailedToConnect(creationError.value.message))
      ensures creationError.Some? && creationError.value.ServeOtherError? ==>
        r == Failure(FailedToInitialize(creationError.value.message))
      ensures creationError.None? ==> (editor != null && fresh(editor)
        && editor.retries == EditorRetries && editor.timeout == EditorTimeout && !editor.buffering
        && |editor.log| >= 1 && editor.log[0] == Entry(CheckConnection, Mode(false, false), !connection.Connected?))
      ensures creationError.None? && connection.Connected? ==>
        phase == Serving && r == Success(map["editor" := GdpcEditor(editor)]) && |editor.log| == 1
        && editor.failAfter == failures
      ensures creationError.None? && !connection.Connected? ==> (phase == Stopped
        && editor.log == [Entry(CheckConnection, Mode(false, false), true), Entry(Flush, Mode(false, false), failures == Some(0))])
      ensures connection.InterfaceConnectionError? && creationError.None? ==>
        r == Failure(FailedToConnect(connection.message))
      ensures connection.OtherError? && creationError.None? ==>
        r == Failure(FailedToInitialize(connection.message))
    {
      if creationError.Some? {
        phase := Stopped;
        editor := null;
        return match creationError.value
          case ServeInterfaceError(m) => Failure(FailedToConnect(m))
          case ServeOtherError(m) => Failure(FailedToInitialize(m));
      }
      var ed := new Editor(EditorRetries, EditorTimeout, false);
      ed.failAfter := failures;
      editor := ed;
      var outcome := ed.CheckConnectionWith(connection);
      match outcome {
        case Connected =>
          phase := Serving;
          r := Success(map["editor" := GdpcEditor(ed)]);
        case InterfaceConnectionError(m) =>
          var _ := ed.Issue(Flush);
          phase := Stopped;
          r := Failure(FailedToConnect(m));
        case OtherError(m) =>
          var _ := ed.Issue(Flush);
          phase := Stopped;
          r := Failure(FailedToInitialize(m));
      }
    }

    /** Shutdown after serving. An exception the server raised while serving is thrown in at
        the lifespan's `yield`, inside its `try`: an `InterfaceConnectionError` leaves as
        "Failed to connect", any other exception as "Failed to initialize". The flush is
        attempted either way and its failure never propagates. */
    method Stop(bodyError: Option<ServeError>) returns (r: Option<StartupError>)
      requires phase == Serving && Valid()
      modifies this, editor`log, editor`blocks, editor`failAfter
      ensures phase == Stopped && editor == old(editor)
      ensures editor.Issued(Flush, old(editor.failAfter) != Some(0))
      ensures bodyError.None? <==> r.None?
      ensures bodyError.Some? && bodyError.value.ServeInterfaceError? ==>
        r == Some(FailedToConnect(bodyError.value.message))
      ensures bodyError.Some? && bodyError.value.ServeOtherError? ==>
        r == Some(FailedToInitialize(bodyError.value.message))
    {
      var _ := editor.Issue(Flush);
      phase := Stopped;
      match bodyError {
        case None => r := None;
        case Some(ServeInterfaceError(m)) => r := Some(FailedToConnect(m));
        case Some(ServeOtherError(m)) => r := Some(FailedToInitialize(m));
      }
    }
  }
}
