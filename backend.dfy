/** The gdpc `Editor` the bridge talks to, modelled after the recording mock of the test suite
    (tests/conftest.py): placed blocks are stored in a map, unset blocks read as air, the build
    area defaults to a 10x10x10 box at the origin and the world slice carries fixed heightmaps.
    Every backend call is recorded, with the editor's mode at the time and whether it raised.
    Library geometry (cuboids, lines, circles, outlines, transformed shapes) is recorded as a
    command and not expanded into blocks. */
module Backend {
  import opened Types

  datatype CuboidKind = Solid | Hollow | Wireframe

  /** A single block, or a palette from which gdpc picks at random per block. */
  datatype Fill = Single(block: Block) | Palette(blocks: seq<Block>)

  /** A gdpc `Transform`: translation, number of quarter turns and per-axis flips. */
  datatype Transform = Transform(translation: Vec3, rotation: int, flip: (bool, bool, bool))

  /** The payload of one entity as sent to `interface.placeEntities`. */
  datatype EntityPayload = EntityPayload(id: string, x: int, y: int, z: int, nbt: Option<string>)

  /** One (success, message) tuple returned for a command. */
  datatype Reply = Reply(success: bool, message: Option<string>)

  /** The heightmaps of a loaded world slice; a numpy 2-D array is rectangular. */
  type Heightmap = g: Grid | Rectangular(g) witness []

  datatype WorldSlice = WorldSlice(heightmaps: map<string, Heightmap>)

  /** A call to the backend. */
  datatype Call =
    | CheckConnection
    | SetBlock(pos: Vec3, block: Block)
    | Cuboid(kind: CuboidKind, corner1: Vec3, corner2: Vec3, fill: Fill)
    | Line(from: Vec3, to: Vec3, block: Block)
    | Circle(center: Vec3, radius: int, block: Block)
    | RectOutline(corner1: Vec3, corner2: Vec3, block: Block)
    | RotationColumns(center: Vec3, radius: int, block: Block)
    | Transformed(transform: Transform, calls: seq<Call>)
    | GetBlock(at: Vec3)
    | GetBiome(at: Vec3)
    | GetBuildArea
    | LoadSlice(rect: Rect)
    | RunCommand(command: string)
    | PlaceEntities(entities: seq<EntityPayload>, origin: Vec3)
    | PlaceStructure(name: string, position: Vec3, rotation: Option<int>, mirror: Option<bool>)
    | Flush

  /** The editor's `buffering` and `multithreading` flags when a call is made. */
  datatype Mode = Mode(buffering: bool, multithreading: bool)

  datatype Entry = Entry(call: Call, mode: Mode, raised: bool)

  datatype BackendError = CallRaised | BuildAreaNotSetError

  datatype ConnectionCheck = Connected | InterfaceConnectionError(message: string) | OtherError(message: string)

  /** The effect of one call on the block map: only `placeBlock` writes it. */
  function Apply(m: map<Vec3, Block>, c: Call): (r: map<Vec3, Block>)
    ensures c.SetBlock? ==> r == m[c.pos := c.block]
    ensures !c.SetBlock? ==> r == m
  {
    if c.SetBlock? then m[c.pos := c.block] else m
  }

  function ApplyAll(m: map<Vec3, Block>, cs: seq<Call>): map<Vec3, Block>
    decreases |cs|
  {
    if cs == [] then m else ApplyAll(Apply(m, cs[0]), cs[1..])
  }

  lemma {:induction false} ApplyAllAppend(m: map<Vec3, Block>, cs: seq<Call>, c: Call)
    ensures ApplyAll(m, cs + [c]) == Apply(ApplyAll(m, cs), c)
    decreases |cs|
  {
    if cs == [] {
      assert [] + [c] == [c];
    } else {
      assert (cs + [c])[1..] == cs[1..] + [c];
      ApplyAllAppend(Apply(m, cs[0]), cs[1..], c);
    }
  }

  predicate PlacesAt(c: Call, p: Vec3)
  {
    c.SetBlock? && c.pos == p
  }

  /** A position no call of the plan places keeps what it held, or stays absent. */
  lemma {:induction false} ApplyAllUntouched(m: map<Vec3, Block>, cs: seq<Call>, p: Vec3)
    requires forall i :: 0 <= i < |cs| ==> !PlacesAt(cs[i], p)
    ensures p in ApplyAll(m, cs) <==> p in m
    ensures p in m ==> ApplyAll(m, cs)[p] == m[p]
    decreases |cs|
  {
    if cs != [] {
      assert !PlacesAt(cs[0], p);
      forall i | 0 <= i < |cs[1..]| ensures !PlacesAt(cs[1..][i], p) {
        assert cs[1..][i] == cs[i + 1];
      }
      ApplyAllUntouched(Apply(m, cs[0]), cs[1..], p);
    }
  }

  /** The last call of a plan that places a position decides what it holds. */
  lemma {:induction false} ApplyAllLastPlacement(m: map<Vec3, Block>, cs: seq<Call>, j: nat)
    requires j < |cs| && cs[j].SetBlock?
    requires forall i :: j < i < |cs| ==> !PlacesAt(cs[i], cs[j].pos)
    ensures cs[j].pos in ApplyAll(m, cs) && ApplyAll(m, cs)[cs[j].pos] == cs[j].block
    decreases |cs|
  {
    if j == 0 {
      forall i | 0 <= i < |cs[1..]| ensures !PlacesAt(cs[1..][i], cs[0].pos) {
        assert cs[1..][i] == cs[i + 1];
      }
      ApplyAllUntouched(Apply(m, cs[0]), cs[1..], cs[0].pos);
    } else {
      assert cs[1..][j - 1] == cs[j];
      forall i | j - 1 < i < |cs[1..]| ensures !PlacesAt(cs[1..][i], cs[j].pos) {
        assert cs[1..][i] == cs[i + 1];
      }
      ApplyAllLastPlacement(Apply(m, cs[0]), cs[1..], j - 1);
    }
  }

  /** A position a plan places is present in the block map afterwards, whatever came before. */
  lemma {:induction false} ApplyAllCovers(m: map<Vec3, Block>, cs: seq<Call>, j: nat)
    requires j < |cs| && cs[j].SetBlock?
    ensures cs[j].pos in ApplyAll(m, cs)
    decreases |cs|
  {
    if j == 0 {
      KeysKept(Apply(m, cs[0]), cs[1..], cs[0].pos);
    } else {
      assert cs[1..][j - 1] == cs[j];
      ApplyAllCovers(Apply(m, cs[0]), cs[1..], j - 1);
    }
  }

  /** A position once present stays present: no call removes a block. */
  lemma {:induction false} KeysKept(m: map<Vec3, Block>, cs: seq<Call>, p: Vec3)
    requires p in m
    ensures p in ApplyAll(m, cs)
    decreases |cs|
  {
    if cs != [] {
      KeysKept(Apply(m, cs[0]), cs[1..], p);
    }
  }

  /** A position the plan places, always with the same block, ends up holding that block. */
  lemma {:induction false} ApplyAllPlaced(m: map<Vec3, Block>, cs: seq<Call>, p: Vec3, b: Block)
    requires SetBlock(p, b) in cs
    requires forall c :: c in cs && PlacesAt(c, p) ==> c.block == b
    ensures p in ApplyAll(m, cs) && ApplyAll(m, cs)[p] == b
    decreases |cs|
  {
    assert cs == [cs[0]] + cs[1..];
    var rest := cs[1..];
    if SetBlock(p, b) in rest {
      ApplyAllPlaced(Apply(m, cs[0]), rest, p, b);
    } else {
      assert cs[0] == SetBlock(p, b);
      forall i | 0 <= i < |rest| ensures !PlacesAt(rest[i], p) {
        assert rest[i] in cs;
      }
      ApplyAllUntouched(Apply(m, cs[0]), rest, p);
    }
  }

  /** The log entries of calls made, all successfully, in one mode. */
  function Tag(cs: seq<Call>, mode: Mode): (es: seq<Entry>)
    ensures |es| == |cs|
    ensures forall i :: 0 <= i < |cs| ==> es[i] == Entry(cs[i], mode, false)
  {
    seq(|cs|, i requires 0 <= i < |cs| => Entry(cs[i], mode, false))
  }

  /** How many calls of a plan of length n succeed under the failure switch `fa`. */
  function Completed(fa: Option<nat>, n: nat): (k: nat)
    ensures k <= n
    ensures k < n <==> fa.Some? && fa.value < n
  {
    if fa.Some? && fa.value < n then fa.value else n
  }

  /** The failure switch after n calls: it counts down and clears once it has fired. */
  function Remaining(fa: Option<nat>, n: nat): Option<nat>
  {
    if fa.None? || fa.value < n then None else Some(fa.value - n)
  }

  /** The log a plan leaves: the completed calls, then the one that raised, if any. */
  function PlanLog(plan: seq<Call>, mode: Mode, fa: Option<nat>): (es: seq<Entry>)
    ensures |es| == if Completed(fa, |plan|) < |plan| then Completed(fa, |plan|) + 1 else |plan|
  {
    var k := Completed(fa, |plan|);
    Tag(plan[..k], mode) + (if k < |plan| then [Entry(plan[k], mode, true)] else [])
  }

  /** A plan that ran to the end left exactly its calls in the log, none of them raising. */
  lemma PlanLogComplete(plan: seq<Call>, mode: Mode, fa: Option<nat>)
    requires Completed(fa, |plan|) == |plan|
    ensures PlanLog(plan, mode, fa) == Tag(plan, mode)
    ensures plan[..Completed(fa, |plan|)] == plan
  {
    assert plan[..|plan|] == plan;
  }

  const Air: Block := Simple("minecraft:air")
  const DefaultBiome: string := "minecraft:plains"

  class Editor {
    const retries: int
    const timeout: int
    var buffering: bool
    var multithreading: bool
    /** Blocks placed with `placeBlock` (the mock's `_blocks`). */
    var blocks: map<Vec3, Block>
    var biomes: map<Vec3, string>
    var buildArea: Option<Box>
    var worldSlice: WorldSlice
    /** Replies the backend gives to commands; None gives the mock's echo. */
    var scriptedReplies: Option<seq<Reply>>
    /** None: calls never raise; Some(n): the call after n more successful calls raises. */
    var failAfter: Option<nat>
    var log: seq<Entry>

    function CurrentMode(): Mode
      reads this`buffering, this`multithreading
    {
      Mode(buffering, multithreading)
    }

    /** `MockEditor(retries, timeout, buffering)`. */
    constructor (retries: int, timeout: int, buffering: bool)
      ensures this.retries == retries && this.timeout == timeout && this.buffering == buffering
      ensures !multithreading && blocks == map[] && biomes == map[]
      ensures buildArea == Some(Box(Vec3(0, 0, 0), Vec3(10, 10, 10)))
      ensures worldSlice == WorldSlice(map[
        "WORLD_SURFACE" := [[64]], "MOTION_BLOCKING" := [[63]],
        "MOTION_BLOCKING_NO_LEAVES" := [[62]], "OCEAN_FLOOR" := [[60]]])
      ensures scriptedReplies == None && failAfter == None && log == []
    {
      this.retries := retries;
      this.timeout := timeout;
      this.buffering := buffering;
      multithreading := false;
      blocks := map[];
      biomes := map[];
      buildArea := Some(Box(Vec3(0, 0, 0), Vec3(10, 10, 10)));
      worldSlice := WorldSlice(map[
        "WORLD_SURFACE" := [[64]], "MOTION_BLOCKING" := [[63]],
        "MOTION_BLOCKING_NO_LEAVES" := [[62]], "OCEAN_FLOOR" := [[60]]]);
      scriptedReplies := None;
      failAfter := None;
      log := [];
    }

    /** One call was made: it raised iff the switch stood at zero; only a successful
        `placeBlock` changes the block map. */
    twostate predicate Issued(c: Call, ok: bool)
      reads this
    {
      && ok == (old(failAfter) != Some(0))
      && failAfter == Remaining(old(failAfter), 1)
      && log == old(log) + [Entry(c, old(CurrentMode()), !ok)]
      && blocks == (if ok then Apply(old(blocks), c) else old(blocks))
    }

    /** A plan ran: its calls were made in order until the first that raised. */
    twostate predicate Performed(plan: seq<Call>, ok: bool)
      reads this
    {
      && ok == (Completed(old(failAfter), |plan|) == |plan|)
      && log == old(log) + PlanLog(plan, old(CurrentMode()), old(failAfter))
      && blocks == ApplyAll(old(blocks), plan[..Completed(old(failAfter), |plan|)])
      && failAfter == Remaining(old(failAfter), |plan|)
    }

    method Issue(c: Call) returns (ok: bool)
      modifies this`log, this`blocks, this`failAfter
      ensures Issued(c, ok)
    {
      ok := failAfter != Some(0);
      log := log + [Entry(c, CurrentMode(), !ok)];
      failAfter := Remaining(failAfter, 1);
      if ok {
        blocks := Apply(blocks, c);
      }
    }

    /** Runs the calls of a plan in order and stops at the first one that raises. */
    method Perform(plan: seq<Call>) returns (ok: bool)
      modifies this`log, this`blocks, this`failAfter
      ensures Performed(plan, ok)
    {
      ghost var mode := CurrentMode();
      ghost var fa := failAfter;
      var i := 0;
      ok := true;
      while i < |plan| && ok
        invariant 0 <= i <= |plan|
        invariant ok ==> i <= Completed(fa, |plan|)
        invariant ok ==> log == old(log) + Tag(plan[..i], mode)
        invariant ok ==> blocks == ApplyAll(old(blocks), plan[..i])
        invariant ok ==> failAfter == Remaining(fa, i)
        invariant !ok ==> i == Completed(fa, |plan|) + 1 && i <= |plan|
        invariant !ok ==> log == old(log) + PlanLog(plan, mode, fa)
        invariant !ok ==> blocks == ApplyAll(old(blocks), plan[..i - 1])
        invariant !ok ==> failAfter == None
        invariant CurrentMode() == mode
      {
        ok := Issue(plan[i]);
        ApplyAllAppend(old(blocks), plan[..i], plan[i]);
        assert plan[..i + 1] == plan[..i] + [plan[i]];
        assert Tag(plan[..i + 1], mode) == Tag(plan[..i], mode) + [Entry(plan[i], mode, false)];
        i := i + 1;
      }
      if ok {
        assert plan[..i] == plan;
      }
    }

    /** `placeBlock`: stores the block and reports success. */
    method PlaceBlock(pos: Vec3, b: Block) returns (r: Result<bool, BackendError>)
      modifies this`log, this`blocks, this`failAfter
      ensures Issued(SetBlock(pos, b), r.Success?)
      ensures r.Success? ==> r.value && blocks == old(blocks)[pos := b]
      ensures r.Failure? ==> r.error == CallRaised
    {
      var ok := Issue(SetBlock(pos, b));
      r := if ok then Success(true) else Failure(CallRaised);
    }

    /** `getBlockGlobal`: the stored block, air where nothing was placed. */
    method GetBlockGlobal(pos: Vec3) returns (r: Result<Block, BackendError>)
      modifies this`log, this`blocks, this`failAfter
      ensures Issued(GetBlock(pos), r.Success?)
      ensures r.Success? ==> r.value == if pos in blocks then blocks[pos] else Air
      ensures r.Failure? ==> r.error == CallRaised
    {
      var ok := Issue(GetBlock(pos));
      r := if !ok then Failure(CallRaised) else Success(if pos in blocks then blocks[pos] else Air);
    }

    /** `getBiomeGlobal`: the recorded biome, plains elsewhere. */
    method GetBiomeGlobal(pos: Vec3) returns (r: Result<string, BackendError>)
      modifies this`log, this`blocks, this`failAfter
      ensures Issued(GetBiome(pos), r.Success?)
      ensures r.Success? ==> r.value == if pos in biomes then biomes[pos] else DefaultBiome
      ensures r.Failure? ==> r.error == CallRaised
    {
      var ok := Issue(GetBiome(pos));
      r := if !ok then Failure(CallRaised) else Success(if pos in biomes then biomes[pos] else DefaultBiome);
    }

    /** `getBuildArea`: raises `BuildAreaNotSetError` when no build area is designated. */
    method GetBuildAreaBox() returns (r: Result<Box, BackendError>)
      modifies this`log, this`blocks, this`failAfter
      ensures Issued(GetBuildArea, r.Success? || r.error == BuildAreaNotSetError)
      ensures r.Success? <==> old(failAfter) != Some(0) && buildArea.Some?
      ensures r.Success? ==> r.value == buildArea.value
      ensures r.Failure? ==> (r.error == BuildAreaNotSetError <==> old(failAfter) != Some(0))
    {
      var ok := Issue(GetBuildArea);
      r := if !ok then Failure(CallRaised)
           else if buildArea.None? then Failure(BuildAreaNotSetError)
           else Success(buildArea.value);
    }

    /** What the backend answers to a command. */
    function RepliesTo(command: string): seq<Reply>
      reads this
    {
      if scriptedReplies.Some? then scriptedReplies.value
      else [Reply(true, Some("Executed command: " + command))]
    }

    /** `runCommandGlobal`. */
    method RunCommandGlobal(command: string) returns (r: Result<seq<Reply>, BackendError>)
      modifies this`log, this`blocks, this`failAfter
      ensures Issued(RunCommand(command), r.Success?)
      ensures r.Success? ==> r.value == RepliesTo(command)
      ensures r.Failure? ==> r.error == CallRaised
    {
      var ok := Issue(RunCommand(command));
      r := if ok then Success(RepliesTo(command)) else Failure(CallRaised);
    }

    /** `loadWorldSlice`: the backend's slice (the mock ignores the rectangle). */
    method LoadWorldSlice(rect: Rect) returns (r: Result<WorldSlice, BackendError>)
      modifies this`log, this`blocks, this`failAfter
      ensures Issued(LoadSlice(rect), r.Success?)
      ensures r.Success? ==> r.value == worldSlice
      ensures r.Failure? ==> r.error == CallRaised
    {
      var ok := Issue(LoadSlice(rect));
      r := if ok then Success(worldSlice) else Failure(CallRaised);
    }

    /** The connection check made as the editor starts; its outcome is the network's. */
    method CheckConnectionWith(outcome: ConnectionCheck) returns (r: ConnectionCheck)
      modifies this`log
      ensures r == outcome
      ensures log == old(log) + [Entry(CheckConnection, CurrentMode(), !outcome.Connected?)]
    {
      log := log + [Entry(CheckConnection, CurrentMode(), !outcome.Connected?)];
      r := outcome;
    }
  }
}
