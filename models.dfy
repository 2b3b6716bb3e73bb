/** Request models of the bridge (src/gdmc_mcp/models.py): validated constructors,
    `to_dict` serialisers that drop unset fields, and conversions to gdpc values. */
module Models {
  import opened Types

  /** A serialised field value, as it appears in a `to_dict` result. */
  datatype Value =
    | VStr(s: string)
    | VInt(i: int)
    | VBool(b: bool)
    | VReal(r: real)
    | VCoords(coords: seq<int>)
    | VStates(states: map<string, string>)
    | VChunk(cx: int, cz: int)

  type Dict = map<string, Value>

  /** A pydantic validation failure, naming the fields that were rejected, in declaration order. */
  datatype ValidationError = ValidationError(fields: seq<string>)

  // ---------------------------------------------------------------- BlockData

  datatype BlockData = BlockData(id: string, states: Option<map<string, string>>, data: Option<string>)

  /** `BlockData.to_dict`: the dumped fields whose value is not None. */
  function BlockToDict(b: BlockData): (d: Dict)
    ensures "id" in d && d["id"] == VStr(b.id)
    ensures "states" in d <==> b.states.Some?
    ensures b.states.Some? ==> d["states"] == VStates(b.states.value)
    ensures "data" in d <==> b.data.Some?
    ensures b.data.Some? ==> d["data"] == VStr(b.data.value)
    ensures d.Keys <= {"id", "states", "data"}
  {
    map["id" := VStr(b.id)]
    + (if b.states.Some? then map["states" := VStates(b.states.value)] else map[])
    + (if b.data.Some? then map["data" := VStr(b.data.value)] else map[])
  }

  /** `BlockData(**d)`: rebuilding the model from a dictionary; absent optional keys become None. */
  function BlockFromDict(d: Dict): Option<BlockData>
  {
    if "id" !in d || !d["id"].VStr? then None
    else if "states" in d && !d["states"].VStates? then None
    else if "data" in d && !d["data"].VStr? then None
    else Some(BlockData(
      d["id"].s,
      if "states" in d then Some(d["states"].states) else None,
      if "data" in d then Some(d["data"].s) else None))
  }

  /** Dropping the None fields loses nothing: the model is rebuilt exactly. */
  lemma BlockDictRoundTrip(b: BlockData)
    ensures BlockFromDict(BlockToDict(b)) == Some(b)
  {
    var d := BlockToDict(b);
    assert "id" in d && d["id"] == VStr(b.id);
  }

  /** `BlockData.to_block`: `Block(id, states, data)`; gdpc stores absent states as an empty map. */
  function ToBlock(b: BlockData): (r: Block)
    ensures r.id == b.id && r.data == b.data
    ensures b.states.Some? ==> r.states == b.states.value
    ensures b.states.None? ==> r.states == map[]
  {
    Block(b.id, if b.states.Some? then b.states.value else map[], b.data)
  }

  // ---------------------------------------------------------------- Vec3iInput

  datatype Vec3iInput = Vec3iInput(coords: seq<int>)
  {
    predicate Valid() { |coords| == 3 }

    /** `to_ivec3`. */
    function ToIvec3(): Vec3
      requires Valid()
    {
      Vec3(coords[0], coords[1], coords[2])
    }

    /** `to_tuple`. */
    function ToTuple(): (int, int, int)
      requires Valid()
    {
      (coords[0], coords[1], coords[2])
    }
  }

  /** Construction with the `check_length` validator: exactly three coordinates. */
  function NewVec3iInput(coords: seq<int>): Result<Vec3iInput, ValidationError>
  {
    if |coords| == 3 then Success(Vec3iInput(coords)) else Failure(ValidationError(["coords"]))
  }

  lemma Vec3iAcceptedIff(coords: seq<int>)
    ensures NewVec3iInput(coords).Success? <==> |coords| == 3
    ensures NewVec3iInput(coords).Success? ==> NewVec3iInput(coords).value.Valid()
    ensures NewVec3iInput(coords).Failure? ==> NewVec3iInput(coords).error.fields == ["coords"]
  {
  }

  /** Both conversions return the three coordinates unchanged and in order. */
  lemma Vec3iConversionsPreserve(coords: seq<int>)
    requires NewVec3iInput(coords).Success?
    ensures NewVec3iInput(coords).value.ToIvec3().ToList() == coords
    ensures var t := NewVec3iInput(coords).value.ToTuple(); [t.0, t.1, t.2] == coords
  {
  }

  /** A vector survives the trip to a coordinate list and back. */
  lemma Vec3RoundTrip(v: Vec3)
    ensures NewVec3iInput(v.ToList()).Success?
    ensures NewVec3iInput(v.ToList()).value.ToIvec3() == v
  {
  }

  // ---------------------------------------------------------------- EntityData

  datatype EntityData = EntityData(id: string, pos: Vec3iInput, nbt: Option<string>)

  /** Python truthiness of an optional string: present and non-empty. */
  predicate Truthy(s: Option<string>) { s.Some? && s.value != "" }

  /** `EntityData.to_dict`: `id` and `pos` always, `nbt` only when truthy. */
  function EntityToDict(e: EntityData): (d: Dict)
    ensures "id" in d && d["id"] == VStr(e.id)
    ensures "pos" in d && d["pos"] == VCoords(e.pos.coords)
    ensures "nbt" in d <==> Truthy(e.nbt)
    ensures "nbt" in d ==> d["nbt"] == VStr(e.nbt.value)
    ensures d.Keys <= {"id", "pos", "nbt"}
  {
    map["id" := VStr(e.id), "pos" := VCoords(e.pos.coords)]
    + (if Truthy(e.nbt) then map["nbt" := VStr(e.nbt.value)] else map[])
  }

  function EntityFromDict(d: Dict): Option<EntityData>
  {
    if "id" !in d || !d["id"].VStr? || "pos" !in d || !d["pos"].VCoords? then None
    else if "nbt" in d && !d["nbt"].VStr? then None
    else Some(EntityData(d["id"].s, Vec3iInput(d["pos"].coords),
                         if "nbt" in d then Some(d["nbt"].s) else None))
  }

  /** The dictionary rebuilds the entity exactly unless `nbt` was the empty string,
      which the truthiness test drops. */
  lemma EntityDictRoundTrip(e: EntityData)
    ensures EntityFromDict(EntityToDict(e)) == Some(e) <==> e.nbt != Some("")
  {
    var d := EntityToDict(e);
    assert "id" in d && "pos" in d;
    if e.nbt == Some("") {
      assert "nbt" !in d;
      assert EntityFromDict(d).value.nbt == None;
    }
  }

  // ---------------------------------------------------------------- StructureData

  datatype StructureData = StructureData(
    name: string,
    position: Vec3iInput,
    rotation: Option<int>,
    mirror: Option<bool>,
    integrity: Option<real>,
    seed: Option<int>)

  /** Construction with the field constraint `0.0 <= integrity <= 1.0`; rotation is not range-checked. */
  function NewStructureData(name: string, position: Vec3iInput, rotation: Option<int>, mirror: Option<bool>,
                            integrity: Option<real>, seed: Option<int>): Result<StructureData, ValidationError>
  {
    if integrity.Some? && !(0.0 <= integrity.value <= 1.0) then Failure(ValidationError(["integrity"]))
    else Success(StructureData(name, position, rotation, mirror, integrity, seed))
  }

  lemma StructureAcceptedIff(name: string, position: Vec3iInput, rotation: Option<int>, mirror: Option<bool>,
                             integrity: Option<real>, seed: Option<int>)
    ensures var r := NewStructureData(name, position, rotation, mirror, integrity, seed);
      (r.Success? <==> (integrity.None? || 0.0 <= integrity.value <= 1.0))
      && (r.Success? ==> r.value == StructureData(name, position, rotation, mirror, integrity, seed))
  {
  }

  /** `StructureData.to_dict`: `name`, `position` always; each option iff it is not None
      (so `mirror = false` and `rotation = 0` are kept). */
  function StructureToDict(s: StructureData): (d: Dict)
    ensures "name" in d && d["name"] == VStr(s.name)
    ensures "position" in d && d["position"] == VCoords(s.position.coords)
    ensures "rotation" in d <==> s.rotation.Some?
    ensures "mirror" in d <==> s.mirror.Some?
    ensures "integrity" in d <==> s.integrity.Some?
    ensures "seed" in d <==> s.seed.Some?
    ensures s.mirror.Some? ==> d["mirror"] == VBool(s.mirror.value)
    ensures d.Keys <= {"name", "position", "rotation", "mirror", "integrity", "seed"}
  {
    map["name" := VStr(s.name), "position" := VCoords(s.position.coords)]
    + (if s.rotation.Some? then map["rotation" := VInt(s.rotation.value)] else map[])
    + (if s.mirror.Some? then map["mirror" := VBool(s.mirror.value)] else map[])
    + (if s.integrity.Some? then map["integrity" := VReal(s.integrity.value)] else map[])
    + (if s.seed.Some? then map["seed" := VInt(s.seed.value)] else map[])
  }

  function StructureFromDict(d: Dict): Option<StructureData>
  {
    if "name" !in d || !d["name"].VStr? || "position" !in d || !d["position"].VCoords? then None
    else if "rotation" in d && !d["rotation"].VInt? then None
    else if "mirror" in d && !d["mirror"].VBool? then None
    else if "integrity" in d && !d["integrity"].VReal? then None
    else if "seed" in d && !d["seed"].VInt? then None
    else Some(StructureData(
      d["name"].s, Vec3iInput(d["position"].coords),
      if "rotation" in d then Some(d["rotation"].i) else None,
      if "mirror" in d then Some(d["mirror"].b) else None,
      if "integrity" in d then Some(d["integrity"].r) else None,
      if "seed" in d then Some(d["seed"].i) else None))
  }

  lemma StructureDictRoundTrip(s: StructureData)
    ensures StructureFromDict(StructureToDict(s)) == Some(s)
  {
    var d := StructureToDict(s);
    assert "name" in d && "position" in d;
  }

  // ---------------------------------------------------------------- HeightmapData

  /** The four heightmap types Minecraft offers. */
  const HeightmapTypes: seq<string> := ["WORLD_SURFACE", "MOTION_BLOCKING", "MOTION_BLOCKING_NO_LEAVES", "OCEAN_FLOOR"]

  predicate IsHeightmapType(t: string) { t in HeightmapTypes }

  datatype ChunkPosition = ChunkPosition(x: int, z: int)

  datatype HeightmapData = HeightmapData(kind: string, position: Option<Vec3iInput>, chunk: Option<ChunkPosition>)

  /** Construction with the `validate_heightmap_type` validator. */
  function NewHeightmapData(kind: string, position: Option<Vec3iInput>, chunk: Option<ChunkPosition>)
    : Result<HeightmapData, ValidationError>
  {
    if IsHeightmapType(kind) then Success(HeightmapData(kind, position, chunk))
    else Failure(ValidationError(["type"]))
  }

  lemma HeightmapAcceptedIff(kind: string, position: Option<Vec3iInput>, chunk: Option<ChunkPosition>)
    ensures NewHeightmapData(kind, position, chunk).Success?
      <==> (kind == "WORLD_SURFACE" || kind == "MOTION_BLOCKING"
            || kind == "MOTION_BLOCKING_NO_LEAVES" || kind == "OCEAN_FLOOR")
  {
  }

  /** `HeightmapData.to_dict`: `type` always, `position` and `chunk` only when set. */
  function HeightmapToDict(h: HeightmapData): (d: Dict)
    ensures "type" in d && d["type"] == VStr(h.kind)
    ensures "position" in d <==> h.position.Some?
    ensures h.position.Some? ==> d["position"] == VCoords(h.position.value.coords)
    ensures "chunk" in d <==> h.chunk.Some?
    ensures h.chunk.Some? ==> d["chunk"] == VChunk(h.chunk.value.x, h.chunk.value.z)
    ensures d.Keys <= {"type", "position", "chunk"}
  {
    map["type" := VStr(h.kind)]
    + (if h.position.Some? then map["position" := VCoords(h.position.value.coords)] else map[])
    + (if h.chunk.Some? then map["chunk" := VChunk(h.chunk.value.x, h.chunk.value.z)] else map[])
  }

  // ---------------------------------------------------------------- TerrainAnalysisRequest

  const AnalysisTypes: seq<string> := ["heightmap", "biomes", "water", "trees", "ores", "caves", "structures"]

  const DefaultAnalysisTypes: seq<string> := ["heightmap", "biomes", "water", "trees"]

  datatype TerrainAnalysisRequest = TerrainAnalysisRequest(area: Option<seq<Vec3iInput>>, analysisTypes: seq<string>)

  predicate AreaOk(area: Option<seq<Vec3iInput>>) { area.None? || |area.value| == 2 }

  predicate TypesOk(ts: seq<string>) { forall i :: 0 <= i < |ts| ==> ts[i] in AnalysisTypes }

  /** Construction with both field validators; `analysisTypes = None` selects the default list.
      Pydantic reports every failing field, in declaration order. */
  function NewTerrainAnalysisRequest(area: Option<seq<Vec3iInput>>, analysisTypes: Option<seq<string>>)
    : Result<TerrainAnalysisRequest, ValidationError>
  {
    var ts := if analysisTypes.Some? then analysisTypes.value else DefaultAnalysisTypes;
    var bad := (if AreaOk(area) then [] else ["area"]) + (if TypesOk(ts) then [] else ["analysis_types"]);
    if bad == [] then Success(TerrainAnalysisRequest(area, ts)) else Failure(ValidationError(bad))
  }

  lemma TerrainRequestAcceptedIff(area: Option<seq<Vec3iInput>>, analysisTypes: Option<seq<string>>)
    ensures var r := NewTerrainAnalysisRequest(area, analysisTypes);
      && (r.Success? <==> (area.None? || |area.value| == 2)
                          && (analysisTypes.Some? ==> forall t :: t in analysisTypes.value ==> t in AnalysisTypes))
      && (r.Success? && analysisTypes.None? ==> r.value.analysisTypes == ["heightmap", "biomes", "water", "trees"])
      && (r.Success? ==> r.value.area == area)
      && (r.Failure? ==> ("area" in r.error.fields <==> !AreaOk(area)))
  {
    var ts := if analysisTypes.Some? then analysisTypes.value else DefaultAnalysisTypes;
    assert TypesOk(DefaultAnalysisTypes);
    assert TypesOk(ts) <==> forall t :: t in ts ==> t in AnalysisTypes by {
      if TypesOk(ts) {
        forall t | t in ts ensures t in AnalysisTypes {
          var i :| 0 <= i < |ts| && ts[i] == t;
        }
      }
    }
  }
}
