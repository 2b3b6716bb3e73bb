/** The errors the bridge's tools and resources report. The bridge raises them as Python
    exceptions with a message; the model keeps the case apart and drops the wording. */
module Errors {

  /** The handler that wraps a backend failure as "Failed to <operation>: ...". */
  datatype Op =
    | PlaceBlockOp | RunCommandOp | PlaceCuboidOp | PlaceEntitiesOp | PlaceStructureOp
    | GetBuildAreaOp | GetBlockOp | GetBiomeOp | GetHeightOp

  /** What went wrong underneath a wrapped or propagated error. */
  datatype Cause =
    | BackendRaised          // the gdpc call raised
    | OutsideLoadedWorld     // `minecraft:void_air` or an empty biome id
    | HeightmapNotAvailable  // the heightmap key is missing from the slice (KeyError)
    | OutsideHeightmap       // the index lies outside the heightmap array (IndexError)
    | EmptyHeightmap         // a statistic over an empty heightmap (numpy ValueError)
    | ZeroArea               // a coverage ratio over a rectangle of area zero (ZeroDivisionError)
    | NoBuildArea            // gdpc's BuildAreaNotSetError, not caught
    | NotAnEditor            // a tutorial tool's lifespan value is None or not an editor (AttributeError)
    | MissingRunSync         // `asyncio.to_thread` has no attribute `run_sync` (AttributeError)

  datatype ToolError =
    | EditorNotFound                  // "GDPC Editor not found in lifespan context."
    | InvalidEditorType(typeName: string)
    | ContextNotAvailable             // "GDPC Editor context is not available."
    | InvalidEntityCount(count: nat)  // the 1..50 bound on `entities`
    | InvalidHeightmapType(kind: string)
    | BuildAreaNotSet
    | Failed(op: Op, cause: Cause)    // a failure wrapped by a handler
    | ContextRequired                 // a tutorial tool called without a request context
    | Raised(cause: Cause)            // a failure that propagates unwrapped
}
