/** What the loader and the engine report instead of a result. */
module Errors {

  datatype LoaderError =
    | HeaderTooSmall(path: string)
    | HeaderTooLarge(path: string, declared: nat, limit: nat)
    | InvalidHeader(path: string)
    | OffsetOverflow(path: string, tensor: string)
    | OutOfBounds(path: string, tensor: string, start: nat, end: nat, fileLen: nat)
    | UnsafeShardPath(raw: string)
    | TensorMissingFromShard(shardPath: string, tensor: string)
    | TensorMissingFromIndex(shardPath: string, tensor: string)
    | DuplicateTensorName(tensor: string, firstPath: string, secondPath: string)
    | TensorNotFound(tensor: string)
    | BlockNotFound(blockId: string)
    | BlockFromDifferentModel(blockId: string)
    | DestinationTooSmall(needed: nat, got: nat)

  datatype EngineError =
    | LoaderFailed(error: LoaderError)
    | BudgetExceeded(needed: nat, budget: nat)
    | UnsupportedDtype(name: string, dtype: string)
    | UnknownBlock(id: string)
}
