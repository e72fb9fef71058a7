/** One row of the client's operation table and the store calls on it
    (client/postgres_store.go; MarkAccepted of client/memory_store.go for comparison). */
module ClientOperation {
  import opened Contracts

  datatype OpState = Outgoing | AcceptedState | ResultSaved | Complete
  datatype StoredOperation = StoredOperation(request: HttpRequest, result: Option<HttpResult>, state: OpState)

  predicate SameRequest(left: HttpRequest, right: HttpRequest)
  {
    left.(createdAt := right.createdAt, timeout := right.timeout) == right
  }

  predicate IsSuccess(r: HttpResult) { r.state == HttpCompleted }

  function NewOperation(request: HttpRequest): StoredOperation
  {
    StoredOperation(request, None, Outgoing)
  }

  /** PostgresStore.MarkAccepted: only `outgoing` moves. */
  function MarkAccepted(op: StoredOperation): StoredOperation
  {
    if op.state == Outgoing then op.(state := AcceptedState) else op
  }

  /** MemoryStore.MarkAccepted: any state is overwritten. */
  function MarkAcceptedInMemory(op: StoredOperation): StoredOperation
  {
    op.(state := AcceptedState)
  }

  /** A late unknown outcome does not replace a saved success. */
  predicate Superseded(op: StoredOperation, r: HttpResult)
  {
    op.result.Some? && IsSuccess(op.result.value) && !IsSuccess(r)
  }

  function SaveResult(op: StoredOperation, r: HttpResult): StoredOperation
  {
    if Superseded(op, r) then op else op.(result := Some(r), state := ResultSaved)
  }

  /** The value SaveResult returns to its caller. */
  function Effective(op: StoredOperation, r: HttpResult): HttpResult
  {
    if Superseded(op, r) then op.result.value else r
  }

  function MarkComplete(op: StoredOperation): StoredOperation
  {
    op.(state := Complete)
  }

  /** start answers from the store instead of running the protocol. */
  predicate AnsweredFromStore(op: StoredOperation)
  {
    op.state == Complete && op.result.Some?
  }
}
