/** Wire and storage vocabulary shared by the proxy and its clients
    (internal/contracts/contracts.go).  Times and durations are integers; JSON
    round trips are the identity, so JSON equality is datatype equality. */
module Contracts {

  datatype Option<+T> = None | Some(value: T)

  type RequestId = string
  type ClientId = string
  type ProxyId = string
  type Token = string
  type Bytes = seq<bv8>

  /** The proxy derives delivery IDs from a prefix and an ID ("accept_" + id,
      "result_" + id, "control_" + id, "wdel_" + random); each prefix is a constructor. */
  datatype DeliveryId =
    | AcceptanceOf(request: RequestId)
    | ResultOf(request: RequestId)
    | ControlOf(command: string)
    | WebhookDelivery(nonce: string)

  function WireId(id: DeliveryId): (wire: string)
  {
    match id
    case AcceptanceOf(r) => "accept_" + r
    case ResultOf(r) => "result_" + r
    case ControlOf(c) => "control_" + c
    case WebhookDelivery(n) => "wdel_" + n
  }

  /** The prefixes keep IDs of different kinds, and of different requests, apart. */
  lemma WireIdInjective(a: DeliveryId, b: DeliveryId)
    ensures WireId(a) == WireId(b) <==> a == b
  {
    if WireId(a) == WireId(b) {
      var w := WireId(a);
      assert w[0] == WireId(b)[0];
      match a {
        case AcceptanceOf(r) => assert w[7..] == r; assert b.AcceptanceOf? ==> w[7..] == b.request;
        case ResultOf(r) => assert w[7..] == r; assert b.ResultOf? ==> w[7..] == b.request;
        case ControlOf(c) => assert w[8..] == c; assert b.ControlOf? ==> w[8..] == b.command;
        case WebhookDelivery(n) => assert w[5..] == n; assert b.WebhookDelivery? ==> w[5..] == b.nonce;
      }
    }
  }

  datatype HeaderField = HeaderField(name: string, value: string)

  datatype RetryPolicy = RetryPolicy(
    maxAttempts: int, initialBackoff: int, maxBackoff: int,
    retryStatuses: seq<int>, retryNetworkFail: bool, idempotent: bool)

  datatype HttpRequest = HttpRequest(
    requestId: RequestId, clientId: ClientId, proxyId: ProxyId,
    httpMethod: string, url: string, headers: seq<HeaderField>, body: Bytes,
    timeout: int, retry: RetryPolicy, createdAt: int, traceParent: string)

  /** The `accepted` flag selects the constructor; only an acceptance names a delivery. */
  datatype Acceptance =
    | Accepted(requestId: RequestId, deliveryId: DeliveryId, proxyId: ProxyId, acceptedAt: int)
    | Rejected(requestId: RequestId, proxyId: ProxyId, errorCode: string)

  datatype DeliveryAck = DeliveryAck(requestId: RequestId, deliveryId: DeliveryId, clientId: ClientId)

  datatype ResultState = HttpCompleted | OutcomeUnknown

  datatype HttpResult = HttpResult(
    resultId: DeliveryId, requestId: RequestId, proxyId: ProxyId, state: ResultState,
    statusCode: int, headers: seq<HeaderField>, body: Bytes,
    errorCode: string, error: string, attempts: int, completedAt: int)

  /** A transaction either commits a new state or rolls back with an error. */
  datatype TxError =
    | RequestConflict | NotFound | AckMismatch | OwnershipLost | NoPermit
    | ResponseConflict | SchemaViolation | Unsupported
  datatype Tx<+S> = Commit(state: S) | Rollback(error: TxError)

  /** What the caller of a transaction observes.  A commit can succeed on the server
      while the caller is told that it failed. */
  datatype Report = Reported | NotCommitted | CommittedUnreported

  function Durable<S>(before: S, tx: Tx<S>, report: Report): S
  {
    if tx.Commit? && report != NotCommitted then tx.state else before
  }

  predicate Seen<S>(tx: Tx<S>, report: Report)
  {
    tx.Commit? && report == Reported
  }
}
