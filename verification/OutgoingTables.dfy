/** The part of `proxy_http_requests` and `proxy_deliveries` that belongs to one request,
    and every transaction of internal/repository/outgoing.go and maintenance.go on it. */
module OutgoingTables {
  import opened Contracts

  datatype Status =
    | AwaitingAcceptanceAck | Ready | Reserved | Dispatching | RetryWait
    | Completed | Unknown | ResultDelivered

  datatype Row = Row(
    client: ClientId, proxy: ProxyId, request: HttpRequest, status: Status,
    attempts: nat, nextAttemptAt: int, leaseUntil: Option<int>, token: Option<Token>,
    result: Option<HttpResult>, lastError: string, createdAt: int)

  datatype Kind = AcceptanceKind | ResultKind
  datatype Payload = AcceptancePayload(acceptance: Acceptance) | ResultPayload(result: HttpResult)

  datatype Delivery = Delivery(
    kind: Kind, client: ClientId, requestId: RequestId, payload: Payload,
    attempts: nat, nextAttemptAt: int, leaseUntil: Option<int>, acknowledgedAt: Option<int>)

  datatype Entry = Entry(row: Option<Row>, acceptance: Option<Delivery>, result: Option<Delivery>)

  const EMPTY_ENTRY := Entry(None, None, None)

  predicate Finished(s: Status) { s == Completed || s == Unknown || s == ResultDelivered }
  predicate Queued(s: Status) { s == Ready || s == RetryWait || s == Reserved }

  // ---- row and delivery edits ----

  function NewRow(request: HttpRequest, now: int): Row
  {
    Row(request.clientId, request.proxyId, request, AwaitingAcceptanceAck, 0, now, None, None, None, "", now)
  }

  function NewDelivery(kind: Kind, client: ClientId, id: RequestId, payload: Payload, now: int): Delivery
  {
    Delivery(kind, client, id, payload, 0, now, None, None)
  }

  function Reopened(d: Delivery, now: int): Delivery
  {
    d.(acknowledgedAt := None, nextAttemptAt := now, leaseUntil := None)
  }

  function Acknowledged(d: Delivery, now: int): Delivery
  {
    d.(acknowledgedAt := if d.acknowledgedAt.Some? then d.acknowledgedAt else Some(now), leaseUntil := None)
  }

  function MapDelivery(d: Option<Delivery>, f: Delivery -> Delivery): Option<Delivery>
  {
    if d.Some? then Some(f(d.value)) else None
  }

  function OrInsert(d: Option<Delivery>, inserted: Delivery): Option<Delivery>
  {
    if d.Some? then d else Some(inserted)
  }

  predicate SameHttpRequest(stored: HttpRequest, incoming: HttpRequest)
  {
    stored.(createdAt := 0) == incoming.(createdAt := 0)
  }

  predicate SameOwner(row: Row, request: HttpRequest)
  {
    row.client == request.clientId && row.proxy == request.proxyId && SameHttpRequest(row.request, request)
  }

  predicate Owns(e: Entry, s: Status, token: Token)
  {
    e.row.Some? && e.row.value.status == s && e.row.value.token == Some(token)
  }

  predicate Stale(row: Row, now: int)
  {
    row.leaseUntil.Some? && row.leaseUntil.value < now
  }

  // ---- transactions ----

  function AcceptHttpRequest(e: Entry, request: HttpRequest, acceptance: Acceptance, now: int): Tx<Entry>
  {
    var inserted := NewDelivery(AcceptanceKind, request.clientId, request.requestId, AcceptancePayload(acceptance),
                                now);
    if e.row.None? then
      Commit(e.(row := Some(NewRow(request, now)), acceptance := OrInsert(e.acceptance, inserted)))
    else if !SameOwner(e.row.value, request) then
      Rollback(RequestConflict)
    else
      var reopen := d => Reopened(d, now);
      Commit(e.(acceptance := OrInsert(MapDelivery(e.acceptance, reopen), inserted),
                result := MapDelivery(e.result, reopen)))
  }

  function ConfirmAcceptance(e: Entry, client: ClientId, now: int): Tx<Entry>
  {
    if e.acceptance.None? then Rollback(NotFound)
    else if e.acceptance.value.client != client then Rollback(AckMismatch)
    else
      var row := if e.row.Some? && e.row.value.status == AwaitingAcceptanceAck
                 then Some(e.row.value.(status := Ready)) else e.row;
      Commit(e.(row := row, acceptance := Some(Acknowledged(e.acceptance.value, now))))
  }

  predicate Due(row: Row, now: int)
  {
    (row.status == Ready || row.status == RetryWait) && row.nextAttemptAt <= now
  }

  function Reserve(e: Entry, token: Token, now: int, lease: int): Tx<Entry>
  {
    if e.row.None? || !Due(e.row.value, now) then Rollback(NotFound)
    else Commit(e.(row := Some(e.row.value.(status := Reserved, token := Some(token),
                                            leaseUntil := Some(now + lease)))))
  }

  function BeginDispatch(e: Entry, token: Token, now: int, lease: int): Tx<Entry>
  {
    if !Owns(e, Reserved, token) then Rollback(OwnershipLost)
    else
      var r := e.row.value;
      Commit(e.(row := Some(r.(status := Dispatching, attempts := r.attempts + 1, leaseUntil := Some(now + lease)))))
  }

  function ReleaseReserved(e: Entry, token: Token): Tx<Entry>
  {
    if !Owns(e, Reserved, token) then Commit(e)
    else Commit(e.(row := Some(e.row.value.(status := Ready, token := None, leaseUntil := None))))
  }

  function StatusOf(result: HttpResult): Status
  {
    if result.state == OutcomeUnknown then Unknown else Completed
  }

  function SaveHttpResult(e: Entry, token: Token, client: ClientId, result: HttpResult, now: int): Tx<Entry>
  {
    var inserted := NewDelivery(ResultKind, client, result.requestId, ResultPayload(result), now);
    if Owns(e, Dispatching, token) then
      var row := e.row.value.(status := StatusOf(result), result := Some(result), token := None, leaseUntil := None);
      Commit(e.(row := Some(row), result := OrInsert(e.result, inserted)))
    else if e.row.None? then Rollback(NotFound)
    else if !Finished(e.row.value.status) then Rollback(OwnershipLost)
    else Commit(e.(result := OrInsert(e.result, inserted)))
  }

  function ScheduleRetry(e: Entry, token: Token, reason: string, next: int): Tx<Entry>
  {
    if !Owns(e, Dispatching, token) then Rollback(OwnershipLost)
    else Commit(e.(row := Some(e.row.value.(status := RetryWait, lastError := reason, nextAttemptAt := next,
                                            token := None, leaseUntil := None))))
  }

  function ConfirmResult(e: Entry, client: ClientId, now: int): Tx<Entry>
  {
    if e.result.None? then Rollback(NotFound)
    else if e.result.value.client != client then Rollback(AckMismatch)
    else
      var row := if e.row.Some? && (e.row.value.status == Completed || e.row.value.status == Unknown)
                 then Some(e.row.value.(status := ResultDelivered)) else e.row;
      Commit(e.(row := row, result := Some(Acknowledged(e.result.value, now))))
  }

  function LostResult(id: RequestId, row: Row, completedAt: int): HttpResult
  {
    HttpResult(ResultOf(id), id, row.proxy, OutcomeUnknown, 0, [], [],
               "proxy_restarted_during_http", "HTTP outcome could not be recovered", row.attempts, completedAt)
  }

  /** RecoverExpiredDispatches restricted to one request. */
  function Recover(id: RequestId, e: Entry, now: int, completedAt: int): Entry
  {
    if e.row.None? || !Stale(e.row.value, now) then e
    else
      var r := e.row.value;
      if r.status == Reserved then
        e.(row := Some(r.(status := Ready, token := None, leaseUntil := None)))
      else if r.status == Dispatching then
        var lost := LostResult(id, r, completedAt);
        Entry(Some(r.(status := Unknown, result := Some(lost), lastError := lost.error, token := None,
                      leaseUntil := None)),
              e.acceptance,
              OrInsert(e.result, NewDelivery(ResultKind, r.client, id, ResultPayload(lost), now)))
      else e
  }
}
