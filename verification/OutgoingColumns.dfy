/** What each transaction of internal/repository/outgoing.go and maintenance.go does to the columns
    of the two tables: when it commits, which columns it writes, and that it writes no other.  The
    laws speak of columns and of the fields of a request alone. */
module OutgoingColumns {
  import opened Contracts
  import opened OutgoingTables

  /** The row belongs to the sender of the request, and every field but `createdAt` is the stored one. */
  predicate StoredAs(row: Row, r: HttpRequest)
  {
    var q := row.request;
    && row.client == r.clientId && row.proxy == r.proxyId
    && q.requestId == r.requestId && q.clientId == r.clientId && q.proxyId == r.proxyId
    && q.httpMethod == r.httpMethod && q.url == r.url && q.headers == r.headers && q.body == r.body
    && q.timeout == r.timeout && q.retry == r.retry && q.traceParent == r.traceParent
  }

  /** A row just inserted for the request. */
  predicate InsertedRow(row: Row, r: HttpRequest, now: int)
  {
    && row.client == r.clientId && row.proxy == r.proxyId && row.request == r
    && row.status == AwaitingAcceptanceAck && row.attempts == 0 && row.nextAttemptAt == now && row.createdAt == now
    && row.leaseUntil.None? && row.token.None? && row.result.None? && row.lastError == ""
  }

  /** A delivery just inserted: open, due, never tried. */
  predicate InsertedDelivery(d: Delivery, kind: Kind, client: ClientId, id: RequestId, payload: Payload, now: int)
  {
    && d.kind == kind && d.client == client && d.requestId == id && d.payload == payload
    && d.attempts == 0 && d.nextAttemptAt == now && d.leaseUntil.None? && d.acknowledgedAt.None?
  }

  /** The columns that no handshake changes. */
  predicate SameDelivery(a: Delivery, b: Delivery)
  {
    b.kind == a.kind && b.client == a.client && b.requestId == a.requestId && b.payload == a.payload
    && b.attempts == a.attempts
  }

  /** The columns of a row that no transaction changes. */
  predicate SameRequestColumns(a: Row, b: Row)
  {
    b.client == a.client && b.proxy == a.proxy && b.request == a.request && b.createdAt == a.createdAt
  }

  predicate SameProgressColumns(a: Row, b: Row)
  {
    b.nextAttemptAt == a.nextAttemptAt && b.result == a.result && b.lastError == a.lastError
  }

  predicate IsAcknowledged(before: Delivery, after: Delivery, now: int)
  {
    && SameDelivery(before, after) && after.nextAttemptAt == before.nextAttemptAt && after.leaseUntil.None?
    && after.acknowledgedAt == (if before.acknowledgedAt.Some? then before.acknowledgedAt else Some(now))
  }

  predicate IsReopened(before: Delivery, after: Delivery, now: int)
  {
    SameDelivery(before, after) && after.acknowledgedAt.None? && after.nextAttemptAt == now && after.leaseUntil.None?
  }

  /** A request is accepted if and only if its ID is new or it repeats the stored request in every
      field but `createdAt`.  A repetition leaves the row alone and reopens both handshakes. */
  lemma AcceptColumns(e: Entry, r: HttpRequest, a: Acceptance, now: int)
    ensures var tx := AcceptHttpRequest(e, r, a, now);
            && (tx.Commit? <==> e.row.None? || StoredAs(e.row.value, r))
            && (tx.Rollback? ==> tx.error == RequestConflict)
            && (tx.Commit? ==>
                  && tx.state.row.Some? && tx.state.acceptance.Some?
                  && (e.row.Some? ==> tx.state.row == e.row)
                  && (e.row.None? ==> InsertedRow(tx.state.row.value, r, now) && tx.state.result == e.result)
                  && (e.acceptance.None? ==>
                        InsertedDelivery(tx.state.acceptance.value, AcceptanceKind, r.clientId, r.requestId,
                                         AcceptancePayload(a), now))
                  && (e.row.None? && e.acceptance.Some? ==> tx.state.acceptance == e.acceptance)
                  && (e.row.Some? ==>
                        && (e.acceptance.Some? ==> IsReopened(e.acceptance.value, tx.state.acceptance.value, now))
                        && (tx.state.result.Some? <==> e.result.Some?)
                        && (e.result.Some? ==> IsReopened(e.result.value, tx.state.result.value, now))))
  {
  }

  /** An acknowledgement of the acceptance counts if and only if it comes from the delivery's client;
      it closes that delivery and makes a waiting row ready. */
  lemma ConfirmAcceptanceColumns(e: Entry, c: ClientId, now: int)
    ensures var tx := ConfirmAcceptance(e, c, now);
            && (tx.Commit? <==> e.acceptance.Some? && e.acceptance.value.client == c)
            && (tx.Rollback? ==> tx.error == if e.acceptance.None? then NotFound else AckMismatch)
            && (tx.Commit? ==>
                  && tx.state.acceptance.Some? && IsAcknowledged(e.acceptance.value, tx.state.acceptance.value, now)
                  && tx.state.result == e.result && (tx.state.row.Some? <==> e.row.Some?)
                  && (e.row.Some? ==>
                        var a, b := e.row.value, tx.state.row.value;
                        && b.status == (if a.status == AwaitingAcceptanceAck then Ready else a.status)
                        && SameRequestColumns(a, b) && SameProgressColumns(a, b)
                        && b.attempts == a.attempts && b.token == a.token && b.leaseUntil == a.leaseUntil))
  {
  }

  /** The same for the result; a finished row becomes delivered. */
  lemma ConfirmResultColumns(e: Entry, c: ClientId, now: int)
    ensures var tx := ConfirmResult(e, c, now);
            && (tx.Commit? <==> e.result.Some? && e.result.value.client == c)
            && (tx.Rollback? ==> tx.error == if e.result.None? then NotFound else AckMismatch)
            && (tx.Commit? ==>
                  && tx.state.result.Some? && IsAcknowledged(e.result.value, tx.state.result.value, now)
                  && tx.state.acceptance == e.acceptance && (tx.state.row.Some? <==> e.row.Some?)
                  && (e.row.Some? ==>
                        var a, b := e.row.value, tx.state.row.value;
                        && b.status == (if a.status in {Completed, Unknown} then ResultDelivered else a.status)
                        && SameRequestColumns(a, b) && SameProgressColumns(a, b)
                        && b.attempts == a.attempts && b.token == a.token && b.leaseUntil == a.leaseUntil))
  {
  }

  /** A row can be reserved if and only if it is queued and due. */
  lemma ReserveColumns(e: Entry, token: Token, now: int, lease: int)
    ensures var tx := Reserve(e, token, now, lease);
            && (tx.Commit? <==>
                  e.row.Some? && e.row.value.status in {Ready, RetryWait} && e.row.value.nextAttemptAt <= now)
            && (tx.Commit? ==>
                  && tx.state.acceptance == e.acceptance && tx.state.result == e.result && tx.state.row.Some?
                  && var a, b := e.row.value, tx.state.row.value;
                  && b.status == Reserved && b.token == Some(token) && b.leaseUntil == Some(now + lease)
                  && b.attempts == a.attempts && SameRequestColumns(a, b) && SameProgressColumns(a, b))
  {
  }

  /** The fence opens if and only if the row is still reserved under the token, and uses up an attempt. */
  lemma FenceColumns(e: Entry, token: Token, now: int, lease: int)
    ensures var tx := BeginDispatch(e, token, now, lease);
            && (tx.Commit? <==> e.row.Some? && e.row.value.status == Reserved && e.row.value.token == Some(token))
            && (tx.Rollback? ==> tx.error == OwnershipLost)
            && (tx.Commit? ==>
                  && tx.state.acceptance == e.acceptance && tx.state.result == e.result && tx.state.row.Some?
                  && var a, b := e.row.value, tx.state.row.value;
                  && b.status == Dispatching && b.token == Some(token) && b.leaseUntil == Some(now + lease)
                  && b.attempts == a.attempts + 1 && SameRequestColumns(a, b) && SameProgressColumns(a, b))
  {
  }

  /** Only the holder of a reservation gives it back; nothing else happens. */
  lemma ReleaseColumns(e: Entry, token: Token)
    ensures var tx := ReleaseReserved(e, token);
            && tx.Commit? && tx.state.acceptance == e.acceptance && tx.state.result == e.result
            && (if e.row.Some? && e.row.value.status == Reserved && e.row.value.token == Some(token) then
                  && tx.state.row.Some?
                  && var a, b := e.row.value, tx.state.row.value;
                  && b.status == Ready && b.token.None? && b.leaseUntil.None?
                  && b.attempts == a.attempts && SameRequestColumns(a, b) && SameProgressColumns(a, b)
                else tx.state.row == e.row)
  {
  }

  /** A result is saved in the row if and only if the row is dispatched under the token, and is
      refused if and only if the row is missing, or not finished and not dispatched under the token.
      Whenever it is not refused, there is a result delivery, and an earlier one is kept. */
  lemma SaveResultColumns(e: Entry, token: Token, c: ClientId, r: HttpResult, now: int)
    ensures var tx := SaveHttpResult(e, token, c, r, now);
            var owned := e.row.Some? && e.row.value.status == Dispatching && e.row.value.token == Some(token);
            && (tx.Commit? <==>
                  owned || (e.row.Some? && e.row.value.status in {Completed, Unknown, ResultDelivered}))
            && (tx.Rollback? ==> tx.error == if e.row.None? then NotFound else OwnershipLost)
            && (tx.Commit? ==>
                  && tx.state.acceptance == e.acceptance && tx.state.result.Some? && tx.state.row.Some?
                  && (e.result.Some? ==> tx.state.result == e.result)
                  && (e.result.None? ==>
                        InsertedDelivery(tx.state.result.value, ResultKind, c, r.requestId, ResultPayload(r), now))
                  && (!owned ==> tx.state.row == e.row)
                  && (owned ==>
                        var a, b := e.row.value, tx.state.row.value;
                        && b.status == (if r.state == OutcomeUnknown then Unknown else Completed)
                        && b.result == Some(r) && b.token.None? && b.leaseUntil.None?
                        && b.attempts == a.attempts && SameRequestColumns(a, b)
                        && b.nextAttemptAt == a.nextAttemptAt && b.lastError == a.lastError))
  {
  }

  /** Only the holder of a dispatch puts it back to wait. */
  lemma RetryColumns(e: Entry, token: Token, reason: string, next: int)
    ensures var tx := ScheduleRetry(e, token, reason, next);
            && (tx.Commit? <==> e.row.Some? && e.row.value.status == Dispatching && e.row.value.token == Some(token))
            && (tx.Rollback? ==> tx.error == OwnershipLost)
            && (tx.Commit? ==>
                  && tx.state.acceptance == e.acceptance && tx.state.result == e.result && tx.state.row.Some?
                  && var a, b := e.row.value, tx.state.row.value;
                  && b.status == RetryWait && b.token.None? && b.leaseUntil.None?
                  && b.nextAttemptAt == next && b.lastError == reason
                  && b.attempts == a.attempts && b.result == a.result && SameRequestColumns(a, b))
  {
  }

  /** The result that recovery makes of a dispatch. */
  predicate IsLost(r: HttpResult, id: RequestId, row: Row, at: int)
  {
    && r.resultId == ResultOf(id) && r.requestId == id && r.proxyId == row.proxy && r.state == OutcomeUnknown
    && r.statusCode == 0 && r.headers == [] && r.body == []
    && r.errorCode == "proxy_restarted_during_http" && r.error == "HTTP outcome could not be recovered"
    && r.attempts == row.attempts && r.completedAt == at
  }

  /** Recovery moves a row if and only if it is reserved or dispatching under a lease that has run
      out: a reservation goes back to the queue, a dispatch is given up as unknown.  A lease that runs
      until `now` or later protects its row. */
  lemma RecoverColumns(id: RequestId, e: Entry, now: int, at: int)
    ensures var v := Recover(id, e, now, at);
            var expired := e.row.Some? && e.row.value.leaseUntil.Some? && e.row.value.leaseUntil.value < now;
            && v.acceptance == e.acceptance
            && (!expired || e.row.value.status !in {Reserved, Dispatching} ==> v == e)
            && (expired && e.row.value.status == Reserved ==>
                  && v.result == e.result && v.row.Some?
                  && var a, b := e.row.value, v.row.value;
                  && b.status == Ready && b.token.None? && b.leaseUntil.None?
                  && b.attempts == a.attempts && SameRequestColumns(a, b) && SameProgressColumns(a, b))
            && (expired && e.row.value.status == Dispatching ==>
                  && v.row.Some? && v.result.Some?
                  && var a, b := e.row.value, v.row.value;
                  && b.status == Unknown && b.token.None? && b.leaseUntil.None?
                  && b.result.Some? && IsLost(b.result.value, id, a, at) && b.lastError == b.result.value.error
                  && b.attempts == a.attempts && b.nextAttemptAt == a.nextAttemptAt && SameRequestColumns(a, b)
                  && (e.result.Some? ==> v.result == e.result)
                  && (e.result.None? ==>
                        InsertedDelivery(v.result.value, ResultKind, a.client, id, ResultPayload(b.result.value), now)))
  {
  }
}
