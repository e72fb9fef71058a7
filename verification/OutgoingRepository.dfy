/** internal/repository/outgoing.go and maintenance.go over whole tables.  Each method runs its
    SQL statements on a transaction-local copy and publishes it on commit; its contract says that
    the request it names moves by the corresponding transaction of OutgoingTables and that every
    other request is untouched. */
module OutgoingRepository {
  import opened Contracts
  import opened OutgoingTables
  import Columns = OutgoingColumns

  datatype Reservation = Reservation(id: RequestId, request: HttpRequest, attempts: nat, token: Token)

  function EntryIn(requests: map<RequestId, Row>, deliveries: map<DeliveryId, Delivery>, id: RequestId): Entry
  {
    Entry(if id in requests then Some(requests[id]) else None,
          if AcceptanceOf(id) in deliveries then Some(deliveries[AcceptanceOf(id)]) else None,
          if ResultOf(id) in deliveries then Some(deliveries[ResultOf(id)]) else None)
  }

  /** The entry of a request holds its row and its two deliveries, and entries determine the tables. */
  lemma EntryHolds(requests: map<RequestId, Row>, deliveries: map<DeliveryId, Delivery>, id: RequestId)
    ensures var e := EntryIn(requests, deliveries, id);
            && (e.row.Some? <==> id in requests) && (id in requests ==> e.row.value == requests[id])
            && (e.acceptance.Some? <==> AcceptanceOf(id) in deliveries)
            && (e.acceptance.Some? ==> e.acceptance.value == deliveries[AcceptanceOf(id)])
            && (e.result.Some? <==> ResultOf(id) in deliveries)
            && (e.result.Some? ==> e.result.value == deliveries[ResultOf(id)])
  {
  }

  /** Delivery IDs name the kind and the request of the delivery. */
  predicate KeyOk(key: DeliveryId, d: Delivery)
  {
    || (key.AcceptanceOf? && d.kind == AcceptanceKind && d.requestId == key.request)
    || (key.ResultOf? && d.kind == ResultKind && d.requestId == key.request)
  }

  predicate KeysOk(deliveries: map<DeliveryId, Delivery>)
  {
    forall key :: key in deliveries ==> KeyOk(key, deliveries[key])
  }

  /** The row is reserved or dispatching, and its lease has run out. */
  predicate Expired(row: Row, now: int)
  {
    row.status in {Reserved, Dispatching} && row.leaseUntil.Some? && row.leaseUntil.value < now
  }

  /** One iteration of the recovery loop: the dispatch of `id` becomes unknown. */
  lemma LostDispatch(rows: map<RequestId, Row>, sends: map<DeliveryId, Delivery>, id: RequestId, now: int, at: int)
    requires id in rows && rows[id].status == Dispatching && Expired(rows[id], now) && KeysOk(sends)
    ensures var lost := LostResult(id, rows[id], at);
            var rows' := rows[id := rows[id].(status := Unknown, result := Some(lost), lastError := lost.error,
                                              token := None, leaseUntil := None)];
            var inserted := NewDelivery(ResultKind, rows[id].client, id, ResultPayload(lost), now);
            var sends' := if lost.resultId in sends then sends else sends[lost.resultId := inserted];
            && KeysOk(sends')
            && EntryIn(rows', sends', id) == Recover(id, EntryIn(rows, sends, id), now, at)
            && forall other :: other != id ==> EntryIn(rows', sends', other) == EntryIn(rows, sends, other)
  {
  }

  predicate StaleDispatch(rows: map<RequestId, Row>, id: RequestId, now: int)
  {
    id in rows && rows[id].status == Dispatching && Expired(rows[id], now)
  }

  function StaleIn(rows: map<RequestId, Row>, s: Status, now: int): set<RequestId>
  {
    set id | id in rows && rows[id].status == s && Expired(rows[id], now)
  }

  /** The recovery loop over stale dispatches. */
  method LoseDispatches(rows0: map<RequestId, Row>, sends0: map<DeliveryId, Delivery>, stale: set<RequestId>,
                        now: int, completedAt: RequestId -> int)
    returns (rows: map<RequestId, Row>, sends: map<DeliveryId, Delivery>)
    requires KeysOk(sends0) && forall id :: id in stale ==> StaleDispatch(rows0, id, now)
    ensures KeysOk(sends)
    ensures forall id ::
      EntryIn(rows, sends, id) == (if id in stale then Recover(id, EntryIn(rows0, sends0, id), now, completedAt(id))
                                   else EntryIn(rows0, sends0, id))
  {
    rows, sends := rows0, sends0;
    var left := stale;
    while left != {}
      invariant left <= stale && KeysOk(sends)
      invariant forall id ::
        EntryIn(rows, sends, id) == (if id in stale && id !in left
                                     then Recover(id, EntryIn(rows0, sends0, id), now, completedAt(id))
                                     else EntryIn(rows0, sends0, id))
      decreases left
    {
      var id :| id in left;
      left := left - {id};
      assert StaleDispatch(rows0, id, now) && EntryIn(rows, sends, id) == EntryIn(rows0, sends0, id);
      LostDispatch(rows, sends, id, now, completedAt(id));
      var r := rows[id];
      var lost := LostResult(id, r, completedAt(id));
      rows := rows[id := r.(status := Unknown, result := Some(lost), lastError := lost.error, token := None,
                            leaseUntil := None)];
      if lost.resultId !in sends {
        sends := sends[lost.resultId := NewDelivery(ResultKind, r.client, id, ResultPayload(lost), now)];
      }
    }
  }

  /** Recovery over the table, in its columns: a row moves if and only if its lease has run out. */
  predicate Recovered(before: map<RequestId, Row>, after: map<RequestId, Row>, now: int)
  {
    && after.Keys == before.Keys
    && forall id :: id in before ==>
         if !Expired(before[id], now) then after[id] == before[id]
         else after[id].status == (if before[id].status == Reserved then Ready else Unknown)
              && after[id].token.None? && after[id].leaseUntil.None?
  }

  lemma RecoveredRows(requests: map<RequestId, Row>, deliveries: map<DeliveryId, Delivery>,
                      rows: map<RequestId, Row>, sends: map<DeliveryId, Delivery>, now: int,
                      completedAt: RequestId -> int)
    requires forall id :: EntryIn(rows, sends, id)
                          == Recover(id, EntryIn(requests, deliveries, id), now, completedAt(id))
    ensures Recovered(requests, rows, now)
  {
    forall id
      ensures id in rows <==> id in requests
      ensures id in requests ==>
                if !Expired(requests[id], now) then rows[id] == requests[id]
                else rows[id].status == (if requests[id].status == Reserved then Ready else Unknown)
                     && rows[id].token.None? && rows[id].leaseUntil.None?
    {
      Columns.RecoverColumns(id, EntryIn(requests, deliveries, id), now, completedAt(id));
      assert EntryIn(rows, sends, id) == Recover(id, EntryIn(requests, deliveries, id), now, completedAt(id));
    }
  }

  /** The number of rows that recovery moves. */
  lemma ExpiredRows(requests: map<RequestId, Row>, now: int)
    ensures |StaleIn(requests, Reserved, now)| + |StaleIn(requests, Dispatching, now)|
            == |set id | id in requests && Expired(requests[id], now)|
  {
    var a, b := StaleIn(requests, Reserved, now), StaleIn(requests, Dispatching, now);
    assert (set id | id in requests && Expired(requests[id], now)) == a + b;
    assert a !! b;
  }

  class Repository {
    var requests: map<RequestId, Row>
    var deliveries: map<DeliveryId, Delivery>

    ghost predicate Valid()
      reads this
    {
      KeysOk(deliveries)
    }

    ghost function EntryAt(id: RequestId): Entry
      reads this
    {
      EntryIn(requests, deliveries, id)
    }

    constructor ()
      ensures Valid()
      ensures forall id :: EntryAt(id) == EMPTY_ENTRY
    {
      requests, deliveries := map[], map[];
    }

    method AcceptRequest(request: HttpRequest, acceptance: Acceptance, now: int) returns (err: Option<TxError>)
      requires Valid()
      requires acceptance.Accepted? && acceptance.deliveryId == AcceptanceOf(request.requestId)
      modifies this
      ensures Valid()
      ensures var tx := AcceptHttpRequest(old(EntryAt(request.requestId)), request, acceptance, now);
              if tx.Commit? then err.None? && EntryAt(request.requestId) == tx.state
              else err == Some(tx.error) && EntryAt(request.requestId) == old(EntryAt(request.requestId))
      ensures err.None? <==>
                request.requestId in old(requests) ==> Columns.StoredAs(old(requests)[request.requestId], request)
      ensures forall id :: id != request.requestId ==> EntryAt(id) == old(EntryAt(id))
    {
      var id := request.requestId;
      var rows, sends := requests, deliveries;
      if id !in rows {
        rows := rows[id := NewRow(request, now)];
      } else {
        if !SameOwner(rows[id], request) {
          return Some(RequestConflict);
        }
        sends := map key | key in sends ::
          if sends[key].requestId == id then Reopened(sends[key], now) else sends[key];
      }
      if acceptance.deliveryId !in sends {
        sends := sends[acceptance.deliveryId :=
          NewDelivery(AcceptanceKind, request.clientId, id, AcceptancePayload(acceptance), now)];
      }
      requests, deliveries := rows, sends;
      return None;
    }

    method ConfirmAcceptanceAck(ack: DeliveryAck, now: int) returns (err: Option<TxError>)
      requires Valid()
      modifies this
      ensures Valid()
      ensures var tx := ConfirmAcceptance(old(EntryAt(ack.requestId)), ack.clientId, now);
              if ack.deliveryId == AcceptanceOf(ack.requestId) && tx.Commit?
              then err.None? && EntryAt(ack.requestId) == tx.state
              else err.Some? && EntryAt(ack.requestId) == old(EntryAt(ack.requestId))
      ensures forall id :: id != ack.requestId ==> EntryAt(id) == old(EntryAt(id))
    {
      if ack.deliveryId !in deliveries {
        return Some(NotFound);
      }
      var d := deliveries[ack.deliveryId];
      if d.kind != AcceptanceKind || d.client != ack.clientId || d.requestId != ack.requestId {
        return Some(AckMismatch);
      }
      deliveries := deliveries[ack.deliveryId := Acknowledged(d, now)];
      if ack.requestId in requests && requests[ack.requestId].status == AwaitingAcceptanceAck {
        requests := requests[ack.requestId := requests[ack.requestId].(status := Ready)];
      }
      return None;
    }

    method ConfirmResultAck(ack: DeliveryAck, now: int) returns (err: Option<TxError>)
      requires Valid()
      modifies this
      ensures Valid()
      ensures var tx := ConfirmResult(old(EntryAt(ack.requestId)), ack.clientId, now);
              if ack.deliveryId == ResultOf(ack.requestId) && tx.Commit?
              then err.None? && EntryAt(ack.requestId) == tx.state
              else err.Some? && EntryAt(ack.requestId) == old(EntryAt(ack.requestId))
      ensures forall id :: id != ack.requestId ==> EntryAt(id) == old(EntryAt(id))
    {
      if ack.deliveryId !in deliveries {
        return Some(NotFound);
      }
      var d := deliveries[ack.deliveryId];
      if d.kind != ResultKind || d.client != ack.clientId || d.requestId != ack.requestId {
        return Some(AckMismatch);
      }
      deliveries := deliveries[ack.deliveryId := Acknowledged(d, now)];
      if d.requestId in requests {
        var r := requests[d.requestId];
        if r.status == Completed || r.status == Unknown {
          requests := requests[d.requestId := r.(status := ResultDelivered)];
        }
      }
      return None;
    }

    /** The oldest due row that no other transaction has locked. */
    method OldestDue(locked: set<RequestId>, now: int) returns (pick: Option<RequestId>)
      ensures pick.None? ==> forall id :: id in requests && Due(requests[id], now) ==> id in locked
      ensures pick.Some? ==>
        && pick.value in requests && pick.value !in locked && Due(requests[pick.value], now)
        && forall id :: id in requests && Due(requests[id], now) && id !in locked ==>
             requests[pick.value].createdAt <= requests[id].createdAt
    {
      pick := None;
      var left := set id | id in requests && Due(requests[id], now) && id !in locked;
      var all := left;
      while left != {}
        invariant left <= all
        invariant pick.None? ==> left == all
        invariant pick.Some? ==>
          && pick.value in all
          && forall id :: id in all - left ==> requests[pick.value].createdAt <= requests[id].createdAt
        decreases left
      {
        var id :| id in left;
        left := left - {id};
        if pick.None? || requests[id].createdAt < requests[pick.value].createdAt {
          pick := Some(id);
        }
      }
      assert forall id :: id in requests && Due(requests[id], now) && id !in locked ==> id in all;
    }

    /** ReserveRequest with a fresh dispatch token. */
    method ReserveOldest(locked: set<RequestId>, token: Token, now: int, lease: int) returns (op: Option<Reservation>)
      requires Valid()
      modifies this
      ensures Valid()
      ensures op.None? ==> unchanged(this) && forall id :: id in requests && Due(requests[id], now) ==> id in locked
      ensures op.Some? ==>
        var id := op.value.id;
        && id in old(requests) && id !in locked && Due(old(requests)[id], now)
        && (forall other :: other in old(requests) && Due(old(requests)[other], now) && other !in locked ==>
              old(requests)[id].createdAt <= old(requests)[other].createdAt)
        && op.value == Reservation(id, old(requests)[id].request, old(requests)[id].attempts, token)
        && Reserve(old(EntryAt(id)), token, now, lease) == Commit(EntryAt(id))
        && (forall other :: other != id ==> EntryAt(other) == old(EntryAt(other)))
    {
      var pick := OldestDue(locked, now);
      if pick.None? {
        return None;
      }
      var id := pick.value;
      var r := requests[id];
      requests := requests[id := r.(status := Reserved, token := Some(token), leaseUntil := Some(now + lease))];
      op := Some(Reservation(id, r.request, r.attempts, token));
    }

    method FenceDispatch(id: RequestId, token: Token, now: int, lease: int) returns (err: Option<TxError>)
      requires Valid()
      modifies this
      ensures Valid()
      ensures var tx := BeginDispatch(old(EntryAt(id)), token, now, lease);
              if tx.Commit? then err.None? && EntryAt(id) == tx.state
              else err == Some(tx.error) && EntryAt(id) == old(EntryAt(id))
      ensures forall other :: other != id ==> EntryAt(other) == old(EntryAt(other))
    {
      if id in requests && requests[id].status == Reserved && requests[id].token == Some(token) {
        var r := requests[id];
        requests := requests[id := r.(status := Dispatching, attempts := r.attempts + 1,
                                      leaseUntil := Some(now + lease))];
        return None;
      }
      return Some(OwnershipLost);
    }

    method ReleaseReservation(id: RequestId, token: Token)
      requires Valid()
      modifies this
      ensures Valid()
      ensures ReleaseReserved(old(EntryAt(id)), token) == Commit(EntryAt(id))
      ensures forall other :: other != id ==> EntryAt(other) == old(EntryAt(other))
    {
      if id in requests && requests[id].status == Reserved && requests[id].token == Some(token) {
        requests := requests[id := requests[id].(status := Ready, token := None, leaseUntil := None)];
      }
    }

    method SaveResult(token: Token, client: ClientId, result: HttpResult, now: int) returns (err: Option<TxError>)
      requires Valid()
      requires result.resultId == ResultOf(result.requestId)
      modifies this
      ensures Valid()
      ensures var tx := SaveHttpResult(old(EntryAt(result.requestId)), token, client, result, now);
              if tx.Commit? then err.None? && EntryAt(result.requestId) == tx.state
              else err == Some(tx.error) && EntryAt(result.requestId) == old(EntryAt(result.requestId))
      ensures forall other :: other != result.requestId ==> EntryAt(other) == old(EntryAt(other))
    {
      var id := result.requestId;
      var state := Completed;
      if result.state == OutcomeUnknown {
        state := Unknown;
      }
      var rows := requests;
      if id in rows && rows[id].status == Dispatching && rows[id].token == Some(token) {
        rows := rows[id := rows[id].(status := state, result := Some(result), token := None, leaseUntil := None)];
      } else {
        if id !in rows {
          return Some(NotFound);
        }
        var current := rows[id].status;
        if current != Completed && current != ResultDelivered && current != Unknown {
          return Some(OwnershipLost);
        }
      }
      if result.resultId !in deliveries {
        deliveries := deliveries[result.resultId := NewDelivery(ResultKind, client, id, ResultPayload(result), now)];
      }
      requests := rows;
      return None;
    }

    method RetryLater(id: RequestId, token: Token, reason: string, next: int) returns (err: Option<TxError>)
      requires Valid()
      modifies this
      ensures Valid()
      ensures var tx := ScheduleRetry(old(EntryAt(id)), token, reason, next);
              if tx.Commit? then err.None? && EntryAt(id) == tx.state
              else err == Some(tx.error) && EntryAt(id) == old(EntryAt(id))
      ensures forall other :: other != id ==> EntryAt(other) == old(EntryAt(other))
    {
      if id in requests && requests[id].status == Dispatching && requests[id].token == Some(token) {
        requests := requests[id := requests[id].(status := RetryWait, lastError := reason, nextAttemptAt := next,
                                                 token := None, leaseUntil := None)];
        return None;
      }
      return Some(OwnershipLost);
    }

    /** RecoverExpiredDispatches: one bulk update of stale reservations, then a loop over stale
        dispatches.  The whole table moves by Recover, request by request. */
    method RecoverExpiredDispatches(now: int, completedAt: RequestId -> int) returns (recovered: nat)
      requires Valid()
      modifies this
      ensures Valid()
      ensures forall id :: EntryAt(id) == Recover(id, old(EntryAt(id)), now, completedAt(id))
      ensures Recovered(old(requests), requests, now)
      ensures recovered == |set id | id in old(requests) && Expired(old(requests)[id], now)|
    {
      var reserved := StaleIn(requests, Reserved, now);
      var rows := map id | id in requests ::
        if id in reserved then requests[id].(status := Ready, token := None, leaseUntil := None) else requests[id];
      var stale := StaleIn(rows, Dispatching, now);
      assert stale == StaleIn(requests, Dispatching, now);
      recovered := |reserved| + |stale|;
      var rows', sends' := LoseDispatches(rows, deliveries, stale, now, completedAt);
      forall id
        ensures EntryIn(rows', sends', id) == Recover(id, EntryIn(requests, deliveries, id), now, completedAt(id))
      {
        assert id in stale ==> EntryIn(rows, deliveries, id) == EntryIn(requests, deliveries, id);
      }
      RecoveredRows(requests, deliveries, rows', sends', now, completedAt);
      ExpiredRows(requests, now);
      requests, deliveries := rows', sends';
    }
  }
}
