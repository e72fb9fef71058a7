/** No operation is ever stuck: from every reachable state of the outgoing exchange there is a
    continuation in which the client's operation completes and its caller is told the result, with the
    response of the HTTP call if the request has not been dispatched yet.  So every step of the
    protocol is enabled when it has to be. */
module OutgoingLiveness {
  import opened Contracts
  import opened OutgoingTables
  import opened Worker
  import opened OutgoingProtocol
  import opened OutgoingInvariant
  import opened OutgoingSteps
  import opened OutgoingSafety
  import opened OutgoingLaws
  import Op = ClientOperation

  ghost predicate Reaches(w: World, v: World) { exists events :: RunFrom(w, events) == v }

  lemma ReachesItself(w: World)
    ensures Reaches(w, w)
  {
    assert RunFrom(w, []) == w;
  }

  lemma ReachesNext(w: World, v: World, ev: Event)
    requires Reaches(w, v)
    ensures Reaches(w, Apply(v, ev))
  {
    var events :| RunFrom(w, events) == v;
    RunConcat(w, events, [ev]);
    assert RunFrom(v, [ev]) == Apply(v, ev);
  }

  lemma ReachedInv(w: World, v: World)
    requires Inv(w) && Reaches(w, v)
    ensures Inv(v)
  {
    var events :| RunFrom(w, events) == v;
    RunInv(w, events);
  }

  /** The request passes the checks of the proxy's handler, under some configuration. */
  predicate Sendable(r: HttpRequest)
  {
    r.requestId != "" && r.httpMethod != "" && 0 <= r.retry.maxAttempts <= 20
  }

  /** The row has not been dispatched, or waits for another attempt. */
  predicate Undispatched(e: Entry)
  {
    e.row.None? || e.row.value.status in {AwaitingAcceptanceAck, Ready, RetryWait, Reserved}
  }

  function Attempts(e: Entry): nat { if e.row.Some? then e.row.value.attempts else 0 }

  /** The client `c` runs the protocol and is at the stage. */
  predicate IsAt(w: World, c: ClientId, stage: Stage) { Running(w, c) && w.clients[c].run.stage == stage }

  // ---- the request is accepted ----

  lemma Asks(w: World, c: ClientId) returns (v: World)
    requires c in w.clients && w.clients[c].stored.state != Op.Complete
    ensures Reaches(w, v) && v.gate == w.gate && IsAt(v, c, AwaitingAcceptance)
    ensures v.clients[c].stored == w.clients[c].stored && RequestMsg(c, v.clients[c].stored.request) in v.net
  {
    var stored := w.clients[c].stored;
    ReachesItself(w);
    var w1 := Apply(w, AtClient(c, ClientStops));
    ReachesNext(w, w, AtClient(c, ClientStops));
    assert c in w1.clients && w1.clients[c].stored == stored && w1.clients[c].run == NoRun;
    var w2 := Apply(w1, AtClient(c, Load));
    ReachesNext(w, w1, AtClient(c, Load));
    assert c in w2.clients && stored in w2.clients[c].loaded;
    var w3 := Apply(w2, AtClient(c, BeginRun(stored)));
    ReachesNext(w, w2, AtClient(c, BeginRun(stored)));
    assert IsAt(w3, c, AwaitingAcceptance) && w3.clients[c].run.request == stored.request;
    v := Apply(w3, AtClient(c, PublishRequest));
    ReachesNext(w, w3, AtClient(c, PublishRequest));
  }

  /** The row is the client's, and as it was if there was one. */
  predicate Accepts(a: Entry, b: Entry, c: ClientId)
  {
    && b.row.Some? && b.row.value.client == c && (a.row.Some? ==> b.row == a.row)
    && (a.row.None? ==> b.row.value.status == AwaitingAcceptanceAck && b.row.value.attempts == 0)
  }

  function Checks(r: HttpRequest): RequestCheck { RequestCheck(true, |r.body|, true) }

  /** The handler accepts the request of a client that owns the row, or finds none. */
  lemma HandlerAccepts(g: Gateway, net: set<Message>, r: HttpRequest)
    requires EntryOk(g.id, g.entry) && RequestMsg(r.clientId, r) in net
    requires Sendable(r) && r.requestId == g.id && r.proxyId == g.proxy
    requires g.entry.row.Some? ==> g.entry.row.value.request == r
    ensures var out := DoHandleRequest(g, net, r.clientId, r, Checks(r), 0, Reported);
            && out.sent.None? && Accepts(g.entry, out.gate.entry, r.clientId) && out.gate.entry.acceptance.Some?
            && out.gate == g.(entry := out.gate.entry)
            && AcceptanceOk(out.gate.entry.acceptance.value, r.clientId, g.id)
  {
  }

  lemma Handles(w: World, u: World, c: ClientId) returns (v: World, a: Acceptance)
    requires Reaches(w, u) && EntryOk(u.gate.id, u.gate.entry) && c in u.clients
    requires var r := u.clients[c].stored.request;
             && RequestMsg(c, r) in u.net && Sendable(r)
             && r.clientId == c && r.requestId == u.gate.id && r.proxyId == u.gate.proxy
             && (u.gate.entry.row.Some? ==> u.gate.entry.row.value.request == r)
    ensures Reaches(w, v) && v.clients == u.clients && v.gate == u.gate.(entry := v.gate.entry)
    ensures Accepts(u.gate.entry, v.gate.entry, c)
    ensures a.Accepted? && a.deliveryId == AcceptanceOf(u.gate.id) && AcceptanceMsg(c, a) in v.net
  {
    var r := u.clients[c].stored.request;
    var handle := AtProxy(HandleRequest(c, r, Checks(r), 0, Reported));
    HandlerAccepts(u.gate, u.net, r);
    ReachesNext(w, u, handle);
    var u1 := Apply(u, handle);
    a := u1.gate.entry.acceptance.value.payload.acceptance;
    v := Apply(u1, AtProxy(PublishAcceptance));
    ReachesNext(w, u1, AtProxy(PublishAcceptance));
  }

  /** The client records the acceptance and acknowledges it. */
  lemma RecordsAcceptance(w: World, u: World, c: ClientId, a: Acceptance) returns (v: World)
    requires Reaches(w, u) && IsAt(u, c, AwaitingAcceptance) && AcceptanceMsg(c, a) in u.net
    requires a.Accepted? && a.deliveryId == AcceptanceOf(u.gate.id)
    ensures Reaches(w, v) && v.gate == u.gate && IsAt(v, c, AckingAcceptance(AcceptanceOf(u.gate.id)))
    ensures AcceptanceAckMsg(DeliveryAck(u.gate.id, AcceptanceOf(u.gate.id), c)) in v.net
    ensures v.clients[c].stored.request == u.clients[c].stored.request
            && v.clients[c].stored.result == u.clients[c].stored.result
  {
    var u1 := Apply(u, AtClient(c, ReceiveAcceptance(a, Reported)));
    ReachesNext(w, u, AtClient(c, ReceiveAcceptance(a, Reported)));
    assert IsAt(u1, c, AckingAcceptance(AcceptanceOf(u.gate.id)));
    v := Apply(u1, AtClient(c, PublishAcceptanceAck));
    ReachesNext(w, u1, AtClient(c, PublishAcceptanceAck));
  }

  /** `b` is the row `a`, made ready if it waited for the acknowledgement. */
  predicate MadeReady(a: Row, b: Row)
  {
    b == a.(status := if a.status == AwaitingAcceptanceAck then Ready else a.status)
  }

  lemma ConfirmsAcceptance(w: World, u: World, c: ClientId) returns (v: World)
    requires Reaches(w, u) && IsAt(u, c, AckingAcceptance(AcceptanceOf(u.gate.id)))
    requires AcceptanceAckMsg(DeliveryAck(u.gate.id, AcceptanceOf(u.gate.id), c)) in u.net
    requires u.gate.entry.row.Some? && u.gate.entry.acceptance.Some? && u.gate.entry.acceptance.value.client == c
    ensures Reaches(w, v) && IsAt(v, c, AwaitingResult) && v.clients[c].stored == u.clients[c].stored
    ensures v.gate == u.gate.(entry := v.gate.entry) && v.gate.entry.result == u.gate.entry.result
    ensures v.gate.entry.row.Some? && MadeReady(u.gate.entry.row.value, v.gate.entry.row.value)
  {
    var handle := AtProxy(HandleAcceptanceAck(DeliveryAck(u.gate.id, AcceptanceOf(u.gate.id), c), 0, Reported));
    var u1 := Apply(u, handle);
    ReachesNext(w, u, handle);
    v := Apply(u1, AtClient(c, AcceptanceAckConfirmed));
    ReachesNext(w, u1, AtClient(c, AcceptanceAckConfirmed));
  }

  // ---- the request is dispatched, or given up ----

  function LateEnough(row: Row): int { if row.leaseUntil.Some? then row.leaseUntil.value + 1 else 0 }

  predicate SameCall(a: Row, b: Row) { b.request == a.request && b.attempts == a.attempts }

  /** Late enough, recovery takes a reservation back and gives up a dispatch. */
  lemma RecoveryRequeues(id: RequestId, e: Entry)
    requires EntryOk(id, e) && e.row.Some? && e.row.value.status != AwaitingAcceptanceAck
    ensures var v := Recover(id, e, LateEnough(e.row.value), 0);
            && v.row.Some? && SameCall(e.row.value, v.row.value)
            && if Undispatched(e) then v.row.value.status in {Ready, RetryWait} else Finished(v.row.value.status)
  {
  }

  lemma Requeues(w: World, u: World) returns (v: World)
    requires Reaches(w, u) && EntryOk(u.gate.id, u.gate.entry)
    requires u.gate.entry.row.Some? && u.gate.entry.row.value.status != AwaitingAcceptanceAck
    ensures Reaches(w, v) && v.clients == u.clients && v.gate == u.gate.(entry := v.gate.entry)
    ensures v.gate.entry.row.Some? && SameCall(u.gate.entry.row.value, v.gate.entry.row.value)
    ensures if Undispatched(u.gate.entry) then v.gate.entry.row.value.status in {Ready, RetryWait}
            else Finished(v.gate.entry.row.value.status)
  {
    RecoveryRequeues(u.gate.id, u.gate.entry);
    var recover := AtProxy(RecoverExpired(LateEnough(u.gate.entry.row.value), 0, Reported));
    v := Apply(u, recover);
    ReachesNext(w, u, recover);
  }

  /** There is always a token that has not been drawn. */
  lemma {:induction false} Unbounded(used: set<Token>) returns (n: nat)
    ensures forall t :: t in used ==> |t| < n
  {
    if used == {} {
      n := 0;
    } else {
      var t :| t in used;
      var m := Unbounded(used - {t});
      n := if m <= |t| then |t| + 1 else m;
    }
  }

  /** The worker 0 holds the operation in the phase. */
  predicate WorksAt(g: Gateway, op: Operation, p: Phase)
  {
    0 in g.workers && g.workers[0] == WorkerState(op, p)
  }

  lemma Reserves(w: World, u: World) returns (v: World, op: Operation)
    requires Reaches(w, u) && u.gate.entry.row.Some? && u.gate.entry.row.value.status in {Ready, RetryWait}
    ensures Reaches(w, v) && v.clients == u.clients && WorksAt(v.gate, op, Holding)
    ensures var r := u.gate.entry.row.value;
            && op.request == r.request && op.attempts == r.attempts
            && v.gate == u.gate.(entry := v.gate.entry, workers := v.gate.workers, used := v.gate.used)
            && v.gate.entry.row.Some? && v.gate.entry.result == u.gate.entry.result
            && v.gate.entry.row.value.status == Reserved && v.gate.entry.row.value.token == Some(op.token)
            && v.gate.entry.row.value.request == r.request && v.gate.entry.row.value.attempts == r.attempts
  {
    var n := Unbounded(u.gate.used);
    var token := seq(n, i => 'x');
    var u1 := Apply(u, AtWorker(0, WorkerStops));
    ReachesNext(w, u, AtWorker(0, WorkerStops));
    var reserve := AtWorker(0, ReserveRequest(token, u.gate.entry.row.value.nextAttemptAt, 0, Reported));
    assert token !in u1.gate.used && 0 !in u1.gate.workers;
    v := Apply(u1, reserve);
    ReachesNext(w, u1, reserve);
    op := Operation(u.gate.entry.row.value.request, u.gate.entry.row.value.attempts, token);
  }

  lemma Calls(w: World, u: World, op: Operation) returns (v: World)
    requires Reaches(w, u) && WorksAt(u.gate, op, Holding) && u.gate.entry.row.Some?
    requires u.gate.entry.row.value.status == Reserved && u.gate.entry.row.value.token == Some(op.token)
    ensures Reaches(w, v) && v.clients == u.clients && WorksAt(v.gate, op, Calling)
    ensures v.gate.id == u.gate.id && v.gate.proxy == u.gate.proxy && v.gate.calls == u.gate.calls + 1
    ensures v.gate.entry.row.Some? && v.gate.entry.result == u.gate.entry.result
            && v.gate.entry.row.value.status == Dispatching && v.gate.entry.row.value.token == Some(op.token)
            && v.gate.entry.row.value.request == u.gate.entry.row.value.request
  {
    var u1 := Apply(u, AtWorker(0, Fence(0, 0, Reported)));
    ReachesNext(w, u, AtWorker(0, Fence(0, 0, Reported)));
    assert WorksAt(u1.gate, op, Fenced);
    v := Apply(u1, AtWorker(0, StartCall));
    ReachesNext(w, u1, AtWorker(0, StartCall));
  }

  lemma Records(w: World, u: World, op: Operation, outcome: HttpOutcome) returns (v: World)
    requires Reaches(w, u) && WorksAt(u.gate, op, Calling) && u.gate.entry.row.Some? && u.gate.entry.result.None?
    requires u.gate.entry.row.value.status == Dispatching && u.gate.entry.row.value.token == Some(op.token)
    requires op.request.requestId == u.gate.id && !Repeats(op.request, op.attempts + 1, outcome)
    ensures Reaches(w, v) && v.clients == u.clients && v.gate.calls == u.gate.calls
    ensures v.gate.id == u.gate.id && v.gate.proxy == u.gate.proxy
    ensures v.gate.entry.row.Some? && Finished(v.gate.entry.row.value.status)
            && v.gate.entry.row.value.result.Some? && Carries(v.gate.entry.row.value.result.value, outcome)
            && v.gate.entry.row.value.request == u.gate.entry.row.value.request
  {
    var u1 := Apply(u, AtWorker(0, EndCall(outcome, 0, 0)));
    CallIsRecorded(u.gate, 0, outcome, 0, 0);
    ReachesNext(w, u, AtWorker(0, EndCall(outcome, 0, 0)));
    var r := u1.gate.workers[0].phase.result;
    var u2 := Apply(u1, AtWorker(0, PublishDirect));
    ReachesNext(w, u1, AtWorker(0, PublishDirect));
    assert WorksAt(u2.gate, op, Saving(r));
    v := Apply(u2, AtWorker(0, SaveWorkerResult(0, Reported)));
    ReachesNext(w, u2, AtWorker(0, SaveWorkerResult(0, Reported)));
  }

  lemma Dispatches(w: World, u: World, outcome: HttpOutcome) returns (v: World)
    requires Reaches(w, u) && EntryOk(u.gate.id, u.gate.entry)
    requires u.gate.entry.row.Some? && u.gate.entry.row.value.status in {Ready, RetryWait}
    requires !Repeats(u.gate.entry.row.value.request, u.gate.entry.row.value.attempts + 1, outcome)
    ensures Reaches(w, v) && v.clients == u.clients && v.gate.calls == u.gate.calls + 1
    ensures v.gate.id == u.gate.id && v.gate.proxy == u.gate.proxy
    ensures v.gate.entry.row.Some? && Finished(v.gate.entry.row.value.status)
            && v.gate.entry.row.value.result.Some? && Carries(v.gate.entry.row.value.result.value, outcome)
            && v.gate.entry.row.value.request == u.gate.entry.row.value.request
  {
    var u1, op := Reserves(w, u);
    var u2 := Calls(w, u1, op);
    v := Records(w, u2, op, outcome);
  }

  // ---- the result is delivered ----

  lemma ReceivesResult(w: World, u: World, c: ClientId, r: HttpResult) returns (v: World)
    requires Reaches(w, u) && IsAt(u, c, AwaitingResult)
    requires u.gate.entry.result.Some? && u.gate.entry.result.value.client == c
             && u.gate.entry.result.value.payload == ResultPayload(r)
    requires r.proxyId == u.gate.proxy && r.resultId == ResultOf(u.gate.id)
    ensures Reaches(w, v) && v.gate == u.gate
    ensures IsAt(v, c, AckingResult(ResultOf(u.gate.id), Op.Effective(u.clients[c].stored, r)))
    ensures v.clients[c].stored.result == Some(Op.Effective(u.clients[c].stored, r))
    ensures ResultAckMsg(DeliveryAck(u.gate.id, ResultOf(u.gate.id), c)) in v.net
  {
    var u1 := Apply(u, AtProxy(PublishResult));
    ReachesNext(w, u, AtProxy(PublishResult));
    var u2 := Apply(u1, AtClient(c, ReceiveResult(r, Reported)));
    ReachesNext(w, u1, AtClient(c, ReceiveResult(r, Reported)));
    assert IsAt(u2, c, AckingResult(ResultOf(u.gate.id), Op.Effective(u.clients[c].stored, r)));
    v := Apply(u2, AtClient(c, PublishResultAck));
    ReachesNext(w, u2, AtClient(c, PublishResultAck));
  }

  /** The operation is complete with the result, and a caller has been told. */
  predicate CompleteWith(w: World, c: ClientId, x: HttpResult)
  {
    && c in w.clients && w.clients[c].stored.state == Op.Complete && w.clients[c].stored.result == Some(x)
    && x in w.clients[c].reported
  }

  lemma Finishes(w: World, u: World, c: ClientId, x: HttpResult) returns (v: World)
    requires Reaches(w, u) && IsAt(u, c, AckingResult(ResultOf(u.gate.id), x))
    requires u.clients[c].stored.result == Some(x)
    requires ResultAckMsg(DeliveryAck(u.gate.id, ResultOf(u.gate.id), c)) in u.net
    requires u.gate.entry.result.Some? && u.gate.entry.result.value.client == c
    ensures Reaches(w, v) && CompleteWith(v, c, x) && v.gate.calls == u.gate.calls
  {
    var handle := AtProxy(HandleResultAck(DeliveryAck(u.gate.id, ResultOf(u.gate.id), c), 0, Reported));
    var u1 := Apply(u, handle);
    ReachesNext(w, u, handle);
    v := Apply(u1, AtClient(c, ResultAckConfirmed(Reported)));
    ReachesNext(w, u1, AtClient(c, ResultAckConfirmed(Reported)));
  }

  // ---- the theorem ----

  /** What the invariant says of a client's request and the row. */
  lemma OwnRequest(w: World, c: ClientId)
    requires Inv(w) && c in w.clients
    ensures var r := w.clients[c].stored.request;
            && r.clientId == c && r.requestId == w.gate.id && r.proxyId == w.gate.proxy
            && EntryOk(w.gate.id, w.gate.entry)
            && (w.gate.entry.row.Some? && w.gate.entry.row.value.client == c ==> w.gate.entry.row.value.request == r)
    ensures w.clients[c].stored.state == Op.Complete ==> w.clients[c].stored.result.Some? && !Undispatched(w.gate.entry)
  {
    assert SideOk(FactsOf(w.gate), c, w.clients[c]);
  }

  /** A finished row has a result delivery for its client. */
  lemma ResultIsThere(w: World)
    requires Inv(w) && w.gate.entry.row.Some? && Finished(w.gate.entry.row.value.status)
    ensures var e := w.gate.entry;
            && e.result.Some? && e.result.value.client == e.row.value.client && e.row.value.result.Some?
            && var r := e.row.value.result.value;
            && e.result.value.payload == ResultPayload(r)
            && r.proxyId == w.gate.proxy && r.resultId == ResultOf(w.gate.id)
  {
    assert Genuine(w.gate.id, w.gate.proxy, w.gate.won, w.gate.entry.row.value.result.value);
  }

  /** Before a dispatch there is no success in any store. */
  lemma NoSuccessYet(w: World, c: ClientId)
    requires Inv(w) && c in w.clients && Undispatched(w.gate.entry)
    ensures var x := w.clients[c].stored.result; x.Some? ==> !Op.IsSuccess(x.value)
  {
    assert SideOk(FactsOf(w.gate), c, w.clients[c]);
  }

  /** The request is accepted, and the client waits for the result. */
  lemma GetsAccepted(w: World, c: ClientId) returns (v: World)
    requires Inv(w) && c in w.clients && w.clients[c].stored.state != Op.Complete
    requires Sendable(w.clients[c].stored.request)
    requires w.gate.entry.row.None? || w.gate.entry.row.value.client == c
    ensures Reaches(w, v) && Inv(v) && IsAt(v, c, AwaitingResult) && v.gate == w.gate.(entry := v.gate.entry)
    ensures v.clients[c].stored.request == w.clients[c].stored.request
    ensures v.gate.entry.row.Some?
            && var b := v.gate.entry.row.value;
            && b.client == c && b.status != AwaitingAcceptanceAck && b.request == w.clients[c].stored.request
            && b.attempts == Attempts(w.gate.entry)
            && (Undispatched(v.gate.entry) <==> Undispatched(w.gate.entry))
  {
    var u1 := Asks(w, c);
    ReachedInv(w, u1);
    OwnRequest(u1, c);
    var u2, a := Handles(w, u1, c);
    ReachedInv(w, u2);
    var u3 := RecordsAcceptance(w, u2, c, a);
    v := ConfirmsAcceptance(w, u3, c);
    ReachedInv(w, v);
    OwnRequest(v, c);
  }

  /** The row is finished: by an HTTP call with the outcome, if it was not dispatched, and without one
      otherwise. */
  lemma GetsFinished(w: World, u: World, c: ClientId, outcome: HttpOutcome) returns (v: World)
    requires Inv(w) && Reaches(w, u) && c in u.clients && u.gate.entry.row.Some?
    requires u.gate.entry.row.value.status != AwaitingAcceptanceAck
    requires !Repeats(u.gate.entry.row.value.request, u.gate.entry.row.value.attempts + 1, outcome)
    ensures Reaches(w, v) && Inv(v) && v.clients == u.clients
    ensures v.gate.entry.row.Some? && Finished(v.gate.entry.row.value.status)
            && v.gate.entry.row.value.client == u.gate.entry.row.value.client
    ensures v.gate.calls == u.gate.calls + if Undispatched(u.gate.entry) then 1 else 0
    ensures Undispatched(u.gate.entry) ==>
              v.gate.entry.row.value.result.Some? && Carries(v.gate.entry.row.value.result.value, outcome)
  {
    ReachedInv(w, u);
    OwnRequest(u, c);
    var u1 := Requeues(w, u);
    v := u1;
    if Undispatched(u.gate.entry) {
      ReachedInv(w, u1);
      OwnRequest(u1, c);
      v := Dispatches(w, u1, outcome);
    }
    ReachedInv(w, v);
  }

  lemma GetsDelivered(w: World, u: World, c: ClientId) returns (v: World, x: HttpResult)
    requires Inv(w) && Reaches(w, u) && Inv(u) && IsAt(u, c, AwaitingResult)
    requires u.gate.entry.row.Some? && u.gate.entry.row.value.client == c && Finished(u.gate.entry.row.value.status)
    ensures u.gate.entry.row.value.result.Some?
            && x == Op.Effective(u.clients[c].stored, u.gate.entry.row.value.result.value)
    ensures Reaches(w, v) && CompleteWith(v, c, x) && v.gate.calls == u.gate.calls
  {
    ResultIsThere(u);
    var r := u.gate.entry.row.value.result.value;
    x := Op.Effective(u.clients[c].stored, r);
    var u1 := ReceivesResult(w, u, c, r);
    v := Finishes(w, u1, c, x);
  }

  lemma CompletedIsTold(w: World, c: ClientId) returns (v: World, x: HttpResult)
    requires c in w.clients && w.clients[c].stored.state == Op.Complete && w.clients[c].stored.result.Some?
    ensures Reaches(w, v) && CompleteWith(v, c, x) && v.gate == w.gate
  {
    var s := w.clients[c].stored;
    x := s.result.value;
    ReachesItself(w);
    var u := Apply(w, AtClient(c, Load));
    ReachesNext(w, w, AtClient(c, Load));
    assert s in u.clients[c].loaded && u.clients[c].stored == s;
    v := Apply(u, AtClient(c, AnswerFromStore(s)));
    ReachesNext(w, u, AtClient(c, AnswerFromStore(s)));
  }

  lemma Completes(w: World, c: ClientId, outcome: HttpOutcome) returns (v: World, x: HttpResult)
    requires Inv(w) && c in w.clients && w.clients[c].stored.state != Op.Complete
    requires Sendable(w.clients[c].stored.request)
    requires w.gate.entry.row.None? || w.gate.entry.row.value.client == c
    requires !Repeats(w.clients[c].stored.request, Attempts(w.gate.entry) + 1, outcome)
    ensures Reaches(w, v) && CompleteWith(v, c, x)
    ensures v.gate.calls == w.gate.calls + if Undispatched(w.gate.entry) then 1 else 0
    ensures Undispatched(w.gate.entry) ==> Carries(x, outcome)
  {
    var u1 := GetsAccepted(w, c);
    if Undispatched(u1.gate.entry) {
      NoSuccessYet(u1, c);
    }
    var u2 := GetsFinished(w, u1, c, outcome);
    v, x := GetsDelivered(w, u2, c);
  }

  /** From every reachable state, whoever was interrupted wherever, the operation of a client whose
      request the proxy accepts, and whose ID no other client owns, can be completed and its result told
      to a caller.  If the request has not been dispatched, or waits for another attempt, one more HTTP
      call is made, and for every outcome that is not to be repeated the caller is told that outcome;
      otherwise no further call is made. */
  lemma OperationCompletes(w: World, c: ClientId, outcome: HttpOutcome)
    requires Inv(w) && c in w.clients && Sendable(w.clients[c].stored.request)
    requires w.gate.entry.row.None? || w.gate.entry.row.value.client == c
    requires !Repeats(w.clients[c].stored.request, Attempts(w.gate.entry) + 1, outcome)
    ensures exists v, x :: Reaches(w, v) && CompleteWith(v, c, x)
                           && v.gate.calls == w.gate.calls + (if Undispatched(w.gate.entry) then 1 else 0)
                           && (Undispatched(w.gate.entry) ==> Carries(x, outcome))
  {
    OwnRequest(w, c);
    if w.clients[c].stored.state == Op.Complete {
      var v, x := CompletedIsTold(w, c);
    } else {
      var v, x := Completes(w, c, outcome);
    }
  }

  lemma OwnerStays(w: World, v: World)
    requires Inv(w) && Reaches(w, v) && w.gate.entry.row.Some?
    ensures v.gate.entry.row.Some? && v.gate.entry.row.value.client == w.gate.entry.row.value.client
  {
    var events :| RunFrom(w, events) == v;
    RunLater(w, events);
  }

  lemma CompleteIsOwned(v: World, c: ClientId)
    requires Inv(v) && c in v.clients && v.clients[c].stored.state == Op.Complete
    ensures v.gate.entry.row.Some? && v.gate.entry.row.value.client == c
  {
    assert SideOk(FactsOf(v.gate), c, v.clients[c]);
  }

  /** The condition on the owner is exact: once another client owns the ID, the operation never completes. */
  lemma OnlyOwnerCompletes(w: World, v: World, c: ClientId)
    requires Inv(w) && Reaches(w, v) && c in v.clients
    requires w.gate.entry.row.Some? && w.gate.entry.row.value.client != c
    ensures v.clients[c].stored.state != Op.Complete
  {
    ReachedInv(w, v);
    OwnerStays(w, v);
    if v.clients[c].stored.state == Op.Complete {
      CompleteIsOwned(v, c);
    }
  }
}
