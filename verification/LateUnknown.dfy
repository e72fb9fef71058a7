/** Two runs of the outgoing exchange, for every request that the proxy accepts and every response
    that is not retried: a caller is told "unknown" after the success is in the client's store, and
    a completed operation is accepted again.  Lease recovery writes `unknown` while the call is still
    running, and the worker publishes its success all the same; the client completes with the
    unknown outcome, and a caller that loaded the operation before starts it once more. */
module LateUnknown {
  import opened Contracts
  import opened OutgoingTables
  import opened Worker
  import opened OutgoingProtocol
  import opened OutgoingSafety
  import Op = ClientOperation
  import Store = ClientStore

  const TOKEN := "token"

  /** The proxy accepts the request under some configuration, and does not retry the response. */
  predicate Answerable(req: HttpRequest, outcome: HttpOutcome)
  {
    && req.requestId != "" && req.httpMethod != "" && 0 <= req.retry.maxAttempts <= MAX_ATTEMPTS
    && outcome.Response? && !CanRetry(req, 1, outcome)
  }

  function TheAcceptance(req: HttpRequest): Acceptance
  {
    Accepted(req.requestId, AcceptanceOf(req.requestId), req.proxyId, 0)
  }

  function AcceptanceDelivery(req: HttpRequest): Delivery
  {
    NewDelivery(AcceptanceKind, req.clientId, req.requestId, AcceptancePayload(TheAcceptance(req)), 0)
  }

  function Success(req: HttpRequest, outcome: HttpOutcome): HttpResult
  {
    ResultOfCall(req, req.proxyId, 1, outcome, 0)
  }

  /** What recovery writes for the first attempt. */
  function Lost(req: HttpRequest): HttpResult
  {
    LostResult(req.requestId, NewRow(req, 0).(attempts := 1), 0)
  }

  function LostDelivery(req: HttpRequest): Delivery
  {
    NewDelivery(ResultKind, req.clientId, req.requestId, ResultPayload(Lost(req)), 1)
  }

  function LostRow(req: HttpRequest): Row
  {
    NewRow(req, 0).(status := Unknown, attempts := 1, result := Some(Lost(req)), lastError := Lost(req).error)
  }

  /** The complete operation with the unknown outcome. */
  function Held(req: HttpRequest): Op.StoredOperation { Op.StoredOperation(req, Some(Lost(req)), Op.Complete) }

  predicate SideIs(w: World, req: HttpRequest, stored: Op.StoredOperation, loaded: set<Op.StoredOperation>, run: Run)
  {
    req.clientId in w.clients && w.clients[req.clientId] == ClientSide(stored, loaded, run, {})
  }

  predicate AcceptanceSent(w: World, req: HttpRequest) { AcceptanceMsg(req.clientId, TheAcceptance(req)) in w.net }

  predicate AcceptanceConfirmed(w: World, req: HttpRequest)
  {
    AcceptanceSent(w, req) && ConfirmedMsg(req.clientId, AcceptanceOf(req.requestId)) in w.net
  }

  predicate BothSent(w: World, req: HttpRequest, outcome: HttpOutcome)
  {
    ResultMsg(req.clientId, Success(req, outcome)) in w.net && ResultMsg(req.clientId, Lost(req)) in w.net
  }

  // ---- the states on the way ----

  predicate Asked(w: World, req: HttpRequest)
  {
    && w.gate == Start(req.requestId, req.proxyId).gate && RequestMsg(req.clientId, req) in w.net
    && SideIs(w, req, Op.NewOperation(req), {Op.NewOperation(req)}, Run(req, AwaitingAcceptance))
  }

  predicate Acking(w: World, req: HttpRequest)
  {
    && w.gate == Start(req.requestId, req.proxyId).gate.(
                   entry := Entry(Some(NewRow(req, 0)), Some(AcceptanceDelivery(req)), None))
    && AcceptanceSent(w, req)
    && SideIs(w, req, Op.StoredOperation(req, None, Op.AcceptedState), {Op.NewOperation(req)},
              Run(req, AckingAcceptance(AcceptanceOf(req.requestId))))
  }

  predicate Waiting(w: World, req: HttpRequest)
  {
    && AcceptanceConfirmed(w, req)
    && SideIs(w, req, Op.StoredOperation(req, None, Op.AcceptedState), {Op.NewOperation(req)}, Run(req, AwaitingResult))
  }

  predicate ReadyToRun(w: World, req: HttpRequest)
  {
    && Waiting(w, req)
    && w.gate == Start(req.requestId, req.proxyId).gate.(
                   entry := Entry(Some(NewRow(req, 0).(status := Ready)),
                                  Some(Acknowledged(AcceptanceDelivery(req), 0)), None))
  }

  predicate InCall(w: World, req: HttpRequest)
  {
    && Waiting(w, req)
    && w.gate.id == req.requestId && w.gate.proxy == req.proxyId && w.gate.won.None?
    && w.gate.entry.row == Some(NewRow(req, 0).(status := Dispatching, attempts := 1, token := Some(TOKEN),
                                                leaseUntil := Some(0)))
    && w.gate.entry.result.None?
    && w.gate.workers == map[0 := WorkerState(Operation(req, 0, TOKEN), Calling)]
  }

  /** Recovery has given the call up while it is running. */
  predicate GivenUp(w: World, req: HttpRequest)
  {
    && Waiting(w, req)
    && w.gate.id == req.requestId && w.gate.proxy == req.proxyId && w.gate.won.None?
    && w.gate.entry.row == Some(LostRow(req)) && w.gate.entry.result == Some(LostDelivery(req))
    && w.gate.workers == map[0 := WorkerState(Operation(req, 0, TOKEN), Calling)]
  }

  predicate Published(w: World, req: HttpRequest, outcome: HttpOutcome)
  {
    && Waiting(w, req) && BothSent(w, req, outcome)
    && w.gate.id == req.requestId && w.gate.proxy == req.proxyId
    && w.gate.entry.row == Some(LostRow(req)) && w.gate.entry.result == Some(LostDelivery(req))
  }

  predicate Delivered(w: World, req: HttpRequest, outcome: HttpOutcome)
  {
    && AcceptanceConfirmed(w, req) && BothSent(w, req, outcome)
    && w.gate.id == req.requestId && w.gate.proxy == req.proxyId
    && ConfirmedMsg(req.clientId, ResultOf(req.requestId)) in w.net
    && SideIs(w, req, Op.StoredOperation(req, Some(Lost(req)), Op.ResultSaved), {Op.NewOperation(req)},
              Run(req, AckingResult(ResultOf(req.requestId), Lost(req))))
  }

  /** The operation is complete with the unknown outcome, one caller holds that, and another runs the
      protocol again from the snapshot it loaded at the start. */
  predicate Restarted(w: World, req: HttpRequest, outcome: HttpOutcome)
  {
    && AcceptanceConfirmed(w, req) && BothSent(w, req, outcome)
    && w.gate.id == req.requestId && w.gate.proxy == req.proxyId
    && SideIs(w, req, Held(req), {Op.NewOperation(req), Held(req)}, Run(req, AwaitingAcceptance))
  }

  predicate Succeeded(w: World, req: HttpRequest, outcome: HttpOutcome)
  {
    && req.clientId in w.clients
    && w.clients[req.clientId].stored == Op.StoredOperation(req, Some(Success(req, outcome)), Op.ResultSaved)
    && w.clients[req.clientId].loaded == {Op.NewOperation(req), Held(req)}
    && w.clients[req.clientId].reported == {}
  }

  // ---- the steps between them ----

  lemma RunThree(w: World, a: Event, b: Event, d: Event)
    ensures RunFrom(w, [a, b, d]) == Apply(Apply(Apply(w, a), b), d)
  {
    assert [a, b, d][1..] == [b, d] && [b, d][1..] == [d];
    assert RunFrom(Apply(Apply(w, a), b), [d]) == Apply(Apply(Apply(w, a), b), d);
  }

  lemma RunFour(w: World, a: Event, b: Event, d: Event, e: Event)
    ensures RunFrom(w, [a, b, d, e]) == Apply(Apply(Apply(Apply(w, a), b), d), e)
  {
    assert [a, b, d, e][1..] == [b, d, e];
    RunThree(Apply(w, a), b, d, e);
  }

  function Asking(req: HttpRequest): seq<Event>
  {
    var c := req.clientId;
    [AtClient(c, Submit(req)), AtClient(c, Load), AtClient(c, BeginRun(Op.NewOperation(req))),
     AtClient(c, PublishRequest)]
  }

  lemma AskingRuns(req: HttpRequest)
    ensures Asked(RunFrom(Start(req.requestId, req.proxyId), Asking(req)), req)
  {
    var e := Asking(req);
    RunFour(Start(req.requestId, req.proxyId), e[0], e[1], e[2], e[3]);
  }

  function Accepting(req: HttpRequest): seq<Event>
  {
    [AtProxy(HandleRequest(req.clientId, req, RequestCheck(true, |req.body|, true), 0, Reported)),
     AtProxy(PublishAcceptance), AtClient(req.clientId, ReceiveAcceptance(TheAcceptance(req), Reported))]
  }

  lemma AcceptingRuns(w: World, req: HttpRequest, outcome: HttpOutcome)
    requires Answerable(req, outcome) && Asked(w, req)
    ensures Acking(RunFrom(w, Accepting(req)), req)
  {
    var e := Accepting(req);
    RunThree(w, e[0], e[1], e[2]);
  }

  function Confirming(req: HttpRequest): seq<Event>
  {
    var ack := DeliveryAck(req.requestId, AcceptanceOf(req.requestId), req.clientId);
    [AtClient(req.clientId, PublishAcceptanceAck), AtProxy(HandleAcceptanceAck(ack, 0, Reported)),
     AtClient(req.clientId, AcceptanceAckConfirmed)]
  }

  lemma ConfirmingRuns(w: World, req: HttpRequest)
    requires Acking(w, req)
    ensures ReadyToRun(RunFrom(w, Confirming(req)), req)
  {
    var e := Confirming(req);
    RunThree(w, e[0], e[1], e[2]);
  }

  function StartingCall(): seq<Event>
  {
    [AtWorker(0, ReserveRequest(TOKEN, 0, 0, Reported)), AtWorker(0, Fence(0, 0, Reported)), AtWorker(0, StartCall)]
  }

  lemma StartingCallRuns(w: World, req: HttpRequest)
    requires ReadyToRun(w, req)
    ensures InCall(RunFrom(w, StartingCall()), req)
  {
    var e := StartingCall();
    RunThree(w, e[0], e[1], e[2]);
  }

  lemma GivingUpRuns(w: World, req: HttpRequest)
    requires InCall(w, req)
    ensures GivenUp(RunFrom(w, [AtProxy(RecoverExpired(1, 0, Reported))]), req)
  {
    var e := AtProxy(RecoverExpired(1, 0, Reported));
    assert RunFrom(w, [e]) == Apply(w, e);
  }

  function Finishing(outcome: HttpOutcome): seq<Event>
  {
    [AtWorker(0, EndCall(outcome, 0, 0)), AtWorker(0, PublishDirect), AtProxy(PublishResult)]
  }

  lemma PublishingRuns(w: World, req: HttpRequest, outcome: HttpOutcome)
    requires Answerable(req, outcome) && GivenUp(w, req)
    ensures Published(RunFrom(w, Finishing(outcome)), req, outcome)
  {
    var e := Finishing(outcome);
    RunThree(w, e[0], e[1], e[2]);
  }

  function Delivering(req: HttpRequest): seq<Event>
  {
    var ack := DeliveryAck(req.requestId, ResultOf(req.requestId), req.clientId);
    [AtClient(req.clientId, ReceiveResult(Lost(req), Reported)), AtClient(req.clientId, PublishResultAck),
     AtProxy(HandleResultAck(ack, 0, Reported))]
  }

  lemma DeliveringRuns(w: World, req: HttpRequest, outcome: HttpOutcome)
    requires Published(w, req, outcome)
    ensures Delivered(RunFrom(w, Delivering(req)), req, outcome)
  {
    var e := Delivering(req);
    RunThree(w, e[0], e[1], e[2]);
  }

  function Restarting(req: HttpRequest): seq<Event>
  {
    [AtClient(req.clientId, ResultAckConfirmed(CommittedUnreported)), AtClient(req.clientId, Load),
     AtClient(req.clientId, BeginRun(Op.NewOperation(req)))]
  }

  lemma RestartingRuns(w: World, req: HttpRequest, outcome: HttpOutcome)
    requires Delivered(w, req, outcome)
    ensures Restarted(RunFrom(w, Restarting(req)), req, outcome)
  {
    var e := Restarting(req);
    RunThree(w, e[0], e[1], e[2]);
  }

  function Succeeding(req: HttpRequest, outcome: HttpOutcome): seq<Event>
  {
    [AtClient(req.clientId, ReceiveAcceptance(TheAcceptance(req), Reported)),
     AtClient(req.clientId, AcceptanceAckConfirmed),
     AtClient(req.clientId, ReceiveResult(Success(req, outcome), Reported))]
  }

  lemma SucceedingRuns(w: World, req: HttpRequest, outcome: HttpOutcome)
    requires Answerable(req, outcome) && Restarted(w, req, outcome)
    ensures Succeeded(RunFrom(w, Succeeding(req, outcome)), req, outcome)
  {
    var e := Succeeding(req, outcome);
    RunThree(w, e[0], e[1], e[2]);
  }

  // ---- the runs ----

  lemma ReachesGivenUp(req: HttpRequest, outcome: HttpOutcome) returns (events: seq<Event>)
    requires Answerable(req, outcome)
    ensures GivenUp(After(req.requestId, req.proxyId, events), req)
  {
    var w := Start(req.requestId, req.proxyId);
    events := Asking(req);
    AskingRuns(req);
    AcceptingRuns(RunFrom(w, events), req, outcome);
    RunConcat(w, events, Accepting(req));
    events := events + Accepting(req);
    ConfirmingRuns(RunFrom(w, events), req);
    RunConcat(w, events, Confirming(req));
    events := events + Confirming(req);
    StartingCallRuns(RunFrom(w, events), req);
    RunConcat(w, events, StartingCall());
    events := events + StartingCall();
    GivingUpRuns(RunFrom(w, events), req);
    RunConcat(w, events, [AtProxy(RecoverExpired(1, 0, Reported))]);
    events := events + [AtProxy(RecoverExpired(1, 0, Reported))];
  }

  /** A completed operation is accepted again: the client is about to call MarkAccepted on it, which
      is the call on which the two stores part ways. */
  lemma ReacceptanceReachable(req: HttpRequest, outcome: HttpOutcome) returns (events: seq<Event>)
    requires Answerable(req, outcome)
    ensures var w := After(req.requestId, req.proxyId, events);
            && Restarted(w, req, outcome)
            && Store.Reaccepts(map[(req.proxyId, req.requestId) := w.clients[req.clientId].stored],
                               Store.MarkAcceptedCall(req.proxyId, req.requestId))
  {
    var w := Start(req.requestId, req.proxyId);
    events := ReachesGivenUp(req, outcome);
    PublishingRuns(RunFrom(w, events), req, outcome);
    RunConcat(w, events, Finishing(outcome));
    events := events + Finishing(outcome);
    DeliveringRuns(RunFrom(w, events), req, outcome);
    RunConcat(w, events, Delivering(req));
    events := events + Delivering(req);
    RestartingRuns(RunFrom(w, events), req, outcome);
    RunConcat(w, events, Restarting(req));
    events := events + Restarting(req);
  }

  /** For every such request and response: after `early` the client's store holds the success and no
      caller has been told anything; then a caller that loaded the complete operation is told
      "unknown". */
  lemma UnknownAfterSuccess(req: HttpRequest, outcome: HttpOutcome) returns (early: seq<Event>)
    requires Answerable(req, outcome)
    ensures var w := After(req.requestId, req.proxyId, early);
            && req.clientId in w.clients && w.clients[req.clientId].reported == {}
            && w.clients[req.clientId].stored.result == Some(Success(req, outcome))
            && Op.IsSuccess(Success(req, outcome))
    ensures !Op.IsSuccess(Lost(req))
            && ToldBy(req.requestId, req.proxyId, early + [AtClient(req.clientId, AnswerFromStore(Held(req)))],
                      req.clientId, Lost(req))
  {
    var w := Start(req.requestId, req.proxyId);
    early := ReacceptanceReachable(req, outcome);
    SucceedingRuns(RunFrom(w, early), req, outcome);
    RunConcat(w, early, Succeeding(req, outcome));
    early := early + Succeeding(req, outcome);
    HeldIsTold(req.requestId, req.proxyId, early, req.clientId, Held(req));
  }
}
