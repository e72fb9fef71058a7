/** The outgoing exchange for one request ID: proxy tables, proxy workers, the bus and every
    client that uses the ID, advanced one atomic event at a time.  The bus is a growing set of
    messages, which covers loss, duplication and reordering.  An event that is not enabled
    leaves the world unchanged, so every event sequence is a run. */
module OutgoingProtocol {
  import opened Contracts
  import opened OutgoingTables
  import opened Worker
  import Op = ClientOperation

  type WorkerId = nat

  datatype Operation = Operation(request: HttpRequest, attempts: nat, token: Token)

  /** Where a worker is inside `execute`. */
  datatype Phase =
    | Holding
    | Fenced
    | Calling
    | Retrying(reason: string, next: int)
    | Publishing(result: HttpResult)
    | Saving(result: HttpResult)

  datatype WorkerState = WorkerState(op: Operation, phase: Phase)

  /** Where the client is inside `execute`. */
  datatype Stage =
    | AwaitingAcceptance
    | AckingAcceptance(delivery: DeliveryId)
    | AwaitingResult
    | AckingResult(delivery: DeliveryId, effective: HttpResult)

  datatype Run = NoRun | Run(request: HttpRequest, stage: Stage)

  /** `loaded` holds the snapshots that concurrent `start` calls have read but not acted on;
      `reported` is the history of results handed to callers. */
  datatype ClientSide = ClientSide(
    stored: Op.StoredOperation, loaded: set<Op.StoredOperation>, run: Run, reported: set<HttpResult>)

  datatype Message =
    | RequestMsg(sender: ClientId, request: HttpRequest)
    | AcceptanceMsg(to: ClientId, acceptance: Acceptance)
    | AcceptanceAckMsg(ack: DeliveryAck)
    | ResultMsg(to: ClientId, result: HttpResult)
    | ResultAckMsg(ack: DeliveryAck)
    | ConfirmedMsg(to: ClientId, delivery: DeliveryId)

  /** The proxy's side.  `used` are the dispatch tokens drawn so far; `calls` counts HTTP calls
      started; `won` is the first success a worker received (both are history, read by no step). */
  datatype Gateway = Gateway(
    id: RequestId, proxy: ProxyId, entry: Entry,
    workers: map<WorkerId, WorkerState>, used: set<Token>,
    calls: nat, won: Option<HttpResult>)

  datatype World = World(gate: Gateway, net: set<Message>, clients: map<ClientId, ClientSide>)

  function Start(id: RequestId, proxy: ProxyId): World
  {
    World(Gateway(id, proxy, EMPTY_ENTRY, map[], {}, 0, None), {}, map[])
  }

  /** The facts validateRequest takes from configuration and URL parsing. */
  datatype RequestCheck = RequestCheck(allowed: bool, maxBytes: int, absoluteUrl: bool)

  datatype ClientEvent =
    | Submit(request: HttpRequest)
    | Load
    | AnswerFromStore(snapshot: Op.StoredOperation)
    | BeginRun(snapshot: Op.StoredOperation)
    | PublishRequest
    | ReceiveAcceptance(acceptance: Acceptance, report: Report)
    | PublishAcceptanceAck
    | AcceptanceAckConfirmed
    | ReceiveResult(result: HttpResult, report: Report)
    | PublishResultAck
    | ResultAckConfirmed(report: Report)
    | ClientStops

  datatype ProxyEvent =
    | HandleRequest(sender: ClientId, request: HttpRequest, check: RequestCheck, now: int, report: Report)
    | HandleAcceptanceAck(ack: DeliveryAck, now: int, report: Report)
    | HandleResultAck(ack: DeliveryAck, now: int, report: Report)
    | PublishAcceptance
    | PublishResult
    | TouchDelivery(kind: Kind, attempts: nat, nextAttemptAt: int, leaseUntil: Option<int>)
    | RecoverExpired(now: int, completedAt: int, report: Report)

  datatype WorkerEvent =
    | ReserveRequest(token: Token, now: int, lease: int, report: Report)
    | Release(report: Report)
    | Fence(now: int, lease: int, report: Report)
    | StartCall
    | EndCall(outcome: HttpOutcome, next: int, completedAt: int)
    | Retry(report: Report)
    | PublishDirect
    | SaveWorkerResult(now: int, report: Report)
    | WorkerStops

  datatype Event =
    | AtClient(client: ClientId, act: ClientEvent)
    | AtProxy(happening: ProxyEvent)
    | AtWorker(worker: WorkerId, step: WorkerEvent)

  // ---- client side ----

  function Sent(w: World, m: Message): World { w.(net := w.net + {m}) }

  function WithClient(w: World, c: ClientId, side: ClientSide): World
  {
    w.(clients := w.clients[c := side])
  }

  predicate Running(w: World, c: ClientId)
  {
    c in w.clients && w.clients[c].run.Run?
  }

  function AtStage(side: ClientSide, stage: Stage): ClientSide
    requires side.run.Run?
  {
    side.(run := side.run.(stage := stage))
  }

  /** SaveOutgoing: the first request under an ID is kept; a later one changes nothing. */
  function DoSubmit(w: World, c: ClientId, request: HttpRequest): World
  {
    if request.requestId != w.gate.id || request.clientId != c || request.proxyId != w.gate.proxy then w
    else if c in w.clients then w
    else WithClient(w, c, ClientSide(Op.NewOperation(request), {}, NoRun, {}))
  }

  function DoLoad(w: World, c: ClientId): World
  {
    if c !in w.clients then w
    else
      var side := w.clients[c];
      WithClient(w, c, side.(loaded := side.loaded + {side.stored}))
  }

  function DoAnswerFromStore(w: World, c: ClientId, snapshot: Op.StoredOperation): World
  {
    if c !in w.clients || snapshot !in w.clients[c].loaded || !Op.AnsweredFromStore(snapshot) then w
    else
      var side := w.clients[c];
      WithClient(w, c, side.(reported := side.reported + {snapshot.result.value}))
  }

  function DoBeginRun(w: World, c: ClientId, snapshot: Op.StoredOperation): World
  {
    if c !in w.clients || snapshot !in w.clients[c].loaded then w
    else if w.clients[c].run.Run? || Op.AnsweredFromStore(snapshot) then w
    else WithClient(w, c, w.clients[c].(run := Run(snapshot.request, AwaitingAcceptance)))
  }

  function DoPublishRequest(w: World, c: ClientId): World
  {
    if !Running(w, c) || !w.clients[c].run.stage.AwaitingAcceptance? then w
    else Sent(w, RequestMsg(c, w.clients[c].run.request))
  }

  function DoReceiveAcceptance(w: World, c: ClientId, a: Acceptance, report: Report): World
  {
    if !Running(w, c) || !w.clients[c].run.stage.AwaitingAcceptance? || AcceptanceMsg(c, a) !in w.net then w
    else
      var side := w.clients[c];
      if a.Rejected? then WithClient(w, c, side.(run := NoRun))
      else
        var tx := Commit(Op.MarkAccepted(side.stored));
        var saved := side.(stored := Durable(side.stored, tx, report));
        WithClient(w, c, if Seen(tx, report) then AtStage(saved, AckingAcceptance(a.deliveryId))
                         else saved.(run := NoRun))
  }

  function DoPublishAcceptanceAck(w: World, c: ClientId): World
  {
    if !Running(w, c) || !w.clients[c].run.stage.AckingAcceptance? then w
    else Sent(w, AcceptanceAckMsg(DeliveryAck(w.gate.id, w.clients[c].run.stage.delivery, c)))
  }

  function DoAcceptanceAckConfirmed(w: World, c: ClientId): World
  {
    if !Running(w, c) || !w.clients[c].run.stage.AckingAcceptance?
       || ConfirmedMsg(c, w.clients[c].run.stage.delivery) !in w.net then w
    else WithClient(w, c, AtStage(w.clients[c], AwaitingResult))
  }

  function DoReceiveResult(w: World, c: ClientId, r: HttpResult, report: Report): World
  {
    if !Running(w, c) || !w.clients[c].run.stage.AwaitingResult? || ResultMsg(c, r) !in w.net then w
    else
      var side := w.clients[c];
      var tx := if r.proxyId != w.gate.proxy then Rollback(RequestConflict) else Commit(Op.SaveResult(side.stored, r));
      var saved := side.(stored := Durable(side.stored, tx, report));
      WithClient(w, c, if Seen(tx, report) then AtStage(saved, AckingResult(r.resultId, Op.Effective(side.stored, r)))
                       else saved.(run := NoRun))
  }

  function DoPublishResultAck(w: World, c: ClientId): World
  {
    if !Running(w, c) || !w.clients[c].run.stage.AckingResult? then w
    else Sent(w, ResultAckMsg(DeliveryAck(w.gate.id, w.clients[c].run.stage.delivery, c)))
  }

  function DoResultAckConfirmed(w: World, c: ClientId, report: Report): World
  {
    if !Running(w, c) || !w.clients[c].run.stage.AckingResult?
       || ConfirmedMsg(c, w.clients[c].run.stage.delivery) !in w.net then w
    else
      var side := w.clients[c];
      var tx := Commit(Op.MarkComplete(side.stored));
      var ended := side.(stored := Durable(side.stored, tx, report), run := NoRun);
      WithClient(w, c, if Seen(tx, report) then ended.(reported := side.reported + {side.run.stage.effective})
                       else ended)
  }

  /** The process stops (or its context is cancelled): memory is lost, the store is not. */
  function DoClientStops(w: World, c: ClientId): World
  {
    if c !in w.clients then w else WithClient(w, c, w.clients[c].(run := NoRun, loaded := {}))
  }

  // ---- proxy message handlers and the delivery loop ----

  /** What a step of the proxy leaves behind: its new state and at most one published message. */
  datatype Out = Out(gate: Gateway, sent: Option<Message>)

  function Quiet(g: Gateway): Out { Out(g, None) }

  predicate ValidRequest(r: HttpRequest, sender: ClientId, proxy: ProxyId, check: RequestCheck)
  {
    && r.requestId != "" && r.clientId == sender && r.proxyId == proxy
    && check.allowed
    && |r.body| <= check.maxBytes
    && r.httpMethod != ""
    && check.absoluteUrl
    && 0 <= r.retry.maxAttempts <= MAX_ATTEMPTS
  }

  function AcceptTx(g: Gateway, r: HttpRequest, now: int): Tx<Entry>
  {
    AcceptHttpRequest(g.entry, r, Accepted(g.id, AcceptanceOf(g.id), g.proxy, now), now)
  }

  function Answer(g: Gateway, sender: ClientId, code: string): Out
  {
    Out(g, Some(AcceptanceMsg(sender, Rejected(g.id, g.proxy, code))))
  }

  function DoHandleRequest(g: Gateway, net: set<Message>, sender: ClientId, r: HttpRequest, check: RequestCheck,
                           now: int, report: Report): Out
  {
    if RequestMsg(sender, r) !in net then Quiet(g)
    else if !ValidRequest(r, sender, g.proxy, check) then Answer(g, sender, "invalid_request")
    else
      var tx := AcceptTx(g, r, now);
      if tx.Rollback? then Answer(g, sender, "request_id_conflict")
      else Quiet(g.(entry := Durable(g.entry, tx, report)))
  }

  function Confirmed<S>(g: Gateway, tx: Tx<S>, report: Report, ack: DeliveryAck): Out
  {
    Out(g, if Seen(tx, report) then Some(ConfirmedMsg(ack.clientId, ack.deliveryId)) else None)
  }

  function DoHandleAcceptanceAck(g: Gateway, net: set<Message>, ack: DeliveryAck, now: int, report: Report): Out
  {
    if AcceptanceAckMsg(ack) !in net || ack.requestId != g.id || ack.deliveryId != AcceptanceOf(g.id) then Quiet(g)
    else
      var tx := ConfirmAcceptance(g.entry, ack.clientId, now);
      Confirmed(g.(entry := Durable(g.entry, tx, report)), tx, report, ack)
  }

  function DoHandleResultAck(g: Gateway, net: set<Message>, ack: DeliveryAck, now: int, report: Report): Out
  {
    if ResultAckMsg(ack) !in net || ack.requestId != g.id || ack.deliveryId != ResultOf(g.id) then Quiet(g)
    else
      var tx := ConfirmResult(g.entry, ack.clientId, now);
      Confirmed(g.(entry := Durable(g.entry, tx, report)), tx, report, ack)
  }

  function DoPublishAcceptance(g: Gateway): Out
  {
    if g.entry.acceptance.None? || !g.entry.acceptance.value.payload.AcceptancePayload? then Quiet(g)
    else Out(g, Some(AcceptanceMsg(g.entry.acceptance.value.client, g.entry.acceptance.value.payload.acceptance)))
  }

  function DoPublishResult(g: Gateway): Out
  {
    if g.entry.result.None? || !g.entry.result.value.payload.ResultPayload? then Quiet(g)
    else Out(g, Some(ResultMsg(g.entry.result.value.client, g.entry.result.value.payload.result)))
  }

  /** Claims and reschedules touch only the queue columns of a delivery. */
  function DoTouch(g: Gateway, kind: Kind, attempts: nat, next: int, lease: Option<int>): Out
  {
    var touch := (d: Delivery) => d.(attempts := attempts, nextAttemptAt := next, leaseUntil := lease);
    if kind == AcceptanceKind then Quiet(g.(entry := g.entry.(acceptance := MapDelivery(g.entry.acceptance, touch))))
    else Quiet(g.(entry := g.entry.(result := MapDelivery(g.entry.result, touch))))
  }

  function DoRecover(g: Gateway, now: int, completedAt: int, report: Report): Out
  {
    Quiet(g.(entry := Durable(g.entry, Commit(Recover(g.id, g.entry, now, completedAt)), report)))
  }

  // ---- workers ----

  predicate InPhase(g: Gateway, k: WorkerId, p: Phase)
  {
    k in g.workers && g.workers[k].phase == p
  }

  function WithoutWorker(g: Gateway, k: WorkerId): Gateway { g.(workers := g.workers - {k}) }

  function WithPhase(g: Gateway, k: WorkerId, p: Phase): Gateway
    requires k in g.workers
  {
    g.(workers := g.workers[k := g.workers[k].(phase := p)])
  }

  function DoReserve(g: Gateway, k: WorkerId, token: Token, now: int, lease: int, report: Report): Gateway
  {
    if k in g.workers || token in g.used then g
    else
      var tx := Reserve(g.entry, token, now, lease);
      var saved := g.(entry := Durable(g.entry, tx, report), used := g.used + {token});
      if !Seen(tx, report) then saved
      else
        var r := g.entry.row.value;
        saved.(workers := g.workers[k := WorkerState(Operation(r.request, r.attempts, token), Holding)])
  }

  /** No permit, or a limiter error: give the reservation back and stop working on it. */
  function DoRelease(g: Gateway, k: WorkerId, report: Report): Gateway
  {
    if !InPhase(g, k, Holding) then g
    else WithoutWorker(g.(entry := Durable(g.entry, ReleaseReserved(g.entry, g.workers[k].op.token), report)), k)
  }

  function DoFence(g: Gateway, k: WorkerId, now: int, lease: int, report: Report): Gateway
  {
    if !InPhase(g, k, Holding) then g
    else
      var tx := BeginDispatch(g.entry, g.workers[k].op.token, now, lease);
      var saved := g.(entry := Durable(g.entry, tx, report));
      if Seen(tx, report) then WithPhase(saved, k, Fenced) else WithoutWorker(saved, k)
  }

  function DoStartCall(g: Gateway, k: WorkerId): Gateway
  {
    if !InPhase(g, k, Fenced) then g
    else WithPhase(g, k, Calling).(calls := g.calls + 1)
  }

  function DoEndCall(g: Gateway, k: WorkerId, outcome: HttpOutcome, next: int, completedAt: int): Gateway
  {
    if !InPhase(g, k, Calling) then g
    else
      var op := g.workers[k].op;
      var attempt := op.attempts + 1;
      if CanRetry(op.request, attempt, outcome) then WithPhase(g, k, Retrying(RetryReason(outcome), next))
      else
        var result := ResultOfCall(op.request, g.proxy, attempt, outcome, completedAt);
        var ended := WithPhase(g, k, Publishing(result));
        if Op.IsSuccess(result) && g.won.None? then ended.(won := Some(result)) else ended
  }

  function DoRetry(g: Gateway, k: WorkerId, report: Report): Gateway
  {
    if k !in g.workers || !g.workers[k].phase.Retrying? then g
    else
      var x := g.workers[k];
      var tx := ScheduleRetry(g.entry, x.op.token, x.phase.reason, x.phase.next);
      WithoutWorker(g.(entry := Durable(g.entry, tx, report)), k)
  }

  /** Publish the result to the client before it is saved. */
  function DoPublishDirect(g: Gateway, k: WorkerId): Out
  {
    if k !in g.workers || !g.workers[k].phase.Publishing? then Quiet(g)
    else
      var x := g.workers[k];
      Out(WithPhase(g, k, Saving(x.phase.result)), Some(ResultMsg(x.op.request.clientId, x.phase.result)))
  }

  /** The save loop: on any reported error the worker tries again. */
  function DoSaveResult(g: Gateway, k: WorkerId, now: int, report: Report): Gateway
  {
    if k !in g.workers || !g.workers[k].phase.Saving? then g
    else
      var x := g.workers[k];
      var tx := SaveHttpResult(g.entry, x.op.token, x.op.request.clientId, x.phase.result, now);
      var saved := g.(entry := Durable(g.entry, tx, report));
      if Seen(tx, report) then WithoutWorker(saved, k) else saved
  }

  // ---- runs ----

  function ApplyClient(w: World, c: ClientId, ev: ClientEvent): World
  {
    match ev
    case Submit(r) => DoSubmit(w, c, r)
    case Load => DoLoad(w, c)
    case AnswerFromStore(s) => DoAnswerFromStore(w, c, s)
    case BeginRun(s) => DoBeginRun(w, c, s)
    case PublishRequest => DoPublishRequest(w, c)
    case ReceiveAcceptance(a, report) => DoReceiveAcceptance(w, c, a, report)
    case PublishAcceptanceAck => DoPublishAcceptanceAck(w, c)
    case AcceptanceAckConfirmed => DoAcceptanceAckConfirmed(w, c)
    case ReceiveResult(r, report) => DoReceiveResult(w, c, r, report)
    case PublishResultAck => DoPublishResultAck(w, c)
    case ResultAckConfirmed(report) => DoResultAckConfirmed(w, c, report)
    case ClientStops => DoClientStops(w, c)
  }

  function ApplyProxy(g: Gateway, net: set<Message>, ev: ProxyEvent): Out
  {
    match ev
    case HandleRequest(s, r, check, now, report) => DoHandleRequest(g, net, s, r, check, now, report)
    case HandleAcceptanceAck(ack, now, report) => DoHandleAcceptanceAck(g, net, ack, now, report)
    case HandleResultAck(ack, now, report) => DoHandleResultAck(g, net, ack, now, report)
    case PublishAcceptance => DoPublishAcceptance(g)
    case PublishResult => DoPublishResult(g)
    case TouchDelivery(kind, n, next, lease) => DoTouch(g, kind, n, next, lease)
    case RecoverExpired(now, at, report) => DoRecover(g, now, at, report)
  }

  function ApplyWorker(g: Gateway, k: WorkerId, ev: WorkerEvent): Out
  {
    match ev
    case ReserveRequest(token, now, lease, report) => Quiet(DoReserve(g, k, token, now, lease, report))
    case Release(report) => Quiet(DoRelease(g, k, report))
    case Fence(now, lease, report) => Quiet(DoFence(g, k, now, lease, report))
    case StartCall => Quiet(DoStartCall(g, k))
    case EndCall(outcome, next, at) => Quiet(DoEndCall(g, k, outcome, next, at))
    case Retry(report) => Quiet(DoRetry(g, k, report))
    case PublishDirect => DoPublishDirect(g, k)
    case SaveWorkerResult(now, report) => Quiet(DoSaveResult(g, k, now, report))
    case WorkerStops => Quiet(WithoutWorker(g, k))
  }

  function Absorb(w: World, out: Out): World
  {
    w.(gate := out.gate, net := if out.sent.Some? then w.net + {out.sent.value} else w.net)
  }

  function Apply(w: World, ev: Event): World
  {
    match ev
    case AtClient(c, e) => ApplyClient(w, c, e)
    case AtProxy(e) => Absorb(w, ApplyProxy(w.gate, w.net, e))
    case AtWorker(k, e) => Absorb(w, ApplyWorker(w.gate, k, e))
  }

  function RunFrom(w: World, events: seq<Event>): World
    decreases |events|
  {
    if events == [] then w else RunFrom(Apply(w, events[0]), events[1..])
  }
}
