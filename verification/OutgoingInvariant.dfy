/** The inductive invariant of the outgoing exchange.  It is a conjunction of parts that each
    read as little of the world as possible, so that an event only has to re-establish the
    parts it touches. */
module OutgoingInvariant {
  import opened Contracts
  import opened OutgoingTables
  import opened Worker
  import opened OutgoingProtocol
  import Op = ClientOperation

  // ---- proxy tables ----

  predicate InFlight(s: Status) { s == Reserved || s == Dispatching }

  predicate RowOk(id: RequestId, r: Row)
  {
    && r.request.requestId == id && r.client == r.request.clientId && r.proxy == r.request.proxyId
    && r.request.retry.maxAttempts <= MAX_ATTEMPTS
    && (r.token.Some? <==> InFlight(r.status))
    && (r.leaseUntil.Some? <==> InFlight(r.status))
    && (r.result.Some? <==> Finished(r.status))
    && (r.status == Completed ==> Op.IsSuccess(r.result.value))
    && (r.status == Unknown ==> !Op.IsSuccess(r.result.value))
    && r.attempts <= Budget(r.request)
    && (r.status == AwaitingAcceptanceAck ==> r.attempts == 0)
    && (Queued(r.status) ==> r.attempts < Budget(r.request))
  }

  predicate DeliveryFor(d: Delivery, kind: Kind, client: ClientId, id: RequestId)
  {
    d.kind == kind && d.client == client && d.requestId == id
  }

  predicate AcceptanceOk(d: Delivery, client: ClientId, id: RequestId)
  {
    && DeliveryFor(d, AcceptanceKind, client, id)
    && d.payload.AcceptancePayload? && d.payload.acceptance.Accepted?
    && d.payload.acceptance.deliveryId == AcceptanceOf(id)
  }

  /** Row and deliveries agree: the result delivery exists exactly when the row has finished,
      and carries the row's result. */
  predicate EntryOk(id: RequestId, e: Entry)
  {
    match e.row
    case None => e.acceptance.None? && e.result.None?
    case Some(r) =>
      && RowOk(id, r)
      && e.acceptance.Some? && AcceptanceOk(e.acceptance.value, r.client, id)
      && (e.result.Some? <==> Finished(r.status))
      && (e.result.Some? ==> DeliveryFor(e.result.value, ResultKind, r.client, id)
                             && e.result.value.payload == ResultPayload(r.result.value))
  }

  // ---- workers ----

  predicate PastFence(p: Phase) { !p.Holding? }

  predicate HasResult(p: Phase) { p.Publishing? || p.Saving? }

  predicate WorkerFits(e: Entry, calls: nat, x: WorkerState)
  {
    && e.row.Some?
    && var r := e.row.value;
    && x.op.request == r.request
    && (x.phase.Holding? && r.token == Some(x.op.token) ==> r.status == Reserved && r.attempts == x.op.attempts)
    && (PastFence(x.phase) ==>
          || Finished(r.status)
          || (r.status == Dispatching && r.token == Some(x.op.token) && r.attempts == x.op.attempts + 1))
    && (x.phase.Fenced? ==> calls < r.attempts)
    && (x.phase.Retrying? ==> x.op.attempts + 1 < Budget(x.op.request))
  }

  function AttemptsOf(e: Entry): nat { if e.row.Some? then e.row.value.attempts else 0 }

  predicate TokenKnown(e: Entry, used: set<Token>)
  {
    e.row.Some? && e.row.value.token.Some? ==> e.row.value.token.value in used
  }

  /** Distinct workers hold distinct tokens, and at most one of them is past the fence. */
  predicate Exclusive(used: set<Token>, workers: map<WorkerId, WorkerState>)
  {
    && (forall k :: k in workers ==> workers[k].op.token in used)
    && (forall j, k :: j in workers && k in workers && workers[j].op.token == workers[k].op.token ==> j == k)
    && (forall j, k :: j in workers && k in workers && PastFence(workers[j].phase) && PastFence(workers[k].phase) ==>
          j == k)
  }

  predicate WorkersOk(e: Entry, calls: nat, used: set<Token>, workers: map<WorkerId, WorkerState>)
  {
    && calls <= AttemptsOf(e)
    && TokenKnown(e, used)
    && (forall k :: k in workers ==> WorkerFits(e, calls, workers[k]))
    && Exclusive(used, workers)
  }

  // ---- what clients and messages may rely on ----

  /** The facts about the proxy that other parties depend on; they only ever grow. */
  datatype Facts = Facts(id: RequestId, proxy: ProxyId, won: Option<HttpResult>, owner: Option<ClientId>,
                         delivered: bool)

  function OwnerOf(e: Entry): Option<ClientId>
  {
    if e.row.Some? then Some(e.row.value.client) else None
  }

  predicate IsDelivered(e: Entry) { e.row.Some? && e.row.value.status == ResultDelivered }

  function FactsOf(g: Gateway): Facts
  {
    Facts(g.id, g.proxy, g.won, OwnerOf(g.entry), IsDelivered(g.entry))
  }

  predicate Grow(f: Facts, g: Facts)
  {
    && f.id == g.id && f.proxy == g.proxy
    && (f.won.Some? ==> g.won == f.won)
    && (f.owner.Some? ==> g.owner == f.owner)
    && (f.delivered ==> g.delivered)
  }

  /** A result that may exist: named after the request, and a success only if it is the winner. */
  predicate Genuine(id: RequestId, proxy: ProxyId, won: Option<HttpResult>, r: HttpResult)
  {
    && r.requestId == id && r.resultId == ResultOf(id) && r.proxyId == proxy
    && (Op.IsSuccess(r) ==> won == Some(r))
  }

  predicate Allowed(f: Facts, r: HttpResult) { Genuine(f.id, f.proxy, f.won, r) }

  /** Results held by the proxy are genuine.  Once a success exists, no call is running or about
      to run, and the row does not go back to the queue. */
  predicate ResultsOk(g: Gateway)
  {
    && (g.entry.row.Some? && g.entry.row.value.result.Some? ==>
          Genuine(g.id, g.proxy, g.won, g.entry.row.value.result.value))
    && (forall k :: k in g.workers && HasResult(g.workers[k].phase) ==>
          Genuine(g.id, g.proxy, g.won, g.workers[k].phase.result))
    && (g.won.Some? ==>
          && g.entry.row.Some? && Op.IsSuccess(g.won.value)
          && (g.entry.row.value.status == Dispatching || Finished(g.entry.row.value.status))
          && forall k :: k in g.workers && PastFence(g.workers[k].phase) ==> HasResult(g.workers[k].phase))
  }

  predicate GateOk(g: Gateway)
  {
    && EntryOk(g.id, g.entry)
    && (g.entry.row.Some? ==> g.entry.row.value.proxy == g.proxy)
    && WorkersOk(g.entry, g.calls, g.used, g.workers)
    && ResultsOk(g)
  }

  predicate StageOk(f: Facts, c: ClientId, side: ClientSide)
  {
    side.run.Run? ==>
      && side.run.request == side.stored.request
      && match side.run.stage
         case AwaitingAcceptance => true
         case AckingAcceptance(d) => side.stored.state != Op.Outgoing && f.owner == Some(c) && d == AcceptanceOf(f.id)
         case AwaitingResult => side.stored.state != Op.Outgoing
         case AckingResult(d, r) =>
           side.stored.state != Op.Outgoing && side.stored.result == Some(r) && d == ResultOf(f.id)
  }

  predicate SnapshotOk(f: Facts, request: HttpRequest, s: Op.StoredOperation)
  {
    s.request == request && (s.result.Some? ==> Allowed(f, s.result.value))
  }

  predicate SideOk(f: Facts, c: ClientId, side: ClientSide)
  {
    && side.stored.request.requestId == f.id && side.stored.request.clientId == c
    && side.stored.request.proxyId == f.proxy
    && SnapshotOk(f, side.stored.request, side.stored)
    && (forall s :: s in side.loaded ==> SnapshotOk(f, side.stored.request, s))
    && (forall r :: r in side.reported ==> Allowed(f, r))
    && (side.stored.state == Op.Complete ==> side.stored.result.Some? && f.owner == Some(c) && f.delivered)
    && StageOk(f, c, side)
  }

  predicate SidesOk(f: Facts, clients: map<ClientId, ClientSide>)
  {
    forall c :: c in clients ==> SideOk(f, c, clients[c])
  }

  predicate LeftOutgoing(clients: map<ClientId, ClientSide>, c: ClientId)
  {
    c in clients && clients[c].stored.state != Op.Outgoing
  }

  predicate MessageOk(f: Facts, clients: map<ClientId, ClientSide>, m: Message)
  {
    match m
    case RequestMsg(c, r) => c in clients && r == clients[c].stored.request
    case AcceptanceMsg(c, a) => a.Accepted? ==> f.owner == Some(c) && a.deliveryId == AcceptanceOf(f.id)
    case AcceptanceAckMsg(ack) => LeftOutgoing(clients, ack.clientId)
    case ResultMsg(c, r) => f.owner == Some(c) && Allowed(f, r)
    case ResultAckMsg(ack) => ack.clientId in clients && clients[ack.clientId].stored.result.Some?
    case ConfirmedMsg(c, d) => d == ResultOf(f.id) ==> f.owner == Some(c) && f.delivered
  }

  predicate NetOk(f: Facts, clients: map<ClientId, ClientSide>, net: set<Message>)
  {
    forall m :: m in net ==> MessageOk(f, clients, m)
  }

  /** The owner of the row stored exactly that request, and recorded acceptance before the row moved on. */
  predicate OwnerOk(e: Entry, clients: map<ClientId, ClientSide>)
  {
    e.row.Some? ==>
      var r := e.row.value;
      && r.client in clients && r.request == clients[r.client].stored.request
      && (r.status != AwaitingAcceptanceAck ==> LeftOutgoing(clients, r.client))
  }

  predicate Inv(w: World)
  {
    && GateOk(w.gate)
    && OwnerOk(w.gate.entry, w.clients)
    && SidesOk(FactsOf(w.gate), w.clients)
    && NetOk(FactsOf(w.gate), w.clients, w.net)
  }

  // ---- the three kinds of change ----

  /** What a client step may do to what others know about it. */
  predicate SideGrows(a: ClientSide, b: ClientSide)
  {
    && a.stored.request == b.stored.request
    && (a.stored.state != Op.Outgoing ==> b.stored.state != Op.Outgoing)
    && (a.stored.result.Some? ==> b.stored.result.Some?)
  }

  lemma ClientStep(w: World, c: ClientId, side: ClientSide)
    requires Inv(w)
    requires SideOk(FactsOf(w.gate), c, side)
    requires c in w.clients ==> SideGrows(w.clients[c], side)
    ensures Inv(WithClient(w, c, side))
  {
    var clients := w.clients[c := side];
    forall m | m in w.net
      ensures MessageOk(FactsOf(w.gate), clients, m)
    {
      assert MessageOk(FactsOf(w.gate), w.clients, m);
    }
  }

  lemma SendStep(w: World, m: Message)
    requires Inv(w)
    requires MessageOk(FactsOf(w.gate), w.clients, m)
    ensures Inv(Sent(w, m))
  {
  }

  lemma SideMono(f: Facts, g: Facts, c: ClientId, side: ClientSide)
    requires Grow(f, g) && SideOk(f, c, side)
    ensures SideOk(g, c, side)
  {
  }

  lemma MessageMono(f: Facts, g: Facts, clients: map<ClientId, ClientSide>, m: Message)
    requires Grow(f, g) && MessageOk(f, clients, m)
    ensures MessageOk(g, clients, m)
  {
  }

  /** A step of the proxy, with the message it publishes. */
  lemma ProxyStep(w: World, out: Out)
    requires Inv(w)
    requires GateOk(out.gate) && Grow(FactsOf(w.gate), FactsOf(out.gate))
    requires OwnerOk(out.gate.entry, w.clients)
    requires out.sent.Some? ==> MessageOk(FactsOf(out.gate), w.clients, out.sent.value)
    ensures Inv(Absorb(w, out))
  {
    var f, g := FactsOf(w.gate), FactsOf(out.gate);
    forall c | c in w.clients
      ensures SideOk(g, c, w.clients[c])
    {
      SideMono(f, g, c, w.clients[c]);
    }
    forall m | m in w.net
      ensures MessageOk(g, w.clients, m)
    {
      MessageMono(f, g, w.clients, m);
    }
  }

  /** How workers and recovery may change the row: ownership is fixed, an unconfirmed acceptance
      stays unconfirmed, and a delivered result stays delivered. */
  predicate RowEvolves(a: Entry, b: Entry)
  {
    && (b.row.Some? ==> a.row.Some?)
    && (a.row.Some? ==>
          && b.row.Some?
          && b.row.value.client == a.row.value.client && b.row.value.proxy == a.row.value.proxy
          && b.row.value.request == a.row.value.request
          && (a.row.value.status == AwaitingAcceptanceAck ==> b.row.value.status == AwaitingAcceptanceAck)
          && (a.row.value.status == ResultDelivered ==> b.row.value.status == ResultDelivered))
  }

  predicate Evolves(a: Gateway, b: Gateway)
  {
    && a.id == b.id && a.proxy == b.proxy
    && (a.won.Some? ==> b.won == a.won)
    && RowEvolves(a.entry, b.entry)
  }

  lemma EvolvesFacts(a: Gateway, b: Gateway, clients: map<ClientId, ClientSide>)
    requires Evolves(a, b) && OwnerOk(a.entry, clients)
    ensures Grow(FactsOf(a), FactsOf(b)) && OwnerOk(b.entry, clients)
  {
  }
}
