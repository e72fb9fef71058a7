/** One webhook event after its fan-out, on both sides: the proxy's event row, route and waiting
    HTTP caller (internal/repository/webhook.go, internal/transport/callback.go), the bus, and for
    each delivery the client's durable record and callback run (client/callback.go). */
module CallbackProtocol {
  import opened Contracts

  datatype EventStatus = Received | AwaitingResponse | Responded | TimedOut

  datatype Response = Response(
    delivery: DeliveryId, client: ClientId, statusCode: int, headers: seq<HeaderField>, body: Bytes)

  /** A row of proxy_deliveries; `replies` marks the delivery that carries a reply subject. */
  datatype Del = Del(client: ClientId, replies: bool, closed: bool)

  /** The event row, the route as it is now, and the HTTP request waiting for the answer. */
  datatype Desk = Desk(
    status: EventStatus, response: Option<Response>,
    delegated: bool, responder: ClientId,
    waiting: bool, channel: Option<Response>, returned: Option<Response>)

  datatype Message =
    | EventMsg(delivery: DeliveryId)
    | AckMsg(delivery: DeliveryId, client: ClientId)
    | ResponseMsg(response: Response)
    | ConfirmedMsg(to: ClientId, delivery: DeliveryId)

  datatype Stored = Stored(response: Option<Response>, completed: bool)

  /** Where a callback run is inside handleCallback. */
  datatype Stage =
    | Idle
    | Entered
    | Loaded(snapshot: Stored)
    | Handling
    | Delivering(response: Response, saved: bool, confirmed: bool)
    | Acking
    | Completing
    | ReAcking

  /** `starts` and `stops` count handler starts and process stops, `published` collects the responses
      put on the bus, and `lost` records a stop between the publication of a response and its save. */
  datatype Side = Side(
    stored: Option<Stored>, stage: Stage, starts: nat, stops: nat, published: set<Response>, lost: bool)

  datatype World = World(desk: Desk, dels: map<DeliveryId, Del>, sides: map<DeliveryId, Side>, net: set<Message>)

  /** A route without a responder stores NULL, which equals no client. */
  predicate Responds(desk: Desk, client: ClientId)
  {
    desk.responder != "" && desk.responder == client
  }

  predicate OneReply(dels: map<DeliveryId, Del>)
  {
    forall a, b :: a in dels && b in dels && dels[a].replies && dels[b].replies ==> a == b
  }

  /** The world as SaveWebhookEvent leaves it. */
  function Start(delegated: bool, responder: ClientId, dels: map<DeliveryId, Del>): World
  {
    World(Desk(if delegated then AwaitingResponse else Received, None, delegated, responder, delegated, None, None),
          dels, map d | d in dels :: Side(None, Idle, 0, 0, {}, false), {})
  }

  // ---- the client ----

  datatype ClientEvent =
    | Receive
    | SaveCallback(report: Report)
    | Decide(wellFormed: bool)
    | HandlerReturns(statusCode: int, headers: seq<HeaderField>, body: Bytes)
    | PublishResponse
    | SaveResponse(report: Report)
    | Confirm
    | Complete(report: Report)
    | PublishAck
    | Resume
    | Stop

  datatype Out = Out(side: Side, sent: Option<Message>)

  function Quiet(s: Side): Out { Out(s, None) }

  /** The window: a response is on the bus and not yet in the client's store. */
  predicate InWindow(s: Side)
  {
    s.stage.Delivering? && s.stage.response in s.published && s.stored.Some? && s.stored.value.response.None?
  }

  function Act(id: DeliveryId, d: Del, s: Side, net: set<Message>, ev: ClientEvent): Out
  {
    match ev
    case Receive =>
      if s.stage == Idle && EventMsg(id) in net then Quiet(s.(stage := Entered)) else Quiet(s)
    case SaveCallback(report) =>
      if s.stage != Entered then Quiet(s)
      else
        var row := if s.stored.Some? then s.stored.value else Stored(None, false);
        var tx := Commit(Some(row));
        Quiet(s.(stored := Durable(s.stored, tx, report), stage := if Seen(tx, report) then Loaded(row) else Idle))
    case Decide(wellFormed) =>
      if !s.stage.Loaded? then Quiet(s)
      else if s.stage.snapshot.completed then Quiet(s.(stage := ReAcking))
      else if s.stage.snapshot.response.Some? then
        Quiet(s.(stage := Delivering(s.stage.snapshot.response.value, true, false)))
      else if !wellFormed then Quiet(s.(stage := Idle))
      else Quiet(s.(stage := Handling, starts := s.starts + 1))
    case HandlerReturns(code, headers, body) =>
      if s.stage != Handling then Quiet(s)
      else if !d.replies then Quiet(s.(stage := Acking))
      else
        var r := Response(id, d.client, code, headers, body);
        Quiet(s.(stage := Delivering(r, false, false)))
    case PublishResponse =>
      if !s.stage.Delivering? || s.stage.confirmed then Quiet(s)
      else Out(s.(published := s.published + {s.stage.response}), Some(ResponseMsg(s.stage.response)))
    case SaveResponse(report) =>
      if !s.stage.Delivering? || s.stage.saved then Quiet(s)
      else if s.stored.None? then Quiet(s.(stage := Idle))
      else
        var r, row := s.stage.response, s.stored.value;
        if row.response.Some? && row.response.value != r then Quiet(s.(stage := Idle))
        else
          var tx := Commit(Some(row.(response := Some(r))));
          Quiet(s.(stored := Durable(s.stored, tx, report), stage := s.stage.(saved := Seen(tx, report))))
    case Confirm =>
      if ConfirmedMsg(d.client, id) !in net then Quiet(s)
      else if s.stage.Delivering? then Quiet(s.(stage := s.stage.(confirmed := true)))
      else if s.stage.Acking? then Quiet(s.(stage := Completing))
      else if s.stage.ReAcking? then Quiet(s.(stage := Idle))
      else Quiet(s)
    case Complete(report) =>
      var ready := s.stage.Completing? || (s.stage.Delivering? && s.stage.saved && s.stage.confirmed);
      if s.stored.None? || !ready then Quiet(s)
      else
        var tx := Commit(Some(s.stored.value.(completed := true)));
        Quiet(s.(stored := Durable(s.stored, tx, report), stage := if Seen(tx, report) then Idle else s.stage))
    case PublishAck =>
      if s.stage.Acking? || s.stage.ReAcking? then Out(s, Some(AckMsg(id, d.client))) else Quiet(s)
    case Resume =>
      if s.stage == Idle && s.stored.Some? && s.stored.value.response.Some? && !s.stored.value.completed
      then Quiet(s.(stage := Delivering(s.stored.value.response.value, true, false))) else Quiet(s)
    case Stop => Quiet(s.(stage := Idle, stops := s.stops + 1, lost := s.lost || InWindow(s)))
  }

  // ---- the proxy ----

  datatype ProxyEvent =
    | PublishEvent(delivery: DeliveryId)
    | HandleAck(delivery: DeliveryId, client: ClientId, report: Report)
    | HandleResponse(response: Response, report: Report)
    | UpdateRoute(delegated: bool, responder: ClientId)
    | Return
    | Timeout(report: Report)
    | ProxyStops

  /** SaveWebhookResponse: the first response of the current responder wins; repeating it is fine. */
  function SaveWebhookResponse(desk: Desk, dels: map<DeliveryId, Del>, r: Response): Tx<(Desk, map<DeliveryId, Del>)>
  {
    if r.delivery !in dels || dels[r.delivery].client != r.client then Rollback(AckMismatch)
    else
      var entitled := desk.delegated && Responds(desk, r.client);
      var closed := dels[r.delivery := dels[r.delivery].(closed := true)];
      if entitled && desk.status == AwaitingResponse then
        Commit((desk.(status := Responded, response := Some(r)), closed))
      else if entitled && desk.status == Responded && desk.response == Some(r) then Commit((desk, closed))
      else Rollback(ResponseConflict)
  }

  /** MarkWebhookTimedOut closes the deliveries of the route's current responder. */
  function MarkTimedOut(desk: Desk, dels: map<DeliveryId, Del>): (Desk, map<DeliveryId, Del>)
  {
    (if desk.status == AwaitingResponse then desk.(status := TimedOut) else desk,
     map d | d in dels :: if Responds(desk, dels[d].client) then dels[d].(closed := true) else dels[d])
  }

  /** The desk after the route has been rewritten. */
  function Rerouted(desk: Desk, delegated: bool, responder: ClientId): Desk
  {
    desk.(delegated := delegated, responder := responder)
  }

  function Proxy(w: World, ev: ProxyEvent): World
  {
    match ev
    case PublishEvent(d) => if d in w.dels then w.(net := w.net + {EventMsg(d)}) else w
    case HandleAck(d, c, report) =>
      if AckMsg(d, c) !in w.net || d !in w.dels || w.dels[d].client != c || report == NotCommitted then w
      else
        var v := w.(dels := w.dels[d := w.dels[d].(closed := true)]);
        if report == Reported then v.(net := v.net + {ConfirmedMsg(c, d)}) else v
    case HandleResponse(r, report) =>
      var tx := SaveWebhookResponse(w.desk, w.dels, r);
      if ResponseMsg(r) !in w.net || tx.Rollback? || report == NotCommitted then w
      else
        var v := w.(desk := tx.state.0, dels := tx.state.1);
        if report != Reported then v
        else
          var desk := if v.desk.waiting && v.desk.channel.None? then v.desk.(channel := Some(r)) else v.desk;
          v.(desk := desk, net := v.net + {ConfirmedMsg(r.client, r.delivery)})
    case UpdateRoute(delegated, responder) => w.(desk := Rerouted(w.desk, delegated, responder))
    case Return =>
      if w.desk.waiting && w.desk.channel.Some?
      then w.(desk := w.desk.(waiting := false, returned := w.desk.channel)) else w
    case Timeout(report) =>
      if !w.desk.waiting then w
      else
        var (desk, dels) := MarkTimedOut(w.desk, w.dels);
        if report == NotCommitted then w.(desk := w.desk.(waiting := false))
        else w.(desk := desk.(waiting := false), dels := dels)
    case ProxyStops => w.(desk := w.desk.(waiting := false, channel := None))
  }

  datatype Event = AtClient(delivery: DeliveryId, act: ClientEvent) | AtProxy(happening: ProxyEvent)

  function Apply(w: World, ev: Event): World
  {
    match ev
    case AtClient(d, e) =>
      if d !in w.sides || d !in w.dels then w
      else
        var out := Act(d, w.dels[d], w.sides[d], w.net, e);
        w.(sides := w.sides[d := out.side], net := if out.sent.Some? then w.net + {out.sent.value} else w.net)
    case AtProxy(e) => Proxy(w, e)
  }

  function Run(w: World, events: seq<Event>): World
    decreases |events|
  {
    if events == [] then w else Run(Apply(w, events[0]), events[1..])
  }
}
