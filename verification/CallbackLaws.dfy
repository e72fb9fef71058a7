/** Laws of the callback exchange in the columns of the tables and the fields of responses: which
    response is stored and confirmed, where every response comes from, and that from every reachable
    state a delivery can still be completed on both sides. */
module CallbackLaws {
  import opened Contracts
  import opened CallbackProtocol
  import opened CallbackSafety

  // ---- the proxy's transactions ----

  /** The delivery that the response names belongs to its sender. */
  predicate Addressed(dels: map<DeliveryId, Del>, r: Response)
  {
    r.delivery in dels && dels[r.delivery].client == r.client
  }

  /** The route asks this client, by name, for the answer. */
  predicate Asks(desk: Desk, c: ClientId) { desk.delegated && c != "" && desk.responder == c }

  predicate SameRoute(a: Desk, b: Desk) { b.delegated == a.delegated && b.responder == a.responder }

  predicate SameCaller(a: Desk, b: Desk)
  {
    b.waiting == a.waiting && b.channel == a.channel && b.returned == a.returned
  }

  /** The delivery before and after: closed now, and otherwise the same. */
  predicate JustClosed(a: Del, b: Del) { b.closed && b.client == a.client && b.replies == a.replies }

  /** A response is stored if and only if its delivery is its sender's, the route asks the sender, and
      the event waits or already holds the very same response; storing closes that delivery alone. */
  lemma ResponseColumns(desk: Desk, dels: map<DeliveryId, Del>, r: Response)
    ensures var tx := SaveWebhookResponse(desk, dels, r);
            && (tx.Commit? <==>
                  && Addressed(dels, r) && Asks(desk, r.client)
                  && (desk.status == AwaitingResponse || (desk.status == Responded && desk.response == Some(r))))
            && (tx.Rollback? ==> tx.error == if Addressed(dels, r) then ResponseConflict else AckMismatch)
            && (tx.Commit? ==>
                  var (v, after) := tx.state;
                  && v.status == Responded && v.response == Some(r) && SameRoute(desk, v) && SameCaller(desk, v)
                  && after.Keys == dels.Keys && JustClosed(dels[r.delivery], after[r.delivery])
                  && forall d :: d in dels && d != r.delivery ==> after[d] == dels[d])
  {
  }

  /** A timeout ends the wait of an event that still waits, and closes the deliveries of the client
      that the route names now. */
  lemma TimeoutColumns(desk: Desk, dels: map<DeliveryId, Del>)
    ensures var (v, after) := MarkTimedOut(desk, dels);
            && v.status == (if desk.status == AwaitingResponse then TimedOut else desk.status)
            && v.response == desk.response && SameRoute(desk, v) && SameCaller(desk, v)
            && after.Keys == dels.Keys
            && forall d :: d in dels ==>
                 if dels[d].client != "" && dels[d].client == desk.responder then JustClosed(dels[d], after[d])
                 else after[d] == dels[d]
  {
  }

  /** A route update changes mode and responder and nothing else. */
  lemma RerouteColumns(desk: Desk, delegated: bool, responder: ClientId)
    ensures var v := Rerouted(desk, delegated, responder);
            && v.delegated == delegated && v.responder == responder && SameCaller(desk, v)
            && v.status == desk.status && v.response == desk.response
  {
  }

  // ---- the proxy's handlers ----

  /** The proxy stores a response that is on the bus if and only if it commits; the sender is told
      exactly when the proxy learns of it, and so is the HTTP caller that waits. */
  lemma HandleResponseSteps(w: World, r: Response, report: Report)
    requires ResponseMsg(r) in w.net
    ensures var v := Proxy(w, HandleResponse(r, report));
            var stored := && Addressed(w.dels, r) && Asks(w.desk, r.client) && report != NotCommitted
                          && (w.desk.status == AwaitingResponse
                              || (w.desk.status == Responded && w.desk.response == Some(r)));
            && (!stored ==> v == w)
            && (stored ==>
                  && v.desk.status == Responded && v.desk.response == Some(r) && SameRoute(w.desk, v.desk)
                  && v.sides == w.sides && v.dels.Keys == w.dels.Keys
                  && JustClosed(w.dels[r.delivery], v.dels[r.delivery])
                  && (forall d :: d in w.dels && d != r.delivery ==> v.dels[d] == w.dels[d])
                  && v.net == w.net + (if report == Reported then {ConfirmedMsg(r.client, r.delivery)} else {})
                  && v.desk.waiting == w.desk.waiting && v.desk.returned == w.desk.returned
                  && v.desk.channel == (if report == Reported && w.desk.waiting && w.desk.channel.None?
                                        then Some(r) else w.desk.channel))
  {
  }

  /** A response that is already stored is confirmed again, as often as it is sent, while the route
      still asks its sender. */
  lemma RepeatIsConfirmed(w: World, r: Response)
    requires ResponseMsg(r) in w.net && w.desk.response == Some(r) && w.desk.status == Responded
    requires Addressed(w.dels, r) && Asks(w.desk, r.client)
    ensures var v := Proxy(w, HandleResponse(r, Reported));
            && ConfirmedMsg(r.client, r.delivery) in v.net
            && v.desk.status == Responded && v.desk.response == Some(r) && v.dels[r.delivery].closed
  {
  }

  /** An acknowledgement on the bus closes the delivery of the client that sent it, and only that. */
  lemma HandleAckSteps(w: World, d: DeliveryId, c: ClientId, report: Report)
    ensures var v := Proxy(w, HandleAck(d, c, report));
            var closes := AckMsg(d, c) in w.net && d in w.dels && w.dels[d].client == c && report != NotCommitted;
            && v.desk == w.desk && v.sides == w.sides
            && (!closes ==> v == w)
            && (closes ==>
                  && v.dels.Keys == w.dels.Keys && JustClosed(w.dels[d], v.dels[d])
                  && (forall x :: x in w.dels && x != d ==> v.dels[x] == w.dels[x])
                  && v.net == w.net + (if report == Reported then {ConfirmedMsg(c, d)} else {}))
  {
  }

  /** What the HTTP caller gets: the response handed to it while it waits, once; a timeout or a stop
      of the proxy ends the wait without one. */
  lemma CallerSteps(w: World, report: Report)
    ensures var v := Proxy(w, Return);
            && (w.desk.waiting && w.desk.channel.Some? ==> v.desk.returned == w.desk.channel && !v.desk.waiting)
            && (!w.desk.waiting || w.desk.channel.None? ==> v == w)
    ensures var v := Proxy(w, Timeout(report));
            && !v.desk.waiting && v.desk.returned == w.desk.returned && v.net == w.net && v.sides == w.sides
            && (!w.desk.waiting || report == NotCommitted ==>
                  v.desk.status == w.desk.status && v.dels == w.dels && v.desk.response == w.desk.response)
            && (w.desk.waiting && report != NotCommitted ==>
                  && v.desk.status == (if w.desk.status == AwaitingResponse then TimedOut else w.desk.status)
                  && v.dels.Keys == w.dels.Keys
                  && forall d :: d in w.dels ==>
                       (v.dels[d].closed <==>
                          w.dels[d].closed || (w.dels[d].client != "" && w.dels[d].client == w.desk.responder)))
    ensures var v := Proxy(w, ProxyStops);
            && !v.desk.waiting && v.desk.channel.None? && v.desk.returned == w.desk.returned
            && v.desk.status == w.desk.status && v.desk.response == w.desk.response
            && v.dels == w.dels && v.net == w.net && v.sides == w.sides
  {
  }

  /** The handler runs exactly if the loaded record holds no response and no completion and the event
      can be turned into a request; a recorded response is delivered instead, and a completed delivery
      is only acknowledged again. */
  lemma HandlerRuns(id: DeliveryId, d: Del, s: Side, net: set<Message>, wellFormed: bool)
    requires s.stage.Loaded?
    ensures var row, v := s.stage.snapshot, Act(id, d, s, net, Decide(wellFormed)).side;
            && v.stored == s.stored
            && v.starts == s.starts + (if Blank(Some(row)) && wellFormed then 1 else 0)
            && v.stage == (if row.completed then ReAcking
                           else if row.response.Some? then Delivering(row.response.value, true, false)
                           else if wellFormed then Handling else Idle)
  {
  }

  /** At its start the client goes on with exactly the deliveries that hold a response and no completion. */
  lemma ResumeDelivers(id: DeliveryId, d: Del, s: Side, net: set<Message>)
    requires s.stage == Idle
    ensures var v := Act(id, d, s, net, Resume).side;
            var pending := s.stored.Some? && s.stored.value.response.Some? && !s.stored.value.completed;
            && (!pending ==> v == s)
            && (pending ==> v == s.(stage := Delivering(s.stored.value.response.value, true, false)))
  {
  }

  // ---- where responses come from ----

  /** The response is on a client's record or in its hands. */
  predicate HeldAt(s: Side, r: Response)
  {
    || (s.stored.Some? && s.stored.value.response == Some(r))
    || (s.stage.Loaded? && s.stage.snapshot.response == Some(r))
    || (s.stage.Delivering? && s.stage.response == r)
  }

  /** The response is stored, in memory, on the bus, or with the HTTP caller. */
  predicate Exists(w: World, r: Response)
  {
    || ResponseMsg(r) in w.net
    || w.desk.response == Some(r) || w.desk.channel == Some(r) || w.desk.returned == Some(r)
    || (exists d :: d in w.sides && HeldAt(w.sides[d], r))
  }

  /** In world `w` the event is the return of a handler that was asked for a reply, and `r` is what it
      returned: its status code, headers and body, under the delivery and the client it ran for. */
  predicate Written(w: World, ev: Event, r: Response)
  {
    && ev.AtClient? && ev.act.HandlerReturns? && ev.delivery in w.dels && ev.delivery in w.sides
    && w.sides[ev.delivery].stage == Handling && w.dels[ev.delivery].replies
    && r.delivery == ev.delivery && r.client == w.dels[ev.delivery].client
    && r.statusCode == ev.act.statusCode && r.headers == ev.act.headers && r.body == ev.act.body
  }

  /** A client passes on what it holds, and adds only what its handler returns. */
  lemma ActWrites(id: DeliveryId, d: Del, s: Side, net: set<Message>, ev: ClientEvent, r: Response)
    ensures var out := Act(id, d, s, net, ev);
            HeldAt(out.side, r) || out.sent == Some(ResponseMsg(r)) ==>
              || HeldAt(s, r)
              || (ev.HandlerReturns? && s.stage == Handling && d.replies
                  && r == Response(id, d.client, ev.statusCode, ev.headers, ev.body))
  {
  }

  lemma ProxyWrites(w: World, ev: ProxyEvent, r: Response)
    ensures Exists(Proxy(w, ev), r) ==> Exists(w, r)
  {
    var v := Proxy(w, ev);
    assert v.sides == w.sides;
  }

  lemma StepWrites(w: World, ev: Event, r: Response)
    requires Exists(Apply(w, ev), r)
    ensures Exists(w, r) || Written(w, ev, r)
  {
    match ev
    case AtProxy(e) => ProxyWrites(w, e, r);
    case AtClient(d, e) =>
      if d in w.sides && d in w.dels {
        ActWrites(d, w.dels[d], w.sides[d], w.net, e, r);
        ClientWrites(w, d, Act(d, w.dels[d], w.sides[d], w.net, e), r);
      }
  }

  lemma ClientWrites(w: World, d: DeliveryId, out: Out, r: Response)
    requires d in w.sides && Exists(Replaced(w, d, out), r)
    ensures Exists(w, r) || HeldAt(out.side, r) || out.sent == Some(ResponseMsg(r))
  {
  }

  lemma AfterLast(delegated: bool, responder: ClientId, dels: map<DeliveryId, Del>, events: seq<Event>)
    requires events != []
    ensures var n := |events| - 1;
            After(delegated, responder, dels, events)
            == Apply(After(delegated, responder, dels, events[..n]), events[n])
  {
    var n := |events| - 1;
    assert events == events[..n] + [events[n]];
    RunConcat(Start(delegated, responder, dels), events[..n], [events[n]]);
    RunOne(After(delegated, responder, dels, events[..n]), events[n]);
  }

  /** Every response that is stored, sent, or returned to the HTTP caller is what some run of the
      handler returned, field by field. */
  lemma {:induction false} ResponseHasOrigin(delegated: bool, responder: ClientId, dels: map<DeliveryId, Del>,
                                             events: seq<Event>, r: Response)
    requires Exists(After(delegated, responder, dels, events), r)
    ensures exists i :: 0 <= i < |events| && Written(After(delegated, responder, dels, events[..i]), events[i], r)
    decreases |events|
  {
    if events != [] {
      var n := |events| - 1;
      var front := events[..n];
      AfterLast(delegated, responder, dels, events);
      StepWrites(After(delegated, responder, dels, front), events[n], r);
      if Exists(After(delegated, responder, dels, front), r) {
        ResponseHasOrigin(delegated, responder, dels, front, r);
        var i :| 0 <= i < n && Written(After(delegated, responder, dels, front[..i]), front[i], r);
        assert front[..i] == events[..i] && front[i] == events[i];
      }
    }
  }

  // ---- no open delivery is stuck ----

  ghost predicate Reaches(w: World, v: World) { exists events :: Run(w, events) == v }

  lemma ReachesItself(w: World)
    ensures Reaches(w, w)
  {
    assert Run(w, []) == w;
  }

  lemma ReachesNext(w: World, v: World, ev: Event)
    requires Reaches(w, v)
    ensures Reaches(w, Apply(v, ev))
  {
    var events :| Run(w, events) == v;
    RunConcat(w, events, [ev]);
    RunOne(v, ev);
  }

  /** Desk, deliveries and bus of `v` are those of `w`, with more messages. */
  predicate ClientMoved(w: World, v: World, d: DeliveryId)
  {
    v.desk == w.desk && v.dels == w.dels && w.net <= v.net && d in v.sides
  }

  /** What the client does with a delivery that is sent once more after a stop. */
  lemma Restarted(w: World, d: DeliveryId) returns (v: World)
    requires d in w.dels && d in w.sides
    ensures Reaches(w, v) && ClientMoved(w, v, d)
    ensures var row := if w.sides[d].stored.Some? then w.sides[d].stored.value else Stored(None, false);
            && v.sides[d].stored == Some(row)
            && (row.completed ==> v.sides[d].stage == ReAcking)
            && (!row.completed && row.response.Some? ==>
                  v.sides[d].stage == Delivering(row.response.value, true, false))
            && (Blank(Some(row)) ==> v.sides[d].stage == Handling)
  {
    ReachesItself(w);
    var w1 := Apply(w, AtClient(d, Stop));
    ReachesNext(w, w, AtClient(d, Stop));
    var w2 := Apply(w1, AtProxy(PublishEvent(d)));
    ReachesNext(w, w1, AtProxy(PublishEvent(d)));
    var w3 := Apply(w2, AtClient(d, Receive));
    ReachesNext(w, w2, AtClient(d, Receive));
    assert w3.sides[d].stage == Entered;
    var w4 := Apply(w3, AtClient(d, SaveCallback(Reported)));
    ReachesNext(w, w3, AtClient(d, SaveCallback(Reported)));
    assert w4.sides[d].stage.Loaded?;
    v := Apply(w4, AtClient(d, Decide(true)));
    ReachesNext(w, w4, AtClient(d, Decide(true)));
  }

  /** An acknowledgement is sent, stored and confirmed. */
  lemma Acknowledges(w: World, u: World, d: DeliveryId) returns (v: World)
    requires Reaches(w, u) && d in u.dels && d in u.sides
    requires u.sides[d].stage == Acking || u.sides[d].stage == ReAcking
    ensures Reaches(w, v) && d in v.dels && d in v.sides && v.dels[d].closed
    ensures v.sides[d].stored == u.sides[d].stored
    ensures v.sides[d].stage == if u.sides[d].stage == Acking then Completing else Idle
  {
    var c := u.dels[d].client;
    var u1 := Apply(u, AtClient(d, PublishAck));
    ReachesNext(w, u, AtClient(d, PublishAck));
    assert AckMsg(d, c) in u1.net;
    var u2 := Apply(u1, AtProxy(HandleAck(d, c, Reported)));
    ReachesNext(w, u1, AtProxy(HandleAck(d, c, Reported)));
    v := Apply(u2, AtClient(d, Confirm));
    ReachesNext(w, u2, AtClient(d, Confirm));
  }

  /** The delivery is closed at the proxy and complete at the client. */
  predicate Settled(w: World, d: DeliveryId)
  {
    d in w.dels && w.dels[d].closed && d in w.sides && w.sides[d].stored.Some? && w.sides[d].stored.value.completed
  }

  /** A handler that runs for a delivery without a reply returns, and the delivery is acknowledged. */
  lemma HandledSettles(w: World, u: World, d: DeliveryId) returns (v: World)
    requires Reaches(w, u) && d in u.dels && d in u.sides && !u.dels[d].replies
    requires u.sides[d].stage == Handling && u.sides[d].stored.Some?
    ensures Reaches(w, v) && Settled(v, d)
  {
    var handled := AtClient(d, HandlerReturns(200, [], []));
    ReachesNext(w, u, handled);
    var x := Acknowledges(w, Apply(u, handled), d);
    ReachesNext(w, x, AtClient(d, Complete(Reported)));
    v := Apply(x, AtClient(d, Complete(Reported)));
  }

  lemma BlankOrComplete(w: World, d: DeliveryId)
    requires Inv(w) && d in w.dels && !w.dels[d].replies && d in w.sides
    ensures var s := w.sides[d].stored; Blank(s) || (s.Some? && s.value.completed)
  {
    assert SideOk(w.desk.status == Responded, d, w.dels[d], w.sides[d]);
  }

  /** From every reachable state, an open delivery that asks for no reply can be settled, whatever the
      handler returns and wherever client and proxy were interrupted. */
  lemma StaticDeliverySettles(w: World, d: DeliveryId)
    requires Inv(w) && d in w.dels && !w.dels[d].replies && !w.dels[d].closed
    ensures exists v :: Reaches(w, v) && Settled(v, d)
  {
    BlankOrComplete(w, d);
    var u := Restarted(w, d);
    if u.sides[d].stage == ReAcking {
      var v := Acknowledges(w, u, d);
      assert Settled(v, d);
    } else {
      var v := HandledSettles(w, u, d);
    }
  }

  /** A response is published, and saved unless it already is. */
  lemma PublishesAndSaves(w: World, u: World, d: DeliveryId) returns (v: World)
    requires Reaches(w, u) && d in u.dels && d in u.sides && u.sides[d].stage.Delivering? && u.sides[d].stored.Some?
    requires var s := u.sides[d];
             && !s.stage.confirmed && (s.stage.saved ==> s.stored.value.response == Some(s.stage.response))
             && (!s.stage.saved ==> s.stored.value.response.None?)
    ensures Reaches(w, v) && ClientMoved(u, v, d)
    ensures var r := u.sides[d].stage.response;
            && ResponseMsg(r) in v.net && v.sides[d].stage == Delivering(r, true, false)
            && v.sides[d].stored.Some? && v.sides[d].stored.value.response == Some(r)
  {
    var u1 := Apply(u, AtClient(d, PublishResponse));
    ReachesNext(w, u, AtClient(d, PublishResponse));
    v := Apply(u1, AtClient(d, SaveResponse(Reported)));
    ReachesNext(w, u1, AtClient(d, SaveResponse(Reported)));
  }

  /** The proxy has stored and confirmed the response of delivery `d`, for whoever waits for it. */
  predicate StoredAndConfirmed(w: World, d: DeliveryId, r: Response)
  {
    && d in w.dels && w.dels[d].closed && w.desk.status == Responded && w.desk.response == Some(r)
    && ConfirmedMsg(w.dels[d].client, d) in w.net && (w.desk.waiting ==> w.desk.channel == Some(r))
  }

  lemma Stores(w: World, u: World, r: Response) returns (v: World)
    requires Reaches(w, u) && ResponseMsg(r) in u.net && Addressed(u.dels, r) && Asks(u.desk, r.client)
    requires u.desk.status == AwaitingResponse && u.desk.channel.None?
    ensures Reaches(w, v) && v.sides == u.sides && StoredAndConfirmed(v, r.delivery, r)
    ensures v.desk.waiting == u.desk.waiting
  {
    v := Apply(u, AtProxy(HandleResponse(r, Reported)));
    ReachesNext(w, u, AtProxy(HandleResponse(r, Reported)));
  }

  lemma Finishes(w: World, u: World, d: DeliveryId, r: Response) returns (v: World)
    requires Reaches(w, u) && d in u.sides && u.sides[d].stage == Delivering(r, true, false)
    requires u.sides[d].stored.Some? && u.sides[d].stored.value.response == Some(r) && StoredAndConfirmed(u, d, r)
    ensures Reaches(w, v) && Settled(v, d)
    ensures v.desk.status == Responded && v.desk.response == Some(r) && v.sides[d].stored.value.response == Some(r)
    ensures u.desk.waiting ==> v.desk.returned == Some(r)
  {
    var u1 := Apply(u, AtClient(d, Confirm));
    ReachesNext(w, u, AtClient(d, Confirm));
    assert u1.sides[d].stage == Delivering(r, true, true);
    var u2 := Apply(u1, AtClient(d, Complete(Reported)));
    ReachesNext(w, u1, AtClient(d, Complete(Reported)));
    v := Apply(u2, AtProxy(Return));
    ReachesNext(w, u2, AtProxy(Return));
  }

  /** A response is published, saved by the client, stored and confirmed by the proxy, and returned to
      the HTTP caller. */
  lemma Answers(w: World, u: World, d: DeliveryId) returns (v: World)
    requires Reaches(w, u) && d in u.dels && d in u.sides && u.sides[d].stage.Delivering? && u.sides[d].stored.Some?
    requires var s := u.sides[d];
             && !s.stage.confirmed && Own(d, u.dels[d].client, s.stage.response)
             && (s.stage.saved ==> s.stored.value.response == Some(s.stage.response))
             && (!s.stage.saved ==> s.stored.value.response.None?)
    requires u.desk.status == AwaitingResponse && Asks(u.desk, u.dels[d].client) && u.desk.channel.None?
    ensures Reaches(w, v) && Settled(v, d)
    ensures var r := u.sides[d].stage.response;
            && v.desk.status == Responded && v.desk.response == Some(r) && v.sides[d].stored.value.response == Some(r)
            && (u.desk.waiting ==> v.desk.returned == Some(r))
  {
    var u1 := PublishesAndSaves(w, u, d);
    var u2 := Stores(w, u1, u.sides[d].stage.response);
    v := Finishes(w, u2, d, u.sides[d].stage.response);
  }

  /** From every reachable state in which the event waits and the route asks the client, its open
      delivery can be settled with one response on both sides, which a waiting HTTP caller receives:
      the response that the client has on record, or else whatever its handler returns. */
  lemma DelegatedDeliverySettles(w: World, d: DeliveryId, code: int, headers: seq<HeaderField>, body: Bytes)
    requires Inv(w) && d in w.dels && w.dels[d].replies && !w.dels[d].closed
    requires w.desk.status == AwaitingResponse && Asks(w.desk, w.dels[d].client)
    ensures var r := if Blank(w.sides[d].stored) then Response(d, w.dels[d].client, code, headers, body)
                     else w.sides[d].stored.value.response.value;
            exists v :: Reaches(w, v) && Settled(v, d)
                        && v.desk.status == Responded && v.desk.response == Some(r)
                        && v.sides[d].stored.value.response == Some(r)
                        && (w.desk.waiting ==> v.desk.returned == Some(r))
  {
    assert SideOk(w.desk.status == Responded, d, w.dels[d], w.sides[d]);
    var u := Restarted(w, d);
    if Blank(w.sides[d].stored) {
      var handled := AtClient(d, HandlerReturns(code, headers, body));
      ReachesNext(w, u, handled);
      var v := Answers(w, Apply(u, handled), d);
    } else {
      var v := Answers(w, u, d);
    }
  }
}
