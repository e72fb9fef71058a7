/** The webhook tables of one proxy and every transaction on them: ApplyWebhookControl,
    ConfirmWebhookControl, SaveWebhookEvent, ConfirmWebhook, SaveWebhookResponse and
    MarkWebhookTimedOut of internal/repository/webhook.go, and the webhook part of Cleanup in
    internal/repository/maintenance.go. */
module WebhookRepository {
  import opened Contracts
  import opened CallbackProtocol
  import opened WebhookEvents
  import Control = WebhookControl

  // ---- control commands ----

  /** The route row that a first use of the command writes. */
  function RouteWritten(st: Control.Registry, op: Control.ControlOperation): Option<Control.WebhookId>
  {
    match op.action
    case DoRegister(w, _, _) => Some(w)
    case DoUpdate(w, _) => if Control.OwnedBy(st, w, op.client) then Some(w) else None
    case DoDelete(w) => if Control.OwnedBy(st, w, op.client) then Some(w) else None
    case _ => None
  }

  function Stamped(st: Control.Registry, op: Control.ControlOperation, touched: map<Control.WebhookId, int>, now: int)
    : map<Control.WebhookId, int>
  {
    var w := RouteWritten(st, op);
    if w.Some? then touched[w.value := now] else touched
  }

  /** The switch of ApplyWebhookControl, statement by statement. */
  method PerformControl(st: Control.Registry, touched0: map<Control.WebhookId, int>, op: Control.ControlOperation,
                        now: int)
    returns (err: Option<TxError>, routes: map<Control.WebhookId, Control.Route>,
             touched: map<Control.WebhookId, int>, subscribers: set<(Control.WebhookId, ClientId)>,
             result: Control.ControlResult)
    ensures var tx := Control.Perform(st, op);
            if tx.Commit? then
              && err.None? && tx.state == (st.(routes := routes, subscribers := subscribers), result)
              && touched == Stamped(st, op, touched0, now)
            else err == Some(tx.error)
  {
    err, routes, touched, subscribers, result := None, st.routes, touched0, st.subscribers, op.result;
    match op.action {
      case DoRegister(w, route, subs) =>
        if w in routes || !Control.Storable(route) {
          err := Some(SchemaViolation);
          return;
        }
        routes, touched := routes[w := Control.InColumns(route)], touched[w := now];
        for i := 0 to |subs|
          invariant subscribers == st.subscribers + set s | s in subs[..i] :: (w, s)
        {
          assert subs[..i + 1] == subs[..i] + [subs[i]];
          subscribers := subscribers + {(w, subs[i])};
        }
        assert subs[..|subs|] == subs;
      case DoUpdate(w, route) =>
        if w in routes && routes[w].owner == op.client {
          if !Control.Storable(route) {
            err := Some(SchemaViolation);
            return;
          }
          routes, touched := routes[w := Control.InColumns(route)], touched[w := now];
        } else {
          result := Control.Failed(result);
        }
      case DoSubscribe(w, s) =>
        if w !in routes || routes[w].owner != op.client {
          result := Control.Failed(result);
        } else {
          subscribers := subscribers + {(w, s)};
        }
      case DoUnsubscribe(w, s) =>
        if w !in routes || routes[w].owner != op.client {
          result := Control.Failed(result);
        } else {
          subscribers := subscribers - {(w, s)};
        }
      case DoDelete(w) =>
        if w in routes && routes[w].owner == op.client {
          routes, touched := routes[w := routes[w].(enabled := false)], touched[w := now];
        } else {
          result := Control.Failed(result);
        }
      case DoNothing =>
    }
  }

  predicate SubscribersOk(st: Control.Registry) { forall s :: s in st.subscribers ==> s.0 in st.routes }

  /** No command removes a route, and subscribers keep referring to routes. */
  lemma PerformKeepsRoutes(st: Control.Registry, op: Control.ControlOperation, touched: map<Control.WebhookId, int>,
                           now: int)
    requires SubscribersOk(st) && touched.Keys == st.routes.Keys && Control.Perform(st, op).Commit?
    ensures var after := Control.Perform(st, op).state.0;
            && SubscribersOk(after) && st.routes.Keys <= after.routes.Keys
            && Stamped(st, op, touched, now).Keys == after.routes.Keys
  {
  }

  /** The event's row and its current route, as CallbackProtocol's desk with nobody waiting. */
  function DeskOf(e: EventRow, routes: map<Control.WebhookId, Control.Route>): Desk
    requires e.webhook in routes
  {
    var route := routes[e.webhook];
    Desk(e.status, e.response, route.mode == "delegated", route.responder, false, None, None)
  }

  /** The first use of an accepted update rewrites the route it names. */
  predicate Reroutes(st: Control.Registry, op: Control.ControlOperation, webhook: Control.WebhookId)
  {
    && op.id !in st.commands && op.action.DoUpdate? && op.action.webhook == webhook
    && Control.OwnedBy(st, webhook, op.client)
  }

  function AfterControl(st: Control.Registry, op: Control.ControlOperation, e: EventRow): Desk
    requires e.webhook in st.routes
  {
    var desk := DeskOf(e, st.routes);
    if Reroutes(st, op, e.webhook)
    then Rerouted(desk, op.action.route.mode == "delegated", op.action.route.responder) else desk
  }

  /** A control command moves the desk of an event by the protocol's UpdateRoute, or not at all. */
  lemma ControlMovesDesk(st: Control.Registry, op: Control.ControlOperation, e: EventRow)
    requires e.webhook in st.routes && Control.ApplyControl(st, op).Commit?
    ensures var routes := Control.ApplyControl(st, op).state.0.routes;
            e.webhook in routes && DeskOf(e, routes) == AfterControl(st, op, e)
  {
  }

  // ---- transactions on table values ----

  predicate RoutesExist(events: map<string, EventRow>, routes: map<Control.WebhookId, Control.Route>)
  {
    forall e :: e in events ==> events[e].webhook in routes
  }

  function NewEvent(webhook: Control.WebhookId, content: Bytes, route: Control.Route, now: int): EventRow
  {
    EventRow(webhook, content, if route.mode == "delegated" then AwaitingResponse else Received, None, now)
  }

  /** A stored event waits for an answer if and only if its route is delegated. */
  lemma NewEventColumns(webhook: Control.WebhookId, content: Bytes, route: Control.Route, now: int)
    ensures var e := NewEvent(webhook, content, route, now);
            && e.webhook == webhook && e.content == content && e.response.None? && e.updatedAt == now
            && e.status == (if route.mode == "delegated" then AwaitingResponse else Received)
  {
  }

  /** The event row after its desk has moved: a change of status is stamped. */
  function Moved(e: EventRow, desk: Desk, now: int): EventRow
  {
    e.(status := desk.status, response := desk.response,
       updatedAt := if desk.status == e.status then e.updatedAt else now)
  }

  /** The event and one delivery per target, or nothing: a known event ID, a missing route and a taken
      delivery ID each roll the transaction back. */
  method StoreEvent(events0: map<string, EventRow>, rows0: Rows, routes: map<Control.WebhookId, Control.Route>,
                    subscribers: set<(Control.WebhookId, ClientId)>, ghost commands: map<string, Control.Recorded>,
                    id: string, webhook: Control.WebhookId, content: Bytes, route: Control.Route, now: int,
                    draw: nat -> string)
    returns (err: Option<TxError>, sent: seq<DeliveryId>, events: map<string, EventRow>, rows: Rows)
    requires RowsOk(rows0, events0.Keys, commands) && RoutesExist(events0, routes)
    ensures RowsOk(rows, events.Keys, commands) && RoutesExist(events, routes)
    ensures err.None? <==> && id !in events0 && webhook in routes
                           && NewIds(rows0, draw, |Targets(subscribers, webhook, route)|)
    ensures err.Some? ==> err == Some(SchemaViolation) && events == events0 && rows == rows0
    ensures err.None? ==>
              && events == events0[id := NewEvent(webhook, content, route, now)]
              && FannedOut(rows0, rows, id, EventPayload(content), Targets(subscribers, webhook, route),
                           Replier(route), sent)
  {
    events, rows := events0, rows0;
    if id !in events && webhook in routes {
      var ok, rows', ids := FanOutDeliveries(rows, id, EventPayload(content), route, webhook, subscribers, draw,
                                             events.Keys, commands);
      if ok {
        events := events[id := NewEvent(webhook, content, route, now)];
        assert events.Keys == events0.Keys + {id};
        return None, ids, events, rows';
      }
    }
    return Some(SchemaViolation), [], events, rows;
  }

  /** The first response of the current responder is stored, an equal one accepted; either closes its
      delivery.  Anything else is refused. */
  method StoreResponse(events0: map<string, EventRow>, rows0: Rows, st: Control.Registry, event: string, r: Response,
                       now: int)
    returns (err: Option<TxError>, events: map<string, EventRow>, rows: Rows)
    requires RowsOk(rows0, events0.Keys, st.commands) && RoutesExist(events0, st.routes)
    ensures RowsOk(rows, events.Keys, st.commands) && RoutesExist(events, st.routes)
    ensures event !in events0 ==> err == Some(AckMismatch)
    ensures err.Some? ==> events == events0 && rows == rows0
    ensures event in events0 ==>
              var tx := SaveWebhookResponse(DeskOf(events0[event], st.routes), DelsOf(rows0, OfEvent(event)), r);
              if tx.Rollback? then err == Some(tx.error)
              else
                && err.None? && DelsOf(rows, OfEvent(event)) == tx.state.1
                && events == events0[event := Moved(events0[event], tx.state.0, now)]
                && DeskOf(events[event], st.routes) == tx.state.0
    ensures SameButClosed(rows0, rows) && SameElsewhere(rows0, rows, OfEvent(event))
  {
    events, rows := events0, rows0;
    if r.delivery !in rows || rows[r.delivery].parent != OfEvent(event) || rows[r.delivery].del.client != r.client {
      return Some(AckMismatch), events, rows;
    }
    var e := events[event];
    var route := st.routes[e.webhook];
    var entitled := route.mode == "delegated" && route.responder != "" && route.responder == r.client;
    if entitled && e.status == AwaitingResponse {
      events := events[event := e.(status := Responded, response := Some(r), updatedAt := now)];
      assert events.Keys == events0.Keys;
    } else if !entitled || e.status != Responded || e.response != Some(r) {
      return Some(ResponseConflict), events, rows;
    } else {
      assert events == events[event := e];
    }
    CloseRowDels(rows, r.delivery);
    rows := CloseRow(rows, r.delivery);
    ClosingKeepsRows(rows0, rows, events.Keys, st.commands);
    return None, events, rows;
  }

  method DropEvents(events: map<string, EventRow>, rows: Rows, ghost commands: map<string, Control.Recorded>,
                    finishedBefore: int, batch: nat)
    returns (gone: set<string>, events': map<string, EventRow>, rows': Rows)
    requires RowsOk(rows, events.Keys, commands)
    ensures RowsOk(rows', events'.Keys, commands) && KeepsOpen(rows, rows')
    ensures OldestOf(gone, ExpiredEvents(events, rows, finishedBefore), batch)
    ensures events' == events - gone && rows' == WithoutEvents(rows, gone)
  {
    gone := SelectOldest(ExpiredEvents(events, rows, finishedBefore), batch);
    DroppingEvents(rows, events.Keys, commands, gone);
    events', rows' := events - gone, WithoutEvents(rows, gone);
    assert events'.Keys == events.Keys - gone;
  }

  method DropCommands(commands: map<string, Control.Recorded>, created: map<string, int>, rows: Rows,
                      ghost events: set<string>, finishedBefore: int, batch: nat)
    returns (gone: set<string>, commands': map<string, Control.Recorded>, created': map<string, int>, rows': Rows)
    requires RowsOk(rows, events, commands) && created.Keys == commands.Keys
    ensures RowsOk(rows', events, commands') && created'.Keys == commands'.Keys && KeepsOpen(rows, rows')
    ensures OldestOf(gone, ExpiredCommands(created, rows, finishedBefore), batch)
    ensures commands' == commands - gone && created' == created - gone && rows' == WithoutCommands(rows, gone)
  {
    gone := SelectOldest(ExpiredCommands(created, rows, finishedBefore), batch);
    DroppingCommands(rows, events, commands, gone);
    commands', created', rows' := commands - gone, created - gone, WithoutCommands(rows, gone);
  }

  /** A known command is answered from its record and its delivery reopened, or refused; a new one is
      performed, recorded and its result delivered. */
  method ControlCommand(st: Control.Registry, rows: Rows, touched: map<Control.WebhookId, int>,
                        created: map<string, int>, ghost events: set<string>, op: Control.ControlOperation, now: int)
    returns (err: Option<TxError>, result: Control.ControlResult, st': Control.Registry, rows': Rows,
             touched': map<Control.WebhookId, int>, created': map<string, int>)
    requires RowsOk(rows, events, st.commands) && SubscribersOk(st)
    requires touched.Keys == st.routes.Keys && created.Keys == st.commands.Keys
    ensures RowsOk(rows', events, st'.commands) && SubscribersOk(st')
    ensures touched'.Keys == st'.routes.Keys && created'.Keys == st'.commands.Keys
    ensures var tx := Control.ApplyControl(st, op);
            if tx.Commit? then
              err.None? && (st', result) == tx.state && rows' == OpenControl(rows, op.id, op.client, result)
            else err == Some(tx.error) && st' == st && rows' == rows
    ensures if op.id !in st.commands && err.None? then
              touched' == Stamped(st, op, touched, now) && created' == created[op.id := now]
            else touched' == touched && created' == created
  {
    err, result, st', rows', touched', created' := None, op.result, st, rows, touched, created;
    if op.id in st.commands {
      var r := st.commands[op.id];
      if r.client != op.client || r.command != op.command {
        err := Some(RequestConflict);
        return;
      }
      result := r.result;
      OpeningKeepsRows(rows, events, st.commands, op.id, op.client, r);
      assert st.commands[op.id := r] == st.commands;
      rows' := OpenControl(rows, op.id, op.client, result);
      return;
    }
    var routes, subscribers;
    err, routes, touched', subscribers, result := PerformControl(st, touched, op, now);
    if err.Some? {
      result, touched' := op.result, touched;
      return;
    }
    PerformKeepsRoutes(st, op, touched, now);
    var record := Control.Recorded(op.client, op.command, result);
    OpeningKeepsRows(rows, events, st.commands, op.id, op.client, record);
    st' := Control.Registry(routes, subscribers, st.commands[op.id := record]);
    rows', created' := OpenControl(rows, op.id, op.client, result), created[op.id := now];
  }

  class WebhookTables {
    var routes: map<Control.WebhookId, Control.Route>
    var subscribers: set<(Control.WebhookId, ClientId)>
    var commands: map<string, Control.Recorded>
    var events: map<string, EventRow>
    var deliveries: Rows
    // The columns proxy_webhook_routes.updated_at and proxy_webhook_commands.created_at.
    var touched: map<Control.WebhookId, int>
    var created: map<string, int>

    /** The keys of the schema. */
    ghost predicate Valid()
      reads this
    {
      && touched.Keys == routes.Keys && created.Keys == commands.Keys
      && SubscribersOk(State())
      && RoutesExist(events, routes)
      && RowsOk(deliveries, events.Keys, commands)
    }

    ghost function State(): Control.Registry
      reads this
    {
      Control.Registry(routes, subscribers, commands)
    }

    ghost function Dels(event: string): map<DeliveryId, Del>
      reads this
    {
      DelsOf(deliveries, OfEvent(event))
    }

    ghost function DeskAt(event: string): Desk
      requires Valid() && event in events
      reads this
    {
      DeskOf(events[event], routes)
    }

    constructor ()
      ensures Valid() && State() == Control.NO_WEBHOOKS && events == map[] && deliveries == map[]
      ensures touched == map[] && created == map[]
    {
      routes, subscribers, commands, events, deliveries := map[], {}, map[], map[], map[];
      touched, created := map[], map[];
    }

    /** A known command is answered from its record and its delivery reopened, or refused; a new one
        is performed, recorded and its result delivered.  Every event's desk moves by the protocol's
        route update or stays. */
    method ApplyWebhookControl(op: Control.ControlOperation, now: int)
      returns (err: Option<TxError>, result: Control.ControlResult)
      requires Valid()
      modifies this
      ensures Valid() && events == old(events)
      ensures var tx := Control.ApplyControl(old(State()), op);
              if tx.Commit? then
                && err.None? && State() == tx.state.0 && result == tx.state.1
                && deliveries == OpenControl(old(deliveries), op.id, op.client, result)
              else err == Some(tx.error) && State() == old(State()) && deliveries == old(deliveries)
      ensures op.id in old(commands) || err.Some? ==> touched == old(touched) && created == old(created)
      ensures op.id !in old(commands) && err.None? ==>
                touched == Stamped(old(State()), op, old(touched), now) && created == old(created)[op.id := now]
      ensures forall e :: e in events ==>
                DeskAt(e) == if err.None? then old(AfterControl(State(), op, events[e])) else old(DeskAt(e))
    {
      ghost var st := State();
      var st', rows, touched', created';
      err, result, st', rows, touched', created' :=
        ControlCommand(Control.Registry(routes, subscribers, commands), deliveries, touched, created, events.Keys, op,
                       now);
      forall e | e in events
        ensures events[e].webhook in st'.routes
        ensures err.None? ==> DeskOf(events[e], st'.routes) == AfterControl(st, op, events[e])
      {
        if err.None? {
          ControlMovesDesk(st, op, events[e]);
        }
      }
      routes, subscribers, commands := st'.routes, st'.subscribers, st'.commands;
      deliveries, touched, created := rows, touched', created';
    }

    method ConfirmWebhookControl(id: DeliveryId, client: ClientId) returns (err: Option<TxError>)
      requires Valid()
      modifies this`deliveries
      ensures Valid()
      ensures err.None? <==> id in old(deliveries) && old(deliveries)[id].parent.OfCommand?
                             && old(deliveries)[id].del.client == client
      ensures err.Some? ==> err == Some(AckMismatch)
      ensures deliveries == if err.None? then CloseRow(old(deliveries), id) else old(deliveries)
    {
      if id !in deliveries || !deliveries[id].parent.OfCommand? || deliveries[id].del.client != client {
        return Some(AckMismatch);
      }
      CloseRowDels(deliveries, id);
      ClosingKeepsRows(deliveries, CloseRow(deliveries, id), events.Keys, commands);
      deliveries := CloseRow(deliveries, id);
      return None;
    }

    /** Stores the event and one delivery per target in one transaction; `draw` supplies the random IDs. */
    method SaveWebhookEvent(id: string, webhook: Control.WebhookId, content: Bytes, route: Control.Route, now: int,
                            draw: nat -> string)
      returns (err: Option<TxError>, sent: seq<DeliveryId>)
      requires Valid()
      modifies this`events, this`deliveries
      ensures Valid()
      ensures err.None? <==> && id !in old(events) && webhook in routes
                             && NewIds(old(deliveries), draw, |Targets(subscribers, webhook, route)|)
      ensures err.Some? ==> err == Some(SchemaViolation) && events == old(events) && deliveries == old(deliveries)
      ensures err.None? ==>
                && events == old(events)[id := NewEvent(webhook, content, route, now)]
                && FannedOut(old(deliveries), deliveries, id, EventPayload(content),
                             Targets(subscribers, webhook, route), Replier(route), sent)
      ensures err.None? ==> Delivered(deliveries, id, content, subscribers, webhook, route)
    {
      var events', rows;
      err, sent, events', rows := StoreEvent(events, deliveries, routes, subscribers, commands,
                                             id, webhook, content, route, now, draw);
      if err.None? {
        FanOutDelivers(deliveries, rows, id, content, subscribers, webhook, route, sent);
      }
      events, deliveries := events', rows;
    }

    method ConfirmWebhook(id: DeliveryId, client: ClientId) returns (err: Option<TxError>)
      requires Valid()
      modifies this`deliveries
      ensures Valid()
      ensures err.None? <==> id in old(deliveries) && old(deliveries)[id].parent.OfEvent?
                             && old(deliveries)[id].del.client == client
      ensures err.Some? ==> err == Some(AckMismatch)
      ensures deliveries == if err.None? then CloseRow(old(deliveries), id) else old(deliveries)
    {
      if id !in deliveries || !deliveries[id].parent.OfEvent? || deliveries[id].del.client != client {
        return Some(AckMismatch);
      }
      CloseRowDels(deliveries, id);
      ClosingKeepsRows(deliveries, CloseRow(deliveries, id), events.Keys, commands);
      deliveries := CloseRow(deliveries, id);
      return None;
    }

    /** The event's row takes the protocol's new status and response and, if it was waiting, the time;
        its deliveries take the protocol's new closed flags; nothing else changes. */
    method SaveWebhookResponse(event: string, r: Response, now: int) returns (err: Option<TxError>)
      requires Valid()
      modifies this`events, this`deliveries
      ensures Valid()
      ensures event !in old(events) ==> err == Some(AckMismatch)
      ensures err.Some? ==> events == old(events) && deliveries == old(deliveries)
      ensures event in old(events) ==>
                var tx := CallbackProtocol.SaveWebhookResponse(old(DeskAt(event)), old(Dels(event)), r);
                if tx.Rollback? then err == Some(tx.error)
                else
                  && err.None? && Dels(event) == tx.state.1
                  && events == old(events)[event := Moved(old(events)[event], tx.state.0, now)]
                  && DeskAt(event) == tx.state.0
      ensures SameButClosed(old(deliveries), deliveries) && SameElsewhere(old(deliveries), deliveries, OfEvent(event))
    {
      var events', rows;
      err, events', rows := StoreResponse(events, deliveries, Control.Registry(routes, subscribers, commands), event,
                                          r, now);
      events, deliveries := events', rows;
    }

    /** The same for the protocol's timeout. */
    method MarkWebhookTimedOut(event: string, now: int)
      requires Valid()
      modifies this`events, this`deliveries
      ensures Valid()
      ensures event !in old(events) ==> events == old(events) && deliveries == old(deliveries)
      ensures event in old(events) ==>
                var after := MarkTimedOut(old(DeskAt(event)), old(Dels(event)));
                && Dels(event) == after.1
                && events == old(events)[event := Moved(old(events)[event], after.0, now)]
                && DeskAt(event) == after.0
      ensures SameButClosed(old(deliveries), deliveries) && SameElsewhere(old(deliveries), deliveries, OfEvent(event))
    {
      if event !in events {
        return;
      }
      var e := events[event];
      var responder := routes[e.webhook].responder;
      CloseClientDels(deliveries, event, DeskAt(event));
      ClosingKeepsRows(deliveries, CloseClient(deliveries, event, responder), events.Keys, commands);
      if e.status == AwaitingResponse {
        events := events[event := e.(status := TimedOut, updatedAt := now)];
        assert events.Keys == old(events).Keys;
      } else {
        assert events == events[event := e];
      }
      deliveries := CloseClient(deliveries, event, responder);
    }

    /** Deletes up to `batch` of the oldest expired events without an open delivery, and their deliveries. */
    method CleanUpEvents(finishedBefore: int, batch: nat) returns (gone: set<string>)
      requires Valid()
      modifies this`events, this`deliveries
      ensures Valid()
      ensures OldestOf(gone, old(ExpiredEvents(events, deliveries, finishedBefore)), batch)
      ensures events == old(events) - gone
      ensures deliveries == WithoutEvents(old(deliveries), gone)
      ensures KeepsOpen(old(deliveries), deliveries)
    {
      var events', rows;
      gone, events', rows := DropEvents(events, deliveries, commands, finishedBefore, batch);
      events, deliveries := events', rows;
    }

    /** The same for control commands. */
    method CleanUpCommands(finishedBefore: int, batch: nat) returns (gone: set<string>)
      requires Valid()
      modifies this`commands, this`created, this`deliveries
      ensures Valid()
      ensures OldestOf(gone, old(ExpiredCommands(created, deliveries, finishedBefore)), batch)
      ensures State() == Control.Forget(old(State()), gone) && created == old(created) - gone
      ensures deliveries == WithoutCommands(old(deliveries), gone)
      ensures KeepsOpen(old(deliveries), deliveries)
    {
      var commands', created', rows;
      gone, commands', created', rows := DropCommands(commands, created, deliveries, events.Keys, finishedBefore,
                                                      batch);
      commands, created, deliveries := commands', created', rows;
    }

    /** Deletes disabled routes that no event references; their subscribers go with them, and no
        event or delivery does. */
    method CleanUpRoutes(finishedBefore: int) returns (gone: set<Control.WebhookId>)
      requires Valid()
      modifies this`routes, this`touched, this`subscribers
      ensures Valid()
      ensures forall w :: w in gone <==> && w in old(routes) && !old(routes)[w].enabled
                                         && old(touched)[w] < finishedBefore && !Referenced(events, w)
      ensures State() == Control.RemoveDisabled(old(State()), gone) && touched == old(touched) - gone
    {
      gone := set w | w in routes && !routes[w].enabled && touched[w] < finishedBefore && !Referenced(events, w);
      assert gone == set w | w in gone && w in routes && !routes[w].enabled;
      routes, touched := routes - gone, touched - gone;
      subscribers := set s | s in subscribers && s.0 !in gone;
    }
  }

  // ---- retention against control commands ----

  /** The only delivery of a first command can be acknowledged by its sender, and then none is open. */
  lemma FirstControlRow(id: string, client: ClientId, result: Control.ControlResult)
    ensures var rows, d := OpenControl(map[], id, client, result), ControlOf(id);
            && d in rows && rows[d].parent == OfCommand(id) && rows[d].del.client == client
            && !HasOpen(CloseRow(rows, d), OfCommand(id))
  {
  }

  /** A lone old record without an open delivery is what retention selects. */
  lemma LoneRecord(gone: set<string>, id: string, now: int, rows: Rows)
    requires OldestOf(gone, ExpiredCommands(map[id := now], rows, now + 1), 1000) && !HasOpen(rows, OfCommand(id))
    ensures gone == {id}
  {
    assert ExpiredCommands(map[id := now], rows, now + 1) == map[id := now];
  }

  /** A command is performed on empty tables, its result acknowledged and its record removed. */
  method PerformThenForget(op: Control.ControlOperation, now: int) returns (t: WebhookTables)
    requires Control.ApplyControl(Control.NO_WEBHOOKS, op).Commit?
    ensures fresh(t) && t.Valid()
    ensures t.State() == Control.Forget(Control.ApplyControl(Control.NO_WEBHOOKS, op).state.0, {op.id})
  {
    t := new WebhookTables();
    var err, result := t.ApplyWebhookControl(op, now);
    FirstControlRow(op.id, op.client, result);
    err := t.ConfirmWebhookControl(ControlOf(op.id), op.client);
    assert t.created == map[op.id := now];
    ghost var rows := t.deliveries;
    var gone := t.CleanUpCommands(now + 1, 1000);
    LoneRecord(gone, op.id, now, rows);
  }

  /** A registered webhook outlives the record of its registration: once the result is acknowledged,
      retention removes the record and keeps the route, and the same command is then refused. */
  method RegistrationOutlivesRecord(a: Control.Arrival, allowed: set<ClientId>, now: int)
    returns (st: Control.Registry, err: Option<TxError>)
    requires Control.Registers(a, allowed) && !Control.ShortTimeout(a.command)
    ensures Control.RouteOutlived(st, a, allowed)
    ensures err == Some(SchemaViolation)
  {
    var op := Control.Plan(a.client, a.command, allowed).value;
    Control.RegisteredThenForgotten(a, allowed);
    var t := PerformThenForget(op, now);
    st := Control.Registry(t.routes, t.subscribers, t.commands);
    var result;
    err, result := t.ApplyWebhookControl(op, now);
  }

  predicate AllTouchedAt(touched: map<Control.WebhookId, int>, now: int)
  {
    forall w :: w in touched ==> touched[w] == now
  }

  /** A command while there are no events and every route was written at the same time. */
  method CommandAt(t: WebhookTables, op: Control.ControlOperation, now: int) returns (err: Option<TxError>)
    requires t.Valid() && t.events == map[] && AllTouchedAt(t.touched, now)
    modifies t
    ensures t.Valid() && t.events == map[] && AllTouchedAt(t.touched, now)
    ensures var tx := Control.ApplyControl(old(t.State()), op);
            if tx.Commit? then t.State() == tx.state.0 else err == Some(tx.error) && t.State() == old(t.State())
  {
    var result;
    err, result := t.ApplyWebhookControl(op, now);
  }

  /** On empty tables `a` commits, `b` is refused and `c` leaves every route disabled; retention then
      removes them all. */
  method RefusedThenRemoved(a: Control.ControlOperation, b: Control.ControlOperation, c: Control.ControlOperation,
                            now: int)
    returns (t: WebhookTables, refused: Option<TxError>)
    requires Control.ApplyControl(Control.NO_WEBHOOKS, a).Commit?
    requires var st := Control.ApplyControl(Control.NO_WEBHOOKS, a).state.0;
             && Control.ApplyControl(st, b).Rollback? && Control.ApplyControl(st, c).Commit?
             && var routes := Control.ApplyControl(st, c).state.0.routes;
             forall w :: w in routes ==> !routes[w].enabled
    ensures fresh(t) && t.Valid()
    ensures var st := Control.ApplyControl(Control.NO_WEBHOOKS, a).state.0;
            && refused == Some(Control.ApplyControl(st, b).error)
            && var v := Control.ApplyControl(st, c).state.0;
            t.State() == Control.RemoveDisabled(v, v.routes.Keys)
  {
    t := new WebhookTables();
    var err := CommandAt(t, a, now);
    refused := CommandAt(t, b, now);
    err := CommandAt(t, c, now);
    ghost var routes := t.routes;
    var gone := t.CleanUpRoutes(now + 1);
    assert gone == routes.Keys;
  }

  /** An update with a timeout below one millisecond is refused while its webhook exists, and commits
      once the webhook has been deleted and removed. */
  method ShortUpdateAfterRemoval(register: Control.Arrival, update: Control.Arrival, deletion: Control.Arrival,
                                 allowed: set<ClientId>, now: int)
    returns (before: Option<TxError>, after: Option<TxError>, result: Control.ControlResult)
    requires Control.ShortUpdateSetting(register, update, deletion, allowed)
    ensures before == Some(SchemaViolation)
    ensures after.None? && result.errorCode == "webhook_not_found"
  {
    var registerOp := Control.Plan(register.client, register.command, allowed).value;
    var updateOp := Control.Plan(update.client, update.command, allowed).value;
    var deletionOp := Control.Plan(deletion.client, deletion.command, allowed).value;
    Control.ShortUpdateRuns(register, update, deletion, allowed);
    var t;
    t, before := RefusedThenRemoved(registerOp, updateOp, deletionOp, now);
    after, result := t.ApplyWebhookControl(updateOp, now);
  }
}
