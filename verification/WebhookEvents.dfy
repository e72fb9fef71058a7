/** The webhook rows of one proxy as values: the delivery table, the fan-out loop of SaveWebhookEvent
    (internal/repository/webhook.go), the updates that close deliveries, and the selection of rows
    to delete (internal/repository/maintenance.go).  The rows that belong to one event are exactly
    the state that CallbackProtocol follows. */
module WebhookEvents {
  import opened Contracts
  import opened CallbackProtocol
  import Control = WebhookControl

  /** A delivery row references the event or the command that it belongs to. */
  datatype Parent = OfEvent(event: string) | OfCommand(command: string)

  datatype Payload = EventPayload(content: Bytes) | ControlPayload(result: Control.ControlResult)

  datatype DeliveryRow = DeliveryRow(parent: Parent, payload: Payload, del: Del)

  type Rows = map<DeliveryId, DeliveryRow>

  datatype EventRow = EventRow(
    webhook: Control.WebhookId, content: Bytes, status: EventStatus, response: Option<Response>, updatedAt: int)

  /** The deliveries of one event or command. */
  function DelsOf(rows: Rows, p: Parent): map<DeliveryId, Del>
  {
    map d | d in rows && rows[d].parent == p :: rows[d].del
  }

  /** The two tables agree on every row that does not belong to `p`. */
  predicate SameElsewhere(before: Rows, after: Rows, p: Parent)
  {
    && (forall d :: d in before && before[d].parent != p ==> d in after && after[d] == before[d])
    && (forall d :: d in after && after[d].parent != p ==> d in before && after[d] == before[d])
  }

  /** The two tables differ at most in which deliveries are closed. */
  predicate SameButClosed(before: Rows, after: Rows)
  {
    && before.Keys == after.Keys
    && forall d :: d in before ==> after[d] == before[d].(del := before[d].del.(closed := after[d].del.closed))
  }

  /** Foreign keys and primary keys: a webhook delivery belongs to a stored event, a control delivery
      is the one delivery of a stored command and carries its recorded result. */
  predicate RowsOk(rows: Rows, events: set<string>, commands: map<string, Control.Recorded>)
  {
    && (forall d :: d in rows && rows[d].parent.OfEvent? ==> d.WebhookDelivery? && rows[d].parent.event in events)
    && (forall d :: d in rows && rows[d].parent.OfCommand? ==>
          && d == ControlOf(rows[d].parent.command) && rows[d].parent.command in commands
          && rows[d].payload == ControlPayload(commands[rows[d].parent.command].result))
    && (forall c :: c in commands ==> ControlOf(c) in rows)
  }

  lemma ClosingKeepsRows(before: Rows, after: Rows, events: set<string>, commands: map<string, Control.Recorded>)
    requires RowsOk(before, events, commands) && SameButClosed(before, after)
    ensures RowsOk(after, events, commands)
  {
  }

  predicate Carries(rows: Rows, p: Parent, payload: Payload)
  {
    forall d :: d in rows && rows[d].parent == p ==> rows[d].payload == payload
  }

  predicate HasOpen(rows: Rows, p: Parent)
  {
    exists d :: d in rows && rows[d].parent == p && !rows[d].del.closed
  }

  predicate Referenced(events: map<string, EventRow>, webhook: Control.WebhookId)
  {
    exists e :: e in events && events[e].webhook == webhook
  }

  // ---- fan-out ----

  /** Who receives an event: the subscribers, and in delegated mode the responder. */
  function Targets(subscribers: set<(Control.WebhookId, ClientId)>, webhook: Control.WebhookId, route: Control.Route)
    : set<ClientId>
  {
    (set s | s in subscribers && s.0 == webhook :: s.1)
    + (if route.mode == "delegated" then {route.responder} else {})
  }

  function Replier(route: Control.Route): Option<ClientId>
  {
    if route.mode == "delegated" then Some(route.responder) else None
  }

  /** One open delivery for each target, and a reply subject for the replier alone. */
  predicate FanOut(dels: map<DeliveryId, Del>, targets: set<ClientId>, replier: Option<ClientId>)
  {
    && (forall c :: c in targets ==> exists d :: d in dels && dels[d].client == c)
    && (forall d :: d in dels ==>
          dels[d].client in targets && !dels[d].closed && (dels[d].replies <==> replier == Some(dels[d].client)))
    && (forall a, b :: a in dels && b in dels && dels[a].client == dels[b].client ==> a == b)
  }

  /** As many deliveries as targets; exactly one carries a reply subject in delegated mode, none otherwise. */
  lemma FanOutCounts(dels: map<DeliveryId, Del>, targets: set<ClientId>, replier: Option<ClientId>)
    requires FanOut(dels, targets, replier)
    ensures |dels| == |targets|
    ensures OneReply(dels)
    ensures replier.Some? && replier.value in targets ==> |set d | d in dels && dels[d].replies| == 1
    ensures replier.None? ==> (set d | d in dels && dels[d].replies) == {}
  {
    SameSize(dels, targets);
    if replier.Some? && replier.value in targets {
      var d :| d in dels && dels[d].client == replier.value;
      assert (set x | x in dels && dels[x].replies) == {d};
    }
  }

  lemma {:induction false} SameSize(dels: map<DeliveryId, Del>, targets: set<ClientId>)
    requires forall c :: c in targets ==> exists d :: d in dels && dels[d].client == c
    requires forall d :: d in dels ==> dels[d].client in targets
    requires forall a, b :: a in dels && b in dels && dels[a].client == dels[b].client ==> a == b
    ensures |dels| == |targets|
    decreases targets
  {
    if targets == {} {
      assert dels == map[];
    } else {
      var c :| c in targets;
      var d :| d in dels && dels[d].client == c;
      var rest := dels - {d};
      assert rest.Keys == dels.Keys - {d};
      forall x | x in targets - {c}
        ensures exists y :: y in rest && rest[y].client == x
      {
        var y :| y in dels && dels[y].client == x;
        assert y in rest;
      }
      SameSize(rest, targets - {c});
    }
  }

  /** The first n random IDs. */
  function Drawn(draw: nat -> string, n: nat): set<DeliveryId>
  {
    if n == 0 then {} else Drawn(draw, n - 1) + {WebhookDelivery(draw(n - 1))}
  }

  /** Each of the first n random IDs is new to the table and differs from those drawn before it. */
  predicate NewIds(rows: Rows, draw: nat -> string, n: nat)
  {
    n == 0 ||
    (var d := WebhookDelivery(draw(n - 1)); NewIds(rows, draw, n - 1) && d !in rows && d !in Drawn(draw, n - 1))
  }

  lemma {:induction false} NewIdsPrefix(rows: Rows, draw: nat -> string, n: nat, m: nat)
    requires NewIds(rows, draw, m) && n <= m
    ensures NewIds(rows, draw, n)
    decreases m
  {
    if n < m {
      NewIdsPrefix(rows, draw, n, m - 1);
    }
  }

  /** `after` is `before` with the event's deliveries `added`. */
  predicate Inserted(before: Rows, after: Rows, event: string, payload: Payload, added: map<DeliveryId, Del>)
  {
    && (forall d :: d in before ==> d !in added && d in after && after[d] == before[d])
    && (forall d :: d in added ==> d in after && after[d] == DeliveryRow(OfEvent(event), payload, added[d]))
    && (forall d :: d in after ==> d in before || d in added)
  }

  lemma InsertedDels(before: Rows, after: Rows, event: string, payload: Payload, added: map<DeliveryId, Del>)
    requires Inserted(before, after, event, payload, added)
    requires forall d :: d in before ==> before[d].parent != OfEvent(event)
    ensures DelsOf(after, OfEvent(event)) == added
    ensures SameElsewhere(before, after, OfEvent(event)) && Carries(after, OfEvent(event), payload)
  {
  }

  lemma InsertingKeepsRows(before: Rows, after: Rows, event: string, payload: Payload, added: map<DeliveryId, Del>,
                           events: set<string>, commands: map<string, Control.Recorded>)
    requires RowsOk(before, events, commands) && Inserted(before, after, event, payload, added)
    requires forall d :: d in added ==> d.WebhookDelivery?
    ensures RowsOk(after, events + {event}, commands)
  {
  }

  /** One round of the fan-out loop. */
  lemma FanOutStep(added: map<DeliveryId, Del>, targets: set<ClientId>, replier: Option<ClientId>, d: DeliveryId,
                   c: ClientId)
    requires FanOut(added, targets, replier) && d !in added && c !in targets
    ensures FanOut(added[d := Del(c, replier == Some(c), false)], targets + {c}, replier)
  {
    var more := added[d := Del(c, replier == Some(c), false)];
    forall x | x in targets + {c}
      ensures exists y :: y in more && more[y].client == x
    {
      if x == c {
        assert more[d].client == x;
      } else {
        var y :| y in added && added[y].client == x;
        assert more[y].client == x;
      }
    }
  }

  function Clients(clients: seq<ClientId>): set<ClientId> { set c | c in clients }

  lemma PrefixGrows(clients: seq<ClientId>, i: nat)
    requires Control.NoDuplicates(clients) && i < |clients|
    ensures Clients(clients[..i + 1]) == Clients(clients[..i]) + {clients[i]}
    ensures clients[i] !in Clients(clients[..i])
  {
    assert clients[..i + 1] == clients[..i] + [clients[i]];
  }

  lemma InsertOne(before: Rows, rows: Rows, id: string, payload: Payload, added: map<DeliveryId, Del>,
                  d: DeliveryId, del: Del)
    requires Inserted(before, rows, id, payload, added) && d !in rows
    ensures Inserted(before, rows[d := DeliveryRow(OfEvent(id), payload, del)], id, payload, added[d := del])
  {
  }

  /** The deliveries of the first n clients. */
  function Batch(clients: seq<ClientId>, replier: Option<ClientId>, draw: nat -> string, n: nat): map<DeliveryId, Del>
    requires n <= |clients|
  {
    if n == 0 then map[]
    else
      var c := clients[n - 1];
      Batch(clients, replier, draw, n - 1)[WebhookDelivery(draw(n - 1)) := Del(c, replier == Some(c), false)]
  }

  lemma {:induction false} BatchKeys(clients: seq<ClientId>, replier: Option<ClientId>, draw: nat -> string, n: nat)
    requires n <= |clients|
    ensures Batch(clients, replier, draw, n).Keys == Drawn(draw, n)
    ensures forall d :: d in Drawn(draw, n) ==> d.WebhookDelivery?
  {
    if n > 0 {
      BatchKeys(clients, replier, draw, n - 1);
    }
  }

  lemma {:induction false} BatchFansOut(rows: Rows, clients: seq<ClientId>, replier: Option<ClientId>,
                                        draw: nat -> string, n: nat)
    requires Control.NoDuplicates(clients) && n <= |clients| && NewIds(rows, draw, n)
    ensures FanOut(Batch(clients, replier, draw, n), Clients(clients[..n]), replier)
    decreases n
  {
    if n == 0 {
      assert Clients(clients[..0]) == {};
    } else {
      var d, before := WebhookDelivery(draw(n - 1)), Batch(clients, replier, draw, n - 1);
      BatchFansOut(rows, clients, replier, draw, n - 1);
      BatchKeys(clients, replier, draw, n - 1);
      PrefixGrows(clients, n - 1);
      assert d !in before;
      FanOutStep(before, Clients(clients[..n - 1]), replier, d, clients[n - 1]);
    }
  }

  /** The insert loop of SaveWebhookEvent: it fails on the first ID that is already taken. */
  method InsertDeliveries(before: Rows, id: string, payload: Payload, clients: seq<ClientId>,
                          route: Control.Route, draw: nat -> string)
    returns (ok: bool, rows: Rows, sent: seq<DeliveryId>)
    requires Control.NoDuplicates(clients)
    ensures ok <==> NewIds(before, draw, |clients|)
    ensures ok ==> var added := Batch(clients, Replier(route), draw, |clients|);
                   Inserted(before, rows, id, payload, added) && forall d :: d in sent <==> d in added
  {
    rows, sent := before, [];
    for i := 0 to |clients|
      invariant NewIds(before, draw, i)
      invariant Inserted(before, rows, id, payload, Batch(clients, Replier(route), draw, i))
      invariant forall d :: d in sent <==> d in Batch(clients, Replier(route), draw, i)
    {
      ghost var added := Batch(clients, Replier(route), draw, i);
      var d := WebhookDelivery(draw(i));
      BatchKeys(clients, Replier(route), draw, i);
      if d in rows {
        if NewIds(before, draw, |clients|) {
          NewIdsPrefix(before, draw, i + 1, |clients|);
        }
        return false, rows, [];
      }
      var del := Del(clients[i], route.mode == "delegated" && clients[i] == route.responder, false);
      InsertOne(before, rows, id, payload, added, d, del);
      rows := rows[d := DeliveryRow(OfEvent(id), payload, del)];
      sent := sent + [d];
    }
    return true, rows, sent;
  }

  /** The subscribers of a webhook, in some order, and the responder if it is not among them. */
  method ListTargets(subscribers: set<(Control.WebhookId, ClientId)>, webhook: Control.WebhookId, route: Control.Route)
    returns (clients: seq<ClientId>)
    ensures Control.NoDuplicates(clients)
    ensures Clients(clients) == Targets(subscribers, webhook, route)
  {
    clients := [];
    var rest := set s | s in subscribers && s.0 == webhook :: s.1;
    ghost var all := rest;
    while rest != {}
      invariant Control.NoDuplicates(clients)
      invariant rest <= all
      invariant forall c :: c in clients <==> c in all - rest
      decreases rest
    {
      var c :| c in rest;
      assert c !in clients;
      clients := clients + [c];
      rest := rest - {c};
    }
    if route.mode == "delegated" && route.responder !in clients {
      clients := clients + [route.responder];
    }
  }

  /** The deliveries of a new event are its fan-out, carry its payload and are the ones reported as
      sent; no other row changes. */
  predicate FannedOut(before: Rows, rows: Rows, id: string, payload: Payload, targets: set<ClientId>,
                   replier: Option<ClientId>, sent: seq<DeliveryId>)
  {
    var dels := DelsOf(rows, OfEvent(id));
    && FanOut(dels, targets, replier)
    && (forall d :: d in sent ==> d in dels) && (forall d :: d in dels ==> d in sent)
    && Carries(rows, OfEvent(id), payload)
    && SameElsewhere(before, rows, OfEvent(id))
  }

  /** In the columns of the delivery table: a client has a delivery of the event if and only if it is
      subscribed or is the responder of a delegated route, and it has one; each is open, carries the
      event, and asks for a reply if and only if it is the responder's. */
  ghost predicate Delivered(rows: Rows, id: string, content: Bytes, subscribers: set<(Control.WebhookId, ClientId)>,
                            webhook: Control.WebhookId, route: Control.Route)
  {
    && (forall c :: (exists d :: d in rows && rows[d].parent == OfEvent(id) && rows[d].del.client == c) <==>
                    (webhook, c) in subscribers || (route.mode == "delegated" && c == route.responder))
    && (forall d :: d in rows && rows[d].parent == OfEvent(id) ==>
          && rows[d].payload == EventPayload(content) && !rows[d].del.closed
          && (rows[d].del.replies <==> route.mode == "delegated" && rows[d].del.client == route.responder))
    && forall a, b :: a in rows && b in rows && rows[a].parent == rows[b].parent == OfEvent(id) && a != b ==>
         rows[a].del.client != rows[b].del.client
  }

  lemma FanOutDelivers(before: Rows, rows: Rows, id: string, content: Bytes,
                       subscribers: set<(Control.WebhookId, ClientId)>, webhook: Control.WebhookId,
                       route: Control.Route, sent: seq<DeliveryId>)
    requires FannedOut(before, rows, id, EventPayload(content), Targets(subscribers, webhook, route), Replier(route),
                       sent)
    ensures Delivered(rows, id, content, subscribers, webhook, route)
  {
    var dels, targets := DelsOf(rows, OfEvent(id)), Targets(subscribers, webhook, route);
    assert forall d :: d in dels <==> d in rows && rows[d].parent == OfEvent(id);
    forall c
      ensures (exists d :: d in rows && rows[d].parent == OfEvent(id) && rows[d].del.client == c) <==>
              (webhook, c) in subscribers || (route.mode == "delegated" && c == route.responder)
    {
      assert c in targets <==> (webhook, c) in subscribers || (route.mode == "delegated" && c == route.responder);
      if c in targets {
        var d :| d in dels && dels[d].client == c;
        assert rows[d].del.client == c;
      }
      if d :| d in rows && rows[d].parent == OfEvent(id) && rows[d].del.client == c {
        assert dels[d].client in targets;
      }
    }
  }

  /** The fan-out of one event: who receives it, and the table with their deliveries. */
  method FanOutDeliveries(before: Rows, id: string, payload: Payload, route: Control.Route, webhook: Control.WebhookId,
                          subscribers: set<(Control.WebhookId, ClientId)>, draw: nat -> string,
                          ghost events: set<string>, ghost commands: map<string, Control.Recorded>)
    returns (ok: bool, rows: Rows, sent: seq<DeliveryId>)
    requires RowsOk(before, events, commands) && id !in events
    ensures ok <==> NewIds(before, draw, |Targets(subscribers, webhook, route)|)
    ensures ok ==> RowsOk(rows, events + {id}, commands)
    ensures ok ==> FannedOut(before, rows, id, payload, Targets(subscribers, webhook, route), Replier(route), sent)
  {
    var clients := ListTargets(subscribers, webhook, route);
    SequenceSize(clients);
    ok, rows, sent := InsertDeliveries(before, id, payload, clients, route, draw);
    if ok {
      ghost var added := Batch(clients, Replier(route), draw, |clients|);
      assert clients[..|clients|] == clients;
      BatchKeys(clients, Replier(route), draw, |clients|);
      BatchFansOut(before, clients, Replier(route), draw, |clients|);
      InsertedDels(before, rows, id, payload, added);
      InsertingKeepsRows(before, rows, id, payload, added, events, commands);
    }
  }

  // ---- closing deliveries ----

  function CloseRow(rows: Rows, d: DeliveryId): Rows
    requires d in rows
  {
    rows[d := rows[d].(del := rows[d].del.(closed := true))]
  }

  lemma CloseRowDels(rows: Rows, d: DeliveryId)
    requires d in rows
    ensures var dels := DelsOf(rows, rows[d].parent);
            d in dels && DelsOf(CloseRow(rows, d), rows[d].parent) == dels[d := dels[d].(closed := true)]
    ensures SameButClosed(rows, CloseRow(rows, d)) && SameElsewhere(rows, CloseRow(rows, d), rows[d].parent)
  {
  }

  /** UPDATE proxy_deliveries for one event and one client; an empty client stands for NULL. */
  function CloseClient(rows: Rows, event: string, client: ClientId): Rows
  {
    map d | d in rows ::
      if rows[d].parent == OfEvent(event) && client != "" && client == rows[d].del.client
      then rows[d].(del := rows[d].del.(closed := true)) else rows[d]
  }

  lemma CloseClientDels(rows: Rows, event: string, desk: Desk)
    ensures var after := CloseClient(rows, event, desk.responder);
            && DelsOf(after, OfEvent(event)) == MarkTimedOut(desk, DelsOf(rows, OfEvent(event))).1
            && SameButClosed(rows, after) && SameElsewhere(rows, after, OfEvent(event))
  {
  }

  /** The delivery of a control result: inserted for a new command, reopened for a replay. */
  function OpenControl(rows: Rows, id: string, client: ClientId, result: Control.ControlResult): Rows
  {
    var d := ControlOf(id);
    if d in rows then rows[d := rows[d].(del := rows[d].del.(closed := false))]
    else rows[d := DeliveryRow(OfCommand(id), ControlPayload(result), Del(client, false, false))]
  }

  lemma OpeningKeepsRows(rows: Rows, events: set<string>, commands: map<string, Control.Recorded>, id: string,
                         client: ClientId, record: Control.Recorded)
    requires RowsOk(rows, events, commands)
    requires id in commands ==> commands[id] == record
    ensures ControlOf(id) in rows <==> id in commands
    ensures RowsOk(OpenControl(rows, id, client, record.result), events, commands[id := record])
  {
  }

  // ---- retention ----

  /** SELECT ... ORDER BY age LIMIT n: the oldest candidates, and all of them when they fit. */
  predicate OldestOf(chosen: set<string>, ages: map<string, int>, limit: nat)
  {
    && chosen <= ages.Keys && |chosen| <= limit
    && (|chosen| < limit ==> chosen == ages.Keys)
    && (forall a, b :: a in chosen && b in ages && b !in chosen ==> ages[a] <= ages[b])
  }

  function ExpiredEvents(events: map<string, EventRow>, rows: Rows, finishedBefore: int): map<string, int>
  {
    map e | e in events && events[e].updatedAt < finishedBefore && !HasOpen(rows, OfEvent(e)) :: events[e].updatedAt
  }

  function ExpiredCommands(created: map<string, int>, rows: Rows, finishedBefore: int): map<string, int>
  {
    map c | c in created && created[c] < finishedBefore && !HasOpen(rows, OfCommand(c)) :: created[c]
  }

  function WithoutEvents(rows: Rows, gone: set<string>): Rows
  {
    map d | d in rows && !(rows[d].parent.OfEvent? && rows[d].parent.event in gone) :: rows[d]
  }

  function WithoutCommands(rows: Rows, gone: set<string>): Rows
  {
    map d | d in rows && !(rows[d].parent.OfCommand? && rows[d].parent.command in gone) :: rows[d]
  }

  /** Every open delivery is still there. */
  predicate KeepsOpen(before: Rows, after: Rows)
  {
    forall d :: d in before && !before[d].del.closed ==> d in after && after[d] == before[d]
  }

  lemma DroppingEvents(rows: Rows, events: set<string>, commands: map<string, Control.Recorded>, gone: set<string>)
    requires RowsOk(rows, events, commands) && forall e :: e in gone ==> !HasOpen(rows, OfEvent(e))
    ensures RowsOk(WithoutEvents(rows, gone), events - gone, commands) && KeepsOpen(rows, WithoutEvents(rows, gone))
  {
  }

  lemma DroppingCommands(rows: Rows, events: set<string>, commands: map<string, Control.Recorded>, gone: set<string>)
    requires RowsOk(rows, events, commands) && forall c :: c in gone ==> !HasOpen(rows, OfCommand(c))
    ensures RowsOk(WithoutCommands(rows, gone), events, commands - gone) && KeepsOpen(rows, WithoutCommands(rows, gone))
  {
  }

  method SelectOldest(ages: map<string, int>, limit: nat) returns (chosen: set<string>)
    ensures OldestOf(chosen, ages, limit)
  {
    chosen := {};
    var rest := ages.Keys;
    while rest != {} && |chosen| < limit
      invariant rest == ages.Keys - chosen && chosen <= ages.Keys
      invariant |chosen| <= limit
      invariant forall a, b :: a in chosen && b in rest ==> ages[a] <= ages[b]
      decreases rest
    {
      var oldest := Oldest(ages, rest);
      chosen := chosen + {oldest};
      rest := rest - {oldest};
    }
  }

  method Oldest(ages: map<string, int>, among: set<string>) returns (oldest: string)
    requires among != {} && among <= ages.Keys
    ensures oldest in among
    ensures forall b :: b in among ==> ages[oldest] <= ages[b]
  {
    oldest :| oldest in among;
    var rest := among - {oldest};
    while rest != {}
      invariant rest <= among && oldest in among
      invariant forall b :: b in among - rest ==> ages[oldest] <= ages[b]
      decreases rest
    {
      var b :| b in rest;
      if ages[b] < ages[oldest] {
        oldest := b;
      }
      rest := rest - {b};
    }
  }

  lemma {:induction false} SequenceSize(clients: seq<ClientId>)
    requires Control.NoDuplicates(clients)
    ensures |Clients(clients)| == |clients|
  {
    if clients != [] {
      var front, last := clients[..|clients| - 1], clients[|clients| - 1];
      SequenceSize(front);
      assert clients == front + [last];
      assert Clients(clients) == Clients(front) + {last};
    }
  }
}
