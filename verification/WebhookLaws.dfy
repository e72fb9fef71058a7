/** What control commands do to routes and subscribers, over whole runs of commands and retention, in
    the fields of commands and the columns of the tables (internal/repository/webhook.go:15-103,
    internal/transport/callback.go:48-148). */
module WebhookLaws {
  import opened Contracts
  import opened WebhookControl
  import Events = WebhookEvents
  import Tables = WebhookRepository
  import Callback = CallbackProtocol

  // ---- commands that take effect, by their fields ----

  /** The command names its sender, and its ID is not on record. */
  predicate FirstUse(st: Registry, a: Arrival)
  {
    a.command.client == a.client && a.command.id != "" && a.command.id !in st.commands
  }

  predicate Owns(st: Registry, a: Arrival, w: WebhookId)
  {
    w in st.routes && st.routes[w].owner == a.client
  }

  /** Zero and less mean the default; above zero and below one millisecond does not fit the schema. */
  predicate TimeoutFits(timeout: int) { timeout <= 0 || timeout >= 1_000_000 }

  /** The client that answers: whoever is named, or in delegated mode the sender if nobody is. */
  function Answerer(mode: string, responder: ClientId, sender: ClientId): ClientId
  {
    if responder == "" && mode == "delegated" then sender else responder
  }

  predicate Permitted(c: ClientId, allowed: set<ClientId>) { c == "" || c in allowed }

  /** The arrival creates the webhook `w`. */
  predicate Registering(st: Registry, a: Arrival, allowed: set<ClientId>, w: WebhookId)
  {
    && FirstUse(st, a) && a.command.Register? && a.command.mode in {"static", "delegated"}
    && w == Registered(a.client, a.command.id) && w !in st.routes
    && (forall s :: s in a.command.subscribers ==> Permitted(s, allowed))
    && Permitted(Answerer(a.command.mode, a.command.responder, a.client), allowed)
    && TimeoutFits(a.command.responseTimeout)
  }

  /** The arrival rewrites the route of its own webhook `w`. */
  predicate Updating(st: Registry, a: Arrival, allowed: set<ClientId>, w: WebhookId)
  {
    && FirstUse(st, a) && a.command.Update? && a.command.mode in {"static", "delegated"}
    && a.command.webhook == w && w != Named("") && Owns(st, a, w)
    && Permitted(Answerer(a.command.mode, a.command.responder, a.client), allowed)
    && TimeoutFits(a.command.responseTimeout)
  }

  predicate Deleting(st: Registry, a: Arrival, w: WebhookId)
  {
    FirstUse(st, a) && a.command.Delete? && a.command.webhook == w && w != Named("") && Owns(st, a, w)
  }

  predicate Subscribing(st: Registry, a: Arrival, allowed: set<ClientId>, w: WebhookId, s: ClientId)
  {
    && FirstUse(st, a) && a.command.Subscribe? && a.command.webhook == w && w != Named("") && Owns(st, a, w)
    && a.command.subscriber == s && s != "" && s in allowed
  }

  predicate Unsubscribing(st: Registry, a: Arrival, w: WebhookId, s: ClientId)
  {
    && FirstUse(st, a) && a.command.Unsubscribe? && a.command.webhook == w && w != Named("") && Owns(st, a, w)
    && a.command.subscriber == s
  }

  /** The route carries the fields of the command, with defaults for a status code of zero and for a
      timeout and a body limit of zero or less, and with the timeout cut to whole milliseconds. */
  predicate Describes(route: Route, a: Arrival)
    requires a.command.Register? || a.command.Update?
  {
    var c := a.command;
    && route.owner == a.client && route.name == c.name && route.mode == c.mode
    && route.responder == Answerer(c.mode, c.responder, a.client)
    && route.reply.headers == c.reply.headers && route.reply.body == c.reply.body
    && route.reply.statusCode == (if c.reply.statusCode == 0 then 200 else c.reply.statusCode)
    && route.responseTimeout == (if c.responseTimeout <= 0 then 10_000_000_000
                                 else c.responseTimeout - c.responseTimeout % 1_000_000)
    && route.maxBodyBytes == (if c.maxBodyBytes <= 0 then 4_194_304 else c.maxBodyBytes)
  }

  // ---- one arrival ----

  lemma NotFirstUse(st: Registry, a: Arrival, allowed: set<ClientId>)
    requires !FirstUse(st, a)
    ensures var v := Process(st, a, allowed); v.routes == st.routes && v.subscribers == st.subscribers
  {
    PlanNamesCommand(a, allowed);
  }

  lemma RegisterEffect(st: Registry, a: Arrival, allowed: set<ClientId>, w: WebhookId, s: ClientId)
    requires FirstUse(st, a) && a.command.Register?
    ensures var v := Process(st, a, allowed);
            && (w in v.routes <==> w in st.routes || Registering(st, a, allowed, w))
            && (Registering(st, a, allowed, w) ==> Describes(v.routes[w], a) && v.routes[w].enabled)
            && (!Registering(st, a, allowed, w) && w in st.routes ==> v.routes[w] == st.routes[w])
            && ((w, s) in v.subscribers <==>
                  || (w, s) in st.subscribers
                  || (Registering(st, a, allowed, w) && s != "" && (s in a.command.subscribers || s == a.client)))
  {
  }

  lemma UpdateEffect(st: Registry, a: Arrival, allowed: set<ClientId>, w: WebhookId)
    requires FirstUse(st, a) && a.command.Update?
    ensures var v := Process(st, a, allowed);
            && v.subscribers == st.subscribers && v.routes.Keys == st.routes.Keys
            && (Updating(st, a, allowed, w) ==> Describes(v.routes[w], a) && v.routes[w].enabled)
            && (!Updating(st, a, allowed, w) && w in st.routes ==> v.routes[w] == st.routes[w])
  {
  }

  lemma DeleteEffect(st: Registry, a: Arrival, allowed: set<ClientId>, w: WebhookId)
    requires FirstUse(st, a) && a.command.Delete?
    ensures var v := Process(st, a, allowed);
            && v.subscribers == st.subscribers && v.routes.Keys == st.routes.Keys
            && (w in st.routes ==>
                  v.routes[w] == st.routes[w].(enabled := st.routes[w].enabled && !Deleting(st, a, w)))
  {
  }

  lemma SubscribeEffect(st: Registry, a: Arrival, allowed: set<ClientId>, w: WebhookId, s: ClientId)
    requires FirstUse(st, a) && (a.command.Subscribe? || a.command.Unsubscribe?)
    ensures var v := Process(st, a, allowed);
            && v.routes == st.routes
            && ((w, s) in v.subscribers <==>
                  Subscribing(st, a, allowed, w, s) || ((w, s) in st.subscribers && !Unsubscribing(st, a, w, s)))
  {
  }

  // ---- one step ----

  /** The step makes `s` a subscriber of `w`. */
  predicate Joins(st: Registry, step: Step, allowed: set<ClientId>, w: WebhookId, s: ClientId)
  {
    step.Arrive? &&
    (|| Subscribing(st, step.arrival, allowed, w, s)
     || (Registering(st, step.arrival, allowed, w) && s != ""
         && (s in step.arrival.command.subscribers || s == step.arrival.client)))
  }

  predicate RemovesRoute(st: Registry, step: Step, w: WebhookId)
  {
    step.RemoveRoutes? && w in step.routes && w in st.routes && !st.routes[w].enabled
  }

  /** The step ends a subscription of `s` to `w`. */
  predicate Leaves(st: Registry, step: Step, w: WebhookId, s: ClientId)
  {
    RemovesRoute(st, step, w) || (step.Arrive? && Unsubscribing(st, step.arrival, w, s))
  }

  predicate Writes(st: Registry, step: Step, allowed: set<ClientId>, w: WebhookId)
  {
    step.Arrive? && (Registering(st, step.arrival, allowed, w) || Updating(st, step.arrival, allowed, w))
  }

  predicate Disables(st: Registry, step: Step, w: WebhookId) { step.Arrive? && Deleting(st, step.arrival, w) }

  lemma StepSubscribers(st: Registry, step: Step, allowed: set<ClientId>, w: WebhookId, s: ClientId)
    ensures (w, s) in Advance(st, step, allowed).subscribers <==>
            Joins(st, step, allowed, w, s) || ((w, s) in st.subscribers && !Leaves(st, step, w, s))
  {
    if step.Arrive? {
      var a := step.arrival;
      if !FirstUse(st, a) {
        NotFirstUse(st, a, allowed);
      } else {
        match a.command
        case Register(_, _, _, _, _, _, _, _, _) => RegisterEffect(st, a, allowed, w, s);
        case Update(_, _, _, _, _, _, _, _, _) => UpdateEffect(st, a, allowed, w);
        case Delete(_, _, _) => DeleteEffect(st, a, allowed, w);
        case _ => SubscribeEffect(st, a, allowed, w, s);
      }
    }
  }

  lemma StepRoutes(st: Registry, step: Step, allowed: set<ClientId>, w: WebhookId)
    ensures var v := Advance(st, step, allowed);
            && (w in v.routes <==> Writes(st, step, allowed, w) || (w in st.routes && !RemovesRoute(st, step, w)))
            && (Writes(st, step, allowed, w) ==> Describes(v.routes[w], step.arrival) && v.routes[w].enabled)
            && (w in v.routes && !Writes(st, step, allowed, w) ==>
                  v.routes[w] == st.routes[w].(enabled := st.routes[w].enabled && !Disables(st, step, w)))
  {
    if step.Arrive? {
      var a := step.arrival;
      if !FirstUse(st, a) {
        NotFirstUse(st, a, allowed);
      } else {
        match a.command
        case Register(_, _, _, _, _, _, _, _, _) => RegisterEffect(st, a, allowed, w, "");
        case Update(_, _, _, _, _, _, _, _, _) => UpdateEffect(st, a, allowed, w);
        case Delete(_, _, _) => DeleteEffect(st, a, allowed, w);
        case _ => SubscribeEffect(st, a, allowed, w, "");
      }
    }
  }

  // ---- what the sender is told ----

  /** The command does what it asks for. */
  predicate TakesEffect(st: Registry, a: Arrival, allowed: set<ClientId>)
  {
    match a.command
    case Register(id, _, _, _, _, _, _, _, _) => Registering(st, a, allowed, Registered(a.client, id))
    case Update(_, _, w, _, _, _, _, _, _) => Updating(st, a, allowed, w)
    case Subscribe(_, _, w, s) => Subscribing(st, a, allowed, w, s)
    case Unsubscribe(_, _, w, s) => Unsubscribing(st, a, w, s)
    case Delete(_, _, w) => Deleting(st, a, w)
  }

  /** The webhook that the command is about. */
  function Subject(a: Arrival): WebhookId
  {
    if a.command.Register? then Registered(a.client, a.command.id) else a.command.webhook
  }

  predicate BadIdentity(a: Arrival)
  {
    a.command.client != a.client || (!a.command.Register? && a.command.webhook == Named(""))
  }

  predicate BadMode(a: Arrival)
  {
    (a.command.Register? || a.command.Update?) && a.command.mode !in {"static", "delegated"}
  }

  predicate BadClient(a: Arrival, allowed: set<ClientId>)
  {
    match a.command
    case Register(_, _, _, mode, _, responder, subs, _, _) =>
      || (exists s :: s in subs && !Permitted(s, allowed))
      || !Permitted(Answerer(mode, responder, a.client), allowed)
    case Update(_, _, _, _, mode, _, responder, _, _) => !Permitted(Answerer(mode, responder, a.client), allowed)
    case Subscribe(_, _, _, s) => s == "" || s !in allowed
    case _ => false
  }

  /** Why the command does not take effect, or nothing. */
  function Complaint(st: Registry, a: Arrival, allowed: set<ClientId>): string
  {
    if BadIdentity(a) then "invalid_identity"
    else if BadMode(a) then "invalid_mode"
    else if BadClient(a, allowed) then if a.command.Update? then "responder_not_allowed" else "subscriber_not_allowed"
    else if !a.command.Register? && !Owns(st, a, Subject(a)) then "webhook_not_found"
    else ""
  }

  lemma RegisterAnswered(st: Registry, a: Arrival, allowed: set<ClientId>)
    requires a.command.id !in st.commands && a.command.id != "" && a.command.Register?
    requires Outcome(st, a, allowed).Commit?
    ensures var r := Outcome(st, a, allowed).state.1;
            && r.command == a.command.id && (r.success <==> TakesEffect(st, a, allowed))
            && r.errorCode == Complaint(st, a, allowed)
  {
  }

  lemma UpdateAnswered(st: Registry, a: Arrival, allowed: set<ClientId>)
    requires a.command.id !in st.commands && a.command.id != "" && a.command.Update?
    requires Outcome(st, a, allowed).Commit?
    ensures var r := Outcome(st, a, allowed).state.1;
            && r.command == a.command.id && (r.success <==> TakesEffect(st, a, allowed))
            && r.errorCode == Complaint(st, a, allowed)
  {
  }

  lemma OtherAnswered(st: Registry, a: Arrival, allowed: set<ClientId>)
    requires a.command.id !in st.commands && a.command.id != "" && !a.command.Register? && !a.command.Update?
    requires Outcome(st, a, allowed).Commit?
    ensures var r := Outcome(st, a, allowed).state.1;
            && r.command == a.command.id && (r.success <==> TakesEffect(st, a, allowed))
            && r.errorCode == Complaint(st, a, allowed)
  {
  }

  /** The first use of a command ID that commits is answered with success exactly if the command takes
      effect, and otherwise with the reason; a command without an ID is dropped. */
  lemma ControlAnswers(st: Registry, a: Arrival, allowed: set<ClientId>)
    requires a.command.id !in st.commands
    ensures var tx := Outcome(st, a, allowed);
            && (a.command.id == "" ==> tx == Rollback(Unsupported))
            && (tx.Commit? ==>
                  && tx.state.1.command == a.command.id && (tx.state.1.success <==> TakesEffect(st, a, allowed))
                  && tx.state.1.errorCode == Complaint(st, a, allowed))
  {
    if a.command.id != "" && Outcome(st, a, allowed).Commit? {
      if a.command.Register? {
        RegisterAnswered(st, a, allowed);
      } else if a.command.Update? {
        UpdateAnswered(st, a, allowed);
      } else {
        OtherAnswered(st, a, allowed);
      }
    }
  }

  // ---- runs ----

  /** The tables before step i. */
  function At(steps: seq<Step>, allowed: set<ClientId>, i: nat): Registry
    requires i <= |steps|
  {
    RunSteps(NO_WEBHOOKS, steps[..i], allowed)
  }

  lemma StepAt(steps: seq<Step>, allowed: set<ClientId>, i: nat)
    requires i < |steps|
    ensures At(steps, allowed, i + 1) == Advance(At(steps, allowed, i), steps[i], allowed)
  {
    var st := At(steps, allowed, i);
    assert steps[..i + 1] == steps[..i] + [steps[i]];
    RunConcat(NO_WEBHOOKS, steps[..i], [steps[i]], allowed);
    assert RunSteps(st, [steps[i]], allowed) == Advance(st, steps[i], allowed);
  }

  /** `s` joins `w` at step i and does not leave before step k. */
  ghost predicate SubscribedSince(steps: seq<Step>, allowed: set<ClientId>, i: nat, k: nat, w: WebhookId, s: ClientId)
    requires i < k <= |steps|
  {
    && Joins(At(steps, allowed, i), steps[i], allowed, w, s)
    && forall j :: i < j < k ==> !Leaves(At(steps, allowed, j), steps[j], w, s)
  }

  lemma SubscribedStep(steps: seq<Step>, allowed: set<ClientId>, i: nat, m: nat, w: WebhookId, s: ClientId)
    requires i < m < |steps|
    ensures SubscribedSince(steps, allowed, i, m + 1, w, s) <==>
            SubscribedSince(steps, allowed, i, m, w, s) && !Leaves(At(steps, allowed, m), steps[m], w, s)
  {
  }

  lemma {:induction false} SubscribedBefore(steps: seq<Step>, allowed: set<ClientId>, k: nat, w: WebhookId, s: ClientId)
    requires k <= |steps|
    ensures (w, s) in At(steps, allowed, k).subscribers <==>
            exists i :: 0 <= i < k && SubscribedSince(steps, allowed, i, k, w, s)
    decreases k
  {
    if k > 0 {
      var m: nat := k - 1;
      StepAt(steps, allowed, m);
      StepSubscribers(At(steps, allowed, m), steps[m], allowed, w, s);
      SubscribedBefore(steps, allowed, m, w, s);
      if Joins(At(steps, allowed, m), steps[m], allowed, w, s) {
        assert SubscribedSince(steps, allowed, m, k, w, s);
      } else if i :| 0 <= i < m && SubscribedSince(steps, allowed, i, m, w, s) {
        SubscribedStep(steps, allowed, i, m, w, s);
      }
      if i :| 0 <= i < k && SubscribedSince(steps, allowed, i, k, w, s) {
        if i < m {
          SubscribedStep(steps, allowed, i, m, w, s);
        }
      }
    }
  }

  /** Who is subscribed after any run: exactly those clients that a registration listed or a
      subscription named, by the owner's command, and that no later unsubscription by the owner and no
      removal of the route has taken away. */
  lemma SubscribedExactly(steps: seq<Step>, allowed: set<ClientId>, w: WebhookId, s: ClientId)
    ensures (w, s) in RunSteps(NO_WEBHOOKS, steps, allowed).subscribers <==>
            exists i :: 0 <= i < |steps| && SubscribedSince(steps, allowed, i, |steps|, w, s)
  {
    assert steps[..|steps|] == steps;
    SubscribedBefore(steps, allowed, |steps|, w, s);
  }

  /** Step i is the last before step k that wrote the route, and nothing has removed it since. */
  ghost predicate WrittenSince(steps: seq<Step>, allowed: set<ClientId>, i: nat, k: nat, w: WebhookId)
    requires i < k <= |steps|
  {
    && Writes(At(steps, allowed, i), steps[i], allowed, w)
    && forall j :: i < j < k ==> Spares(At(steps, allowed, j), steps[j], allowed, w)
  }

  predicate Spares(st: Registry, step: Step, allowed: set<ClientId>, w: WebhookId)
  {
    !Writes(st, step, allowed, w) && !RemovesRoute(st, step, w)
  }

  lemma StepExists(st: Registry, step: Step, allowed: set<ClientId>, w: WebhookId)
    ensures w in Advance(st, step, allowed).routes <==>
            Writes(st, step, allowed, w) || (w in st.routes && !RemovesRoute(st, step, w))
  {
    StepRoutes(st, step, allowed, w);
  }

  lemma WrittenStep(steps: seq<Step>, allowed: set<ClientId>, i: nat, m: nat, w: WebhookId)
    requires i < m < |steps|
    ensures WrittenSince(steps, allowed, i, m + 1, w) <==>
            WrittenSince(steps, allowed, i, m, w) && Spares(At(steps, allowed, m), steps[m], allowed, w)
  {
  }

  lemma {:induction false} RouteBefore(steps: seq<Step>, allowed: set<ClientId>, k: nat, w: WebhookId)
    requires k <= |steps|
    ensures w in At(steps, allowed, k).routes <==>
            exists i :: 0 <= i < k && WrittenSince(steps, allowed, i, k, w)
    decreases k
  {
    if k > 0 {
      var m: nat := k - 1;
      StepAt(steps, allowed, m);
      StepExists(At(steps, allowed, m), steps[m], allowed, w);
      RouteBefore(steps, allowed, m, w);
      if Writes(At(steps, allowed, m), steps[m], allowed, w) {
        assert WrittenSince(steps, allowed, m, k, w);
      } else if i :| 0 <= i < m && WrittenSince(steps, allowed, i, m, w) {
        WrittenStep(steps, allowed, i, m, w);
      }
      if i :| 0 <= i < k && WrittenSince(steps, allowed, i, k, w) {
        if i < m {
          WrittenStep(steps, allowed, i, m, w);
        }
      }
    }
  }

  /** A route exists after a run exactly if some registration or update wrote it and nothing has
      removed it since. */
  lemma RouteExistsExactly(steps: seq<Step>, allowed: set<ClientId>, w: WebhookId)
    ensures w in RunSteps(NO_WEBHOOKS, steps, allowed).routes <==>
            exists i :: 0 <= i < |steps| && WrittenSince(steps, allowed, i, |steps|, w)
  {
    assert steps[..|steps|] == steps;
    RouteBefore(steps, allowed, |steps|, w);
  }

  /** No step after i and before k disables the route. */
  ghost predicate NotDisabled(steps: seq<Step>, allowed: set<ClientId>, i: nat, k: nat, w: WebhookId)
    requires k <= |steps|
  {
    forall j :: i < j < k ==> !Disables(At(steps, allowed, j), steps[j], w)
  }

  lemma {:induction false} RouteKept(steps: seq<Step>, allowed: set<ClientId>, i: nat, k: nat, w: WebhookId)
    requires i < k <= |steps| && WrittenSince(steps, allowed, i, k, w)
    ensures var v := At(steps, allowed, k);
            && w in v.routes && Describes(v.routes[w], steps[i].arrival)
            && (v.routes[w].enabled <==> NotDisabled(steps, allowed, i, k, w))
    decreases k
  {
    StepAt(steps, allowed, k - 1);
    StepRoutes(At(steps, allowed, k - 1), steps[k - 1], allowed, w);
    if i < k - 1 {
      assert Spares(At(steps, allowed, k - 1), steps[k - 1], allowed, w);
      RouteKept(steps, allowed, i, k - 1, w);
    }
  }

  /** The columns of a route are those of the last command that wrote it, and it is enabled exactly if
      its owner has not deleted it since. */
  lemma RouteExactly(steps: seq<Step>, allowed: set<ClientId>, i: nat, w: WebhookId)
    requires i < |steps| && WrittenSince(steps, allowed, i, |steps|, w)
    ensures var v := RunSteps(NO_WEBHOOKS, steps, allowed);
            && w in v.routes && Describes(v.routes[w], steps[i].arrival)
            && (v.routes[w].enabled <==> NotDisabled(steps, allowed, i, |steps|, w))
  {
    assert steps[..|steps|] == steps;
    RouteKept(steps, allowed, i, |steps|, w);
  }

  // ---- who receives the next event, and who is told about a command ----

  /** An event stored after a run reaches exactly the clients that have joined and not left, and in
      delegated mode the responder; the responder alone is asked for the answer. */
  lemma NextEventReaches(steps: seq<Step>, allowed: set<ClientId>, rows: Events.Rows, id: string, content: Bytes,
                         w: WebhookId, route: Route, s: ClientId)
    requires Events.Delivered(rows, id, content, RunSteps(NO_WEBHOOKS, steps, allowed).subscribers, w, route)
    ensures (exists d :: d in rows && rows[d].parent == Events.OfEvent(id) && rows[d].del.client == s) <==>
            || (exists i :: 0 <= i < |steps| && SubscribedSince(steps, allowed, i, |steps|, w, s))
            || (route.mode == "delegated" && s == route.responder)
    ensures (exists d :: d in rows && rows[d].parent == Events.OfEvent(id) && rows[d].del.client == s
                         && rows[d].del.replies) <==>
            route.mode == "delegated" && s == route.responder
  {
    SubscribedExactly(steps, allowed, w, s);
    if route.mode == "delegated" && s == route.responder {
      var d :| d in rows && rows[d].parent == Events.OfEvent(id) && rows[d].del.client == s;
      assert rows[d].del.replies;
    }
  }

  /** Every committed command leaves an open delivery of its result for its sender, new or reopened,
      and no other delivery changes. */
  lemma ResultIsSent(rows: Events.Rows, id: string, client: ClientId, result: ControlResult)
    ensures var v, d := Events.OpenControl(rows, id, client, result), ControlOf(id);
            && d in v && !v[d].del.closed
            && (d !in rows ==>
                  && v[d].parent == Events.OfCommand(id) && v[d].payload == Events.ControlPayload(result)
                  && v[d].del.client == client && !v[d].del.replies)
            && (d in rows ==>
                  && v[d].parent == rows[d].parent && v[d].payload == rows[d].payload
                  && v[d].del.client == rows[d].del.client && v[d].del.replies == rows[d].del.replies)
            && forall x :: x != d ==> (x in v <==> x in rows) && (x in v ==> v[x] == rows[x])
  {
  }

  /** A desk is the event's status and response, beside the mode and responder of its route as it is now. */
  lemma DeskColumns(e: Events.EventRow, routes: map<WebhookId, Route>)
    requires e.webhook in routes
    ensures var desk := Tables.DeskOf(e, routes);
            && desk.status == e.status && desk.response == e.response
            && (desk.delegated <==> routes[e.webhook].mode == "delegated")
            && desk.responder == routes[e.webhook].responder
            && !desk.waiting && desk.channel.None? && desk.returned.None?
  {
  }

  /** A stored answer or timeout moves the event's status and response, stamps a change of status, and
      keeps the webhook and the content. */
  lemma MovedColumns(e: Events.EventRow, desk: Callback.Desk, now: int)
    ensures var v := Tables.Moved(e, desk, now);
            && v.webhook == e.webhook && v.content == e.content
            && v.status == desk.status && v.response == desk.response
            && v.updatedAt == (if v.status != e.status then now else e.updatedAt)
  {
  }

  /** When the route of a command's webhook was written: by a registration, and by an update or a
      deletion of the owner. */
  lemma StampedColumns(st: Registry, op: ControlOperation, touched: map<WebhookId, int>, now: int, w: WebhookId)
    ensures var v := Tables.Stamped(st, op, touched, now);
            var writes := || (op.action.DoRegister? && op.action.webhook == w)
                          || ((op.action.DoUpdate? || op.action.DoDelete?) && op.action.webhook == w
                              && w in st.routes && st.routes[w].owner == op.client);
            && (writes ==> w in v && v[w] == now)
            && (!writes ==> (w in v <==> w in touched) && (w in v ==> v[w] == touched[w]))
  {
  }

  // ---- what retention may delete ----

  /** An event can be deleted if and only if it is old enough and has no open delivery. */
  lemma ExpiredEventColumns(events: map<string, Events.EventRow>, rows: Events.Rows, before: int, e: string)
    ensures e in Events.ExpiredEvents(events, rows, before) <==>
            && e in events && events[e].updatedAt < before
            && forall d :: d in rows && rows[d].parent == Events.OfEvent(e) ==> rows[d].del.closed
  {
  }

  /** The same for the record of a command. */
  lemma ExpiredCommandColumns(created: map<string, int>, rows: Events.Rows, before: int, c: string)
    ensures c in Events.ExpiredCommands(created, rows, before) <==>
            && c in created && created[c] < before
            && forall d :: d in rows && rows[d].parent == Events.OfCommand(c) ==> rows[d].del.closed
  {
  }
}
