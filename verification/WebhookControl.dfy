/** Webhook control commands: webhookControlOperation of internal/transport/callback.go and
    ApplyWebhookControl of internal/repository/webhook.go. */
module WebhookControl {
  import opened Contracts

  /** A registered webhook's ID is a hash of client and command; the hash is taken as injective. */
  datatype WebhookId = Registered(client: ClientId, command: string) | Named(name: string)

  datatype Reply = Reply(statusCode: int, headers: seq<HeaderField>, body: Bytes)

  datatype Route = Route(
    owner: ClientId, name: string, mode: string, responder: ClientId, reply: Reply,
    responseTimeout: int, maxBodyBytes: int, enabled: bool)

  datatype Command =
    | Register(id: string, client: ClientId, name: string, mode: string, reply: Reply, responder: ClientId,
               subscribers: seq<ClientId>, responseTimeout: int, maxBodyBytes: int)
    | Update(id: string, client: ClientId, webhook: WebhookId, name: string, mode: string, reply: Reply,
             responder: ClientId, responseTimeout: int, maxBodyBytes: int)
    | Subscribe(id: string, client: ClientId, webhook: WebhookId, subscriber: ClientId)
    | Unsubscribe(id: string, client: ClientId, webhook: WebhookId, subscriber: ClientId)
    | Delete(id: string, client: ClientId, webhook: WebhookId)

  datatype Action =
    | DoRegister(webhook: WebhookId, route: Route, subscribers: seq<ClientId>)
    | DoUpdate(webhook: WebhookId, route: Route)
    | DoSubscribe(webhook: WebhookId, subscriber: ClientId)
    | DoUnsubscribe(webhook: WebhookId, subscriber: ClientId)
    | DoDelete(webhook: WebhookId)
    | DoNothing

  datatype ControlResult = ControlResult(command: string, success: bool, webhook: Option<WebhookId>, errorCode: string)

  datatype ControlOperation = ControlOperation(id: string, client: ClientId, command: Command, action: Action,
                                               result: ControlResult)

  // ---- building the operation ----

  const MILLISECOND: int := 1_000_000

  function WithDefaults(r: Route): Route
  {
    r.(reply := if r.reply.statusCode == 0 then r.reply.(statusCode := 200) else r.reply,
       responseTimeout := if r.responseTimeout <= 0 then 10_000 * MILLISECOND else r.responseTimeout,
       maxBodyBytes := if r.maxBodyBytes <= 0 then 4 * 1024 * 1024 else r.maxBodyBytes)
  }

  predicate NoDuplicates<T(==)>(s: seq<T>) { forall i, j :: 0 <= i < j < |s| ==> s[i] != s[j] }

  function Distinct(values: seq<ClientId>): (result: seq<ClientId>)
    ensures NoDuplicates(result)
    ensures forall v :: v in result <==> v in values && v != ""
  {
    if values == [] then []
    else
      var front, last := Distinct(values[..|values| - 1]), values[|values| - 1];
      assert values == values[..|values| - 1] + [last];
      if last == "" || last in front then front else front + [last]
  }

  /** dedupe: one pass with a `seen` map; keeps the first occurrence of every non-empty ID. */
  method Dedupe(values: seq<ClientId>) returns (result: seq<ClientId>)
    ensures result == Distinct(values)
  {
    var seen: map<ClientId, bool> := map[];
    result := [];
    for i := 0 to |values|
      invariant result == Distinct(values[..i])
      invariant forall v :: v in seen <==> v in result
    {
      assert values[..i + 1][..i] == values[..i];
      if values[i] != "" && values[i] !in seen {
        seen := seen[values[i] := true];
        result := result + [values[i]];
      }
    }
    assert values[..|values|] == values;
  }

  function Invalid(client: ClientId, c: Command, code: string): Option<ControlOperation>
  {
    if c.id == "" then None
    else Some(ControlOperation(c.id, client, c, DoNothing, ControlResult(c.id, false, None, code)))
  }

  function Valid(client: ClientId, c: Command, action: Action, webhook: WebhookId): Option<ControlOperation>
  {
    Some(ControlOperation(c.id, client, c, action, ControlResult(c.id, true, Some(webhook), "")))
  }

  predicate KnownMode(mode: string) { mode == "static" || mode == "delegated" }

  function Responder(mode: string, responder: ClientId, client: ClientId): ClientId
  {
    if mode == "delegated" && responder == "" then client else responder
  }

  /** webhookControlOperation: None is a command that is dropped without a reply. */
  function Plan(client: ClientId, c: Command, allowed: set<ClientId>): Option<ControlOperation>
  {
    match c
    case Register(id, from, name, mode, reply, responder, subscribers, timeout, maxBody) =>
      var r := Responder(mode, responder, client);
      if from != client || id == "" then Invalid(client, c, "invalid_identity")
      else if !KnownMode(mode) then Invalid(client, c, "invalid_mode")
      else if exists s :: s in subscribers + [r] && s != "" && s !in allowed then
        Invalid(client, c, "subscriber_not_allowed")
      else
        var route := WithDefaults(Route(client, name, mode, r, reply, timeout, maxBody, true));
        Valid(client, c, DoRegister(Registered(client, id), route, Distinct(subscribers + [client])),
              Registered(client, id))
    case Update(id, from, webhook, name, mode, reply, responder, timeout, maxBody) =>
      var r := Responder(mode, responder, client);
      if from != client || id == "" || webhook == Named("") then Invalid(client, c, "invalid_identity")
      else if !KnownMode(mode) then Invalid(client, c, "invalid_mode")
      else if r != "" && r !in allowed then Invalid(client, c, "responder_not_allowed")
      else
        var route := WithDefaults(Route(client, name, mode, r, reply, timeout, maxBody, true));
        Valid(client, c, DoUpdate(webhook, route), webhook)
    case Subscribe(id, from, webhook, subscriber) =>
      if from != client || id == "" || webhook == Named("") then Invalid(client, c, "invalid_identity")
      else if subscriber == "" || subscriber !in allowed then Invalid(client, c, "subscriber_not_allowed")
      else Valid(client, c, DoSubscribe(webhook, subscriber), webhook)
    case Unsubscribe(id, from, webhook, subscriber) =>
      if from != client || id == "" || webhook == Named("") then Invalid(client, c, "invalid_identity")
      else Valid(client, c, DoUnsubscribe(webhook, subscriber), webhook)
    case Delete(id, from, webhook) =>
      if from != client || id == "" || webhook == Named("") then Invalid(client, c, "invalid_identity")
      else Valid(client, c, DoDelete(webhook), webhook)
  }

  // ---- applying it ----

  datatype Recorded = Recorded(client: ClientId, command: Command, result: ControlResult)

  datatype Registry = Registry(
    routes: map<WebhookId, Route>, subscribers: set<(WebhookId, ClientId)>, commands: map<string, Recorded>)

  predicate OwnedBy(st: Registry, webhook: WebhookId, client: ClientId)
  {
    webhook in st.routes && st.routes[webhook].owner == client
  }

  function Failed(r: ControlResult): ControlResult { r.(success := false, errorCode := "webhook_not_found") }

  /** The schema refuses a response timeout below one millisecond. */
  predicate Storable(r: Route) { r.responseTimeout >= MILLISECOND }

  /** The route as its columns hold it: the timeout is stored in whole milliseconds. */
  function InColumns(r: Route): Route { r.(responseTimeout := r.responseTimeout / MILLISECOND * MILLISECOND) }

  /** The tables after the action, and the result to record. */
  function Perform(st: Registry, op: ControlOperation): Tx<(Registry, ControlResult)>
  {
    match op.action
    case DoRegister(w, route, subs) =>
      if w in st.routes || !Storable(route) then Rollback(SchemaViolation)
      else Commit((st.(routes := st.routes[w := InColumns(route)],
                       subscribers := st.subscribers + set s | s in subs :: (w, s)),
                   op.result))
    case DoUpdate(w, route) =>
      if !OwnedBy(st, w, op.client) then Commit((st, Failed(op.result)))
      else if !Storable(route) then Rollback(SchemaViolation)
      else Commit((st.(routes := st.routes[w := InColumns(route)]), op.result))
    case DoSubscribe(w, s) =>
      if !OwnedBy(st, w, op.client) then Commit((st, Failed(op.result)))
      else Commit((st.(subscribers := st.subscribers + {(w, s)}), op.result))
    case DoUnsubscribe(w, s) =>
      if !OwnedBy(st, w, op.client) then Commit((st, Failed(op.result)))
      else Commit((st.(subscribers := st.subscribers - {(w, s)}), op.result))
    case DoDelete(w) =>
      if !OwnedBy(st, w, op.client) then Commit((st, Failed(op.result)))
      else Commit((st.(routes := st.routes[w := st.routes[w].(enabled := false)]), op.result))
    case DoNothing => Commit((st, op.result))
  }

  /** ApplyWebhookControl: a known command ID is answered from its record, or refused. */
  function ApplyControl(st: Registry, op: ControlOperation): Tx<(Registry, ControlResult)>
  {
    if op.id in st.commands then
      var r := st.commands[op.id];
      if r.client != op.client || r.command != op.command then Rollback(RequestConflict) else Commit((st, r.result))
    else
      var tx := Perform(st, op);
      if tx.Rollback? then tx
      else
        var (done, result) := tx.state;
        Commit((done.(commands := done.commands[op.id := Recorded(op.client, op.command, result)]), result))
  }

  // ---- retention ----

  /** The command part of Cleanup removes the records `ids`. */
  function Forget(st: Registry, ids: set<string>): Registry { st.(commands := st.commands - ids) }

  /** The route part of Cleanup removes routes of `ids`, with their subscribers; it spares enabled ones. */
  function RemoveDisabled(st: Registry, ids: set<WebhookId>): Registry
  {
    var gone := set w | w in ids && w in st.routes && !st.routes[w].enabled;
    st.(routes := st.routes - gone, subscribers := set s | s in st.subscribers && s.0 !in gone)
  }

  // ---- whole runs of commands and retention ----

  /** A command as it arrives: the authenticated sender and the decoded command. */
  datatype Arrival = Arrival(client: ClientId, command: Command)

  function Outcome(st: Registry, a: Arrival, allowed: set<ClientId>): Tx<(Registry, ControlResult)>
  {
    var plan := Plan(a.client, a.command, allowed);
    if plan.None? then Rollback(Unsupported) else ApplyControl(st, plan.value)
  }

  function Process(st: Registry, a: Arrival, allowed: set<ClientId>): Registry
  {
    var tx := Outcome(st, a, allowed);
    if tx.Commit? then tx.state.0 else st
  }

  datatype Step =
    | Arrive(arrival: Arrival)
    | ForgetCommands(commands: set<string>)
    | RemoveRoutes(routes: set<WebhookId>)

  function Advance(st: Registry, s: Step, allowed: set<ClientId>): Registry
  {
    match s
    case Arrive(a) => Process(st, a, allowed)
    case ForgetCommands(ids) => Forget(st, ids)
    case RemoveRoutes(ids) => RemoveDisabled(st, ids)
  }

  function RunSteps(st: Registry, steps: seq<Step>, allowed: set<ClientId>): Registry
    decreases |steps|
  {
    if steps == [] then st else RunSteps(Advance(st, steps[0], allowed), steps[1..], allowed)
  }

  lemma {:induction false} RunConcat(st: Registry, a: seq<Step>, b: seq<Step>, allowed: set<ClientId>)
    ensures RunSteps(st, a + b, allowed) == RunSteps(RunSteps(st, a, allowed), b, allowed)
    decreases |a|
  {
    if a == [] {
      assert a + b == b;
    } else {
      assert (a + b)[1..] == a[1..] + b;
      RunConcat(Advance(st, a[0], allowed), a[1..], b, allowed);
    }
  }

  /** The record of `id` is removed by one of the steps lo..hi - 1. */
  predicate Removed(steps: seq<Step>, lo: nat, hi: nat, id: string)
    requires hi <= |steps|
  {
    exists k :: lo <= k < hi && Forgets(steps[k], id)
  }

  predicate Forgets(s: Step, id: string) { s.ForgetCommands? && id in s.commands }

  predicate Names(s: Step, id: string) { s.Arrive? && s.arrival.command.id == id }

  /** The arrival commits under an ID that is not on record. */
  predicate FirstCommit(st: Registry, a: Arrival, allowed: set<ClientId>)
  {
    a.command.id !in st.commands && Outcome(st, a, allowed).Commit?
  }

  predicate Keeps(st: Registry, s: Step, allowed: set<ClientId>)
  {
    s.Arrive? ==> FirstCommit(st, s.arrival, allowed)
  }

  /** The retention steps, and the arrivals that commit first under their IDs. */
  function Kept(st: Registry, steps: seq<Step>, allowed: set<ClientId>): seq<Step>
    decreases |steps|
  {
    if steps == [] then []
    else
      var rest := Kept(Advance(st, steps[0], allowed), steps[1..], allowed);
      if Keeps(st, steps[0], allowed) then [steps[0]] + rest else rest
  }

  lemma PlanNamesCommand(a: Arrival, allowed: set<ClientId>)
    ensures var plan := Plan(a.client, a.command, allowed);
            plan.Some? ==>
              plan.value.id == a.command.id && plan.value.client == a.client && plan.value.command == a.command
  {
  }

  lemma ProcessStep(st: Registry, a: Arrival, allowed: set<ClientId>)
    ensures !FirstCommit(st, a, allowed) ==> Process(st, a, allowed) == st
    ensures FirstCommit(st, a, allowed) ==>
              Process(st, a, allowed).commands
              == st.commands[a.command.id := Recorded(a.client, a.command, Outcome(st, a, allowed).state.1)]
  {
    PlanNamesCommand(a, allowed);
  }

  /** How one step changes the record of an ID. */
  lemma StepRecord(st: Registry, s: Step, allowed: set<ClientId>, id: string)
    ensures var v := Advance(st, s, allowed);
            && (id in st.commands && !Forgets(s, id) ==> id in v.commands && v.commands[id] == st.commands[id])
            && (id !in st.commands ==> (id in v.commands <==> Names(s, id) && Keeps(st, s, allowed)))
            && (Forgets(s, id) ==> id !in v.commands)
  {
    if s.Arrive? {
      ProcessStep(st, s.arrival, allowed);
    }
  }

  /** Replays, conflicting reuses and refused commands change nothing: routes, subscribers and
      recorded results are those of the kept steps alone. */
  lemma {:induction false} CommandsIdempotent(st: Registry, steps: seq<Step>, allowed: set<ClientId>)
    ensures RunSteps(st, steps, allowed) == RunSteps(st, Kept(st, steps, allowed), allowed)
    decreases |steps|
  {
    if steps != [] {
      var s := steps[0];
      CommandsIdempotent(Advance(st, s, allowed), steps[1..], allowed);
      if Keeps(st, s, allowed) {
        var kept := Kept(st, steps, allowed);
        assert kept[0] == s && kept[1..] == Kept(Advance(st, s, allowed), steps[1..], allowed);
      } else {
        ProcessStep(st, s.arrival, allowed);
      }
    }
  }

  /** Between two arrivals of the same ID its record is removed. */
  predicate OncePerRecord(steps: seq<Step>)
  {
    forall i, j :: 0 <= i < j < |steps| && steps[i].Arrive? && Names(steps[j], steps[i].arrival.command.id) ==>
      Removed(steps, i, j, steps[i].arrival.command.id)
  }

  /** IDs on record in `st` arrive only after their record is removed. */
  predicate AfterRecords(st: Registry, steps: seq<Step>)
  {
    forall j :: 0 <= j < |steps| && steps[j].Arrive? && steps[j].arrival.command.id in st.commands ==>
      Removed(steps, 0, j, steps[j].arrival.command.id)
  }

  lemma RemovedCons(s: Step, rest: seq<Step>, lo: nat, hi: nat, id: string)
    requires hi <= |rest| && Removed(rest, lo, hi, id)
    ensures Removed([s] + rest, lo + 1, hi + 1, id)
  {
    var k :| lo <= k < hi && Forgets(rest[k], id);
    assert ([s] + rest)[k + 1] == rest[k];
  }

  lemma RecordsCons(st: Registry, s: Step, rest: seq<Step>, allowed: set<ClientId>)
    requires Keeps(st, s, allowed) && AfterRecords(Advance(st, s, allowed), rest)
    ensures AfterRecords(st, [s] + rest)
  {
    var all, v := [s] + rest, Advance(st, s, allowed);
    forall j | 0 <= j < |all| && all[j].Arrive? && all[j].arrival.command.id in st.commands
      ensures Removed(all, 0, j, all[j].arrival.command.id)
    {
      var id := all[j].arrival.command.id;
      StepRecord(st, s, allowed, id);
      assert j > 0 && all[j] == rest[j - 1];
      if id in v.commands {
        RemovedCons(s, rest, 0, j - 1, id);
      } else {
        assert Forgets(all[0], id);
      }
    }
  }

  lemma OnceCons(st: Registry, s: Step, rest: seq<Step>, allowed: set<ClientId>)
    requires Keeps(st, s, allowed) && AfterRecords(Advance(st, s, allowed), rest) && OncePerRecord(rest)
    ensures OncePerRecord([s] + rest)
  {
    var all := [s] + rest;
    forall i, j | 0 <= i < j < |all| && all[i].Arrive? && Names(all[j], all[i].arrival.command.id)
      ensures Removed(all, i, j, all[i].arrival.command.id)
    {
      var id := all[i].arrival.command.id;
      assert all[j] == rest[j - 1];
      if i == 0 {
        StepRecord(st, s, allowed, id);
        RemovedCons(s, rest, 0, j - 1, id);
      } else {
        assert all[i] == rest[i - 1];
        RemovedCons(s, rest, i - 1, j - 1, id);
      }
    }
  }

  /** Each command ID is kept at most once for as long as its record exists, and not before the
      record that it has at the start is removed. */
  lemma {:induction false} KeptOnce(st: Registry, steps: seq<Step>, allowed: set<ClientId>)
    ensures OncePerRecord(Kept(st, steps, allowed)) && AfterRecords(st, Kept(st, steps, allowed))
    decreases |steps|
  {
    if steps != [] {
      var v := Advance(st, steps[0], allowed);
      KeptOnce(v, steps[1..], allowed);
      if Keeps(st, steps[0], allowed) {
        RecordsCons(st, steps[0], Kept(v, steps[1..], allowed), allowed);
        OnceCons(st, steps[0], Kept(v, steps[1..], allowed), allowed);
      } else {
        ProcessStep(st, steps[0].arrival, allowed);
      }
    }
  }

  lemma {:induction false} KeptArrived(st: Registry, steps: seq<Step>, allowed: set<ClientId>)
    ensures forall s :: s in Kept(st, steps, allowed) ==> s in steps
    decreases |steps|
  {
    if steps != [] {
      KeptArrived(Advance(st, steps[0], allowed), steps[1..], allowed);
    }
  }

  /** No command ID arrives after its record has been removed. */
  predicate NoReturn(steps: seq<Step>)
  {
    forall i, j :: 0 <= i < j < |steps| && steps[j].Arrive? ==> !Forgets(steps[i], steps[j].arrival.command.id)
  }

  lemma {:induction false} KeptNoReturn(st: Registry, steps: seq<Step>, allowed: set<ClientId>)
    requires NoReturn(steps)
    ensures NoReturn(Kept(st, steps, allowed))
    decreases |steps|
  {
    if steps != [] {
      var v, tail := Advance(st, steps[0], allowed), steps[1..];
      assert NoReturn(tail) by {
        assert forall i :: 0 <= i < |tail| ==> tail[i] == steps[i + 1];
      }
      KeptNoReturn(v, tail, allowed);
      KeptArrived(v, tail, allowed);
      var rest := Kept(v, tail, allowed);
      forall s | s in rest && s.Arrive?
        ensures !Forgets(steps[0], s.arrival.command.id)
      {
        var j :| 0 <= j < |tail| && tail[j] == s;
        assert steps[j + 1] == s;
      }
      assert forall j :: 0 < j < |[steps[0]] + rest| ==> ([steps[0]] + rest)[j] == rest[j - 1];
    }
  }

  /** If no ID returns after its record is removed, each ID is kept at most once. */
  lemma KeptDistinct(st: Registry, steps: seq<Step>, allowed: set<ClientId>)
    requires NoReturn(steps)
    ensures var kept := Kept(st, steps, allowed);
            forall i, j :: 0 <= i < j < |kept| && kept[i].Arrive? ==> !Names(kept[j], kept[i].arrival.command.id)
  {
    KeptOnce(st, steps, allowed);
    KeptNoReturn(st, steps, allowed);
  }

  predicate NeverForgotten(steps: seq<Step>, id: string)
  {
    forall i :: 0 <= i < |steps| ==> !Forgets(steps[i], id)
  }

  /** A record changes only by retention, so every later copy of a command, even after commands that
      undo it, is answered with the first result and leaves the tables alone; a reuse of its ID by
      another client or for another command is refused. */
  lemma {:induction false} ReplayAnswered(st: Registry, steps: seq<Step>, allowed: set<ClientId>, a: Arrival)
    requires a.command.id in st.commands && Plan(a.client, a.command, allowed).Some?
    requires NeverForgotten(steps, a.command.id)
    ensures var later := RunSteps(st, steps, allowed);
            var r := st.commands[a.command.id];
            && a.command.id in later.commands && later.commands[a.command.id] == r
            && Outcome(later, a, allowed) ==
               if r.client == a.client && r.command == a.command then Commit((later, r.result))
               else Rollback(RequestConflict)
    decreases |steps|
  {
    PlanNamesCommand(a, allowed);
    if steps != [] {
      assert !Forgets(steps[0], a.command.id);
      StepRecord(st, steps[0], allowed, a.command.id);
      assert forall i :: 0 <= i < |steps[1..]| ==> steps[1..][i] == steps[i + 1];
      ReplayAnswered(Advance(st, steps[0], allowed), steps[1..], allowed, a);
    }
  }

  /** `id` is kept by one of the steps and not removed after it. */
  predicate KeptAndThere(kept: seq<Step>, id: string)
  {
    exists j :: 0 <= j < |kept| && Names(kept[j], id) && !Removed(kept, j, |kept|, id)
  }

  lemma ThereCons(s: Step, rest: seq<Step>, id: string)
    ensures KeptAndThere([s] + rest, id) <==>
            KeptAndThere(rest, id) || (Names(s, id) && !Removed(rest, 0, |rest|, id))
  {
    var all := [s] + rest;
    assert all[0] == s && forall j :: 0 <= j < |rest| ==> all[j + 1] == rest[j];
    forall j | 0 <= j <= |rest|
      ensures Removed(rest, j, |rest|, id) <==> Removed(all, j + 1, |all|, id)
    {
      if Removed(all, j + 1, |all|, id) {
        var k :| j + 1 <= k < |all| && Forgets(all[k], id);
        assert Forgets(rest[k - 1], id);
      } else if Removed(rest, j, |rest|, id) {
        RemovedCons(s, rest, j, |rest|, id);
      }
    }
    if Names(s, id) {
      assert Removed(all, 0, |all|, id) <==> Removed(all, 1, |all|, id);
    }
    if j :| 0 <= j < |rest| && Names(rest[j], id) && !Removed(rest, j, |rest|, id) {
      assert Names(all[j + 1], id);
    }
    if j :| 0 <= j < |all| && Names(all[j], id) && !Removed(all, j, |all|, id) {
      assert j == 0 || Names(rest[j - 1], id);
    }
  }

  /** An ID is on record if and only if some arrival committed under it, or it was on record at the
      start, and it has not been removed since. */
  lemma {:induction false} RecordedIffKept(st: Registry, steps: seq<Step>, allowed: set<ClientId>, id: string)
    ensures var kept := Kept(st, steps, allowed);
            id in RunSteps(st, steps, allowed).commands <==>
              || KeptAndThere(kept, id)
              || (id in st.commands && !Removed(kept, 0, |kept|, id))
    decreases |steps|
  {
    if steps != [] {
      var s, v := steps[0], Advance(st, steps[0], allowed);
      var rest := Kept(v, steps[1..], allowed);
      StepRecord(st, s, allowed, id);
      RecordedIffKept(v, steps[1..], allowed, id);
      if Keeps(st, s, allowed) {
        ThereCons(s, rest, id);
        RemovedFirst(s, rest, id);
      } else {
        ProcessStep(st, s.arrival, allowed);
      }
    }
  }

  lemma RemovedFirst(s: Step, rest: seq<Step>, id: string)
    ensures Removed([s] + rest, 0, |rest| + 1, id) <==> Forgets(s, id) || Removed(rest, 0, |rest|, id)
  {
    var all := [s] + rest;
    if Forgets(s, id) {
      assert Forgets(all[0], id);
    } else if Removed(rest, 0, |rest|, id) {
      RemovedCons(s, rest, 0, |rest|, id);
    } else {
      assert forall k :: 0 < k < |all| ==> all[k] == rest[k - 1];
    }
  }

  // ---- commands that the schema refuses ----

  /** A timeout that is kept as it is but rounds down to zero milliseconds. */
  predicate ShortTimeout(c: Command)
  {
    (c.Register? || c.Update?) && 0 < c.responseTimeout < MILLISECOND
  }

  predicate Registers(a: Arrival, allowed: set<ClientId>)
  {
    var plan := Plan(a.client, a.command, allowed);
    plan.Some? && plan.value.action.DoRegister?
  }

  predicate Updates(a: Arrival, allowed: set<ClientId>, webhook: WebhookId)
  {
    var plan := Plan(a.client, a.command, allowed);
    plan.Some? && plan.value.action.DoUpdate? && plan.value.action.webhook == webhook
  }

  /** A valid command that writes a route with such a timeout. */
  predicate WritesShortTimeout(st: Registry, a: Arrival, allowed: set<ClientId>)
  {
    && ShortTimeout(a.command)
    && (|| Registers(a, allowed)
        || (a.command.Update? && Updates(a, allowed, a.command.webhook) && OwnedBy(st, a.command.webhook, a.client)))
  }

  /** A registration whose webhook exists although the command is not on record. */
  predicate RouteOutlived(st: Registry, a: Arrival, allowed: set<ClientId>)
  {
    && Registers(a, allowed) && a.command.id !in st.commands
    && Registered(a.client, a.command.id) in st.routes
  }

  /** The IDs whose records retention has removed. */
  function Forgotten(steps: seq<Step>): set<string>
  {
    set i, id | 0 <= i < |steps| && steps[i].ForgetCommands? && id in steps[i].commands :: id
  }

  /** Webhooks come from registrations only, and belong to the client that registered them. */
  predicate RoutesRecorded(st: Registry, forgotten: set<string>)
  {
    forall w :: w in st.routes ==>
      w.Registered? && st.routes[w].owner == w.client && (w.command in st.commands || w.command in forgotten)
  }

  /** A planned route belongs to the sender, and a registered webhook is named after the command. */
  lemma PlanOwnsRoute(a: Arrival, allowed: set<ClientId>)
    requires Plan(a.client, a.command, allowed).Some?
    ensures var op := Plan(a.client, a.command, allowed).value;
            && op.id == a.command.id && op.client == a.client
            && (op.action.DoRegister? ==>
                  op.action.webhook == Registered(a.client, op.id) && op.action.route.owner == a.client)
            && (op.action.DoUpdate? ==> op.action.route.owner == a.client)
  {
  }

  /** Routes after a command: owners stay, and at most the webhook named after the command is new. */
  lemma ControlRoutes(st: Registry, op: ControlOperation)
    requires op.action.DoRegister? ==>
               op.action.webhook == Registered(op.client, op.id) && op.action.route.owner == op.client
    requires op.action.DoUpdate? ==> op.action.route.owner == op.client
    ensures var tx := ApplyControl(st, op);
            tx.Commit? ==>
              var v := tx.state.0;
              && op.id in v.commands && st.commands.Keys <= v.commands.Keys
              && forall w :: w in v.routes ==>
                   || (w in st.routes && v.routes[w].owner == st.routes[w].owner)
                   || (w == Registered(op.client, op.id) && v.routes[w].owner == op.client)
  {
  }

  lemma AdvanceRoutesRecorded(st: Registry, s: Step, allowed: set<ClientId>, forgotten: set<string>)
    requires RoutesRecorded(st, forgotten)
    ensures RoutesRecorded(Advance(st, s, allowed), forgotten + if s.ForgetCommands? then s.commands else {})
  {
    if s.Arrive? && Plan(s.arrival.client, s.arrival.command, allowed).Some? {
      PlanOwnsRoute(s.arrival, allowed);
      ControlRoutes(st, Plan(s.arrival.client, s.arrival.command, allowed).value);
    }
  }

  lemma {:induction false} RunRoutesRecorded(st: Registry, steps: seq<Step>, allowed: set<ClientId>,
                                             forgotten: set<string>)
    requires RoutesRecorded(st, forgotten)
    ensures RoutesRecorded(RunSteps(st, steps, allowed), forgotten + Forgotten(steps))
    decreases |steps|
  {
    if steps == [] {
      assert forgotten + Forgotten(steps) == forgotten;
    } else {
      var s := steps[0];
      var more := forgotten + if s.ForgetCommands? then s.commands else {};
      AdvanceRoutesRecorded(st, s, allowed, forgotten);
      RunRoutesRecorded(Advance(st, s, allowed), steps[1..], allowed, more);
      forall id | id in more + Forgotten(steps[1..])
        ensures id in forgotten + Forgotten(steps)
      {
        if i :| 0 <= i < |steps[1..]| && steps[1..][i].ForgetCommands? && id in steps[1..][i].commands {
          assert steps[i + 1] == steps[1..][i];
        }
      }
    }
  }

  const NO_WEBHOOKS := Registry(map[], {}, map[])

  /** After every run of commands and retention, a command that passes validation is refused if and
      only if its ID is on record for something else, or its ID is not on record and it writes a
      route whose timeout is above zero and below one millisecond, or it registers a webhook that has
      outlived its record; the last needs a record of that ID to have been removed. */
  lemma RefusedExactly(steps: seq<Step>, a: Arrival, allowed: set<ClientId>)
    requires Plan(a.client, a.command, allowed).Some?
    ensures var st := RunSteps(NO_WEBHOOKS, steps, allowed);
            && (Outcome(st, a, allowed).Rollback? <==>
                  if a.command.id in st.commands
                  then st.commands[a.command.id].client != a.client || st.commands[a.command.id].command != a.command
                  else WritesShortTimeout(st, a, allowed) || RouteOutlived(st, a, allowed))
            && (RouteOutlived(st, a, allowed) ==> a.command.id in Forgotten(steps))
  {
    var st := RunSteps(NO_WEBHOOKS, steps, allowed);
    RunRoutesRecorded(NO_WEBHOOKS, steps, allowed, {});
    if a.command.id in st.commands {
      PlanNamesCommand(a, allowed);
    } else {
      RefusedHere(st, a, allowed);
    }
  }

  lemma RefusedHere(st: Registry, a: Arrival, allowed: set<ClientId>)
    requires Plan(a.client, a.command, allowed).Some? && a.command.id !in st.commands
    ensures Outcome(st, a, allowed).Rollback? <==> WritesShortTimeout(st, a, allowed) || RouteOutlived(st, a, allowed)
  {
    PlanNamesCommand(a, allowed);
  }

  /** A kept arrival commits in the state that it meets. */
  lemma {:induction false} KeptCommits(st: Registry, steps: seq<Step>, allowed: set<ClientId>, s: Step)
    requires s in Kept(st, steps, allowed)
    ensures exists i :: 0 <= i < |steps| && steps[i] == s && Keeps(RunSteps(st, steps[..i], allowed), s, allowed)
    decreases |steps|
  {
    if steps[0] == s && Keeps(st, s, allowed) {
      assert RunSteps(st, steps[..0], allowed) == st;
    } else {
      var v := Advance(st, steps[0], allowed);
      KeptCommits(v, steps[1..], allowed, s);
      var i :| 0 <= i < |steps[1..]| && steps[1..][i] == s && Keeps(RunSteps(v, steps[1..][..i], allowed), s, allowed);
      assert steps[..i + 1][1..] == steps[1..][..i];
      assert steps[i + 1] == s && Keeps(RunSteps(st, steps[..i + 1], allowed), s, allowed);
    }
  }

  /** A registration with such a timeout never commits, whatever happens around it, so it is never
      recorded and never answered: its ID stays unrecorded unless another arrival uses it. */
  lemma ShortRegistrationNeverCommits(st: Registry, steps: seq<Step>, allowed: set<ClientId>, x: Arrival)
    requires ShortTimeout(x.command) && Registers(x, allowed)
    ensures Arrive(x) !in Kept(st, steps, allowed)
    ensures x.command.id !in st.commands && (forall s :: s in steps && Names(s, x.command.id) ==> s == Arrive(x)) ==>
              x.command.id !in RunSteps(st, steps, allowed).commands
  {
    if Arrive(x) in Kept(st, steps, allowed) {
      KeptCommits(st, steps, allowed, Arrive(x));
      var i :| 0 <= i < |steps| && steps[i] == Arrive(x)
               && Keeps(RunSteps(st, steps[..i], allowed), Arrive(x), allowed);
      RefusedHere(RunSteps(st, steps[..i], allowed), x, allowed);
    }
    RecordedIffKept(st, steps, allowed, x.command.id);
    KeptArrived(st, steps, allowed);
  }

  /** A route leaves the table only by retention, when it is disabled. */
  lemma {:induction false} RouteLeavesBy(st: Registry, steps: seq<Step>, allowed: set<ClientId>, w: WebhookId)
    requires w in st.routes && w !in RunSteps(st, steps, allowed).routes
    ensures exists j :: 0 <= j < |steps| && RemovedAt(st, steps, allowed, w, j)
    decreases |steps|
  {
    var v := Advance(st, steps[0], allowed);
    if w in v.routes {
      RouteLeavesBy(v, steps[1..], allowed, w);
      var j :| 0 <= j < |steps[1..]| && RemovedAt(v, steps[1..], allowed, w, j);
      assert steps[..j + 1][1..] == steps[1..][..j];
      assert RemovedAt(st, steps, allowed, w, j + 1);
    } else {
      assert RunSteps(st, steps[..0], allowed) == st;
      assert RemovedAt(st, steps, allowed, w, 0);
    }
  }

  /** Step j removes the route `w`, which is disabled then. */
  predicate RemovedAt(st: Registry, steps: seq<Step>, allowed: set<ClientId>, w: WebhookId, j: nat)
    requires j < |steps|
  {
    var before := RunSteps(st, steps[..j], allowed);
    steps[j].RemoveRoutes? && w in steps[j].routes && w in before.routes && !before.routes[w].enabled
  }

  lemma ShortUpdateHere(v: Registry, allowed: set<ClientId>, x: Arrival, w: WebhookId)
    requires ShortTimeout(x.command) && Updates(x, allowed, w) && x.command.id !in v.commands
    ensures FirstCommit(v, x, allowed) <==> !OwnedBy(v, w, x.client)
    ensures FirstCommit(v, x, allowed) ==>
              && Process(v, x, allowed).routes == v.routes
              && Outcome(v, x, allowed).state.1.errorCode == "webhook_not_found"
  {
    PlanNamesCommand(x, allowed);
  }

  /** Only one client can ever own a webhook. */
  lemma OwnerIsFixed(early: seq<Step>, late: seq<Step>, allowed: set<ClientId>, w: WebhookId, c: ClientId)
    requires OwnedBy(RunSteps(NO_WEBHOOKS, early, allowed), w, c)
    ensures var v := RunSteps(NO_WEBHOOKS, late, allowed); OwnedBy(v, w, c) <==> w in v.routes
  {
    RunRoutesRecorded(NO_WEBHOOKS, early, allowed, {});
    RunRoutesRecorded(NO_WEBHOOKS, late, allowed, {});
  }

  /** An update with such a timeout of a webhook that its client owned commits if and only if the
      webhook is gone, which takes its removal by retention, and then only to report that there is none. */
  lemma ShortUpdateCommits(early: seq<Step>, late: seq<Step>, allowed: set<ClientId>, x: Arrival, w: WebhookId)
    requires ShortTimeout(x.command) && Updates(x, allowed, w)
    requires OwnedBy(RunSteps(NO_WEBHOOKS, early, allowed), w, x.client)
    requires x.command.id !in RunSteps(NO_WEBHOOKS, early + late, allowed).commands
    ensures var st, v := RunSteps(NO_WEBHOOKS, early, allowed), RunSteps(NO_WEBHOOKS, early + late, allowed);
            && (FirstCommit(v, x, allowed) <==> w !in v.routes)
            && (FirstCommit(v, x, allowed) ==>
                  && (exists j :: 0 <= j < |late| && RemovedAt(st, late, allowed, w, j))
                  && Process(v, x, allowed).routes == v.routes
                  && Outcome(v, x, allowed).state.1.errorCode == "webhook_not_found")
  {
    var st, v := RunSteps(NO_WEBHOOKS, early, allowed), RunSteps(NO_WEBHOOKS, early + late, allowed);
    RunConcat(NO_WEBHOOKS, early, late, allowed);
    OwnerIsFixed(early, early + late, allowed, w, x.client);
    ShortUpdateHere(v, allowed, x, w);
    if w !in v.routes {
      RouteLeavesBy(st, late, allowed, w);
    }
  }

  // ---- both exceptions are reachable ----

  /** Registering and losing the record leaves the webhook behind. */
  lemma RegisteredThenForgotten(a: Arrival, allowed: set<ClientId>)
    requires Registers(a, allowed) && !ShortTimeout(a.command)
    ensures var op := Plan(a.client, a.command, allowed).value;
            && op.id == a.command.id && ApplyControl(NO_WEBHOOKS, op).Commit?
            && var st := Forget(ApplyControl(NO_WEBHOOKS, op).state.0, {op.id});
            RouteOutlived(st, a, allowed) && ApplyControl(st, op) == Rollback(SchemaViolation)
  {
    PlanNamesCommand(a, allowed);
  }

  /** One client registers a webhook, updates it with a short timeout and deletes it, under three IDs. */
  predicate ShortUpdateSetting(register: Arrival, update: Arrival, deletion: Arrival, allowed: set<ClientId>)
  {
    var w := Registered(register.client, register.command.id);
    && register.client == update.client == deletion.client
    && Registers(register, allowed) && !ShortTimeout(register.command)
    && Updates(update, allowed, w) && ShortTimeout(update.command)
    && deletion.command == Delete(deletion.command.id, deletion.client, w) && deletion.command.id != ""
    && register.command.id !in {update.command.id, deletion.command.id} && update.command.id != deletion.command.id
  }

  lemma ShortUpdateRuns(register: Arrival, update: Arrival, deletion: Arrival, allowed: set<ClientId>)
    requires ShortUpdateSetting(register, update, deletion, allowed)
    ensures && Plan(register.client, register.command, allowed).Some?
            && Plan(update.client, update.command, allowed).Some?
            && Plan(deletion.client, deletion.command, allowed).Some?
    ensures var first := Outcome(NO_WEBHOOKS, register, allowed);
            && first.Commit? && Outcome(first.state.0, update, allowed) == Rollback(SchemaViolation)
            && var second := Outcome(first.state.0, deletion, allowed);
            && second.Commit?
            && var st := second.state.0;
            && (forall w :: w in st.routes ==> !st.routes[w].enabled)
            && var third := Outcome(RemoveDisabled(st, st.routes.Keys), update, allowed);
            third.Commit? && third.state.1.errorCode == "webhook_not_found"
  {
    PlanNamesCommand(register, allowed);
    PlanNamesCommand(update, allowed);
    PlanNamesCommand(deletion, allowed);
  }
}
