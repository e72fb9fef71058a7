/** Laws over whole runs of the outgoing exchange, stated in the fields of requests, results and rows:
    where every result comes from, why a call is ever repeated, and what a running lease protects. */
module OutgoingLaws {
  import opened Contracts
  import opened OutgoingTables
  import opened Worker
  import opened OutgoingProtocol
  import opened OutgoingInvariant
  import opened OutgoingSteps
  import opened OutgoingSafety
  import Columns = OutgoingColumns
  import Op = ClientOperation

  // ---- where results come from ----

  /** The request may be sent again after this attempt, and asks for it after this outcome. */
  predicate Repeats(req: HttpRequest, attempt: nat, outcome: HttpOutcome)
  {
    && attempt < req.retry.maxAttempts
    && (req.httpMethod in {"GET", "HEAD", "OPTIONS"} || req.retry.idempotent)
    && match outcome
       case CallFailed(_) => req.retry.retryNetworkFail
       case Response(code, _, _) => code in req.retry.retryStatuses
  }

  /** The result carries the outcome: a response as it came, or the error of a call that failed. */
  predicate Carries(r: HttpResult, outcome: HttpOutcome)
  {
    match outcome
    case Response(code, headers, body) =>
      && r.state == HttpCompleted && r.statusCode == code && r.headers == headers && r.body == body
      && r.errorCode == "" && r.error == ""
    case CallFailed(error) =>
      && r.state == OutcomeUnknown && r.statusCode == 0 && r.headers == [] && r.body == []
      && r.errorCode == "http_outcome_unknown" && r.error == error
  }

  /** In world `w` the event ends a call of the row's request, which is not to be repeated, and `r`
      is the record of its outcome. */
  predicate MadeByCall(w: World, ev: Event, r: HttpResult)
  {
    && ev.AtWorker? && ev.step.EndCall? && ev.worker in w.gate.workers && w.gate.workers[ev.worker].phase.Calling?
    && var op := w.gate.workers[ev.worker].op;
    && w.gate.entry.row.Some? && op.request == w.gate.entry.row.value.request
    && !Repeats(op.request, op.attempts + 1, ev.step.outcome)
    && r.resultId == ResultOf(w.gate.id) && r.requestId == w.gate.id && r.proxyId == w.gate.proxy
    && r.attempts == op.attempts + 1 && r.completedAt == ev.step.completedAt
    && Carries(r, ev.step.outcome)
  }

  /** In world `w` the event finds a dispatch whose lease has run out, and `r` is what it leaves. */
  predicate MadeByRecovery(w: World, ev: Event, r: HttpResult)
  {
    && ev.AtProxy? && ev.happening.RecoverExpired? && w.gate.entry.row.Some?
    && var row := w.gate.entry.row.value;
    && row.status == Dispatching && row.leaseUntil.Some? && row.leaseUntil.value < ev.happening.now
    && r.resultId == ResultOf(w.gate.id) && r.requestId == w.gate.id && r.proxyId == w.gate.proxy
    && r.attempts == row.attempts && r.completedAt == ev.happening.completedAt
    && r.state == OutcomeUnknown && r.statusCode == 0 && r.headers == [] && r.body == []
    && r.errorCode == "proxy_restarted_during_http" && r.error == "HTTP outcome could not be recovered"
  }

  predicate Made(w: World, ev: Event, r: HttpResult) { MadeByCall(w, ev, r) || MadeByRecovery(w, ev, r) }

  predicate SendsResult(out: Out, r: HttpResult)
  {
    out.sent.Some? && out.sent.value.ResultMsg? && out.sent.value.result == r
  }

  lemma CallMakes(g: Gateway, k: WorkerId, ev: WorkerEvent, r: HttpResult)
    requires ev.EndCall?
    requires k in g.workers ==> WorkerFits(g.entry, g.calls, g.workers[k])
    requires g.entry.row.Some? ==> g.entry.row.value.request.requestId == g.id
    ensures HeldByProxy(ApplyWorker(g, k, ev).gate, r) ==>
              HeldByProxy(g, r) || MadeByCall(World(g, {}, map[]), AtWorker(k, ev), r)
  {
  }

  lemma SaveMoves(g: Gateway, k: WorkerId, ev: WorkerEvent, r: HttpResult)
    requires ev.SaveWorkerResult?
    ensures HeldByProxy(ApplyWorker(g, k, ev).gate, r) ==> HeldByProxy(g, r)
  {
  }

  lemma QueueMoves(g: Gateway, k: WorkerId, ev: WorkerEvent, r: HttpResult)
    requires !ev.EndCall? && !ev.SaveWorkerResult? && !ev.PublishDirect?
    ensures HeldByProxy(ApplyWorker(g, k, ev).gate, r) ==> HeldByProxy(g, r)
  {
  }

  lemma PublishMoves(g: Gateway, k: WorkerId, ev: WorkerEvent, r: HttpResult)
    requires ev.PublishDirect?
    ensures var out := ApplyWorker(g, k, ev); HeldByProxy(out.gate, r) || SendsResult(out, r) ==> HeldByProxy(g, r)
  {
  }

  lemma WorkerMakes(g: Gateway, k: WorkerId, ev: WorkerEvent, r: HttpResult)
    requires GateOk(g)
    ensures var out := ApplyWorker(g, k, ev);
            HeldByProxy(out.gate, r) || SendsResult(out, r) ==>
              HeldByProxy(g, r) || MadeByCall(World(g, {}, map[]), AtWorker(k, ev), r)
  {
    if ev.EndCall? {
      CallMakes(g, k, ev, r);
    } else if ev.SaveWorkerResult? {
      SaveMoves(g, k, ev, r);
    } else if ev.PublishDirect? {
      PublishMoves(g, k, ev, r);
    } else {
      QueueMoves(g, k, ev, r);
    }
  }

  lemma RecoveryMakes(g: Gateway, ev: ProxyEvent, r: HttpResult)
    requires ev.RecoverExpired? && (g.entry.row.Some? ==> g.entry.row.value.proxy == g.proxy)
    ensures HeldByProxy(ApplyProxy(g, {}, ev).gate, r) ==>
              HeldByProxy(g, r) || MadeByRecovery(World(g, {}, map[]), AtProxy(ev), r)
  {
  }

  lemma HandlersMove(g: Gateway, net: set<Message>, ev: ProxyEvent, r: HttpResult)
    requires !ev.RecoverExpired?
    ensures var out := ApplyProxy(g, net, ev); HeldByProxy(out.gate, r) || SendsResult(out, r) ==> HeldByProxy(g, r)
  {
  }

  lemma ClientMoves(w: World, c: ClientId, ev: ClientEvent, r: HttpResult)
    requires c in w.clients && StageOk(FactsOf(w.gate), c, w.clients[c])
    ensures c in ApplyClient(w, c, ev).clients
    ensures HeldBySide(ApplyClient(w, c, ev).clients[c], r) ==> HeldBySide(w.clients[c], r) || ResultMsg(c, r) in w.net
  {
  }

  /** A client only passes on results that it received. */
  lemma ClientChanges(w: World, c: ClientId, ev: ClientEvent, d: ClientId, r: HttpResult)
    requires Inv(w) && d in ApplyClient(w, c, ev).clients && HeldBySide(ApplyClient(w, c, ev).clients[d], r)
    ensures (d in w.clients && HeldBySide(w.clients[d], r)) || ResultMsg(d, r) in w.net
  {
    if d in w.clients {
      assert SideOk(FactsOf(w.gate), d, w.clients[d]);
      if d == c {
        ClientMoves(w, c, ev, r);
      } else {
        OthersUntouched(w, c, ev, d);
      }
    }
  }

  lemma GateMakes(w: World, ev: Event, out: Out, r: HttpResult)
    requires HeldByProxy(out.gate, r) || SendsResult(out, r) ==> HeldByProxy(w.gate, r) || Made(w, ev, r)
    ensures Appears(Absorb(w, out), r) ==> Appears(w, r) || Made(w, ev, r)
  {
    var v := Absorb(w, out);
    if c :| ResultMsg(c, r) in v.net {
      assert ResultMsg(c, r) in w.net || SendsResult(out, r);
    }
  }

  lemma ClientMakes(w: World, c: ClientId, ev: ClientEvent, r: HttpResult)
    requires Inv(w)
    ensures Appears(ApplyClient(w, c, ev), r) ==> Appears(w, r)
  {
    var v := ApplyClient(w, c, ev);
    ClientKeepsProxy(w, c, ev);
    if d :| ResultMsg(d, r) in v.net {
      assert ResultMsg(d, r) in w.net;
    } else if d :| d in v.clients && HeldBySide(v.clients[d], r) {
      ClientChanges(w, c, ev, d, r);
    }
  }

  /** Any event leaves only results that were there before, or that it makes itself. */
  lemma StepMakes(w: World, ev: Event, r: HttpResult)
    requires Inv(w)
    ensures Appears(Apply(w, ev), r) ==> Appears(w, r) || Made(w, ev, r)
  {
    match ev
    case AtClient(c, e) => ClientMakes(w, c, e, r);
    case AtProxy(e) =>
      if e.RecoverExpired? {
        RecoveryMakes(w.gate, e, r);
      } else {
        HandlersMove(w.gate, w.net, e, r);
      }
      GateMakes(w, ev, ApplyProxy(w.gate, w.net, e), r);
    case AtWorker(k, e) =>
      WorkerMakes(w.gate, k, e, r);
      GateMakes(w, ev, ApplyWorker(w.gate, k, e), r);
  }

  lemma {:induction false} AppearsMade(id: RequestId, proxy: ProxyId, events: seq<Event>, r: HttpResult)
    requires Appears(After(id, proxy, events), r)
    ensures exists i :: 0 <= i < |events| && Made(After(id, proxy, events[..i]), events[i], r)
    decreases |events|
  {
    if events != [] {
      var n := |events| - 1;
      var front := events[..n];
      AfterLast(id, proxy, events);
      AfterInv(id, proxy, front);
      StepMakes(After(id, proxy, front), events[n], r);
      if Appears(After(id, proxy, front), r) {
        AppearsMade(id, proxy, front, r);
        var i :| 0 <= i < n && Made(After(id, proxy, front[..i]), front[i], r);
        assert front[..i] == events[..i] && front[i] == events[i];
      }
    }
  }

  lemma AfterLast(id: RequestId, proxy: ProxyId, events: seq<Event>)
    requires events != []
    ensures var n := |events| - 1; After(id, proxy, events) == Apply(After(id, proxy, events[..n]), events[n])
  {
    var n := |events| - 1;
    assert events == events[..n] + [events[n]];
    RunConcat(Start(id, proxy), events[..n], [events[n]]);
    assert RunFrom(After(id, proxy, events[..n]), [events[n]]) == Apply(After(id, proxy, events[..n]), events[n]);
  }

  /** Every result that appears anywhere is the record of the outcome of an HTTP call of this request,
      field by field, or what recovery left of a dispatch whose lease had run out.  So a success is
      exactly the response that some call received. */
  lemma ResultHasOrigin(id: RequestId, proxy: ProxyId, events: seq<Event>, r: HttpResult)
    requires Appears(After(id, proxy, events), r)
    ensures exists i :: 0 <= i < |events| && Made(After(id, proxy, events[..i]), events[i], r)
    ensures r.state == HttpCompleted ==>
              exists i :: 0 <= i < |events| && MadeByCall(After(id, proxy, events[..i]), events[i], r)
                          && events[i].step.outcome == Response(r.statusCode, r.headers, r.body)
  {
    AppearsMade(id, proxy, events, r);
    var i :| 0 <= i < |events| && Made(After(id, proxy, events[..i]), events[i], r);
  }

  /** When a call ends, the worker holds a record of its outcome, or will repeat it, exactly as asked. */
  lemma CallIsRecorded(g: Gateway, k: WorkerId, outcome: HttpOutcome, next: int, at: int)
    requires k in g.workers && g.workers[k].phase.Calling?
    ensures var op := g.workers[k].op;
            var v := ApplyWorker(g, k, EndCall(outcome, next, at)).gate;
            && k in v.workers && v.workers[k].op == op && v.entry == g.entry
            && (v.workers[k].phase.Retrying? <==> Repeats(op.request, op.attempts + 1, outcome))
            && (v.workers[k].phase.Retrying? ==>
                  && v.workers[k].phase.next == next
                  && v.workers[k].phase.reason ==
                     if outcome.CallFailed? then outcome.error else "HTTP " + Decimal(outcome.statusCode))
            && (!Repeats(op.request, op.attempts + 1, outcome) ==>
                  && v.workers[k].phase.Publishing? && Carries(v.workers[k].phase.result, outcome)
                  && v.workers[k].phase.result.attempts == op.attempts + 1)
  {
  }

  lemma InHand(g: Gateway, k: WorkerId)
    requires GateOk(g) && k in g.workers
    ensures var req := g.workers[k].op.request;
            && g.entry.row.Some? && req == g.entry.row.value.request && req.clientId == g.entry.row.value.client
            && req.requestId == g.id && req.proxyId == g.proxy
  {
    assert WorkerFits(g.entry, g.calls, g.workers[k]);
  }

  /** Whatever a worker has in hand is the request that its client stored, and so is what it calls. */
  lemma CallsAsSubmitted(id: RequestId, proxy: ProxyId, events: seq<Event>, k: WorkerId)
    requires k in After(id, proxy, events).gate.workers
    ensures var w := After(id, proxy, events);
            var req := w.gate.workers[k].op.request;
            && req.clientId in w.clients && req == w.clients[req.clientId].stored.request
            && req.requestId == id && req.proxyId == proxy
  {
    var w := After(id, proxy, events);
    AfterInv(id, proxy, events);
    InHand(w.gate, k);
    StartInv(id, proxy);
    RunLater(Start(id, proxy), events);
  }

  /** A worker without a permit gives its reservation back, and one whose call is to be repeated puts the
      row back to wait until then; if it no longer owns the row, or the commit fails, the row stays as it
      is.  Either way the worker is done with it. */
  lemma WorkerGivesBack(g: Gateway, k: WorkerId, report: Report)
    requires k in g.workers
    ensures var x, v := g.workers[k], ApplyWorker(g, k, Release(report)).gate;
            x.phase.Holding? ==>
              && v.workers == g.workers - {k} && v.entry.result == g.entry.result
              && (if g.entry.row.Some? && g.entry.row.value.status == Reserved && report != NotCommitted
                     && g.entry.row.value.token == Some(x.op.token) then
                    v.entry.row == Some(g.entry.row.value.(status := Ready, token := None, leaseUntil := None))
                  else v.entry == g.entry)
    ensures var x, v := g.workers[k], ApplyWorker(g, k, Retry(report)).gate;
            x.phase.Retrying? ==>
              && v.workers == g.workers - {k} && v.entry.result == g.entry.result
              && (if g.entry.row.Some? && g.entry.row.value.status == Dispatching && report != NotCommitted
                     && g.entry.row.value.token == Some(x.op.token) then
                    v.entry.row == Some(g.entry.row.value.(status := RetryWait, lastError := x.phase.reason,
                                                           nextAttemptAt := x.phase.next, token := None,
                                                           leaseUntil := None))
                  else v.entry == g.entry)
  {
  }

  // ---- why a call is repeated ----

  /** The event ends a call whose outcome the caller wants to be repeated. */
  predicate AsksAgain(g: Gateway, ev: Event)
  {
    && ev.AtWorker? && ev.step.EndCall? && ev.worker in g.workers && g.workers[ev.worker].phase.Calling?
    && Repeats(g.workers[ev.worker].op.request, g.workers[ev.worker].op.attempts + 1, ev.step.outcome)
  }

  function Asked(w: World, events: seq<Event>): nat
    decreases |events|
  {
    if events == [] then 0
    else (if AsksAgain(w.gate, events[0]) then 1 else 0) + Asked(Apply(w, events[0]), events[1..])
  }

  /** At most one attempt more than was asked for, and none more while the row is queued or a worker
      that still owns it is about to put it back. */
  predicate WithinAsked(g: Gateway, asked: nat)
  {
    g.entry.row.Some? ==>
      var r := g.entry.row.value;
      && r.attempts <= asked + 1
      && (r.status == AwaitingAcceptanceAck || Queued(r.status) ==> r.attempts <= asked)
      && (forall k :: k in g.workers && g.workers[k].phase.Retrying? && !Finished(r.status) ==> r.attempts <= asked)
  }

  lemma FenceAsked(g: Gateway, k: WorkerId, ev: WorkerEvent, asked: nat)
    requires GateOk(g) && WithinAsked(g, asked) && ev.Fence?
    ensures WithinAsked(ApplyWorker(g, k, ev).gate, asked)
  {
    assert k in g.workers ==> WorkerFits(g.entry, g.calls, g.workers[k]);
    forall j | j in g.workers && g.workers[j].phase.Retrying?
      ensures WorkerFits(g.entry, g.calls, g.workers[j])
    {
    }
  }

  lemma EndCallAsked(g: Gateway, k: WorkerId, ev: WorkerEvent, asked: nat)
    requires WithinAsked(g, asked) && ev.EndCall?
    requires forall j :: j in g.workers && g.workers[j].phase.Retrying? ==> j == k || !InPhase(g, k, Calling)
    ensures WithinAsked(ApplyWorker(g, k, ev).gate, asked + if AsksAgain(g, AtWorker(k, ev)) then 1 else 0)
  {
  }

  lemma RetryAsked(g: Gateway, k: WorkerId, ev: WorkerEvent, asked: nat)
    requires GateOk(g) && WithinAsked(g, asked) && ev.Retry?
    ensures WithinAsked(ApplyWorker(g, k, ev).gate, asked)
  {
    assert k in g.workers ==> WorkerFits(g.entry, g.calls, g.workers[k]);
  }

  lemma OtherAsked(g: Gateway, k: WorkerId, ev: WorkerEvent, asked: nat)
    requires WithinAsked(g, asked) && !ev.Fence? && !ev.EndCall? && !ev.Retry?
    ensures WithinAsked(ApplyWorker(g, k, ev).gate, asked)
  {
  }

  lemma ProxyAsked(g: Gateway, net: set<Message>, ev: ProxyEvent, asked: nat)
    requires WithinAsked(g, asked)
    ensures WithinAsked(ApplyProxy(g, net, ev).gate, asked)
  {
  }

  lemma StepAsked(w: World, ev: Event, asked: nat)
    requires Inv(w) && WithinAsked(w.gate, asked)
    ensures WithinAsked(Apply(w, ev).gate, asked + if AsksAgain(w.gate, ev) then 1 else 0)
  {
    match ev
    case AtClient(c, e) => ClientKeepsProxy(w, c, e);
    case AtProxy(e) => ProxyAsked(w.gate, w.net, e, asked);
    case AtWorker(k, e) =>
      if e.Fence? {
        FenceAsked(w.gate, k, e, asked);
      } else if e.EndCall? {
        EndCallAsked(w.gate, k, e, asked);
      } else if e.Retry? {
        RetryAsked(w.gate, k, e, asked);
      } else {
        OtherAsked(w.gate, k, e, asked);
      }
  }

  lemma {:induction false} RunAsked(w: World, events: seq<Event>, asked: nat)
    requires Inv(w) && WithinAsked(w.gate, asked)
    ensures WithinAsked(RunFrom(w, events).gate, asked + Asked(w, events))
    decreases |events|
  {
    if events != [] {
      StepAsked(w, events[0], asked);
      ApplyInv(w, events[0]);
      RunAsked(Apply(w, events[0]), events[1..], asked + if AsksAgain(w.gate, events[0]) then 1 else 0);
    }
  }

  /** Every HTTP call after the first was asked for: in every run there are at most as many calls, and
      as many attempts, as one more than the number of ended calls that the request wants repeated. */
  lemma RepeatsAreAsked(id: RequestId, proxy: ProxyId, events: seq<Event>)
    ensures var w := After(id, proxy, events);
            && w.gate.calls <= 1 + Asked(Start(id, proxy), events)
            && (w.gate.entry.row.Some? ==> w.gate.entry.row.value.attempts <= 1 + Asked(Start(id, proxy), events))
  {
    StartInv(id, proxy);
    AfterInv(id, proxy, events);
    RunAsked(Start(id, proxy), events, 0);
  }

  // ---- what a running lease protects ----

  /** The event is a step of worker `k`, or a recovery later than `until`. */
  predicate MayMove(ev: Event, k: WorkerId, until: int)
  {
    (ev.AtWorker? && ev.worker == k) || (ev.AtProxy? && ev.happening.RecoverExpired? && ev.happening.now > until)
  }

  /** The row is reserved or dispatching under a lease until `until`, and nobody but `k` holds its token. */
  predicate HeldUntil(g: Gateway, k: WorkerId, until: int)
  {
    && g.entry.row.Some? && g.entry.row.value.status in {Reserved, Dispatching}
    && g.entry.row.value.leaseUntil == Some(until)
    && g.entry.row.value.token.Some? && g.entry.row.value.token.value in g.used
    && (forall j :: j in g.workers && Some(g.workers[j].op.token) == g.entry.row.value.token ==> j == k)
  }

  lemma WorkersSpare(g: Gateway, j: WorkerId, ev: WorkerEvent, k: WorkerId, until: int)
    requires GateOk(g) && HeldUntil(g, k, until) && j != k
    ensures var v := ApplyWorker(g, j, ev).gate; v.entry.row == g.entry.row && HeldUntil(v, k, until)
  {
    assert j in g.workers ==> WorkerFits(g.entry, g.calls, g.workers[j]);
  }

  lemma ProxySpares(g: Gateway, net: set<Message>, ev: ProxyEvent, k: WorkerId, until: int)
    requires HeldUntil(g, k, until) && !MayMove(AtProxy(ev), k, until)
    ensures var v := ApplyProxy(g, net, ev).gate; v.entry.row == g.entry.row && HeldUntil(v, k, until)
  {
  }

  predicate NoneMayMove(events: seq<Event>, k: WorkerId, until: int)
  {
    forall i :: 0 <= i < |events| ==> !MayMove(events[i], k, until)
  }

  /** As long as the lease runs, a reserved or dispatching row is left exactly as it is by everything
      but the worker that holds it: no recovery up to and including the end of the lease, no other
      worker, no client and no message moves it. */
  lemma {:induction false} LeaseProtects(w: World, events: seq<Event>, k: WorkerId, until: int)
    requires Inv(w) && HeldUntil(w.gate, k, until) && NoneMayMove(events, k, until)
    ensures RunFrom(w, events).gate.entry.row == w.gate.entry.row && HeldUntil(RunFrom(w, events).gate, k, until)
    decreases |events|
  {
    if events != [] {
      assert !MayMove(events[0], k, until);
      match events[0] {
        case AtClient(c, e) => ClientKeepsProxy(w, c, e);
        case AtProxy(e) => ProxySpares(w.gate, w.net, e, k, until);
        case AtWorker(j, e) => WorkersSpare(w.gate, j, e, k, until);
      }
      ApplyInv(w, events[0]);
      assert forall i :: 0 <= i < |events[1..]| ==> events[1..][i] == events[i + 1];
      LeaseProtects(Apply(w, events[0]), events[1..], k, until);
    }
  }

  /** A committed fence puts the row under its lease, and nobody else holds the token. */
  lemma FenceHolds(g: Gateway, k: WorkerId, at: int, lease: int, report: Report)
    requires GateOk(g)
    ensures var v := ApplyWorker(g, k, Fence(at, lease, report)).gate;
            v.entry != g.entry ==>
              && HeldUntil(v, k, at + lease)
              && v.entry.row.value.status == Dispatching && v.entry.row.value.leaseUntil == Some(at + lease)
  {
    assert k in g.workers ==> WorkerFits(g.entry, g.calls, g.workers[k]);
  }

  lemma FenceOpens(w: World, k: WorkerId, at: int, lease: int, report: Report)
    requires Inv(w) && Apply(w, AtWorker(k, Fence(at, lease, report))).gate.entry != w.gate.entry
    ensures var v := Apply(w, AtWorker(k, Fence(at, lease, report)));
            && Inv(v) && HeldUntil(v.gate, k, at + lease)
            && v.gate.entry.row.value.status == Dispatching && v.gate.entry.row.value.leaseUntil == Some(at + lease)
  {
    FenceHolds(w.gate, k, at, lease, report);
    ApplyInv(w, AtWorker(k, Fence(at, lease, report)));
  }

  /** A dispatch committed at `at` with lease `lease` stays a dispatch, under its token and with its
      attempts, until its own worker moves it or a recovery runs later than `at + lease`. */
  lemma DispatchStands(id: RequestId, proxy: ProxyId, early: seq<Event>, k: WorkerId, at: int, lease: int,
                       report: Report, late: seq<Event>)
    requires var w := After(id, proxy, early);
             Apply(w, AtWorker(k, Fence(at, lease, report))).gate.entry != w.gate.entry
    requires NoneMayMove(late, k, at + lease)
    ensures var v := Apply(After(id, proxy, early), AtWorker(k, Fence(at, lease, report)));
            && v.gate.entry.row.Some? && v.gate.entry.row.value.status == Dispatching
            && v.gate.entry.row.value.leaseUntil == Some(at + lease)
            && RunFrom(v, late).gate.entry.row == v.gate.entry.row
  {
    var w := After(id, proxy, early);
    AfterInv(id, proxy, early);
    FenceOpens(w, k, at, lease, report);
    LeaseProtects(Apply(w, AtWorker(k, Fence(at, lease, report))), late, k, at + lease);
  }

  // ---- what the proxy answers ----

  /** The request names itself, its sender and this proxy, is allowed and of the allowed size, has a
      method and an absolute URL, and asks for at most 20 attempts. */
  predicate WellFormed(r: HttpRequest, sender: ClientId, proxy: ProxyId, check: RequestCheck)
  {
    && r.requestId != "" && r.clientId == sender && r.proxyId == proxy && r.httpMethod != ""
    && check.allowed && check.absoluteUrl && |r.body| <= check.maxBytes
    && 0 <= r.retry.maxAttempts <= 20
  }

  /** A request is answered at once only if it is refused: as invalid exactly if it is not well formed,
      and as a conflict exactly if another request is stored under its ID.  Otherwise it is stored,
      and the acceptance is left to the delivery loop. */
  lemma RequestAnswered(g: Gateway, net: set<Message>, sender: ClientId, r: HttpRequest, check: RequestCheck,
                        now: int, report: Report)
    requires RequestMsg(sender, r) in net
    ensures var out := ApplyProxy(g, net, HandleRequest(sender, r, check, now, report));
            var conflict := g.entry.row.Some? && !Columns.StoredAs(g.entry.row.value, r);
            && out.sent == (if !WellFormed(r, sender, g.proxy, check) then
                              Some(AcceptanceMsg(sender, Rejected(g.id, g.proxy, "invalid_request")))
                            else if conflict then
                              Some(AcceptanceMsg(sender, Rejected(g.id, g.proxy, "request_id_conflict")))
                            else None)
            && out.gate == g.(entry := out.gate.entry)
            && (out.sent.Some? || report == NotCommitted ==> out.gate == g)
            && (out.sent.None? && report != NotCommitted ==>
                  out.gate.entry.row.Some? && Columns.StoredAs(out.gate.entry.row.value, r)
                  && out.gate.entry.acceptance.Some?)
  {
  }

  /** An acknowledgement is confirmed exactly if it names this request, the delivery and its client, and
      the proxy learns that it is recorded; any other changes nothing. */
  lemma AckAnswered(g: Gateway, net: set<Message>, ack: DeliveryAck, now: int, report: Report)
    ensures var out := ApplyProxy(g, net, HandleAcceptanceAck(ack, now, report));
            var mine := && AcceptanceAckMsg(ack) in net && ack.requestId == g.id && ack.deliveryId == AcceptanceOf(g.id)
                        && g.entry.acceptance.Some? && g.entry.acceptance.value.client == ack.clientId;
            && out.sent == (if mine && report == Reported then Some(ConfirmedMsg(ack.clientId, ack.deliveryId))
                            else None)
            && (!mine || report == NotCommitted ==> out.gate == g)
            && (mine && report != NotCommitted ==>
                  out.gate.entry.acceptance.Some? && out.gate.entry.acceptance.value.acknowledgedAt.Some?)
    ensures var out := ApplyProxy(g, net, HandleResultAck(ack, now, report));
            var mine := && ResultAckMsg(ack) in net && ack.requestId == g.id && ack.deliveryId == ResultOf(g.id)
                        && g.entry.result.Some? && g.entry.result.value.client == ack.clientId;
            && out.sent == (if mine && report == Reported then Some(ConfirmedMsg(ack.clientId, ack.deliveryId))
                            else None)
            && (!mine || report == NotCommitted ==> out.gate == g)
            && (mine && report != NotCommitted ==>
                  out.gate.entry.result.Some? && out.gate.entry.result.value.acknowledgedAt.Some?)
  {
  }

  /** The delivery loop sends what is stored, to the client it is stored for, and changes nothing but
      the queue columns. */
  lemma DeliveriesSent(g: Gateway, net: set<Message>, kind: Kind, n: nat, next: int, lease: Option<int>)
    ensures var out := ApplyProxy(g, net, PublishAcceptance);
            && out.gate == g
            && (out.sent.Some? ==>
                  && g.entry.acceptance.Some? && g.entry.acceptance.value.payload.AcceptancePayload?
                  && out.sent.value == AcceptanceMsg(g.entry.acceptance.value.client,
                                                     g.entry.acceptance.value.payload.acceptance))
    ensures var out := ApplyProxy(g, net, PublishResult);
            && out.gate == g
            && (out.sent.Some? ==>
                  && g.entry.result.Some? && g.entry.result.value.payload.ResultPayload?
                  && out.sent.value == ResultMsg(g.entry.result.value.client, g.entry.result.value.payload.result))
    ensures var out := ApplyProxy(g, net, TouchDelivery(kind, n, next, lease));
            && out.sent.None? && out.gate.entry.row == g.entry.row && out.gate == g.(entry := out.gate.entry)
            && (g.entry.acceptance.Some? <==> out.gate.entry.acceptance.Some?)
            && (g.entry.result.Some? <==> out.gate.entry.result.Some?)
            && (g.entry.acceptance.Some? ==>
                  var a, b := g.entry.acceptance.value, out.gate.entry.acceptance.value;
                  b == (if kind == AcceptanceKind then
                          a.(attempts := n, nextAttemptAt := next, leaseUntil := lease) else a))
            && (g.entry.result.Some? ==>
                  var a, b := g.entry.result.value, out.gate.entry.result.value;
                  b == (if kind == ResultKind then
                          a.(attempts := n, nextAttemptAt := next, leaseUntil := lease) else a))
  {
  }

  // ---- what the client does with an answer ----

  /** A rejection ends the run and leaves the store as it is.  An acceptance is recorded if the commit
      takes effect, and acknowledged if the client learns of it; otherwise the run ends. */
  lemma AcceptanceReceived(w: World, c: ClientId, a: Acceptance, report: Report)
    requires Running(w, c) && w.clients[c].run.stage == AwaitingAcceptance && AcceptanceMsg(c, a) in w.net
    ensures var v := ApplyClient(w, c, ReceiveAcceptance(a, report));
            && c in v.clients && v.net == w.net && v.gate == w.gate
            && var before, after := w.clients[c], v.clients[c];
            && after.loaded == before.loaded && after.reported == before.reported
            && after.stored.request == before.stored.request && after.stored.result == before.stored.result
            && after.stored.state == (if a.Accepted? && report != NotCommitted && before.stored.state == Op.Outgoing
                                      then Op.AcceptedState else before.stored.state)
            && after.run == (if a.Accepted? && report == Reported
                             then Run(before.run.request, AckingAcceptance(a.deliveryId)) else NoRun)
  {
  }

  /** A result of this proxy is saved if the commit takes effect, except that a stored success stays, and
      acknowledged if the client learns of it; otherwise the run ends, and nobody is told yet. */
  lemma ResultReceived(w: World, c: ClientId, r: HttpResult, report: Report)
    requires Running(w, c) && w.clients[c].run.stage == AwaitingResult && ResultMsg(c, r) in w.net
    requires r.proxyId == w.gate.proxy
    ensures var v := ApplyClient(w, c, ReceiveResult(r, report));
            && c in v.clients && v.net == w.net && v.gate == w.gate
            && var before, after := w.clients[c], v.clients[c];
            var kept := && before.stored.result.Some? && before.stored.result.value.state == HttpCompleted
                        && r.state == OutcomeUnknown;
            && after.loaded == before.loaded && after.reported == before.reported
            && after.stored == (if kept || report == NotCommitted then before.stored
                                else Op.StoredOperation(before.stored.request, Some(r), Op.ResultSaved))
            && after.run == (if report != Reported then NoRun
                             else Run(before.run.request,
                                      AckingResult(r.resultId, if kept then before.stored.result.value else r)))
  {
  }
}
