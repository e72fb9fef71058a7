/** What holds in every run of the outgoing exchange: any number of clients, workers, crashes,
    lost, duplicated and reordered messages, lease lengths and clock readings. */
module OutgoingSafety {
  import opened Contracts
  import opened OutgoingTables
  import opened Worker
  import opened OutgoingProtocol
  import opened OutgoingInvariant
  import opened OutgoingSteps
  import Op = ClientOperation

  lemma {:induction false} RunInv(w: World, events: seq<Event>)
    requires Inv(w)
    ensures Inv(RunFrom(w, events))
    decreases |events|
  {
    if events != [] {
      ApplyInv(w, events[0]);
      RunInv(Apply(w, events[0]), events[1..]);
    }
  }

  /** The world after `events`, from empty tables. */
  function After(id: RequestId, proxy: ProxyId, events: seq<Event>): World
  {
    RunFrom(Start(id, proxy), events)
  }

  lemma AfterInv(id: RequestId, proxy: ProxyId, events: seq<Event>)
    ensures Inv(After(id, proxy, events))
  {
    StartInv(id, proxy);
    RunInv(Start(id, proxy), events);
  }

  lemma {:induction false} RunConcat(w: World, a: seq<Event>, b: seq<Event>)
    ensures RunFrom(w, a + b) == RunFrom(RunFrom(w, a), b)
    decreases |a|
  {
    if a == [] {
      assert a + b == b;
    } else {
      assert (a + b)[1..] == a[1..] + b;
      RunConcat(Apply(w, a[0]), a[1..], b);
    }
  }

  // ---- what persists from one world to a later one ----

  predicate SideLater(a: ClientSide, b: ClientSide)
  {
    && b.stored.request == a.stored.request
    && (a.stored.result.Some? && Op.IsSuccess(a.stored.result.value) ==> b.stored.result == a.stored.result)
    && (a.stored.state != Op.Outgoing ==> b.stored.state != Op.Outgoing)
  }

  /** Facts that never go away: the winner, the owner, a delivered row, each client's request,
      a success in a client's store, and every published message. */
  predicate Later(w: World, v: World)
  {
    && Grow(FactsOf(w.gate), FactsOf(v.gate))
    && w.net <= v.net
    && forall c :: c in w.clients ==> c in v.clients && SideLater(w.clients[c], v.clients[c])
  }

  lemma ReceivedSuccessAgrees(w: World, c: ClientId, r: HttpResult)
    requires Inv(w)
    requires c in w.clients && ResultMsg(c, r) in w.net && Op.IsSuccess(r)
    requires w.clients[c].stored.result.Some? && Op.IsSuccess(w.clients[c].stored.result.value)
    ensures w.clients[c].stored.result.value == r
  {
    assert MessageOk(FactsOf(w.gate), w.clients, ResultMsg(c, r));
    assert SideOk(FactsOf(w.gate), c, w.clients[c]);
  }

  lemma ClientLater(w: World, c: ClientId, ev: ClientEvent)
    requires ev.ReceiveResult? && c in w.clients && ResultMsg(c, ev.result) in w.net && Op.IsSuccess(ev.result)
             && w.clients[c].stored.result.Some? && Op.IsSuccess(w.clients[c].stored.result.value)
             ==> w.clients[c].stored.result.value == ev.result
    ensures Later(w, ApplyClient(w, c, ev))
  {
  }

  lemma ProxyLater(w: World, ev: ProxyEvent)
    ensures Later(w, Absorb(w, ApplyProxy(w.gate, w.net, ev)))
  {
    if ev.HandleRequest? {
      var tx := AcceptTx(w.gate, ev.request, ev.now);
      assert tx.Commit? && w.gate.entry.row.Some? ==> tx.state.row == w.gate.entry.row;
    }
  }

  lemma WorkerLater(w: World, k: WorkerId, ev: WorkerEvent)
    ensures Later(w, Absorb(w, ApplyWorker(w.gate, k, ev)))
  {
  }

  lemma LaterTransitive(u: World, v: World, w: World)
    requires Later(u, v) && Later(v, w)
    ensures Later(u, w)
  {
  }

  lemma {:induction false} RunLater(w: World, events: seq<Event>)
    requires Inv(w)
    ensures Later(w, RunFrom(w, events))
    decreases |events|
  {
    if events != [] {
      var v := Apply(w, events[0]);
      match events[0] {
        case AtClient(c, e) =>
          if e.ReceiveResult? && c in w.clients && ResultMsg(c, e.result) in w.net && Op.IsSuccess(e.result)
             && w.clients[c].stored.result.Some? && Op.IsSuccess(w.clients[c].stored.result.value) {
            ReceivedSuccessAgrees(w, c, e.result);
          }
          ClientLater(w, c, e);
        case AtProxy(e) => ProxyLater(w, e);
        case AtWorker(k, e) => WorkerLater(w, k, e);
      }
      ApplyInv(w, events[0]);
      RunLater(v, events[1..]);
      LaterTransitive(w, v, RunFrom(w, events));
    }
  }

  lemma AfterLater(id: RequestId, proxy: ProxyId, early: seq<Event>, late: seq<Event>)
    ensures Inv(After(id, proxy, early)) && Inv(After(id, proxy, early + late))
    ensures Later(After(id, proxy, early), After(id, proxy, early + late))
  {
    AfterInv(id, proxy, early);
    RunConcat(Start(id, proxy), early, late);
    RunInv(After(id, proxy, early), late);
    RunLater(After(id, proxy, early), late);
  }

  // ---- one success value ----

  ghost predicate HeldByProxy(g: Gateway, r: HttpResult)
  {
    || (g.entry.row.Some? && g.entry.row.value.result == Some(r))
    || (g.entry.result.Some? && g.entry.result.value.payload == ResultPayload(r))
    || (exists k :: k in g.workers && HasResult(g.workers[k].phase) && g.workers[k].phase.result == r)
  }

  predicate HeldBySide(side: ClientSide, r: HttpResult)
  {
    || side.stored.result == Some(r)
    || r in side.reported
    || (exists s :: s in side.loaded && s.result == Some(r))
    || (side.run.Run? && side.run.stage.AckingResult? && side.run.stage.effective == r)
  }

  /** Result `r` exists somewhere: proxy row, delivery, worker memory, bus, client store, client
      memory, or the hands of a caller. */
  ghost predicate Appears(w: World, r: HttpResult)
  {
    || HeldByProxy(w.gate, r)
    || (exists c :: ResultMsg(c, r) in w.net)
    || (exists c :: c in w.clients && HeldBySide(w.clients[c], r))
  }

  lemma AppearsGenuine(w: World, r: HttpResult)
    requires Inv(w) && Appears(w, r)
    ensures Allowed(FactsOf(w.gate), r)
  {
    if c :| ResultMsg(c, r) in w.net {
      assert MessageOk(FactsOf(w.gate), w.clients, ResultMsg(c, r));
    } else if c :| c in w.clients && HeldBySide(w.clients[c], r) {
      assert SideOk(FactsOf(w.gate), c, w.clients[c]);
      if s :| s in w.clients[c].loaded && s.result == Some(r) {
        assert SnapshotOk(FactsOf(w.gate), w.clients[c].stored.request, s);
      }
    }
  }

  /** At most one successful result value ever exists, across places and across time. */
  lemma OneSuccess(id: RequestId, proxy: ProxyId, early: seq<Event>, late: seq<Event>, a: HttpResult, b: HttpResult)
    requires Appears(After(id, proxy, early), a) && Op.IsSuccess(a)
    requires Appears(After(id, proxy, early + late), b) && Op.IsSuccess(b)
    ensures a == b
  {
    AfterLater(id, proxy, early, late);
    AppearsGenuine(After(id, proxy, early), a);
    AppearsGenuine(After(id, proxy, early + late), b);
  }

  // ---- HTTP calls ----

  /** Calls never overlap, and their number is bounded by the attempts column and by the request. */
  lemma CallsBounded(id: RequestId, proxy: ProxyId, events: seq<Event>)
    ensures var w := After(id, proxy, events);
            && (forall j, k :: InPhase(w.gate, j, Calling) && InPhase(w.gate, k, Calling) ==> j == k)
            && (w.gate.calls > 0 ==> w.gate.entry.row.Some?)
            && (w.gate.entry.row.Some? ==>
                  var r := w.gate.entry.row.value;
                  && w.gate.calls <= r.attempts <= MAX_ATTEMPTS
                  && (r.attempts <= 1 || r.attempts <= r.request.retry.maxAttempts)
                  && (r.request.httpMethod !in {"GET", "HEAD", "OPTIONS"} && !r.request.retry.idempotent ==>
                        w.gate.calls <= 1))
  {
    AfterInv(id, proxy, events);
  }

  // ---- durability order ----

  /** A worker past the fence, and hence any call, comes after the owner has recorded acceptance;
      a complete client operation has a result and a delivered row. */
  lemma DurabilityOrder(id: RequestId, proxy: ProxyId, events: seq<Event>)
    ensures var w := After(id, proxy, events);
            && (w.gate.calls > 0 || (exists k :: k in w.gate.workers && PastFence(w.gate.workers[k].phase)) ==>
                  w.gate.entry.row.Some? && LeftOutgoing(w.clients, w.gate.entry.row.value.client))
            && (forall c :: c in w.clients && w.clients[c].stored.state == Op.Complete ==>
                  && w.clients[c].stored.result.Some?
                  && w.gate.entry.row.Some? && w.gate.entry.row.value.client == c
                  && w.gate.entry.row.value.status == ResultDelivered)
  {
    AfterInv(id, proxy, events);
    var w := After(id, proxy, events);
    forall k | k in w.gate.workers && PastFence(w.gate.workers[k].phase)
      ensures w.gate.entry.row.Some? && LeftOutgoing(w.clients, w.gate.entry.row.value.client)
    {
      assert WorkerFits(w.gate.entry, w.gate.calls, w.gate.workers[k]);
    }
    forall c | c in w.clients && w.clients[c].stored.state == Op.Complete
      ensures w.clients[c].stored.result.Some?
      ensures w.gate.entry.row.Some? && w.gate.entry.row.value.client == c
              && w.gate.entry.row.value.status == ResultDelivered
    {
      assert SideOk(FactsOf(w.gate), c, w.clients[c]);
    }
  }

  // ---- rows and deliveries ----

  lemma RowDeliveryCoupling(id: RequestId, proxy: ProxyId, events: seq<Event>)
    ensures var e := After(id, proxy, events).gate.entry;
            && (e.row.None? ==> e.result.None? && e.acceptance.None?)
            && (e.row.Some? ==>
                  var r := e.row.value;
                  && e.acceptance.Some?
                  && (Finished(r.status) <==> e.result.Some?)
                  && (e.result.Some? ==> r.result.Some? && e.result.value.payload == ResultPayload(r.result.value)
                                         && e.result.value.client == r.client)
                  && (r.token.Some? <==> r.status == Reserved || r.status == Dispatching)
                  && (r.leaseUntil.Some? <==> r.token.Some?))
  {
    AfterInv(id, proxy, events);
  }

  // ---- wire stability ----

  /** Whatever a caller later submits under the ID, a client only ever publishes the request it
      stored first, and the proxy refuses a valid copy exactly when another client owns the ID. */
  lemma WireStability(id: RequestId, proxy: ProxyId, early: seq<Event>, late: seq<Event>, c: ClientId,
                      r: HttpRequest, check: RequestCheck, now: int)
    requires c in After(id, proxy, early).clients
    requires RequestMsg(c, r) in After(id, proxy, early + late).net
    ensures r == After(id, proxy, early).clients[c].stored.request
    ensures var e := After(id, proxy, early + late).gate.entry;
            ValidRequest(r, c, proxy, check) ==>
              (AcceptHttpRequest(e, r, Accepted(id, AcceptanceOf(id), proxy, now), now).Rollback?
               <==> e.row.Some? && e.row.value.client != c)
  {
    AfterLater(id, proxy, early, late);
    StartInv(id, proxy);
    RunLater(Start(id, proxy), early + late);
    var v := After(id, proxy, early + late);
    assert MessageOk(FactsOf(v.gate), v.clients, RequestMsg(c, r));
    assert SideOk(FactsOf(v.gate), c, v.clients[c]);
  }

  // ---- success priority at the client ----

  /** `x` is the result of a complete operation that a caller had loaded. */
  ghost predicate HeldSnapshot(side: ClientSide, x: HttpResult)
  {
    exists s :: s in side.loaded && Op.AnsweredFromStore(s) && s.result == Some(x)
  }

  /** Between `a` and `b` the store held the success `r`: callers have been told nothing else, apart
      from snapshots that they already held. */
  ghost predicate Told(a: ClientSide, b: ClientSide, r: HttpResult)
  {
    && b.stored.result == Some(r)
    && (forall s :: s in b.loaded ==> s in a.loaded || s.result == Some(r))
    && (forall x :: x in b.reported ==> x in a.reported || x == r || HeldSnapshot(a, x))
  }

  lemma ClientTold(w: World, c: ClientId, ev: ClientEvent, a: ClientSide, r: HttpResult)
    requires c in w.clients && Told(a, w.clients[c], r) && Op.IsSuccess(r)
    requires StageOk(FactsOf(w.gate), c, w.clients[c])
    requires forall x :: ResultMsg(c, x) in w.net && Op.IsSuccess(x) ==> x == r
    ensures c in ApplyClient(w, c, ev).clients && Told(a, ApplyClient(w, c, ev).clients[c], r)
  {
  }

  lemma {:induction false} RunTold(w: World, events: seq<Event>, c: ClientId, a: ClientSide, r: HttpResult)
    requires Inv(w) && c in w.clients && Told(a, w.clients[c], r) && Op.IsSuccess(r)
    ensures c in RunFrom(w, events).clients && Told(a, RunFrom(w, events).clients[c], r)
    decreases |events|
  {
    if events != [] {
      var ev := events[0];
      if ev.AtClient? && ev.client == c {
        assert SideOk(FactsOf(w.gate), c, w.clients[c]);
        forall x | ResultMsg(c, x) in w.net && Op.IsSuccess(x)
          ensures x == r
        {
          ReceivedSuccessAgrees(w, c, x);
        }
        ClientTold(w, c, ev.act, a, r);
      } else if ev.AtClient? {
        OthersUntouched(w, ev.client, ev.act, c);
      }
      ApplyInv(w, ev);
      RunTold(Apply(w, ev), events[1..], c, a, r);
    }
  }

  lemma OthersUntouched(w: World, c: ClientId, ev: ClientEvent, other: ClientId)
    requires other != c && other in w.clients
    ensures other in ApplyClient(w, c, ev).clients && ApplyClient(w, c, ev).clients[other] == w.clients[other]
  {
  }

  lemma PendingIsStored(w: World, c: ClientId)
    requires Inv(w) && c in w.clients
    ensures var side := w.clients[c];
            side.run.Run? && side.run.stage.AckingResult? ==> side.stored.result == Some(side.run.stage.effective)
  {
    assert SideOk(FactsOf(w.gate), c, w.clients[c]);
  }

  /** After `events` a caller of client `c` has been told `x`. */
  predicate ToldBy(id: RequestId, proxy: ProxyId, events: seq<Event>, c: ClientId, x: HttpResult)
  {
    var w := After(id, proxy, events);
    c in w.clients && x in w.clients[c].reported
  }

  /** A held snapshot can be told at once. */
  lemma HeldIsTold(id: RequestId, proxy: ProxyId, early: seq<Event>, c: ClientId, s: Op.StoredOperation)
    requires c in After(id, proxy, early).clients
    requires s in After(id, proxy, early).clients[c].loaded && Op.AnsweredFromStore(s)
    ensures ToldBy(id, proxy, early + [AtClient(c, AnswerFromStore(s))], c, s.result.value)
  {
    var w, ev := After(id, proxy, early), AtClient(c, AnswerFromStore(s));
    RunConcat(Start(id, proxy), early, [ev]);
    assert RunFrom(w, [ev]) == Apply(w, ev);
  }

  /** A success in a client's store is final: it stays, and every later run of that client is about
      to report it. */
  lemma SuccessStays(id: RequestId, proxy: ProxyId, early: seq<Event>, late: seq<Event>, c: ClientId, r: HttpResult)
    requires c in After(id, proxy, early).clients
    requires After(id, proxy, early).clients[c].stored.result == Some(r) && Op.IsSuccess(r)
    ensures var before, v := After(id, proxy, early).clients[c], After(id, proxy, early + late);
            && c in v.clients
            && Told(before, v.clients[c], r)
            && var side := v.clients[c];
            (side.run.Run? && side.run.stage.AckingResult? ==> side.run.stage.effective == r)
  {
    AfterInv(id, proxy, early);
    AfterInv(id, proxy, early + late);
    var w := After(id, proxy, early);
    RunConcat(Start(id, proxy), early, late);
    RunTold(w, late, c, w.clients[c], r);
    PendingIsStored(After(id, proxy, early + late), c);
  }

  /** Exactly what callers can still be told once the success `r` is in the store: apart from `r` and
      from what was told before, a result can be told in some continuation if and only if a caller has
      already loaded it as the result of a complete operation. */
  lemma SuccessIsFinal(id: RequestId, proxy: ProxyId, early: seq<Event>, c: ClientId, r: HttpResult, x: HttpResult)
    requires c in After(id, proxy, early).clients
    requires After(id, proxy, early).clients[c].stored.result == Some(r) && Op.IsSuccess(r)
    requires x != r && x !in After(id, proxy, early).clients[c].reported
    ensures (exists late :: ToldBy(id, proxy, early + late, c, x)) <==>
            HeldSnapshot(After(id, proxy, early).clients[c], x)
  {
    var side := After(id, proxy, early).clients[c];
    if late :| ToldBy(id, proxy, early + late, c, x) {
      SuccessStays(id, proxy, early, late, c, r);
    }
    if s :| s in side.loaded && Op.AnsweredFromStore(s) && s.result == Some(x) {
      HeldIsTold(id, proxy, early, c, s);
    }
  }

  // ---- bounded progress ----

  function StageOf(s: Status): nat
  {
    match s
    case AwaitingAcceptanceAck => 5
    case Dispatching => 4
    case Ready => 3
    case Reserved => 3
    case RetryWait => 3
    case Completed => 1
    case Unknown => 1
    case ResultDelivered => 0
  }

  /** Attempts left, then stage, packed into one number. */
  function Potential(e: Entry): nat
  {
    if e.row.None? then 6 * MAX_ATTEMPTS + 6
    else
      var r := e.row.value;
      6 * (if r.attempts <= Budget(r.request) then Budget(r.request) - r.attempts else 0) + StageOf(r.status)
  }

  function StatusOfEntry(e: Entry): Option<Status>
  {
    if e.row.Some? then Some(e.row.value.status) else None
  }

  predicate QueueMove(a: Entry, b: Entry)
  {
    a.row.Some? && b.row.Some? && Queued(a.row.value.status) && Queued(b.row.value.status)
  }

  /** A status change other than reserve, release and reservation expiry. */
  function Progress(a: Entry, b: Entry): nat
  {
    if StatusOfEntry(a) != StatusOfEntry(b) && !QueueMove(a, b) then 1 else 0
  }

  predicate Descends(a: Entry, b: Entry) { Potential(b) + Progress(a, b) <= Potential(a) }

  lemma SameRowDescends(a: Entry, b: Entry)
    requires a.row == b.row
    ensures Descends(a, b)
  {
  }

  lemma AcceptDescends(id: RequestId, e: Entry, r: HttpRequest, a: Acceptance, now: int)
    requires EntryOk(id, e) && r.retry.maxAttempts <= MAX_ATTEMPTS
    ensures var tx := AcceptHttpRequest(e, r, a, now); tx.Commit? ==> Descends(e, tx.state)
  {
  }

  lemma ConfirmDescends(id: RequestId, e: Entry, c: ClientId, now: int)
    requires EntryOk(id, e)
    ensures var tx := ConfirmAcceptance(e, c, now); tx.Commit? ==> Descends(e, tx.state)
    ensures var tx := ConfirmResult(e, c, now); tx.Commit? ==> Descends(e, tx.state)
  {
  }

  lemma QueueDescends(id: RequestId, e: Entry, token: Token, now: int, lease: int)
    requires EntryOk(id, e)
    ensures var tx := Reserve(e, token, now, lease); tx.Commit? ==> Descends(e, tx.state)
    ensures var tx := ReleaseReserved(e, token); tx.Commit? ==> Descends(e, tx.state)
    ensures var tx := BeginDispatch(e, token, now, lease); tx.Commit? ==> Descends(e, tx.state)
  {
  }

  lemma RetryDescends(id: RequestId, e: Entry, token: Token, reason: string, next: int)
    requires EntryOk(id, e)
    ensures var tx := ScheduleRetry(e, token, reason, next); tx.Commit? ==> Descends(e, tx.state)
  {
  }

  lemma SaveDescends(id: RequestId, e: Entry, token: Token, client: ClientId, result: HttpResult, now: int)
    requires EntryOk(id, e)
    ensures var tx := SaveHttpResult(e, token, client, result, now); tx.Commit? ==> Descends(e, tx.state)
  {
  }

  lemma DurableDescends(a: Entry, tx: Tx<Entry>, report: Report, b: Entry)
    requires tx.Commit? ==> Descends(a, tx.state)
    requires b == Durable(a, tx, report)
    ensures Descends(a, b)
  {
    SameRowDescends(a, a);
  }

  lemma WorkerDescends(g: Gateway, k: WorkerId, ev: WorkerEvent)
    requires EntryOk(g.id, g.entry)
    ensures Descends(g.entry, ApplyWorker(g, k, ev).gate.entry)
  {
    var e, after := g.entry, ApplyWorker(g, k, ev).gate.entry;
    if after == e {
      SameRowDescends(e, after);
    } else {
      match ev
      case ReserveRequest(token, now, lease, report) =>
        QueueDescends(g.id, e, token, now, lease);
        DurableDescends(e, Reserve(e, token, now, lease), report, after);
      case Release(report) =>
        QueueDescends(g.id, e, g.workers[k].op.token, 0, 0);
        DurableDescends(e, ReleaseReserved(e, g.workers[k].op.token), report, after);
      case Fence(now, lease, report) =>
        QueueDescends(g.id, e, g.workers[k].op.token, now, lease);
        DurableDescends(e, BeginDispatch(e, g.workers[k].op.token, now, lease), report, after);
      case Retry(report) =>
        var x := g.workers[k];
        RetryDescends(g.id, e, x.op.token, x.phase.reason, x.phase.next);
        DurableDescends(e, ScheduleRetry(e, x.op.token, x.phase.reason, x.phase.next), report, after);
      case SaveWorkerResult(now, report) =>
        var x := g.workers[k];
        SaveDescends(g.id, e, x.op.token, x.op.request.clientId, x.phase.result, now);
        DurableDescends(e, SaveHttpResult(e, x.op.token, x.op.request.clientId, x.phase.result, now), report, after);
    }
  }

  /** Recovery at `now` leaves exactly the reservations and dispatches whose lease runs until `now` or
      later, and leaves them as they are; it keeps the row and its attempts, never puts dispatched work
      back in the queue, and is idempotent. */
  lemma RecoverClearsStale(id: RequestId, e: Entry, now: int, at: int)
    ensures var v := Recover(id, e, now, at);
            && (v.row.Some? <==> e.row.Some?)
            && (e.row.Some? ==>
                  && v.row.value.attempts == e.row.value.attempts && v.row.value.request == e.row.value.request
                  && (v.row.value.status in {Reserved, Dispatching} <==>
                        && e.row.value.status in {Reserved, Dispatching}
                        && (e.row.value.leaseUntil.Some? ==> now <= e.row.value.leaseUntil.value))
                  && (v.row.value.status in {Reserved, Dispatching} ==> v == e)
                  && (e.row.value.status == Dispatching ==>
                        v.row.value.status == Dispatching || v.row.value.status == Unknown))
            && Recover(id, v, now, at) == v
  {
  }

  lemma RecoverDescends(id: RequestId, e: Entry, now: int, at: int)
    requires EntryOk(id, e)
    ensures Descends(e, Recover(id, e, now, at))
  {
  }

  lemma ProxyDescends(g: Gateway, net: set<Message>, ev: ProxyEvent)
    requires EntryOk(g.id, g.entry)
    ensures Descends(g.entry, ApplyProxy(g, net, ev).gate.entry)
  {
    var e, after := g.entry, ApplyProxy(g, net, ev).gate.entry;
    if after.row == e.row {
      SameRowDescends(e, after);
    } else {
      match ev
      case HandleRequest(s, r, check, now, report) =>
        AcceptDescends(g.id, e, r, Accepted(g.id, AcceptanceOf(g.id), g.proxy, now), now);
        DurableDescends(e, AcceptTx(g, r, now), report, after);
      case HandleAcceptanceAck(ack, now, report) =>
        ConfirmDescends(g.id, e, ack.clientId, now);
        DurableDescends(e, ConfirmAcceptance(e, ack.clientId, now), report, after);
      case HandleResultAck(ack, now, report) =>
        ConfirmDescends(g.id, e, ack.clientId, now);
        DurableDescends(e, ConfirmResult(e, ack.clientId, now), report, after);
      case RecoverExpired(now, at, report) =>
        RecoverDescends(g.id, e, now, at);
        DurableDescends(e, Commit(Recover(g.id, e, now, at)), report, after);
    }
  }

  lemma ClientKeepsProxy(w: World, c: ClientId, ev: ClientEvent)
    ensures ApplyClient(w, c, ev).gate == w.gate
  {
  }

  lemma StepDescends(w: World, ev: Event)
    requires Inv(w)
    ensures Descends(w.gate.entry, Apply(w, ev).gate.entry)
  {
    match ev
    case AtClient(c, e) =>
      ClientKeepsProxy(w, c, e);
      SameRowDescends(w.gate.entry, w.gate.entry);
    case AtProxy(e) => ProxyDescends(w.gate, w.net, e);
    case AtWorker(k, e) => WorkerDescends(w.gate, k, e);
  }

  function ProgressIn(w: World, events: seq<Event>): nat
    decreases |events|
  {
    if events == [] then 0
    else Progress(w.gate.entry, Apply(w, events[0]).gate.entry) + ProgressIn(Apply(w, events[0]), events[1..])
  }

  /** Along every run, each status change outside the queue uses up potential. */
  lemma {:induction false} ProgressBounded(w: World, events: seq<Event>)
    requires Inv(w)
    ensures ProgressIn(w, events) + Potential(RunFrom(w, events).gate.entry) <= Potential(w.gate.entry)
    decreases |events|
  {
    if events != [] {
      StepDescends(w, events[0]);
      ApplyInv(w, events[0]);
      ProgressBounded(Apply(w, events[0]), events[1..]);
    }
  }

  /** Leaving aside moves between ready, retry_wait and reserved, the row of a request changes
      status at most 126 times in any run, however long. */
  lemma StatusChangesBounded(id: RequestId, proxy: ProxyId, events: seq<Event>)
    ensures ProgressIn(Start(id, proxy), events) <= 126
  {
    StartInv(id, proxy);
    ProgressBounded(Start(id, proxy), events);
  }
}
