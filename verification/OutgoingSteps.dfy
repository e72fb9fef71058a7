/** Every event of the outgoing exchange preserves the invariant. */
module OutgoingSteps {
  import opened Contracts
  import opened OutgoingTables
  import opened Worker
  import opened OutgoingProtocol
  import opened OutgoingInvariant
  import Op = ClientOperation

  lemma StartInv(id: RequestId, proxy: ProxyId)
    ensures Inv(Start(id, proxy))
  {
  }

  // ---- client events ----

  lemma SubmitInv(w: World, c: ClientId, r: HttpRequest)
    requires Inv(w)
    ensures Inv(DoSubmit(w, c, r))
  {
    if DoSubmit(w, c, r) != w {
      ClientStep(w, c, ClientSide(Op.NewOperation(r), {}, NoRun, {}));
    }
  }

  lemma LoadInv(w: World, c: ClientId)
    requires Inv(w)
    ensures Inv(DoLoad(w, c))
  {
    if c in w.clients {
      var side := w.clients[c];
      assert SideOk(FactsOf(w.gate), c, side);
      ClientStep(w, c, side.(loaded := side.loaded + {side.stored}));
    }
  }

  lemma AnswerInv(w: World, c: ClientId, s: Op.StoredOperation)
    requires Inv(w)
    ensures Inv(DoAnswerFromStore(w, c, s))
  {
    if c in w.clients && s in w.clients[c].loaded && Op.AnsweredFromStore(s) {
      var side := w.clients[c];
      assert SideOk(FactsOf(w.gate), c, side);
      assert SnapshotOk(FactsOf(w.gate), side.stored.request, s);
      ClientStep(w, c, side.(reported := side.reported + {s.result.value}));
    }
  }

  lemma BeginRunInv(w: World, c: ClientId, s: Op.StoredOperation)
    requires Inv(w)
    ensures Inv(DoBeginRun(w, c, s))
  {
    if DoBeginRun(w, c, s) != w {
      var side := w.clients[c];
      assert SideOk(FactsOf(w.gate), c, side);
      assert SnapshotOk(FactsOf(w.gate), side.stored.request, s);
      ClientStep(w, c, side.(run := Run(s.request, AwaitingAcceptance)));
    }
  }

  lemma PublishRequestInv(w: World, c: ClientId)
    requires Inv(w)
    ensures Inv(DoPublishRequest(w, c))
  {
    if DoPublishRequest(w, c) != w {
      assert SideOk(FactsOf(w.gate), c, w.clients[c]);
      SendStep(w, RequestMsg(c, w.clients[c].run.request));
    }
  }

  /** Ending the run after a store write that keeps the request is always allowed. */
  lemma StoreMoves(f: Facts, c: ClientId, side: ClientSide, stored: Op.StoredOperation)
    requires SideOk(f, c, side)
    requires SnapshotOk(f, side.stored.request, stored)
    requires stored.state == Op.Complete ==> stored.result.Some? && f.owner == Some(c) && f.delivered
    ensures SideOk(f, c, side.(stored := stored, run := NoRun))
  {
  }

  /** A recorded acceptance moves the run on to acknowledging it. */
  lemma AcceptanceSideOk(f: Facts, c: ClientId, side: ClientSide, stored: Op.StoredOperation)
    requires SideOk(f, c, side) && side.run.Run? && f.owner == Some(c) && stored == Op.MarkAccepted(side.stored)
    ensures SideOk(f, c, AtStage(side.(stored := stored), AckingAcceptance(AcceptanceOf(f.id))))
  {
  }

  lemma ReceiveAcceptanceInv(w: World, c: ClientId, a: Acceptance, report: Report)
    requires Inv(w)
    ensures Inv(DoReceiveAcceptance(w, c, a, report))
  {
    var v, f := DoReceiveAcceptance(w, c, a, report), FactsOf(w.gate);
    if v != w {
      var side := w.clients[c];
      assert SideOk(f, c, side);
      if a.Accepted? && report == Reported {
        assert MessageOk(f, w.clients, AcceptanceMsg(c, a));
        AcceptanceSideOk(f, c, side, v.clients[c].stored);
      } else {
        StoreMoves(f, c, side, v.clients[c].stored);
      }
      ClientStep(w, c, v.clients[c]);
    }
  }

  lemma PublishAcceptanceAckInv(w: World, c: ClientId)
    requires Inv(w)
    ensures Inv(DoPublishAcceptanceAck(w, c))
  {
    if DoPublishAcceptanceAck(w, c) != w {
      assert SideOk(FactsOf(w.gate), c, w.clients[c]);
      SendStep(w, AcceptanceAckMsg(DeliveryAck(w.gate.id, w.clients[c].run.stage.delivery, c)));
    }
  }

  lemma AcceptanceAckConfirmedInv(w: World, c: ClientId)
    requires Inv(w)
    ensures Inv(DoAcceptanceAckConfirmed(w, c))
  {
    var v := DoAcceptanceAckConfirmed(w, c);
    if v != w {
      assert SideOk(FactsOf(w.gate), c, w.clients[c]);
      ClientStep(w, c, v.clients[c]);
    }
  }

  /** A saved result moves the run on to acknowledging it. */
  lemma ResultSideOk(f: Facts, c: ClientId, side: ClientSide, r: HttpResult)
    requires SideOk(f, c, side) && side.run.Run? && side.stored.state != Op.Outgoing && Allowed(f, r)
    ensures var saved := side.(stored := Op.SaveResult(side.stored, r));
            SideOk(f, c, AtStage(saved, AckingResult(r.resultId, Op.Effective(side.stored, r))))
  {
  }

  lemma SavedResultInv(w: World, c: ClientId, r: HttpResult)
    requires Inv(w) && Running(w, c) && w.clients[c].run.stage.AwaitingResult? && ResultMsg(c, r) in w.net
    ensures Inv(DoReceiveResult(w, c, r, Reported))
  {
    var side := w.clients[c];
    assert SideOk(FactsOf(w.gate), c, side);
    assert MessageOk(FactsOf(w.gate), w.clients, ResultMsg(c, r));
    ResultSideOk(FactsOf(w.gate), c, side, r);
    ClientStep(w, c, AtStage(side.(stored := Op.SaveResult(side.stored, r)),
                             AckingResult(r.resultId, Op.Effective(side.stored, r))));
  }

  lemma ReceiveResultInv(w: World, c: ClientId, r: HttpResult, report: Report)
    requires Inv(w)
    ensures Inv(DoReceiveResult(w, c, r, report))
  {
    var v := DoReceiveResult(w, c, r, report);
    if v != w {
      if report == Reported {
        SavedResultInv(w, c, r);
      } else {
        assert SideOk(FactsOf(w.gate), c, w.clients[c]);
        assert MessageOk(FactsOf(w.gate), w.clients, ResultMsg(c, r));
        StoreMoves(FactsOf(w.gate), c, w.clients[c], v.clients[c].stored);
        ClientStep(w, c, v.clients[c]);
      }
    }
  }

  lemma PublishResultAckInv(w: World, c: ClientId)
    requires Inv(w)
    ensures Inv(DoPublishResultAck(w, c))
  {
    if DoPublishResultAck(w, c) != w {
      assert SideOk(FactsOf(w.gate), c, w.clients[c]);
      SendStep(w, ResultAckMsg(DeliveryAck(w.gate.id, w.clients[c].run.stage.delivery, c)));
    }
  }

  lemma ResultAckConfirmedInv(w: World, c: ClientId, report: Report)
    requires Inv(w)
    ensures Inv(DoResultAckConfirmed(w, c, report))
  {
    var v := DoResultAckConfirmed(w, c, report);
    if v != w {
      assert SideOk(FactsOf(w.gate), c, w.clients[c]);
      assert MessageOk(FactsOf(w.gate), w.clients, ConfirmedMsg(c, w.clients[c].run.stage.delivery));
      CompletedSideOk(FactsOf(w.gate), c, w.clients[c], v.clients[c]);
      ClientStep(w, c, v.clients[c]);
    }
  }

  /** The run ends, with or without `complete` on record and its result reported. */
  lemma CompletedSideOk(f: Facts, c: ClientId, a: ClientSide, b: ClientSide)
    requires SideOk(f, c, a) && a.run.Run? && a.run.stage.AckingResult? && f.owner == Some(c) && f.delivered
    requires b.stored == a.stored || b.stored == Op.MarkComplete(a.stored)
    requires b.reported == a.reported || b.reported == a.reported + {a.run.stage.effective}
    requires b.loaded == a.loaded && b.run == NoRun
    ensures SideOk(f, c, b) && SideGrows(a, b)
  {
    StoreMoves(f, c, a, b.stored);
  }

  lemma ClientStopsInv(w: World, c: ClientId)
    requires Inv(w)
    ensures Inv(DoClientStops(w, c))
  {
    if c in w.clients {
      var side := w.clients[c];
      assert SideOk(FactsOf(w.gate), c, side);
      ClientStep(w, c, side.(run := NoRun, loaded := {}));
    }
  }

  // ---- worker events: the proxy alone ----

  /** The reservation itself: no worker held the new token, so nobody's ownership changes. */
  lemma ReservedOk(g: Gateway, token: Token, now: int, lease: int)
    requires GateOk(g) && token !in g.used
    ensures var tx := Reserve(g.entry, token, now, lease);
            tx.Commit? ==>
              var v := g.(entry := tx.state, used := g.used + {token});
              GateOk(v) && Evolves(g, v)
  {
  }

  lemma HolderOk(g: Gateway, k: WorkerId, op: Operation)
    requires GateOk(g) && k !in g.workers
    requires Owns(g.entry, Reserved, op.token)
    requires op.request == g.entry.row.value.request && op.attempts == g.entry.row.value.attempts
    requires forall j :: j in g.workers ==> g.workers[j].op.token != op.token
    ensures GateOk(g.(workers := g.workers[k := WorkerState(op, Holding)]))
  {
  }

  lemma TokenSpentOk(g: Gateway, token: Token)
    requires GateOk(g)
    ensures var v := g.(used := g.used + {token}); GateOk(v) && Evolves(g, v)
  {
  }

  lemma ReserveOk(g: Gateway, k: WorkerId, token: Token, now: int, lease: int, report: Report)
    requires GateOk(g)
    ensures var v := DoReserve(g, k, token, now, lease, report); GateOk(v) && Evolves(g, v)
  {
    var tx := Reserve(g.entry, token, now, lease);
    if k !in g.workers && token !in g.used {
      if tx.Rollback? || report == NotCommitted {
        TokenSpentOk(g, token);
      } else {
        ReservedOk(g, token, now, lease);
        if report == Reported {
          var v, r := g.(entry := tx.state, used := g.used + {token}), g.entry.row.value;
          HolderOk(v, k, Operation(r.request, r.attempts, token));
        }
      }
    }
  }

  /** The row goes back to the queue while nobody is past the fence. */
  lemma RequeuedOk(g: Gateway, r: Row)
    requires GateOk(g) && g.entry.row.Some? && !Finished(g.entry.row.value.status)
    requires g.entry.row.value.status != AwaitingAcceptanceAck
    requires g.won.None? && forall j :: j in g.workers ==> !PastFence(g.workers[j].phase)
    requires RowOk(g.id, r) && r.token.None? && !Finished(r.status) && r.status != AwaitingAcceptanceAck
    requires r == g.entry.row.value.(status := r.status, token := None, leaseUntil := None, lastError := r.lastError,
                                     nextAttemptAt := r.nextAttemptAt)
    ensures var v := g.(entry := g.entry.(row := Some(r))); GateOk(v) && Evolves(g, v)
  {
    var e := g.entry.(row := Some(r));
    assert EntryOk(g.id, e);
    forall j | j in g.workers
      ensures WorkerFits(e, g.calls, g.workers[j])
    {
      assert WorkerFits(g.entry, g.calls, g.workers[j]);
    }
  }

  /** A reserved row has no worker past the fence, and no result yet. */
  lemma ReservedIsCalm(g: Gateway)
    requires GateOk(g) && g.entry.row.Some? && g.entry.row.value.status == Reserved
    ensures g.won.None? && forall j :: j in g.workers ==> !PastFence(g.workers[j].phase)
  {
    forall j | j in g.workers
      ensures !PastFence(g.workers[j].phase)
    {
      assert WorkerFits(g.entry, g.calls, g.workers[j]);
    }
  }

  lemma ReleasedOk(g: Gateway, token: Token)
    requires GateOk(g)
    ensures var tx := ReleaseReserved(g.entry, token);
            tx.Commit? && GateOk(g.(entry := tx.state)) && Evolves(g, g.(entry := tx.state))
  {
    if Owns(g.entry, Reserved, token) {
      ReservedIsCalm(g);
      RequeuedOk(g, g.entry.row.value.(status := Ready, token := None, leaseUntil := None));
    }
  }

  lemma ReleaseOk(g: Gateway, k: WorkerId, report: Report)
    requires GateOk(g)
    ensures var v := DoRelease(g, k, report); GateOk(v) && Evolves(g, v)
  {
    if InPhase(g, k, Holding) {
      var tx := ReleaseReserved(g.entry, g.workers[k].op.token);
      ReleasedOk(g, g.workers[k].op.token);
      WorkerStopsOk(g.(entry := Durable(g.entry, tx, report)), k);
    }
  }

  /** The fence: the holder of the token, and nobody else, passes it. */
  lemma FencedOk(g: Gateway, k: WorkerId, now: int, lease: int)
    requires GateOk(g) && InPhase(g, k, Holding)
    ensures var tx := BeginDispatch(g.entry, g.workers[k].op.token, now, lease);
            tx.Commit? ==>
              var v := WithPhase(g.(entry := tx.state), k, Fenced);
              GateOk(v) && Evolves(g, v)
  {
    var tx := BeginDispatch(g.entry, g.workers[k].op.token, now, lease);
    if tx.Commit? {
      assert WorkerFits(g.entry, g.calls, g.workers[k]);
      assert EntryOk(g.id, tx.state);
      forall j | j in g.workers && j != k
        ensures !PastFence(g.workers[j].phase) && WorkerFits(tx.state, g.calls, g.workers[j])
      {
        assert WorkerFits(g.entry, g.calls, g.workers[j]);
      }
    }
  }

  /** A worker that passed the fence without learning it leaves the same state as one that stops. */
  lemma FencedThenStops(g: Gateway, k: WorkerId, e: Entry)
    requires k in g.workers && GateOk(WithPhase(g.(entry := e), k, Fenced))
    ensures GateOk(WithoutWorker(g.(entry := e), k))
  {
    var v := WithPhase(g.(entry := e), k, Fenced);
    WorkerStopsOk(v, k);
    assert WithoutWorker(v, k) == WithoutWorker(g.(entry := e), k);
  }

  lemma FenceOk(g: Gateway, k: WorkerId, now: int, lease: int, report: Report)
    requires GateOk(g)
    ensures var v := DoFence(g, k, now, lease, report); GateOk(v) && Evolves(g, v)
  {
    if InPhase(g, k, Holding) {
      var tx := BeginDispatch(g.entry, g.workers[k].op.token, now, lease);
      if tx.Rollback? || report == NotCommitted {
        WorkerStopsOk(g, k);
      } else {
        FencedOk(g, k, now, lease);
        if report == CommittedUnreported {
          FencedThenStops(g, k, tx.state);
        }
      }
    }
  }

  /** The one worker past the fence moves on; what it found may be the first success. */
  lemma MovesOnOk(g: Gateway, k: WorkerId, p: Phase, calls: nat, won: Option<HttpResult>)
    requires GateOk(g) && k in g.workers && PastFence(g.workers[k].phase)
    requires PastFence(p) && !p.Fenced? && calls <= AttemptsOf(g.entry)
    requires p.Retrying? ==> g.workers[k].op.attempts + 1 < Budget(g.workers[k].op.request)
    requires HasResult(p) ==> Genuine(g.id, g.proxy, won, p.result)
    requires g.won.Some? ==> won == g.won
    requires won.Some? ==> Op.IsSuccess(won.value) && HasResult(p)
    ensures var v := WithPhase(g, k, p).(calls := calls, won := won); GateOk(v) && Evolves(g, v)
  {
    assert WorkerFits(g.entry, g.calls, g.workers[k]);
    forall j | j in g.workers && j != k
      ensures !PastFence(g.workers[j].phase) && WorkerFits(g.entry, calls, g.workers[j])
    {
      assert WorkerFits(g.entry, g.calls, g.workers[j]);
    }
  }

  lemma StartCallOk(g: Gateway, k: WorkerId)
    requires GateOk(g)
    ensures var v := DoStartCall(g, k); GateOk(v) && Evolves(g, v)
  {
    if InPhase(g, k, Fenced) {
      assert WorkerFits(g.entry, g.calls, g.workers[k]);
      assert g.won.None?;
      MovesOnOk(g, k, Calling, g.calls + 1, g.won);
    }
  }

  lemma EndCallOk(g: Gateway, k: WorkerId, outcome: HttpOutcome, next: int, at: int)
    requires GateOk(g)
    ensures var v := DoEndCall(g, k, outcome, next, at); GateOk(v) && Evolves(g, v)
  {
    if InPhase(g, k, Calling) {
      var v := DoEndCall(g, k, outcome, next, at);
      assert g.won.None?;
      assert WorkerFits(g.entry, g.calls, g.workers[k]);
      MovesOnOk(g, k, v.workers[k].phase, g.calls, v.won);
    }
  }

  lemma RetryOk(g: Gateway, k: WorkerId, report: Report)
    requires GateOk(g)
    ensures var v := DoRetry(g, k, report); GateOk(v) && Evolves(g, v)
  {
    if k in g.workers && g.workers[k].phase.Retrying? {
      var x, calm := g.workers[k], WithoutWorker(g, k);
      WorkerStopsOk(g, k);
      assert WorkerFits(g.entry, g.calls, x) && g.won.None?;
      var tx := ScheduleRetry(g.entry, x.op.token, x.phase.reason, x.phase.next);
      if tx.Commit? {
        RequeuedOk(calm, tx.state.row.value);
      }
    }
  }

  lemma PublishDirectOk(g: Gateway, k: WorkerId)
    requires GateOk(g)
    ensures var out := DoPublishDirect(g, k);
            && GateOk(out.gate) && Evolves(g, out.gate)
            && (out.sent.Some? ==> out.sent.value.ResultMsg? && OwnerOf(g.entry) == Some(out.sent.value.to)
                                   && Genuine(g.id, g.proxy, g.won, out.sent.value.result))
  {
    if k in g.workers && g.workers[k].phase.Publishing? {
      assert WorkerFits(g.entry, g.calls, g.workers[k]);
      MovesOnOk(g, k, Saving(g.workers[k].phase.result), g.calls, g.won);
    }
  }

  /** Saving a result, whether the worker still owns the row or recovery was faster. */
  lemma SavedOk(g: Gateway, k: WorkerId, now: int)
    requires GateOk(g) && k in g.workers && g.workers[k].phase.Saving?
    ensures var x := g.workers[k];
            var tx := SaveHttpResult(g.entry, x.op.token, x.op.request.clientId, x.phase.result, now);
            tx.Commit? ==> GateOk(g.(entry := tx.state)) && Evolves(g, g.(entry := tx.state))
  {
    var x := g.workers[k];
    assert WorkerFits(g.entry, g.calls, x) && Genuine(g.id, g.proxy, g.won, x.phase.result);
    var tx := SaveHttpResult(g.entry, x.op.token, x.op.request.clientId, x.phase.result, now);
    if tx.Commit? {
      assert EntryOk(g.id, tx.state);
      forall j | j in g.workers
        ensures WorkerFits(tx.state, g.calls, g.workers[j])
      {
        assert WorkerFits(g.entry, g.calls, g.workers[j]);
      }
    }
  }

  lemma SaveResultOk(g: Gateway, k: WorkerId, now: int, report: Report)
    requires GateOk(g)
    ensures var v := DoSaveResult(g, k, now, report); GateOk(v) && Evolves(g, v)
  {
    if k in g.workers && g.workers[k].phase.Saving? {
      var x := g.workers[k];
      var tx := SaveHttpResult(g.entry, x.op.token, x.op.request.clientId, x.phase.result, now);
      if tx.Commit? && report != NotCommitted {
        SavedOk(g, k, now);
        if report == Reported {
          WorkerStopsOk(g.(entry := tx.state), k);
        }
      }
    }
  }

  lemma WorkerStopsOk(g: Gateway, k: WorkerId)
    requires GateOk(g)
    ensures var v := WithoutWorker(g, k); GateOk(v) && Evolves(g, v)
  {
  }

  // ---- proxy events ----

  lemma RecoverEntryOk(id: RequestId, e: Entry, now: int, at: int)
    requires EntryOk(id, e)
    ensures var v := Recover(id, e, now, at); EntryOk(id, v) && RowEvolves(e, v)
  {
  }

  lemma RecoverWorkersOk(id: RequestId, e: Entry, calls: nat, used: set<Token>, workers: map<WorkerId, WorkerState>,
                         now: int, at: int)
    requires EntryOk(id, e) && WorkersOk(e, calls, used, workers)
    ensures WorkersOk(Recover(id, e, now, at), calls, used, workers)
  {
  }

  lemma RecoverOk(g: Gateway, now: int, at: int, report: Report)
    requires GateOk(g)
    ensures var v := DoRecover(g, now, at, report).gate; GateOk(v) && Evolves(g, v)
  {
    RecoverEntryOk(g.id, g.entry, now, at);
    RecoverWorkersOk(g.id, g.entry, g.calls, g.used, g.workers, now, at);
  }

  /** Changes to deliveries that keep the row keep everything that depends on the row. */
  lemma SameRowOk(g: Gateway, e: Entry)
    requires GateOk(g) && EntryOk(g.id, e) && e.row == g.entry.row
    ensures GateOk(g.(entry := e)) && Evolves(g, g.(entry := e))
  {
    forall k | k in g.workers
      ensures WorkerFits(e, g.calls, g.workers[k])
    {
      assert WorkerFits(g.entry, g.calls, g.workers[k]);
    }
  }

  lemma TouchOk(g: Gateway, kind: Kind, n: nat, next: int, lease: Option<int>)
    requires GateOk(g)
    ensures var v := DoTouch(g, kind, n, next, lease).gate; GateOk(v) && Evolves(g, v)
  {
    var e := DoTouch(g, kind, n, next, lease).gate.entry;
    if kind == AcceptanceKind {
      assert e.result == g.entry.result;
    } else {
      assert e.acceptance == g.entry.acceptance;
    }
    SameRowOk(g, e);
  }

  lemma ConfirmResultOk(g: Gateway, c: ClientId, now: int)
    requires GateOk(g)
    ensures var tx := ConfirmResult(g.entry, c, now);
            tx.Commit? ==>
              var v := g.(entry := tx.state);
              GateOk(v) && Evolves(g, v) && OwnerOf(tx.state) == Some(c) && IsDelivered(tx.state)
  {
  }

  lemma ConfirmAcceptanceOk(g: Gateway, c: ClientId, now: int)
    requires GateOk(g)
    ensures var tx := ConfirmAcceptance(g.entry, c, now);
            tx.Commit? ==>
              && GateOk(g.(entry := tx.state)) && Grow(FactsOf(g), FactsOf(g.(entry := tx.state)))
              && g.entry.row.Some? && g.entry.row.value.client == c
              && (tx.state.row == g.entry.row || tx.state.row == Some(g.entry.row.value.(status := Ready)))
  {
  }

  lemma AcceptOk(g: Gateway, r: HttpRequest, now: int)
    requires GateOk(g)
    requires r.requestId == g.id && r.proxyId == g.proxy && r.retry.maxAttempts <= MAX_ATTEMPTS
    ensures var tx := AcceptTx(g, r, now);
            tx.Commit? ==>
              && GateOk(g.(entry := tx.state)) && Grow(FactsOf(g), FactsOf(g.(entry := tx.state)))
              && tx.state.row == (if g.entry.row.Some? then g.entry.row else Some(NewRow(r, now)))
  {
  }

  /** Accepting a request keeps row and deliveries coupled, whether it inserts or reopens. */
  lemma HandleRequestOk(g: Gateway, net: set<Message>, s: ClientId, r: HttpRequest, check: RequestCheck, now: int,
                        report: Report)
    requires GateOk(g) && r.requestId == g.id
    ensures var out := DoHandleRequest(g, net, s, r, check, now, report);
            && GateOk(out.gate) && Grow(FactsOf(g), FactsOf(out.gate))
            && (out.sent.Some? ==> out.sent.value.AcceptanceMsg? && out.sent.value.acceptance.Rejected?)
            && (|| out.gate.entry.row == g.entry.row
                || (RequestMsg(s, r) in net && out.gate.entry.row == Some(NewRow(r, now))))
  {
    if ValidRequest(r, s, g.proxy, check) && AcceptTx(g, r, now).Commit? && report != NotCommitted {
      AcceptOk(g, r, now);
    }
  }

  // ---- the proxy inside the world ----

  lemma WorkerEventInv(w: World, k: WorkerId, ev: WorkerEvent)
    requires Inv(w)
    ensures Inv(Absorb(w, ApplyWorker(w.gate, k, ev)))
  {
    var g := w.gate;
    var out := ApplyWorker(g, k, ev);
    match ev {
      case ReserveRequest(token, now, lease, report) => ReserveOk(g, k, token, now, lease, report);
      case Release(report) => ReleaseOk(g, k, report);
      case Fence(now, lease, report) => FenceOk(g, k, now, lease, report);
      case StartCall => StartCallOk(g, k);
      case EndCall(outcome, next, at) => EndCallOk(g, k, outcome, next, at);
      case Retry(report) => RetryOk(g, k, report);
      case PublishDirect => PublishDirectOk(g, k);
      case SaveWorkerResult(now, report) => SaveResultOk(g, k, now, report);
      case WorkerStops => WorkerStopsOk(g, k);
    }
    EvolvesFacts(g, out.gate, w.clients);
    ProxyStep(w, out);
  }

  lemma HandleRequestInv(w: World, s: ClientId, r: HttpRequest, check: RequestCheck, now: int, report: Report)
    requires Inv(w)
    ensures Inv(Absorb(w, DoHandleRequest(w.gate, w.net, s, r, check, now, report)))
  {
    var out := DoHandleRequest(w.gate, w.net, s, r, check, now, report);
    if RequestMsg(s, r) in w.net {
      assert MessageOk(FactsOf(w.gate), w.clients, RequestMsg(s, r));
      assert SideOk(FactsOf(w.gate), s, w.clients[s]);
      HandleRequestOk(w.gate, w.net, s, r, check, now, report);
    }
    ProxyStep(w, out);
  }

  /** Only an acknowledgement by the owner, who has then recorded acceptance, moves the row. */
  lemma AcceptanceConfirmedOwner(w: World, ack: DeliveryAck, now: int)
    requires Inv(w) && AcceptanceAckMsg(ack) in w.net
    ensures var tx := ConfirmAcceptance(w.gate.entry, ack.clientId, now);
            tx.Commit? ==> OwnerOk(tx.state, w.clients)
  {
    assert MessageOk(FactsOf(w.gate), w.clients, AcceptanceAckMsg(ack));
    ConfirmAcceptanceOk(w.gate, ack.clientId, now);
  }

  lemma HandleAcceptanceAckInv(w: World, ack: DeliveryAck, now: int, report: Report)
    requires Inv(w)
    ensures Inv(Absorb(w, DoHandleAcceptanceAck(w.gate, w.net, ack, now, report)))
  {
    var out := DoHandleAcceptanceAck(w.gate, w.net, ack, now, report);
    if out != Quiet(w.gate) {
      ConfirmAcceptanceOk(w.gate, ack.clientId, now);
      AcceptanceConfirmedOwner(w, ack, now);
    }
    ProxyStep(w, out);
  }

  lemma HandleResultAckInv(w: World, ack: DeliveryAck, now: int, report: Report)
    requires Inv(w)
    ensures Inv(Absorb(w, DoHandleResultAck(w.gate, w.net, ack, now, report)))
  {
    var out := DoHandleResultAck(w.gate, w.net, ack, now, report);
    if out != Quiet(w.gate) {
      ConfirmResultOk(w.gate, ack.clientId, now);
      EvolvesFacts(w.gate, out.gate, w.clients);
    }
    ProxyStep(w, out);
  }

  lemma PublishAcceptanceInv(w: World)
    requires Inv(w)
    ensures Inv(Absorb(w, DoPublishAcceptance(w.gate)))
  {
    ProxyStep(w, DoPublishAcceptance(w.gate));
  }

  lemma PublishResultInv(w: World)
    requires Inv(w)
    ensures Inv(Absorb(w, DoPublishResult(w.gate)))
  {
    ProxyStep(w, DoPublishResult(w.gate));
  }

  lemma TouchInv(w: World, kind: Kind, n: nat, next: int, lease: Option<int>)
    requires Inv(w)
    ensures Inv(Absorb(w, DoTouch(w.gate, kind, n, next, lease)))
  {
    TouchOk(w.gate, kind, n, next, lease);
    EvolvesFacts(w.gate, DoTouch(w.gate, kind, n, next, lease).gate, w.clients);
    ProxyStep(w, DoTouch(w.gate, kind, n, next, lease));
  }

  lemma RecoverInv(w: World, now: int, at: int, report: Report)
    requires Inv(w)
    ensures Inv(Absorb(w, DoRecover(w.gate, now, at, report)))
  {
    RecoverOk(w.gate, now, at, report);
    EvolvesFacts(w.gate, DoRecover(w.gate, now, at, report).gate, w.clients);
    ProxyStep(w, DoRecover(w.gate, now, at, report));
  }

  lemma ProxyEventInv(w: World, ev: ProxyEvent)
    requires Inv(w)
    ensures Inv(Absorb(w, ApplyProxy(w.gate, w.net, ev)))
  {
    match ev
    case HandleRequest(s, r, check, now, report) => HandleRequestInv(w, s, r, check, now, report);
    case HandleAcceptanceAck(ack, now, report) => HandleAcceptanceAckInv(w, ack, now, report);
    case HandleResultAck(ack, now, report) => HandleResultAckInv(w, ack, now, report);
    case PublishAcceptance => PublishAcceptanceInv(w);
    case PublishResult => PublishResultInv(w);
    case TouchDelivery(kind, n, next, lease) => TouchInv(w, kind, n, next, lease);
    case RecoverExpired(now, at, report) => RecoverInv(w, now, at, report);
  }

  lemma ClientEventInv(w: World, c: ClientId, ev: ClientEvent)
    requires Inv(w)
    ensures Inv(ApplyClient(w, c, ev))
  {
    match ev
    case Submit(r) => SubmitInv(w, c, r);
    case Load => LoadInv(w, c);
    case AnswerFromStore(s) => AnswerInv(w, c, s);
    case BeginRun(s) => BeginRunInv(w, c, s);
    case PublishRequest => PublishRequestInv(w, c);
    case ReceiveAcceptance(a, report) => ReceiveAcceptanceInv(w, c, a, report);
    case PublishAcceptanceAck => PublishAcceptanceAckInv(w, c);
    case AcceptanceAckConfirmed => AcceptanceAckConfirmedInv(w, c);
    case ReceiveResult(r, report) => ReceiveResultInv(w, c, r, report);
    case PublishResultAck => PublishResultAckInv(w, c);
    case ResultAckConfirmed(report) => ResultAckConfirmedInv(w, c, report);
    case ClientStops => ClientStopsInv(w, c);
  }

  /** Every event preserves the invariant. */
  lemma ApplyInv(w: World, ev: Event)
    requires Inv(w)
    ensures Inv(Apply(w, ev))
  {
    match ev
    case AtClient(c, e) => ClientEventInv(w, c, e);
    case AtProxy(e) => ProxyEventInv(w, e);
    case AtWorker(k, e) => WorkerEventInv(w, k, e);
  }
}
