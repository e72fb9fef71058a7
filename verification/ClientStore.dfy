/** The two client stores over whole tables: PostgresStore keyed by (proxy_id, request_id) and
    MemoryStore keyed by the joined string, their agreement, and success priority as a fold. */
module ClientStore {
  import opened Contracts
  import opened ClientOperation

  type PgTable = map<(ProxyId, RequestId), StoredOperation>
  type MemTable = map<string, StoredOperation>

  const NUL := 0 as char

  function StoreKey(proxy: ProxyId, id: RequestId): string { proxy + [NUL] + id }

  predicate NulFree(s: string) { NUL !in s }

  /** With a NUL-free proxy ID the joined key determines the pair... */
  lemma StoreKeyInjective(p: ProxyId, i: RequestId, q: ProxyId, j: RequestId)
    requires NulFree(p) && NulFree(q)
    ensures StoreKey(p, i) == StoreKey(q, j) <==> p == q && i == j
  {
    var a, b := StoreKey(p, i), StoreKey(q, j);
    if a == b {
      assert a[|p|] == NUL && b[|q|] == NUL;
      assert forall k :: 0 <= k < |p| ==> a[k] == p[k] && p[k] in p;
      assert forall k :: 0 <= k < |q| ==> b[k] == q[k] && q[k] in q;
      assert |p| == |q|;
      assert a[..|p|] == p && b[..|q|] == q;
      assert a[|p| + 1..] == i && b[|q| + 1..] == j;
    }
  }

  /** ...and with any other proxy ID it does not. */
  lemma StoreKeyCollides(p: ProxyId, i: RequestId)
    requires !NulFree(p)
    ensures exists q, j :: NulFree(q) && q != p && StoreKey(q, j) == StoreKey(p, i)
  {
    var n := FirstNul(p);
    var q, j := p[..n], p[n + 1..] + [NUL] + i;
    assert p == q + [NUL] + p[n + 1..];
    assert StoreKey(q, j) == StoreKey(p, i);
  }

  function FirstNul(s: string): (n: nat)
    requires !NulFree(s)
    ensures n < |s| && s[n] == NUL && NulFree(s[..n])
  {
    if s[0] == NUL then 0
    else
      assert s == [s[0]] + s[1..];
      var n := 1 + FirstNul(s[1..]);
      assert s[..n] == [s[0]] + s[1..][..n - 1];
      n
  }

  // ---- calls ----

  datatype Call =
    | SaveOutgoingCall(request: HttpRequest)
    | MarkAcceptedCall(proxy: ProxyId, id: RequestId)
    | SaveResultCall(proxy: ProxyId, result: HttpResult)
    | MarkCompleteCall(proxy: ProxyId, id: RequestId)

  datatype Reply = Done | Saved(result: HttpResult) | Refused(error: TxError)

  function ProxyOf(c: Call): ProxyId { if c.SaveOutgoingCall? then c.request.proxyId else c.proxy }

  function IdOf(c: Call): RequestId
  {
    match c
    case SaveOutgoingCall(r) => r.requestId
    case SaveResultCall(_, r) => r.requestId
    case _ => c.id
  }

  /** The effect of a call on the row it names, common to both stores except for MarkAccepted. */
  function Effect(c: Call, row: Option<StoredOperation>, inMemory: bool): (Option<StoredOperation>, Reply)
  {
    match c
    case SaveOutgoingCall(r) =>
      if row.None? then (Some(NewOperation(r)), Done)
      else if SameRequest(row.value.request, r) then (row, Done) else (row, Refused(RequestConflict))
    case MarkAcceptedCall(_, _) =>
      if row.None? then (row, Refused(NotFound))
      else (Some(if inMemory then MarkAcceptedInMemory(row.value) else MarkAccepted(row.value)), Done)
    case SaveResultCall(p, r) =>
      if inMemory && row.None? then (row, Refused(NotFound))
      else if r.proxyId != p then (row, Refused(RequestConflict))
      else if row.None? then (row, Refused(NotFound))
      else (Some(SaveResult(row.value, r)), Saved(Effective(row.value, r)))
    case MarkCompleteCall(_, _) =>
      if row.None? then (row, Refused(NotFound)) else (Some(MarkComplete(row.value)), Done)
  }

  function At<K>(table: map<K, StoredOperation>, key: K): Option<StoredOperation>
  {
    if key in table then Some(table[key]) else None
  }

  function Put<K>(table: map<K, StoredOperation>, key: K, row: Option<StoredOperation>): map<K, StoredOperation>
  {
    if row.Some? then table[key := row.value] else table
  }

  function PgApply(t: PgTable, c: Call): PgTable
  {
    var key := (ProxyOf(c), IdOf(c));
    Put(t, key, Effect(c, At(t, key), false).0)
  }

  function PgReply(t: PgTable, c: Call): Reply { Effect(c, At(t, (ProxyOf(c), IdOf(c))), false).1 }

  function MemApply(t: MemTable, c: Call): MemTable
  {
    var key := StoreKey(ProxyOf(c), IdOf(c));
    Put(t, key, Effect(c, At(t, key), true).0)
  }

  function MemReply(t: MemTable, c: Call): Reply { Effect(c, At(t, StoreKey(ProxyOf(c), IdOf(c))), true).1 }

  // ---- the columns of a row ----

  /** Every field but the creation time and the timeout is the stored one. */
  predicate SubmittedAs(q: HttpRequest, r: HttpRequest)
  {
    && q.requestId == r.requestId && q.clientId == r.clientId && q.proxyId == r.proxyId
    && q.httpMethod == r.httpMethod && q.url == r.url && q.headers == r.headers && q.body == r.body
    && q.retry == r.retry && q.traceParent == r.traceParent
  }

  /** The first request under an ID is stored as it is; a later one changes nothing, and is refused
      exactly if it differs in more than creation time and timeout. */
  lemma SaveOutgoingColumns(r: HttpRequest, row: Option<StoredOperation>, inMemory: bool)
    ensures var (v, reply) := Effect(SaveOutgoingCall(r), row, inMemory);
            && (row.None? ==> v.Some? && v.value.request == r && v.value.result.None? && v.value.state == Outgoing)
            && (row.Some? ==> v == row)
            && reply == (if row.Some? && !SubmittedAs(row.value.request, r) then Refused(RequestConflict) else Done)
  {
  }

  /** An acceptance and a completion move the state of a known operation and nothing else; the
      PostgreSQL store leaves any state but `outgoing` alone on an acceptance. */
  lemma MarkColumns(p: ProxyId, i: RequestId, row: Option<StoredOperation>, inMemory: bool)
    ensures var (v, reply) := Effect(MarkAcceptedCall(p, i), row, inMemory);
            && (row.None? ==> v.None? && reply == Refused(NotFound))
            && (row.Some? ==>
                  && v.Some? && v.value.request == row.value.request && v.value.result == row.value.result
                  && v.value.state == (if inMemory || row.value.state == Outgoing then AcceptedState
                                       else row.value.state)
                  && reply == Done)
    ensures var (v, reply) := Effect(MarkCompleteCall(p, i), row, inMemory);
            && (row.None? ==> v.None? && reply == Refused(NotFound))
            && (row.Some? ==>
                  && v.Some? && v.value.request == row.value.request && v.value.result == row.value.result
                  && v.value.state == Complete && reply == Done)
  {
  }

  /** A result is saved and returned, unless a success is stored and the result is none: then the row
      stays and the stored success is returned.  Another proxy's result is refused. */
  lemma SaveResultColumns(p: ProxyId, r: HttpResult, row: Option<StoredOperation>, inMemory: bool)
    ensures var (v, reply) := Effect(SaveResultCall(p, r), row, inMemory);
            && (row.None? || r.proxyId != p ==> v == row && reply.Refused?)
            && (row.Some? && r.proxyId == p ==>
                  var kept := && row.value.result.Some? && row.value.result.value.state == HttpCompleted
                              && r.state == OutcomeUnknown;
                  && (kept ==> v == row && reply == Saved(row.value.result.value))
                  && (!kept ==>
                        && v.Some? && v.value.request == row.value.request && v.value.result == Some(r)
                        && v.value.state == ResultSaved && reply == Saved(r)))
  {
  }

  /** The proxy and the request ID that a call names. */
  predicate Names(c: Call, p: ProxyId, i: RequestId)
  {
    match c
    case SaveOutgoingCall(r) => p == r.proxyId && i == r.requestId
    case SaveResultCall(q, r) => p == q && i == r.requestId
    case MarkAcceptedCall(q, j) => p == q && i == j
    case MarkCompleteCall(q, j) => p == q && i == j
  }

  /** A call touches the row that it names and no other. */
  lemma CallTouches(t: PgTable, m: MemTable, c: Call, p: ProxyId, i: RequestId)
    requires Names(c, p, i)
    ensures At(PgApply(t, c), (p, i)) == Effect(c, At(t, (p, i)), false).0
            && PgReply(t, c) == Effect(c, At(t, (p, i)), false).1
    ensures forall key :: key != (p, i) ==> At(PgApply(t, c), key) == At(t, key)
    ensures At(MemApply(m, c), p + [NUL] + i) == Effect(c, At(m, p + [NUL] + i), true).0
            && MemReply(m, c) == Effect(c, At(m, p + [NUL] + i), true).1
    ensures forall key :: key != p + [NUL] + i ==> At(MemApply(m, c), key) == At(m, key)
  {
  }

  // ---- agreement ----

  /** Equal up to the difference between `accepted` and `result_saved`, which nobody reads. */
  predicate Alike(a: Option<StoredOperation>, b: Option<StoredOperation>)
  {
    && (a.Some? <==> b.Some?)
    && (a.Some? ==> a.value.request == b.value.request && a.value.result == b.value.result
                    && (a.value.state == Complete <==> b.value.state == Complete))
  }

  ghost predicate Agree(m: MemTable, t: PgTable)
  {
    forall p, i :: NulFree(p) ==> Alike(At(m, StoreKey(p, i)), At(t, (p, i)))
  }

  /** The call that the two stores treat differently. */
  predicate Reaccepts(t: PgTable, c: Call)
  {
    c.MarkAcceptedCall? && (c.proxy, c.id) in t && t[(c.proxy, c.id)].state == Complete
  }

  lemma EffectsAlike(c: Call, a: Option<StoredOperation>, b: Option<StoredOperation>)
    requires Alike(a, b)
    ensures Alike(Effect(c, a, true).0, Effect(c, b, false).0)
            <==> !(c.MarkAcceptedCall? && b.Some? && b.value.state == Complete)
    ensures || Effect(c, a, true).1 == Effect(c, b, false).1
            || (Effect(c, a, true).1.Refused? && Effect(c, b, false).1.Refused?)
  {
  }

  /** From agreeing stores, a call keeps them in agreement exactly when it is not a MarkAccepted of
      a completed operation; in every case both succeed with the same reply or both refuse.  The
      client does make that call: a caller that loaded the operation before it completed runs the
      protocol once more (LateUnknown.ReacceptanceReachable). */
  lemma CallAgreement(m: MemTable, t: PgTable, c: Call)
    requires Agree(m, t) && NulFree(ProxyOf(c))
    ensures Agree(MemApply(m, c), PgApply(t, c)) <==> !Reaccepts(t, c)
    ensures MemReply(m, c) == PgReply(t, c) || (MemReply(m, c).Refused? && PgReply(t, c).Refused?)
  {
    var p, i := ProxyOf(c), IdOf(c);
    var m', t' := MemApply(m, c), PgApply(t, c);
    EffectsAlike(c, At(m, StoreKey(p, i)), At(t, (p, i)));
    assert Alike(At(m', StoreKey(p, i)), At(t', (p, i))) <==> !Reaccepts(t, c);
    forall q, j | NulFree(q) && (q, j) != (p, i)
      ensures Alike(At(m', StoreKey(q, j)), At(t', (q, j)))
    {
      StoreKeyInjective(p, i, q, j);
    }
  }

  function PgRun(t: PgTable, calls: seq<Call>): PgTable
    decreases |calls|
  {
    if calls == [] then t else PgRun(PgApply(t, calls[0]), calls[1..])
  }

  function MemRun(m: MemTable, calls: seq<Call>): MemTable
    decreases |calls|
  {
    if calls == [] then m else MemRun(MemApply(m, calls[0]), calls[1..])
  }

  predicate NeverReaccepts(t: PgTable, calls: seq<Call>)
    decreases |calls|
  {
    calls != [] ==>
      && NulFree(ProxyOf(calls[0])) && !Reaccepts(t, calls[0])
      && NeverReaccepts(PgApply(t, calls[0]), calls[1..])
  }

  lemma {:induction false} StoresAgree(m: MemTable, t: PgTable, calls: seq<Call>)
    requires Agree(m, t) && NeverReaccepts(t, calls)
    ensures Agree(MemRun(m, calls), PgRun(t, calls))
    decreases |calls|
  {
    if calls != [] {
      CallAgreement(m, t, calls[0]);
      StoresAgree(MemApply(m, calls[0]), PgApply(t, calls[0]), calls[1..]);
    }
  }

  /** What ListPending exposes to recovery: the request and result of each unfinished operation. */
  ghost predicate PgPending(t: PgTable, p: ProxyId, request: HttpRequest, result: Option<HttpResult>)
  {
    exists i :: (p, i) in t && t[(p, i)].request == request && t[(p, i)].result == result && t[(p, i)].state != Complete
  }

  ghost predicate MemPending(m: MemTable, p: ProxyId, request: HttpRequest, result: Option<HttpResult>)
  {
    exists key :: key in m && m[key].request.proxyId == p && m[key].request == request && m[key].result == result
                  && m[key].state != Complete
  }

  /** Rows are filed under the IDs of the request they hold. */
  predicate MemFiled(m: MemTable)
  {
    forall key :: key in m ==>
      && key == StoreKey(m[key].request.proxyId, m[key].request.requestId)
      && NulFree(m[key].request.proxyId)
  }

  predicate PgFiled(t: PgTable)
  {
    forall key :: key in t ==> key == (t[key].request.proxyId, t[key].request.requestId)
  }

  lemma {:induction false} RunsStayFiled(m: MemTable, t: PgTable, calls: seq<Call>)
    requires MemFiled(m) && PgFiled(t) && NeverReaccepts(t, calls)
    ensures MemFiled(MemRun(m, calls)) && PgFiled(PgRun(t, calls))
    decreases |calls|
  {
    if calls != [] {
      RunsStayFiled(MemApply(m, calls[0]), PgApply(t, calls[0]), calls[1..]);
    }
  }

  /** The SQL listing below a limit that is not reached is exactly PgPending. */
  lemma ListedArePending(t: PgTable, created: map<(ProxyId, RequestId), int>, p: ProxyId, ids: seq<RequestId>,
                         limit: nat, request: HttpRequest, result: Option<HttpResult>)
    requires OldestPending(t, created, p, ids, limit) && |ids| < limit
    ensures PgPending(t, p, request, result) <==>
            exists i :: i in ids && t[(p, i)].request == request && t[(p, i)].result == result
  {
    if i :| (p, i) in t && t[(p, i)].request == request && t[(p, i)].result == result && t[(p, i)].state != Complete {
      assert i in PendingIds(t, p);
    }
  }

  /** From empty stores, after any call sequence that never re-accepts a completed operation,
      both stores list the same pending operations for every proxy. */
  lemma PendingAgrees(calls: seq<Call>, p: ProxyId, request: HttpRequest, result: Option<HttpResult>)
    requires NeverReaccepts(map[], calls) && NulFree(p)
    ensures MemPending(MemRun(map[], calls), p, request, result) <==> PgPending(PgRun(map[], calls), p, request, result)
  {
    StoresAgree(map[], map[], calls);
    RunsStayFiled(map[], map[], calls);
    var m, t := MemRun(map[], calls), PgRun(map[], calls);
    var i := request.requestId;
    assert Alike(At(m, StoreKey(p, i)), At(t, (p, i)));
    if MemPending(m, p, request, result) {
      assert (p, i) in t && t[(p, i)].state != Complete;
    }
    if PgPending(t, p, request, result) {
      assert StoreKey(p, i) in m;
    }
  }

  // ---- success priority as a fold ----

  function SaveAll(op: StoredOperation, rs: seq<HttpResult>): StoredOperation
  {
    if rs == [] then op else SaveResult(SaveAll(op, rs[..|rs| - 1]), rs[|rs| - 1])
  }

  /** Index `i` holds the last success of `rs`, or is the last index if there is no success. */
  predicate PreferredAt(rs: seq<HttpResult>, i: nat)
  {
    && i < |rs|
    && (forall j :: i < j < |rs| ==> !IsSuccess(rs[j]))
    && (!IsSuccess(rs[i]) ==> i == |rs| - 1 && forall j :: 0 <= j < |rs| ==> !IsSuccess(rs[j]))
  }

  ghost predicate Preferred(rs: seq<HttpResult>, r: HttpResult)
  {
    exists i: nat :: PreferredAt(rs, i) && rs[i] == r
  }

  /** After any nonempty sequence of saves the stored result is the preferred one, and each save
      returns the value that is stored when it returns. */
  lemma {:induction false} SuccessPriority(op: StoredOperation, rs: seq<HttpResult>)
    requires op.result.None? && rs != []
    ensures SaveAll(op, rs).result.Some? && Preferred(rs, SaveAll(op, rs).result.value)
    ensures Effective(SaveAll(op, rs[..|rs| - 1]), rs[|rs| - 1]) == SaveAll(op, rs).result.value
  {
    var n := |rs| - 1;
    var front, last := rs[..n], rs[n];
    if front == [] {
      assert PreferredAt(rs, 0);
    } else {
      SuccessPriority(op, front);
      var before := SaveAll(op, front).result.value;
      var i: nat :| PreferredAt(front, i) && front[i] == before;
      assert forall j :: 0 <= j < n ==> rs[j] == front[j];
      if Superseded(SaveAll(op, front), last) {
        assert PreferredAt(rs, i);
      } else {
        assert PreferredAt(rs, n);
      }
    }
  }

  // ---- the stores as objects ----

  function Age(created: map<(ProxyId, RequestId), int>, proxy: ProxyId, id: RequestId): int
  {
    if (proxy, id) in created then created[(proxy, id)] else 0
  }

  /** The unfinished operations of a proxy. */
  function PendingIds(t: PgTable, proxy: ProxyId): set<RequestId>
  {
    set key | key in t && key.0 == proxy && t[key].state != Complete :: key.1
  }

  /** ORDER BY created_at LIMIT n: the oldest pending operations, in order, without repetition. */
  predicate OldestPending(t: PgTable, created: map<(ProxyId, RequestId), int>, proxy: ProxyId, ids: seq<RequestId>,
                          limit: nat)
  {
    && (forall i :: i in ids ==> i in PendingIds(t, proxy))
    && (forall j, k :: 0 <= j < k < |ids| ==>
          ids[j] != ids[k] && Age(created, proxy, ids[j]) <= Age(created, proxy, ids[k]))
    && |ids| <= limit
    && (forall i :: i in PendingIds(t, proxy) && i !in ids ==>
          |ids| == limit && forall j :: j in ids ==> Age(created, proxy, j) <= Age(created, proxy, i))
  }

  /** The oldest of some pending operations. */
  method OldestOf(created: map<(ProxyId, RequestId), int>, proxy: ProxyId, among: set<RequestId>)
    returns (oldest: RequestId)
    requires among != {}
    ensures oldest in among && forall i :: i in among ==> Age(created, proxy, oldest) <= Age(created, proxy, i)
  {
    oldest :| oldest in among;
    var rest := among - {oldest};
    while rest != {}
      invariant rest <= among && oldest in among
      invariant forall i :: i in among - rest ==> Age(created, proxy, oldest) <= Age(created, proxy, i)
      decreases rest
    {
      var i :| i in rest;
      if Age(created, proxy, i) < Age(created, proxy, oldest) {
        oldest := i;
      }
      rest := rest - {i};
    }
  }

  method SelectPending(t: PgTable, created: map<(ProxyId, RequestId), int>, proxy: ProxyId, limit: nat)
    returns (ids: seq<RequestId>)
    ensures OldestPending(t, created, proxy, ids, limit)
  {
    ids := [];
    var rest := PendingIds(t, proxy);
    while rest != {} && |ids| < limit
      invariant forall i :: i in PendingIds(t, proxy) <==> i in rest || i in ids
      invariant forall i :: i in ids ==> i !in rest
      invariant forall j, k :: 0 <= j < k < |ids| ==>
        ids[j] != ids[k] && Age(created, proxy, ids[j]) <= Age(created, proxy, ids[k])
      invariant forall j, i :: j in ids && i in rest ==> Age(created, proxy, j) <= Age(created, proxy, i)
      invariant |ids| <= limit
      decreases rest
    {
      var oldest := OldestOf(created, proxy, rest);
      forall j | 0 <= j < |ids|
        ensures ids[j] != oldest && Age(created, proxy, ids[j]) <= Age(created, proxy, oldest)
      {
        assert ids[j] in ids;
      }
      ids := ids + [oldest];
      rest := rest - {oldest};
    }
  }

  class PostgresStore {
    var operations: PgTable
    var createdAt: map<(ProxyId, RequestId), int>

    ghost predicate Valid()
      reads this
    {
      createdAt.Keys == operations.Keys
    }

    constructor ()
      ensures Valid() && operations == map[]
    {
      operations, createdAt := map[], map[];
    }

    method SaveOutgoing(request: HttpRequest, now: int) returns (reply: Reply)
      requires Valid()
      modifies this
      ensures Valid()
      ensures operations == PgApply(old(operations), SaveOutgoingCall(request))
      ensures reply == PgReply(old(operations), SaveOutgoingCall(request))
      ensures var key := (request.proxyId, request.requestId);
              createdAt == if key in old(operations) then old(createdAt) else old(createdAt)[key := now]
    {
      var key := (request.proxyId, request.requestId);
      if key !in operations {
        operations := operations[key := StoredOperation(request, None, Outgoing)];
        createdAt := createdAt[key := now];
        return Done;
      }
      if !SameRequest(operations[key].request, request) {
        return Refused(RequestConflict);
      }
      return Done;
    }

    method MarkAcceptedRow(proxy: ProxyId, id: RequestId) returns (reply: Reply)
      requires Valid()
      modifies this`operations
      ensures Valid()
      ensures operations == PgApply(old(operations), MarkAcceptedCall(proxy, id))
      ensures reply == PgReply(old(operations), MarkAcceptedCall(proxy, id))
    {
      var key := (proxy, id);
      if key !in operations {
        return Refused(NotFound);
      }
      if operations[key].state == Outgoing {
        operations := operations[key := operations[key].(state := AcceptedState)];
      }
      return Done;
    }

    method SaveResultRow(proxy: ProxyId, result: HttpResult) returns (reply: Reply)
      requires Valid()
      modifies this`operations
      ensures Valid()
      ensures operations == PgApply(old(operations), SaveResultCall(proxy, result))
      ensures reply == PgReply(old(operations), SaveResultCall(proxy, result))
    {
      if result.proxyId != proxy {
        return Refused(RequestConflict);
      }
      var key := (proxy, result.requestId);
      if key !in operations {
        return Refused(NotFound);
      }
      var op := operations[key];
      if op.result.Some? && op.result.value.state != OutcomeUnknown && result.state == OutcomeUnknown {
        return Saved(op.result.value);
      }
      operations := operations[key := op.(result := Some(result), state := ResultSaved)];
      return Saved(result);
    }

    method MarkCompleteRow(proxy: ProxyId, id: RequestId) returns (reply: Reply)
      requires Valid()
      modifies this`operations
      ensures Valid()
      ensures operations == PgApply(old(operations), MarkCompleteCall(proxy, id))
      ensures reply == PgReply(old(operations), MarkCompleteCall(proxy, id))
    {
      var key := (proxy, id);
      if key !in operations {
        return Refused(NotFound);
      }
      operations := operations[key := operations[key].(state := Complete)];
      return Done;
    }

    /** ListPending: at most `limit` operations, oldest first; a limit of zero or less means 1000. */
    method ListPending(proxy: ProxyId, limit: int) returns (ids: seq<RequestId>, values: seq<StoredOperation>)
      requires Valid()
      ensures OldestPending(operations, createdAt, proxy, ids, if limit <= 0 then 1000 else limit)
      ensures |values| == |ids|
      ensures forall k :: 0 <= k < |ids| ==> (proxy, ids[k]) in operations && values[k] == operations[(proxy, ids[k])]
    {
      ids := SelectPending(operations, createdAt, proxy, if limit <= 0 then 1000 else limit);
      assert forall k :: 0 <= k < |ids| ==> ids[k] in ids;
      var table := operations;
      values := seq(|ids|, k requires 0 <= k < |ids| && (proxy, ids[k]) in table => table[(proxy, ids[k])]);
    }
  }

  predicate PendingFor(v: StoredOperation, proxy: ProxyId) { v.request.proxyId == proxy && v.state != Complete }

  class MemoryStore {
    var operations: MemTable

    constructor ()
      ensures operations == map[]
    {
      operations := map[];
    }

    method SaveOutgoing(request: HttpRequest) returns (reply: Reply)
      modifies this
      ensures operations == MemApply(old(operations), SaveOutgoingCall(request))
      ensures reply == MemReply(old(operations), SaveOutgoingCall(request))
    {
      var key := StoreKey(request.proxyId, request.requestId);
      if key in operations {
        if SameRequest(operations[key].request, request) {
          return Done;
        }
        return Refused(RequestConflict);
      }
      operations := operations[key := StoredOperation(request, None, Outgoing)];
      return Done;
    }

    method MarkAcceptedRow(proxy: ProxyId, id: RequestId) returns (reply: Reply)
      modifies this
      ensures operations == MemApply(old(operations), MarkAcceptedCall(proxy, id))
      ensures reply == MemReply(old(operations), MarkAcceptedCall(proxy, id))
    {
      var key := StoreKey(proxy, id);
      if key !in operations {
        return Refused(NotFound);
      }
      operations := operations[key := operations[key].(state := AcceptedState)];
      return Done;
    }

    method SaveResultRow(proxy: ProxyId, result: HttpResult) returns (reply: Reply)
      modifies this
      ensures operations == MemApply(old(operations), SaveResultCall(proxy, result))
      ensures reply == MemReply(old(operations), SaveResultCall(proxy, result))
    {
      var key := StoreKey(proxy, result.requestId);
      if key !in operations {
        return Refused(NotFound);
      }
      if result.proxyId != proxy {
        return Refused(RequestConflict);
      }
      var op := operations[key];
      if op.result.Some? && op.result.value.state != OutcomeUnknown && result.state == OutcomeUnknown {
        return Saved(op.result.value);
      }
      operations := operations[key := op.(result := Some(result), state := ResultSaved)];
      return Saved(result);
    }

    method MarkCompleteRow(proxy: ProxyId, id: RequestId) returns (reply: Reply)
      modifies this
      ensures operations == MemApply(old(operations), MarkCompleteCall(proxy, id))
      ensures reply == MemReply(old(operations), MarkCompleteCall(proxy, id))
    {
      var key := StoreKey(proxy, id);
      if key !in operations {
        return Refused(NotFound);
      }
      operations := operations[key := operations[key].(state := Complete)];
      return Done;
    }

    /** ListPending: map iteration order is arbitrary, and the scan stops at a positive limit. */
    method ListPending(proxy: ProxyId, limit: int) returns (values: seq<StoredOperation>)
      ensures forall v :: v in values ==> PendingFor(v, proxy) && v in operations.Values
      ensures limit > 0 ==> |values| <= limit
      ensures limit <= 0 || |values| < limit ==>
        forall key :: key in operations && PendingFor(operations[key], proxy) ==> operations[key] in values
    {
      values := [];
      var left := operations.Keys;
      while left != {}
        invariant left <= operations.Keys
        invariant forall v :: v in values ==> PendingFor(v, proxy) && v in operations.Values
        invariant limit > 0 ==> |values| < limit
        invariant forall key :: key in operations && key !in left && PendingFor(operations[key], proxy) ==>
          operations[key] in values
        decreases left
      {
        var key :| key in left;
        left := left - {key};
        var v := operations[key];
        if v.request.proxyId == proxy && v.state != Complete {
          values := values + [v];
          if |values| == limit {
            break;
          }
        }
      }
    }
  }
}
