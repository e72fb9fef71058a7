/** Calls in flight against one clock: a permit row covers its call for as long as the call runs,
    provided the call starts within the minute the permit lease adds to the longest timeout
    (internal/worker/worker.go:74-97, internal/repository/limits.go:14-53). */
module HostConcurrency {
  import opened Contracts
  import opened HostLimiter

  /** A worker that was granted a permit: waiting to call, or calling until at most `deadline`. */
  datatype Holder = Waiting(host: Host, granted: int) | InCall(host: Host, granted: int, deadline: int)

  datatype Floor = Floor(st: Limiter, clock: int, holders: map<Token, Holder>)

  datatype FloorEvent =
    | Tick(clock: int)
    | AcquireAt(host: Host, started: int, token: Token)
    | BeginCall(token: Token, timeout: int)
    | Finish(token: Token)
    | Vanish(token: Token)
    | CleanUpAt(now: int)

  datatype Setup = Setup(cfg: Host -> Limit, maxTimeout: int)

  function PermitLease(s: Setup): int { s.maxTimeout + MINUTE }

  predicate CallEnded(h: Holder, clock: int) { h.InCall? && h.deadline < clock }

  /** A call is cut off at its timeout, so the clock cannot pass the deadline of a running call.
      A transaction timestamp is never ahead of the clock. */
  predicate CanTick(f: Floor, clock: int)
  {
    f.clock <= clock && forall t :: t in f.holders ==> !CallEnded(f.holders[t], clock)
  }

  function Move(s: Setup, f: Floor, ev: FloorEvent): Floor
  {
    match ev
    case Tick(clock) => if CanTick(f, clock) then f.(clock := clock) else f
    case AcquireAt(h, started, token) =>
      if started > f.clock || token in f.holders || token in f.st.permits then f
      else
        var tx := Acquire(f.st, h, s.cfg(h), PermitLease(s), started, token);
        if tx.Commit? then f.(st := tx.state, holders := f.holders[token := Waiting(h, started)]) else f
    case BeginCall(token, timeout) =>
      if token !in f.holders || !f.holders[token].Waiting? || timeout < 0 || timeout > s.maxTimeout then f
      else
        var x := f.holders[token];
        f.(holders := f.holders[token := InCall(x.host, x.granted, f.clock + timeout)])
    case Finish(token) => Floor(Release(f.st, token), f.clock, f.holders - {token})
    case Vanish(token) => f.(holders := f.holders - {token})
    case CleanUpAt(now) => f.(st := CleanUp(f.st, now))
  }

  /** A call begins at most `slack` after the timestamp of its permit. */
  predicate Within(f: Floor, ev: FloorEvent, slack: int)
  {
    ev.BeginCall? && ev.token in f.holders ==> f.clock - f.holders[ev.token].granted <= slack
  }

  function RunFloor(s: Setup, f: Floor, events: seq<FloorEvent>): Floor
    decreases |events|
  {
    if events == [] then f else RunFloor(s, Move(s, f, events[0]), events[1..])
  }

  predicate AllWithin(s: Setup, f: Floor, events: seq<FloorEvent>, slack: int)
    decreases |events|
  {
    events != [] ==> Within(f, events[0], slack) && AllWithin(s, Move(s, f, events[0]), events[1..], slack)
  }

  function OpenFloor(clock: int): Floor { Floor(EMPTY, clock, map[]) }

  function CallsTo(f: Floor, h: Host): set<Token>
  {
    set t | t in f.holders && f.holders[t].InCall? && f.holders[t].host == h
  }

  /** Until its lease runs out, the permit of a holder is in the table. */
  predicate Covered(s: Setup, f: Floor, t: Token, x: Holder)
  {
    && x.granted <= f.clock
    && (f.clock <= x.granted + PermitLease(s) ==>
          t in f.st.permits && f.st.permits[t] == Permit(x.host, x.granted + PermitLease(s)))
    && (x.InCall? ==> f.clock <= x.deadline <= x.granted + PermitLease(s))
  }

  predicate FloorOk(s: Setup, f: Floor)
  {
    forall t :: t in f.holders ==> Covered(s, f, t, f.holders[t])
  }

  lemma MoveOk(s: Setup, f: Floor, ev: FloorEvent)
    requires FloorOk(s, f) && Within(f, ev, MINUTE)
    ensures FloorOk(s, Move(s, f, ev))
  {
    var g := Move(s, f, ev);
    forall t | t in g.holders
      ensures Covered(s, g, t, g.holders[t])
    {
      assert t in f.holders ==> Covered(s, f, t, f.holders[t]);
    }
  }

  lemma {:induction false} RunFloorOk(s: Setup, f: Floor, events: seq<FloorEvent>)
    requires FloorOk(s, f) && AllWithin(s, f, events, MINUTE)
    ensures FloorOk(s, RunFloor(s, f, events))
    decreases |events|
  {
    if events != [] {
      MoveOk(s, f, events[0]);
      RunFloorOk(s, Move(s, f, events[0]), events[1..]);
    }
  }

  lemma MovePermits(s: Setup, f: Floor, ev: FloorEvent, h: Host)
    requires PermitsOk(s.cfg, f.st.permits, h)
    ensures PermitsOk(s.cfg, Move(s, f, ev).st.permits, h)
  {
    match ev
    case AcquireAt(host, started, token) =>
      StepPermits(s.cfg, Book(f.st, [], None), AcquireEvent(host, PermitLease(s), started, token), h);
    case Finish(token) => StepPermits(s.cfg, Book(f.st, [], None), ReleaseEvent(token), h);
    case _ =>
  }

  lemma {:induction false} RunFloorPermits(s: Setup, f: Floor, events: seq<FloorEvent>, h: Host)
    requires PermitsOk(s.cfg, f.st.permits, h)
    ensures PermitsOk(s.cfg, RunFloor(s, f, events).st.permits, h)
    decreases |events|
  {
    if events != [] {
      MovePermits(s, f, events[0], h);
      RunFloorPermits(s, Move(s, f, events[0]), events[1..], h);
    }
  }

  /** Across all instances, the calls in flight to a host never exceed its concurrency, as long as
      every call begins within one minute of the timestamp of its permit. */
  lemma ConcurrencyBounded(s: Setup, clock: int, events: seq<FloorEvent>, h: Host)
    requires AllWithin(s, OpenFloor(clock), events, MINUTE)
    ensures |CallsTo(RunFloor(s, OpenFloor(clock), events), h)| <= s.cfg(h).concurrency
  {
    var f := RunFloor(s, OpenFloor(clock), events);
    RunFloorOk(s, OpenFloor(clock), events);
    RunFloorPermits(s, OpenFloor(clock), events, h);
    forall t | t in CallsTo(f, h)
      ensures t in Held(f.st.permits, h)
    {
      assert Covered(s, f, t, f.holders[t]);
    }
    SubsetSize(CallsTo(f, h), Held(f.st.permits, h));
  }

  // ---- the minute is exact ----

  lemma {:induction false} WithinMono(s: Setup, f: Floor, events: seq<FloorEvent>, slack: int, more: int)
    requires slack <= more && AllWithin(s, f, events, slack)
    ensures AllWithin(s, f, events, more)
    decreases |events|
  {
    if events != [] {
      WithinMono(s, Move(s, f, events[0]), events[1..], slack, more);
    }
  }

  lemma RunCons(s: Setup, f: Floor, ev: FloorEvent, rest: seq<FloorEvent>, slack: int)
    ensures RunFloor(s, f, [ev] + rest) == RunFloor(s, Move(s, f, ev), rest)
    ensures AllWithin(s, f, [ev] + rest, slack) <==> Within(f, ev, slack) && AllWithin(s, Move(s, f, ev), rest, slack)
  {
    assert ([ev] + rest)[1..] == rest;
  }

  /** One call at a time, and no other limit that matters. */
  function OneCall(maxTimeout: int): Setup { Setup(_ => Limit(1, 1, 0), maxTimeout) }

  /** The first call has begun as late as allowed, its permit has just expired, and a second
      worker is admitted beside it. */
  lemma SecondAdmitted(maxTimeout: int, f: Floor)
    requires maxTimeout >= 0 && f.clock == maxTimeout + MINUTE + 1
    requires f.holders == map["a" := InCall("h", 0, f.clock)]
    requires f.st.permits == map["a" := Permit("h", maxTimeout + MINUTE)]
    requires f.st.windows == map[("h", 0) := 1]
    ensures var g := Move(OneCall(maxTimeout), f, AcquireAt("h", f.clock, "b"));
            g.clock == f.clock && g.holders == f.holders["b" := Waiting("h", f.clock)]
  {
    assert Held(Live(f.st.permits, f.clock), "h") == {};
    assert SecondOf(f.clock) > 0;
  }

  lemma FirstCall(maxTimeout: int)
    requires maxTimeout >= 0
    ensures var s := OneCall(maxTimeout);
            var f := Move(s, OpenFloor(0), AcquireAt("h", 0, "a"));
            var g := Move(s, Move(s, f, Tick(MINUTE + 1)), BeginCall("a", maxTimeout));
            var v := Move(s, g, Tick(maxTimeout + MINUTE + 1));
            && f.holders == map["a" := Waiting("h", 0)]
            && v.clock == maxTimeout + MINUTE + 1 && v.holders == map["a" := InCall("h", 0, v.clock)]
            && v.st.permits == map["a" := Permit("h", maxTimeout + MINUTE)] && v.st.windows == map[("h", 0) := 1]
  {
    assert Held(Live(map[], 0), "h") == {};
  }

  /** For every timeout, one microsecond beyond the minute is too late: two calls run at once
      although the concurrency is one. */
  lemma LateCallBreaksBound(maxTimeout: int) returns (events: seq<FloorEvent>)
    requires maxTimeout >= 0
    ensures AllWithin(OneCall(maxTimeout), OpenFloor(0), events, MINUTE + 1)
    ensures |CallsTo(RunFloor(OneCall(maxTimeout), OpenFloor(0), events), "h")| == 2
  {
    var s, late := OneCall(maxTimeout), maxTimeout + MINUTE + 1;
    FirstCall(maxTimeout);
    var f1 := Move(s, OpenFloor(0), AcquireAt("h", 0, "a"));
    var f2 := Move(s, f1, Tick(MINUTE + 1));
    var f3 := Move(s, f2, BeginCall("a", maxTimeout));
    var f4 := Move(s, f3, Tick(late));
    SecondAdmitted(maxTimeout, f4);
    var f5 := Move(s, f4, AcquireAt("h", late, "b"));
    var f6 := Move(s, f5, BeginCall("b", 0));
    assert CallsTo(f6, "h") == {"a", "b"};
    events := [];
    RunCons(s, f5, BeginCall("b", 0), events, MINUTE + 1);
    events := [BeginCall("b", 0)] + events;
    RunCons(s, f4, AcquireAt("h", late, "b"), events, MINUTE + 1);
    events := [AcquireAt("h", late, "b")] + events;
    RunCons(s, f3, Tick(late), events, MINUTE + 1);
    events := [Tick(late)] + events;
    RunCons(s, f2, BeginCall("a", maxTimeout), events, MINUTE + 1);
    events := [BeginCall("a", maxTimeout)] + events;
    RunCons(s, f1, Tick(MINUTE + 1), events, MINUTE + 1);
    events := [Tick(MINUTE + 1)] + events;
    RunCons(s, OpenFloor(0), AcquireAt("h", 0, "a"), events, MINUTE + 1);
    events := [AcquireAt("h", 0, "a")] + events;
  }

  /** The bound in one run: if every call begins within `slack`, the calls in flight to `h` are
      within its concurrency. */
  predicate BoundKept(s: Setup, clock: int, events: seq<FloorEvent>, h: Host, slack: int)
  {
    AllWithin(s, OpenFloor(clock), events, slack) ==>
      |CallsTo(RunFloor(s, OpenFloor(clock), events), h)| <= s.cfg(h).concurrency
  }

  /** The minute is exact, for every longest timeout: the bound holds for all configurations, runs
      and hosts if and only if calls begin within at most one minute of their permits. */
  lemma SlackIsExact(maxTimeout: int, slack: int)
    requires maxTimeout >= 0
    ensures (forall cfg: Host -> Limit, clock, events, h :: BoundKept(Setup(cfg, maxTimeout), clock, events, h, slack))
            <==> slack <= MINUTE
  {
    if slack <= MINUTE {
      forall cfg: Host -> Limit, clock, events, h
        ensures BoundKept(Setup(cfg, maxTimeout), clock, events, h, slack)
      {
        var s := Setup(cfg, maxTimeout);
        if AllWithin(s, OpenFloor(clock), events, slack) {
          WithinMono(s, OpenFloor(clock), events, slack, MINUTE);
          ConcurrencyBounded(s, clock, events, h);
        }
      }
    } else {
      var events := LateCallBreaksBound(maxTimeout);
      var s := OneCall(maxTimeout);
      WithinMono(s, OpenFloor(0), events, MINUTE + 1, slack);
      assert !BoundKept(Setup(s.cfg, maxTimeout), 0, events, "h", slack);
    }
  }
}
