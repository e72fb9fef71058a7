/** How far timestamps may lag the cleanup of limiter tables (internal/repository/maintenance.go:69-70)
    before minimum spacing, exact counters and the rate are lost: for every host configuration,
    each guarantee holds in all runs if and only if the skew is below its threshold. */
module LimiterThresholds {
  import opened Contracts
  import opened HostLimiter

  lemma {:induction false} RunConcat(cfg: Host -> Limit, b: Book, xs: seq<LimitEvent>, ys: seq<LimitEvent>, skew: int)
    ensures Run(cfg, b, xs + ys) == Run(cfg, Run(cfg, b, xs), ys)
    ensures Timely(cfg, b, xs + ys, skew) <==> Timely(cfg, b, xs, skew) && Timely(cfg, Run(cfg, b, xs), ys, skew)
    decreases |xs|
  {
    if xs == [] {
      assert xs + ys == ys;
    } else {
      assert (xs + ys)[1..] == xs[1..] + ys;
      RunConcat(cfg, Step(cfg, b, xs[0]), xs[1..], ys, skew);
    }
  }

  // ---- building runs ----

  /** A permit is acquired and released at once. */
  function Round(h: Host, now: int): seq<LimitEvent>
  {
    [AcquireEvent(h, 0, now, "t"), ReleaseEvent("t")]
  }

  function AfterRound(cfg: Host -> Limit, b: Book, h: Host, now: int): Book
  {
    var w := (h, SecondOf(now));
    Book(Limiter(map[],
                 b.st.windows[w := if w in b.st.windows then b.st.windows[w] + 1 else 1],
                 if cfg(h).minInterval > 0 then b.st.last[h := now] else b.st.last),
         b.grants + [Grant(h, now)], b.horizon)
  }

  lemma RoundRuns(cfg: Host -> Limit, b: Book, h: Host, now: int, skew: int)
    requires b.st.permits == map[] && cfg(h).concurrency >= 1
    requires !TooSoon(b.st, h, cfg(h), now) && !WindowFull(b.st, h, cfg(h), now)
    requires b.horizon.Some? ==> now >= b.horizon.value - skew
    ensures Run(cfg, b, Round(h, now)) == AfterRound(cfg, b, h, now)
    ensures Timely(cfg, b, Round(h, now), skew)
  {
    var events := Round(h, now);
    assert Held(Live(b.st.permits, now), h) == {};
    var b1 := Step(cfg, b, events[0]);
    assert b1.st.permits == map["t" := Permit(h, now)];
    var b2 := Step(cfg, b1, events[1]);
    assert b2.st.permits == map[];
    assert events[1..] == [events[1]] && events[1..][1..] == [];
    assert Run(cfg, b, events) == Run(cfg, b1, events[1..]);
    assert Run(cfg, b1, events[1..]) == Run(cfg, b2, []);
  }

  lemma CleanRuns(cfg: Host -> Limit, b: Book, now: int, skew: int)
    ensures Run(cfg, b, [CleanUpEvent(now)]) == Step(cfg, b, CleanUpEvent(now))
    ensures Timely(cfg, b, [CleanUpEvent(now)], skew)
  {
    assert [CleanUpEvent(now)][1..] == [];
  }

  /** The run `events` from empty tables is timely and ends in `b`. */
  predicate Reaches(cfg: Host -> Limit, events: seq<LimitEvent>, b: Book, skew: int)
  {
    Run(cfg, START, events) == b && Timely(cfg, START, events, skew)
  }

  lemma ExtendByRound(cfg: Host -> Limit, events: seq<LimitEvent>, b: Book, h: Host, now: int, skew: int)
    requires Reaches(cfg, events, b, skew) && b.st.permits == map[] && cfg(h).concurrency >= 1
    requires !TooSoon(b.st, h, cfg(h), now) && !WindowFull(b.st, h, cfg(h), now)
    requires b.horizon.Some? ==> now >= b.horizon.value - skew
    ensures Reaches(cfg, events + Round(h, now), AfterRound(cfg, b, h, now), skew)
  {
    RunConcat(cfg, START, events, Round(h, now), skew);
    RoundRuns(cfg, b, h, now, skew);
  }

  lemma ExtendByCleanUp(cfg: Host -> Limit, events: seq<LimitEvent>, b: Book, now: int, skew: int)
    requires Reaches(cfg, events, b, skew)
    ensures Reaches(cfg, events + [CleanUpEvent(now)], Step(cfg, b, CleanUpEvent(now)), skew)
  {
    RunConcat(cfg, START, events, [CleanUpEvent(now)], skew);
    CleanRuns(cfg, b, now, skew);
  }

  // ---- spacing ----

  predicate SpacingKept(cfg: Host -> Limit, events: seq<LimitEvent>, h: Host, gap: int, skew: int)
  {
    Timely(cfg, START, events, skew) ==> Spaced(Run(cfg, START, events).grants, h, gap)
  }

  /** Two grants that are as close as the limiter lets them be without any cleanup. */
  lemma CloseGrants(cfg: Host -> Limit, h: Host, gap: int, skew: int) returns (events: seq<LimitEvent>)
    requires cfg(h).concurrency >= 1 && gap > 0 && gap > cfg(h).minInterval
    ensures !SpacingKept(cfg, events, h, gap, skew)
  {
    var first := if cfg(h).minInterval > 0 then SECOND - 1 else SECOND;
    var second := if cfg(h).minInterval > 0 then SECOND - 1 + cfg(h).minInterval else 0;
    var b1 := AfterRound(cfg, START, h, first);
    var b2 := AfterRound(cfg, b1, h, second);
    assert SecondOf(first) != SecondOf(second);
    ExtendByRound(cfg, [], START, h, first, skew);
    ExtendByRound(cfg, [] + Round(h, first), b1, h, second, skew);
    events := [] + Round(h, first) + Round(h, second);
    assert b2.grants[0] == Grant(h, first) && b2.grants[1] == Grant(h, second);
  }

  /** Two grants with a cleanup between them that has forgotten the first. */
  lemma ForgottenGrant(cfg: Host -> Limit, h: Host, gap: int, skew: int) returns (events: seq<LimitEvent>)
    requires cfg(h).concurrency >= 1 && gap > 0 && gap + skew > DAY + 1
    ensures !SpacingKept(cfg, events, h, gap, skew)
  {
    var b1 := AfterRound(cfg, START, h, 0);
    var b2 := Step(cfg, b1, CleanUpEvent(DAY + 1));
    assert b2.st.windows == map[] && b2.st.last == map[];
    var b3 := AfterRound(cfg, b2, h, gap - 1);
    ExtendByRound(cfg, [], START, h, 0, skew);
    ExtendByCleanUp(cfg, [] + Round(h, 0), b1, DAY + 1, skew);
    ExtendByRound(cfg, [] + Round(h, 0) + [CleanUpEvent(DAY + 1)], b2, h, gap - 1, skew);
    events := [] + Round(h, 0) + [CleanUpEvent(DAY + 1)] + Round(h, gap - 1);
    assert b3.grants[0] == Grant(h, 0) && b3.grants[1] == Grant(h, gap - 1);
  }

  /** All timely runs keep grants of `h` at least `gap` apart, in commit order, if and only if `gap` is
      at most minInterval and at most one day and a microsecond less the skew.  For `gap` equal to
      minInterval this is the exact skew up to which minimum spacing holds. */
  lemma SpacingIsExact(cfg: Host -> Limit, h: Host, gap: int, skew: int)
    requires cfg(h).concurrency >= 1 && gap > 0
    ensures (forall events :: SpacingKept(cfg, events, h, gap, skew))
            <==> gap <= cfg(h).minInterval && gap + skew <= DAY + 1
  {
    if gap > cfg(h).minInterval {
      var events := CloseGrants(cfg, h, gap, skew);
    } else if gap + skew > DAY + 1 {
      var events := ForgottenGrant(cfg, h, gap, skew);
    } else {
      forall events
        ensures SpacingKept(cfg, events, h, gap, skew)
      {
        if Timely(cfg, START, events, skew) {
          GrantsSpaced(cfg, START, events, h, gap, skew);
        }
      }
    }
  }

  // ---- rate ----

  /** The spacing that every timely run keeps, or zero if there is none. */
  function GuaranteedGap(limit: Limit, skew: int): nat
  {
    if limit.minInterval <= 0 || skew > DAY then 0
    else if limit.minInterval + skew <= DAY + 1 then limit.minInterval else DAY + 1 - skew
  }

  /** No second can take more than n grants: either its counter is kept for as long as it may be
      used, or spacing alone leaves no room. */
  predicate RoomForAtMost(limit: Limit, skew: int, n: nat)
  {
    skew + SECOND <= HOUR + 1 || n * GuaranteedGap(limit, skew) >= SECOND
  }

  lemma Product(n: nat, a: nat, b: int)
    requires n >= 1
    ensures n * a == (n - 1) * a + a && (n * a <= b ==> (n - 1) * a <= b)
  {
  }

  lemma CountOneMore(grants: seq<Grant>, h: Host, at: int)
    requires 0 <= at < SECOND
    ensures GrantsIn(grants + [Grant(h, at)], h, 0, 0) == GrantsIn(grants, h, 0, 0) + 1
  {
    assert (grants + [Grant(h, at)])[..|grants|] == grants;
  }

  /** n grants in second zero, `gap` apart, with nothing forgotten. */
  lemma {:induction false} Fill(cfg: Host -> Limit, h: Host, gap: nat, n: nat, skew: int)
    returns (events: seq<LimitEvent>, b: Book)
    requires cfg(h).concurrency >= 1 && 1 <= n <= cfg(h).rps && gap >= cfg(h).minInterval && (n - 1) * gap < SECOND
    ensures Reaches(cfg, events, b, skew)
    ensures b.st.permits == map[] && b.st.windows == map[(h, 0) := n] && b.horizon == None
    ensures b.st.last == if cfg(h).minInterval > 0 then map[h := (n - 1) * gap] else map[]
    ensures GrantsIn(b.grants, h, 0, 0) == n
    decreases n
  {
    var before := START;
    events := [];
    if n > 1 {
      Product(n - 1, gap, SECOND - 1);
      events, before := Fill(cfg, h, gap, n - 1, skew);
    }
    var now := (n - 1) * gap;
    ExtendByRound(cfg, events, before, h, now, skew);
    CountOneMore(before.grants, h, now);
    events, b := events + Round(h, now), AfterRound(cfg, before, h, now);
  }

  /** n grants in second zero, each forgotten before the next. */
  lemma {:induction false} FillForgetting(cfg: Host -> Limit, h: Host, gap: nat, n: nat, skew: int)
    returns (events: seq<LimitEvent>, b: Book)
    requires cfg(h).concurrency >= 1 && n >= 1 && gap + skew >= DAY + 1 && (n - 1) * gap < SECOND
    ensures Reaches(cfg, events, b, skew)
    ensures b.st == EMPTY && b.horizon == Some((n - 1) * gap + DAY + 1)
    ensures GrantsIn(b.grants, h, 0, 0) == n
    decreases n
  {
    var before := START;
    events := [];
    if n > 1 {
      Product(n - 1, gap, SECOND - 1);
      events, before := FillForgetting(cfg, h, gap, n - 1, skew);
    }
    var now := (n - 1) * gap;
    ExtendByRound(cfg, events, before, h, now, skew);
    CountOneMore(before.grants, h, now);
    var stamped := AfterRound(cfg, before, h, now);
    ExtendByCleanUp(cfg, events + Round(h, now), stamped, now + DAY + 1, skew);
    events := events + Round(h, now) + [CleanUpEvent(now + DAY + 1)];
    b := Step(cfg, stamped, CleanUpEvent(now + DAY + 1));
    assert b.st == EMPTY;
  }

  /** Where there is room, a run puts n + 1 grants into one second and ends with its counter at one. */
  lemma Overfill(cfg: Host -> Limit, h: Host, n: nat, skew: int) returns (events: seq<LimitEvent>)
    requires cfg(h).concurrency >= 1 && 1 <= n <= cfg(h).rps && !RoomForAtMost(cfg(h), skew, n)
    ensures Timely(cfg, START, events, skew)
    ensures var b := Run(cfg, START, events);
            GrantsIn(b.grants, h, 0, 0) == n + 1 && b.st.windows == map[(h, 0) := 1]
  {
    var gap := GuaranteedGap(cfg(h), skew);
    Product(n, gap, SECOND - 1);
    var b: Book;
    var now: int;
    if gap >= cfg(h).minInterval {
      events, b := Fill(cfg, h, gap, n, skew);
      ExtendByCleanUp(cfg, events, b, HOUR + 1, skew);
      events, b := events + [CleanUpEvent(HOUR + 1)], Step(cfg, b, CleanUpEvent(HOUR + 1));
      now := SECOND - 1;
    } else {
      events, b := FillForgetting(cfg, h, gap, n, skew);
      now := n * gap;
    }
    assert b.st.windows == map[];
    ExtendByRound(cfg, events, b, h, now, skew);
    CountOneMore(b.grants, h, now);
    events := events + Round(h, now);
  }

  /** Of n spaced grants in one second, one lies at least n - 1 gaps into it. */
  lemma {:induction false} SpacedCount(grants: seq<Grant>, h: Host, gap: int, s: int) returns (i: nat)
    requires gap > 0 && Spaced(grants, h, gap) && GrantsIn(grants, h, s, s) > 0
    ensures i < |grants| && grants[i].host == h && SecondOf(grants[i].at) == s
    ensures s * SECOND + (GrantsIn(grants, h, s, s) - 1) * gap <= grants[i].at
  {
    var m := |grants| - 1;
    var front, n := grants[..m], GrantsIn(grants[..m], h, s, s);
    if GrantsIn(grants, h, s, s) == n {
      i := SpacedCount(front, h, gap, s);
    } else {
      i := m;
      if n > 0 {
        var j := SpacedCount(front, h, gap, s);
        assert grants[j] == front[j] && grants[j].at + gap <= grants[m].at;
        assert n * gap == (n - 1) * gap + gap;
      }
    }
  }

  lemma SpacingBoundsRate(grants: seq<Grant>, h: Host, gap: int, n: nat)
    requires gap > 0 && Spaced(grants, h, gap) && n * gap >= SECOND
    ensures RateKept(grants, h, n)
  {
    forall s: int
      ensures GrantsIn(grants, h, s, s) <= n
    {
      var count := GrantsIn(grants, h, s, s);
      if count > n {
        var i := SpacedCount(grants, h, gap, s);
        Scale(gap, n, count - 1);
        assert false;
      }
    }
  }

  /** Counters never overstate. */
  ghost predicate CountersLow(b: Book, h: Host)
  {
    forall s: int :: (h, s) in b.st.windows ==> 1 <= b.st.windows[(h, s)] <= GrantsIn(b.grants, h, s, s)
  }

  lemma {:induction false} RunCountersLow(cfg: Host -> Limit, b: Book, events: seq<LimitEvent>, h: Host)
    requires CountersLow(b, h)
    ensures CountersLow(Run(cfg, b, events), h)
    decreases |events|
  {
    if events != [] {
      var v := Step(cfg, b, events[0]);
      if v.grants != b.grants {
        assert v.grants[..|v.grants| - 1] == b.grants;
      }
      RunCountersLow(cfg, v, events[1..], h);
    }
  }

  /** Below the threshold: no second takes more than n grants, and with n = 1 counters are exact too. */
  lemma RoomIsEnough(cfg: Host -> Limit, events: seq<LimitEvent>, h: Host, n: nat, skew: int)
    requires 1 <= n <= cfg(h).rps && RoomForAtMost(cfg(h), skew, n) && Timely(cfg, START, events, skew)
    ensures var b := Run(cfg, START, events);
            && RateKept(b.grants, h, if skew + SECOND <= HOUR + 1 then cfg(h).rps else n)
            && (n == 1 || skew + SECOND <= HOUR + 1 ==> CountersMatch(b, h))
  {
    if skew + SECOND <= HOUR + 1 {
      RateConserved(cfg, START, events, h, skew);
    } else {
      var gap := GuaranteedGap(cfg(h), skew);
      GrantsSpaced(cfg, START, events, h, gap, skew);
      SpacingBoundsRate(Run(cfg, START, events).grants, h, gap, n);
      RunCountersLow(cfg, START, events, h);
    }
  }

  ghost predicate RateKeptIn(cfg: Host -> Limit, events: seq<LimitEvent>, h: Host, skew: int)
  {
    Timely(cfg, START, events, skew) ==> RateKept(Run(cfg, START, events).grants, h, cfg(h).rps)
  }

  ghost predicate CountersMatchIn(cfg: Host -> Limit, events: seq<LimitEvent>, h: Host, skew: int)
  {
    Timely(cfg, START, events, skew) ==> CountersMatch(Run(cfg, START, events), h)
  }

  /** All timely runs keep every second of `h` within rps if and only if the skew stays below one hour
      less a second (and a microsecond), or spacing alone leaves no room for more than rps. */
  lemma RateIsExact(cfg: Host -> Limit, h: Host, skew: int)
    requires cfg(h).concurrency >= 1 && cfg(h).rps >= 1
    ensures (forall events :: RateKeptIn(cfg, events, h, skew)) <==> RoomForAtMost(cfg(h), skew, cfg(h).rps)
  {
    if RoomForAtMost(cfg(h), skew, cfg(h).rps) {
      forall events
        ensures RateKeptIn(cfg, events, h, skew)
      {
        if Timely(cfg, START, events, skew) {
          RoomIsEnough(cfg, events, h, cfg(h).rps, skew);
        }
      }
    } else {
      var events := Overfill(cfg, h, cfg(h).rps, skew);
      assert !RateKeptIn(cfg, events, h, skew);
    }
  }

  /** In all timely runs `used` equals the number of grants stamped in its second if and only if
      the skew stays below the same bound, or spacing leaves room for one grant per second only. */
  lemma CountersAreExact(cfg: Host -> Limit, h: Host, skew: int)
    requires cfg(h).concurrency >= 1 && cfg(h).rps >= 1
    ensures (forall events :: CountersMatchIn(cfg, events, h, skew)) <==> RoomForAtMost(cfg(h), skew, 1)
  {
    if RoomForAtMost(cfg(h), skew, 1) {
      forall events
        ensures CountersMatchIn(cfg, events, h, skew)
      {
        if Timely(cfg, START, events, skew) {
          RoomIsEnough(cfg, events, h, 1, skew);
        }
      }
    } else {
      var events := Overfill(cfg, h, 1, skew);
      assert (h, 0) in Run(cfg, START, events).st.windows;
      assert !CountersMatchIn(cfg, events, h, skew);
    }
  }

  /** Whenever the rate is safe, any interval of timestamps holds at most
      (ceil(length in seconds) + 1) * rps grants. */
  lemma IntervalBounded(cfg: Host -> Limit, events: seq<LimitEvent>, h: Host, skew: int, from: int, length: nat)
    requires cfg(h).rps >= 1 && RoomForAtMost(cfg(h), skew, cfg(h).rps) && Timely(cfg, START, events, skew)
    ensures var grants := Run(cfg, START, events).grants;
            GrantsBetween(grants, h, from, from + length) <= (CeilSeconds(length) + 1) * cfg(h).rps
  {
    RoomIsEnough(cfg, events, h, cfg(h).rps, skew);
    RateInAnyInterval(Run(cfg, START, events).grants, h, cfg(h).rps, from, length);
  }
}
