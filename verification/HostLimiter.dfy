/** internal/repository/limits.go: concurrency, minimum spacing and fixed-window rate in one
    transaction.  Times are microseconds; `now` is a transaction timestamp, so successive commits
    may carry timestamps in any order. */
module HostLimiter {
  import opened Contracts

  type Host = string

  const SECOND: int := 1_000_000
  const MINUTE: int := 60 * SECOND
  const HOUR: int := 60 * MINUTE
  const DAY: int := 24 * HOUR

  datatype Limit = Limit(rps: nat, concurrency: nat, minInterval: int)
  datatype Permit = Permit(host: Host, leaseUntil: int)

  datatype Limiter = Limiter(
    permits: map<Token, Permit>, windows: map<(Host, int), nat>, last: map<Host, int>)

  const EMPTY := Limiter(map[], map[], map[])

  function SecondOf(t: int): int { t / SECOND }

  function Live(permits: map<Token, Permit>, now: int): map<Token, Permit>
  {
    map t | t in permits && permits[t].leaseUntil >= now :: permits[t]
  }

  function Held(permits: map<Token, Permit>, host: Host): set<Token>
  {
    set t | t in permits && permits[t].host == host
  }

  predicate TooSoon(st: Limiter, host: Host, limit: Limit, now: int)
  {
    limit.minInterval > 0 && host in st.last && st.last[host] > now - limit.minInterval
  }

  predicate WindowFull(st: Limiter, host: Host, limit: Limit, now: int)
  {
    (host, SecondOf(now)) in st.windows && st.windows[(host, SecondOf(now))] >= limit.rps
  }

  /** AcquireHostPermit; every refusal rolls the whole transaction back. */
  function Acquire(st: Limiter, host: Host, limit: Limit, lease: int, now: int, token: Token): Tx<Limiter>
  {
    var live := Live(st.permits, now);
    if |Held(live, host)| >= limit.concurrency || TooSoon(st, host, limit, now) || WindowFull(st, host, limit, now) then
      Rollback(NoPermit)
    else if token in live then Rollback(SchemaViolation)
    else
      var w := (host, SecondOf(now));
      Commit(Limiter(live[token := Permit(host, now + lease)],
                     st.windows[w := if w in st.windows then st.windows[w] + 1 else 1],
                     if limit.minInterval > 0 then st.last[host := now] else st.last))
  }

  function Release(st: Limiter, token: Token): Limiter { st.(permits := st.permits - {token}) }

  /** The limiter part of Cleanup. */
  function CleanUp(st: Limiter, now: int): Limiter
  {
    st.(windows := map w | w in st.windows && w.1 * SECOND >= now - HOUR :: st.windows[w],
        last := map h | h in st.last && st.last[h] >= now - DAY :: st.last[h])
  }

  // ---- the three tables, column by column ----

  /** The permits of the host whose lease runs until `now` or later. */
  function InUse(st: Limiter, host: Host, now: int): set<Token>
  {
    set t | t in st.permits && st.permits[t].host == host && now <= st.permits[t].leaseUntil
  }

  /** Fewer permits in use than the concurrency, the last grant at least the interval ago, and room in
      the current second. */
  predicate Grantable(st: Limiter, host: Host, limit: Limit, now: int)
  {
    && |InUse(st, host, now)| < limit.concurrency
    && (limit.minInterval <= 0 || host !in st.last || st.last[host] + limit.minInterval <= now)
    && ((host, now / 1_000_000) !in st.windows || st.windows[(host, now / 1_000_000)] < limit.rps)
  }

  predicate Usable(st: Limiter, token: Token, now: int)
  {
    token in st.permits && now <= st.permits[token].leaseUntil
  }

  /** A permit is granted if and only if all three limits allow it and its token is not in use. */
  lemma AcquireGrants(st: Limiter, host: Host, limit: Limit, lease: int, now: int, token: Token)
    ensures var tx := Acquire(st, host, limit, lease, now, token);
            && (tx.Commit? <==> Grantable(st, host, limit, now) && !Usable(st, token, now))
            && (tx.Rollback? ==> tx.error == if Grantable(st, host, limit, now) then SchemaViolation else NoPermit)
  {
    assert Held(Live(st.permits, now), host) == InUse(st, host, now);
  }

  /** A grant drops the permits that have run out and adds its own... */
  lemma AcquirePermits(st: Limiter, host: Host, limit: Limit, lease: int, now: int, token: Token)
    requires Acquire(st, host, limit, lease, now, token).Commit?
    ensures var v := Acquire(st, host, limit, lease, now, token).state;
            && token in v.permits && v.permits[token].host == host && v.permits[token].leaseUntil == now + lease
            && (forall t :: t != token ==> (t in v.permits <==> Usable(st, t, now)))
            && (forall t :: t in v.permits && t != token ==> v.permits[t] == st.permits[t])
  {
  }

  /** ...counts itself in its second and, if the host has an interval, stamps the host. */
  lemma AcquireCounts(st: Limiter, host: Host, limit: Limit, lease: int, now: int, token: Token)
    requires Acquire(st, host, limit, lease, now, token).Commit?
    ensures var v, second := Acquire(st, host, limit, lease, now, token).state, (host, now / 1_000_000);
            && v.windows == st.windows[second := 1 + if second in st.windows then st.windows[second] else 0]
            && v.last == (if limit.minInterval > 0 then st.last[host := now] else st.last)
  {
  }

  /** A release removes its own permit; cleanup removes counters older than an hour and stamps older
      than a day, and no permit. */
  lemma OtherColumns(st: Limiter, token: Token, now: int)
    ensures var v := Release(st, token);
            && v.permits.Keys == st.permits.Keys - {token} && v.windows == st.windows && v.last == st.last
            && forall t :: t in v.permits ==> v.permits[t] == st.permits[t]
    ensures var v := CleanUp(st, now);
            && v.permits == st.permits
            && (forall w :: w in v.windows <==> w in st.windows && now - 3_600_000_000 <= w.1 * 1_000_000)
            && (forall w :: w in v.windows ==> v.windows[w] == st.windows[w])
            && (forall h :: h in v.last <==> h in st.last && now - 86_400_000_000 <= st.last[h])
            && (forall h :: h in v.last ==> v.last[h] == st.last[h])
  {
  }

  class HostLimits {
    var permits: map<Token, Permit>
    var windows: map<(Host, int), nat>
    var last: map<Host, int>

    ghost function State(): Limiter
      reads this
    {
      Limiter(permits, windows, last)
    }

    constructor ()
      ensures State() == EMPTY
    {
      permits, windows, last := map[], map[], map[];
    }

    /** Statement by statement; a refused acquisition leaves all three tables as they were. */
    method AcquireHostPermit(host: Host, limit: Limit, lease: int, now: int, token: Token)
      returns (err: Option<TxError>)
      modifies this
      ensures var tx := Acquire(old(State()), host, limit, lease, now, token);
              if tx.Commit? then err.None? && State() == tx.state else err == Some(tx.error) && State() == old(State())
    {
      var live := map t | t in permits && permits[t].leaseUntil >= now :: permits[t];
      var active := |set t | t in live && live[t].host == host|;
      if active >= limit.concurrency {
        return Some(NoPermit);
      }
      var dispatched := last;
      if limit.minInterval > 0 {
        if host in dispatched && dispatched[host] > now - limit.minInterval {
          return Some(NoPermit);
        }
        dispatched := dispatched[host := now];
      }
      var w := (host, SecondOf(now));
      var used := 1;
      if w in windows {
        if windows[w] >= limit.rps {
          return Some(NoPermit);
        }
        used := windows[w] + 1;
      }
      if token in live {
        return Some(SchemaViolation);
      }
      permits := live[token := Permit(host, now + lease)];
      windows := windows[w := used];
      last := dispatched;
      return None;
    }

    method ReleaseHostPermit(token: Token)
      modifies this
      ensures State() == Release(old(State()), token)
    {
      permits := permits - {token};
    }
  }

  // ---- runs ----

  datatype Grant = Grant(host: Host, at: int)

  /** `grants` are the committed acquisitions in commit order; `horizon` is the latest cleanup. */
  datatype Book = Book(st: Limiter, grants: seq<Grant>, horizon: Option<int>)

  datatype LimitEvent =
    | AcquireEvent(host: Host, lease: int, now: int, token: Token)
    | ReleaseEvent(token: Token)
    | CleanUpEvent(now: int)

  function Latest(h: Option<int>, now: int): int { if h.Some? && h.value > now then h.value else now }

  function Step(cfg: Host -> Limit, b: Book, ev: LimitEvent): Book
  {
    match ev
    case AcquireEvent(h, lease, now, token) =>
      var tx := Acquire(b.st, h, cfg(h), lease, now, token);
      if tx.Commit? then b.(st := tx.state, grants := b.grants + [Grant(h, now)]) else b
    case ReleaseEvent(token) => b.(st := Release(b.st, token))
    case CleanUpEvent(now) => b.(st := CleanUp(b.st, now), horizon := Some(Latest(b.horizon, now)))
  }

  function Run(cfg: Host -> Limit, b: Book, events: seq<LimitEvent>): Book
    decreases |events|
  {
    if events == [] then b else Run(cfg, Step(cfg, b, events[0]), events[1..])
  }

  const START := Book(EMPTY, [], None)

  // ---- concurrency, unconditionally ----

  predicate PermitsOk(cfg: Host -> Limit, permits: map<Token, Permit>, h: Host)
  {
    |Held(permits, h)| <= cfg(h).concurrency
  }

  lemma HeldShrinks(a: map<Token, Permit>, b: map<Token, Permit>, h: Host)
    requires b.Keys <= a.Keys && forall t :: t in b ==> b[t] == a[t]
    ensures |Held(b, h)| <= |Held(a, h)|
  {
    SubsetSize(Held(b, h), Held(a, h));
  }

  lemma {:induction false} SubsetSize<T>(a: set<T>, b: set<T>)
    requires a <= b
    ensures |a| <= |b|
  {
    if a != {} {
      var x :| x in a;
      SubsetSize(a - {x}, b - {x});
    }
  }

  lemma HeldGrows(a: map<Token, Permit>, token: Token, p: Permit, h: Host)
    requires token !in a
    ensures |Held(a[token := p], h)| == |Held(a, h)| + (if p.host == h then 1 else 0)
  {
    assert Held(a[token := p], h) == if p.host == h then Held(a, h) + {token} else Held(a, h);
  }

  lemma StepPermits(cfg: Host -> Limit, b: Book, ev: LimitEvent, h: Host)
    requires PermitsOk(cfg, b.st.permits, h)
    ensures PermitsOk(cfg, Step(cfg, b, ev).st.permits, h)
  {
    match ev
    case AcquireEvent(host, lease, now, token) =>
      var live := Live(b.st.permits, now);
      HeldShrinks(b.st.permits, live, h);
      if token !in live {
        HeldGrows(live, token, Permit(host, now + lease), h);
      }
    case ReleaseEvent(token) => HeldShrinks(b.st.permits, b.st.permits - {token}, h);
    case CleanUpEvent(_) =>
  }

  /** The permit rows of a host never exceed its concurrency, whatever the timestamps. */
  lemma {:induction false} PermitsBounded(cfg: Host -> Limit, b: Book, events: seq<LimitEvent>, h: Host)
    requires PermitsOk(cfg, b.st.permits, h)
    ensures PermitsOk(cfg, Run(cfg, b, events).st.permits, h)
    decreases |events|
  {
    if events != [] {
      StepPermits(cfg, b, events[0], h);
      PermitsBounded(cfg, Step(cfg, b, events[0]), events[1..], h);
    }
  }

  // ---- spacing and rate, given bounded skew behind cleanup ----

  /** No acquisition carries a timestamp more than `skew` behind a cleanup that already ran. */
  predicate TimelyEvent(b: Book, ev: LimitEvent, skew: int)
  {
    ev.AcquireEvent? && b.horizon.Some? ==> ev.now >= b.horizon.value - skew
  }

  predicate Timely(cfg: Host -> Limit, b: Book, events: seq<LimitEvent>, skew: int)
    decreases |events|
  {
    events != [] ==> TimelyEvent(b, events[0], skew) && Timely(cfg, Step(cfg, b, events[0]), events[1..], skew)
  }

  predicate Behind(horizon: Option<int>, t: int, age: int)
  {
    horizon.Some? && t < horizon.value - age
  }

  predicate Spaced(grants: seq<Grant>, h: Host, gap: int)
  {
    forall i, j :: 0 <= i < j < |grants| && grants[i].host == h && grants[j].host == h ==>
      grants[i].at + gap <= grants[j].at
  }

  /** Grants of `h` are spaced, and the stored timestamp is the latest of them or was cleaned away. */
  predicate SpacingOk(b: Book, h: Host, gap: int)
  {
    && Spaced(b.grants, h, gap)
    && (forall i :: 0 <= i < |b.grants| && b.grants[i].host == h ==>
          (h in b.st.last && b.grants[i].at <= b.st.last[h]) || Behind(b.horizon, b.grants[i].at, DAY))
  }

  lemma StepSpacing(cfg: Host -> Limit, b: Book, ev: LimitEvent, h: Host, gap: int, skew: int)
    requires 0 < gap <= cfg(h).minInterval && gap + skew <= DAY + 1
    requires SpacingOk(b, h, gap) && TimelyEvent(b, ev, skew)
    ensures SpacingOk(Step(cfg, b, ev), h, gap)
  {
  }

  /** Commits to a host are at least `gap` apart in commit order, for any order of timestamps, where
      `gap` is minInterval as long as timestamps lag cleanups by less than a day, and less beyond. */
  lemma {:induction false} GrantsSpaced(cfg: Host -> Limit, b: Book, events: seq<LimitEvent>, h: Host, gap: int,
                                        skew: int)
    requires 0 < gap <= cfg(h).minInterval && gap + skew <= DAY + 1
    requires SpacingOk(b, h, gap) && Timely(cfg, b, events, skew)
    ensures SpacingOk(Run(cfg, b, events), h, gap)
    decreases |events|
  {
    if events != [] {
      StepSpacing(cfg, b, events[0], h, gap, skew);
      GrantsSpaced(cfg, Step(cfg, b, events[0]), events[1..], h, gap, skew);
    }
  }

  /** Number of grants of `h` stamped in the seconds lo..hi. */
  function GrantsIn(gs: seq<Grant>, h: Host, lo: int, hi: int): nat
  {
    if gs == [] then 0
    else
      var g := gs[|gs| - 1];
      GrantsIn(gs[..|gs| - 1], h, lo, hi) + (if g.host == h && lo <= SecondOf(g.at) <= hi then 1 else 0)
  }

  /** No second of `h` has more than `rps` grants. */
  ghost predicate RateKept(grants: seq<Grant>, h: Host, rps: nat)
  {
    forall s: int :: GrantsIn(grants, h, s, s) <= rps
  }

  /** Every stored counter of `h` is the number of grants stamped in its second. */
  ghost predicate CountersMatch(b: Book, h: Host)
  {
    forall s: int :: (h, s) in b.st.windows ==> b.st.windows[(h, s)] == GrantsIn(b.grants, h, s, s)
  }

  /** Rate kept, counters exact, and a missing counter means no grants or a cleaned window. */
  ghost predicate RateOk(b: Book, h: Host, rps: nat)
  {
    && RateKept(b.grants, h, rps) && CountersMatch(b, h)
    && forall s: int ::
         (h, s) !in b.st.windows ==> GrantsIn(b.grants, h, s, s) == 0 || Behind(b.horizon, s * SECOND, HOUR)
  }

  lemma StepRate(cfg: Host -> Limit, b: Book, ev: LimitEvent, h: Host, skew: int)
    requires cfg(h).rps >= 1 && skew + SECOND <= HOUR + 1
    requires RateOk(b, h, cfg(h).rps) && TimelyEvent(b, ev, skew)
    ensures RateOk(Step(cfg, b, ev), h, cfg(h).rps)
  {
    var v := Step(cfg, b, ev);
    if v.grants != b.grants {
      assert v.grants[..|v.grants| - 1] == b.grants;
      assert SecondOf(ev.now) * SECOND > ev.now - SECOND;
    }
  }

  lemma {:induction false} RateConserved(cfg: Host -> Limit, b: Book, events: seq<LimitEvent>, h: Host, skew: int)
    requires cfg(h).rps >= 1 && skew + SECOND <= HOUR + 1
    requires RateOk(b, h, cfg(h).rps) && Timely(cfg, b, events, skew)
    ensures RateOk(Run(cfg, b, events), h, cfg(h).rps)
    decreases |events|
  {
    if events != [] {
      StepRate(cfg, b, events[0], h, skew);
      RateConserved(cfg, Step(cfg, b, events[0]), events[1..], h, skew);
    }
  }

  lemma {:induction false} GrantsSplit(gs: seq<Grant>, h: Host, lo: int, hi: int)
    requires lo <= hi
    ensures GrantsIn(gs, h, lo, hi) == GrantsIn(gs, h, lo, hi - 1) + GrantsIn(gs, h, hi, hi)
  {
    if gs != [] {
      GrantsSplit(gs[..|gs| - 1], h, lo, hi);
    }
  }

  lemma {:induction false} NoSeconds(gs: seq<Grant>, h: Host, lo: int)
    ensures GrantsIn(gs, h, lo, lo - 1) == 0
  {
    if gs != [] {
      NoSeconds(gs[..|gs| - 1], h, lo);
    }
  }

  lemma {:induction false} SecondsBound(grants: seq<Grant>, h: Host, rps: nat, lo: int, hi: int)
    requires RateKept(grants, h, rps) && lo <= hi + 1
    ensures GrantsIn(grants, h, lo, hi) <= rps * (hi - lo + 1)
    decreases hi - lo + 1
  {
    if lo == hi + 1 {
      NoSeconds(grants, h, lo);
    } else {
      GrantsSplit(grants, h, lo, hi);
      SecondsBound(grants, h, rps, lo, hi - 1);
      assert GrantsIn(grants, h, hi, hi) <= rps;
      assert rps * (hi - lo + 1) == rps * (hi - lo) + rps;
    }
  }

  /** Number of grants of `h` with timestamps in [from, to). */
  function GrantsBetween(gs: seq<Grant>, h: Host, from: int, to: int): nat
  {
    if gs == [] then 0
    else
      var g := gs[|gs| - 1];
      GrantsBetween(gs[..|gs| - 1], h, from, to) + (if g.host == h && from <= g.at < to then 1 else 0)
  }

  lemma {:induction false} BetweenWithin(gs: seq<Grant>, h: Host, from: int, to: int)
    requires from < to
    ensures GrantsBetween(gs, h, from, to) <= GrantsIn(gs, h, SecondOf(from), SecondOf(to - 1))
  {
    if gs != [] {
      BetweenWithin(gs[..|gs| - 1], h, from, to);
    }
  }

  /** The number of seconds that a duration fills, rounded up. */
  function CeilSeconds(length: nat): nat { (length + SECOND - 1) / SECOND }

  /** A kept rate bounds every interval: `length` microseconds of timestamps, wherever they start,
      hold at most (ceil(length in seconds) + 1) * rps grants. */
  lemma RateInAnyInterval(grants: seq<Grant>, h: Host, rps: nat, from: int, length: nat)
    requires RateKept(grants, h, rps)
    ensures GrantsBetween(grants, h, from, from + length) <= (CeilSeconds(length) + 1) * rps
  {
    if length == 0 {
      NothingBetween(grants, h, from);
    } else {
      var lo, hi := SecondOf(from), SecondOf(from + length - 1);
      BetweenWithin(grants, h, from, from + length);
      SecondsBound(grants, h, rps, lo, hi);
      assert hi - lo <= CeilSeconds(length);
      Scale(rps, hi - lo + 1, CeilSeconds(length) + 1);
    }
  }

  lemma {:induction false} NothingBetween(gs: seq<Grant>, h: Host, t: int)
    ensures GrantsBetween(gs, h, t, t) == 0
  {
    if gs != [] {
      NothingBetween(gs[..|gs| - 1], h, t);
    }
  }

  lemma Scale(n: nat, a: int, b: int)
    requires a <= b
    ensures n * a <= b * n
  {
  }
}
