/** internal/repository/delivery.go and the loop of internal/transport/delivery.go: claiming and
    rescheduling of durable deliveries by any number of senders that may stop at any point. */
module DeliveryQueue {
  import opened Contracts

  const CLAIM_LEASE: int := 10_000_000

  /** The queue columns of a delivery. */
  datatype Slot = Slot(acknowledgedAt: Option<int>, nextAttemptAt: int, leaseUntil: Option<int>, attempts: nat,
                       createdAt: int)

  function NewSlot(now: int): Slot { Slot(None, now, None, 0, now) }

  predicate Claimable(s: Slot, now: int)
  {
    s.acknowledgedAt.None? && s.nextAttemptAt <= now && (s.leaseUntil.None? || s.leaseUntil.value < now)
  }

  function Claim(s: Slot, now: int): Slot
  {
    s.(leaseUntil := Some(now + CLAIM_LEASE), attempts := s.attempts + 1)
  }

  function Reschedule(s: Slot, now: int, after: int): Slot
  {
    if s.acknowledgedAt.Some? then s else s.(nextAttemptAt := now + after, leaseUntil := None)
  }

  function Acknowledge(s: Slot, now: int): Slot
  {
    s.(acknowledgedAt := if s.acknowledgedAt.Some? then s.acknowledgedAt else Some(now), leaseUntil := None)
  }

  function Reopen(s: Slot, now: int): Slot
  {
    s.(acknowledgedAt := None, nextAttemptAt := now, leaseUntil := None)
  }

  /** A delivery can be claimed if and only if it is not acknowledged, is due, and is not leased until
      `now` or later. */
  lemma ClaimableColumns(s: Slot, now: int)
    ensures Claimable(s, now) <==>
            s.acknowledgedAt == None && s.nextAttemptAt <= now && (s.leaseUntil.Some? ==> s.leaseUntil.value < now)
  {
  }

  /** What each statement writes: a claim leases the delivery for ten seconds and counts an attempt, a
      reschedule sets the next attempt unless the delivery is acknowledged, an acknowledgement keeps
      its first time, and a reopening makes the delivery due at once. */
  lemma SlotColumns(s: Slot, now: int, after: int)
    ensures var v := Claim(s, now);
            && v.leaseUntil == Some(now + 10_000_000) && v.attempts == s.attempts + 1
            && v.acknowledgedAt == s.acknowledgedAt && v.nextAttemptAt == s.nextAttemptAt && v.createdAt == s.createdAt
    ensures var v := Reschedule(s, now, after);
            && v.acknowledgedAt == s.acknowledgedAt && v.attempts == s.attempts && v.createdAt == s.createdAt
            && v.nextAttemptAt == (if s.acknowledgedAt == None then now + after else s.nextAttemptAt)
            && v.leaseUntil == (if s.acknowledgedAt == None then None else s.leaseUntil)
    ensures var v := Acknowledge(s, now);
            && v.acknowledgedAt.Some? && (s.acknowledgedAt.Some? ==> v.acknowledgedAt == s.acknowledgedAt)
            && (s.acknowledgedAt.None? ==> v.acknowledgedAt.value == now)
            && v.leaseUntil.None? && v.attempts == s.attempts && v.nextAttemptAt == s.nextAttemptAt
            && v.createdAt == s.createdAt
    ensures var v := Reopen(s, now);
            && v.acknowledgedAt.None? && v.nextAttemptAt == now && v.leaseUntil.None?
            && v.attempts == s.attempts && v.createdAt == s.createdAt
    ensures NewSlot(now) == Slot(None, now, None, 0, now)
  {
  }

  class Queue {
    var slots: map<DeliveryId, Slot>

    constructor ()
      ensures slots == map[]
    {
      slots := map[];
    }

    /** ClaimDelivery: the oldest claimable delivery that no other transaction has locked. */
    method ClaimDelivery(locked: set<DeliveryId>, now: int) returns (pick: Option<DeliveryId>)
      modifies this
      ensures pick.None? ==> unchanged(this) && forall d :: d in slots && Claimable(slots[d], now) ==> d in locked
      ensures pick.Some? ==>
        var d := pick.value;
        && d in old(slots) && d !in locked && Claimable(old(slots)[d], now)
        && (forall e :: e in old(slots) && Claimable(old(slots)[e], now) && e !in locked ==>
              old(slots)[d].createdAt <= old(slots)[e].createdAt)
        && slots == old(slots)[d := Claim(old(slots)[d], now)]
        && !Claimable(slots[d], now)
    {
      pick := None;
      var all := set d | d in slots && Claimable(slots[d], now) && d !in locked;
      var left := all;
      while left != {}
        invariant left <= all && slots == old(slots)
        invariant pick.None? ==> left == all
        invariant pick.Some? ==>
          pick.value in all && forall d :: d in all - left ==> slots[pick.value].createdAt <= slots[d].createdAt
        decreases left
      {
        var d :| d in left;
        left := left - {d};
        if pick.None? || slots[d].createdAt < slots[pick.value].createdAt {
          pick := Some(d);
        }
      }
      assert forall d :: d in slots && Claimable(slots[d], now) && d !in locked ==> d in all;
      if pick.Some? {
        slots := slots[pick.value := Claim(slots[pick.value], now)];
      }
    }

    method RescheduleDelivery(d: DeliveryId, now: int, after: int)
      modifies this
      ensures slots == if d in old(slots) then old(slots)[d := Reschedule(old(slots)[d], now, after)] else old(slots)
    {
      if d in slots && slots[d].acknowledgedAt.None? {
        slots := slots[d := slots[d].(nextAttemptAt := now + after, leaseUntil := None)];
      }
    }
  }

  // ---- one delivery over time ----

  datatype SlotEvent =
    | ClaimAt(now: int)
    | RescheduleAt(now: int)
    | AcknowledgeAt(now: int)
    | ReopenAt(now: int)

  /** `touched` is the timestamp of the last event that changed the slot. */
  datatype Life = Life(slot: Slot, touched: int)

  function Advance(l: Life, ev: SlotEvent, retry: int): Life
  {
    match ev
    case ClaimAt(now) => if Claimable(l.slot, now) then Life(Claim(l.slot, now), now) else l
    case RescheduleAt(now) => if l.slot.acknowledgedAt.None? then Life(Reschedule(l.slot, now, retry), now) else l
    case AcknowledgeAt(now) => Life(Acknowledge(l.slot, now), now)
    case ReopenAt(now) => Life(Reopen(l.slot, now), now)
  }

  function AdvanceAll(l: Life, events: seq<SlotEvent>, retry: int): Life
    decreases |events|
  {
    if events == [] then l else AdvanceAll(Advance(l, events[0], retry), events[1..], retry)
  }

  function Max(a: int, b: int): int { if a < b then b else a }

  predicate Reachable(l: Life, retry: int)
  {
    l.slot.acknowledgedAt.None? ==>
      && l.slot.nextAttemptAt <= l.touched + Max(CLAIM_LEASE, retry)
      && (l.slot.leaseUntil.Some? ==> l.slot.leaseUntil.value <= l.touched + CLAIM_LEASE)
  }

  lemma {:induction false} LivesReachable(l: Life, events: seq<SlotEvent>, retry: int)
    requires Reachable(l, retry)
    ensures Reachable(AdvanceAll(l, events, retry), retry)
    decreases |events|
  {
    if events != [] {
      LivesReachable(Advance(l, events[0], retry), events[1..], retry);
    }
  }

  /** No stranded delivery: whatever senders claim, crash and reschedule, and in whatever order
      their timestamps fall, an unacknowledged delivery can be claimed at every moment later than
      max(claim lease, retry delay) after its last change. */
  lemma NoStrandedDelivery(created: int, events: seq<SlotEvent>, retry: int, t: int)
    ensures var l := AdvanceAll(Life(NewSlot(created), created), events, retry);
            l.slot.acknowledgedAt.None? && t > l.touched + Max(CLAIM_LEASE, retry) ==> Claimable(l.slot, t)
  {
    LivesReachable(Life(NewSlot(created), created), events, retry);
  }

  /** Only an explicit reopening undoes an acknowledgement; late claims and reschedules do not. */
  lemma {:induction false} AcknowledgedStays(l: Life, events: seq<SlotEvent>, retry: int)
    requires l.slot.acknowledgedAt.Some? && forall i :: 0 <= i < |events| ==> !events[i].ReopenAt?
    ensures AdvanceAll(l, events, retry).slot.acknowledgedAt == l.slot.acknowledgedAt
    decreases |events|
  {
    if events != [] {
      AcknowledgedStays(Advance(l, events[0], retry), events[1..], retry);
    }
  }

  /** Nobody claims an acknowledged delivery, at any time, until it is reopened. */
  lemma AcknowledgedIsNotClaimed(l: Life, at: int, events: seq<SlotEvent>, retry: int, t: int)
    requires forall i :: 0 <= i < |events| ==> !events[i].ReopenAt?
    ensures !Claimable(AdvanceAll(Advance(l, AcknowledgeAt(at), retry), events, retry).slot, t)
  {
    AcknowledgedStays(Advance(l, AcknowledgeAt(at), retry), events, retry);
  }

  /** The delivery is acknowledged, or its next attempt is not before `t`. */
  predicate NotBefore(s: Slot, t: int) { s.acknowledgedAt.Some? || s.nextAttemptAt >= t }

  lemma {:induction false} StaysDelayed(l: Life, events: seq<SlotEvent>, retry: int, at: int)
    requires NotBefore(l.slot, at + retry)
    requires forall i :: 0 <= i < |events| ==> !events[i].ReopenAt? && (events[i].RescheduleAt? ==> events[i].now >= at)
    ensures NotBefore(AdvanceAll(l, events, retry).slot, at + retry)
    decreases |events|
  {
    if events != [] {
      assert forall i :: 0 <= i < |events[1..]| ==> events[1..][i] == events[i + 1];
      StaysDelayed(Advance(l, events[0], retry), events[1..], retry, at);
    }
  }

  /** After a reschedule at `at` nobody claims the delivery before `at + retry`, whatever claims,
      acknowledgements and later reschedules follow, until it is reopened. */
  lemma RetryIsDelayed(l: Life, at: int, events: seq<SlotEvent>, retry: int, t: int)
    requires forall i :: 0 <= i < |events| ==> !events[i].ReopenAt? && (events[i].RescheduleAt? ==> events[i].now >= at)
    requires t < at + retry
    ensures !Claimable(AdvanceAll(Advance(l, RescheduleAt(at), retry), events, retry).slot, t)
  {
    StaysDelayed(Advance(l, RescheduleAt(at), retry), events, retry, at);
  }

  lemma {:induction false} StaysLeased(l: Life, events: seq<SlotEvent>, retry: int, until: int)
    requires l.slot.leaseUntil == Some(until)
    requires forall i :: 0 <= i < |events| ==> events[i].ClaimAt? && events[i].now <= until
    ensures AdvanceAll(l, events, retry) == l
    decreases |events|
  {
    if events != [] {
      assert forall i :: 0 <= i < |events[1..]| ==> events[1..][i] == events[i + 1];
      StaysLeased(Advance(l, events[0], retry), events[1..], retry, until);
    }
  }

  /** A claim at `at` shuts out every other sender for ten seconds: until the delivery is rescheduled,
      acknowledged or reopened, no claim up to and including the end of the lease succeeds. */
  lemma ClaimExcludes(l: Life, at: int, events: seq<SlotEvent>, retry: int)
    requires l.slot.acknowledgedAt.None? && l.slot.nextAttemptAt <= at
             && (l.slot.leaseUntil.Some? ==> l.slot.leaseUntil.value < at)
    requires forall i :: 0 <= i < |events| ==> events[i].ClaimAt? && events[i].now <= at + 10_000_000
    ensures var claimed := Advance(l, ClaimAt(at), retry);
            claimed.slot.leaseUntil == Some(at + 10_000_000) && AdvanceAll(claimed, events, retry) == claimed
  {
    StaysLeased(Advance(l, ClaimAt(at), retry), events, retry, at + CLAIM_LEASE);
  }
}
