/**
 The fixed-window rate limiter: one Redis counter per key, created by the first
 increment and given an expiry then.

 A window opens with the first call after the counter has gone, so windows are
 not aligned to the clock. How many approvals an arbitrary interval can see is
 what the module works out.
 */
module RateLimit {
  import opened Base

  // A counter that never got its expiry stays for good.
  datatype Counter = Counter(count: nat, expiresAt: Option<real>)

  // One call: when it was made and how Redis behaved during it.
  datatype Call = Call(at: real, connected: bool, incrOk: bool, expireOk: bool)

  // Failed: the increment failed. Unlimited: Redis could not be reached.
  datatype Answer = Approved | Denied | Unlimited | Failed

  predicate Expired(c: Option<Counter>, now: real) {
    c.Some? && c.value.expiresAt.Some? && c.value.expiresAt.value <= now
  }

  // INCR on a key that is gone starts it at one without an expiry.
  function Incremented(c: Option<Counter>, now: real): Counter {
    if c.None? || Expired(c, now) then Counter(1, None) else c.value.(count := c.value.count + 1)
  }

  function Counted(c: Option<Counter>, call: Call, window: real): Option<Counter> {
    if !call.connected || !call.incrOk then c
    else
      var n := Incremented(c, call.at);
      Some(if n.count == 1 && call.expireOk then n.(expiresAt := Some(call.at + window)) else n)
  }

  function AnswerOf(c: Option<Counter>, call: Call, limit: int): Answer {
    if !call.connected then Unlimited
    else if !call.incrOk then Failed
    else if Incremented(c, call.at).count <= limit then Approved else Denied
  }

  // Approvals with a time in [from, to) over a sequence of calls.
  function Approvals(c: Option<Counter>, calls: seq<Call>, limit: int, window: real, from: real, to: real): nat
    decreases |calls|
  {
    if calls == [] then 0
    else
      (if AnswerOf(c, calls[0], limit) == Approved && from <= calls[0].at < to then 1 else 0)
      + Approvals(Counted(c, calls[0], window), calls[1..], limit, window, from, to)
  }

  ghost predicate InOrder(calls: seq<Call>, now: real) {
    && (forall i :: 0 <= i < |calls| ==> now <= calls[i].at)
    && (forall i, j :: 0 <= i < j < |calls| ==> calls[i].at <= calls[j].at)
  }

  function Max(a: int, b: int): int {
    if a < b then b else a
  }

  // What the counter still lets through before its key is gone.
  function Left(c: Counter, limit: int): nat {
    Max(0, limit - c.count)
  }

  // A bound on the approvals still to come in [from, from + window).
  function Bound(c: Option<Counter>, now: real, limit: int, window: real, from: real): nat {
    if now >= from + window then 0
    else if c.Some? && !Expired(c, now) then
      if c.value.expiresAt.None? || c.value.expiresAt.value - window >= from then Left(c.value, limit)
      else if c.value.expiresAt.value > from then Left(c.value, limit) + Max(0, limit)
      else Max(0, 2 * limit - 1)
    else if now >= from then Max(0, limit)
    else Max(0, 2 * limit - 1)
  }

  lemma {:induction false} ApprovalsBounded(
    c: Option<Counter>, calls: seq<Call>, now: real, limit: int, window: real, from: real)
    requires window >= 0.0 && InOrder(calls, now)
    requires c.Some? ==> c.value.count >= 1
    ensures Approvals(c, calls, limit, window, from, from + window) <= Bound(c, now, limit, window, from)
    decreases |calls|
  {
    if calls == [] {
    } else {
      ApprovalsBounded(Counted(c, calls[0], window), calls[1..], calls[0].at, limit, window, from);
    }
  }

  // RATE BOUND. Over every timed call sequence on a key, whatever fails on the
  // way, no half-open interval as long as the window holds more than twice the
  // limit less one approvals.
  lemma WindowApprovals(calls: seq<Call>, start: real, limit: int, window: real, from: real)
    requires window >= 0.0 && InOrder(calls, start)
    ensures Approvals(None, calls, limit, window, from, from + window) <= Max(0, 2 * limit - 1)
  {
    ApprovalsBounded(None, calls, start, limit, window, from);
  }

  function Repeat(call: Call, n: nat): (calls: seq<Call>)
    ensures |calls| == n && forall i :: 0 <= i < n ==> calls[i] == call
  {
    if n == 0 then [] else [call] + Repeat(call, n - 1)
  }

  function Plain(at: real): Call {
    Call(at, true, true, true)
  }

  // Open a window, use it up half a window later, and use up the next as soon
  // as it opens.
  function Spread(limit: int, window: real): seq<Call>
    requires limit >= 1
  {
    [Plain(0.0)] + Repeat(Plain(window / 2.0), limit - 1) + Repeat(Plain(window), limit)
  }

  lemma SpreadInOrder(limit: int, window: real)
    requires limit >= 1 && window > 0.0
    ensures InOrder(Spread(limit, window), 0.0)
  {
    forall i | 0 <= i < |Spread(limit, window)|
      ensures Spread(limit, window)[i].at == if i == 0 then 0.0 else if i < limit then window / 2.0 else window
    {
    }
  }

  // The call that finds no counter opens a window.
  lemma WindowOpens(c: Option<Counter>, at: real, limit: int, window: real)
    requires limit >= 1 && (c.None? || Expired(c, at))
    ensures AnswerOf(c, Plain(at), limit) == Approved
    ensures Counted(c, Plain(at), window) == Some(Counter(1, Some(at + window)))
  {
  }

  // n calls at one moment of a window with room for n are all approved.
  lemma {:induction false} BurstApproved(
    c: Counter, at: real, n: nat, limit: nat, window: real, from: real, rest: seq<Call>)
    requires c.expiresAt.Some? && at < c.expiresAt.value && c.count >= 1 && c.count + n <= limit
    requires from <= at < from + window
    ensures Approvals(Some(c), Repeat(Plain(at), n) + rest, limit, window, from, from + window)
         == n + Approvals(Some(c.(count := c.count + n)), rest, limit, window, from, from + window)
    decreases n
  {
    var calls := Repeat(Plain(at), n) + rest;
    if n == 0 {
      assert calls == rest;
    } else {
      assert calls[1..] == Repeat(Plain(at), n - 1) + rest;
      BurstApproved(c.(count := c.count + 1), at, n - 1, limit, window, from, rest);
    }
  }

  // n calls at the moment a window opens, no more than the limit, all pass.
  lemma FreshBurst(c: Option<Counter>, at: real, n: nat, limit: int, window: real, from: real, rest: seq<Call>)
    requires 1 <= n <= limit && window > 0.0 && from <= at < from + window && (c.None? || Expired(c, at))
    ensures Approvals(c, Repeat(Plain(at), n) + rest, limit, window, from, from + window)
         == n + Approvals(Some(Counter(n, Some(at + window))), rest, limit, window, from, from + window)
  {
    WindowOpens(c, at, limit, window);
    assert (Repeat(Plain(at), n) + rest)[1..] == Repeat(Plain(at), n - 1) + rest;
    BurstApproved(Counter(1, Some(at + window)), at, n - 1, limit, window, from, rest);
  }

  // What the spread gets once its first call has opened a window.
  lemma SpreadRest(limit: int, window: real, half: real)
    requires limit >= 1 && window > 0.0 && half == window / 2.0
    ensures Approvals(
              Some(Counter(1, Some(window))), Repeat(Plain(half), limit - 1) + Repeat(Plain(window), limit),
              limit, window, half, half + window)
         == 2 * limit - 1
  {
    var next := Repeat(Plain(window), limit);
    BurstApproved(Counter(1, Some(window)), half, limit - 1, limit, window, half, next);
    FreshBurst(Some(Counter(limit, Some(window))), window, limit, limit, window, half, []);
    assert next + [] == next;
  }

  // The bound is reached.
  lemma BoundIsTight(limit: int, window: real)
    requires limit >= 1 && window > 0.0
    ensures InOrder(Spread(limit, window), 0.0)
    ensures Approvals(None, Spread(limit, window), limit, window, window / 2.0, window / 2.0 + window) == 2 * limit - 1
  {
    SpreadInOrder(limit, window);
    var half := window / 2.0;
    assert Spread(limit, window)[1..] == Repeat(Plain(half), limit - 1) + Repeat(Plain(window), limit);
    WindowOpens(None, 0.0, limit, window);
    SpreadRest(limit, window, half);
  }

  // What a rolling window promises of an interval of its length.
  ghost predicate RollsOver(calls: seq<Call>, start: real, limit: int, window: real, from: real) {
    InOrder(calls, start) ==> Approvals(None, calls, limit, window, from, from + window) <= Max(0, limit)
  }

  ghost predicate Rolling(limit: int, window: real) {
    forall calls, start, from :: RollsOver(calls, start, limit, window, from)
  }

  // NOT ROLLING. The limiter keeps the promise of a rolling window exactly for
  // limits up to one.
  lemma RollingUpToOne(limit: int, window: real)
    requires window > 0.0
    ensures Rolling(limit, window) <==> limit <= 1
  {
    if limit <= 1 {
      forall calls, start, from
        ensures RollsOver(calls, start, limit, window, from)
      {
        if InOrder(calls, start) {
          WindowApprovals(calls, start, limit, window, from);
        }
      }
    } else {
      BoundIsTight(limit, window);
      assert !RollsOver(Spread(limit, window), 0.0, limit, window, window / 2.0);
    }
  }

  // Within the life of one counter at most `limit` calls are approved, and if
  // its expiry was never set, that life does not end.
  lemma {:induction false} LifetimeApprovals(
    c: Counter, calls: seq<Call>, limit: int, window: real, from: real, to: real)
    requires c.count >= 1
    requires forall i :: 0 <= i < |calls| ==> !Expired(Some(c), calls[i].at)
    ensures Approvals(Some(c), calls, limit, window, from, to) <= Left(c, limit)
    decreases |calls|
  {
    if calls == [] {
    } else {
      var d := Counted(Some(c), calls[0], window).value;
      assert d.expiresAt == c.expiresAt;
      forall i | 0 <= i < |calls[1..]|
        ensures !Expired(Some(d), calls[1..][i].at)
      {
        assert calls[1..][i] == calls[i + 1];
      }
      LifetimeApprovals(d, calls[1..], limit, window, from, to);
    }
  }

  lemma StuckWithoutExpiry(call: Call, calls: seq<Call>, limit: int, window: real, from: real, to: real)
    requires call.connected && call.incrOk && !call.expireOk
    ensures Approvals(None, [call] + calls, limit, window, from, to) <= Max(0, limit)
  {
    assert ([call] + calls)[1..] == calls;
    LifetimeApprovals(Counter(1, None), calls, limit, window, from, to);
  }

  // --------------------------------------------------------------- recovery

  // The counter that a sequence of calls leaves.
  function After(c: Option<Counter>, calls: seq<Call>, window: real): Option<Counter>
    decreases |calls|
  {
    if calls == [] then c else After(Counted(c, calls[0], window), calls[1..], window)
  }

  // How many of the calls Redis counted.
  function Hits(calls: seq<Call>): nat {
    if calls == [] then 0 else (if calls[0].connected && calls[0].incrOk then 1 else 0) + Hits(calls[1..])
  }

  // While a counter lives it counts every hit and keeps the expiry it has.
  lemma {:induction false} LivingCounter(c: Counter, calls: seq<Call>, window: real)
    requires c.count >= 1
    requires forall i :: 0 <= i < |calls| ==> !Expired(Some(c), calls[i].at)
    ensures After(Some(c), calls, window) == Some(Counter(c.count + Hits(calls), c.expiresAt))
    decreases |calls|
  {
    if calls == [] {
    } else {
      var d := Counted(Some(c), calls[0], window).value;
      assert forall i :: 0 <= i < |calls[1..]| ==> calls[1..][i] == calls[i + 1];
      LivingCounter(d, calls[1..], window);
    }
  }

  // The calls of one window: the first finds no counter and is counted, the
  // others are made before the window would end.
  ghost predicate OneWindow(first: Call, calls: seq<Call>, window: real) {
    && window > 0.0 && first.connected && first.incrOk
    && forall i :: 0 <= i < |calls| ==> calls[i].at < first.at + window
  }

  // RECOVERY. A key that was used up in a window answers a later call with
  // approval exactly if the call that opened the window set the expiry.
  lemma RecoversIfExpirySet(first: Call, calls: seq<Call>, probe: Call, limit: int, window: real)
    requires OneWindow(first, calls, window) && limit >= 1
    requires 1 + Hits(calls) >= limit
    requires probe.connected && probe.incrOk && probe.at >= first.at + window
    ensures AnswerOf(After(None, [first] + calls, window), probe, limit) == Approved <==> first.expireOk
  {
    var c := Counted(None, first, window).value;
    assert ([first] + calls)[1..] == calls;
    LivingCounter(c, calls, window);
  }

  // Without an expiry a key lets `limit` calls through in all, whenever they
  // come: a later call is approved exactly if fewer hits came before it.
  lemma StuckForGood(first: Call, calls: seq<Call>, probe: Call, limit: int, window: real)
    requires first.connected && first.incrOk && !first.expireOk
    requires probe.connected && probe.incrOk
    ensures AnswerOf(After(None, [first] + calls, window), probe, limit) == Approved <==> 1 + Hits(calls) < limit
  {
    assert ([first] + calls)[1..] == calls;
    LivingCounter(Counter(1, None), calls, window);
  }

  // --------------------------------------------------------------- outages

  // Redis was not reached, or the increment failed.
  predicate Outage(call: Call) {
    !call.connected || !call.incrOk
  }

  // FAILS OPEN. Every call during an outage is let through and leaves the
  // counter as it is; any other is judged by the count it makes.
  lemma OutagesPass(c: Option<Counter>, call: Call, limit: int, window: real)
    ensures Outage(call) ==> AnswerOf(c, call, limit) != Denied && Counted(c, call, window) == c
    ensures Outage(call) <==> AnswerOf(c, call, limit) == Unlimited || AnswerOf(c, call, limit) == Failed
    ensures !Outage(call) ==>
              var live := c.Some? && (c.value.expiresAt == None || call.at < c.value.expiresAt.value);
              var count := if live then c.value.count + 1 else 1;
              && (AnswerOf(c, call, limit) == Approved <==> count <= limit)
              && Counted(c, call, window).Some? && Counted(c, call, window).value.count == count
  {
  }

  // The calls let through in [from, to): approved or made during an outage.
  function LetThrough(c: Option<Counter>, calls: seq<Call>, limit: int, window: real, from: real, to: real): nat
    decreases |calls|
  {
    if calls == [] then 0
    else
      (if AnswerOf(c, calls[0], limit) != Denied && from <= calls[0].at < to then 1 else 0)
      + LetThrough(Counted(c, calls[0], window), calls[1..], limit, window, from, to)
  }

  function Outages(calls: seq<Call>, from: real, to: real): nat {
    if calls == [] then 0
    else (if Outage(calls[0]) && from <= calls[0].at < to then 1 else 0) + Outages(calls[1..], from, to)
  }

  // What gets through is what is approved and every call of an outage.
  lemma {:induction false} LetThroughIsApprovedOrOutage(
    c: Option<Counter>, calls: seq<Call>, limit: int, window: real, from: real, to: real)
    ensures LetThrough(c, calls, limit, window, from, to) ==
            Approvals(c, calls, limit, window, from, to) + Outages(calls, from, to)
    decreases |calls|
  {
    if calls == [] {
    } else {
      LetThroughIsApprovedOrOutage(Counted(c, calls[0], window), calls[1..], limit, window, from, to);
    }
  }

  // REAL BOUND. An interval as long as the window lets through at most
  // 2 * limit - 1 calls more than there were during outages.
  lemma WindowLetsThrough(calls: seq<Call>, start: real, limit: int, window: real, from: real)
    requires window >= 0.0 && InOrder(calls, start)
    ensures LetThrough(None, calls, limit, window, from, from + window)
         <= Max(0, 2 * limit - 1) + Outages(calls, from, from + window)
  {
    LetThroughIsApprovedOrOutage(None, calls, limit, window, from, from + window);
    WindowApprovals(calls, start, limit, window, from);
  }

  // ----------------------------------------------------------------- limiter

  class RateLimiter {
    var counters: map<string, Counter>

    constructor ()
      ensures counters == map[]
    {
      counters := map[];
    }

    function At(key: string): Option<Counter>
      reads this
    {
      if key in counters then Some(counters[key]) else None
    }

    // True to let the caller through. An unreachable Redis and a failed
    // increment both let it through: the limiter fails open.
    method Allow(key: string, limit: int, window: real, call: Call) returns (allowed: bool)
      modifies this
      ensures allowed <==> AnswerOf(old(At(key)), call, limit) != Denied
      ensures At(key) == Counted(old(At(key)), call, window)
      ensures forall other :: other != key ==> At(other) == old(At(other))
      ensures !call.connected || !call.incrOk ==> allowed && counters == old(counters)
      ensures call.connected && call.incrOk ==>
                var live := key in old(counters) &&
                  (old(counters)[key].expiresAt == None || call.at < old(counters)[key].expiresAt.value);
                var count := if live then old(counters)[key].count + 1 else 1;
                var expiresAt := if count == 1 && call.expireOk then Some(call.at + window)
                                 else if live then old(counters)[key].expiresAt else None;
                && (allowed <==> count <= limit)
                && counters == old(counters)[key := Counter(count, expiresAt)]
    {
      if !call.connected || !call.incrOk {
        return true;
      }
      var expired := Expired(At(key), call.at);
      if key !in counters || expired {
        counters := counters[key := Counter(1, None)];
      } else {
        counters := counters[key := counters[key].(count := counters[key].count + 1)];
      }
      var count := counters[key].count;
      if count == 1 && call.expireOk {
        counters := counters[key := counters[key].(expiresAt := Some(call.at + window))];
      }
      return count <= limit;
    }
  }
}
