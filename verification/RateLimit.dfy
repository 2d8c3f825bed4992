/** The fixed-window rate limiter: one counter with an expiry per key. */
module RateLimit {
  import opened Domain
  import opened RedisModel

  const RATE_LIMIT_WINDOW_SECONDS := 60

  datatype Decision = Decision(allowed: bool, retryAfterSeconds: Option<int>)

  /******* The counter of one key *******/

  /** `expireAt` is None for a counter that would never expire. */
  datatype Bucket = Empty | Bucket(count: int, expireAt: Option<nat>)

  predicate Open(b: Bucket, now: nat) {
    b.Bucket? && (b.expireAt.None? || now < b.expireAt.value)
  }

  /** The counter after one more request. A window starts when there is none, and a counter found
      without an expiry is given one. */
  function Hit(b: Bucket, now: nat, window: nat): (r: Bucket)
    ensures r.Bucket? && r.expireAt.Some?
  {
    if !Open(b, now) then Bucket(1, Some(now + window))
    else Bucket(b.count + 1, if b.count == 0 || b.expireAt.None? then Some(now + window) else b.expireAt)
  }

  /** Whole seconds until the window ends, as Redis reports them. */
  function Remaining(b: Bucket, now: nat): int
    requires b.Bucket? && b.expireAt.Some?
  {
    (b.expireAt.value - now + 500) / 1000
  }

  function Decide(b: Bucket, now: nat, limit: int): Decision
    requires b.Bucket? && b.expireAt.Some?
  {
    if b.count <= limit then Decision(true, None)
    else Decision(false, Some(if Remaining(b, now) > 1 then Remaining(b, now) else 1))
  }

  function BucketAt<D>(s: Store<D>, key: string): Bucket {
    if key in s && s[key].value.Number? then Bucket(s[key].value.n, s[key].expireAt) else Empty
  }

  /** A key holds a counter or nothing. */
  predicate Countable<D>(s: Store<D>, key: string, now: nat) {
    Live(s, key, now) ==> s[key].value.Number?
  }

  /******* The script and its caller *******/

  /** The Lua script, statement by statement. It fails on a key that holds no number. */
  method FixedWindowScript<D>(redis: Redis<D>, key: string, windowSeconds: nat, now: nat)
    returns (reply: Option<(int, int)>)
    requires windowSeconds > 0
    modifies redis
    ensures !Countable(old(redis.cells), key, now) ==> reply.None? && redis.cells == old(redis.cells)
    ensures Countable(old(redis.cells), key, now) ==>
      var b := Hit(BucketAt(old(redis.cells), key), now, windowSeconds * 1000);
      && reply == Some((b.count, Remaining(b, now)))
      && (Healthy(BucketAt(redis.cells, key), now, windowSeconds * 1000) <==>
            !BeyondRepair(BucketAt(old(redis.cells), key), now, windowSeconds * 1000))
      && redis.cells == old(redis.cells)[key := Cell(Number(b.count), b.expireAt)]
  {
    var incremented := redis.Incr(key, now);
    if incremented.None? {
      return None;
    }
    var count := incremented.value;
    if count == 1 {
      redis.Expire(key, now, windowSeconds * 1000);
    }
    var ttl := redis.Ttl(key, now);
    if ttl < 0 {
      redis.Expire(key, now, windowSeconds * 1000);
      ttl := windowSeconds;
    }
    reply := Some((count, ttl));
  }

  /** Consumes one unit of quota; any failure lets the request pass. */
  method ConsumeRateLimit<D>(redis: Redis<D>, key: string, limit: int, windowSeconds: nat, now: nat, fate: Fate)
    returns (decision: Decision)
    requires windowSeconds > 0
    modifies redis
    ensures fate.Refused? || !Countable(old(redis.cells), key, now) ==>
      decision == Decision(true, None) && redis.cells == old(redis.cells)
    ensures !fate.Refused? && Countable(old(redis.cells), key, now) ==>
      var b := Hit(BucketAt(old(redis.cells), key), now, windowSeconds * 1000);
      && BucketAt(redis.cells, key) == b
      && (forall k :: k != key ==> (k in redis.cells <==> k in old(redis.cells)))
      && (forall k :: k != key && k in redis.cells ==> redis.cells[k] == old(redis.cells)[k])
      && decision == if fate.Answered? then Decide(b, now, limit) else Decision(true, None)
  {
    if fate.Refused? {
      return Decision(true, None);
    }
    var reply := FixedWindowScript(redis, key, windowSeconds, now);
    if fate.ReplyLost? || reply.None? {
      return Decision(true, None);
    }
    var (count, ttl) := reply.value;
    if count <= limit {
      return Decision(true, None);
    }
    decision := Decision(false, Some(if ttl > 1 then ttl else 1));
  }

  /******* Requests on one key over time *******/

  datatype Call = Call(at: nat, fate: Fate)

  ghost predicate InOrder(calls: seq<Call>, start: nat) {
    && (forall i :: 0 <= i < |calls| ==> start <= calls[i].at)
    && (forall i, j :: 0 <= i < j < |calls| ==> calls[i].at <= calls[j].at)
  }

  function After(b: Bucket, c: Call, window: nat): Bucket {
    if c.fate.Refused? then b else Hit(b, c.at, window)
  }

  /** Redis answered and the request was let through. */
  predicate Admitted(b: Bucket, c: Call, limit: nat, window: nat) {
    c.fate.Answered? && Decide(Hit(b, c.at, window), c.at, limit).allowed
  }

  /** How many answered requests of a trace are admitted at times in [from, to). */
  function CountAdmitted(b: Bucket, calls: seq<Call>, limit: nat, window: nat, from: nat, to: nat): nat
    decreases |calls|
  {
    if calls == [] then 0
    else
      (if from <= calls[0].at < to && Admitted(b, calls[0], limit, window) then 1 else 0)
      + CountAdmitted(After(b, calls[0], window), calls[1..], limit, window, from, to)
  }

  /** The number of windows that can begin within `span`. */
  function Windows(span: int, window: nat): nat
    requires window > 0
    decreases if span > 0 then span else 0
  {
    if span <= 0 then 0 else 1 + Windows(span - window, window)
  }

  /** It is the ceiling of span / window. */
  lemma {:induction false} WindowsIsCeiling(span: nat, window: nat)
    requires window > 0
    ensures Windows(span, window) * window >= span
    ensures span > 0 ==> (Windows(span, window) - 1) * window < span
    decreases span
  {
    if span > window {
      WindowsIsCeiling(span - window, window);
      var n := Windows(span - window, window);
      assert (n + 1) * window == n * window + window && (n - 1) * window == n * window - window;
    } else if span > 0 {
      assert Windows(span - window, window) == 0;
      assert Windows(span, window) == 1;
    }
  }

  lemma {:induction false} WindowsMonotone(small: int, large: int, window: nat)
    requires window > 0 && small <= large
    ensures Windows(small, window) <= Windows(large, window)
    decreases if large > 0 then large else 0
  {
    if small > 0 {
      WindowsMonotone(small - window, large - window, window);
    }
  }

  /** The next request continues a window that is under way. */
  predicate UnderWay(b: Bucket, now: nat) {
    Open(b, now) && b.count > 0 && b.expireAt.Some?
  }

  /** How far a counter is below zero: as many requests pass before a window even begins. */
  function Debt(b: Bucket): nat {
    if b.Bucket? && b.count < 0 then -b.count else 0
  }

  /** How many windows can still begin before `to`. */
  function WindowsLeft(b: Bucket, now: nat, to: nat, window: nat): nat
    requires window > 0
  {
    Windows(if UnderWay(b, now) then to - b.expireAt.value else to - now, window)
  }

  function QuotaLeft(b: Bucket, now: nat, limit: nat): nat {
    if UnderWay(b, now) && b.count <= limit then limit - b.count else 0
  }

  lemma LeftShrinks(b: Bucket, now: nat, later: nat, to: nat, limit: nat, window: nat)
    requires window > 0 && now <= later
    ensures QuotaLeft(b, later, limit) <= QuotaLeft(b, now, limit)
    ensures WindowsLeft(b, later, to, window) <= WindowsLeft(b, now, to, window)
  {
    if !UnderWay(b, later) {
      WindowsMonotone(to - later, if UnderWay(b, now) then to - b.expireAt.value else to - now, window);
    }
  }

  lemma HitUsesQuota(b: Bucket, now: nat, to: nat, limit: nat, window: nat)
    requires window > 0 && now < to
    ensures var r := Hit(b, now, window);
      && (if r.count <= limit then 1 else 0) + Debt(r) + QuotaLeft(r, now, limit)
           + limit * WindowsLeft(r, now, to, window)
         <= Debt(b) + QuotaLeft(b, now, limit) + limit * WindowsLeft(b, now, to, window)
  {
    if !UnderWay(b, now) {
      assert limit * Windows(to - now, window) == limit + limit * Windows(to - now - window, window);
    }
  }

  lemma Times(limit: nat, few: nat, many: nat)
    requires few <= many
    ensures limit * few <= limit * many && limit * (many + 1) == limit * many + limit
  {
  }

  lemma {:induction false} AdmittedWithin(b: Bucket, calls: seq<Call>, limit: nat, window: nat,
                                          from: nat, now: nat, to: nat)
    requires window > 0 && from <= now && InOrder(calls, now)
    ensures CountAdmitted(b, calls, limit, window, from, to)
         <= Debt(b) + QuotaLeft(b, now, limit) + limit * WindowsLeft(b, now, to, window)
    decreases |calls|
  {
    if calls != [] {
      var c := calls[0];
      LeftShrinks(b, now, c.at, to, limit, window);
      Times(limit, WindowsLeft(b, c.at, to, window), WindowsLeft(b, now, to, window));
      AdmittedWithin(After(b, c, window), calls[1..], limit, window, from, c.at, to);
      if c.at < to {
        HitUsesQuota(b, c.at, to, limit, window);
      } else {
        NoneAdmittedLate(After(b, c, window), calls[1..], limit, window, from, to);
      }
    }
  }

  lemma {:induction false} NoneAdmittedLate(b: Bucket, calls: seq<Call>, limit: nat, window: nat, from: nat, to: nat)
    requires InOrder(calls, to)
    ensures CountAdmitted(b, calls, limit, window, from, to) == 0
    decreases |calls|
  {
    if calls != [] {
      NoneAdmittedLate(After(b, calls[0], window), calls[1..], limit, window, from, to);
    }
  }

  /** Over any trace, whatever was there before and whichever calls failed, the answered requests
      admitted in [from, from + span) are at most limit * (ceil(span / window) + 1), and as many more
      as the first counter is below zero. */
  lemma {:induction false} RateBound(b: Bucket, calls: seq<Call>, limit: nat, window: nat, from: nat, span: nat)
    requires window > 0 && InOrder(calls, 0)
    ensures CountAdmitted(b, calls, limit, window, from, from + span) <= Debt(b) + limit * (Windows(span, window) + 1)
    decreases |calls|
  {
    var to := from + span;
    if calls == [] {
    } else if calls[0].at < from {
      RateBound(After(b, calls[0], window), calls[1..], limit, window, from, span);
    } else {
      AdmittedWithin(b, calls, limit, window, from, from, to);
      WindowsMonotone(if UnderWay(b, from) then to - b.expireAt.value else to - from, span, window);
      Times(limit, WindowsLeft(b, from, to, window), Windows(span, window));
    }
  }

  /** No interval as long as a window sees more than twice the limit. */
  lemma TwiceTheLimit(b: Bucket, calls: seq<Call>, limit: nat, window: nat, from: nat)
    requires window > 0 && InOrder(calls, 0)
    ensures CountAdmitted(b, calls, limit, window, from, from + window) <= Debt(b) + 2 * limit
    ensures Debt(b) == 0 <==> (b.Bucket? ==> b.count >= 0)
  {
    RateBound(b, calls, limit, window, from, window);
    assert Windows(window, window) == 1 + Windows(0, window);
  }

  /******* The counter implements fixed windows *******/

  ghost predicate Ascending(times: seq<nat>) {
    forall i, j :: 0 <= i < j < |times| ==> times[i] <= times[j]
  }

  /** Where the window of request `k` begins: a request outside the previous window begins one. */
  function WindowStart(times: seq<nat>, k: nat, window: nat): nat
    requires k < |times|
  {
    if k == 0 then times[0]
    else
      var s := WindowStart(times, k - 1, window);
      if times[k] < s + window then s else times[k]
  }

  /** How many of the requests up to `k` came at or after `start`. */
  function CountSince(times: seq<nat>, k: nat, start: nat): nat
    requires k < |times|
  {
    (if times[k] >= start then 1 else 0) + if k == 0 then 0 else CountSince(times, k - 1, start)
  }

  function BucketAfter(times: seq<nat>, k: nat, window: nat): Bucket
    requires k < |times|
  {
    Hit(if k == 0 then Empty else BucketAfter(times, k - 1, window), times[k], window)
  }

  lemma {:induction false} NoneSince(times: seq<nat>, k: nat, start: nat)
    requires k < |times| && Ascending(times) && times[k] < start
    ensures CountSince(times, k, start) == 0
  {
    if k > 0 { NoneSince(times, k - 1, start); }
  }

  lemma {:induction false} StartBeforeTime(times: seq<nat>, k: nat, window: nat)
    requires k < |times| && Ascending(times) && window > 0
    ensures WindowStart(times, k, window) <= times[k] < WindowStart(times, k, window) + window
  {
    if k > 0 { StartBeforeTime(times, k - 1, window); }
  }

  /** After any requests on a fresh key the counter holds the number of requests in the current
      window and expires at its end; so a request is let through exactly when it is among the first
      `limit` of its window, and windows do not overlap. */
  lemma {:induction false} CountsTheWindow(times: seq<nat>, k: nat, limit: nat, window: nat)
    requires k < |times| && Ascending(times) && window > 0
    ensures var start := WindowStart(times, k, window);
      && BucketAfter(times, k, window) == Bucket(CountSince(times, k, start), Some(start + window))
      && (Decide(BucketAfter(times, k, window), times[k], limit).allowed <==> CountSince(times, k, start) <= limit)
      && (k > 0 ==> start == WindowStart(times, k - 1, window) || WindowStart(times, k - 1, window) + window <= start)
  {
    if k > 0 {
      CountsTheWindow(times, k - 1, limit, window);
      StartBeforeTime(times, k - 1, window);
      var s := WindowStart(times, k - 1, window);
      if times[k] < s + window {
        assert CountSince(times, k - 1, s) >= 1;
      } else {
        NoneSince(times, k - 1, times[k]);
      }
    }
  }

  function RunCalls(b: Bucket, calls: seq<Call>, window: nat): Bucket
    decreases |calls|
  {
    if calls == [] then b else RunCalls(After(b, calls[0], window), calls[1..], window)
  }

  /** The times of the calls that Redis executed, answered or not. */
  function Executed(calls: seq<Call>): seq<nat> {
    if calls == [] then []
    else (if calls[0].fate.Refused? then [] else [calls[0].at]) + Executed(calls[1..])
  }

  lemma {:induction false} ExecutedAscend(calls: seq<Call>, start: nat)
    requires InOrder(calls, start)
    ensures Ascending(Executed(calls)) && forall i :: 0 <= i < |Executed(calls)| ==> start <= Executed(calls)[i]
    decreases |calls|
  {
    if calls != [] { ExecutedAscend(calls[1..], calls[0].at); }
  }

  /** The counter after the first `k` executed calls, and then after the rest of the trace. */
  lemma {:induction false} OnlyExecutedCount(times: seq<nat>, k: nat, calls: seq<Call>, window: nat)
    requires k <= |times| && times[k..] == Executed(calls)
    ensures var b := if k == 0 then Empty else BucketAfter(times, k - 1, window);
      RunCalls(b, calls, window) == if times == [] then Empty else BucketAfter(times, |times| - 1, window)
    decreases |calls|
  {
    if calls == [] {
      assert k == |times|;
    } else if calls[0].fate.Refused? {
      assert Executed(calls) == Executed(calls[1..]);
      OnlyExecutedCount(times, k, calls[1..], window);
    } else {
      assert times[k] == times[k..][0] == calls[0].at;
      assert times[k + 1..] == times[k..][1..] == Executed(calls[1..]);
      OnlyExecutedCount(times, k + 1, calls[1..], window);
    }
  }

  /** The same for any trace, lost replies and refused calls included: the counter holds the number of
      executed calls in the window of the last of them, and an answered call is let through exactly
      when it is among the first `limit`. */
  lemma TracesCountTheWindow(calls: seq<Call>, limit: nat, window: nat)
    requires window > 0 && InOrder(calls, 0)
    ensures var times := Executed(calls);
      if times == [] then RunCalls(Empty, calls, window) == Empty
      else
        var last := |times| - 1;
        var start := WindowStart(times, last, window);
        && RunCalls(Empty, calls, window) == Bucket(CountSince(times, last, start), Some(start + window))
        && (Decide(RunCalls(Empty, calls, window), times[last], limit).allowed <==>
              CountSince(times, last, start) <= limit)
  {
    var times := Executed(calls);
    ExecutedAscend(calls, 0);
    OnlyExecutedCount(times, 0, calls, window);
    if times != [] { CountsTheWindow(times, |times| - 1, limit, window); }
  }

  /******* Recovery and progress *******/

  /** The script's second branch would have to repair a counter without expiry. */
  predicate NeedsRepair(b: Bucket, now: nat) {
    Open(b, now) && b.expireAt.None? && b.count + 1 != 1
  }

  predicate Healthy(b: Bucket, now: nat, window: nat) {
    b.Bucket? ==> b.count >= 1 && b.expireAt.Some? && b.expireAt.value <= now + window
  }

  /** From a healthy counter, in particular from none, no run ever needs the repair branch. */
  lemma {:induction false} NeverNeedsRepair(b: Bucket, calls: seq<Call>, start: nat, window: nat, now: nat)
    requires window > 0 && Healthy(b, start, window) && InOrder(calls, start)
    requires forall i :: 0 <= i < |calls| ==> calls[i].at <= now
    requires start <= now
    ensures Healthy(RunCalls(b, calls, window), now, window) && !NeedsRepair(RunCalls(b, calls, window), now)
    decreases |calls|
  {
    if calls != [] {
      NeverNeedsRepair(After(b, calls[0], window), calls[1..], calls[0].at, window, now);
    }
  }

  /** What one executed call cannot put right is a counter that is below zero, or that counts but
      expires later than one window from now. */
  predicate BeyondRepair(b: Bucket, now: nat, window: nat) {
    Open(b, now) && (b.count < 0 || (b.count > 0 && b.expireAt.Some? && b.expireAt.value > now + window))
  }

  /** Recovery. One executed call makes a counter healthy exactly when it was not beyond repair; then
      it stays healthy over every further trace and the repair branch is not needed again. */
  lemma OneCallHeals(b: Bucket, calls: seq<Call>, start: nat, window: nat, now: nat)
    requires window > 0 && InOrder(calls, start) && start <= now
    requires forall i :: 0 <= i < |calls| ==> calls[i].at <= now
    ensures Healthy(Hit(b, start, window), start, window) <==> !BeyondRepair(b, start, window)
    ensures Hit(b, start, window).expireAt.value <= start + window <==>
      !(Open(b, start) && b.count != 0 && b.expireAt.Some? && b.expireAt.value > start + window)
    ensures !BeyondRepair(b, start, window) ==>
      var r := RunCalls(Hit(b, start, window), calls, window);
      Healthy(r, now, window) && !NeedsRepair(r, now)
  {
    if !BeyondRepair(b, start, window) {
      NeverNeedsRepair(Hit(b, start, window), calls, start, window, now);
    }
  }

  /** Requests made before the window ends, however many, leave its end where it is. */
  lemma {:induction false} RejectionsDoNotExtend(b: Bucket, calls: seq<Call>, start: nat, window: nat)
    requires b.Bucket? && b.count >= 1 && b.expireAt.Some? && InOrder(calls, start)
    requires forall i :: 0 <= i < |calls| ==> calls[i].at < b.expireAt.value
    ensures var r := RunCalls(b, calls, window); r.Bucket? && r.count >= b.count && r.expireAt == b.expireAt
    decreases |calls|
  {
    if calls != [] {
      RejectionsDoNotExtend(After(b, calls[0], window), calls[1..], calls[0].at, window);
    }
  }

  /** A rejected caller who returns once the window is over is let through, whatever other calls
      failed to get through before that. */
  lemma AdmittedAfterWindow(b: Bucket, calls: seq<Call>, start: nat, window: nat, limit: nat, back: nat)
    requires b.Bucket? && b.count >= 1 && b.expireAt.Some? && InOrder(calls, start)
    requires forall i :: 0 <= i < |calls| ==> calls[i].at < b.expireAt.value
    requires b.expireAt.value <= back && limit >= 1
    ensures Decide(Hit(RunCalls(b, calls, window), back, window), back, limit) == Decision(true, None)
  {
    RejectionsDoNotExtend(b, calls, start, window);
  }

  /** A request is let through exactly up to the limit; a rejected one is told the time left to the
      nearest second, and at least one: never longer than the time left rounded up. */
  lemma RetryAfterIsTimeLeft(b: Bucket, now: nat, limit: int)
    requires b.Bucket? && b.expireAt.Some? && now < b.expireAt.value
    ensures var (d, left) := (Decide(b, now, limit), b.expireAt.value - now);
      && (d.allowed <==> b.count <= limit) && (d.allowed <==> d.retryAfterSeconds.None?)
      && (!d.allowed ==>
            var r := d.retryAfterSeconds.value;
            && r >= 1 && 1000 * (r - 1) < left && (r > 1 ==> -500 <= left - 1000 * r < 500)
            && (r == 1 ==> left < 1500))
  {
  }

  /** More than one second is left and TTL rounds it down. */
  predicate RoundedDown(left: nat) {
    left > 1000 && 0 < left % 1000 < 500
  }

  lemma WaitOutlastsWindow(b: Bucket, now: nat, limit: int)
    requires b.Bucket? && b.expireAt.Some? && now < b.expireAt.value && b.count > limit
    ensures now + 1000 * Decide(b, now, limit).retryAfterSeconds.value >= b.expireAt.value <==>
      !RoundedDown(b.expireAt.value - now)
  {
    var left := b.expireAt.value - now;
    assert left == 1000 * (left / 1000) + left % 1000;
    assert (left + 500) / 1000 == if left % 1000 < 500 then left / 1000 else left / 1000 + 1;
  }

  /** A caller rejected at `now` who waits just as long as Retry-After says is let through if and only
      if the remaining time was not rounded down, whatever calls came in before the window's end. */
  lemma RetryAfterSuffices(b: Bucket, now: nat, calls: seq<Call>, limit: nat, window: nat)
    requires b.Bucket? && b.expireAt.Some? && now < b.expireAt.value && b.count > limit >= 1 && InOrder(calls, now)
    requires forall i :: 0 <= i < |calls| ==> calls[i].at < b.expireAt.value
    ensures var back := now + 1000 * Decide(b, now, limit).retryAfterSeconds.value;
      Decide(Hit(RunCalls(b, calls, window), back, window), back, limit).allowed <==>
        !RoundedDown(b.expireAt.value - now)
  {
    WaitOutlastsWindow(b, now, limit);
    RejectionsDoNotExtend(b, calls, now, window);
  }

  /** It does happen: a fresh key, a limit of one and a window of a minute. The second call comes 1.4 s
      before the window ends and is told to wait one second; after that second it is rejected again. */
  lemma RetryAfterMayFallShort()
    ensures var window := 1000 * RATE_LIMIT_WINDOW_SECONDS;
      var first := Hit(Empty, 0, window);
      var second := Hit(first, 58600, window);
      && Decide(first, 0, 1).allowed
      && Decide(second, 58600, 1) == Decision(false, Some(1))
      && !Decide(Hit(second, 59600, window), 59600, 1).allowed
  {
  }
}
