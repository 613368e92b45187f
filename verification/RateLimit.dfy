/** The in-memory fixed-window limiter. Times and windows are milliseconds. */
module RateLimit {
  import opened Sums

  datatype Bucket = Bucket(count: int, resetAt: int)

  type Buckets = map<string, Bucket>

  function Allow(buckets: Buckets, key: string, limit: int, windowMs: int, now: int): (Buckets, bool) {
    if key !in buckets || buckets[key].resetAt <= now then (buckets[key := Bucket(1, now + windowMs)], true)
    else if buckets[key].count >= limit then (buckets, false)
    else (buckets[key := buckets[key].(count := buckets[key].count + 1)], true)
  }

  class Limiter {
    var buckets: Buckets

    constructor ()
      ensures buckets == map[]
    {
      buckets := map[];
    }

    method RateLimit(key: string, limit: int, windowMs: int, now: int) returns (allowed: bool)
      modifies this
      ensures (buckets, allowed) == Allow(old(buckets), key, limit, windowMs, now)
    {
      if key !in buckets || buckets[key].resetAt <= now {
        buckets := buckets[key := Bucket(1, now + windowMs)];
        return true;
      }
      var current := buckets[key];
      if current.count >= limit {
        return false;
      }
      buckets := buckets[key := current.(count := current.count + 1)];
      return true;
    }
  }

  datatype Call = Call(key: string, limit: int, windowMs: int, now: int)

  /** The limiter after some calls, and the times at which calls for one key were accepted. */
  datatype Trace = Trace(buckets: Buckets, accepted: seq<int>)

  function Next(t: Trace, call: Call, key: string): Trace {
    var (buckets, allowed) := Allow(t.buckets, call.key, call.limit, call.windowMs, call.now);
    Trace(buckets, if allowed && call.key == key then t.accepted + [call.now] else t.accepted)
  }

  function Run(calls: seq<Call>, key: string): Trace {
    if calls == [] then Trace(map[], [])
    else Next(Run(calls[..|calls| - 1], key), calls[|calls| - 1], key)
  }

  /** The clock never goes back, and `key` is always asked with the same limit and window. */
  ghost predicate Timed(calls: seq<Call>, key: string, limit: int, windowMs: int) {
    && (forall i, j :: 0 <= i < j < |calls| ==> calls[i].now <= calls[j].now)
    && (forall i :: 0 <= i < |calls| && calls[i].key == key ==>
          calls[i].limit == limit && calls[i].windowMs == windowMs)
  }

  function CountIn(times: seq<int>, from: int, to: int): nat {
    Count(times, (t: int) => from <= t < to)
  }

  lemma CountInAppend(times: seq<int>, x: int, from: int, to: int)
    ensures CountIn(times + [x], from, to) == CountIn(times, from, to) + (if from <= x < to then 1 else 0)
  {
    CountAppend(times, x, (t: int) => from <= t < to);
  }

  lemma {:induction false} CountInSplit(times: seq<int>, from: int, middle: int, to: int)
    requires from <= middle <= to
    ensures CountIn(times, from, to) == CountIn(times, from, middle) + CountIn(times, middle, to)
  {
    if times != [] {
      CountInSplit(times[1..], from, middle, to);
    }
  }

  lemma {:induction false} CountInWider(times: seq<int>, from: int, to: int, wideFrom: int, wideTo: int)
    requires wideFrom <= from && to <= wideTo
    ensures CountIn(times, from, to) <= CountIn(times, wideFrom, wideTo)
  {
    if times != [] {
      CountInWider(times[1..], from, to, wideFrom, wideTo);
    }
  }

  lemma {:induction false} CountInEmpty(times: seq<int>, from: int, to: int)
    requires forall i :: 0 <= i < |times| ==> !(from <= times[i] < to)
    ensures CountIn(times, from, to) == 0
  {
    if times != [] {
      CountInEmpty(times[1..], from, to);
    }
  }

  /** The first call of a window is accepted whatever the limit says, so at least one call is. */
  function Quota(limit: int): int {
    if limit < 1 then 1 else limit
  }

  /**
   * The open window of `key` starts where its bucket was created. Its count is exactly the
   * calls accepted since, and the window before it leaves at most Quota - 1 accepted calls in
   * the last windowMs before its start, not counting the far end.
   */
  ghost predicate WindowInvariant(t: Trace, key: string, limit: int, windowMs: int, now: int) {
    && (forall i :: 0 <= i < |t.accepted| ==> t.accepted[i] <= now)
    && (key !in t.buckets ==> t.accepted == [])
    && (key in t.buckets ==>
          var bucket := t.buckets[key];
          var start := bucket.resetAt - windowMs;
          && start <= now
          && (forall i :: 0 <= i < |t.accepted| ==> t.accepted[i] < bucket.resetAt)
          && 1 <= bucket.count <= Quota(limit)
          && CountIn(t.accepted, start, now + 1) == bucket.count
          && CountIn(t.accepted, start + 1, now + 1) <= bucket.count - 1
          && CountIn(t.accepted, start - windowMs + 1, start) <= Quota(limit) - 1)
  }

  lemma LaterKeepsInvariant(t: Trace, key: string, limit: int, windowMs: int, now: int, later: int)
    requires WindowInvariant(t, key, limit, windowMs, now) && now <= later
    ensures WindowInvariant(t, key, limit, windowMs, later)
  {
    if key in t.buckets {
      var start := t.buckets[key].resetAt - windowMs;
      CountInSplit(t.accepted, start, now + 1, later + 1);
      CountInEmpty(t.accepted, now + 1, later + 1);
      if start + 1 <= now + 1 {
        CountInSplit(t.accepted, start + 1, now + 1, later + 1);
      }
    }
  }

  lemma FirstCallKeepsInvariant(t: Trace, after: Trace, key: string, limit: int, windowMs: int, now: int)
    requires windowMs >= 1 && WindowInvariant(t, key, limit, windowMs, now) && key !in t.buckets
    requires key in after.buckets && after.buckets[key] == Bucket(1, now + windowMs) && after.accepted == t.accepted + [now]
    ensures WindowInvariant(after, key, limit, windowMs, now)
  {
    CountInAppend(t.accepted, now, now, now + 1);
    CountInAppend(t.accepted, now, now + 1, now + 1);
    CountInAppend(t.accepted, now, now - windowMs + 1, now);
    CountInEmpty(t.accepted, now, now + 1);
    CountInEmpty(t.accepted, now + 1, now + 1);
    CountInEmpty(t.accepted, now - windowMs + 1, now);
  }

  lemma ReopeningKeepsInvariant(t: Trace, after: Trace, key: string, limit: int, windowMs: int, now: int)
    requires windowMs >= 1 && WindowInvariant(t, key, limit, windowMs, now)
    requires key in t.buckets && t.buckets[key].resetAt <= now
    requires key in after.buckets && after.buckets[key] == Bucket(1, now + windowMs) && after.accepted == t.accepted + [now]
    ensures WindowInvariant(after, key, limit, windowMs, now)
  {
    CountInAppend(t.accepted, now, now, now + 1);
    CountInAppend(t.accepted, now, now + 1, now + 1);
    CountInAppend(t.accepted, now, now - windowMs + 1, now);
    CountInEmpty(t.accepted, now, now + 1);
    CountInEmpty(t.accepted, now + 1, now + 1);
    CountInWider(t.accepted, now - windowMs + 1, now, t.buckets[key].resetAt - windowMs + 1, now + 1);
  }

  lemma CountedCallKeepsInvariant(t: Trace, after: Trace, key: string, limit: int, windowMs: int, now: int)
    requires windowMs >= 1 && WindowInvariant(t, key, limit, windowMs, now)
    requires key in t.buckets && now < t.buckets[key].resetAt && t.buckets[key].count < limit
    requires key in after.buckets && after.accepted == t.accepted + [now]
    requires after.buckets[key] == Bucket(t.buckets[key].count + 1, t.buckets[key].resetAt)
    ensures WindowInvariant(after, key, limit, windowMs, now)
  {
    var start := t.buckets[key].resetAt - windowMs;
    CountInAppend(t.accepted, now, start, now + 1);
    CountInAppend(t.accepted, now, start + 1, now + 1);
    CountInAppend(t.accepted, now, start - windowMs + 1, start);
  }

  lemma CallKeepsInvariant(t: Trace, call: Call, key: string, limit: int, windowMs: int)
    requires windowMs >= 1
    requires WindowInvariant(t, key, limit, windowMs, call.now)
    requires call.key == key ==> call.limit == limit && call.windowMs == windowMs
    ensures WindowInvariant(Next(t, call, key), key, limit, windowMs, call.now)
  {
    var after := Next(t, call, key);
    if after.accepted != t.accepted {
      if key !in t.buckets {
        FirstCallKeepsInvariant(t, after, key, limit, windowMs, call.now);
      } else if t.buckets[key].resetAt <= call.now {
        ReopeningKeepsInvariant(t, after, key, limit, windowMs, call.now);
      } else {
        CountedCallKeepsInvariant(t, after, key, limit, windowMs, call.now);
      }
    }
  }

  lemma {:induction false} RunKeepsInvariant(calls: seq<Call>, key: string, limit: int, windowMs: int, now: int)
    requires windowMs >= 1 && Timed(calls, key, limit, windowMs)
    requires forall i :: 0 <= i < |calls| ==> calls[i].now <= now
    ensures WindowInvariant(Run(calls, key), key, limit, windowMs, now)
  {
    if calls != [] {
      var last := calls[|calls| - 1];
      RunKeepsInvariant(calls[..|calls| - 1], key, limit, windowMs, last.now);
      CallKeepsInvariant(Run(calls[..|calls| - 1], key), last, key, limit, windowMs);
      LaterKeepsInvariant(Run(calls, key), key, limit, windowMs, last.now, now);
    }
  }

  /**
   * In any run with a fixed limit and window, whatever happens for other keys, every half-open
   * interval of one window length sees at most 2 * Quota(limit) - 1 accepted calls.
   */
  lemma {:induction false} IntervalBound(calls: seq<Call>, key: string, limit: int, windowMs: int, from: int)
    requires Timed(calls, key, limit, windowMs)
    ensures CountIn(Run(calls, key).accepted, from, from + windowMs) <= 2 * Quota(limit) - 1
  {
    if windowMs < 1 {
      CountInEmpty(Run(calls, key).accepted, from, from + windowMs);
    } else if calls != [] {
      var last := calls[|calls| - 1];
      var before, after := Run(calls[..|calls| - 1], key), Run(calls, key);
      IntervalBound(calls[..|calls| - 1], key, limit, windowMs, from);
      RunKeepsInvariant(calls, key, limit, windowMs, last.now);
      CountInAppend(before.accepted, last.now, from, from + windowMs);
      if after.accepted != before.accepted && from <= last.now < from + windowMs {
        NewestIntervalBound(after, key, limit, windowMs, last.now, from);
      }
    }
  }

  /** An interval that holds the newest call meets the open window and the end of the previous one. */
  lemma NewestIntervalBound(t: Trace, key: string, limit: int, windowMs: int, now: int, from: int)
    requires windowMs >= 1 && WindowInvariant(t, key, limit, windowMs, now) && key in t.buckets
    requires from <= now < from + windowMs
    ensures CountIn(t.accepted, from, from + windowMs) <= 2 * Quota(limit) - 1
  {
    var start := t.buckets[key].resetAt - windowMs;
    CountInSplit(t.accepted, from, now + 1, from + windowMs);
    CountInEmpty(t.accepted, now + 1, from + windowMs);
    if from < start {
      CountInSplit(t.accepted, from, start, now + 1);
      CountInWider(t.accepted, from, start, start - windowMs + 1, start);
    } else {
      CountInWider(t.accepted, from, now + 1, start, now + 1);
    }
  }

  /**
   * Within the open window at most Quota(limit) calls are accepted, and a call is refused exactly
   * when the window is still open and already holds that many.
   */
  lemma WindowAcceptsQuota(calls: seq<Call>, call: Call, key: string, limit: int, windowMs: int)
    requires windowMs >= 1 && Timed(calls + [call], key, limit, windowMs) && call.key == key
    ensures
      var t := Run(calls, key);
      var allowed := Allow(t.buckets, key, limit, windowMs, call.now).1;
      var open := key in t.buckets && call.now < t.buckets[key].resetAt;
      && (open ==> var start := t.buckets[key].resetAt - windowMs;
            CountIn(t.accepted, start, start + windowMs) <= Quota(limit))
      && (!allowed <==> open && var start := t.buckets[key].resetAt - windowMs;
            CountIn(t.accepted, start, start + windowMs) == Quota(limit))
  {
    var t := Run(calls, key);
    forall i, j | 0 <= i < j < |calls|
      ensures calls[i].now <= calls[j].now
    {
      assert (calls + [call])[i] == calls[i] && (calls + [call])[j] == calls[j];
    }
    forall i | 0 <= i < |calls|
      ensures calls[i].now <= call.now && (calls[i].key == key ==> calls[i].limit == limit && calls[i].windowMs == windowMs)
    {
      assert (calls + [call])[i] == calls[i] && (calls + [call])[|calls|] == call;
    }
    assert (calls + [call])[|calls|] == call;
    RunKeepsInvariant(calls, key, limit, windowMs, call.now);
    if key in t.buckets && call.now < t.buckets[key].resetAt {
      var start := t.buckets[key].resetAt - windowMs;
      CountInSplit(t.accepted, start, call.now + 1, start + windowMs);
      CountInEmpty(t.accepted, call.now + 1, start + windowMs);
    }
  }

  function Repeat(call: Call, n: nat): seq<Call> {
    seq(n, _ => call)
  }

  lemma RepeatOnce(calls: seq<Call>, call: Call, n: nat)
    requires n > 0
    ensures calls + Repeat(call, n) == calls + Repeat(call, n - 1) + [call]
  {
    assert Repeat(call, n) == Repeat(call, n - 1) + [call];
  }

  lemma RunAppend(calls: seq<Call>, call: Call, key: string)
    ensures Run(calls + [call], key) == Next(Run(calls, key), call, key)
  {
    assert (calls + [call])[..|calls|] == calls;
  }

  /** One call opens a window; the rest of its quota comes at its end; a full quota follows. */
  function Burst(key: string, limit: nat, windowMs: int): seq<Call>
    requires limit >= 1
  {
    [Call(key, limit, windowMs, 0)] + Repeat(Call(key, limit, windowMs, windowMs - 1), limit - 1)
    + Repeat(Call(key, limit, windowMs, windowMs), limit)
  }

  lemma AcceptedCallCounts(t: Trace, after: Trace, call: Call, key: string, from: int, to: int)
    requires after == Next(t, call, key) && call.key == key && from <= call.now < to
    requires key in t.buckets && t.buckets[key].resetAt > call.now && t.buckets[key].count < call.limit
    ensures key in after.buckets && after.buckets[key] == Bucket(t.buckets[key].count + 1, t.buckets[key].resetAt)
    ensures CountIn(after.accepted, from, to) == CountIn(t.accepted, from, to) + 1
  {
    CountInAppend(t.accepted, call.now, from, to);
  }

  lemma {:induction false} RepeatIsAccepted(calls: seq<Call>, key: string, limit: nat, windowMs: int, now: int,
                                            n: nat, from: int, to: int)
    requires key in Run(calls, key).buckets
    requires Run(calls, key).buckets[key].resetAt > now && Run(calls, key).buckets[key].count + n <= limit
    requires from <= now < to
    ensures
      var before := Run(calls, key);
      var after := Run(calls + Repeat(Call(key, limit, windowMs, now), n), key);
      && key in after.buckets
      && after.buckets[key] == Bucket(before.buckets[key].count + n, before.buckets[key].resetAt)
      && CountIn(after.accepted, from, to) == CountIn(before.accepted, from, to) + n
  {
    var call := Call(key, limit, windowMs, now);
    if n == 0 {
      assert calls + Repeat(call, 0) == calls;
    } else {
      var fewer := calls + Repeat(call, n - 1);
      RepeatIsAccepted(calls, key, limit, windowMs, now, n - 1, from, to);
      RepeatOnce(calls, call, n);
      RunAppend(fewer, call, key);
      AcceptedCallCounts(Run(fewer, key), Run(calls + Repeat(call, n), key), call, key, from, to);
    }
  }

  /** After the first two parts of a burst the window is about to end, full. */
  lemma BurstFillsWindow(key: string, limit: nat, windowMs: int)
    requires limit >= 1 && windowMs >= 2
    ensures
      var t := Run([Call(key, limit, windowMs, 0)] + Repeat(Call(key, limit, windowMs, windowMs - 1), limit - 1), key);
      && key in t.buckets
      && t.buckets[key] == Bucket(limit, windowMs)
      && CountIn(t.accepted, 1, 1 + windowMs) == limit - 1
  {
    var first := [Call(key, limit, windowMs, 0)];
    assert first[..0] == [];
    assert Run(first, key) == Trace(map[key := Bucket(1, windowMs)], [0]);
    CountInEmpty([0], 1, 1 + windowMs);
    RepeatIsAccepted(first, key, limit, windowMs, windowMs - 1, limit - 1, 1, 1 + windowMs);
  }

  /** The call at the end of that window opens the next one. */
  lemma NextWindowOpens(before: seq<Call>, key: string, limit: nat, windowMs: int)
    requires limit >= 1 && windowMs >= 2
    requires before == [Call(key, limit, windowMs, 0)] + Repeat(Call(key, limit, windowMs, windowMs - 1), limit - 1)
    ensures
      var t := Run(before + [Call(key, limit, windowMs, windowMs)], key);
      && key in t.buckets
      && t.buckets[key] == Bucket(1, 2 * windowMs)
      && CountIn(t.accepted, 1, 1 + windowMs) == limit
  {
    var next := Call(key, limit, windowMs, windowMs);
    BurstFillsWindow(key, limit, windowMs);
    RunAppend(before, next, key);
    CountInAppend(Run(before, key).accepted, windowMs, 1, 1 + windowMs);
  }

  lemma BurstIsTimed(key: string, limit: nat, windowMs: int)
    requires limit >= 1 && windowMs >= 2
    ensures Timed(Burst(key, limit, windowMs), key, limit, windowMs)
  {
  }

  /** The bound is tight: for every limit and every window of at least 2 ms some run attains it. */
  lemma IntervalBoundIsAttained(key: string, limit: nat, windowMs: int)
    requires limit >= 1 && windowMs >= 2
    ensures Timed(Burst(key, limit, windowMs), key, limit, windowMs)
    ensures CountIn(Run(Burst(key, limit, windowMs), key).accepted, 1, 1 + windowMs) == 2 * limit - 1
  {
    var next := Call(key, limit, windowMs, windowMs);
    var before := [Call(key, limit, windowMs, 0)] + Repeat(Call(key, limit, windowMs, windowMs - 1), limit - 1);
    BurstIsTimed(key, limit, windowMs);
    NextWindowOpens(before, key, limit, windowMs);
    RepeatIsAccepted(before + [next], key, limit, windowMs, windowMs, limit - 1, 1, 1 + windowMs);
    assert before + [next] + Repeat(next, limit - 1) == Burst(key, limit, windowMs);
  }
}
