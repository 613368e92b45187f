/** The failed-attempt counter and lock of the credentials login. Times are milliseconds. */
module Login {
  import opened Wrappers
  import opened Sums

  const MAX_FAILED_ATTEMPTS := 5
  const LOCK_DURATION_MS := 15 * 60 * 1000

  datatype Account = Account(failedLoginAttempts: nat, lockedUntil: Option<int>)

  datatype Outcome = Locked | Rejected | LoggedIn

  predicate IsLocked(account: Account, now: int) {
    account.lockedUntil.Some? && account.lockedUntil.value > now
  }

  /** The row written by an attempt that had read `attempts` failures and finishes at `now`. */
  function AfterComparison(attempts: nat, valid: bool, now: int): Account {
    if valid then Account(0, None)
    else Account(attempts + 1, if attempts + 1 >= MAX_FAILED_ATTEMPTS then Some(now + LOCK_DURATION_MS) else None)
  }

  /** One attempt: the lock is checked at `started`, the row is written at `finished`. */
  datatype Attempt = Attempt(started: int, finished: int, valid: bool)

  function Authorize(account: Account, attempt: Attempt): (Account, Outcome) {
    if IsLocked(account, attempt.started) then (account, Locked)
    else (AfterComparison(account.failedLoginAttempts, attempt.valid, attempt.finished),
          if attempt.valid then LoggedIn else Rejected)
  }

  /** The user row, updated in place. */
  class User {
    var failedLoginAttempts: nat
    var lockedUntil: Option<int>

    function View(): Account
      reads this
    {
      Account(failedLoginAttempts, lockedUntil)
    }

    /** An attempt with nothing between its read and its write. */
    method LogIn(valid: bool, started: int, finished: int) returns (outcome: Outcome)
      modifies this
      ensures (View(), outcome) == Authorize(old(View()), Attempt(started, finished, valid))
    {
      if lockedUntil.Some? && lockedUntil.value > started {
        return Locked;
      }
      if !valid {
        var attempts := failedLoginAttempts + 1;
        failedLoginAttempts := attempts;
        lockedUntil := if attempts >= MAX_FAILED_ATTEMPTS then Some(finished + LOCK_DURATION_MS) else None;
        return Rejected;
      }
      failedLoginAttempts := 0;
      lockedUntil := None;
      return LoggedIn;
    }
  }

  /**
   * The row, the failure counts the open attempts have read, and when passwords were compared.
   * An attempt is open from its read of the row until its write.
   */
  datatype State = State(account: Account, open: seq<nat>, compared: seq<int>)

  /** A reset is a password reset, a password change or a reactivation by an administrator. */
  datatype Step = Begin(at: int) | Finish(call: nat, valid: bool, at: int) | Reset(at: int)

  function Next(s: State, step: Step): State {
    match step
    case Begin(now) =>
      if IsLocked(s.account, now) then s
      else s.(open := s.open + [s.account.failedLoginAttempts], compared := s.compared + [now])
    case Finish(i, valid, now) =>
      if i < |s.open|
      then s.(account := AfterComparison(s.open[i], valid, now), open := s.open[..i] + s.open[i + 1..]) else s
    case Reset(_) => s.(account := Account(0, None))
  }

  function Run(s: State, steps: seq<Step>): State {
    if steps == [] then s else Next(Run(s, steps[..|steps| - 1]), steps[|steps| - 1])
  }

  /** Beginning and finishing without anything in between is one call of authorize. */
  lemma LogInIsBeginFinish(s: State, attempt: Attempt)
    requires s.open == []
    ensures Next(Next(s, Begin(attempt.started)), Finish(0, attempt.valid, attempt.finished))
         == State(Authorize(s.account, attempt).0, [],
                  if IsLocked(s.account, attempt.started) then s.compared else s.compared + [attempt.started])
  {
  }

  /** Every step after the one before, at most `k` attempts open at a time. */
  ghost predicate Timed(s: State, steps: seq<Step>, from: int, k: nat)
    decreases |steps|
  {
    if steps == [] then |s.open| <= k
    else
      && Timed(s, steps[..|steps| - 1], from, k)
      && Clock(steps[..|steps| - 1], from) <= steps[|steps| - 1].at
      && |Run(s, steps).open| <= k
  }

  /** The successful logins and the resets of a run. */
  function Clears(steps: seq<Step>): nat {
    if steps == [] then 0
    else Clears(steps[..|steps| - 1]) + if IsClear(steps[|steps| - 1]) then 1 else 0
  }

  predicate IsClear(step: Step) {
    step.Reset? || (step.Finish? && step.valid)
  }

  function Clock(steps: seq<Step>, from: int): int {
    if steps == [] then from else steps[|steps| - 1].at
  }

  predicate Within(time: int, from: int, to: int) {
    from <= time <= to
  }

  function ComparedIn(times: seq<int>, from: int, to: int): nat {
    Count(times, (time: int) => Within(time, from, to))
  }

  /** Binomial coefficients. */
  function Choose(n: nat, r: nat): nat {
    if r == 0 then 1 else if n == 0 then 0 else Choose(n - 1, r - 1) + Choose(n - 1, r)
  }

  /** What `b` slots are worth in layer `m`. */
  function Layer(m: nat, b: nat): nat {
    if b == 0 then 0 else if m == 0 then b else Layer(m, b - 1) + Layer(m - 1, b)
  }

  lemma {:induction false} TooMany(n: nat, r: nat)
    requires r > n
    ensures Choose(n, r) == 0
  {
    if n > 0 {
      TooMany(n - 1, r - 1);
      TooMany(n - 1, r);
    }
  }

  /** The ways to choose m + 1 of b + m. */
  lemma {:induction false} LayerIsBinomial(m: nat, b: nat)
    ensures Layer(m, b) == Choose(b + m, m + 1)
  {
    if b == 0 {
      TooMany(m, m + 1);
    } else if m == 0 {
      LayerIsBinomial(0, b - 1);
      assert Choose(b, 1) == Choose(b - 1, 0) + Choose(b - 1, 1);
    } else {
      LayerIsBinomial(m, b - 1);
      LayerIsBinomial(m - 1, b);
    }
  }

  lemma {:induction false} LayerRises(m: nat, b: nat, c: nat)
    requires b <= c
    ensures Layer(m, b) <= Layer(m, c)
    decreases c
  {
    if b < c {
      LayerRises(m, b, c - 1);
    }
  }

  /** The first m + 1 layers together. */
  function Layers(m: nat, b: nat): nat {
    Layer(m, b) + (if m == 0 then 0 else Layers(m - 1, b))
  }

  lemma {:induction false} LayersAddUp(m: nat, b: nat)
    ensures Layer(m, b + 1) == Layers(m, b) + 1
  {
    if m > 0 {
      LayersAddUp(m - 1, b);
    }
  }

  function Read(open: seq<nat>, threshold: nat): nat {
    Count(open, (read: nat) => read >= threshold)
  }

  /**
   * How many of the k slots are used up in layer m. A slot holds an open attempt or is free and
   * then stands for the row. In layer 0 the open attempts count, in layer m the slots whose value
   * is at least 5 - m; a free slot counts everywhere once the row has reached 5.
   */
  function Used(s: State, k: nat, m: nat): nat
    requires |s.open| <= k && m < MAX_FAILED_ATTEMPTS
  {
    var free := if s.account.failedLoginAttempts >= MAX_FAILED_ATTEMPTS - m then k - |s.open| else 0;
    free + if m == 0 then |s.open| else Read(s.open, MAX_FAILED_ATTEMPTS - m)
  }

  /** The comparisons below the maximum that a state has spent, in its first m + 1 layers. */
  function Spent(s: State, k: nat, m: nat): nat
    requires |s.open| <= k && m < MAX_FAILED_ATTEMPTS
  {
    Layer(m, Used(s, k, m)) + if m == 0 then 0 else Spent(s, k, m - 1)
  }

  const TOP: nat := MAX_FAILED_ATTEMPTS - 1

  lemma {:induction false} ReadAtMost(open: seq<nat>, threshold: nat)
    ensures Read(open, threshold) <= |open|
  {
    if open != [] {
      ReadAtMost(open[1..], threshold);
    }
  }

  lemma UsedAtMost(s: State, k: nat, m: nat)
    requires |s.open| <= k && m < MAX_FAILED_ATTEMPTS
    ensures Used(s, k, m) <= k
  {
    ReadAtMost(s.open, MAX_FAILED_ATTEMPTS - m);
  }

  /** A state has spent at most C(k + 5, 5) - 1. */
  lemma {:induction false} SpentAtMost(s: State, k: nat, m: nat)
    requires |s.open| <= k && m < MAX_FAILED_ATTEMPTS
    ensures Spent(s, k, m) <= Layers(m, k)
  {
    UsedAtMost(s, k, m);
    LayerRises(m, Used(s, k, m), k);
    if m > 0 {
      SpentAtMost(s, k, m - 1);
    }
  }

  lemma ReadAppend(open: seq<nat>, read: nat, threshold: nat)
    ensures Read(open + [read], threshold) == Read(open, threshold) + (if read >= threshold then 1 else 0)
  {
    CountAppend(open, read, (r: nat) => r >= threshold);
  }

  lemma ReadWithout(open: seq<nat>, i: nat, threshold: nat)
    requires i < |open|
    ensures Read(open, threshold)
         == Read(open[..i] + open[i + 1..], threshold) + (if open[i] >= threshold then 1 else 0)
  {
    var p := (r: nat) => r >= threshold;
    CountConcat(open[..i], open[i + 1..], p);
    CountConcat(open[..i] + [open[i]], open[i + 1..], p);
    CountAppend(open[..i], open[i], p);
    assert open == open[..i] + [open[i]] + open[i + 1..];
  }

  lemma {:induction false} ReadFalls(open: seq<nat>, threshold: nat, lower: nat)
    requires lower <= threshold
    ensures Read(open, threshold) <= Read(open, lower)
  {
    if open != [] {
      ReadFalls(open[1..], threshold, lower);
    }
  }

  /** A comparison that reads fewer than 5 failures spends exactly one, any other none. */
  lemma {:induction false} BeginSpends(s: State, after: State, k: nat, m: nat)
    requires |s.open| < k && m < MAX_FAILED_ATTEMPTS
    requires after.account == s.account && after.open == s.open + [s.account.failedLoginAttempts]
    ensures Spent(after, k, m)
         == Spent(s, k, m) + (if s.account.failedLoginAttempts < MAX_FAILED_ATTEMPTS then 1 else 0)
  {
    ReadAppend(s.open, s.account.failedLoginAttempts, MAX_FAILED_ATTEMPTS - m);
    if m == 0 {
    } else {
      BeginSpends(s, after, k, m - 1);
      assert Used(after, k, m) == Used(s, k, m);
    }
  }

  /** `after` is `s` when an open attempt that read `v` failures has failed. */
  ghost predicate Fails(s: State, after: State, i: nat, v: nat) {
    && i < |s.open| && v == s.open[i]
    && after.open == s.open[..i] + s.open[i + 1..]
    && after.account.failedLoginAttempts == v + 1
  }

  /** In the layer of its new value a failure uses up a slot, in the layers above it frees none. */
  lemma FailureUses(s: State, after: State, i: nat, v: nat, k: nat, m: nat)
    requires |s.open| <= k && m < MAX_FAILED_ATTEMPTS && Fails(s, after, i, v)
    ensures v + 1 + m >= MAX_FAILED_ATTEMPTS ==> Used(after, k, m) >= Used(s, k, m)
    ensures v + 1 + m == MAX_FAILED_ATTEMPTS && m > 0 ==> Used(after, k, m) > Used(s, k, m)
  {
    ReadWithout(s.open, i, MAX_FAILED_ATTEMPTS - m);
  }

  /** In the layers below, it frees no more than the slots used in its own layer, and one. */
  lemma FailureFrees(s: State, after: State, i: nat, v: nat, k: nat, m: nat, top: nat)
    requires |s.open| <= k && m < top < MAX_FAILED_ATTEMPTS && Fails(s, after, i, v) && v + 1 + top == MAX_FAILED_ATTEMPTS
    ensures m > 0 ==> Used(s, k, m) <= Used(s, k, top)
    ensures m == 0 ==> Used(s, k, 0) <= Used(after, k, 0) + 1 + Used(s, k, top)
  {
    ReadFalls(s.open, MAX_FAILED_ATTEMPTS - m, MAX_FAILED_ATTEMPTS - top);
  }

  lemma {:induction false} LowerLayers(s: State, after: State, i: nat, v: nat, k: nat, m: nat, top: nat)
    requires |s.open| <= k && m < top < MAX_FAILED_ATTEMPTS && Fails(s, after, i, v) && v + 1 + top == MAX_FAILED_ATTEMPTS
    ensures Spent(s, k, m) <= Spent(after, k, m) + Layers(m, Used(s, k, top)) + 1
  {
    FailureFrees(s, after, i, v, k, m, top);
    if m == 0 {
    } else {
      LowerLayers(s, after, i, v, k, m - 1, top);
      LayerRises(m, Used(s, k, m), Used(s, k, top));
    }
  }

  /** What has been spent is never given back: what a failure frees below is worth less than what it uses. */
  lemma {:induction false} FailureKeepsSpent(s: State, after: State, i: nat, v: nat, k: nat, m: nat)
    requires |s.open| <= k && m < MAX_FAILED_ATTEMPTS && Fails(s, after, i, v) && v + 1 + m >= MAX_FAILED_ATTEMPTS
    ensures Spent(s, k, m) <= Spent(after, k, m)
  {
    var b := Used(s, k, m);
    FailureUses(s, after, i, v, k, m);
    if v + 1 + m == MAX_FAILED_ATTEMPTS && m > 0 {
      LowerLayers(s, after, i, v, k, m - 1, m);
      LayersAddUp(m, b);
      LayerRises(m, b + 1, Used(after, k, m));
    } else {
      LayerRises(m, b, Used(after, k, m));
      if m > 0 {
        FailureKeepsSpent(s, after, i, v, k, m - 1);
      }
    }
  }

  lemma LockedRowHasSpent(s: State, k: nat, m: nat)
    requires |s.open| <= k && m < MAX_FAILED_ATTEMPTS && s.account.failedLoginAttempts >= MAX_FAILED_ATTEMPTS
    ensures Spent(s, k, m) >= k
    decreases m
  {
    if m == 0 {
    } else {
      LockedRowHasSpent(s, k, m - 1);
    }
  }

  /**
   * The comparisons of one time span: `lows` read fewer than 5 failures, `highs` at least 5. The
   * highs come in rounds, each reading one value of the row; `since` belong to the current round.
   * `base` is what had been spent before the first one, `newest` when the last one was made.
   */
  datatype Tally = Tally(lows: nat, highs: nat, rounds: nat, since: nat, base: nat, highFirst: bool, newest: int)

  function Observe(t: Tally, s: State, step: Step, from: int, to: int, k: nat): Tally
    requires |s.open| <= k
  {
    match step
    case Begin(now) =>
      if IsLocked(s.account, now) || !Within(now, from, to) then t
      else
        var high := s.account.failedLoginAttempts >= MAX_FAILED_ATTEMPTS;
        var begun := if t.lows + t.highs > 0 then t.(newest := now)
                     else t.(newest := now, base := Spent(s, k, TOP), highFirst := high);
        if !high then begun.(lows := t.lows + 1)
        else begun.(highs := t.highs + 1, rounds := if t.since == 0 then t.rounds + 1 else t.rounds, since := t.since + 1)
    case Finish(i, _, _) => if i < |s.open| then t.(since := 0) else t
    case Reset(_) => t
  }

  const NOTHING := Tally(0, 0, 0, 0, 0, false, 0)

  /** n rounds of k. */
  function Rounds(k: nat, n: nat): nat {
    if n == 0 then 0 else Rounds(k, n - 1) + k
  }

  lemma {:induction false} RoundsIsProduct(k: nat, n: nat)
    ensures Rounds(k, n) == k * n
  {
    if n > 0 {
      RoundsIsProduct(k, n - 1);
      assert k * n == k * (n - 1) + k;
    }
  }

  lemma {:induction false} RoundsRise(k: nat, n: nat, m: nat)
    requires n <= m
    ensures Rounds(k, n) <= Rounds(k, m)
    decreases m
  {
    if n < m {
      RoundsRise(k, n, m - 1);
    }
  }

  /** Rounds do not count the first comparison of the span when it is high: it need not wait for a lock of the span. */
  function Waits(t: Tally): int {
    t.rounds - if t.highFirst then 1 else 0
  }

  ghost predicate TallySound(t: Tally, s: State, from: int, to: int, k: nat, now: int)
    requires |s.open| <= k
  {
    if t.lows + t.highs == 0 then t.since == 0 && t.rounds == 0
    else
      && t.lows + t.base <= Spent(s, k, TOP)
      && (t.highFirst ==> t.base >= k && t.rounds >= 1)
      && t.newest <= now && t.newest <= to
      && t.newest >= from + Waits(t) * LOCK_DURATION_MS
      && t.since <= |s.open|
      && (if t.since == 0 then t.highs <= Rounds(k, t.rounds)
          else t.rounds >= 1 && t.highs <= Rounds(k, t.rounds - 1) + t.since)
      && (t.since > 0 ==> s.account.failedLoginAttempts >= MAX_FAILED_ATTEMPTS)
      && (t.since == 0 && s.account.failedLoginAttempts >= MAX_FAILED_ATTEMPTS ==>
            s.account.lockedUntil.Some? && s.account.lockedUntil.value >= t.newest + LOCK_DURATION_MS)
  }

  lemma BeginKeepsTally(t: Tally, s: State, at: int, from: int, to: int, k: nat, now: int)
    requires |s.open| <= k && TallySound(t, s, from, to, k, now) && now <= at && |Next(s, Begin(at)).open| <= k
    ensures TallySound(Observe(t, s, Begin(at), from, to, k), Next(s, Begin(at)), from, to, k, at)
  {
    var after := Next(s, Begin(at));
    if !IsLocked(s.account, at) {
      BeginSpends(s, after, k, TOP);
      if s.account.failedLoginAttempts >= MAX_FAILED_ATTEMPTS {
        LockedRowHasSpent(s, k, TOP);
      }
    }
  }

  lemma FinishKeepsTally(t: Tally, s: State, i: nat, at: int, from: int, to: int, k: nat, now: int)
    requires |s.open| <= k && TallySound(t, s, from, to, k, now) && now <= at
    ensures |Next(s, Finish(i, false, at)).open| <= k
    ensures TallySound(Observe(t, s, Finish(i, false, at), from, to, k), Next(s, Finish(i, false, at)), from, to, k, at)
  {
    if i < |s.open| {
      FailureKeepsSpent(s, Next(s, Finish(i, false, at)), i, s.open[i], k, TOP);
    }
  }

  /** The tally since the last successful login or reset. */
  ghost function TallyOf(s: State, steps: seq<Step>, start: int, from: int, to: int, k: nat): Tally
    requires Timed(s, steps, start, k)
  {
    if steps == [] || IsClear(steps[|steps| - 1]) then NOTHING
    else
      TimedIsWithin(s, steps[..|steps| - 1], start, k);
      Observe(TallyOf(s, steps[..|steps| - 1], start, from, to, k), Run(s, steps[..|steps| - 1]),
              steps[|steps| - 1], from, to, k)
  }

  lemma TimedIsWithin(s: State, steps: seq<Step>, start: int, k: nat)
    requires Timed(s, steps, start, k)
    ensures |Run(s, steps).open| <= k
  {
  }

  /** `done` bounds the comparisons of the earlier stretches, each ended by a successful login or a reset. */
  ghost predicate Tallied(t: Tally, s: State, from: int, span: nat, k: nat, now: int, done: nat) {
    && |s.open| <= k
    && TallySound(t, s, from, from + span, k, now)
    && ComparedIn(s.compared, from, from + span) <= done + t.lows + t.highs
  }

  lemma BeginKeepsTallied(t: Tally, s: State, at: int, from: int, span: nat, k: nat, now: int, done: nat)
    requires Tallied(t, s, from, span, k, now, done) && now <= at && |Next(s, Begin(at)).open| <= k
    ensures Tallied(Observe(t, s, Begin(at), from, from + span, k), Next(s, Begin(at)), from, span, k, at, done)
  {
    BeginKeepsTally(t, s, at, from, from + span, k, now);
    CountAppend(s.compared, at, (time: int) => Within(time, from, from + span));
  }

  lemma FinishKeepsTallied(t: Tally, s: State, i: nat, at: int, from: int, span: nat, k: nat, now: int, done: nat)
    requires Tallied(t, s, from, span, k, now, done) && now <= at
    ensures Tallied(Observe(t, s, Finish(i, false, at), from, from + span, k), Next(s, Finish(i, false, at)),
                    from, span, k, at, done)
  {
    FinishKeepsTally(t, s, i, at, from, from + span, k, now);
  }

  lemma ClearStartsTally(t: Tally, s: State, step: Step, from: int, span: nat, k: nat, now: int, done: nat)
    requires Tallied(t, s, from, span, k, now, done) && IsClear(step)
    ensures Tallied(NOTHING, Next(s, step), from, span, k, step.at, done + Bound(k, span))
  {
    SoundTallyIsBounded(t, s, from, span, k, now);
  }

  lemma {:induction false} RunKeepsTally(s: State, steps: seq<Step>, start: int, from: int, span: nat, k: nat)
    requires s.compared == [] && Timed(s, steps, start, k)
    ensures Tallied(TallyOf(s, steps, start, from, from + span, k), Run(s, steps), from, span, k,
                    Clock(steps, start), Rounds(Bound(k, span), Clears(steps)))
    decreases |steps|
  {
    if steps != [] {
      var rest, last := steps[..|steps| - 1], steps[|steps| - 1];
      var before, now, done := Run(s, rest), Clock(rest, start), Rounds(Bound(k, span), Clears(rest));
      RunKeepsTally(s, rest, start, from, span, k);
      var t := TallyOf(s, rest, start, from, from + span, k);
      if IsClear(last) {
        ClearStartsTally(t, before, last, from, span, k, now, done);
      } else if last.Begin? {
        BeginKeepsTallied(t, before, last.at, from, span, k, now, done);
      } else {
        FinishKeepsTallied(t, before, last.call, last.at, from, span, k, now, done);
      }
    }
  }

  /** C(k + 5, 5) - 1, and k more for every lock that fits. */
  function Bound(k: nat, span: nat): nat {
    Layers(TOP, k) + Rounds(k, span / LOCK_DURATION_MS)
  }

  /** Bound in closed form. */
  function Allowed(k: nat, span: nat): nat {
    ChoosePositive(k + MAX_FAILED_ATTEMPTS, MAX_FAILED_ATTEMPTS);
    Choose(k + MAX_FAILED_ATTEMPTS, MAX_FAILED_ATTEMPTS) - 1 + k * (span / LOCK_DURATION_MS)
  }

  lemma {:induction false} ChoosePositive(n: nat, r: nat)
    requires r <= n
    ensures Choose(n, r) >= 1
  {
    if r > 0 {
      ChoosePositive(n - 1, r - 1);
    }
  }

  lemma BoundIsAllowed(k: nat, span: nat)
    ensures Bound(k, span) == Allowed(k, span)
  {
    LayersAddUp(TOP, k);
    LayerIsBinomial(TOP, k + 1);
    RoundsIsProduct(k, span / LOCK_DURATION_MS);
  }

  lemma RoundsThatFit(t: Tally, from: int, span: nat)
    requires t.newest <= from + span && t.newest >= from + Waits(t) * LOCK_DURATION_MS
    ensures Waits(t) <= span / LOCK_DURATION_MS
  {
  }

  lemma SoundTallyIsBounded(t: Tally, s: State, from: int, span: nat, k: nat, now: int)
    requires |s.open| <= k && TallySound(t, s, from, from + span, k, now)
    ensures t.lows + t.highs <= Bound(k, span)
  {
    if t.lows + t.highs > 0 {
      var q := span / LOCK_DURATION_MS;
      RoundsThatFit(t, from, span);
      SpentAtMost(s, k, TOP);
      RoundsRise(k, t.rounds, if t.highFirst then q + 1 else q);
    }
  }

  lemma RoundsBoundComparisons(s: State, steps: seq<Step>, start: int, k: nat, from: int, span: nat)
    requires s.compared == [] && Timed(s, steps, start, k)
    ensures ComparedIn(Run(s, steps).compared, from, from + span) <= Rounds(Bound(k, span), Clears(steps) + 1)
  {
    RunKeepsTally(s, steps, start, from, span, k);
    SoundTallyIsBounded(TallyOf(s, steps, start, from, from + span, k), Run(s, steps), from, span, k, Clock(steps, start));
  }

  /**
   * From any state of the row and with any attempts already open: when at most `k` attempts are
   * open at a time, at most C(k + 5, 5) - 1 + k * floor(span / 15 min) passwords are compared in a
   * closed time span, and as many again for every successful login or reset of the run.
   */
  lemma ComparisonsAreBounded(s: State, steps: seq<Step>, start: int, k: nat, from: int, span: nat)
    requires s.compared == [] && Timed(s, steps, start, k)
    ensures ComparedIn(Run(s, steps).compared, from, from + span) <= Allowed(k, span) * (Clears(steps) + 1)
  {
    RoundsBoundComparisons(s, steps, start, k, from, span);
    BoundIsAllowed(k, span);
    RoundsIsProduct(Allowed(k, span), Clears(steps) + 1);
  }

  // A run that attains the bound

  const FRESH := State(Account(0, None), [], [])

  /** A timed run from `s` to `after`. */
  ghost predicate Leads(s: State, steps: seq<Step>, from: int, to: int, k: nat, after: State) {
    Timed(s, steps, from, k) && Clock(steps, from) == to && Run(s, steps) == after
  }

  lemma {:induction false} LeadsOn(s: State, a: seq<Step>, from: int, mid: int, k: nat, between: State,
                                   b: seq<Step>, to: int, after: State)
    requires Leads(s, a, from, mid, k, between) && Leads(between, b, mid, to, k, after)
    ensures Leads(s, a + b, from, to, k, after) && Clears(a + b) == Clears(a) + Clears(b)
    decreases |b|
  {
    if b == [] {
      assert a + b == a;
    } else {
      var rest, last := b[..|b| - 1], b[|b| - 1];
      LeadsOn(s, a, from, mid, k, between, rest, Clock(rest, mid), Run(between, rest));
      assert (a + b)[..|a + b| - 1] == a + rest;
      assert (a + b)[|a + b| - 1] == last;
    }
  }

  lemma LeadsBy(s: State, step: Step, from: int, k: nat)
    requires from <= step.at && |s.open| <= k && |Next(s, step).open| <= k
    ensures Leads(s, [step], from, step.at, k, Next(s, step)) && Clears([step]) == if IsClear(step) then 1 else 0
  {
    assert [step][..0] == [];
  }

  function Repeated<T>(x: T, n: nat): (r: seq<T>)
    ensures |r| == n && forall y :: y in r ==> y == x
  {
    if n == 0 then [] else Repeated(x, n - 1) + [x]
  }

  lemma {:induction false} RepeatedAdds<T>(x: T, m: nat, n: nat)
    ensures Repeated(x, m + n) == Repeated(x, m) + Repeated(x, n)
  {
    if n > 0 {
      RepeatedAdds(x, m, n - 1);
      assert Repeated(x, m) + Repeated(x, n) == (Repeated(x, m) + Repeated(x, n - 1)) + [x];
    }
  }

  /**
   * With `free` slots and the row at `v`: one attempt reads v and stays open while the other slots
   * use up all they can, then it fails, which puts the row back to v + 1.
   */
  function Greedy(free: nat, v: nat, held: nat, now: int): seq<Step>
    decreases free + (MAX_FAILED_ATTEMPTS - v)
  {
    if free == 0 || v >= MAX_FAILED_ATTEMPTS then []
    else [Begin(now)] + Greedy(free - 1, v, held + 1, now) + ([Finish(held, false, now)] + Greedy(free, v + 1, held, now))
  }

  /** How many it compares when n failures are left. */
  function GreedyCount(free: nat, n: nat): nat {
    if free == 0 || n == 0 then 0 else 1 + GreedyCount(free - 1, n) + GreedyCount(free, n - 1)
  }

  lemma {:induction false} GreedyCountIsBinomial(free: nat, n: nat)
    ensures GreedyCount(free, n) + 1 == Choose(free + n, n)
  {
    if n > 0 {
      if free == 0 {
        GreedyCountIsBinomial(0, n - 1);
        TooMany(n - 1, n);
      } else {
        GreedyCountIsBinomial(free - 1, n);
        GreedyCountIsBinomial(free, n - 1);
      }
    }
  }

  function AfterGreedy(s: State, free: nat, now: int): State {
    var v := s.account.failedLoginAttempts;
    State(if free == 0 || v >= MAX_FAILED_ATTEMPTS then s.account
          else Account(MAX_FAILED_ATTEMPTS, Some(now + LOCK_DURATION_MS)),
          s.open,
          s.compared + Repeated(now, if v >= MAX_FAILED_ATTEMPTS then 0 else GreedyCount(free, MAX_FAILED_ATTEMPTS - v)))
  }

  lemma LeadsThrough(s0: State, a: seq<Step>, s1: State, b: seq<Step>, s2: State, c: seq<Step>, s3: State,
                     d: seq<Step>, s4: State, now: int, k: nat)
    requires Leads(s0, a, now, now, k, s1) && Leads(s1, b, now, now, k, s2)
    requires Leads(s2, c, now, now, k, s3) && Leads(s3, d, now, now, k, s4)
    ensures Leads(s0, a + b + (c + d), now, now, k, s4)
    ensures Clears(a + b + (c + d)) == Clears(a) + Clears(b) + Clears(c) + Clears(d)
  {
    LeadsOn(s0, a, now, now, k, s1, b, now, s2);
    LeadsOn(s2, c, now, now, k, s3, d, now, s4);
    LeadsOn(s0, a + b, now, now, k, s2, c + d, now, s4);
  }

  lemma GreedyTimes(times: seq<int>, free: nat, n: nat, now: int)
    requires free > 0 && n > 0
    ensures times + Repeated(now, GreedyCount(free, n))
         == times + [now] + Repeated(now, GreedyCount(free - 1, n)) + Repeated(now, GreedyCount(free, n - 1))
  {
    RepeatedAdds(now, 1, GreedyCount(free - 1, n));
    RepeatedAdds(now, 1 + GreedyCount(free - 1, n), GreedyCount(free, n - 1));
    assert Repeated(now, 1) == [now];
  }

  /** Where the two shorter runs of a greedy run begin. */
  lemma GreedyParts(s: State, free: nat, now: int, s1: State, s3: State)
    requires free > 0 && s.account.failedLoginAttempts < MAX_FAILED_ATTEMPTS && !IsLocked(s.account, now)
    requires s1 == Next(s, Begin(now)) && s3 == Next(AfterGreedy(s1, free - 1, now), Finish(|s.open|, false, now))
    ensures s1.account == s.account && s1.open == s.open + [s.account.failedLoginAttempts]
    ensures s3.account == AfterComparison(s.account.failedLoginAttempts, false, now) && s3.open == s.open
  {
    assert AfterGreedy(s1, free - 1, now).open == s.open + [s.account.failedLoginAttempts];
    assert s3.open == s.open;
  }

  lemma GreedyEnds(s: State, free: nat, now: int, s1: State, s3: State)
    requires free > 0 && s.account.failedLoginAttempts < MAX_FAILED_ATTEMPTS && !IsLocked(s.account, now)
    requires s1 == Next(s, Begin(now)) && s3 == Next(AfterGreedy(s1, free - 1, now), Finish(|s.open|, false, now))
    ensures AfterGreedy(s3, free, now) == AfterGreedy(s, free, now)
  {
    GreedyParts(s, free, now, s1, s3);
    GreedyTimes(s.compared, free, MAX_FAILED_ATTEMPTS - s.account.failedLoginAttempts, now);
  }

  ghost predicate Runs(s: State, free: nat, now: int, k: nat) {
    var steps := Greedy(free, s.account.failedLoginAttempts, |s.open|, now);
    Leads(s, steps, now, now, k, AfterGreedy(s, free, now)) && Clears(steps) == 0
  }

  lemma GreedyRound(s: State, free: nat, now: int, k: nat, s1: State, s3: State)
    requires free > 0 && s.account.failedLoginAttempts < MAX_FAILED_ATTEMPTS && !IsLocked(s.account, now)
    requires |s.open| + free <= k
    requires s1 == Next(s, Begin(now)) && s3 == Next(AfterGreedy(s1, free - 1, now), Finish(|s.open|, false, now))
    requires Runs(s1, free - 1, now, k) && Runs(s3, free, now, k)
    ensures Runs(s, free, now, k)
  {
    GreedyParts(s, free, now, s1, s3);
    GreedyEnds(s, free, now, s1, s3);
    var v, held := s.account.failedLoginAttempts, |s.open|;
    var s2 := AfterGreedy(s1, free - 1, now);
    LeadsBy(s, Begin(now), now, k);
    LeadsBy(s2, Finish(held, false, now), now, k);
    LeadsThrough(s, [Begin(now)], s1, Greedy(free - 1, v, held + 1, now), s2,
                 [Finish(held, false, now)], s3, Greedy(free, v + 1, held, now), AfterGreedy(s, free, now), now, k);
  }

  lemma NothingToRun(s: State, free: nat, now: int, k: nat)
    requires |s.open| + free <= k && (free == 0 || s.account.failedLoginAttempts >= MAX_FAILED_ATTEMPTS)
    ensures Runs(s, free, now, k)
  {
    assert AfterGreedy(s, free, now) == s;
  }

  lemma {:induction false} GreedyRuns(s: State, free: nat, now: int, k: nat)
    requires IsLocked(s.account, now) ==> s.account.failedLoginAttempts >= MAX_FAILED_ATTEMPTS
    requires |s.open| + free <= k
    ensures Runs(s, free, now, k)
    decreases free + (MAX_FAILED_ATTEMPTS - s.account.failedLoginAttempts)
  {
    if free > 0 && s.account.failedLoginAttempts < MAX_FAILED_ATTEMPTS {
      var s1 := Next(s, Begin(now));
      var s3 := Next(AfterGreedy(s1, free - 1, now), Finish(|s.open|, false, now));
      GreedyParts(s, free, now, s1, s3);
      GreedyRuns(s1, free - 1, now, k);
      GreedyRuns(s3, free, now, k);
      GreedyRound(s, free, now, k, s1, s3);
    } else {
      NothingToRun(s, free, now, k);
    }
  }

  /** `n` attempts that read the same row, and then all fail. */
  function Burst(n: nat, now: int): seq<Step> {
    Repeated(Begin(now), n) + Failures(n, now)
  }

  function Failures(n: nat, now: int): seq<Step> {
    if n == 0 then [] else [Finish(n - 1, false, now)] + Failures(n - 1, now)
  }

  function Opened(s: State, n: nat, now: int): State {
    State(s.account, s.open + Repeated(s.account.failedLoginAttempts, n), s.compared + Repeated(now, n))
  }

  lemma OpenedOneMore(s: State, n: nat, now: int)
    requires !IsLocked(s.account, now)
    ensures Next(Opened(s, n, now), Begin(now)) == Opened(s, n + 1, now)
  {
    var v := s.account.failedLoginAttempts;
    assert s.open + Repeated(v, n + 1) == s.open + Repeated(v, n) + [v];
    assert s.compared + Repeated(now, n + 1) == s.compared + Repeated(now, n) + [now];
  }

  lemma {:induction false} OpeningRuns(s: State, n: nat, now: int, k: nat)
    requires !IsLocked(s.account, now) && |s.open| + n <= k
    ensures Leads(s, Repeated(Begin(now), n), now, now, k, Opened(s, n, now)) && Clears(Repeated(Begin(now), n)) == 0
  {
    if n == 0 {
      assert Opened(s, 0, now) == s;
    } else {
      OpeningRuns(s, n - 1, now, k);
      OpenedOneMore(s, n - 1, now);
      LeadsBy(Opened(s, n - 1, now), Begin(now), now, k);
      LeadsOn(s, Repeated(Begin(now), n - 1), now, now, k, Opened(s, n - 1, now), [Begin(now)], now, Opened(s, n, now));
    }
  }

  function Failed(account: Account, v: nat, n: nat, now: int): Account {
    if n == 0 then account else AfterComparison(v, false, now)
  }

  lemma {:induction false} FailuresRun(account: Account, v: nat, n: nat, times: seq<int>, now: int, k: nat)
    requires n <= k
    ensures Leads(State(account, Repeated(v, n), times), Failures(n, now), now, now, k,
                  State(Failed(account, v, n, now), [], times))
    ensures Clears(Failures(n, now)) == 0
    decreases n
  {
    if n > 0 {
      var s, one := State(account, Repeated(v, n), times), Finish(n - 1, false, now);
      var s1 := State(AfterComparison(v, false, now), Repeated(v, n - 1), times);
      assert Next(s, one).open == s1.open;
      LeadsBy(s, one, now, k);
      FailuresRun(s1.account, v, n - 1, times, now, k);
      LeadsOn(s, [one], now, now, k, s1, Failures(n - 1, now), now, State(Failed(account, v, n, now), [], times));
    }
  }

  function AfterBurst(s: State, k: nat, now: int): State {
    State(Account(s.account.failedLoginAttempts + 1, Some(now + LOCK_DURATION_MS)), [], s.compared + Repeated(now, k))
  }

  /** At the end of a lock a burst raises the row by one and locks it again. */
  lemma BurstRuns(s: State, now: int, k: nat)
    requires !IsLocked(s.account, now) && s.open == [] && k > 0 && s.account.failedLoginAttempts >= MAX_FAILED_ATTEMPTS
    ensures Leads(s, Burst(k, now), now, now, k, AfterBurst(s, k, now)) && Clears(Burst(k, now)) == 0
  {
    var v := s.account.failedLoginAttempts;
    OpeningRuns(s, k, now, k);
    FailuresRun(s.account, v, k, s.compared + Repeated(now, k), now, k);
    assert Opened(s, k, now).open == Repeated(v, k);
    LeadsOn(s, Repeated(Begin(now), k), now, now, k, Opened(s, k, now), Failures(k, now), now, AfterBurst(s, k, now));
  }

  lemma LeadsLater(s: State, steps: seq<Step>, earlier: int, from: int, to: int, k: nat, after: State)
    requires Leads(s, steps, from, to, k, after) && steps != [] && earlier <= from
    ensures Leads(s, steps, earlier, to, k, after)
  {
    TimedLater(s, steps, earlier, from, k);
  }

  lemma {:induction false} TimedLater(s: State, steps: seq<Step>, earlier: int, from: int, k: nat)
    requires Timed(s, steps, from, k) && earlier <= from
    ensures Timed(s, steps, earlier, k)
    decreases |steps|
  {
    if steps != [] {
      TimedLater(s, steps[..|steps| - 1], earlier, from, k);
    }
  }

  /** A greedy run at time 0, and a burst at the end of each of the next `locks` locks. */
  function Fullest(k: nat, locks: nat): seq<Step> {
    if locks == 0 then Greedy(k, 0, 0, 0) else Fullest(k, locks - 1) + Burst(k, locks * LOCK_DURATION_MS)
  }

  function FullestTimes(k: nat, locks: nat): (times: seq<int>)
    ensures forall t :: t in times ==> 0 <= t <= locks * LOCK_DURATION_MS
  {
    if locks == 0 then Repeated(0, GreedyCount(k, MAX_FAILED_ATTEMPTS))
    else FullestTimes(k, locks - 1) + Repeated(locks * LOCK_DURATION_MS, k)
  }

  function AfterFullest(k: nat, locks: nat): State {
    State(Account(MAX_FAILED_ATTEMPTS + locks, Some((locks + 1) * LOCK_DURATION_MS)), [], FullestTimes(k, locks))
  }

  lemma FullestGoesOn(k: nat, steps: seq<Step>, s: State, before: int, now: int)
    requires k > 0 && before <= now && Leads(FRESH, steps, 0, before, k, s)
    requires !IsLocked(s.account, now) && s.open == [] && s.account.failedLoginAttempts >= MAX_FAILED_ATTEMPTS
    ensures Leads(FRESH, steps + Burst(k, now), 0, now, k, AfterBurst(s, k, now))
    ensures Clears(steps + Burst(k, now)) == Clears(steps)
  {
    BurstRuns(s, now, k);
    assert |Repeated(Begin(now), k)| == k;
    LeadsLater(s, Burst(k, now), before, now, now, k, AfterBurst(s, k, now));
    LeadsOn(FRESH, steps, 0, before, k, s, Burst(k, now), now, AfterBurst(s, k, now));
  }

  lemma FullestBegins(k: nat)
    requires k > 0
    ensures Leads(FRESH, Greedy(k, 0, 0, 0), 0, 0, k, AfterFullest(k, 0)) && Clears(Greedy(k, 0, 0, 0)) == 0
  {
    GreedyRuns(FRESH, k, 0, k);
    assert AfterGreedy(FRESH, k, 0) == AfterFullest(k, 0);
  }

  lemma AfterFullestGoesOn(k: nat, locks: nat)
    requires locks > 0
    ensures AfterBurst(AfterFullest(k, locks - 1), k, locks * LOCK_DURATION_MS) == AfterFullest(k, locks)
  {
  }

  lemma LockHasPassed(k: nat, locks: nat, s: State, now: int)
    requires locks > 0 && s == AfterFullest(k, locks - 1) && now == locks * LOCK_DURATION_MS
    ensures !IsLocked(s.account, now) && s.open == [] && s.account.failedLoginAttempts >= MAX_FAILED_ATTEMPTS
  {
  }

  /** One more lock and the burst at its end. */
  lemma FullestNext(k: nat, locks: nat, steps: seq<Step>, s: State, now: int)
    requires k > 0 && locks > 0 && steps == Fullest(k, locks - 1) && s == AfterFullest(k, locks - 1)
    requires now == locks * LOCK_DURATION_MS
    requires Leads(FRESH, steps, 0, now - LOCK_DURATION_MS, k, s) && Clears(steps) == 0
    ensures Leads(FRESH, steps + Burst(k, now), 0, now, k, AfterFullest(k, locks))
    ensures Clears(steps + Burst(k, now)) == 0
  {
    LockHasPassed(k, locks, s, now);
    FullestGoesOn(k, steps, s, now - LOCK_DURATION_MS, now);
    AfterFullestGoesOn(k, locks);
  }

  lemma {:induction false} FullestRuns(k: nat, locks: nat)
    requires k > 0
    ensures Leads(FRESH, Fullest(k, locks), 0, locks * LOCK_DURATION_MS, k, AfterFullest(k, locks))
    ensures Clears(Fullest(k, locks)) == 0
  {
    if locks == 0 {
      FullestBegins(k);
    } else {
      var now := locks * LOCK_DURATION_MS;
      FullestRuns(k, locks - 1);
      FullestNext(k, locks, Fullest(k, locks - 1), AfterFullest(k, locks - 1), now);
    }
  }

  lemma {:induction false} FullestLength(k: nat, locks: nat)
    ensures |FullestTimes(k, locks)| == Choose(k + MAX_FAILED_ATTEMPTS, MAX_FAILED_ATTEMPTS) - 1 + Rounds(k, locks)
  {
    if locks == 0 {
      GreedyCountIsBinomial(k, MAX_FAILED_ATTEMPTS);
    } else {
      FullestLength(k, locks - 1);
    }
  }

  lemma {:induction false} AllAreCompared(times: seq<int>, from: int, to: int)
    requires forall t :: t in times ==> from <= t <= to
    ensures ComparedIn(times, from, to) == |times|
  {
    if times != [] {
      assert times[0] in times;
      forall t | t in times[1..]
        ensures from <= t <= to
      {
        assert t in times;
      }
      AllAreCompared(times[1..], from, to);
    }
  }

  lemma {:induction false} NothingWithoutAttempts(locks: nat)
    ensures Fullest(0, locks) == [] && FullestTimes(0, locks) == []
  {
    if locks > 0 {
      NothingWithoutAttempts(locks - 1);
    }
  }

  lemma FullestCount(k: nat, locks: nat)
    ensures |FullestTimes(k, locks)| == Allowed(k, locks * LOCK_DURATION_MS)
  {
    FullestLength(k, locks);
    RoundsIsProduct(k, locks);
    assert locks * LOCK_DURATION_MS / LOCK_DURATION_MS == locks;
  }

  /** The bound is attained for every number of open attempts and of locks, from a fresh account. */
  lemma BoundIsAttained(k: nat, locks: nat)
    ensures Timed(FRESH, Fullest(k, locks), 0, k) && Clears(Fullest(k, locks)) == 0
    ensures ComparedIn(Run(FRESH, Fullest(k, locks)).compared, 0, locks * LOCK_DURATION_MS)
         == Allowed(k, locks * LOCK_DURATION_MS)
  {
    FullestCount(k, locks);
    AllAreCompared(FullestTimes(k, locks), 0, locks * LOCK_DURATION_MS);
    if k > 0 {
      FullestRuns(k, locks);
    } else {
      NothingWithoutAttempts(locks);
    }
  }

  // When the five-attempt limit holds, and what a reset gives back

  /** At most 5 comparisons and one more for every lock, in every run without a successful login or a reset. */
  ghost predicate FiveAttemptsHold(k: nat) {
    forall s: State, steps: seq<Step>, start: int, from: int, span: nat ::
      s.compared == [] && Timed(s, steps, start, k) && Clears(steps) == 0 ==> WithinFive(s, steps, from, span)
  }

  predicate WithinFive(s: State, steps: seq<Step>, from: int, span: nat) {
    ComparedIn(Run(s, steps).compared, from, from + span) <= MAX_FAILED_ATTEMPTS + span / LOCK_DURATION_MS
  }

  lemma {:induction false} FewAttempts(k: nat)
    ensures k == 0 ==> Choose(k + MAX_FAILED_ATTEMPTS, MAX_FAILED_ATTEMPTS) == 1
    ensures k == 1 ==> Choose(k + MAX_FAILED_ATTEMPTS, MAX_FAILED_ATTEMPTS) == 6
    ensures k >= 2 ==> Choose(k + MAX_FAILED_ATTEMPTS, MAX_FAILED_ATTEMPTS) >= 21
  {
    LayerIsBinomial(TOP, k + 1);
    assert Layer(4, 1) == 1 && Layer(4, 2) == 6 && Layer(4, 3) == 21;
    if k >= 2 {
      LayerRises(TOP, 3, k + 1);
    }
  }

  lemma FewAllowed(k: nat, span: nat)
    requires k <= 1
    ensures Allowed(k, span) <= MAX_FAILED_ATTEMPTS + span / LOCK_DURATION_MS
  {
    FewAttempts(k);
    var q := span / LOCK_DURATION_MS;
    if k == 0 {
      assert 0 * q == 0;
    } else {
      assert 1 * q == q;
    }
  }

  lemma WithoutClears(s: State, steps: seq<Step>, start: int, k: nat, from: int, span: nat)
    requires s.compared == [] && Timed(s, steps, start, k) && Clears(steps) == 0
    ensures ComparedIn(Run(s, steps).compared, from, from + span) <= Allowed(k, span)
  {
    RoundsBoundComparisons(s, steps, start, k, from, span);
    BoundIsAllowed(k, span);
    assert Rounds(Bound(k, span), 1) == Rounds(Bound(k, span), 0) + Bound(k, span);
  }

  lemma OneAtATimeStaysWithinFive(s: State, steps: seq<Step>, start: int, k: nat, from: int, span: nat)
    requires k <= 1 && s.compared == [] && Timed(s, steps, start, k) && Clears(steps) == 0
    ensures WithinFive(s, steps, from, span)
  {
    FewAllowed(k, span);
    WithoutClears(s, steps, start, k, from, span);
  }

  lemma OverlappingExceedsFive(k: nat)
    requires k >= 2
    ensures Timed(FRESH, Fullest(k, 0), 0, k) && Clears(Fullest(k, 0)) == 0 && !WithinFive(FRESH, Fullest(k, 0), 0, 0)
  {
    FewAttempts(k);
    BoundIsAttained(k, 0);
  }

  /** The limit of five holds exactly when no two attempts are ever open at once. */
  lemma FiveAttemptsHoldOneAtATime(k: nat)
    ensures FiveAttemptsHold(k) <==> k <= 1
  {
    if k <= 1 {
      forall s: State, steps: seq<Step>, start: int, from: int, span: nat
        | s.compared == [] && Timed(s, steps, start, k) && Clears(steps) == 0
        ensures WithinFive(s, steps, from, span)
      {
        OneAtATimeStaysWithinFive(s, steps, start, k, from, span);
      }
    } else {
      OverlappingExceedsFive(k);
      assert FRESH.compared == [];
    }
  }

  /** Greedy runs at time 0 with a reset before each but the first. */
  function WithResets(k: nat, resets: nat): seq<Step> {
    if resets == 0 then Greedy(k, 0, 0, 0) else WithResets(k, resets - 1) + ([Reset(0)] + Greedy(k, 0, 0, 0))
  }

  lemma {:induction false} WithResetsRuns(k: nat, resets: nat) returns (account: Account)
    ensures Leads(FRESH, WithResets(k, resets), 0, 0, k,
                  State(account, [], Repeated(0, GreedyCount(k, MAX_FAILED_ATTEMPTS) * (resets + 1))))
    ensures Clears(WithResets(k, resets)) == resets
  {
    var n := GreedyCount(k, MAX_FAILED_ATTEMPTS);
    if resets == 0 {
      GreedyRuns(FRESH, k, 0, k);
      account := AfterGreedy(FRESH, k, 0).account;
      assert AfterGreedy(FRESH, k, 0) == State(account, [], Repeated(0, n));
    } else {
      var before := WithResetsRuns(k, resets - 1);
      var s := State(before, [], Repeated(0, n * resets));
      var s1 := Next(s, Reset(0));
      LeadsBy(s, Reset(0), 0, k);
      GreedyRuns(s1, k, 0, k);
      RepeatedAdds(0, n * resets, n);
      assert n * resets + n == n * (resets + 1);
      account := AfterGreedy(s1, k, 0).account;
      var s2 := State(account, [], Repeated(0, n * (resets + 1)));
      LeadsOn(s, [Reset(0)], 0, 0, k, s1, Greedy(k, 0, 0, 0), 0, s2);
      LeadsOn(FRESH, WithResets(k, resets - 1), 0, 0, k, s, [Reset(0)] + Greedy(k, 0, 0, 0), 0, s2);
    }
  }

  lemma AllowedAtOnce(k: nat)
    ensures GreedyCount(k, MAX_FAILED_ATTEMPTS) == Allowed(k, 0)
  {
    GreedyCountIsBinomial(k, MAX_FAILED_ATTEMPTS);
  }

  /** Every reset gives back a whole allowance, even at one instant and with one attempt at a time. */
  lemma ResetsGiveBackAllowance(k: nat, resets: nat)
    ensures Timed(FRESH, WithResets(k, resets), 0, k) && Clears(WithResets(k, resets)) == resets
    ensures ComparedIn(Run(FRESH, WithResets(k, resets)).compared, 0, 0) == Allowed(k, 0) * (resets + 1)
  {
    var account := WithResetsRuns(k, resets);
    AllowedAtOnce(k);
    var times := Repeated(0, GreedyCount(k, MAX_FAILED_ATTEMPTS) * (resets + 1));
    AllAreCompared(times, 0, 0);
  }

  // What the row says about the failures, one attempt at a time

  /**
   * The failed comparisons since the last successful login or reset, when the last of them was
   * written, and whether each of them was written to the row it had read.
   */
  datatype Record = Record(failures: nat, lastFailure: int, upToDate: bool)

  /** The step ends an open attempt. */
  predicate Ends(s: State, step: Step) {
    step.Finish? && step.call < |s.open|
  }

  /** The attempt's row was reset after the attempt had read it. */
  predicate ReadBeforeReset(s: State, step: Step) {
    Ends(s, step) && s.open[step.call] != s.account.failedLoginAttempts
  }

  function RecordOf(s: State, steps: seq<Step>): Record {
    if steps == [] then Record(0, 0, true)
    else
      var earlier, before, last := RecordOf(s, steps[..|steps| - 1]), Run(s, steps[..|steps| - 1]), steps[|steps| - 1];
      if last.Reset? || (Ends(before, last) && last.valid) then Record(0, 0, true)
      else if Ends(before, last) then
        Record(earlier.failures + 1, last.at, earlier.upToDate && !ReadBeforeReset(before, last))
      else earlier
  }

  /** At most one attempt is open at every point. */
  predicate OneOpen(s: State, steps: seq<Step>) {
    |Run(s, steps).open| <= 1 && (steps == [] || OneOpen(s, steps[..|steps| - 1]))
  }

  /** The row counts the recorded failures, locks from the fifth on, and an open attempt read it or an earlier one. */
  predicate RowRecords(s: State, r: Record) {
    && s.account.failedLoginAttempts >= r.failures
    && (s.account.failedLoginAttempts == r.failures <==> r.upToDate)
    && s.account.lockedUntil == (if s.account.failedLoginAttempts >= 5 then Some(r.lastFailure + 15 * 60 * 1000) else None)
    && (r.failures == 0 ==> r.upToDate)
    && |s.open| <= 1
    && (s.open != [] && s.open[0] != s.account.failedLoginAttempts ==> s.open[0] > 0 && s.account.failedLoginAttempts == 0)
  }

  lemma StepRecords(s: State, step: Step, r: Record, after: State, now: Record)
    requires RowRecords(s, r) && after == Next(s, step) && |after.open| <= 1
    requires now == if step.Reset? || (Ends(s, step) && step.valid) then Record(0, 0, true)
                    else if Ends(s, step) then Record(r.failures + 1, step.at, r.upToDate && !ReadBeforeReset(s, step))
                    else r
    ensures RowRecords(after, now)
  {
  }

  /**
   * From a fresh account, with at most one attempt open at a time: the counter is the number of
   * failed comparisons since the last successful login or reset if and only if none of them had
   * read the row before that reset; it is never less. The row carries a lock exactly from the
   * fifth failure it counts on, until 15 minutes after the last one.
   */
  lemma {:induction false} CounterCountsFailures(steps: seq<Step>)
    requires OneOpen(FRESH, steps)
    ensures RowRecords(Run(FRESH, steps), RecordOf(FRESH, steps))
  {
    if steps != [] {
      CounterCountsFailures(steps[..|steps| - 1]);
      StepRecords(Run(FRESH, steps[..|steps| - 1]), steps[|steps| - 1], RecordOf(FRESH, steps[..|steps| - 1]),
                  Run(FRESH, steps), RecordOf(FRESH, steps));
    }
  }

  /**
   * A reset while an attempt is open: when that attempt fails, one failure has come since the reset, yet the row
   * holds one more than before it, and is locked if that makes five.
   */
  lemma ResetDuringAttemptIsUndone(s: State, at: int)
    requires s.open == [] && !IsLocked(s.account, at)
    ensures
      var steps, failures := [Begin(at), Reset(at), Finish(0, false, at)], s.account.failedLoginAttempts;
      && RecordOf(s, steps).failures == 1
      && Run(s, steps).account == Account(failures + 1, if failures >= 4 then Some(at + 15 * 60 * 1000) else None)
  {
    var steps := [Begin(at), Reset(at), Finish(0, false, at)];
    assert steps[..2] == [Begin(at), Reset(at)] && steps[..2][..1] == [Begin(at)] && [Begin(at)][..0] == [];
    var begun := Next(s, Begin(at));
    assert Run(s, [Begin(at)]) == begun;
    assert Run(s, steps[..2]) == Next(begun, Reset(at));
    assert RecordOf(s, steps[..2]) == Record(0, 0, true);
  }

  /**
   * The next whole attempt after such a run is refused without looking at the password if and only if the row
   * counts five failures and the last one is less than 15 minutes old; else the password decides, and a success
   * clears the row, a failure is added to it.
   */
  lemma AttemptAnswersByRecord(steps: seq<Step>, attempt: Attempt)
    requires OneOpen(FRESH, steps)
    ensures
      var before, last := Run(FRESH, steps).account, RecordOf(FRESH, steps).lastFailure;
      var (after, outcome) := Authorize(before, attempt);
      && (outcome == Locked
          <==> before.failedLoginAttempts >= 5 && attempt.started < last + 15 * 60 * 1000)
      && (outcome != Locked ==> (outcome == LoggedIn <==> attempt.valid))
      && match outcome
         case Locked => after == before
         case LoggedIn => after == Account(0, None)
         case Rejected =>
           after == Account(before.failedLoginAttempts + 1,
                            if before.failedLoginAttempts >= 4 then Some(attempt.finished + 15 * 60 * 1000) else None)
  {
    CounterCountsFailures(steps);
  }

  /** An attempt with a wrong password at each of these times. */
  function WrongAt(times: seq<int>): seq<Step> {
    if times == [] then [] else WrongAt(times[..|times| - 1]) + [Begin(times[|times| - 1])] + [Finish(0, false, times[|times| - 1])]
  }

  lemma RunTwo(s: State, steps: seq<Step>, a: Step, b: Step, before: State)
    requires before == Run(s, steps)
    ensures Run(s, steps + [a] + [b]) == Next(Next(before, a), b)
  {
    assert (steps + [a] + [b])[..|steps| + 1] == steps + [a];
    assert (steps + [a])[..|steps|] == steps;
  }

  /**
   * After a successful login, whatever came before it: up to four wrong passwords never lock the
   * account, and the fifth locks it for 15 minutes.
   */
  lemma {:induction false} FifthFailureAfterLoginLocks(s: State, at: int, times: seq<int>)
    requires |s.open| == 1 && |times| <= 5
    ensures
      var account := Run(Next(s, Finish(0, true, at)), WrongAt(times)).account;
      && account.failedLoginAttempts == |times|
      && account.lockedUntil == if |times| < 5 then None else Some(times[4] + 15 * 60 * 1000)
    ensures Run(Next(s, Finish(0, true, at)), WrongAt(times)).open == []
  {
    var cleared := Next(s, Finish(0, true, at));
    assert cleared.open == [];
    if times != [] {
      var n, t := |times| - 1, times[|times| - 1];
      FifthFailureAfterLoginLocks(s, at, times[..n]);
      var before := Run(cleared, WrongAt(times[..n]));
      RunTwo(cleared, WrongAt(times[..n]), Begin(t), Finish(0, false, t), before);
      assert Next(before, Begin(t)).open == [n];
    }
  }
}
