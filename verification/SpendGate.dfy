/** The monthly AI spend gate: a cap in cents checked against a ledger in dollars. */
module SpendGate {
  import opened Wrappers

  const WARNING_RATIO := 0.8

  /** Math.round: halves go up. */
  function Round(x: real): int {
    (x + 0.5).Floor
  }

  function UsdToCents(usd: real): int {
    var cents := Round(usd * 100.0);
    if cents < 0 then 0 else cents
  }

  /** Rows of this month; a row without an estimated cost does not contribute. */
  function PeriodUsd(ledger: seq<Option<real>>): real {
    if ledger == [] then 0.0
    else PeriodUsd(ledger[..|ledger| - 1]) +
         (var last := ledger[|ledger| - 1]; if last.Some? then last.value else 0.0)
  }

  datatype Admission =
    | Unlimited
    | Within(spentCents: int, capCents: int, warning: bool)
    | SpendCapExceeded(spentCents: int, capCents: int)

  function AssertWithinSpendCap(cap: Option<int>, ledger: seq<Option<real>>, estimated: int): Admission {
    if cap.None? then Unlimited
    else
      var spent := UsdToCents(PeriodUsd(ledger));
      if spent + estimated > cap.value then SpendCapExceeded(spent, cap.value)
      else
        var threshold := (cap.value as real * WARNING_RATIO).Floor;
        Within(spent, cap.value, threshold <= spent + estimated)
  }

  /** The rounded cents are the nearest ones, halves going up; a negative amount counts as nothing. */
  lemma CentsAreNearest(usd: real, cents: int)
    ensures usd >= 0.0 ==> (UsdToCents(usd) == cents <==> cents as real - 0.5 <= usd * 100.0 < cents as real + 0.5)
    ensures usd < 0.0 ==> UsdToCents(usd) == 0
  {
  }

  /**
   * Without a cap every call is admitted, whatever the ledger holds. With one, a call is refused if and only if
   * spend and estimate together pass the cap; an admitted one warns from the whole cents of 80% of the cap on.
   */
  lemma CapDecides(cap: Option<int>, ledger: seq<Option<real>>, estimated: int)
    ensures
      var answer := AssertWithinSpendCap(cap, ledger, estimated);
      if cap.None? then answer == Unlimited
      else
        var spent := UsdToCents(PeriodUsd(ledger));
        if spent + estimated > cap.value then answer == SpendCapExceeded(spent, cap.value)
        else
          && answer.Within? && answer.spentCents == spent && answer.capCents == cap.value
          && (answer.warning <==> (spent + estimated + 1) as real * 10.0 > cap.value as real * 8.0)
  {
    if cap.Some? {
      WholeCentsReached(UsdToCents(PeriodUsd(ledger)) + estimated, cap.value as real * 0.8);
    }
  }

  lemma WholeCentsReached(n: int, x: real)
    ensures x.Floor <= n <==> x < (n + 1) as real
  {
  }

  /** `inFlight` holds the estimates of admitted calls whose cost is not in the ledger yet. */
  datatype Gate = Gate(cap: Option<int>, ledger: seq<Option<real>>, inFlight: seq<int>)

  datatype Step =
    | Dispatch(estimated: int)
    | Complete(call: nat, cost: Option<real>)
    | NewMonth
    | SetBudget(cap: Option<int>)

  function Next(g: Gate, step: Step): Gate {
    match step
    case Dispatch(estimated) =>
      if AssertWithinSpendCap(g.cap, g.ledger, estimated).SpendCapExceeded? then g
      else g.(inFlight := g.inFlight + [estimated])
    case Complete(call, cost) =>
      if call < |g.inFlight|
      then g.(ledger := g.ledger + [cost], inFlight := g.inFlight[..call] + g.inFlight[call + 1..]) else g
    case NewMonth => g.(ledger := [])
    case SetBudget(cap) => g.(cap := cap)
  }

  function Run(g: Gate, steps: seq<Step>): Gate {
    if steps == [] then g else Next(Run(g, steps[..|steps| - 1]), steps[|steps| - 1])
  }

  /**
   * What the callers promise: estimates are at most `most`, a call costs at most its estimate,
   * a budget is set to at most `cap`, and at most `calls` admitted calls are in flight.
   */
  ghost predicate Promised(g: Gate, step: Step, cap: int, calls: nat, most: nat) {
    && (step.Dispatch? ==> 0 <= step.estimated <= most)
    && (step.Complete? && step.cost.Some? && step.call < |g.inFlight| ==>
          0.0 <= step.cost.value && step.cost.value * 100.0 <= g.inFlight[step.call] as real)
    && (step.SetBudget? ==> step.cap.Some? && step.cap.value <= cap)
    && |Next(g, step).inFlight| <= calls
  }

  ghost predicate Behaved(g: Gate, steps: seq<Step>, cap: int, calls: nat, most: nat) {
    steps != [] ==>
      && Behaved(g, steps[..|steps| - 1], cap, calls, most)
      && Promised(Run(g, steps[..|steps| - 1]), steps[|steps| - 1], cap, calls, most)
  }

  function Total(estimates: seq<int>): int {
    if estimates == [] then 0 else Total(estimates[..|estimates| - 1]) + estimates[|estimates| - 1]
  }

  lemma {:induction false} TotalConcat(a: seq<int>, b: seq<int>)
    ensures Total(a + b) == Total(a) + Total(b)
  {
    if b == [] {
      assert a + b == a;
    } else {
      assert (a + b)[..|a + b| - 1] == a + b[..|b| - 1];
      TotalConcat(a, b[..|b| - 1]);
    }
  }

  lemma TotalAppend(s: seq<int>, x: int)
    ensures Total(s + [x]) == Total(s) + x
  {
    TotalConcat(s, [x]);
    assert [x][..0] == [];
  }

  lemma SplitAt(s: seq<int>, i: nat)
    requires i < |s|
    ensures s == s[..i] + [s[i]] + s[i + 1..]
  {
  }

  lemma TotalWithout(s: seq<int>, i: nat)
    requires i < |s|
    ensures Total(s[..i] + s[i + 1..]) == Total(s) - s[i]
  {
    TotalConcat(s[..i], s[i + 1..]);
    TotalAppend(s[..i], s[i]);
    TotalConcat(s[..i] + [s[i]], s[i + 1..]);
    SplitAt(s, i);
  }

  lemma {:induction false} TotalBound(s: seq<int>, most: nat)
    requires forall i :: 0 <= i < |s| ==> 0 <= s[i] <= most
    ensures 0 <= Total(s) <= |s| * most
  {
    if s != [] {
      TotalBound(s[..|s| - 1], most);
      assert |s| * most == (|s| - 1) * most + most;
    }
  }

  lemma PeriodAppend(ledger: seq<Option<real>>, cost: Option<real>)
    ensures PeriodUsd(ledger + [cost]) == PeriodUsd(ledger) + (if cost.Some? then cost.value else 0.0)
  {
    assert (ledger + [cost])[..|ledger|] == ledger;
  }

  lemma RoundShift(x: real, n: int)
    ensures Round(x + n as real) == Round(x) + n
  {
  }

  /** Rounded spend plus everything still in flight. Whole-cent estimates commute with rounding. */
  function Committed(g: Gate): int {
    Round(PeriodUsd(g.ledger) * 100.0) + Total(g.inFlight)
  }

  ghost predicate Sound(g: Gate, cap: int, calls: nat, most: nat, bound: int) {
    && g.cap.Some? && g.cap.value <= cap
    && 0.0 <= PeriodUsd(g.ledger)
    && |g.inFlight| <= calls
    && (forall i :: 0 <= i < |g.inFlight| ==> 0 <= g.inFlight[i] <= most)
    && Committed(g) <= bound
  }

  lemma ProductRises(n: int, m: int, most: nat)
    requires n <= m
    ensures n * most <= m * most
  {
  }

  lemma DispatchKeepsSound(g: Gate, estimated: int, cap: int, calls: nat, most: nat, bound: int)
    requires Sound(g, cap, calls, most, bound) && Promised(g, Dispatch(estimated), cap, calls, most)
    requires cap + (calls - 1) * most <= bound
    ensures Sound(Next(g, Dispatch(estimated)), cap, calls, most, bound)
  {
    var after := Next(g, Dispatch(estimated));
    if after != g {
      TotalAppend(g.inFlight, estimated);
      TotalBound(g.inFlight, most);
      assert |after.inFlight| == |g.inFlight| + 1;
      ProductRises(|g.inFlight|, calls - 1, most);
    }
  }

  lemma CompleteKeepsSound(g: Gate, call: nat, cost: Option<real>, cap: int, calls: nat, most: nat, bound: int)
    requires Sound(g, cap, calls, most, bound) && Promised(g, Complete(call, cost), cap, calls, most)
    ensures Sound(Next(g, Complete(call, cost)), cap, calls, most, bound)
  {
    if call < |g.inFlight| {
      PeriodAppend(g.ledger, cost);
      TotalWithout(g.inFlight, call);
      RoundShift(PeriodUsd(g.ledger) * 100.0, g.inFlight[call]);
      var paid := if cost.Some? then cost.value else 0.0;
      assert (PeriodUsd(g.ledger) + paid) * 100.0 == PeriodUsd(g.ledger) * 100.0 + paid * 100.0;
      assert (PeriodUsd(g.ledger) + paid) * 100.0 <= PeriodUsd(g.ledger) * 100.0 + g.inFlight[call] as real;
    }
  }

  lemma {:induction false} RunKeepsSound(g: Gate, steps: seq<Step>, cap: int, calls: nat, most: nat, bound: int)
    requires Sound(g, cap, calls, most, bound) && Behaved(g, steps, cap, calls, most)
    requires cap + (calls - 1) * most <= bound
    ensures Sound(Run(g, steps), cap, calls, most, bound)
  {
    if steps != [] {
      var before := Run(g, steps[..|steps| - 1]);
      RunKeepsSound(g, steps[..|steps| - 1], cap, calls, most, bound);
      match steps[|steps| - 1]
      case Dispatch(estimated) => DispatchKeepsSound(before, estimated, cap, calls, most, bound);
      case Complete(call, cost) => CompleteKeepsSound(before, call, cost, cap, calls, most, bound);
      case NewMonth =>
        assert Round(0.0) == 0 <= Round(PeriodUsd(before.ledger) * 100.0);
      case SetBudget(_) =>
    }
  }

  /**
   * If every call costs at most its estimate and at most `calls` admitted calls are in flight
   * with estimates of at most `most` cents, the rounded spend of the month never exceeds
   * cap + (calls - 1) * most, or what it already was; through month changes and any budgets up
   * to `cap`.
   */
  lemma SpendNeverExceedsBound(g: Gate, steps: seq<Step>, cap: int, calls: nat, most: nat)
    requires g.inFlight == [] && g.cap.Some? && g.cap.value <= cap && 0.0 <= PeriodUsd(g.ledger)
    requires Behaved(g, steps, cap, calls, most)
    ensures
      var already := UsdToCents(PeriodUsd(g.ledger));
      var bound := cap + (calls - 1) * most;
      UsdToCents(PeriodUsd(Run(g, steps).ledger)) <= if bound < already then already else bound
  {
    var already := UsdToCents(PeriodUsd(g.ledger));
    var bound := cap + (calls - 1) * most;
    var larger := if bound < already then already else bound;
    RunKeepsSound(g, steps, cap, calls, most, larger);
    TotalBound(Run(g, steps).inFlight, most);
  }

  /** One call at a time: the rounded spend never exceeds a cap that was not exceeded before. */
  lemma SequentialSpendStaysWithinCap(g: Gate, steps: seq<Step>, cap: int, most: nat)
    requires g.inFlight == [] && g.cap.Some? && g.cap.value <= cap
    requires 0.0 <= PeriodUsd(g.ledger) && UsdToCents(PeriodUsd(g.ledger)) <= cap
    requires Behaved(g, steps, cap, 1, most)
    ensures UsdToCents(PeriodUsd(Run(g, steps).ledger)) <= cap
  {
    SpendNeverExceedsBound(g, steps, cap, 1, most);
  }

  /** All calls are dispatched before the first one completes, and each costs its estimate. */
  function Rush(calls: nat, most: nat, completed: nat): seq<Step>
    requires completed <= calls
  {
    seq(calls, _ => Dispatch(most)) + seq(completed, _ => Complete(0, Some(most as real / 100.0)))
  }

  lemma {:induction false} RushDispatches(g: Gate, cap: int, calls: nat, most: nat, sent: nat)
    requires g.cap == Some(cap) && g.inFlight == [] && sent <= calls
    requires UsdToCents(PeriodUsd(g.ledger)) + most <= cap
    ensures Behaved(g, seq(sent, _ => Dispatch(most)), cap, calls, most)
    ensures Run(g, seq(sent, _ => Dispatch(most))) == g.(inFlight := seq(sent, _ => most))
  {
    var steps: seq<Step> := seq(sent, _ => Dispatch(most));
    if sent > 0 {
      var fewer: seq<Step> := seq(sent - 1, _ => Dispatch(most));
      assert steps[..sent - 1] == fewer;
      RushDispatches(g, cap, calls, most, sent - 1);
      var flying: seq<int> := seq(sent - 1, _ => most);
      assert flying + [most as int] == seq(sent, _ => most as int);
    }
  }

  /** n * most, added up one call at a time. */
  function Times(n: nat, most: nat): nat {
    if n == 0 then 0 else Times(n - 1, most) + most
  }

  lemma {:induction false} TimesIsProduct(n: nat, most: nat)
    ensures Times(n, most) == n * most
  {
    if n > 0 {
      TimesIsProduct(n - 1, most);
      assert n * most == (n - 1) * most + most;
    }
  }

  /** Completing the first call in flight at exactly its estimate moves it into the ledger. */
  lemma CompleteAtEstimate(g: Gate, cap: int, calls: nat, most: nat)
    requires g.inFlight != [] && g.inFlight[0] == most && |g.inFlight| <= calls
    ensures
      var step := Complete(0, Some(most as real / 100.0));
      && Promised(g, step, cap, calls, most)
      && Next(g, step).cap == g.cap
      && Next(g, step).inFlight == g.inFlight[1..]
      && PeriodUsd(Next(g, step).ledger) * 100.0 == PeriodUsd(g.ledger) * 100.0 + most as real
  {
    var cost := most as real / 100.0;
    assert cost * 100.0 == most as real;
    PeriodAppend(g.ledger, Some(cost));
    assert g.inFlight[..0] + g.inFlight[1..] == g.inFlight[1..];
  }

  lemma {:induction false} RushCompletes(g: Gate, cap: int, calls: nat, most: nat, completed: nat)
    requires g.cap == Some(cap) && g.inFlight == [] && completed <= calls
    requires UsdToCents(PeriodUsd(g.ledger)) + most <= cap
    ensures Behaved(g, Rush(calls, most, completed), cap, calls, most)
    ensures Run(g, Rush(calls, most, completed)).inFlight == seq(calls - completed, _ => most)
    ensures PeriodUsd(Run(g, Rush(calls, most, completed)).ledger) * 100.0
              == PeriodUsd(g.ledger) * 100.0 + Times(completed, most) as real
  {
    var steps := Rush(calls, most, completed);
    if completed == 0 {
      RushDispatches(g, cap, calls, most, calls);
      assert steps == seq(calls, _ => Dispatch(most));
    } else {
      RushCompletes(g, cap, calls, most, completed - 1);
      RushStep(calls, most, completed);
      RushStepCompletes(Run(g, Rush(calls, most, completed - 1)), cap, calls, most, completed);
    }
  }

  lemma RushStepCompletes(before: Gate, cap: int, calls: nat, most: nat, completed: nat)
    requires 1 <= completed <= calls && before.inFlight == seq(calls - completed + 1, _ => most)
    ensures
      var step := Complete(0, Some(most as real / 100.0));
      && Promised(before, step, cap, calls, most)
      && Next(before, step).cap == before.cap
      && Next(before, step).inFlight == seq(calls - completed, _ => most)
      && PeriodUsd(Next(before, step).ledger) * 100.0 == PeriodUsd(before.ledger) * 100.0 + most as real
  {
    CompleteAtEstimate(before, cap, calls, most);
    assert before.inFlight[1..] == seq(calls - completed, _ => most as int);
  }

  lemma RushStep(calls: nat, most: nat, completed: nat)
    requires 1 <= completed <= calls
    ensures
      var steps := Rush(calls, most, completed);
      && steps[..|steps| - 1] == Rush(calls, most, completed - 1)
      && steps[|steps| - 1] == Complete(0, Some(most as real / 100.0))
  {
  }

  lemma CentsOf(cents: nat)
    ensures cents as real / 100.0 * 100.0 == cents as real
    ensures UsdToCents(cents as real / 100.0) == cents
  {
  }

  lemma WholeCents(usd: real, cents: nat)
    requires usd * 100.0 == cents as real
    ensures UsdToCents(usd) == cents
  {
  }

  lemma TotalOfRush(cap: nat, calls: nat, most: nat)
    ensures cap - most + Times(calls, most) == cap + (calls - 1) * most
  {
    TimesIsProduct(calls, most);
    assert calls * most == (calls - 1) * most + most;
  }

  /** The bound is tight: some behaved run ends with a rounded spend of exactly cap + (calls - 1) * most. */
  lemma BoundIsAttained(cap: nat, calls: nat, most: nat)
    requires calls >= 1 && most <= cap
    ensures
      var g := Gate(Some(cap), [Some((cap - most) as real / 100.0)], []);
      && Behaved(g, Rush(calls, most, calls), cap, calls, most)
      && UsdToCents(PeriodUsd(Run(g, Rush(calls, most, calls)).ledger)) == cap + (calls - 1) * most
  {
    var start := (cap - most) as real / 100.0;
    var g := Gate(Some(cap), [Some(start)], []);
    assert g.ledger[..0] == [];
    assert PeriodUsd(g.ledger) == start;
    CentsOf(cap - most);
    RushCompletes(g, cap, calls, most, calls);
    var total: nat := cap - most + Times(calls, most);
    assert PeriodUsd(Run(g, Rush(calls, most, calls)).ledger) * 100.0 == total as real;
    WholeCents(PeriodUsd(Run(g, Rush(calls, most, calls)).ledger), total);
    TotalOfRush(cap, calls, most);
  }

  // Without a cap

  predicate NoBudget(steps: seq<Step>) {
    forall i :: 0 <= i < |steps| ==> steps[i].SetBudget? ==> steps[i].cap.None?
  }

  function Dispatched(steps: seq<Step>): nat {
    if steps == [] then 0
    else Dispatched(steps[..|steps| - 1]) + if steps[|steps| - 1].Dispatch? then 1 else 0
  }

  function Completed(g: Gate, steps: seq<Step>): nat {
    if steps == [] then 0
    else
      var last := steps[|steps| - 1];
      Completed(g, steps[..|steps| - 1])
      + if last.Complete? && last.call < |Run(g, steps[..|steps| - 1]).inFlight| then 1 else 0
  }

  /** As long as no cap is set no call is ever refused: every dispatch goes into flight and stays there until it completes. */
  lemma {:induction false} NoCapAdmitsAll(g: Gate, steps: seq<Step>)
    requires g.cap.None? && NoBudget(steps)
    ensures Run(g, steps).cap.None?
    ensures |Run(g, steps).inFlight| == |g.inFlight| + Dispatched(steps) - Completed(g, steps)
  {
    if steps != [] {
      NoCapAdmitsAll(g, steps[..|steps| - 1]);
      assert steps[|steps| - 1].SetBudget? ==> steps[|steps| - 1].cap.None?;
    }
  }
}
