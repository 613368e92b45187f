/** Retention of agent artifacts: how far each step's detail has been reduced. Times are milliseconds. */
module Retention {
  import opened Wrappers

  const DAY_MS := 24 * 60 * 60 * 1000
  const BATCH := 500

  datatype Config = Config(
    toolCallPayloadDays: int, stepFullDetailDays: int, stepSkeletonAfterDays: int, partialResultsFullDays: int)

  const DEFAULT := Config(14, 30, 180, 30)

  datatype Update = Update(
    toolCallPayloadDays: Option<int>, stepFullDetailDays: Option<int>, stepSkeletonAfterDays: Option<int>,
    partialResultsFullDays: Option<int>)

  function OrElse(value: Option<int>, current: int): int {
    if value.Some? then value.value else current
  }

  predicate ValidConfig(c: Config) {
    && c.toolCallPayloadDays >= 1 && c.stepFullDetailDays >= 1 && c.stepSkeletonAfterDays >= 1
    && c.partialResultsFullDays >= 1 && c.stepSkeletonAfterDays >= c.stepFullDetailDays
  }

  /** Values not given keep the current setting; an invalid combination is refused and not stored. */
  function SetRetention(stored: Option<Config>, update: Update): Result<Config, string> {
    var current := if stored.Some? then stored.value else DEFAULT;
    var next := Config(OrElse(update.toolCallPayloadDays, current.toolCallPayloadDays),
                       OrElse(update.stepFullDetailDays, current.stepFullDetailDays),
                       OrElse(update.stepSkeletonAfterDays, current.stepSkeletonAfterDays),
                       OrElse(update.partialResultsFullDays, current.partialResultsFullDays));
    if ValidConfig(next) then Ok(next) else Err("invalid retention")
  }

  /**
   * An update keeps what it does not give; it is refused, leaving what was stored, exactly when a value falls
   * below a day or the two step ages cross.
   */
  lemma UpdateIsMerged(stored: Option<Config>, update: Update)
    ensures
      var before, answer := if stored.Some? then stored.value else Config(14, 30, 180, 30), SetRetention(stored, update);
      var tool := if update.toolCallPayloadDays.Some? then update.toolCallPayloadDays.value else before.toolCallPayloadDays;
      var full := if update.stepFullDetailDays.Some? then update.stepFullDetailDays.value else before.stepFullDetailDays;
      var skeleton := if update.stepSkeletonAfterDays.Some? then update.stepSkeletonAfterDays.value
                      else before.stepSkeletonAfterDays;
      var partial := if update.partialResultsFullDays.Some? then update.partialResultsFullDays.value
                     else before.partialResultsFullDays;
      if tool < 1 || full < 1 || partial < 1 || skeleton < full then answer.Err? && ApplyUpdate(stored, update) == stored
      else
        && answer == Ok(Config(tool, full, skeleton, partial))
        && ApplyUpdate(stored, update) == Some(Config(tool, full, skeleton, partial))
  {
  }

  function DaysAgo(now: int, days: int): int {
    now - days * DAY_MS
  }

  /** How the four cutoffs of a sweep are computed: one clock reading each, in this order. */
  datatype Cutoffs = Cutoffs(tool: int, compact: int, skeleton: int, partial: int)

  function CutoffsAt(c: Config, toolNow: int, compactNow: int, skeletonNow: int, partialNow: int): Cutoffs {
    Cutoffs(DaysAgo(toolNow, c.toolCallPayloadDays), DaysAgo(compactNow, c.stepFullDetailDays),
            DaysAgo(skeletonNow, c.stepSkeletonAfterDays), DaysAgo(partialNow, c.partialResultsFullDays))
  }

  /** Every stored setting is valid, whatever sequence of updates produced it. */
  lemma {:induction false} StoredSettingsStayValid(stored: Option<Config>, updates: seq<Update>)
    requires stored.Some? ==> ValidConfig(stored.value)
    ensures ApplyUpdates(stored, updates).Some? ==> ValidConfig(ApplyUpdates(stored, updates).value)
    decreases |updates|
  {
    if updates != [] {
      StoredSettingsStayValid(ApplyUpdate(stored, updates[0]), updates[1..]);
    }
  }

  function ApplyUpdate(stored: Option<Config>, update: Update): Option<Config> {
    var result := SetRetention(stored, update);
    if result.Ok? then Some(result.value) else stored
  }

  function ApplyUpdates(stored: Option<Config>, updates: seq<Update>): Option<Config>
    decreases |updates|
  {
    if updates == [] then stored else ApplyUpdates(ApplyUpdate(stored, updates[0]), updates[1..])
  }

  /**
   * A valid setting puts the skeleton cutoff at or before the compact cutoff exactly when the
   * time between the two clock readings does not exceed the difference of the two settings.
   */
  lemma SkeletonCutoffIsNotLater(c: Config, toolNow: int, compactNow: int, skeletonNow: int, partialNow: int)
    requires ValidConfig(c)
    ensures
      var cutoffs := CutoffsAt(c, toolNow, compactNow, skeletonNow, partialNow);
      && (cutoffs.skeleton <= cutoffs.compact
          <==> skeletonNow - compactNow <= (c.stepSkeletonAfterDays - c.stepFullDetailDays) * DAY_MS)
      && (skeletonNow == compactNow ==> cutoffs.skeleton <= cutoffs.compact)
  {
    assert (c.stepSkeletonAfterDays - c.stepFullDetailDays) * DAY_MS >= 0;
  }

  datatype Level = Full | Compact | Skeleton

  function Rank(level: Level): nat {
    match level
    case Full => 0
    case Compact => 1
    case Skeleton => 2
  }

  datatype Step = Step(createdAt: int, level: Level, input: string, output: Option<string>)

  datatype Run = Run(createdAt: int, summarised: bool, partialResults: Option<string>, finalOutput: string)

  datatype ToolCall = ToolCall(createdAt: int, cleared: bool, payload: string)

  /** One organisation's artifacts, by id. */
  datatype Tables = Tables(steps: map<nat, Step>, runs: map<nat, Run>, toolCalls: map<nat, ToolCall>)

  datatype SweepResult = SweepResult(
    toolCallsCleared: nat, stepsCompacted: nat, stepsSkeletonised: nat, partialResultsCollapsed: nat)

  function OldDetailed(steps: map<nat, Step>, cutoff: int): set<nat> {
    set id | id in steps && steps[id].createdAt < cutoff && steps[id].level != Skeleton
  }

  function OldFull(steps: map<nat, Step>, cutoff: int): set<nat> {
    set id | id in steps && steps[id].createdAt < cutoff && steps[id].level == Full
  }

  function OldPartial(runs: map<nat, Run>, cutoff: int): set<nat> {
    set id | id in runs && runs[id].createdAt < cutoff && !runs[id].summarised && runs[id].partialResults.Some?
  }

  function OldPayloads(toolCalls: map<nat, ToolCall>, cutoff: int): set<nat> {
    set id | id in toolCalls && toolCalls[id].createdAt < cutoff && !toolCalls[id].cleared
  }

  function Skeletonise(step: Step): Step {
    step.(level := Skeleton, input := "skeleton", output := None)
  }

  /** The structural arguments and the truncated preview are opaque texts. */
  function CompactStep(step: Step): Step {
    step.(level := Compact, input := "structural", output := if step.output.None? then None else Some("preview"))
  }

  function Collapse(run: Run): Run {
    run.(summarised := true, partialResults := Some("summary"))
  }

  function Clear(call: ToolCall): ToolCall {
    call.(cleared := true, payload := "")
  }

  function SkeletoniseAll(steps: map<nat, Step>, chosen: set<nat>): map<nat, Step> {
    map id | id in steps :: if id in chosen then Skeletonise(steps[id]) else steps[id]
  }

  function CompactAll(steps: map<nat, Step>, chosen: set<nat>): map<nat, Step> {
    map id | id in steps :: if id in chosen then CompactStep(steps[id]) else steps[id]
  }

  function CollapseAll(runs: map<nat, Run>, chosen: set<nat>): map<nat, Run> {
    map id | id in runs :: if id in chosen then Collapse(runs[id]) else runs[id]
  }

  function ClearAll(toolCalls: map<nat, ToolCall>, chosen: set<nat>): map<nat, ToolCall> {
    map id | id in toolCalls :: if id in chosen then Clear(toolCalls[id]) else toolCalls[id]
  }

  /** Up to BATCH rows of a query, whichever the database returns. */
  ghost predicate IsBatch(chosen: set<nat>, eligible: set<nat>) {
    chosen <= eligible && |chosen| == if |eligible| <= BATCH then |eligible| else BATCH
  }

  /** One sweep, with the rows each of its three batches picked. */
  ghost predicate Sweep(before: Tables, cutoffs: Cutoffs, toSkeleton: set<nat>, toCompact: set<nat>,
                        toCollapse: set<nat>, after: Tables, result: SweepResult)
  {
    var middle := SkeletoniseAll(before.steps, toSkeleton);
    && IsBatch(toSkeleton, OldDetailed(before.steps, cutoffs.skeleton))
    && IsBatch(toCompact, OldFull(middle, cutoffs.compact))
    && IsBatch(toCollapse, OldPartial(before.runs, cutoffs.partial))
    && after.steps == CompactAll(middle, toCompact)
    && after.runs == CollapseAll(before.runs, toCollapse)
    && after.toolCalls == ClearAll(before.toolCalls, OldPayloads(before.toolCalls, cutoffs.tool))
    && result == SweepResult(|OldPayloads(before.toolCalls, cutoffs.tool)|, |toCompact|, |toSkeleton|, |toCollapse|)
  }

  /** The organisation's tables; a sweep updates one row at a time. */
  class Artifacts {
    var steps: map<nat, Step>
    var runs: map<nat, Run>
    var toolCalls: map<nat, ToolCall>

    function View(): Tables
      reads this
    {
      Tables(steps, runs, toolCalls)
    }

    method SkeletoniseBatch(chosen: set<nat>) returns (count: nat)
      requires forall id :: id in chosen ==> id in steps && steps[id].level != Skeleton
      modifies this`steps
      ensures steps == SkeletoniseAll(old(steps), chosen)
      ensures count == |chosen|
    {
      var todo := chosen;
      count := 0;
      while todo != {}
        invariant todo <= chosen && count + |todo| == |chosen|
        invariant steps == SkeletoniseAll(old(steps), chosen - todo)
      {
        var id :| id in todo;
        if steps[id].level != Skeleton {
          steps := steps[id := Skeletonise(steps[id])];
          count := count + 1;
        }
        todo := todo - {id};
      }
    }

    method CompactBatch(chosen: set<nat>) returns (count: nat)
      requires forall id :: id in chosen ==> id in steps && steps[id].level == Full
      modifies this`steps
      ensures steps == CompactAll(old(steps), chosen)
      ensures count == |chosen|
    {
      var todo := chosen;
      count := 0;
      while todo != {}
        invariant todo <= chosen && count + |todo| == |chosen|
        invariant steps == CompactAll(old(steps), chosen - todo)
      {
        var id :| id in todo;
        if steps[id].level == Full {
          steps := steps[id := CompactStep(steps[id])];
          count := count + 1;
        }
        todo := todo - {id};
      }
    }

    method CollapseBatch(chosen: set<nat>) returns (count: nat)
      requires forall id :: id in chosen ==> id in runs && !runs[id].summarised
      modifies this`runs
      ensures runs == CollapseAll(old(runs), chosen)
      ensures count == |chosen|
    {
      var todo := chosen;
      count := 0;
      while todo != {}
        invariant todo <= chosen && count + |todo| == |chosen|
        invariant runs == CollapseAll(old(runs), chosen - todo)
      {
        var id :| id in todo;
        if !runs[id].summarised {
          runs := runs[id := Collapse(runs[id])];
          count := count + 1;
        }
        todo := todo - {id};
      }
    }

    /** Rows of a query, limited to BATCH, whichever the database returns first. */
    method TakeBatch(eligible: set<nat>) returns (chosen: set<nat>)
      ensures IsBatch(chosen, eligible)
    {
      chosen := {};
      var rest := eligible;
      while rest != {} && |chosen| < BATCH
        invariant chosen <= eligible && rest == eligible - chosen
        invariant |chosen| + |rest| == |eligible|
        invariant |chosen| <= BATCH
      {
        var id :| id in rest;
        chosen := chosen + {id};
        rest := rest - {id};
      }
    }

    method Prune(cutoffs: Cutoffs)
      returns (result: SweepResult, ghost toSkeleton: set<nat>, ghost toCompact: set<nat>, ghost toCollapse: set<nat>)
      modifies this
      ensures Sweep(old(View()), cutoffs, toSkeleton, toCompact, toCollapse, View(), result)
    {
      var payloads := OldPayloads(toolCalls, cutoffs.tool);
      toolCalls := ClearAll(toolCalls, payloads);
      var forSkeleton := TakeBatch(OldDetailed(steps, cutoffs.skeleton));
      var skeletonised := SkeletoniseBatch(forSkeleton);
      var forCompact := TakeBatch(OldFull(steps, cutoffs.compact));
      var compacted := CompactBatch(forCompact);
      var forPartial := TakeBatch(OldPartial(runs, cutoffs.partial));
      var collapsed := CollapseBatch(forPartial);
      result := SweepResult(|payloads|, compacted, skeletonised, collapsed);
      toSkeleton, toCompact, toCollapse := forSkeleton, forCompact, forPartial;
    }
  }

  lemma SkeletonBatchLeaves(steps: map<nat, Step>, chosen: set<nat>, cutoff: int)
    requires chosen <= OldDetailed(steps, cutoff)
    ensures OldDetailed(SkeletoniseAll(steps, chosen), cutoff) == OldDetailed(steps, cutoff) - chosen
    ensures OldFull(SkeletoniseAll(steps, chosen), cutoff) <= OldFull(steps, cutoff)
  {
  }

  lemma CompactBatchLeaves(steps: map<nat, Step>, chosen: set<nat>, compactCutoff: int, skeletonCutoff: int)
    requires chosen <= OldFull(steps, compactCutoff)
    ensures OldFull(CompactAll(steps, chosen), compactCutoff) == OldFull(steps, compactCutoff) - chosen
    ensures OldDetailed(CompactAll(steps, chosen), skeletonCutoff) == OldDetailed(steps, skeletonCutoff)
  {
  }

  lemma CollapseBatchLeaves(runs: map<nat, Run>, chosen: set<nat>, cutoff: int)
    requires chosen <= OldPartial(runs, cutoff)
    ensures |OldPartial(CollapseAll(runs, chosen), cutoff)| == |OldPartial(runs, cutoff)| - |chosen|
  {
    assert OldPartial(CollapseAll(runs, chosen), cutoff) == OldPartial(runs, cutoff) - chosen;
  }

  lemma ClearLeavesNone(toolCalls: map<nat, ToolCall>, cutoff: int)
    ensures OldPayloads(ClearAll(toolCalls, OldPayloads(toolCalls, cutoff)), cutoff) == {}
  {
  }

  lemma SubsetIsSmaller(a: set<nat>, b: set<nat>)
    requires a <= b
    ensures |a| <= |b|
  {
    if a != {} {
      var x :| x in a;
      SubsetIsSmaller(a - {x}, b - {x});
    }
  }

  /** What one sweep leaves: at most a batch fewer, whichever rows the batches pick. */
  lemma SweepLeavesLess(before: Tables, cutoffs: Cutoffs, toSkeleton: set<nat>, toCompact: set<nat>,
                        toCollapse: set<nat>, after: Tables, result: SweepResult)
    requires Sweep(before, cutoffs, toSkeleton, toCompact, toCollapse, after, result)
    ensures OldDetailed(after.steps, cutoffs.skeleton) == OldDetailed(before.steps, cutoffs.skeleton) - toSkeleton
    ensures |OldDetailed(after.steps, cutoffs.skeleton)|
              == |OldDetailed(before.steps, cutoffs.skeleton)| - result.stepsSkeletonised
    ensures |OldFull(after.steps, cutoffs.compact)|
              <= (if |OldFull(before.steps, cutoffs.compact)| <= BATCH then 0
                  else |OldFull(before.steps, cutoffs.compact)| - BATCH)
  {
    var middle := SkeletoniseAll(before.steps, toSkeleton);
    SkeletonBatchLeaves(before.steps, toSkeleton, cutoffs.skeleton);
    CompactBatchLeaves(middle, toCompact, cutoffs.compact, cutoffs.skeleton);
    assert OldFull(middle, cutoffs.compact) <= OldFull(before.steps, cutoffs.compact);
    SubsetIsSmaller(OldFull(middle, cutoffs.compact), OldFull(before.steps, cutoffs.compact));
  }

  /** What `k` sweeps of 500 rows leave of `n`. */
  function Remaining(n: int, k: nat): int {
    if n <= k * 500 then 0 else n - k * 500
  }

  /** Consecutive sweeps at fixed cutoffs. */
  ghost predicate Sweeps(states: seq<Tables>, cutoffs: Cutoffs) {
    && states != []
    && (|states| > 1 ==>
          Sweeps(states[..|states| - 1], cutoffs) && Swept(states[|states| - 2], cutoffs, states[|states| - 1]))
  }

  ghost predicate Swept(before: Tables, cutoffs: Cutoffs, after: Tables) {
    exists a: set<nat>, b: set<nat>, c: set<nat>, r: SweepResult :: Sweep(before, cutoffs, a, b, c, after, r)
  }

  lemma SweptLeavesLess(before: Tables, cutoffs: Cutoffs, after: Tables)
    requires Swept(before, cutoffs, after)
    ensures |OldDetailed(after.steps, cutoffs.skeleton)| == Remaining(|OldDetailed(before.steps, cutoffs.skeleton)|, 1)
    ensures |OldFull(after.steps, cutoffs.compact)| <= Remaining(|OldFull(before.steps, cutoffs.compact)|, 1)
    ensures |OldPartial(after.runs, cutoffs.partial)| == Remaining(|OldPartial(before.runs, cutoffs.partial)|, 1)
    ensures OldPayloads(after.toolCalls, cutoffs.tool) == {}
  {
    var a, b, c, r :| Sweep(before, cutoffs, a, b, c, after, r);
    SweepLeavesLess(before, cutoffs, a, b, c, after, r);
    CollapseBatchLeaves(before.runs, c, cutoffs.partial);
    ClearLeavesNone(before.toolCalls, cutoffs.tool);
  }

  lemma RemainingAdds(n: nat, k: nat, m: nat)
    ensures Remaining(Remaining(n, k), 1) == Remaining(n, k + 1)
    ensures m <= Remaining(n, k) ==> Remaining(m, 1) <= Remaining(n, k + 1)
  {
  }

  /**
   * After k sweeps at fixed cutoffs exactly max(0, n - 500k) of the n steps past the skeleton
   * cutoff are still not SKELETON, at most max(0, m - 500k) of the m old FULL steps are still
   * FULL and exactly max(0, p - 500k) of the p old partial results are not summarised, whichever
   * rows each batch picks; the first sweep clears every old payload.
   */
  lemma {:induction false} SweepsFinish(states: seq<Tables>, cutoffs: Cutoffs)
    requires Sweeps(states, cutoffs)
    ensures
      var k := |states| - 1;
      && |OldDetailed(states[k].steps, cutoffs.skeleton)|
           == Remaining(|OldDetailed(states[0].steps, cutoffs.skeleton)|, k)
      && |OldFull(states[k].steps, cutoffs.compact)|
           <= Remaining(|OldFull(states[0].steps, cutoffs.compact)|, k)
      && |OldPartial(states[k].runs, cutoffs.partial)|
           == Remaining(|OldPartial(states[0].runs, cutoffs.partial)|, k)
      && (k > 0 ==> OldPayloads(states[k].toolCalls, cutoffs.tool) == {})
  {
    var k := |states| - 1;
    if k > 0 {
      SweepsFinish(states[..k], cutoffs);
      SweptLeavesLess(states[k - 1], cutoffs, states[k]);
      RemainingAdds(|OldDetailed(states[0].steps, cutoffs.skeleton)|, k - 1, 0);
      RemainingAdds(|OldFull(states[0].steps, cutoffs.compact)|, k - 1,
                    |OldFull(states[k - 1].steps, cutoffs.compact)|);
      RemainingAdds(|OldPartial(states[0].runs, cutoffs.partial)|, k - 1, 0);
    }
  }

  /**
   * No step's retention level ever falls, rows are neither added nor removed, every finalOutput is
   * untouched, and a step that is newer than both cutoffs is untouched; with the skeleton cutoff
   * not later than the compact cutoff that is every step newer than the compact cutoff.
   */
  lemma SweepOnlyReducesOldSteps(before: Tables, cutoffs: Cutoffs, toSkeleton: set<nat>, toCompact: set<nat>,
                                 toCollapse: set<nat>, after: Tables, result: SweepResult)
    requires Sweep(before, cutoffs, toSkeleton, toCompact, toCollapse, after, result)
    ensures after.steps.Keys == before.steps.Keys && after.runs.Keys == before.runs.Keys
    ensures forall id :: id in before.steps ==>
              && Rank(before.steps[id].level) <= Rank(after.steps[id].level)
              && after.steps[id].createdAt == before.steps[id].createdAt
              && (after.steps[id].level == before.steps[id].level ==> after.steps[id] == before.steps[id])
    ensures forall id ::
              (id in before.steps && before.steps[id].createdAt >= cutoffs.compact
               && before.steps[id].createdAt >= cutoffs.skeleton) ==>
                after.steps[id] == before.steps[id]
    ensures cutoffs.skeleton <= cutoffs.compact ==>
              forall id :: id in before.steps && before.steps[id].createdAt >= cutoffs.compact ==>
                after.steps[id] == before.steps[id]
    ensures forall id :: id in before.runs ==> after.runs[id].finalOutput == before.runs[id].finalOutput
  {
  }

  /** The row is more than `days` days old at `now`. */
  predicate OlderThan(createdAt: int, now: int, days: int) {
    now - createdAt > days * 86400000
  }

  /** A step a sweep leaves alone, reduces to its skeleton or compacts, and how old it is then. */
  predicate StepReduced(step: Step, after: Step, c: Config, compactNow: int, skeletonNow: int) {
    || after == step
    || (step.level != Skeleton && OlderThan(step.createdAt, skeletonNow, c.stepSkeletonAfterDays)
        && after == Step(step.createdAt, Skeleton, "skeleton", None))
    || (step.level == Full && OlderThan(step.createdAt, compactNow, c.stepFullDetailDays)
        && after == Step(step.createdAt, Compact, "structural",
                         if step.output.Some? then Some("preview") else None))
  }

  /** A run keeps everything, or it is old and its partial results become their summary. */
  predicate RunReduced(run: Run, after: Run, c: Config, now: int) {
    || after == run
    || (!run.summarised && run.partialResults.Some? && OlderThan(run.createdAt, now, c.partialResultsFullDays)
        && after == Run(run.createdAt, true, Some("summary"), run.finalOutput))
  }

  /** Every old payload is cleared and no other. */
  function CallReduced(call: ToolCall, c: Config, now: int): ToolCall {
    if OlderThan(call.createdAt, now, c.toolCallPayloadDays) && !call.cleared then ToolCall(call.createdAt, true, "")
    else call
  }

  /**
   * What a sweep does to every row, by its age in days under the setting: a row changes only when it is
   * older than the setting for its kind and not reduced yet, and then to exactly this. Every old payload
   * is cleared at once, and the counts of runs and payloads are those of the rows changed.
   */
  lemma SweepReducesByAge(before: Tables, c: Config, toolNow: int, compactNow: int, skeletonNow: int, partialNow: int,
                          toSkeleton: set<nat>, toCompact: set<nat>, toCollapse: set<nat>, after: Tables,
                          result: SweepResult)
    requires Sweep(before, CutoffsAt(c, toolNow, compactNow, skeletonNow, partialNow), toSkeleton, toCompact, toCollapse,
                   after, result)
    ensures after.steps.Keys == before.steps.Keys && after.runs.Keys == before.runs.Keys
    ensures after.toolCalls.Keys == before.toolCalls.Keys
    ensures forall id :: id in before.steps ==>
              StepReduced(before.steps[id], after.steps[id], c, compactNow, skeletonNow)
    ensures forall id :: id in before.runs ==> RunReduced(before.runs[id], after.runs[id], c, partialNow)
    ensures forall id :: id in before.toolCalls ==>
              after.toolCalls[id] == CallReduced(before.toolCalls[id], c, toolNow)
    ensures result.partialResultsCollapsed == |set id | id in before.runs && after.runs[id] != before.runs[id]|
    ensures result.toolCallsCleared == |set id | id in before.toolCalls && after.toolCalls[id].cleared && !before.toolCalls[id].cleared|
  {
    assert (set id | id in before.runs && after.runs[id] != before.runs[id]) == toCollapse;
    assert (set id | id in before.toolCalls && after.toolCalls[id].cleared && !before.toolCalls[id].cleared)
        == OldPayloads(before.toolCalls, DaysAgo(toolNow, c.toolCallPayloadDays));
  }

  /** The step rows a sweep changed. */
  function Changed(before: map<nat, Step>, after: map<nat, Step>): set<nat>
    requires before.Keys == after.Keys
  {
    set id | id in before && before[id].level != after[id].level
  }

  /** The two returned step counts add up to exactly the step rows changed. */
  lemma CountsAddUp(before: Tables, cutoffs: Cutoffs, toSkeleton: set<nat>, toCompact: set<nat>,
                    toCollapse: set<nat>, after: Tables, result: SweepResult)
    requires Sweep(before, cutoffs, toSkeleton, toCompact, toCollapse, after, result)
    ensures Changed(before.steps, after.steps) == toSkeleton + toCompact
    ensures result.stepsSkeletonised + result.stepsCompacted == |Changed(before.steps, after.steps)|
  {
    assert toSkeleton !! toCompact;
    assert |toSkeleton + toCompact| == |toSkeleton| + |toCompact|;
  }

  /** When nothing is due, a sweep changes nothing and reports four zeros. */
  lemma SweepIsIdempotent(before: Tables, cutoffs: Cutoffs, toSkeleton: set<nat>, toCompact: set<nat>,
                          toCollapse: set<nat>, after: Tables, result: SweepResult)
    requires Sweep(before, cutoffs, toSkeleton, toCompact, toCollapse, after, result)
    requires OldDetailed(before.steps, cutoffs.skeleton) == {} && OldFull(before.steps, cutoffs.compact) == {}
    requires OldPartial(before.runs, cutoffs.partial) == {} && OldPayloads(before.toolCalls, cutoffs.tool) == {}
    ensures after == before && result == SweepResult(0, 0, 0, 0)
  {
    assert toSkeleton == {};
    assert SkeletoniseAll(before.steps, {}) == before.steps;
    assert toCompact == {};
    assert CompactAll(before.steps, {}) == before.steps;
    assert toCollapse == {};
    assert CollapseAll(before.runs, {}) == before.runs;
    assert ClearAll(before.toolCalls, {}) == before.toolCalls;
  }
}
