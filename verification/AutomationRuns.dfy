/** Which rules a trigger runs and what each of them leaves behind, apart from the code that runs them. */
module AutomationRuns {
  import opened Wrappers
  import opened Texts
  import opened Policy
  import opened WorkflowCompiler
  import opened Automations

  // A condition stops a rule only when the event carries a value that contradicts it

  predicate TooLow(c: Conditions, p: Payload) {
    c.minScore.Some? && p.score.Some? && p.score.value < c.minScore.value
  }

  predicate OtherSentiment(c: Conditions, p: Payload) {
    c.sentiment.Some? && p.sentiment.Some? && p.sentiment.value != c.sentiment.value
  }

  predicate TooSoon(c: Conditions, p: Payload) {
    c.minutes.Some? && p.inactiveMinutes.Some? && p.inactiveMinutes.value < c.minutes.value
  }

  /** The event asks for the rule. */
  predicate Asked(rule: Rule, context: Context) {
    && rule.isActive
    && rule.organisationId == context.organisationId
    && rule.trigger == context.trigger
    && !TooLow(rule.conditions, context.payload)
    && !OtherSentiment(rule.conditions, context.payload)
    && !TooSoon(rule.conditions, context.payload)
  }

  /** The actions of one side of the gate, in their order. */
  function OfKind(actions: seq<Action>, outbound: bool): seq<Action> {
    if actions == [] then []
    else (if IsOutbound(actions[0].kind) == outbound then [actions[0]] else []) + OfKind(actions[1..], outbound)
  }

  lemma {:induction false} OfKindAppend(actions: seq<Action>, last: Action, outbound: bool)
    ensures OfKind(actions + [last], outbound)
         == OfKind(actions, outbound) + (if IsOutbound(last.kind) == outbound then [last] else [])
  {
    if actions != [] {
      assert (actions + [last])[1..] == actions[1..] + [last];
      OfKindAppend(actions[1..], last, outbound);
    }
  }

  lemma {:induction false} SelectIsOfKind(actions: seq<Action>, outbound: bool)
    ensures Select(actions, outbound) == OfKind(actions, outbound)
  {
    if actions != [] {
      var earlier := actions[..|actions| - 1];
      assert actions == earlier + [actions[|actions| - 1]];
      SelectIsOfKind(earlier, outbound);
      OfKindAppend(earlier, actions[|actions| - 1], outbound);
    }
  }

  /** The rule waits for approval: it has an outbound action and nothing lets it send on its own. */
  predicate Waits(rule: Rule, autoSend: bool) {
    OfKind(rule.actions, true) != [] && !(autoSend && rule.requiresApproval == Some(false))
  }

  /** What the rule runs at once: its internal actions, then its outbound ones unless it waits. */
  function AtOnce(rule: Rule, autoSend: bool): seq<Action> {
    OfKind(rule.actions, false) + if Waits(rule, autoSend) then [] else OfKind(rule.actions, true)
  }

  /** The attempts, requests and execution one asked rule adds, in order. */
  predicate Leaves(os: Os, after: Os, i: nat, context: Context, autoSend: bool, failAt: Option<nat>, ran: nat)
    requires i < |os.rules|
  {
    var rule := os.rules[i];
    var list := AtOnce(rule, autoSend);
    var fails := failAt.Some? && failAt.value < |list|;
    var attempts := if fails then failAt.value + 1 else |list|;
    && after.rules == os.rules
    && |after.executed| == |os.executed| + attempts
    && os.executed <= after.executed
    && (forall k :: 0 <= k < attempts ==> after.executed[|os.executed| + k] == Executed(list[k], Direct(i)))
    && after.requests == os.requests +
         (if Waits(rule, autoSend) && !fails
          then [Request(context.organisationId, false, Pending,
                        Some(Batch(context.organisationId, OfKind(rule.actions, true))), "")] else [])
    && after.executions == os.executions +
         [Execution(i, if fails then FailedRun
                       else if Waits(rule, autoSend) then AwaitingApproval(|os.requests|) else Success)]
    && ran == if fails then 0 else 1
  }

  lemma RuleThrows(os: Os, i: nat, context: Context, autoSend: bool, failAt: nat, after: Os, ran: nat)
    requires i < |os.rules| && Asked(os.rules[i], context) && failAt < |OfKind(os.rules[i].actions, false)|
    requires (after, ran) == RunRule(os, i, context, autoSend, Some(failAt))
    requires Select(os.rules[i].actions, false) == OfKind(os.rules[i].actions, false)
    ensures Leaves(os, after, i, context, autoSend, Some(failAt), ran)
  {
  }

  lemma RuleWaits(os: Os, i: nat, context: Context, autoSend: bool, failAt: Option<nat>, after: Os, ran: nat)
    requires i < |os.rules| && Asked(os.rules[i], context) && Waits(os.rules[i], autoSend)
    requires failAt.Some? ==> failAt.value >= |OfKind(os.rules[i].actions, false)|
    requires (after, ran) == RunRule(os, i, context, autoSend, failAt)
    requires Select(os.rules[i].actions, false) == OfKind(os.rules[i].actions, false)
    requires Select(os.rules[i].actions, true) == OfKind(os.rules[i].actions, true)
    ensures Leaves(os, after, i, context, autoSend, failAt, ran)
  {
  }

  lemma RuleHasNoOutbound(os: Os, i: nat, context: Context, autoSend: bool, failAt: Option<nat>, after: Os, ran: nat)
    requires i < |os.rules| && Asked(os.rules[i], context) && OfKind(os.rules[i].actions, true) == []
    requires failAt.Some? ==> failAt.value >= |OfKind(os.rules[i].actions, false)|
    requires (after, ran) == RunRule(os, i, context, autoSend, failAt)
    requires Select(os.rules[i].actions, false) == OfKind(os.rules[i].actions, false)
    requires Select(os.rules[i].actions, true) == OfKind(os.rules[i].actions, true)
    ensures Leaves(os, after, i, context, autoSend, failAt, ran)
  {
    assert AtOnce(os.rules[i], autoSend) == OfKind(os.rules[i].actions, false);
  }

  /** The attempts of a rule that sends on its own: its internal actions and then the outbound ones. */
  lemma RuleSends(os: Os, i: nat, context: Context, autoSend: bool, failAt: Option<nat>, after: Os, ran: nat)
    requires i < |os.rules| && Asked(os.rules[i], context)
    requires OfKind(os.rules[i].actions, true) != [] && !Waits(os.rules[i], autoSend)
    requires failAt.Some? ==> failAt.value >= |OfKind(os.rules[i].actions, false)|
    requires (after, ran) == RunRule(os, i, context, autoSend, failAt)
    requires Select(os.rules[i].actions, false) == OfKind(os.rules[i].actions, false)
    requires Select(os.rules[i].actions, true) == OfKind(os.rules[i].actions, true)
    ensures
      var inner, outer := OfKind(os.rules[i].actions, false), OfKind(os.rules[i].actions, true);
      var rest := Beyond(failAt, |inner|);
      && after.rules == os.rules && after.requests == os.requests
      && after.executed == os.executed + DirectLog(inner, i) + DirectLog(Attempted(outer, rest), i)
      && after.executions == os.executions + [Execution(i, if Throws(outer, rest) then FailedRun else Success)]
      && ran == if Throws(outer, rest) then 0 else 1
  {
  }

  lemma SentAttempts(inner: seq<Action>, outer: seq<Action>, i: nat, failAt: Option<nat>, k: nat)
    requires failAt.Some? ==> failAt.value >= |inner|
    ensures
      var list, log := inner + outer, DirectLog(inner, i) + DirectLog(Attempted(outer, Beyond(failAt, |inner|)), i);
      && |log| == (if failAt.Some? && failAt.value < |list| then failAt.value + 1 else |list|)
      && (k < |log| ==> log[k] == Executed(list[k], Direct(i)))
  {
  }

  lemma RuleRunsOn(os: Os, i: nat, context: Context, autoSend: bool, failAt: Option<nat>, after: Os, ran: nat)
    requires i < |os.rules| && Asked(os.rules[i], context)
    requires OfKind(os.rules[i].actions, true) != [] && !Waits(os.rules[i], autoSend)
    requires failAt.Some? ==> failAt.value >= |OfKind(os.rules[i].actions, false)|
    requires (after, ran) == RunRule(os, i, context, autoSend, failAt)
    requires Select(os.rules[i].actions, false) == OfKind(os.rules[i].actions, false)
    requires Select(os.rules[i].actions, true) == OfKind(os.rules[i].actions, true)
    ensures Leaves(os, after, i, context, autoSend, failAt, ran)
  {
    var inner, outer := OfKind(os.rules[i].actions, false), OfKind(os.rules[i].actions, true);
    var log := DirectLog(inner, i) + DirectLog(Attempted(outer, Beyond(failAt, |inner|)), i);
    RuleSends(os, i, context, autoSend, failAt, after, ran);
    assert after.executed == os.executed + log;
    forall k | 0 <= k < |log|
      ensures log[k] == Executed((inner + outer)[k], Direct(i))
    {
      SentAttempts(inner, outer, i, failAt, k);
    }
    SentAttempts(inner, outer, i, failAt, 0);
    assert AtOnce(os.rules[i], autoSend) == inner + outer;
  }

  lemma OneRule(os: Os, i: nat, context: Context, autoSend: bool, failAt: Option<nat>, after: Os, ran: nat)
    requires i < |os.rules| && (after, ran) == RunRule(os, i, context, autoSend, failAt)
    ensures if Asked(os.rules[i], context) then Leaves(os, after, i, context, autoSend, failAt, ran)
            else after == os && ran == 0
  {
    var rule := os.rules[i];
    SelectIsOfKind(rule.actions, false);
    SelectIsOfKind(rule.actions, true);
    if Asked(rule, context) {
      if failAt.Some? && failAt.value < |OfKind(rule.actions, false)| {
        RuleThrows(os, i, context, autoSend, failAt.value, after, ran);
      } else if Waits(rule, autoSend) {
        RuleWaits(os, i, context, autoSend, failAt, after, ran);
      } else if OfKind(rule.actions, true) == [] {
        RuleHasNoOutbound(os, i, context, autoSend, failAt, after, ran);
      } else {
        RuleRunsOn(os, i, context, autoSend, failAt, after, ran);
      }
    }
  }

  // A whole trigger

  /** The rules asked for among the first `n`, in order. */
  function AskedRules(rules: seq<Rule>, n: nat, context: Context): seq<nat>
    requires n <= |rules|
  {
    if n == 0 then []
    else AskedRules(rules, n - 1, context) + if Asked(rules[n - 1], context) then [n - 1] else []
  }

  lemma {:induction false} AskedRulesAre(rules: seq<Rule>, n: nat, context: Context, i: nat)
    requires n <= |rules|
    ensures i in AskedRules(rules, n, context) <==> i < n && Asked(rules[i], context)
  {
    if n != 0 {
      AskedRulesAre(rules, n - 1, context, i);
    }
  }

  /** The execution shows that the request waits for it, and the request is its rule's outbound list. */
  predicate Awaits(e: Execution, r: nat, requests: seq<Request>, rules: seq<Rule>, context: Context) {
    && e.status == AwaitingApproval(r)
    && e.rule < |rules| && r < |requests|
    && requests[r] == Request(context.organisationId, false, Pending,
                              Some(Batch(context.organisationId, OfKind(rules[e.rule].actions, true))), "")
  }

  predicate ExecutionsFollow(os: Os, after: Os, n: nat, context: Context)
    requires n <= |os.rules|
  {
    var asked := AskedRules(os.rules, n, context);
    && os.executions <= after.executions && |after.executions| == |os.executions| + |asked|
    && forall k :: 0 <= k < |asked| ==> after.executions[|os.executions| + k].rule == asked[k]
  }

  predicate AttemptsFollow(os: Os, after: Os, n: nat, context: Context)
    requires n <= |os.rules|
  {
    && os.executed <= after.executed
    && forall k :: |os.executed| <= k < |after.executed| ==>
         var origin := after.executed[k].origin;
         origin.Direct? && origin.rule < n && Asked(os.rules[origin.rule], context)
  }

  /** One of the executions added awaits request `r`. */
  predicate IsAwaited(os: Os, after: Os, r: nat, context: Context) {
    exists k :: |os.executions| <= k < |after.executions|
                && Awaits(after.executions[k], r, after.requests, os.rules, context)
  }

  predicate RequestsFollow(os: Os, after: Os, context: Context) {
    && os.requests <= after.requests && |os.executions| <= |after.executions|
    && forall r :: |os.requests| <= r < |after.requests| ==> IsAwaited(os, after, r, context)
  }

  lemma AddExecution(os: Os, before: Os, after: Os, n: nat, context: Context, autoSend: bool, failAt: Option<nat>, ran: nat)
    requires n < |os.rules| && before.rules == os.rules && ExecutionsFollow(os, before, n, context)
    requires if Asked(os.rules[n], context) then Leaves(before, after, n, context, autoSend, failAt, ran) else after == before
    ensures ExecutionsFollow(os, after, n + 1, context)
  {
  }

  lemma AddedAttempt(os: Os, after: Os, i: nat, context: Context, autoSend: bool, failAt: Option<nat>, ran: nat, k: nat)
    requires i < |os.rules| && Leaves(os, after, i, context, autoSend, failAt, ran)
    requires |os.executed| <= k < |after.executed|
    ensures after.executed[k].origin == Direct(i)
  {
    var j := k - |os.executed|;
    assert after.executed[|os.executed| + j] == Executed(AtOnce(os.rules[i], autoSend)[j], Direct(i));
  }

  lemma AddAttempts(os: Os, before: Os, after: Os, n: nat, context: Context, autoSend: bool, failAt: Option<nat>, ran: nat)
    requires n < |os.rules| && before.rules == os.rules && AttemptsFollow(os, before, n, context)
    requires if Asked(os.rules[n], context) then Leaves(before, after, n, context, autoSend, failAt, ran) else after == before
    ensures AttemptsFollow(os, after, n + 1, context)
  {
    forall k | |os.executed| <= k < |after.executed|
      ensures var origin := after.executed[k].origin;
              origin.Direct? && origin.rule < n + 1 && Asked(os.rules[origin.rule], context)
    {
      if k < |before.executed| {
        assert after.executed[k] == before.executed[k];
      } else {
        AddedAttempt(before, after, n, context, autoSend, failAt, ran, k);
      }
    }
  }

  lemma AddRequests(os: Os, before: Os, after: Os, n: nat, context: Context, autoSend: bool, failAt: Option<nat>, ran: nat)
    requires n < |os.rules| && before.rules == os.rules && RequestsFollow(os, before, context)
    requires if Asked(os.rules[n], context) then Leaves(before, after, n, context, autoSend, failAt, ran) else after == before
    ensures RequestsFollow(os, after, context)
  {
    forall r | |os.requests| <= r < |after.requests|
      ensures IsAwaited(os, after, r, context)
    {
      if r < |before.requests| {
        assert IsAwaited(os, before, r, context);
        var k :| |os.executions| <= k < |before.executions|
                 && Awaits(before.executions[k], r, before.requests, os.rules, context);
        assert Awaits(after.executions[k], r, after.requests, os.rules, context);
      } else {
        assert Awaits(after.executions[|before.executions|], r, after.requests, os.rules, context);
      }
    }
  }

  /**
   * A trigger runs exactly the rules it asks for, in order, one execution each. Every attempt it adds
   * is such a rule's, and every request it adds is the outbound list of one, named by its execution.
   */
  lemma {:induction false} RunsExactlyAskedRules(os: Os, n: nat, context: Context, autoSend: bool, fails: map<nat, nat>)
    requires n <= |os.rules|
    ensures
      var after := RunRules(os, n, context, autoSend, fails).0;
      && ExecutionsFollow(os, after, n, context)
      && AttemptsFollow(os, after, n, context)
      && RequestsFollow(os, after, context)
  {
    if n != 0 {
      var before := RunRules(os, n - 1, context, autoSend, fails).0;
      var failAt := FailAt(fails, n - 1);
      var (after, ran) := RunRule(before, n - 1, context, autoSend, failAt);
      RunsExactlyAskedRules(os, n - 1, context, autoSend, fails);
      OneRule(before, n - 1, context, autoSend, failAt, after, ran);
      AddExecution(os, before, after, n - 1, context, autoSend, failAt, ran);
      AddAttempts(os, before, after, n - 1, context, autoSend, failAt, ran);
      AddRequests(os, before, after, n - 1, context, autoSend, failAt, ran);
    }
  }

  /** A rule gets an execution if and only if it is asked for; otherwise it leaves no attempt and no request either. */
  lemma RuleRunsExactlyWhenAsked(os: Os, context: Context, autoSend: bool, fails: map<nat, nat>, i: nat)
    requires i < |os.rules|
    ensures
      var after := RunRules(os, |os.rules|, context, autoSend, fails).0;
      && ((exists k :: |os.executions| <= k < |after.executions| && after.executions[k].rule == i)
          <==> Asked(os.rules[i], context))
      && (!Asked(os.rules[i], context) ==>
            forall k :: |os.executed| <= k < |after.executed| ==> after.executed[k].origin != Direct(i))
  {
    var asked := AskedRules(os.rules, |os.rules|, context);
    var after := RunRules(os, |os.rules|, context, autoSend, fails).0;
    RunsExactlyAskedRules(os, |os.rules|, context, autoSend, fails);
    AskedRulesAre(os.rules, |os.rules|, context, i);
    if Asked(os.rules[i], context) {
      var k :| 0 <= k < |asked| && asked[k] == i;
      assert after.executions[|os.executions| + k].rule == i;
    } else {
      forall k | |os.executions| <= k < |after.executions|
        ensures after.executions[k].rule in asked
      {
        var j := k - |os.executions|;
        assert after.executions[|os.executions| + j].rule == asked[j];
      }
    }
  }

  /** The executions that did not fail. */
  function Succeeded(executions: seq<Execution>): nat {
    if executions == [] then 0
    else Succeeded(executions[..|executions| - 1]) + if executions[|executions| - 1].status.FailedRun? then 0 else 1
  }

  lemma SucceededAppend(executions: seq<Execution>, e: Execution)
    ensures Succeeded(executions + [e]) == Succeeded(executions) + if e.status.FailedRun? then 0 else 1
  {
    assert (executions + [e])[..|executions|] == executions;
  }

  /** What one rule adds to the answer. */
  lemma RuleIsCounted(os: Os, after: Os, i: nat, context: Context, autoSend: bool, failAt: Option<nat>, ran: nat)
    requires i < |os.rules| && Leaves(os, after, i, context, autoSend, failAt, ran)
    ensures Succeeded(after.executions) == Succeeded(os.executions) + ran
  {
    SucceededAppend(os.executions, after.executions[|os.executions|]);
  }

  /** The number a trigger answers is that of its executions that did not fail. */
  lemma {:induction false} AnswerCountsExecutions(os: Os, n: nat, context: Context, autoSend: bool, fails: map<nat, nat>)
    requires n <= |os.rules|
    ensures var (after, count) := RunRules(os, n, context, autoSend, fails);
            count == Succeeded(after.executions) - Succeeded(os.executions)
  {
    if n != 0 {
      var before := RunRules(os, n - 1, context, autoSend, fails).0;
      var failAt := FailAt(fails, n - 1);
      var (after, ran) := RunRule(before, n - 1, context, autoSend, failAt);
      AnswerCountsExecutions(os, n - 1, context, autoSend, fails);
      OneRule(before, n - 1, context, autoSend, failAt, after, ran);
      if Asked(os.rules[n - 1], context) {
        RuleIsCounted(before, after, n - 1, context, autoSend, failAt, ran);
      }
    }
  }

  // Decisions

  /** What an approval sends: the operator's text where one was given. */
  predicate Sent(request: Request, edited: string, j: nat, action: Action) {
    if request.aiOutbound then
      j == 0 && action.kind == SendMessage && action.minutes == None
      && action.detail == (if Trim(edited) != "" then Trim(edited) else Trim(request.draft))
    else
      && request.batch.Some? && j < |request.batch.value.actions|
      && var asked := request.batch.value.actions[j];
         action == if Trim(edited) != "" && (asked.kind == SendMessage || asked.kind == SendBookingLink)
                   then Action(asked.kind, Trim(edited), asked.minutes) else asked
  }

  function Length(request: Request): nat {
    if request.aiOutbound then 1 else if request.batch.Some? then |request.batch.value.actions| else 0
  }

  /** The refusal a decision gets, in the order of the checks. */
  function RefusalOf(os: Os, organisation: string, id: nat, approved: bool, edited: string): Option<Refusal> {
    if id >= |os.requests| || os.requests[id].organisationId != organisation then Some(RequestNotFound)
    else
      var request := os.requests[id];
      if request.status != Pending then Some(AlreadyDecided)
      else if !approved then None
      else if request.batch.Some? && request.batch.value.contextOrganisationId != organisation
      then Some(OrganisationMismatch)
      else if request.aiOutbound && OnlySpace(edited) && OnlySpace(request.draft) then Some(EmptyMessage)
      else None
  }

  lemma DecisionIsRefusedInOrder(os: Os, organisation: string, id: nat, approved: bool, edited: string,
                                 failAt: Option<nat>)
    ensures RefusalOf(os, organisation, id, approved, edited) == CheckDecision(os, organisation, id, approved, edited)
    ensures var refusal := RefusalOf(os, organisation, id, approved, edited);
            refusal.Some? ==>
              DecideApprovalRequest(os, organisation, id, approved, edited, failAt) == (os, Err(refusal.value))
  {
    TrimIsEmpty(edited);
    if id < |os.requests| {
      TrimIsEmpty(os.requests[id].draft);
    }
  }

  /** A decision not refused writes its status; an approval runs the list up to the first action that throws. */
  lemma DecisionIsCarriedOut(os: Os, organisation: string, id: nat, approved: bool, edited: string, failAt: Option<nat>)
    requires RefusalOf(os, organisation, id, approved, edited).None?
    ensures
      var (after, answer) := DecideApprovalRequest(os, organisation, id, approved, edited, failAt);
      var request := os.requests[id];
      if !approved then
        after == os.(requests := os.requests[id := request.(status := Rejected)]) && answer == Ok(0)
      else
        var throws := failAt.Some? && failAt.value < Length(request);
        var attempts := if throws then failAt.value + 1 else Length(request);
        && after == os.(requests := os.requests[id := request.(status := Approved)], executed := after.executed)
        && |after.executed| == |os.executed| + attempts && os.executed <= after.executed
        && (forall j :: 0 <= j < attempts ==>
              && after.executed[|os.executed| + j].origin == FromRequest(id, j)
              && Sent(request, edited, j, after.executed[|os.executed| + j].action))
        && answer == if throws then Err(ActionFailed) else Ok(Length(request))
  {
    DecisionIsRefusedInOrder(os, organisation, id, approved, edited, failAt);
  }
}
