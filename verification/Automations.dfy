/** Rules that run actions or ask for approval, and the decisions that run approved actions. */
module Automations {
  import opened Wrappers
  import opened Texts
  import opened Sums
  import opened Policy
  import opened WorkflowCompiler

  datatype Rule = Rule(
    organisationId: string, isActive: bool, trigger: Trigger, conditions: Conditions, actions: seq<Action>,
    requiresApproval: Option<bool>)

  datatype Payload = Payload(score: Option<int>, sentiment: Option<string>, inactiveMinutes: Option<int>)

  datatype Context = Context(organisationId: string, trigger: Trigger, payload: Payload)

  /** A condition binds only when the event carries the value it is about. */
  predicate MatchesConditions(c: Conditions, p: Payload) {
    && (c.minScore.Some? && p.score.Some? ==> p.score.value >= c.minScore.value)
    && (c.sentiment.Some? && p.sentiment.Some? ==> p.sentiment.value == c.sentiment.value)
    && (c.minutes.Some? && p.inactiveMinutes.Some? ==> p.inactiveMinutes.value >= c.minutes.value)
  }

  datatype RequestStatus = Pending | Approved | Rejected

  /** An action list waiting for approval, with the organisation its context names. */
  datatype Batch = Batch(contextOrganisationId: string, actions: seq<Action>)

  /** `batch` for gated automation actions, `draft` for a drafted AI message. */
  datatype Request = Request(
    organisationId: string, aiOutbound: bool, status: RequestStatus, batch: Option<Batch>, draft: string)

  datatype Origin = Direct(rule: nat) | FromRequest(request: nat, index: nat)

  /** One attempt to execute an action. */
  datatype Executed = Executed(action: Action, origin: Origin)

  datatype ExecutionStatus = Success | AwaitingApproval(request: nat) | FailedRun

  datatype Execution = Execution(rule: nat, status: ExecutionStatus)

  datatype Os = Os(rules: seq<Rule>, requests: seq<Request>, executed: seq<Executed>, executions: seq<Execution>)

  datatype Refusal = RequestNotFound | AlreadyDecided | OrganisationMismatch | EmptyMessage | ActionFailed

  function Select(actions: seq<Action>, outbound: bool): (r: seq<Action>)
    ensures forall i :: 0 <= i < |r| ==> IsOutbound(r[i].kind) == outbound
  {
    if actions == [] then []
    else
      Select(actions[..|actions| - 1], outbound)
      + (if IsOutbound(actions[|actions| - 1].kind) == outbound then [actions[|actions| - 1]] else [])
  }

  /** Actions run in order until the one that throws; that one was attempted too. */
  function Attempted(actions: seq<Action>, failAt: Option<nat>): seq<Action> {
    if failAt.Some? && failAt.value < |actions| then actions[..failAt.value + 1] else actions
  }

  predicate Throws(actions: seq<Action>, failAt: Option<nat>) {
    failAt.Some? && failAt.value < |actions|
  }

  function DirectLog(actions: seq<Action>, rule: nat): seq<Executed> {
    seq(|actions|, i requires 0 <= i < |actions| => Executed(actions[i], Direct(rule)))
  }

  function RequestLog(actions: seq<Action>, request: nat): seq<Executed> {
    seq(|actions|, i requires 0 <= i < |actions| => Executed(actions[i], FromRequest(request, i)))
  }

  function Record(os: Os, rule: nat, status: ExecutionStatus): Os {
    os.(executions := os.executions + [Execution(rule, status)])
  }

  predicate Applies(rule: Rule, context: Context) {
    && rule.organisationId == context.organisationId
    && rule.isActive
    && rule.trigger == context.trigger
    && MatchesConditions(rule.conditions, context.payload)
  }

  function Beyond(failAt: Option<nat>, n: nat): Option<nat> {
    if failAt.Some? && failAt.value >= n then Some(failAt.value - n) else None
  }

  /** The gated half of a rule: an approval request, or direct execution when sending is automatic. */
  function RunGated(os: Os, i: nat, rule: Rule, gated: seq<Action>, context: Context, autoSend: bool,
                    failAt: Option<nat>): (Os, nat)
  {
    if gated != [] && (!autoSend || rule.requiresApproval != Some(false)) then
      if EvaluateToolPolicy(Some(OutboundMessage), NO_MODES) == Deny then (Record(os, i, FailedRun), 0)
      else
        var request := Request(context.organisationId, false, Pending, Some(Batch(context.organisationId, gated)), "");
        (Record(os.(requests := os.requests + [request]), i, AwaitingApproval(|os.requests|)), 1)
    else if gated != [] && autoSend then
      var after := os.(executed := os.executed + DirectLog(Attempted(gated, failAt), i));
      if Throws(gated, failAt) then (Record(after, i, FailedRun), 0) else (Record(after, i, Success), 1)
    else (Record(os, i, Success), 1)
  }

  /** One rule of a trigger; `failAt` is the position of the first of its actions that throws. */
  function RunRule(os: Os, i: nat, context: Context, autoSend: bool, failAt: Option<nat>): (Os, nat)
    requires i < |os.rules|
  {
    var rule := os.rules[i];
    if !Applies(rule, context) then (os, 0)
    else
      var immediate := Select(rule.actions, false);
      var after := os.(executed := os.executed + DirectLog(Attempted(immediate, failAt), i));
      if Throws(immediate, failAt) then (Record(after, i, FailedRun), 0)
      else RunGated(after, i, rule, Select(rule.actions, true), context, autoSend, Beyond(failAt, |immediate|))
  }

  function FailAt(fails: map<nat, nat>, i: nat): Option<nat> {
    if i in fails then Some(fails[i]) else None
  }

  /** The first `n` rules of a trigger, in order, and how many were executed. */
  function RunRules(os: Os, n: nat, context: Context, autoSend: bool, fails: map<nat, nat>): (r: (Os, nat))
    requires n <= |os.rules|
    ensures r.0.rules == os.rules
  {
    if n == 0 then (os, 0)
    else
      var (before, count) := RunRules(os, n - 1, context, autoSend, fails);
      var (after, ran) := RunRule(before, n - 1, context, autoSend, FailAt(fails, n - 1));
      (after, count + ran)
  }

  function Edit(actions: seq<Action>, edited: string): seq<Action> {
    seq(|actions|, i requires 0 <= i < |actions| =>
      if edited != "" && actions[i].kind in {SendMessage, SendBookingLink}
      then actions[i].(detail := edited) else actions[i])
  }

  /** The error a decision throws before it writes anything, if any. */
  function CheckDecision(os: Os, organisation: string, id: nat, approved: bool, edited: string): Option<Refusal> {
    if id >= |os.requests| || os.requests[id].organisationId != organisation then Some(RequestNotFound)
    else
      var request := os.requests[id];
      if request.status != Pending then Some(AlreadyDecided)
      else if approved && request.batch.Some? && request.batch.value.contextOrganisationId != organisation
      then Some(OrganisationMismatch)
      else if approved && request.aiOutbound && Trim(edited) == "" && Trim(request.draft) == "" then Some(EmptyMessage)
      else None
  }

  /** What an approval runs: the drafted message, or the batch, with the operator's edit applied. */
  function ApprovedActions(request: Request, edited: string): seq<Action> {
    if request.aiOutbound then [Action(SendMessage, if Trim(edited) != "" then Trim(edited) else Trim(request.draft), None)]
    else if request.batch.Some? then Edit(request.batch.value.actions, Trim(edited))
    else []
  }

  /** The write of a decision and the actions it runs; the write has no condition of its own. */
  function CommitDecision(os: Os, id: nat, approved: bool, edited: string, failAt: Option<nat>)
    : (Os, Result<nat, Refusal>)
    requires id < |os.requests|
  {
    var request := os.requests[id];
    var decided := os.(requests := os.requests[id := request.(status := if approved then Approved else Rejected)]);
    if !approved then (decided, Ok(0))
    else
      var actions := ApprovedActions(request, edited);
      var after := decided.(executed := decided.executed + RequestLog(Attempted(actions, failAt), id));
      if Throws(actions, failAt) then (after, Err(ActionFailed)) else (after, Ok(|actions|))
  }

  function DecideApprovalRequest(os: Os, organisation: string, id: nat, approved: bool, edited: string,
                                 failAt: Option<nat>): (Os, Result<nat, Refusal>)
  {
    var refusal := CheckDecision(os, organisation, id, approved, edited);
    if refusal.Some? then (os, Err(refusal.value)) else CommitDecision(os, id, approved, edited, failAt)
  }

  function RuleOf(workflow: Workflow, organisation: string, isActive: bool): Rule {
    Rule(organisation, isActive, workflow.trigger, workflow.conditions, workflow.actions, Some(workflow.requiresApproval))
  }

  class AutomationService {
    var rules: seq<Rule>
    var requests: seq<Request>
    var executed: seq<Executed>
    var executions: seq<Execution>
    var executing: set<string>

    function View(): Os
      reads this
    {
      Os(rules, requests, executed, executions)
    }

    method CreateRuleFromWorkflow(workflow: Workflow, organisation: string, isActive: bool)
      modifies this`rules
      ensures rules == old(rules) + [RuleOf(workflow, organisation, isActive)]
    {
      rules := rules + [Rule(organisation, isActive, workflow.trigger, workflow.conditions, workflow.actions,
                             Some(workflow.requiresApproval))];
    }

    /** executeAction in a loop; the log keeps every attempt. */
    method ExecuteDirectly(actions: seq<Action>, rule: nat, failAt: Option<nat>) returns (thrown: bool)
      modifies this`executed
      ensures executed == old(executed) + DirectLog(Attempted(actions, failAt), rule)
      ensures thrown == Throws(actions, failAt)
    {
      var i := 0;
      while i < |actions|
        invariant 0 <= i <= |actions|
        invariant failAt.Some? ==> i <= failAt.value
        invariant executed == old(executed) + DirectLog(actions[..i], rule)
      {
        executed := executed + [Executed(actions[i], Direct(rule))];
        assert DirectLog(actions[..i + 1], rule) == DirectLog(actions[..i], rule) + [Executed(actions[i], Direct(rule))];
        if failAt == Some(i) {
          return true;
        }
        i := i + 1;
      }
      assert actions[..i] == actions;
      return false;
    }

    method RecordExecution(rule: nat, status: ExecutionStatus)
      modifies this`executions
      ensures View() == Record(old(View()), rule, status)
    {
      executions := executions + [Execution(rule, status)];
    }

    method ExecuteRule(i: nat, context: Context, autoSend: bool, failAt: Option<nat>) returns (ran: nat)
      requires i < |rules|
      modifies this`requests, this`executed, this`executions
      ensures (View(), ran) == RunRule(old(View()), i, context, autoSend, failAt)
    {
      var rule := rules[i];
      if !Applies(rule, context) {
        return 0;
      }
      var immediate := Select(rule.actions, false);
      var gated := Select(rule.actions, true);
      var thrown := ExecuteDirectly(immediate, i, failAt);
      if thrown {
        RecordExecution(i, FailedRun);
        return 0;
      }
      if gated != [] && (!autoSend || rule.requiresApproval != Some(false)) {
        if EvaluateToolPolicy(Some(OutboundMessage), NO_MODES) == Deny {
          RecordExecution(i, FailedRun);
          return 0;
        }
        var id := |requests|;
        requests := requests + [Request(context.organisationId, false, Pending,
                                        Some(Batch(context.organisationId, gated)), "")];
        RecordExecution(i, AwaitingApproval(id));
        return 1;
      }
      if gated != [] && autoSend {
        thrown := ExecuteDirectly(gated, i, Beyond(failAt, |immediate|));
        if thrown {
          RecordExecution(i, FailedRun);
          return 0;
        }
      }
      RecordExecution(i, Success);
      return 1;
    }

    /** A trigger already executing under the same key is skipped; the key is released at the end. */
    method RunAutomations(lockKey: string, context: Context, autoSend: bool, fails: map<nat, nat>)
      returns (count: nat)
      modifies this
      ensures executing == old(executing)
      ensures (View(), count) == if lockKey in old(executing) then (old(View()), 0)
                                 else RunRules(old(View()), |old(rules)|, context, autoSend, fails)
    {
      if lockKey in executing {
        return 0;
      }
      executing := executing + {lockKey};
      count := 0;
      for i := 0 to |rules|
        invariant rules == old(rules)
        invariant executing == old(executing) + {lockKey}
        invariant (View(), count) == RunRules(old(View()), i, context, autoSend, fails)
      {
        var ran := ExecuteRule(i, context, autoSend, FailAt(fails, i));
        count := count + ran;
      }
      executing := executing - {lockKey};
    }

    method DecideApproval(organisation: string, id: nat, approved: bool, edited: string, failAt: Option<nat>)
      returns (result: Result<nat, Refusal>)
      modifies this`requests, this`executed
      ensures (View(), result) == DecideApprovalRequest(old(View()), organisation, id, approved, edited, failAt)
    {
      var refusal := CheckDecision(View(), organisation, id, approved, edited);
      if refusal.Some? {
        return Err(refusal.value);
      }
      var request := requests[id];
      requests := requests[id := request.(status := if approved then Approved else Rejected)];
      if !approved {
        return Ok(0);
      }
      var actions := ApprovedActions(request, edited);
      var actionsRun := 0;
      while actionsRun < |actions|
        invariant 0 <= actionsRun <= |actions|
        invariant failAt.Some? ==> actionsRun <= failAt.value
        invariant requests == old(requests)[id := request.(status := Approved)]
        invariant executed == old(executed) + RequestLog(actions[..actionsRun], id)
      {
        executed := executed + [Executed(actions[actionsRun], FromRequest(id, actionsRun))];
        assert RequestLog(actions[..actionsRun + 1], id)
            == RequestLog(actions[..actionsRun], id) + [Executed(actions[actionsRun], FromRequest(id, actionsRun))];
        if failAt == Some(actionsRun) {
          assert executed == old(executed) + RequestLog(Attempted(actions, failAt), id);
          return Err(ActionFailed);
        }
        actionsRun := actionsRun + 1;
      }
      assert actions[..actionsRun] == actions;
      return Ok(actionsRun);
    }
  }

  /** What PATCH may change of a rule. */
  datatype RuleEdit = RuleEdit(
    isActive: Option<bool>, trigger: Option<Trigger>, conditions: Option<Conditions>, actions: Option<seq<Action>>,
    requiresApproval: Option<bool>)

  /** The approval flag is worked out again only when the edit names both the actions and the trigger. */
  function Edited(rule: Rule, e: RuleEdit): Rule {
    Rule(rule.organisationId,
         if e.isActive.Some? then e.isActive.value else rule.isActive,
         if e.trigger.Some? then e.trigger.value else rule.trigger,
         if e.conditions.Some? then e.conditions.value else rule.conditions,
         if e.actions.Some? then e.actions.value else rule.actions,
         if e.requiresApproval.Some? then e.requiresApproval
         else if e.actions.Some? && e.trigger.Some? then Some(HasOutbound(e.actions.value))
         else rule.requiresApproval)
  }

  /** A call of decideApprovalRequest: the choice, the operator's edit, and the position of its first throwing action. */
  datatype Decision = Decision(id: nat, approved: bool, edited: string, failAt: Option<nat>)

  /**
   * How far such a call has come: it has read the request, or it has written an approval and is
   * about to attempt the action at `next`. It runs the list it read.
   */
  datatype Call =
    | Deciding(id: nat, approved: bool, actions: seq<Action>, failAt: Option<nat>)
    | Running(id: nat, actions: seq<Action>, next: nat, failAt: Option<nat>)

  /** `granted` lists the requests for which an approval was written, once for every such write. */
  datatype World = World(os: Os, pending: seq<Call>, granted: seq<nat>)

  /**
   * A decision reads the request, writes its status and then attempts one action at a time;
   * anything may come between any two of these.
   */
  datatype Step =
    | AddRule(rule: Rule)
    | AddCompiledRule(phrases: Phrases, matches: Matches, organisationId: string, isActive: bool)
    | EditRule(index: nat, edit: RuleEdit)
    | AddRequest(request: Request)
    | Run(context: Context, autoSend: bool, fails: map<nat, nat>)
    | BeginDecide(decider: string, decision: Decision)
    | WriteDecision(call: nat)
    | RunAction(call: nat)

  /** Steps other than decisions. */
  function Operate(os: Os, step: Step): Os {
    match step
    case AddRule(rule) => os.(rules := os.rules + [rule])
    case AddCompiledRule(p, m, organisation, isActive) =>
      os.(rules := os.rules + [RuleOf(CompilePhrases(p, m), organisation, isActive)])
    case EditRule(i, e) => if i < |os.rules| then os.(rules := os.rules[i := Edited(os.rules[i], e)]) else os
    case AddRequest(request) => os.(requests := os.requests + [request.(status := Pending)])
    case Run(context, autoSend, fails) => RunRules(os, |os.rules|, context, autoSend, fails).0
    case _ => os
  }

  predicate Decides(step: Step) {
    step.BeginDecide? || step.WriteDecision? || step.RunAction?
  }

  function Replace(calls: seq<Call>, c: nat, rest: seq<Call>): seq<Call>
    requires c < |calls|
  {
    calls[..c] + rest + calls[c + 1..]
  }

  function Begun(os: Os, d: Decision): Call
    requires d.id < |os.requests|
  {
    Deciding(d.id, d.approved, if d.approved then ApprovedActions(os.requests[d.id], d.edited) else [], d.failAt)
  }

  /** The status is written without a condition. */
  function Write(w: World, c: nat): World
    requires c < |w.pending| && w.pending[c].Deciding?
  {
    var call := w.pending[c];
    World(w.os.(requests :=
                  if call.id >= |w.os.requests| then w.os.requests
                  else w.os.requests[call.id := w.os.requests[call.id].(status := if call.approved then Approved else Rejected)]),
          Replace(w.pending, c, if call.approved && call.actions != [] then [Running(call.id, call.actions, 0, call.failAt)] else []),
          if call.approved then w.granted + [call.id] else w.granted)
  }

  function Attempt(w: World, c: nat): World
    requires c < |w.pending| && w.pending[c].Running? && w.pending[c].next < |w.pending[c].actions|
  {
    var call := w.pending[c];
    World(w.os.(executed := w.os.executed + [Executed(call.actions[call.next], FromRequest(call.id, call.next))]),
          Replace(w.pending, c, if call.failAt == Some(call.next) || call.next + 1 == |call.actions| then []
                                else [call.(next := call.next + 1)]),
          w.granted)
  }

  function Next(w: World, step: Step): World {
    match step
    case BeginDecide(organisation, d) =>
      if CheckDecision(w.os, organisation, d.id, d.approved, d.edited).None?
      then w.(pending := w.pending + [Begun(w.os, d)]) else w
    case WriteDecision(c) => if c < |w.pending| && w.pending[c].Deciding? then Write(w, c) else w
    case RunAction(c) =>
      if c < |w.pending| && w.pending[c].Running? && w.pending[c].next < |w.pending[c].actions| then Attempt(w, c) else w
    case _ => w.(os := Operate(w.os, step))
  }

  function RunAll(w: World, steps: seq<Step>): World
    decreases |steps|
  {
    if steps == [] then w else RunAll(Next(w, steps[0]), steps[1..])
  }

  const EMPTY := World(Os([], [], [], []), [], [])

  /** The rule sends nothing without approval even when sending is automatic. */
  predicate GatesOutbound(rule: Rule) {
    HasOutbound(rule.actions) ==> rule.requiresApproval != Some(false)
  }

  ghost predicate RulesGate(os: Os) {
    forall i :: 0 <= i < |os.rules| ==> GatesOutbound(os.rules[i])
  }

  /** Position `index` of what approving `request` runs is an action of this kind. */
  predicate Carries(request: Request, index: nat, kind: ActionKind) {
    if request.aiOutbound then index == 0 && kind == SendMessage
    else request.batch.Some? && index < |request.batch.value.actions| && request.batch.value.actions[index].kind == kind
  }

  /** What was attempted belongs to the list of a request with a written approval, or is not outbound. */
  ghost predicate EntrySound(requests: seq<Request>, granted: seq<nat>, e: Executed) {
    match e.origin
    case Direct(_) => !IsOutbound(e.action.kind)
    case FromRequest(r, i) => r < |requests| && r in granted && Carries(requests[r], i, e.action.kind)
  }

  ghost predicate LogSound(os: Os, granted: seq<nat>) {
    forall k :: 0 <= k < |os.executed| ==> EntrySound(os.requests, granted, os.executed[k])
  }

  /** Adding direct entries for internal actions. */
  lemma DirectKeepsLog(os: Os, granted: seq<nat>, actions: seq<Action>, rule: nat)
    requires LogSound(os, granted) && !HasOutbound(actions)
    ensures LogSound(os.(executed := os.executed + DirectLog(actions, rule)), granted)
  {
    var after := os.executed + DirectLog(actions, rule);
    forall k | 0 <= k < |after|
      ensures EntrySound(os.requests, granted, after[k])
    {
      if k >= |os.executed| {
        assert !IsOutbound(actions[k - |os.executed|].kind);
      }
    }
  }

  lemma AddRequestKeepsLog(os: Os, granted: seq<nat>, request: Request)
    requires LogSound(os, granted)
    ensures LogSound(os.(requests := os.requests + [request]), granted)
  {
    forall k | 0 <= k < |os.executed|
      ensures EntrySound(os.requests + [request], granted, os.executed[k])
    {
      assert EntrySound(os.requests, granted, os.executed[k]);
    }
  }

  lemma NoneOutbound(actions: seq<Action>, failAt: Option<nat>)
    requires forall i :: 0 <= i < |actions| ==> !IsOutbound(actions[i].kind)
    ensures !HasOutbound(Attempted(actions, failAt))
  {
  }

  lemma {:induction false} SelectHasOutbound(actions: seq<Action>)
    ensures Select(actions, true) != [] <==> HasOutbound(actions)
  {
    if actions != [] {
      var init := actions[..|actions| - 1];
      SelectHasOutbound(init);
      if HasOutbound(init) {
        var i :| 0 <= i < |init| && IsOutbound(init[i].kind);
        assert actions[i] == init[i];
      }
      if IsOutbound(actions[|actions| - 1].kind) {
        assert HasOutbound(actions);
      }
    }
  }

  lemma RunRuleKeepsLog(os: Os, granted: seq<nat>, i: nat, context: Context, autoSend: bool, failAt: Option<nat>)
    requires i < |os.rules| && LogSound(os, granted)
    requires autoSend ==> GatesOutbound(os.rules[i])
    ensures LogSound(RunRule(os, i, context, autoSend, failAt).0, granted)
  {
    var rule := os.rules[i];
    if Applies(rule, context) {
      var immediate, gated := Select(rule.actions, false), Select(rule.actions, true);
      NoneOutbound(immediate, failAt);
      DirectKeepsLog(os, granted, Attempted(immediate, failAt), i);
      SelectHasOutbound(rule.actions);
      var after := os.(executed := os.executed + DirectLog(Attempted(immediate, failAt), i));
      AddRequestKeepsLog(after, granted, Request(context.organisationId, false, Pending,
                                                 Some(Batch(context.organisationId, gated)), ""));
    }
  }

  lemma {:induction false} RunRulesKeepsLog(os: Os, granted: seq<nat>, n: nat, context: Context, autoSend: bool,
                                            fails: map<nat, nat>)
    requires n <= |os.rules| && LogSound(os, granted)
    requires autoSend ==> RulesGate(os)
    ensures LogSound(RunRules(os, n, context, autoSend, fails).0, granted)
  {
    if n > 0 {
      var before, after := RunRules(os, n - 1, context, autoSend, fails).0, RunRules(os, n, context, autoSend, fails).0;
      RunRulesKeepsLog(os, granted, n - 1, context, autoSend, fails);
      RunRulesStep(os, n, context, autoSend, fails);
      NextRuleKeepsLog(before, after, granted, n - 1, context, autoSend, FailAt(fails, n - 1));
    }
  }

  lemma NextRuleKeepsLog(before: Os, after: Os, granted: seq<nat>, i: nat, context: Context, autoSend: bool,
                         failAt: Option<nat>)
    requires i < |before.rules| && LogSound(before, granted)
    requires autoSend ==> RulesGate(before)
    requires after == RunRule(before, i, context, autoSend, failAt).0
    ensures LogSound(after, granted)
  {
    assert autoSend ==> GatesOutbound(before.rules[i]);
    RunRuleKeepsLog(before, granted, i, context, autoSend, failAt);
  }

  lemma RunRulesStep(os: Os, n: nat, context: Context, autoSend: bool, fails: map<nat, nat>)
    requires 0 < n <= |os.rules|
    ensures RunRules(os, n, context, autoSend, fails).0
              == RunRule(RunRules(os, n - 1, context, autoSend, fails).0, n - 1, context, autoSend, FailAt(fails, n - 1)).0
  {
  }

  /** The number of actions approving a request runs; no edit changes it. */
  function ListLength(request: Request): nat {
    if request.aiOutbound then 1 else if request.batch.Some? then |request.batch.value.actions| else 0
  }

  /** A call about to run, or running, a list holds that request's list, whatever the operator edited. */
  ghost predicate CallSound(requests: seq<Request>, granted: seq<nat>, call: Call) {
    && call.id < |requests|
    && (call.Running? || call.approved ==> HoldsList(requests[call.id], call.actions))
    && (call.Running? ==> call.id in granted && call.next < |call.actions|)
  }

  ghost predicate HoldsList(request: Request, actions: seq<Action>) {
    |actions| == ListLength(request) && forall j :: 0 <= j < |actions| ==> Carries(request, j, actions[j].kind)
  }

  ghost predicate CallsSound(w: World) {
    && (forall c :: 0 <= c < |w.pending| ==> CallSound(w.os.requests, w.granted, w.pending[c]))
    && (forall r :: r in w.granted ==> r < |w.os.requests|)
  }

  /** The requests keep their lists and grow, the grants grow. */
  ghost predicate Extends(requests: seq<Request>, later: seq<Request>) {
    && |requests| <= |later|
    && forall r :: 0 <= r < |requests| ==> later[r] == requests[r].(status := later[r].status)
  }

  lemma CallStaysSound(requests: seq<Request>, granted: seq<nat>, call: Call, later: seq<Request>, laterGranted: seq<nat>)
    requires CallSound(requests, granted, call) && Extends(requests, later) && granted <= laterGranted
    ensures CallSound(later, laterGranted, call)
  {
    assert later[call.id] == requests[call.id].(status := later[call.id].status);
  }

  lemma EntryStaysSound(requests: seq<Request>, granted: seq<nat>, e: Executed, later: seq<Request>, laterGranted: seq<nat>)
    requires EntrySound(requests, granted, e) && Extends(requests, later) && granted <= laterGranted
    ensures EntrySound(later, laterGranted, e)
  {
    if e.origin.FromRequest? {
      var r := e.origin.request;
      assert later[r] == requests[r].(status := later[r].status);
    }
  }

  lemma {:induction false} RunRulesExtend(os: Os, n: nat, context: Context, autoSend: bool, fails: map<nat, nat>)
    requires n <= |os.rules|
    ensures os.requests <= RunRules(os, n, context, autoSend, fails).0.requests
  {
    if n > 0 {
      RunRulesExtend(os, n - 1, context, autoSend, fails);
      RunRulesStep(os, n, context, autoSend, fails);
    }
  }

  lemma StepExtends(w: World, step: Step)
    ensures Extends(w.os.requests, Next(w, step).os.requests) && w.granted <= Next(w, step).granted
  {
    if step.Run? {
      RunRulesExtend(w.os, |w.os.rules|, step.context, step.autoSend, step.fails);
    }
  }

  lemma BegunIsSound(os: Os, granted: seq<nat>, d: Decision)
    requires d.id < |os.requests|
    ensures CallSound(os.requests, granted, Begun(os, d))
  {
  }

  /** The calls a step leaves open are earlier ones, or come from one of them, or have just begun. */
  lemma StepKeepsCallsSound(w: World, step: Step)
    requires CallsSound(w)
    ensures CallsSound(Next(w, step))
  {
    var after := Next(w, step);
    StepExtends(w, step);
    forall c | 0 <= c < |after.pending|
      ensures CallSound(after.os.requests, after.granted, after.pending[c])
    {
      OpenCallIsSound(w, step, after, c);
    }
  }

  lemma OpenCallIsSound(w: World, step: Step, after: World, c: nat)
    requires CallsSound(w) && after == Next(w, step) && c < |after.pending|
    requires Extends(w.os.requests, after.os.requests) && w.granted <= after.granted
    ensures CallSound(after.os.requests, after.granted, after.pending[c])
  {
    if after.pending[c] in w.pending {
      var i :| 0 <= i < |w.pending| && w.pending[i] == after.pending[c];
      CallStaysSound(w.os.requests, w.granted, w.pending[i], after.os.requests, after.granted);
    } else if step.BeginDecide? {
      BegunIsSound(w.os, w.granted, step.decision);
    } else {
      assert step.WriteDecision? || step.RunAction?;
      var from := w.pending[step.call];
      assert CallSound(w.os.requests, w.granted, from);
      CallStaysSound(w.os.requests, w.granted, from, after.os.requests, after.granted);
      MovedCallIsSound(w, step, after, after.pending[c]);
    }
  }

  lemma MovedCallIsSound(w: World, step: Step, after: World, call: Call)
    requires step.WriteDecision? || step.RunAction?
    requires step.call < |w.pending| && after == Next(w, step) && call in after.pending && call !in w.pending
    requires CallSound(after.os.requests, after.granted, w.pending[step.call])
    ensures CallSound(after.os.requests, after.granted, call)
  {
  }

  /** Every rule the run adds or edits gates its outbound actions, in the state it is written. */
  predicate GatedWrites(w: World, steps: seq<Step>)
    decreases |steps|
  {
    steps == [] || (WritesGated(w.os, steps[0]) && GatedWrites(Next(w, steps[0]), steps[1..]))
  }

  predicate WritesGated(os: Os, step: Step) {
    match step
    case AddRule(rule) => GatesOutbound(rule)
    case EditRule(i, e) => i < |os.rules| ==> GatesOutbound(Edited(os.rules[i], e))
    case _ => true
  }

  predicate NeverAutomatic(steps: seq<Step>) {
    steps == [] || (!(steps[0].Run? && steps[0].autoSend) && NeverAutomatic(steps[1..]))
  }

  lemma AttemptKeepsLog(w: World, c: nat)
    requires CallsSound(w) && LogSound(w.os, w.granted)
    requires c < |w.pending| && w.pending[c].Running?
    ensures LogSound(Next(w, RunAction(c)).os, w.granted)
  {
    var call, after := w.pending[c], Next(w, RunAction(c)).os;
    assert CallSound(w.os.requests, w.granted, call);
    forall k | 0 <= k < |after.executed|
      ensures EntrySound(after.requests, w.granted, after.executed[k])
    {
      if k < |w.os.executed| {
        assert EntrySound(w.os.requests, w.granted, w.os.executed[k]);
      }
    }
  }

  lemma WriteKeepsLog(w: World, step: Step, after: World)
    requires LogSound(w.os, w.granted) && after == Next(w, step) && after.os.executed == w.os.executed
    ensures LogSound(after.os, after.granted)
  {
    StepExtends(w, step);
    forall k | 0 <= k < |after.os.executed|
      ensures EntrySound(after.os.requests, after.granted, after.os.executed[k])
    {
      EntryStaysSound(w.os.requests, w.granted, w.os.executed[k], after.os.requests, after.granted);
    }
  }

  lemma StepKeepsLog(w: World, step: Step)
    requires CallsSound(w) && LogSound(w.os, w.granted)
    requires step.Run? && step.autoSend ==> RulesGate(w.os)
    ensures LogSound(Next(w, step).os, Next(w, step).granted)
  {
    match step
    case Run(context, autoSend, fails) => RunRulesKeepsLog(w.os, w.granted, |w.os.rules|, context, autoSend, fails);
    case RunAction(c) =>
      if c < |w.pending| && w.pending[c].Running? {
        AttemptKeepsLog(w, c);
      }
    case _ => WriteKeepsLog(w, step, Next(w, step));
  }

  lemma StepKeepsGates(w: World, step: Step)
    requires RulesGate(w.os) && WritesGated(w.os, step)
    ensures RulesGate(Next(w, step).os)
  {
    match step
    case AddCompiledRule(p, m, _, _) => CompiledWorkflowIsGated(p, m);
    case _ =>
  }

  lemma {:induction false} RunKeepsLog(w: World, steps: seq<Step>)
    requires CallsSound(w) && LogSound(w.os, w.granted)
    requires NeverAutomatic(steps) || (RulesGate(w.os) && GatedWrites(w, steps))
    ensures LogSound(RunAll(w, steps).os, RunAll(w, steps).granted)
    decreases |steps|
  {
    if steps != [] {
      StepKeepsLog(w, steps[0]);
      StepKeepsCallsSound(w, steps[0]);
      if !NeverAutomatic(steps) {
        StepKeepsGates(w, steps[0]);
      }
      RunKeepsLog(Next(w, steps[0]), steps[1..]);
    }
  }

  /**
   * An edit of a rule that gates its outbound actions leaves it ungated exactly when it has
   * outbound actions afterwards and says that no approval is required, or brings the actions
   * without the trigger to a rule that required none.
   */
  lemma EditKeepsGate(rule: Rule, e: RuleEdit)
    requires GatesOutbound(rule)
    ensures !GatesOutbound(Edited(rule, e)) <==>
              && HasOutbound(Edited(rule, e).actions)
              && (e.requiresApproval == Some(false)
                  || (e.requiresApproval.None? && e.actions.Some? && e.trigger.None? && rule.requiresApproval == Some(false)))
  {
  }

  /** That happens to every compiled rule that required no approval. */
  lemma EditWithoutTriggerUngates(p: Phrases, m: Matches, organisation: string, isActive: bool, actions: seq<Action>)
    requires !CompilePhrases(p, m).requiresApproval && HasOutbound(actions)
    ensures
      var rule := RuleOf(CompilePhrases(p, m), organisation, isActive);
      && GatesOutbound(rule)
      && !GatesOutbound(Edited(rule, RuleEdit(None, None, None, Some(actions), None)))
      && forall trigger :: GatesOutbound(Edited(rule, RuleEdit(None, Some(trigger), None, Some(actions), None)))
  {
    CompiledWorkflowIsGated(p, m);
  }

  // How often a request's list is attempted

  function Attempts(log: seq<Executed>, request: nat, index: nat): nat {
    if log == [] then 0
    else
      Attempts(log[..|log| - 1], request, index)
      + if log[|log| - 1].origin == FromRequest(request, index) then 1 else 0
  }

  lemma AttemptsAppend(log: seq<Executed>, e: Executed, request: nat, index: nat)
    ensures Attempts(log + [e], request, index)
         == Attempts(log, request, index) + if e.origin == FromRequest(request, index) then 1 else 0
  {
    assert (log + [e])[..|log|] == log;
  }

  /** How often the list was started. */
  function Starts(log: seq<Executed>, request: nat): nat {
    Attempts(log, request, 0)
  }

  lemma {:induction false} RequestLogAttempts(log: seq<Executed>, actions: seq<Action>, id: nat, request: nat, index: nat)
    ensures Attempts(log + RequestLog(actions, id), request, index)
         == Attempts(log, request, index) + if request == id && index < |actions| then 1 else 0
  {
    if actions == [] {
      assert log + RequestLog(actions, id) == log;
    } else {
      var last, e := |actions| - 1, Executed(actions[|actions| - 1], FromRequest(id, |actions| - 1));
      RequestLogAttempts(log, actions[..last], id, request, index);
      assert RequestLog(actions, id) == RequestLog(actions[..last], id) + [e];
      assert log + RequestLog(actions, id) == log + RequestLog(actions[..last], id) + [e];
      AttemptsAppend(log + RequestLog(actions[..last], id), e, request, index);
    }
  }

  lemma {:induction false} DirectLogAttempts(log: seq<Executed>, actions: seq<Action>, rule: nat, request: nat, index: nat)
    ensures Attempts(log + DirectLog(actions, rule), request, index) == Attempts(log, request, index)
  {
    if actions == [] {
      assert log + DirectLog(actions, rule) == log;
    } else {
      var last, e := |actions| - 1, Executed(actions[|actions| - 1], Direct(rule));
      DirectLogAttempts(log, actions[..last], rule, request, index);
      assert DirectLog(actions, rule) == DirectLog(actions[..last], rule) + [e];
      assert log + DirectLog(actions, rule) == log + DirectLog(actions[..last], rule) + [e];
      AttemptsAppend(log + DirectLog(actions[..last], rule), e, request, index);
    }
  }

  /** A rule attempts no request's list and changes no request. */
  ghost predicate LeavesRequest(os: Os, after: Os, request: nat, index: nat) {
    && os.requests <= after.requests
    && Attempts(after.executed, request, index) == Attempts(os.executed, request, index)
  }

  lemma DirectLeavesRequest(os: Os, after: Os, actions: seq<Action>, rule: nat, request: nat, index: nat)
    requires after.executed == os.executed + DirectLog(actions, rule) && os.requests <= after.requests
    ensures LeavesRequest(os, after, request, index)
  {
    DirectLogAttempts(os.executed, actions, rule, request, index);
  }

  lemma RunGatedLeavesRequest(os: Os, after: Os, i: nat, rule: Rule, gated: seq<Action>, context: Context,
                              autoSend: bool, failAt: Option<nat>, request: nat, index: nat)
    requires after == RunGated(os, i, rule, gated, context, autoSend, failAt).0
    ensures LeavesRequest(os, after, request, index)
  {
    if after.executed != os.executed {
      DirectLeavesRequest(os, after, Attempted(gated, failAt), i, request, index);
    }
  }

  lemma RunRuleLeavesRequest(os: Os, after: Os, i: nat, context: Context, autoSend: bool, failAt: Option<nat>,
                             request: nat, index: nat)
    requires i < |os.rules| && after == RunRule(os, i, context, autoSend, failAt).0
    ensures LeavesRequest(os, after, request, index)
  {
    var rule := os.rules[i];
    if Applies(rule, context) {
      var immediate, gated := Select(rule.actions, false), Select(rule.actions, true);
      var between := os.(executed := os.executed + DirectLog(Attempted(immediate, failAt), i));
      DirectLeavesRequest(os, between, Attempted(immediate, failAt), i, request, index);
      if !Throws(immediate, failAt) {
        RunGatedLeavesRequest(between, after, i, rule, gated, context, autoSend, Beyond(failAt, |immediate|), request, index);
      }
    }
  }

  lemma {:induction false} RunRulesLeaveRequest(os: Os, n: nat, context: Context, autoSend: bool, fails: map<nat, nat>,
                                                request: nat, index: nat)
    requires n <= |os.rules|
    ensures LeavesRequest(os, RunRules(os, n, context, autoSend, fails).0, request, index)
  {
    if n > 0 {
      RunRulesLeaveRequest(os, n - 1, context, autoSend, fails, request, index);
      RunRulesStep(os, n, context, autoSend, fails);
      RunRuleLeavesRequest(RunRules(os, n - 1, context, autoSend, fails).0, RunRules(os, n, context, autoSend, fails).0,
                           n - 1, context, autoSend, FailAt(fails, n - 1), request, index);
    }
  }

  lemma OperateLeavesRequest(os: Os, step: Step, request: nat, index: nat)
    ensures LeavesRequest(os, Operate(os, step), request, index)
  {
    if step.Run? {
      RunRulesLeaveRequest(os, |os.rules|, step.context, step.autoSend, step.fails, request, index);
    }
  }

  /** The approvals written for a request. */
  function Grants(granted: seq<nat>, request: nat): nat {
    if granted == [] then 0
    else Grants(granted[..|granted| - 1], request) + if granted[|granted| - 1] == request then 1 else 0
  }

  lemma GrantsAppend(granted: seq<nat>, id: nat, request: nat)
    ensures Grants(granted + [id], request) == Grants(granted, request) + if id == request then 1 else 0
  {
    assert (granted + [id])[..|granted|] == granted;
  }

  lemma {:induction false} GrantedIsCounted(granted: seq<nat>, request: nat)
    ensures Grants(granted, request) > 0 <==> request in granted
  {
    if granted != [] {
      GrantedIsCounted(granted[..|granted| - 1], request);
      assert granted == granted[..|granted| - 1] + [granted[|granted| - 1]];
    }
  }

  /** A call that has written its approval and not begun its list. */
  predicate IsWaiting(call: Call, request: nat) {
    call.Running? && call.id == request && call.next == 0
  }

  /** A call that has begun its list and not reached a position. */
  predicate IsBehind(call: Call, request: nat, index: nat) {
    call.Running? && call.id == request && 0 < call.next <= index
  }

  function Waiting(calls: seq<Call>, request: nat): nat {
    Count(calls, (call: Call) => IsWaiting(call, request))
  }

  function Behind(calls: seq<Call>, request: nat, index: nat): nat {
    Count(calls, (call: Call) => IsBehind(call, request, index))
  }

  lemma CountReplace(calls: seq<Call>, c: nat, rest: seq<Call>, p: Call -> bool)
    requires c < |calls| && |rest| <= 1
    ensures Count(Replace(calls, c, rest), p) + (if p(calls[c]) then 1 else 0)
         == Count(calls, p) + if rest != [] && p(rest[0]) then 1 else 0
  {
    CountConcat(calls[..c] + rest, calls[c + 1..], p);
    CountConcat(calls[..c] + [calls[c]], calls[c + 1..], p);
    CountAppend(calls[..c], calls[c], p);
    assert calls == calls[..c] + [calls[c]] + calls[c + 1..];
    if rest == [] {
      assert calls[..c] + rest == calls[..c];
    } else {
      CountAppend(calls[..c], rest[0], p);
      assert calls[..c] + rest == calls[..c] + [rest[0]];
    }
  }

  lemma CallsReplaced(calls: seq<Call>, c: nat, rest: seq<Call>, request: nat, index: nat)
    requires c < |calls| && |rest| <= 1
    ensures Waiting(Replace(calls, c, rest), request) + (if IsWaiting(calls[c], request) then 1 else 0)
         == Waiting(calls, request) + if rest != [] && IsWaiting(rest[0], request) then 1 else 0
    ensures Behind(Replace(calls, c, rest), request, index) + (if IsBehind(calls[c], request, index) then 1 else 0)
         == Behind(calls, request, index) + if rest != [] && IsBehind(rest[0], request, index) then 1 else 0
  {
    CountReplace(calls, c, rest, (call: Call) => IsWaiting(call, request));
    CountReplace(calls, c, rest, (call: Call) => IsBehind(call, request, index));
  }

  lemma CallsAppended(calls: seq<Call>, call: Call, request: nat, index: nat)
    requires call.Deciding?
    ensures Waiting(calls + [call], request) == Waiting(calls, request)
    ensures Behind(calls + [call], request, index) == Behind(calls, request, index)
  {
    CountAppend(calls, call, (x: Call) => IsWaiting(x, request));
    CountAppend(calls, call, (x: Call) => IsBehind(x, request, index));
  }

  predicate HasList(os: Os, request: nat) {
    request < |os.requests| && ListLength(os.requests[request]) > 0
  }

  /**
   * Every approval written for a request with a list has started the list or waits to; every
   * position is attempted at most once for each start, and not yet by the calls still behind it.
   */
  predicate Accounted(w: World, request: nat, index: nat) {
    && Starts(w.os.executed, request) + Waiting(w.pending, request)
         == (if HasList(w.os, request) then Grants(w.granted, request) else 0)
    && Attempts(w.os.executed, request, index) + Behind(w.pending, request, index) <= Starts(w.os.executed, request)
  }

  lemma WriteKeepsAccount(w: World, c: nat, request: nat, index: nat, after: World)
    requires CallsSound(w) && Accounted(w, request, index) && c < |w.pending| && w.pending[c].Deciding?
    requires after == Write(w, c)
    ensures Accounted(after, request, index)
  {
    var call := w.pending[c];
    assert CallSound(w.os.requests, w.granted, call);
    CallsReplaced(w.pending, c,
                  if call.approved && call.actions != [] then [Running(call.id, call.actions, 0, call.failAt)] else [],
                  request, index);
    GrantsAppend(w.granted, call.id, request);
  }

  lemma AttemptKeepsAccount(w: World, c: nat, request: nat, index: nat, after: World)
    requires CallsSound(w) && Accounted(w, request, index)
    requires c < |w.pending| && w.pending[c].Running? && w.pending[c].next < |w.pending[c].actions|
    requires after == Attempt(w, c)
    ensures Accounted(after, request, index)
  {
    var call := w.pending[c];
    var e := Executed(call.actions[call.next], FromRequest(call.id, call.next));
    AttemptsAppend(w.os.executed, e, request, index);
    AttemptsAppend(w.os.executed, e, request, 0);
    CallsReplaced(w.pending, c, if call.failAt == Some(call.next) || call.next + 1 == |call.actions| then []
                                else [call.(next := call.next + 1)], request, index);
  }

  lemma OperateKeepsAccount(w: World, step: Step, request: nat, index: nat, after: World)
    requires CallsSound(w) && Accounted(w, request, index) && !Decides(step) && after == Next(w, step)
    ensures Accounted(after, request, index)
  {
    OperateLeavesRequest(w.os, step, request, index);
    OperateLeavesRequest(w.os, step, request, 0);
    GrantedIsCounted(w.granted, request);
  }

  lemma StepKeepsAccount(w: World, step: Step, request: nat, index: nat)
    requires CallsSound(w) && Accounted(w, request, index)
    ensures Accounted(Next(w, step), request, index)
  {
    var after := Next(w, step);
    if step.BeginDecide? {
      if after != w {
        CallsAppended(w.pending, Begun(w.os, step.decision), request, index);
      }
    } else if step.WriteDecision? {
      if after != w {
        WriteKeepsAccount(w, step.call, request, index, after);
      }
    } else if step.RunAction? {
      if after != w {
        AttemptKeepsAccount(w, step.call, request, index, after);
      }
    } else {
      OperateKeepsAccount(w, step, request, index, after);
    }
  }

  // When a list runs once, for an approved request

  /** An approval was written at most once, and then the request is approved. */
  predicate GrantedOnce(w: World, request: nat) {
    && Grants(w.granted, request) <= 1
    && (Grants(w.granted, request) > 0 ==> request < |w.os.requests| && w.os.requests[request].status == Approved)
  }

  /** A decision, of either kind, is written for a request for which an approval was already written. */
  predicate DecidesLate(w: World, step: Step, request: nat) {
    && step.WriteDecision? && step.call < |w.pending| && w.pending[step.call].Deciding?
    && w.pending[step.call].id == request && request in w.granted
  }

  predicate NoLateDecision(w: World, steps: seq<Step>, request: nat)
    decreases |steps|
  {
    steps == [] || (!DecidesLate(w, steps[0], request) && NoLateDecision(Next(w, steps[0]), steps[1..], request))
  }

  lemma WriteIsLateOrOnce(w: World, c: nat, request: nat, after: World)
    requires CallsSound(w) && c < |w.pending| && w.pending[c].Deciding? && after == Write(w, c)
    ensures GrantedOnce(after, request) <==> GrantedOnce(w, request) && !DecidesLate(w, WriteDecision(c), request)
  {
    assert CallSound(w.os.requests, w.granted, w.pending[c]);
    GrantedIsCounted(w.granted, request);
    GrantsAppend(w.granted, w.pending[c].id, request);
  }

  /** A late decision repeats the approval or takes it back, and neither is ever undone. */
  lemma DecisionStep(w: World, step: Step, request: nat)
    requires CallsSound(w)
    ensures GrantedOnce(Next(w, step), request) <==> GrantedOnce(w, request) && !DecidesLate(w, step, request)
  {
    if step.WriteDecision? {
      if step.call < |w.pending| && w.pending[step.call].Deciding? {
        WriteIsLateOrOnce(w, step.call, request, Next(w, step));
      }
    } else if !Decides(step) {
      OperateLeavesRequest(w.os, step, request, 0);
      GrantedIsCounted(w.granted, request);
    }
  }

  lemma {:induction false} DecisionsOverRuns(w: World, steps: seq<Step>, request: nat, index: nat)
    requires CallsSound(w) && Accounted(w, request, index)
    ensures CallsSound(RunAll(w, steps)) && Accounted(RunAll(w, steps), request, index)
    ensures GrantedOnce(RunAll(w, steps), request) <==> GrantedOnce(w, request) && NoLateDecision(w, steps, request)
    decreases |steps|
  {
    if steps != [] {
      DecisionStep(w, steps[0], request);
      StepKeepsAccount(w, steps[0], request, index);
      StepKeepsCallsSound(w, steps[0]);
      DecisionsOverRuns(Next(w, steps[0]), steps[1..], request, index);
    }
  }

  /** The list was started at most once, and only if the request is now approved. */
  predicate RanOnceApproved(os: Os, request: nat) {
    && Starts(os.executed, request) <= 1
    && (Starts(os.executed, request) > 0 ==> request < |os.requests| && os.requests[request].status == Approved)
  }

  /** No call has written an approval and not begun its list. */
  predicate NoneWaiting(w: World, request: nat) {
    forall c :: 0 <= c < |w.pending| ==> !IsWaiting(w.pending[c], request)
  }

  lemma {:induction false} NoneWaitingIsZero(calls: seq<Call>, request: nat)
    requires forall c :: 0 <= c < |calls| ==> !IsWaiting(calls[c], request)
    ensures Waiting(calls, request) == 0
  {
    if calls != [] {
      NoneWaitingIsZero(calls[1..], request);
    }
  }

  /**
   * The approval gate, over any run of triggers, rule edits and overlapping decisions, with actions
   * throwing anywhere. When sending is never automatic, whatever the rules say, every outbound
   * action that was ever attempted stands at its position in the list of a request for which an
   * approval was written. When every rule added or edited by hand gates its outbound actions, this
   * holds with automatic sending too, with any rules compiled from text.
   */
  lemma OutboundNeedsApproval(steps: seq<Step>)
    requires NeverAutomatic(steps) || GatedWrites(EMPTY, steps)
    ensures
      var w := RunAll(EMPTY, steps);
      forall k :: 0 <= k < |w.os.executed| && IsOutbound(w.os.executed[k].action.kind) ==>
        var origin := w.os.executed[k].origin;
        && origin.FromRequest?
        && origin.request < |w.os.requests| && origin.request in w.granted
        && Carries(w.os.requests[origin.request], origin.index, w.os.executed[k].action.kind)
  {
    RunKeepsLog(EMPTY, steps);
    var w := RunAll(EMPTY, steps);
    forall k | 0 <= k < |w.os.executed|
      ensures EntrySound(w.os.requests, w.granted, w.os.executed[k])
    {
    }
  }

  /** In every run no position is attempted more often than the list was started, nor that than approvals were written. */
  lemma AttemptsArePaidFor(steps: seq<Step>, request: nat, index: nat)
    ensures
      var w := RunAll(EMPTY, steps);
      Attempts(w.os.executed, request, index) <= Starts(w.os.executed, request) <= Grants(w.granted, request)
  {
    DecisionsOverRuns(EMPTY, steps, request, index);
  }

  /**
   * In every run, for every request with a list, whenever no written approval still has to begin
   * it: the list was started at most once, and only if the request is now approved, if and only if
   * no decision was written for the request after an approval of it was.
   */
  lemma ListsRunOnceWhenApproved(steps: seq<Step>, request: nat)
    requires HasList(RunAll(EMPTY, steps).os, request) && NoneWaiting(RunAll(EMPTY, steps), request)
    ensures RanOnceApproved(RunAll(EMPTY, steps).os, request) <==> NoLateDecision(EMPTY, steps, request)
  {
    DecisionsOverRuns(EMPTY, steps, request, 0);
    NoneWaitingIsZero(RunAll(EMPTY, steps).pending, request);
  }

  /** Without a late decision that holds at every point of the run, and every position is attempted at most once. */
  lemma WithoutLateDecisionRunsOnce(steps: seq<Step>, request: nat, index: nat)
    requires NoLateDecision(EMPTY, steps, request)
    ensures RanOnceApproved(RunAll(EMPTY, steps).os, request)
    ensures Attempts(RunAll(EMPTY, steps).os.executed, request, index) <= 1
  {
    DecisionsOverRuns(EMPTY, steps, request, index);
  }

  /** And every action of the list is attempted while the request is approved. */
  lemma ListRunsWhileApproved(steps: seq<Step>, c: nat)
    requires var w := RunAll(EMPTY, steps);
      c < |w.pending| && w.pending[c].Running? && NoLateDecision(EMPTY, steps, w.pending[c].id)
    ensures
      var w := RunAll(EMPTY, steps);
      w.pending[c].id < |w.os.requests| && w.os.requests[w.pending[c].id].status == Approved
  {
    var w := RunAll(EMPTY, steps);
    DecisionsOverRuns(EMPTY, steps, w.pending[c].id, 0);
    assert CallSound(w.os.requests, w.granted, w.pending[c]);
    GrantedIsCounted(w.granted, w.pending[c].id);
  }

  // Decisions one at a time

  predicate AtMostOneOpen(w: World, steps: seq<Step>)
    decreases |steps|
  {
    |w.pending| <= 1 && (steps == [] || AtMostOneOpen(Next(w, steps[0]), steps[1..]))
  }

  /** A call that has not written yet is the only one, and its request is still pending, without an approval. */
  predicate OpenIsPending(w: World, request: nat) {
    && |w.pending| <= 1
    && (request in w.granted ==> request < |w.os.requests| && w.os.requests[request].status != Pending)
    && (w.pending != [] && w.pending[0].Deciding? && w.pending[0].id == request ==>
          request < |w.os.requests| && w.os.requests[request].status == Pending)
  }

  lemma OneOpenStep(w: World, step: Step, request: nat)
    requires OpenIsPending(w, request) && |Next(w, step).pending| <= 1
    ensures OpenIsPending(Next(w, step), request) && !DecidesLate(w, step, request)
  {
    if !Decides(step) {
      OperateLeavesRequest(w.os, step, request, 0);
    }
  }

  /** With never more than one decision open, no decision is late. */
  lemma {:induction false} OneAtATimeIsNeverLate(w: World, steps: seq<Step>, request: nat)
    requires OpenIsPending(w, request) && AtMostOneOpen(w, steps)
    ensures NoLateDecision(w, steps, request)
    decreases |steps|
  {
    if steps != [] {
      var next := Next(w, steps[0]);
      assert |next.pending| <= 1;
      OneOpenStep(w, steps[0], request);
      OneAtATimeIsNeverLate(next, steps[1..], request);
    }
  }

  /** Then every list runs at most once, and only for an approved request. */
  lemma OneDecisionAtATimeRunsOnce(steps: seq<Step>, request: nat, index: nat)
    requires AtMostOneOpen(EMPTY, steps)
    ensures
      var os := RunAll(EMPTY, steps).os;
      && RanOnceApproved(os, request) && Attempts(os.executed, request, index) <= 1
  {
    OneAtATimeIsNeverLate(EMPTY, steps, request);
    WithoutLateDecisionRunsOnce(steps, request, index);
  }

  // The steps of one call in one go

  function RunActions(c: nat, n: nat): seq<Step> {
    if n == 0 then [] else [RunAction(c)] + RunActions(c, n - 1)
  }

  /** The last call runs the rest of its list. */
  lemma {:induction false} RestOfListRuns(w: World, calls: seq<Call>, call: Call, log: seq<Executed>)
    requires call.Running? && call.next < |call.actions| && w.pending == calls + [call]
    requires call.failAt.Some? ==> call.next <= call.failAt.value
    requires w.os.executed == log + RequestLog(call.actions[..call.next], call.id)
    ensures RunAll(w, RunActions(|calls|, |Attempted(call.actions, call.failAt)| - call.next))
         == World(w.os.(executed := log + RequestLog(Attempted(call.actions, call.failAt), call.id)), calls, w.granted)
    decreases |call.actions| - call.next
  {
    var c, n := |calls|, |Attempted(call.actions, call.failAt)| - call.next;
    var after := Next(w, RunAction(c));
    var e := Executed(call.actions[call.next], FromRequest(call.id, call.next));
    assert RequestLog(call.actions[..call.next + 1], call.id) == RequestLog(call.actions[..call.next], call.id) + [e];
    assert log + RequestLog(call.actions[..call.next], call.id) + [e] == log + RequestLog(call.actions[..call.next + 1], call.id);
    assert RunActions(c, n)[1..] == RunActions(c, n - 1);
    if call.failAt == Some(call.next) || call.next + 1 == |call.actions| {
      assert after.pending == calls;
      assert call.actions[..call.next + 1] == Attempted(call.actions, call.failAt);
      assert RunAll(after, []) == after;
    } else {
      var moved := call.(next := call.next + 1);
      assert after.pending == calls + [moved];
      RestOfListRuns(after, calls, moved, log);
    }
  }

  /** Reading, writing and running with nothing in between is one call of decideApprovalRequest. */
  lemma DecideInOneGo(w: World, organisation: string, d: Decision)
    requires CheckDecision(w.os, organisation, d.id, d.approved, d.edited).None?
    ensures
      var n := |w.pending|;
      var attempts := if d.approved then |Attempted(ApprovedActions(w.os.requests[d.id], d.edited), d.failAt)| else 0;
      RunAll(Next(Next(w, BeginDecide(organisation, d)), WriteDecision(n)), RunActions(n, attempts))
        == World(DecideApprovalRequest(w.os, organisation, d.id, d.approved, d.edited, d.failAt).0, w.pending,
                 if d.approved then w.granted + [d.id] else w.granted)
  {
    var call := Begun(w.os, d);
    var begun := Next(w, BeginDecide(organisation, d));
    var written := Next(begun, WriteDecision(|w.pending|));
    assert begun.pending == w.pending + [call];
    var decided := w.os.requests[d.id := w.os.requests[d.id].(status := if d.approved then Approved else Rejected)];
    if d.approved && call.actions != [] {
      var running := Running(d.id, call.actions, 0, d.failAt);
      assert written.pending == w.pending + [running];
      assert written.os.executed == w.os.executed + RequestLog(call.actions[..0], d.id);
      RestOfListRuns(written, w.pending, running, w.os.executed);
    } else {
      assert written.pending == w.pending;
      assert w.os.executed + RequestLog([], d.id) == w.os.executed;
    }
  }

  /**
   * Exactly when a rule bypasses approval: sending is automatic, the rule was written with
   * requiresApproval false, it applies, has an outbound action, and none of its internal actions
   * throws first.
   */
  lemma BypassNeedsUngatedRule(os: Os, i: nat, context: Context, autoSend: bool, failAt: Option<nat>)
    requires i < |os.rules|
    ensures
      var after := RunRule(os, i, context, autoSend, failAt).0;
      (exists k :: |os.executed| <= k < |after.executed| && IsOutbound(after.executed[k].action.kind))
      <==> autoSend && Applies(os.rules[i], context) && HasOutbound(os.rules[i].actions)
           && os.rules[i].requiresApproval == Some(false) && !Throws(Select(os.rules[i].actions, false), failAt)
  {
    var rule := os.rules[i];
    SelectHasOutbound(rule.actions);
    var immediate, gated := Select(rule.actions, false), Select(rule.actions, true);
    var after := RunRule(os, i, context, autoSend, failAt).0;
    NoneOutbound(immediate, failAt);
    var first := os.executed + DirectLog(Attempted(immediate, failAt), i);
    if autoSend && Applies(rule, context) && gated != [] && rule.requiresApproval == Some(false) && !Throws(immediate, failAt) {
      assert after.executed == first + DirectLog(Attempted(gated, Beyond(failAt, |immediate|)), i);
      assert after.executed[|first|].action == gated[0];
    } else if Applies(rule, context) {
      assert after.executed == first;
    }
  }

  /** A granted approval with no throwing action runs its whole list once, in order, and says so. */
  lemma ApprovalRunsWholeList(os: Os, organisation: string, id: nat, edited: string)
    requires CheckDecision(os, organisation, id, true, edited).None?
    ensures
      var (after, result) := DecideApprovalRequest(os, organisation, id, true, edited, None);
      && after.requests[id].status == Approved
      && result == Ok(|after.executed| - |os.executed|)
      && |after.executed| == |os.executed| + (if os.requests[id].aiOutbound then 1
           else if os.requests[id].batch.Some? then |os.requests[id].batch.value.actions| else 0)
      && os.executed <= after.executed
      && (forall j :: |os.executed| <= j < |after.executed| ==>
            && after.executed[j].origin == FromRequest(id, j - |os.executed|)
            && Carries(os.requests[id], j - |os.executed|, after.executed[j].action.kind))
  {
  }

  /** A decided request is never decided again, and nothing of it runs again. */
  lemma SecondDecisionIsRefused(os: Os, organisation: string, id: nat, approved: bool, edited: string,
                                failAt: Option<nat>, again: bool, editedAgain: string, failAgain: Option<nat>)
    requires CheckDecision(os, organisation, id, approved, edited).None?
    ensures
      var once := DecideApprovalRequest(os, organisation, id, approved, edited, failAt).0;
      DecideApprovalRequest(once, organisation, id, again, editedAgain, failAgain) == (once, Err(AlreadyDecided))
  {
  }

  // Overlapping decisions

  lemma RunFirst(w: World, step: Step, rest: seq<Step>)
    ensures RunAll(w, [step] + rest) == RunAll(Next(w, step), rest)
  {
    assert ([step] + rest)[1..] == rest;
  }

  lemma {:induction false} RunConcat(w: World, a: seq<Step>, b: seq<Step>)
    ensures RunAll(w, a + b) == RunAll(RunAll(w, a), b)
    decreases |a|
  {
    if a == [] {
      assert a + b == b;
    } else {
      assert (a + b)[1..] == a[1..] + b;
      RunConcat(Next(w, a[0]), a[1..], b);
    }
  }

  /** Two decisions that both read before either writes, and the order of their writes. */
  function Overlap(organisation: string, approval: Decision, other: Decision, n: nat, approvalFirst: bool): seq<Step> {
    [BeginDecide(organisation, approval)] + ([BeginDecide(organisation, other)] +
      ([WriteDecision(if approvalFirst then n else n + 1)] + [WriteDecision(if approvalFirst then n + 1 else n)]))
  }

  lemma RunOverlap(w: World, organisation: string, approval: Decision, other: Decision, first: bool)
    ensures
      var n := |w.pending|;
      RunAll(w, Overlap(organisation, approval, other, n, first))
        == Next(Next(Next(Next(w, BeginDecide(organisation, approval)), BeginDecide(organisation, other)),
                     WriteDecision(if first then n else n + 1)), WriteDecision(if first then n + 1 else n))
  {
    var n := |w.pending|;
    var s3, s4 := WriteDecision(if first then n else n + 1), WriteDecision(if first then n + 1 else n);
    var w1 := Next(w, BeginDecide(organisation, approval));
    var w2 := Next(w1, BeginDecide(organisation, other));
    RunFirst(w, BeginDecide(organisation, approval), [BeginDecide(organisation, other)] + ([s3] + [s4]));
    RunFirst(w1, BeginDecide(organisation, other), [s3] + [s4]);
    RunFirst(w2, s3, [s4]);
    assert [s4] == [s4] + [];
    RunFirst(Next(w2, s3), s4, []);
  }

  /** Both decisions pass the checks and the request has a list. */
  predicate BothAllowed(os: Os, organisation: string, approval: Decision, other: Decision) {
    && approval.approved && approval.id == other.id
    && CheckDecision(os, organisation, approval.id, true, approval.edited).None?
    && CheckDecision(os, organisation, other.id, other.approved, other.edited).None?
    && ListLength(os.requests[approval.id]) > 0
  }

  function Opened(os: Os, d: Decision): seq<Call>
    requires d.id < |os.requests|
  {
    if d.approved then [Running(d.id, ApprovedActions(os.requests[d.id], d.edited), 0, d.failAt)] else []
  }

  lemma BothRead(w: World, organisation: string, approval: Decision, other: Decision, after: World)
    requires BothAllowed(w.os, organisation, approval, other)
    requires after == Next(Next(w, BeginDecide(organisation, approval)), BeginDecide(organisation, other))
    ensures after == World(w.os, w.pending + [Begun(w.os, approval), Begun(w.os, other)], w.granted)
  {
    assert w.pending + [Begun(w.os, approval)] + [Begun(w.os, other)] == w.pending + [Begun(w.os, approval), Begun(w.os, other)];
  }

  /** Writing a decision just read: the status, and its call if it has a list to run. */
  lemma WriteOpens(w: World, c: nat, d: Decision, os: Os, after: World, before: seq<Call>, behind: seq<Call>)
    requires d.id < |os.requests| && d.id < |w.os.requests| && (d.approved ==> ListLength(os.requests[d.id]) > 0)
    requires |before| == c && w.pending == before + [Begun(os, d)] + behind && after == Next(w, WriteDecision(c))
    ensures after.pending == before + Opened(os, d) + behind
    ensures after.os == w.os.(requests := w.os.requests[d.id := w.os.requests[d.id].(
                                            status := if d.approved then Approved else Rejected)])
  {
    assert w.pending[c] == Begun(os, d);
  }

  /** What two overlapping decisions leave behind when both have written. */
  ghost predicate Both(w: World, approval: Decision, other: Decision, status: RequestStatus, after: World)
    requires approval.id < |w.os.requests| && other.id < |w.os.requests|
  {
    && after.os.executed == w.os.executed
    && approval.id < |after.os.requests| && after.os.requests[approval.id].status == status
    && after.pending == w.pending + Opened(w.os, approval) + Opened(w.os, other)
  }

  lemma ApprovalWrittenFirst(w: World, organisation: string, approval: Decision, other: Decision, read: World, after: World)
    requires BothAllowed(w.os, organisation, approval, other)
    requires read.os == w.os && read.pending == w.pending + [Begun(w.os, approval), Begun(w.os, other)]
    requires after == Next(Next(read, WriteDecision(|w.pending|)), WriteDecision(|w.pending| + 1))
    ensures Both(w, approval, other, if other.approved then Approved else Rejected, after)
  {
    var n, theirs := |w.pending|, Begun(w.os, other);
    var once := Next(read, WriteDecision(n));
    assert read.pending == w.pending + [Begun(w.os, approval)] + [theirs];
    WriteOpens(read, n, approval, w.os, once, w.pending, [theirs]);
    assert once.pending == w.pending + Opened(w.os, approval) + [theirs] + [];
    WriteOpens(once, n + 1, other, w.os, after, w.pending + Opened(w.os, approval), []);
    assert after.pending == w.pending + Opened(w.os, approval) + Opened(w.os, other);
  }

  lemma OtherWrittenFirst(w: World, organisation: string, approval: Decision, other: Decision, read: World, after: World)
    requires BothAllowed(w.os, organisation, approval, other)
    requires read.os == w.os && read.pending == w.pending + [Begun(w.os, approval), Begun(w.os, other)]
    requires after == Next(Next(read, WriteDecision(|w.pending| + 1)), WriteDecision(|w.pending|))
    ensures Both(w, approval, other, Approved, after)
  {
    var n, mine := |w.pending|, Begun(w.os, approval);
    var once := Next(read, WriteDecision(n + 1));
    assert read.pending == w.pending + [mine] + [Begun(w.os, other)] + [];
    WriteOpens(read, n + 1, other, w.os, once, w.pending + [mine], []);
    assert once.pending == w.pending + [mine] + Opened(w.os, other);
    WriteOpens(once, n, approval, w.os, after, w.pending, Opened(w.os, other));
  }

  /** After both writes the status is the later one, and every approval has a call that will run the list. */
  lemma BothWritten(w: World, organisation: string, approval: Decision, other: Decision, first: bool, after: World)
    requires BothAllowed(w.os, organisation, approval, other)
    requires after == RunAll(w, Overlap(organisation, approval, other, |w.pending|, first))
    ensures Both(w, approval, other, if first && !other.approved then Rejected else Approved, after)
  {
    RunOverlap(w, organisation, approval, other, first);
    var read := Next(Next(w, BeginDecide(organisation, approval)), BeginDecide(organisation, other));
    BothRead(w, organisation, approval, other, read);
    if first {
      ApprovalWrittenFirst(w, organisation, approval, other, read, after);
    } else {
      OtherWrittenFirst(w, organisation, approval, other, read, after);
    }
  }

  /** The first action of a call that has just written its approval. */
  lemma FirstAttempt(w: World, c: nat, request: nat)
    requires c < |w.pending| && IsWaiting(w.pending[c], request) && w.pending[c].actions != []
    ensures Starts(Next(w, RunAction(c)).os.executed, request) == Starts(w.os.executed, request) + 1
    ensures Next(w, RunAction(c)).os.requests == w.os.requests
    ensures forall d :: 0 <= d < c ==> d < |Next(w, RunAction(c)).pending| && Next(w, RunAction(c)).pending[d] == w.pending[d]
  {
    var call := w.pending[c];
    AttemptsAppend(w.os.executed, Executed(call.actions[0], FromRequest(request, 0)), request, 0);
  }

  /** The steps in which the lists of an overlap begin, the later call's first. */
  function Beginnings(n: nat, both: bool): seq<Step> {
    (if both then [RunAction(n + 1)] else []) + [RunAction(n)]
  }

  lemma ListsBegin(w: World, organisation: string, approval: Decision, other: Decision, first: bool, written: World)
    requires BothAllowed(w.os, organisation, approval, other)
    requires written == RunAll(w, Overlap(organisation, approval, other, |w.pending|, first))
    ensures
      var os := RunAll(written, Beginnings(|w.pending|, other.approved)).os;
      && os.requests == written.os.requests
      && Starts(os.executed, approval.id) == Starts(w.os.executed, approval.id) + if other.approved then 2 else 1
  {
    var n := |w.pending|;
    BothWritten(w, organisation, approval, other, first, written);
    assert written.pending[n] == Opened(w.os, approval)[0];
    if other.approved {
      assert written.pending[n + 1] == Opened(w.os, other)[0];
      FirstAttempt(written, n + 1, approval.id);
      var once := Next(written, RunAction(n + 1));
      FirstAttempt(once, n, approval.id);
      RunFirst(written, RunAction(n + 1), [RunAction(n)]);
      assert [RunAction(n)] == [RunAction(n)] + [];
      RunFirst(once, RunAction(n), []);
    } else {
      FirstAttempt(written, n, approval.id);
      assert Beginnings(n, false) == [RunAction(n)] + [];
      RunFirst(written, RunAction(n), []);
    }
  }

  /**
   * Two overlapping decisions of a request with a list, the first an approval, and then the lists
   * of those that approved begin. It ends with the list started once for an approved request if
   * and only if the list had not been started before, the other decision is a rejection, and the
   * rejection was written first; which is then lost without a trace.
   */
  lemma OverlappingDecisions(w: World, organisation: string, approval: Decision, other: Decision, first: bool)
    requires BothAllowed(w.os, organisation, approval, other)
    ensures
      var n, id := |w.pending|, approval.id;
      var os := RunAll(w, Overlap(organisation, approval, other, n, first) + Beginnings(n, other.approved)).os;
      && (RanOnceApproved(os, id) <==> Starts(w.os.executed, id) == 0 && !other.approved && !first)
      && (RanOnceApproved(os, id) ==> Starts(os.executed, id) == 1 && os.requests[id].status == Approved)
  {
    var n := |w.pending|;
    var overlap := Overlap(organisation, approval, other, n, first);
    var written := RunAll(w, overlap);
    BothWritten(w, organisation, approval, other, first, written);
    ListsBegin(w, organisation, approval, other, first, written);
    RunConcat(w, overlap, Beginnings(n, other.approved));
  }
}
