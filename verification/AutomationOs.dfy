/** Natural language compiled to a visible workflow. */
module WorkflowCompiler {
  import opened Wrappers
  import opened Texts

  datatype ActionKind =
    | Notify | NotifyTeam | PauseAi | Handover | CancelFollowUps | SendFollowUp | ScheduleFollowUp
    | ChangeStage | MarkQualified | MarkDisqualified | AddTag | AssignOwner | SendBookingLink | SendMessage
    | PublishContent | CreateTask | DraftReplyForReview | OtherAction(name: string)

  /** `detail` is the message or tag the action carries, `minutes` the delay of a follow-up. */
  datatype Action = Action(kind: ActionKind, detail: string, minutes: Option<int>)

  predicate IsOutbound(kind: ActionKind) {
    kind in {SendFollowUp, ScheduleFollowUp, SendBookingLink, SendMessage, PublishContent}
  }

  predicate HasOutbound(actions: seq<Action>) {
    exists i :: 0 <= i < |actions| && IsOutbound(actions[i].kind)
  }

  predicate HasDraftReply(actions: seq<Action>) {
    exists i :: 0 <= i < |actions| && actions[i].kind == DraftReplyForReview
  }

  datatype Trigger = LeadCreated | LeadQualified | ConversationInactive | BookingCreated | MessageReceived | LeadDisqualified

  datatype Conditions = Conditions(
    minScore: Option<int>, topicIncludes: bool, minutes: Option<int>, sentiment: Option<string>, requireHumanReview: bool)

  predicate HasConditions(c: Conditions) {
    c.minScore.Some? || c.topicIncludes || c.minutes.Some? || c.sentiment.Some? || c.requireHumanReview
  }

  /** What the regular expressions found in the text. */
  datatype Matches = Matches(score: Option<int>, pricing: bool, minutes: Option<int>, tag: Option<string>)

  datatype WorkflowStep =
    | TriggerStep(trigger: Trigger)
    | ConditionStep(always: bool)
    | LogicStep
    | ActionStep(index: nat, kind: ActionKind, gated: bool)
    | ApprovalStep
    | OutcomeStep
    | CapabilityNote

  datatype Workflow = Workflow(
    trigger: Trigger,
    conditions: Conditions,
    actions: seq<Action>,
    steps: seq<WorkflowStep>,
    requiresApproval: bool)

  /** The phrases the compiler looks for in the lower-cased text. */
  datatype Phrases = Phrases(
    qualified: bool, inactive: bool, booking: bool, message: bool, disqualified: bool, handover: bool, notify: bool,
    draftReply: bool, humanReview: bool, followUp: bool, bookingLink: bool, tag: bool, markQualified: bool)

  function ReadPhrases(lower: string): Phrases {
    Phrases(
      Includes(lower, "qualified") || Includes(lower, "qualification"),
      Includes(lower, "inactive") || Includes(lower, "no reply") || Includes(lower, "follow"),
      Includes(lower, "booking") || Includes(lower, "booked"),
      Includes(lower, "message") || Includes(lower, "inbound") || Includes(lower, "asks about") || Includes(lower, "dm"),
      Includes(lower, "disqualified"),
      Includes(lower, "pause ai") || Includes(lower, "handover") || Includes(lower, "hand over"),
      Includes(lower, "notify") || Includes(lower, "alert"),
      Includes(lower, "draft")
      && (Includes(lower, "reply") || Includes(lower, "response") || Includes(lower, "suggested")),
      Includes(lower, "never send") || Includes(lower, "for my review") || Includes(lower, "for review"),
      Includes(lower, "follow-up") || Includes(lower, "follow up") || Includes(lower, "nudge"),
      Includes(lower, "booking link") || Includes(lower, "send booking"),
      Includes(lower, "tag "),
      Includes(lower, "mark qualified") || Includes(lower, "as qualified"))
  }

  function ReadTrigger(p: Phrases): Trigger {
    if p.qualified then LeadQualified
    else if p.inactive then ConversationInactive
    else if p.booking then BookingCreated
    else if p.message then MessageReceived
    else if p.disqualified then LeadDisqualified
    else LeadCreated
  }

  function ReadConditions(p: Phrases, m: Matches): Conditions {
    Conditions(m.score, m.pricing, if ReadTrigger(p) == ConversationInactive then m.minutes else None, None, p.humanReview)
  }

  const ALERT := Action(NotifyTeam, "Automation alert from NL rule", None)
  const UNPARSED := Action(NotifyTeam, "Rule matched (no specific action parsed)", None)

  function FollowUp(m: Matches): Action {
    Action(SendFollowUp, "", Some(if m.minutes.Some? then m.minutes.value else 60))
  }

  function When(condition: bool, action: Action): seq<Action> {
    if condition then [action] else []
  }

  const PLACES: nat := 7

  /** What is pushed at each of the seven places. */
  function PushedAt(p: Phrases, m: Matches, place: nat): seq<Action> {
    match place
    case 0 => When(p.handover, Action(Handover, "", None))
    case 1 => When(p.notify, ALERT)
    case 2 => When(p.draftReply, Action(DraftReplyForReview, "", None))
    case 3 => When(p.followUp, FollowUp(m))
    case 4 => When(p.bookingLink, Action(SendBookingLink, "", None))
    case 5 => When(p.tag && m.tag.Some?, Action(AddTag, if m.tag.Some? then m.tag.value else "", None))
    case 6 => When(p.markQualified, Action(MarkQualified, "", None))
    case _ => []
  }

  function PushedBefore(p: Phrases, m: Matches, place: nat): seq<Action> {
    if place == 0 then [] else PushedBefore(p, m, place - 1) + PushedAt(p, m, place - 1)
  }

  function ReadActions(p: Phrases, m: Matches): seq<Action> {
    PushedBefore(p, m, PLACES)
  }

  function ActionSteps(actions: seq<Action>): seq<WorkflowStep> {
    seq(|actions|, i requires 0 <= i < |actions| => ActionStep(i, actions[i].kind, IsOutbound(actions[i].kind)))
  }

  function WorkflowSteps(trigger: Trigger, conditions: Conditions, actions: seq<Action>, requiresApproval: bool)
    : seq<WorkflowStep>
  {
    [TriggerStep(trigger), ConditionStep(!HasConditions(conditions)), LogicStep]
    + ActionSteps(actions)
    + (if requiresApproval then [ApprovalStep] else [])
    + [OutcomeStep]
  }

  method BuildWorkflowSteps(trigger: Trigger, conditions: Conditions, actions: seq<Action>, requiresApproval: bool)
    returns (steps: seq<WorkflowStep>)
    ensures steps == WorkflowSteps(trigger, conditions, actions, requiresApproval)
  {
    steps := [TriggerStep(trigger)];
    steps := steps + [ConditionStep(!HasConditions(conditions))];
    steps := steps + [LogicStep];
    for i := 0 to |actions|
      invariant steps == [TriggerStep(trigger), ConditionStep(!HasConditions(conditions)), LogicStep]
                         + ActionSteps(actions)[..i]
    {
      steps := steps + [ActionStep(i, actions[i].kind, IsOutbound(actions[i].kind))];
      assert ActionSteps(actions)[..i + 1] == ActionSteps(actions)[..i] + [ActionSteps(actions)[i]];
    }
    assert ActionSteps(actions)[..|actions|] == ActionSteps(actions);
    if requiresApproval {
      steps := steps + [ApprovalStep];
    }
    steps := steps + [OutcomeStep];
  }

  function CompilePhrases(p: Phrases, m: Matches): Workflow {
    var parsed := ReadActions(p, m);
    var actions := if parsed == [] then [UNPARSED] else parsed;
    var conditions := ReadConditions(p, m);
    var requiresApproval := HasOutbound(actions)
                            || HasDraftReply(actions)
                            || conditions.requireHumanReview;
    var steps := WorkflowSteps(ReadTrigger(p), conditions, actions, requiresApproval);
    Workflow(ReadTrigger(p), conditions, actions,
             if parsed == [] then steps + [CapabilityNote] else steps, requiresApproval)
  }

  /** `matches` is what the regular expressions found in the same text. */
  function CompileNaturalLanguage(nl: string, matches: Matches): Option<Workflow> {
    if Trim(nl) == "" then None else Some(CompilePhrases(ReadPhrases(Lower(Trim(nl))), matches))
  }

  /** One conditional push of the compiler. */
  method PushWhen(actions: seq<Action>, condition: bool, action: Action) returns (pushed: seq<Action>)
    ensures pushed == actions + When(condition, action)
  {
    pushed := actions;
    if condition {
      pushed := pushed + [action];
    }
  }

  /** The actions are pushed one after another. */
  method CompileActions(p: Phrases, m: Matches) returns (actions: seq<Action>)
    ensures actions == ReadActions(p, m)
  {
    actions := PushWhen([], p.handover, Action(Handover, "", None));
    assert actions == PushedBefore(p, m, 1);
    actions := PushWhen(actions, p.notify, ALERT);
    assert actions == PushedBefore(p, m, 2);
    actions := PushWhen(actions, p.draftReply, Action(DraftReplyForReview, "", None));
    assert actions == PushedBefore(p, m, 3);
    actions := PushWhen(actions, p.followUp, FollowUp(m));
    assert actions == PushedBefore(p, m, 4);
    actions := PushWhen(actions, p.bookingLink, Action(SendBookingLink, "", None));
    assert actions == PushedBefore(p, m, 5);
    actions := PushWhen(actions, p.tag && m.tag.Some?, Action(AddTag, if m.tag.Some? then m.tag.value else "", None));
    assert actions == PushedBefore(p, m, 6);
    actions := PushWhen(actions, p.markQualified, Action(MarkQualified, "", None));
  }

  method Compile(p: Phrases, m: Matches) returns (workflow: Workflow)
    ensures workflow == CompilePhrases(p, m)
  {
    var conditions := ReadConditions(p, m);
    var parsed := CompileActions(p, m);
    var actions := if parsed == [] then [UNPARSED] else parsed;
    var requiresApproval := HasOutbound(actions) || HasDraftReply(actions) || conditions.requireHumanReview;
    var steps := BuildWorkflowSteps(ReadTrigger(p), conditions, actions, requiresApproval);
    if parsed == [] {
      steps := steps + [CapabilityNote];
    }
    workflow := Workflow(ReadTrigger(p), conditions, actions, steps, requiresApproval);
  }

  /** The text asks for this action. */
  predicate Asked(p: Phrases, m: Matches, action: Action) {
    match action.kind
    case Handover => p.handover && action == Action(Handover, "", None)
    case NotifyTeam => p.notify && action == ALERT
    case DraftReplyForReview => p.draftReply && action == Action(DraftReplyForReview, "", None)
    case SendFollowUp => p.followUp && action == FollowUp(m)
    case SendBookingLink => p.bookingLink && action == Action(SendBookingLink, "", None)
    case AddTag => p.tag && m.tag.Some? && action == Action(AddTag, m.tag.value, None)
    case MarkQualified => p.markQualified && action == Action(MarkQualified, "", None)
    case _ => false
  }

  /** The place of an action kind in a compiled list. */
  function Place(kind: ActionKind): nat {
    match kind
    case Handover => 0
    case NotifyTeam => 1
    case DraftReplyForReview => 2
    case SendFollowUp => 3
    case SendBookingLink => 4
    case AddTag => 5
    case MarkQualified => 6
    case _ => 7
  }

  ghost predicate InPlace(actions: seq<Action>) {
    forall i, j :: 0 <= i < j < |actions| ==> Place(actions[i].kind) < Place(actions[j].kind)
  }

  lemma PushedAtIsAsked(p: Phrases, m: Matches, place: nat, a: Action)
    ensures |PushedAt(p, m, place)| <= 1
    ensures a in PushedAt(p, m, place) <==> Asked(p, m, a) && Place(a.kind) == place
  {
  }

  lemma {:induction false} PushedAreAsked(p: Phrases, m: Matches, place: nat)
    ensures InPlace(PushedBefore(p, m, place))
    ensures forall a :: a in PushedBefore(p, m, place) <==> Asked(p, m, a) && Place(a.kind) < place
  {
    if place > 0 {
      PushedAreAsked(p, m, place - 1);
      forall a
        ensures |PushedAt(p, m, place - 1)| <= 1
        ensures a in PushedAt(p, m, place - 1) <==> Asked(p, m, a) && Place(a.kind) == place - 1
      {
        PushedAtIsAsked(p, m, place - 1, a);
      }
      var earlier, last, all := PushedBefore(p, m, place - 1), PushedAt(p, m, place - 1), PushedBefore(p, m, place);
      forall i, j | 0 <= i < j < |all|
        ensures Place(all[i].kind) < Place(all[j].kind)
      {
        assert all[i] == earlier[i] && all[i] in earlier;
        assert j < |earlier| || all[j] in last;
      }
    }
  }

  /**
   * The parsed actions are exactly those the text asks for, each once, in a fixed order of their
   * kinds whatever the order of the text.
   */
  lemma ActionsAreThoseAsked(p: Phrases, m: Matches)
    ensures InPlace(ReadActions(p, m))
    ensures forall a :: a in ReadActions(p, m) <==> Asked(p, m, a)
  {
    PushedAreAsked(p, m, PLACES);
  }

  /** Text containing a phrase contains every part of the phrase. */
  lemma {:induction false} IncludesPart(text: string, whole: string, cut: nat, end: nat)
    requires cut <= end <= |whole| && Includes(text, whole)
    ensures Includes(text, whole[cut..end])
  {
    if whole <= text {
      PrefixIncludesPart(text, whole, cut, end);
    } else {
      IncludesPart(text[1..], whole, cut, end);
    }
  }

  lemma {:induction false} PrefixIncludesPart(text: string, whole: string, cut: nat, end: nat)
    requires cut <= end <= |whole| && whole <= text
    ensures Includes(text, whole[cut..end])
  {
    if cut > 0 {
      PrefixIncludesPart(text[1..], whole[1..], cut - 1, end - 1);
      assert whole[1..][cut - 1..end - 1] == whole[cut..end];
    } else {
      assert whole[..end] <= text;
    }
  }

  /**
   * "disqualified" contains "qualified", which is tested first: no text ever compiles to the
   * lead_disqualified trigger.
   */
  lemma DisqualifiedTriggerIsUnreachable(nl: string, matches: Matches)
    ensures CompileNaturalLanguage(nl, matches).Some? ==>
              CompileNaturalLanguage(nl, matches).value.trigger != LeadDisqualified
  {
    var lower := Lower(Trim(nl));
    if Includes(lower, "disqualified") {
      IncludesPart(lower, "disqualified", 3, 12);
      assert "disqualified"[3..12] == "qualified";
    }
  }

  lemma PhrasesDecideTrigger(lower: string)
    ensures
      var p := ReadPhrases(lower);
      && (p.markQualified ==> p.qualified)
      && (p.bookingLink ==> p.booking)
      && (p.followUp ==> p.inactive || Includes(lower, "nudge"))
  {
    if Includes(lower, "mark qualified") {
      IncludesPart(lower, "mark qualified", 5, 14);
      assert "mark qualified"[5..14] == "qualified";
    }
    if Includes(lower, "as qualified") {
      IncludesPart(lower, "as qualified", 3, 12);
      assert "as qualified"[3..12] == "qualified";
    }
    if Includes(lower, "booking link") {
      IncludesPart(lower, "booking link", 0, 7);
      assert "booking link"[0..7] == "booking";
    }
    if Includes(lower, "send booking") {
      IncludesPart(lower, "send booking", 5, 12);
      assert "send booking"[5..12] == "booking";
    }
    if Includes(lower, "follow-up") {
      IncludesPart(lower, "follow-up", 0, 6);
      assert "follow-up"[0..6] == "follow";
    }
    if Includes(lower, "follow up") {
      IncludesPart(lower, "follow up", 0, 6);
      assert "follow up"[0..6] == "follow";
    }
  }

  predicate TriggerFits(trigger: Trigger, kind: ActionKind, nudge: bool) {
    && (kind == MarkQualified ==> trigger == LeadQualified)
    && (kind == SendBookingLink ==> trigger in {LeadQualified, ConversationInactive, BookingCreated})
    && (kind == SendFollowUp && !nudge ==> trigger in {LeadQualified, ConversationInactive})
  }

  /**
   * The words that ask for an action also choose the trigger: a rule that marks leads qualified
   * always runs on qualified leads, one that sends a booking link or (unless it says "nudge") a
   * follow-up can never run on new leads or messages.
   */
  lemma ActionsDecideTrigger(nl: string, matches: Matches)
    requires CompileNaturalLanguage(nl, matches).Some?
    ensures
      var w, lower := CompileNaturalLanguage(nl, matches).value, Lower(Trim(nl));
      forall a :: a in w.actions ==> TriggerFits(w.trigger, a.kind, Includes(lower, "nudge"))
  {
    var p := ReadPhrases(Lower(Trim(nl)));
    PhrasesDecideTrigger(Lower(Trim(nl)));
    ActionsAreThoseAsked(p, matches);
    forall a | a in CompilePhrases(p, matches).actions
      ensures TriggerFits(ReadTrigger(p), a.kind, Includes(Lower(Trim(nl)), "nudge"))
    {
      assert a == UNPARSED || Asked(p, matches, a);
    }
  }

  /** The steps show exactly the actions, in order, marked as gated when outbound. */
  lemma StepsShowActions(trigger: Trigger, conditions: Conditions, actions: seq<Action>, requiresApproval: bool,
                         note: seq<WorkflowStep>)
    requires note in {[], [CapabilityNote]}
    ensures
      var steps := WorkflowSteps(trigger, conditions, actions, requiresApproval) + note;
      && |steps| >= |actions| + 3
      && (forall i :: 0 <= i < |actions| ==>
            steps[i + 3] == ActionStep(i, actions[i].kind, IsOutbound(actions[i].kind)))
      && (forall k :: 0 <= k < |steps| && steps[k].ActionStep? ==> 3 <= k < 3 + |actions|)
      && (ApprovalStep in steps <==> requiresApproval)
  {
    var steps := WorkflowSteps(trigger, conditions, actions, requiresApproval) + note;
    var n := |actions|;
    assert steps[3..n + 3] == ActionSteps(actions);
    assert forall i :: 0 <= i < n ==> steps[i + 3] == ActionSteps(actions)[i];
    assert forall k :: 3 <= k < n + 3 ==> steps[k] == ActionSteps(actions)[k - 3];
    if requiresApproval {
      assert steps[n + 3] == ApprovalStep;
    }
  }

  /**
   * A compiled workflow has at least one action, requires approval whenever it can reach a
   * contact, and shows exactly its actions, with a human approval step exactly when required.
   */
  lemma CompiledWorkflowIsGated(p: Phrases, m: Matches)
    ensures
      var w := CompilePhrases(p, m);
      && w.actions != []
      && (HasOutbound(w.actions) ==> w.requiresApproval)
      && |w.steps| >= |w.actions| + 3
      && (forall i :: 0 <= i < |w.actions| ==>
            w.steps[i + 3] == ActionStep(i, w.actions[i].kind, IsOutbound(w.actions[i].kind)))
      && (forall k :: 0 <= k < |w.steps| && w.steps[k].ActionStep? ==> 3 <= k < 3 + |w.actions|)
      && (ApprovalStep in w.steps <==> w.requiresApproval)
  {
    var w := CompilePhrases(p, m);
    var plain := WorkflowSteps(w.trigger, w.conditions, w.actions, w.requiresApproval);
    assert w.steps == plain + [] || w.steps == plain + [CapabilityNote];
    StepsShowActions(w.trigger, w.conditions, w.actions, w.requiresApproval, []);
    StepsShowActions(w.trigger, w.conditions, w.actions, w.requiresApproval, [CapabilityNote]);
  }
}
