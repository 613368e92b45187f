/**
 * One browser tab's view of the active workspace: the snapshot it froze at load, its
 * acknowledgement of the last switch event, and the gate that blocks a stale tab.
 * Storage is taken to be available.
 */
module WorkspaceClient {
  import opened Wrappers
  import opened Texts

  /** A switch announcement. `timestamp` only serves the fallback identity. */
  datatype Event = Event(organisationId: string, workspaceRevision: string, changeId: string, timestamp: string)

  /** The stored snapshot, tagged with the document load that froze it. */
  datatype Context = Context(loadedOrganisationId: string, workspaceRevision: string, documentLoadId: string)

  /**
   * Everything a tab remembers: three module variables that a new document resets, and three
   * session-storage keys that survive a reload ("" for a missing acknowledgement).
   */
  datatype Tab = Tab(
    documentLoadId: string,
    frozen: bool,
    ready: bool,
    context: Option<Context>,
    acknowledged: string,
    recovering: bool)

  function ChangeId(event: Event): string {
    if event.changeId != "" then event.changeId
    else event.organisationId + ":" + event.workspaceRevision + ":" + event.timestamp
  }

  /** A broadcast event always has a change id and a time. */
  function Completed(msg: Event, eventId: string, generated: string, now: string): Event {
    msg.(changeId := if msg.changeId != "" then msg.changeId else if eventId != "" then eventId else generated,
         timestamp := if msg.timestamp != "" then msg.timestamp else now)
  }

  function CompareRevisions(a: string, b: string): int {
    if a == "" && b == "" then 0
    else if a == "" then -1
    else if b == "" then 1
    else if a == b then 0
    else if Less(a, b) then -1 else 1
  }

  /** A broadcast keeps the ids it has; a missing one is the server's, else a new one, and a missing time is now. */
  lemma BroadcastFillsGaps(msg: Event, eventId: string, generated: string, now: string)
    ensures
      var sent := Completed(msg, eventId, generated, now);
      && sent == msg.(changeId := sent.changeId, timestamp := sent.timestamp)
      && (msg.changeId != "" ==> sent.changeId == msg.changeId)
      && (msg.changeId == "" && eventId != "" ==> sent.changeId == eventId)
      && (msg.changeId == "" && eventId == "" ==> sent.changeId == generated)
      && (msg.timestamp != "" ==> sent.timestamp == msg.timestamp)
      && (msg.timestamp == "" ==> sent.timestamp == now)
      && (sent.changeId != "" ==> ChangeId(sent) == sent.changeId)
  {
  }

  /** A missing revision is older than any other; two are equal exactly when they are the same. */
  lemma ComparisonOrdersRevisions(a: string, b: string)
    ensures CompareRevisions(a, b) == 0 <==> a == b
    ensures CompareRevisions(a, b) < 0 <==> b != "" && (a == "" || Less(a, b))
    ensures CompareRevisions(a, b) > 0 <==> a != "" && (b == "" || Less(b, a))
  {
    LessTotal(a, b);
    LessIrreflexive(a);
    if Less(a, b) && Less(b, a) {
      LessTransitive(a, b, a);
    }
  }

  function NewerRevision(a: string, b: string): string {
    if a == "" && b == "" then ""
    else if a == "" then b
    else if b == "" then a
    else if CompareRevisions(a, b) >= 0 then a else b
  }

  /** `live` is the optional revision of the latest organisations fetch. */
  predicate ShouldBlock(acknowledged: string, organisation: string, revision: string, live: string,
                        event: Option<Event>)
  {
    if organisation == "" || event.None? || event.value.organisationId == "" then false
    else if acknowledged == ChangeId(event.value) then false
    else if organisation != event.value.organisationId then true
    else
      var loaded := NewerRevision(revision, live);
      event.value.workspaceRevision != "" && loaded != "" &&
      CompareRevisions(loaded, event.value.workspaceRevision) < 0
  }

  function Acknowledge(tab: Tab, event: Option<Event>): Tab {
    if event.None? then tab else tab.(acknowledged := ChangeId(event.value))
  }

  /** The first call in a document freezes; every later call is ignored. */
  function Freeze(tab: Tab, organisation: string, revision: string, stored: Option<Event>): Tab {
    if tab.frozen then tab
    else
      var snapshot := tab.(frozen := true, ready := true,
                           context := Some(Context(organisation, revision, tab.documentLoadId)));
      if stored.Some? && tab.recovering && organisation != "" && organisation == stored.value.organisationId then
        Acknowledge(snapshot, stored).(recovering := false)
      else if stored.Some? && !ShouldBlock(tab.acknowledged, organisation, revision, "", stored) then
        Acknowledge(snapshot, stored)
      else snapshot
  }

  function PrepareReload(tab: Tab): Tab {
    tab.(context := None, acknowledged := "", recovering := true, frozen := false, ready := false)
  }

  /** A full document load: session storage survives, module variables do not. */
  function NewDocument(tab: Tab, documentLoadId: string): Tab {
    tab.(documentLoadId := documentLoadId, frozen := false, ready := false)
  }

  /** A snapshot of another document load is treated as stale. */
  function ImmutableContext(tab: Tab, fallback: string): Context {
    if tab.context.Some? && tab.context.value.documentLoadId != "" &&
       tab.context.value.documentLoadId == tab.documentLoadId
    then
      var stored := tab.context.value;
      stored.(loadedOrganisationId :=
                if stored.loadedOrganisationId != "" then stored.loadedOrganisationId else fallback)
    else Context(fallback, "", "")
  }

  /** The pending event, if the gate blocks; otherwise the event is acknowledged. */
  function EvaluateGate(tab: Tab, currentOrganisation: string, currentRevision: string,
                        event: Option<Event>): (Tab, Option<Event>)
  {
    var snapshot := ImmutableContext(tab, currentOrganisation);
    var organisation := if tab.ready && snapshot.loadedOrganisationId == "" then currentOrganisation
                        else snapshot.loadedOrganisationId;
    if organisation == "" then (tab, None)
    else if ShouldBlock(tab.acknowledged, organisation, snapshot.workspaceRevision,
                        if tab.ready then currentRevision else "", event)
    then (tab, event)
    else (Acknowledge(tab, event), None)
  }

  /** The gate is clear for `event` in this tab. */
  predicate GateClear(tab: Tab, organisation: string, live: string, event: Event) {
    EvaluateGate(tab, organisation, live, Some(event)).1 == None
  }

  /** What the gate says when the event has not been acknowledged. */
  predicate WouldBlock(tab: Tab, organisation: string, live: string, event: Event) {
    var snapshot := ImmutableContext(tab, organisation);
    ShouldBlock("", snapshot.loadedOrganisationId, snapshot.workspaceRevision, if tab.ready then live else "", Some(event))
  }

  /** The local-storage cell all tabs of the browser share. */
  class SharedStorage {
    var event: Option<Event>

    constructor ()
      ensures event == None
    {
      event := None;
    }
  }

  /** The module's variables and the tab's session storage, changed in place as the source does. */
  class WorkspaceTab {
    const shared: SharedStorage
    const documentLoadId: string
    var frozenForThisDocument: bool
    var workspaceContextReady: bool
    var context: Option<Context>
    var acknowledged: string
    var recovering: bool

    /** A document load, starting from whatever session storage the previous page left. */
    constructor (shared: SharedStorage, leftover: Tab, documentLoadId: string)
      ensures this.shared == shared
      ensures View() == NewDocument(leftover, documentLoadId)
    {
      this.shared := shared;
      this.documentLoadId := documentLoadId;
      frozenForThisDocument := false;
      workspaceContextReady := false;
      context := leftover.context;
      acknowledged := leftover.acknowledged;
      recovering := leftover.recovering;
    }

    function View(): Tab
      reads this
    {
      Tab(documentLoadId, frozenForThisDocument, workspaceContextReady, context, acknowledged, recovering)
    }

    method GetImmutableWorkspaceContext(fallback: string) returns (result: Context)
      ensures result == ImmutableContext(View(), fallback)
    {
      if context.Some? {
        var parsed := context.value;
        if parsed.documentLoadId == "" || parsed.documentLoadId != documentLoadId {
          return Context(fallback, "", "");
        }
        var organisation := if parsed.loadedOrganisationId != "" then parsed.loadedOrganisationId else fallback;
        return Context(organisation, parsed.workspaceRevision, parsed.documentLoadId);
      }
      return Context(fallback, "", "");
    }

    method AcknowledgeOrgChangedEvent(event: Option<Event>)
      modifies this`acknowledged
      ensures View() == Acknowledge(old(View()), event)
    {
      if event.None? {
        return;
      }
      acknowledged := ChangeId(event.value);
    }

    method PrepareWorkspaceTabReload()
      modifies this
      ensures View() == PrepareReload(old(View()))
    {
      context := None;
      acknowledged := "";
      recovering := true;
      frozenForThisDocument := false;
      workspaceContextReady := false;
    }

    method SetImmutableWorkspaceContext(organisation: string, revision: string)
      modifies this
      ensures View() == Freeze(old(View()), organisation, revision, shared.event)
    {
      if frozenForThisDocument {
        return;
      }
      frozenForThisDocument := true;
      workspaceContextReady := true;
      context := Some(Context(organisation, revision, documentLoadId));
      var last := shared.event;
      if last.Some? && recovering && organisation != "" && organisation == last.value.organisationId {
        AcknowledgeOrgChangedEvent(last);
        recovering := false;
      } else if last.Some? && !ShouldBlock(acknowledged, organisation, revision, "", last) {
        AcknowledgeOrgChangedEvent(last);
      }
    }

    /** `generated` and `now` stand for a missing change id and a missing timestamp. */
    method BroadcastOrgChanged(msg: Event, eventId: string, generated: string, now: string)
      modifies shared
      ensures shared.event == Some(Completed(msg, eventId, generated, now)) && View() == old(View())
    {
      var changeId := msg.changeId;
      if changeId == "" {
        changeId := eventId;
      }
      if changeId == "" {
        changeId := generated;
      }
      var timestamp := if msg.timestamp != "" then msg.timestamp else now;
      shared.event := Some(msg.(changeId := changeId, timestamp := timestamp));
    }

    /** evaluateGate of the gate component. */
    method Evaluate(currentOrganisation: string, currentRevision: string, event: Option<Event>)
      returns (pending: Option<Event>)
      modifies this`acknowledged
      ensures (View(), pending) == EvaluateGate(old(View()), currentOrganisation, currentRevision, event)
    {
      var snapshot := GetImmutableWorkspaceContext(currentOrganisation);
      var organisation := snapshot.loadedOrganisationId;
      if workspaceContextReady && organisation == "" {
        organisation := currentOrganisation;
      }
      if organisation == "" {
        return None;
      }
      var live := if workspaceContextReady then currentRevision else "";
      if ShouldBlock(acknowledged, organisation, snapshot.workspaceRevision, live, event) {
        return event;
      }
      AcknowledgeOrgChangedEvent(event);
      return None;
    }
  }

  /** newerWorkspaceRevision is an upper bound of its two arguments and one of them. */
  lemma NewerIsMaximum(a: string, b: string)
    ensures NewerRevision(a, b) in {a, b}
    ensures !Less(NewerRevision(a, b), a) && !Less(NewerRevision(a, b), b)
  {
    LessIrreflexive(a);
    LessIrreflexive(b);
    LessTotal(a, b);
    if Less(a, b) && Less(b, a) {
      LessTransitive(a, b, a);
    }
  }

  /**
   * What a tab that names an organisation makes of an event it has not acknowledged: it is behind
   * when it is elsewhere, or when it knows a revision, frozen or live, and all it knows are older.
   */
  predicate IsBehindEvent(organisation: string, frozen: string, live: string, event: Event) {
    organisation != "" && event.organisationId != "" &&
    (organisation != event.organisationId ||
     (event.workspaceRevision != "" && (frozen != "" || live != "") &&
      (frozen != "" ==> Less(frozen, event.workspaceRevision)) &&
      (live != "" ==> Less(live, event.workspaceRevision))))
  }

  /** The gate blocks exactly the events a tab has not acknowledged and is behind. */
  lemma BlocksExactlyWhenBehind(acknowledged: string, organisation: string, frozen: string, live: string, event: Event)
    ensures ShouldBlock(acknowledged, organisation, frozen, live, Some(event)) <==>
              acknowledged != ChangeId(event) && IsBehindEvent(organisation, frozen, live, event)
    ensures !ShouldBlock(acknowledged, organisation, frozen, live, None)
  {
    NewerIsMaximum(frozen, live);
    var newer, target := NewerRevision(frozen, live), event.workspaceRevision;
    LessIrreflexive(target);
    if frozen != "" && live != "" {
      LessTotal(frozen, live);
      if Less(frozen, live) && Less(live, target) {
        LessTransitive(frozen, live, target);
      }
      if Less(live, frozen) && Less(frozen, target) {
        LessTransitive(live, frozen, target);
      }
    }
  }

  /**
   * The gate of a frozen tab: it blocks for exactly the events the tab has not acknowledged and is
   * behind, on its frozen organisation and the later of its two revisions, and acknowledges any
   * other event as soon as the tab has an organisation.
   */
  lemma GateBlocksExactlyWhenBehind(tab: Tab, current: string, live: string, event: Event)
    requires tab.ready && tab.context.Some? && tab.documentLoadId != ""
    requires tab.context.value.documentLoadId == tab.documentLoadId
    ensures
      var c := tab.context.value;
      var mine := if c.loadedOrganisationId != "" then c.loadedOrganisationId else current;
      var (after, pending) := EvaluateGate(tab, current, live, Some(event));
      if tab.acknowledged != ChangeId(event) && IsBehindEvent(mine, c.workspaceRevision, live, event)
      then after == tab && pending == Some(event)
      else pending == None && after == if mine == "" then tab else tab.(acknowledged := ChangeId(event))
  {
    var c := tab.context.value;
    BlocksExactlyWhenBehind(tab.acknowledged, if c.loadedOrganisationId != "" then c.loadedOrganisationId else current,
                            c.workspaceRevision, live, event);
  }

  /** A document that has not frozen judges by the session's organisation alone, whatever an earlier one left. */
  lemma UnfrozenGateBlocksElsewhere(tab: Tab, current: string, live: string, event: Event)
    requires !tab.ready
    requires tab.context.Some? ==> tab.context.value.documentLoadId == "" || tab.context.value.documentLoadId != tab.documentLoadId
    ensures
      var (after, pending) := EvaluateGate(tab, current, live, Some(event));
      if tab.acknowledged != ChangeId(event) && current != "" && event.organisationId != "" && current != event.organisationId
      then after == tab && pending == Some(event)
      else pending == None && after == if current == "" then tab else tab.(acknowledged := ChangeId(event))
  {
    assert ImmutableContext(tab, current) == Context(current, "", "");
    BlocksExactlyWhenBehind(tab.acknowledged, current, "", "", event);
  }

  /**
   * Raising a known live revision never turns a clear gate into a blocked one. "Known" means
   * that the tab has a revision at all, frozen or live.
   */
  lemma RaisingLiveRevisionKeepsGateClear(acknowledged: string, organisation: string, revision: string,
                                          live: string, raised: string, event: Option<Event>)
    requires revision != "" || live != ""
    requires live == raised || Less(live, raised)
    requires !ShouldBlock(acknowledged, organisation, revision, live, event)
    ensures !ShouldBlock(acknowledged, organisation, revision, raised, event)
  {
    if event.Some? {
      var target := event.value.workspaceRevision;
      var before, after := NewerRevision(revision, live), NewerRevision(revision, raised);
      NewerIsMaximum(revision, live);
      NewerIsMaximum(revision, raised);
      assert before == after || Less(before, after) by {
        LessTotal(revision, live);
        LessTotal(revision, raised);
        if Less(live, raised) && Less(raised, revision) {
          LessTransitive(live, raised, revision);
        }
        if Less(revision, live) && Less(live, raised) {
          LessTransitive(revision, live, raised);
        }
      }
      LessTotal(before, target);
      if Less(after, target) && Less(before, after) {
        LessTransitive(before, after, target);
      }
    }
  }

  /** Without a known revision the first live revision can block: the condition is needed. */
  lemma FirstLiveRevisionCanBlock()
    ensures var event := Some(Event("b", "2", "switch", ""));
      !ShouldBlock("", "b", "", "", event) && ShouldBlock("", "b", "", "1", event)
  {
    assert Less("1", "2");
  }

  lemma ChangeIdIsNotEmpty(event: Event)
    ensures ChangeId(event) != ""
  {
  }

  lemma ClearMeansAcknowledgedOrHarmless(tab: Tab, organisation: string, live: string, event: Event)
    ensures GateClear(tab, organisation, live, event) <==>
              tab.acknowledged == ChangeId(event) || !WouldBlock(tab, organisation, live, event)
  {
    ChangeIdIsNotEmpty(event);
  }

  /** The gate acknowledges `shown`: the tab has an organisation and the event does not block. */
  predicate Consumes(tab: Tab, organisation: string, live: string, shown: Event) {
    ImmutableContext(tab, organisation).loadedOrganisationId != "" && GateClear(tab, organisation, live, shown)
  }

  lemma EvaluateAcknowledges(tab: Tab, organisation: string, live: string, shown: Event)
    ensures EvaluateGate(tab, organisation, live, Some(shown)).0
         == if Consumes(tab, organisation, live, shown) then tab.(acknowledged := ChangeId(shown)) else tab
  {
  }

  /**
   * A tab keeps one acknowledgement. After it acknowledged `event`, showing it any other event
   * leaves the gate clear for `event` if and only if the tab has no organisation, or the other
   * event has the same change id, or it blocks itself, or `event` would not block anyway.
   */
  lemma ShownEventKeepsGateClear(tab: Tab, organisation: string, live: string, event: Event, shown: Event)
    requires tab.acknowledged == ChangeId(event)
    ensures
      var after := EvaluateGate(tab, organisation, live, Some(shown)).0;
      GateClear(after, organisation, live, event) <==>
        || ImmutableContext(tab, organisation).loadedOrganisationId == ""
        || ChangeId(shown) == ChangeId(event)
        || !GateClear(tab, organisation, live, shown)
        || !WouldBlock(tab, organisation, live, event)
  {
    var after := EvaluateGate(tab, organisation, live, Some(shown)).0;
    EvaluateAcknowledges(tab, organisation, live, shown);
    ClearMeansAcknowledgedOrHarmless(after, organisation, live, event);
  }

  /**
   * "Reload this tab", then the first freeze into the event's destination: the gate is clear for
   * that event whatever revision was frozen and whatever live revision is known.
   */
  lemma ReloadRecoveryClearsGate(tab: Tab, documentLoadId: string, revision: string, stored: Event,
                                 live: string, currentOrganisation: string)
    requires stored.organisationId != "" && documentLoadId != ""
    ensures
      var recovered := Freeze(NewDocument(PrepareReload(tab), documentLoadId),
                              stored.organisationId, revision, Some(stored));
      && recovered.acknowledged == ChangeId(stored)
      && !recovered.recovering
      && EvaluateGate(recovered, currentOrganisation, live, Some(stored)) == (recovered, None)
  {
  }
}
