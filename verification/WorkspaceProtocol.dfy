/**
 * Any number of tabs, one user row and the messages between them. Every interleaving of row
 * writes, organisation fetches, freezes, reloads, announcements, gate evaluations and mutations
 * is a list of steps; a step that is not possible in a world leaves it unchanged, so facts about
 * Run hold for all lists.
 */
module WorkspaceProtocol {
  import opened Wrappers
  import opened Texts
  import opened MutationGuard
  import opened WorkspaceClient

  /** An organisations response on its way to a document; `readAt` is the row it read. */
  datatype Response = Response(organisationId: string, revision: string, readAt: nat)

  /**
   * A document: `snapshotAt` is the row its frozen snapshot was read from and `frozeAt` the row
   * that was current when it froze; `liveAt` is the row its live revision was read from. The
   * responses may have travelled in between.
   */
  datatype Page = Page(tab: Tab, inFlight: set<Response>, live: string, liveAt: nat, snapshotAt: nat, frozeAt: nat)

  /** The headers of a mutation, captured when its page read the frozen context. */
  datatype Request = Request(organisation: string, revision: string, snapshotAt: nat, frozeAt: nat)

  /** A switch written at row `switchedAt`, read back at row `readBackAt` and then broadcast. */
  datatype Announcement = Announcement(event: Event, switchedAt: nat, readBackAt: nat)

  /** `history` holds every version of the user row, oldest first. */
  datatype World = World(
    history: seq<Row>,
    pages: map<nat, Page>,
    stored: Option<Event>,
    announced: seq<Announcement>,
    requests: set<Request>)

  datatype Step =
    | WriteRow(row: Row)
    | OpenTab(id: nat, leftover: Tab, documentLoadId: string)
    | Fetch(id: nat, sessionOrganisation: string)
    | Deliver(id: nat, response: Response)
    | Reload(id: nat, documentLoadId: string)
    | ReloadThisTab(id: nat)
    | Announce(announcement: Announcement)
    | Evaluate(id: nat, event: Event, currentOrganisation: string)
    | Send(id: nat, fallback: string)

  predicate Clean(s: string) {
    Trim(s) == s
  }

  predicate CleanRow(row: Row) {
    row.revision != "" && Clean(row.revision) && Clean(row.activeOrganisationId)
  }

  function Current(w: World): Row
    requires w.history != []
  {
    w.history[|w.history| - 1]
  }

  /** A document load id never met in the session storage the document inherits. */
  predicate FreshLoad(tab: Tab, documentLoadId: string) {
    documentLoadId != "" && (tab.context.Some? ==> tab.context.value.documentLoadId != documentLoadId)
  }

  predicate Announced(history: seq<Row>, a: Announcement) {
    && a.switchedAt <= a.readBackAt < |history|
    && a.event.organisationId != ""
    && a.event.organisationId == history[a.switchedAt].activeOrganisationId
    && a.event.organisationId == history[a.readBackAt].activeOrganisationId
    && a.event.workspaceRevision == history[a.readBackAt].revision
  }

  function DeliverTo(page: Page, response: Response, stored: Option<Event>, now: nat): Page {
    var first := !page.tab.frozen;
    Page(Freeze(page.tab, response.organisationId, response.revision, stored),
         page.inFlight - {response},
         response.revision,
         response.readAt,
         if first then response.readAt else page.snapshotAt,
         if first then now else page.frozeAt)
  }

  function Next(w: World, step: Step): World
    requires w.history != []
    ensures Next(w, step).history != []
  {
    match step
    case WriteRow(row) =>
      if CleanRow(row) && Less(Current(w).revision, row.revision) then w.(history := w.history + [row]) else w
    case OpenTab(id, leftover, load) =>
      if id !in w.pages && FreshLoad(leftover, load)
      then w.(pages := w.pages[id := Page(NewDocument(leftover, load), {}, "", 0, 0, 0)]) else w
    case Fetch(id, session) =>
      if id in w.pages && Clean(session) then
        var response := Response(AuthoritativeOrganisation(Some(Current(w)), session),
                                 Current(w).revision, |w.history| - 1);
        w.(pages := w.pages[id := w.pages[id].(inFlight := w.pages[id].inFlight + {response})])
      else w
    case Deliver(id, response) =>
      if id in w.pages && response in w.pages[id].inFlight
      then w.(pages := w.pages[id := DeliverTo(w.pages[id], response, w.stored, |w.history| - 1)]) else w
    case Reload(id, load) =>
      if id in w.pages && FreshLoad(w.pages[id].tab, load)
      then w.(pages := w.pages[id := Page(NewDocument(w.pages[id].tab, load), {}, "", 0, 0, 0)]) else w
    case ReloadThisTab(id) =>
      if id in w.pages
      then w.(pages := w.pages[id := w.pages[id].(tab := PrepareReload(w.pages[id].tab))]) else w
    case Announce(a) =>
      if Announced(w.history, a) then w.(stored := Some(a.event), announced := w.announced + [a]) else w
    case Evaluate(id, event, organisation) =>
      if id in w.pages then
        var page := w.pages[id];
        w.(pages := w.pages[id := page.(tab := EvaluateGate(page.tab, organisation, page.live, Some(event)).0)])
      else w
    case Send(id, fallback) =>
      if id in w.pages && Clean(fallback) then
        var page := w.pages[id];
        var context := ImmutableContext(page.tab, fallback);
        w.(requests := w.requests + {Request(context.loadedOrganisationId, context.workspaceRevision,
                                             page.snapshotAt, page.frozeAt)})
      else w
  }

  function Run(w: World, steps: seq<Step>): World
    requires w.history != []
    ensures Run(w, steps).history != []
    decreases |steps|
  {
    if steps == [] then w else Run(Next(w, steps[0]), steps[1..])
  }

  /** Revisions strictly rise along the history: every write to the row raises its revision. */
  ghost predicate Rising(history: seq<Row>) {
    && history != []
    && (forall i :: 0 <= i < |history| ==> CleanRow(history[i]))
    && (forall i, j :: 0 <= i < j < |history| ==> Less(history[i].revision, history[j].revision))
  }

  ghost predicate Initial(w: World) {
    Rising(w.history) && w.pages == map[] && w.stored == None && w.announced == [] && w.requests == {}
  }

  /** A pair read from row `at`. */
  ghost predicate ReadFrom(history: seq<Row>, organisation: string, revision: string, at: nat) {
    && at < |history|
    && revision == history[at].revision
    && Clean(organisation)
    && (history[at].activeOrganisationId != "" ==> organisation == history[at].activeOrganisationId)
  }

  ghost predicate PageInvariant(history: seq<Row>, page: Page) {
    && page.tab.documentLoadId != ""
    && page.tab.ready == page.tab.frozen
    && (forall r :: r in page.inFlight ==> ReadFrom(history, r.organisationId, r.revision, r.readAt))
    && (page.live != "" ==> page.liveAt < |history| && page.live == history[page.liveAt].revision)
    && (if page.tab.frozen then
          && page.live != ""
          && page.tab.context.Some?
          && page.tab.context.value.documentLoadId == page.tab.documentLoadId
          && page.snapshotAt <= page.frozeAt < |history|
          && ReadFrom(history, page.tab.context.value.loadedOrganisationId,
                      page.tab.context.value.workspaceRevision, page.snapshotAt)
        else
          page.tab.context.Some? ==> page.tab.context.value.documentLoadId != page.tab.documentLoadId)
  }

  ghost predicate RequestInvariant(history: seq<Row>, r: Request) {
    r.revision != "" ==>
      r.snapshotAt <= r.frozeAt < |history| && ReadFrom(history, r.organisation, r.revision, r.snapshotAt)
  }

  ghost predicate Invariant(w: World) {
    && Rising(w.history)
    && (forall id :: id in w.pages ==> PageInvariant(w.history, w.pages[id]))
    && (forall r :: r in w.requests ==> RequestInvariant(w.history, r))
    && (forall k :: 0 <= k < |w.announced| ==> Announced(w.history, w.announced[k]))
  }

  lemma WriteKeepsInvariant(w: World, row: Row)
    requires Invariant(w) && CleanRow(row) && Less(Current(w).revision, row.revision)
    ensures Invariant(w.(history := w.history + [row]))
  {
    var longer := w.history + [row];
    forall i, j | 0 <= i < j < |longer|
      ensures Less(longer[i].revision, longer[j].revision)
    {
      if j == |w.history| && i < |w.history| - 1 {
        LessTransitive(w.history[i].revision, Current(w).revision, row.revision);
      }
    }
    forall id | id in w.pages
      ensures PageInvariant(longer, w.pages[id])
    {
      assert PageInvariant(w.history, w.pages[id]);
    }
  }

  lemma ReplacePageKeepsInvariant(w: World, id: nat, page: Page)
    requires Invariant(w) && PageInvariant(w.history, page)
    ensures Invariant(w.(pages := w.pages[id := page]))
  {
  }

  lemma FetchKeepsPage(history: seq<Row>, page: Page, session: string)
    requires Rising(history) && PageInvariant(history, page) && Clean(session)
    ensures
      var row := history[|history| - 1];
      var response := Response(AuthoritativeOrganisation(Some(row), session), row.revision, |history| - 1);
      PageInvariant(history, page.(inFlight := page.inFlight + {response}))
  {
  }

  lemma DeliverKeepsPage(history: seq<Row>, page: Page, response: Response, stored: Option<Event>)
    requires Rising(history) && PageInvariant(history, page) && response in page.inFlight
    ensures PageInvariant(history, DeliverTo(page, response, stored, |history| - 1))
  {
    assert ReadFrom(history, response.organisationId, response.revision, response.readAt);
    assert CleanRow(history[response.readAt]);
    var tab := Freeze(page.tab, response.organisationId, response.revision, stored);
    assert !page.tab.frozen ==>
        tab.context == Some(Context(response.organisationId, response.revision, page.tab.documentLoadId));
  }

  lemma EvaluateKeepsPage(history: seq<Row>, page: Page, organisation: string, event: Event)
    requires PageInvariant(history, page)
    ensures PageInvariant(history, page.(tab := EvaluateGate(page.tab, organisation, page.live, Some(event)).0))
  {
  }

  lemma SendKeepsInvariant(w: World, id: nat, fallback: string)
    requires Invariant(w) && id in w.pages
    ensures Invariant(Next(w, Send(id, fallback)))
  {
    assert PageInvariant(w.history, w.pages[id]);
  }

  lemma StepKeepsInvariant(w: World, step: Step)
    requires Invariant(w)
    ensures Invariant(Next(w, step))
  {
    var after := Next(w, step);
    if after == w {
      return;
    }
    match step
    case WriteRow(row) =>
      WriteKeepsInvariant(w, row);
    case Announce(a) =>
    case Send(id, fallback) =>
      SendKeepsInvariant(w, id, fallback);
    case _ =>
      PageStepKeepsInvariant(w, after, step);
  }

  /** Steps that replace one page. */
  lemma PageStepKeepsInvariant(w: World, after: World, step: Step)
    requires Invariant(w) && after == Next(w, step) && after != w
    requires !step.WriteRow? && !step.Announce? && !step.Send?
    ensures Invariant(after)
  {
    if step.OpenTab? || step.Reload? || step.ReloadThisTab? {
      LoadKeepsPage(w, after, step);
    } else {
      UseKeepsPage(w, after, step);
    }
    ReplacePageKeepsInvariant(w, step.id, after.pages[step.id]);
  }

  /** A page that is opened or reloaded. */
  lemma LoadKeepsPage(w: World, after: World, step: Step)
    requires Invariant(w) && after == Next(w, step) && after != w
    requires step.OpenTab? || step.Reload? || step.ReloadThisTab?
    ensures step.id in after.pages && PageInvariant(w.history, after.pages[step.id])
    ensures after == w.(pages := w.pages[step.id := after.pages[step.id]])
  {
    if step.ReloadThisTab? {
      assert PageInvariant(w.history, w.pages[step.id]);
    }
  }

  /** A page whose document lives on. */
  lemma UseKeepsPage(w: World, after: World, step: Step)
    requires Invariant(w) && after == Next(w, step) && after != w
    requires step.Fetch? || step.Deliver? || step.Evaluate?
    ensures step.id in after.pages && PageInvariant(w.history, after.pages[step.id])
    ensures after == w.(pages := w.pages[step.id := after.pages[step.id]])
  {
    match step
    case Fetch(id, session) => FetchKeepsPage(w.history, w.pages[id], session);
    case Deliver(id, response) => DeliverKeepsPage(w.history, w.pages[id], response, w.stored);
    case Evaluate(id, event, organisation) => EvaluateKeepsPage(w.history, w.pages[id], organisation, event);
  }

  lemma {:induction false} RunKeepsInvariant(w: World, steps: seq<Step>)
    requires Invariant(w)
    ensures Invariant(Run(w, steps))
    decreases |steps|
  {
    if steps != [] {
      StepKeepsInvariant(w, steps[0]);
      RunKeepsInvariant(Next(w, steps[0]), steps[1..]);
    }
  }

  lemma RevisionsOrderHistory(history: seq<Row>, i: nat, j: nat)
    requires Rising(history) && i < |history| && j < |history|
    ensures Less(history[i].revision, history[j].revision) <==> i < j
    ensures history[i].revision == history[j].revision <==> i == j
  {
    LessIrreflexive(history[i].revision);
    if j < i && Less(history[i].revision, history[j].revision) {
      LessTransitive(history[i].revision, history[j].revision, history[i].revision);
    }
  }

  lemma SentRequestIsSound(initial: World, steps: seq<Step>, request: Request)
    requires Initial(initial) && request in Run(initial, steps).requests
    ensures Rising(Run(initial, steps).history) && RequestInvariant(Run(initial, steps).history, request)
  {
    RunKeepsInvariant(initial, steps);
  }

  /** The guard accepts the request. */
  predicate Accepts(history: seq<Row>, request: Request, session: string)
    requires history != []
  {
    Guard(Some(history[|history| - 1]), session, ReadExpected(request.organisation, ""),
          ReadExpected(request.revision, "")) == Pass
  }

  /** The newest row is the one the request's snapshot was read from, and names its organisation. */
  predicate IsCurrent(history: seq<Row>, request: Request, session: string)
    requires history != []
  {
    && request.snapshotAt == |history| - 1
    && AuthoritativeOrganisation(Some(history[|history| - 1]), session) == request.organisation
  }

  lemma AcceptedPairIsCurrent(history: seq<Row>, request: Request, session: string)
    requires Rising(history) && RequestInvariant(history, request)
    requires request.organisation != "" && request.revision != ""
    ensures request.snapshotAt <= request.frozeAt < |history|
    ensures Accepts(history, request, session) <==> IsCurrent(history, request, session)
    ensures history[request.snapshotAt].activeOrganisationId != "" ==>
              (Accepts(history, request, session) <==> request.snapshotAt == |history| - 1)
  {
    RevisionsOrderHistory(history, request.snapshotAt, |history| - 1);
  }

  /**
   * The safety theorem, in every run with any number of tabs. A mutation that carries both
   * headers of a frozen snapshot is accepted if and only if the user row was not written since
   * that snapshot was read (and, for a row without an active organisation, the session still
   * names the organisation the tab loaded). The tab froze no earlier than the snapshot was read,
   * so no switch happened since it froze.
   */
  lemma AcceptedMutationIsCurrent(initial: World, steps: seq<Step>, request: Request, session: string)
    requires Initial(initial)
    requires request in Run(initial, steps).requests
    requires request.organisation != "" && request.revision != ""
    ensures
      var history := Run(initial, steps).history;
      && request.snapshotAt <= request.frozeAt < |history|
      && (Accepts(history, request, session) <==> IsCurrent(history, request, session))
      && (history[request.snapshotAt].activeOrganisationId != "" ==>
            (Accepts(history, request, session) <==> request.snapshotAt == |history| - 1))
  {
    SentRequestIsSound(initial, steps, request);
    AcceptedPairIsCurrent(Run(initial, steps).history, request, session);
  }

  /** `step` neither reloads nor re-initialises tab `id`. */
  predicate KeepsDocument(step: Step, id: nat) {
    !(step.Reload? && step.id == id) && !(step.ReloadThisTab? && step.id == id)
  }

  /** Both are frozen, in the same document, with the same snapshot taken at the same moment. */
  ghost predicate SameSnapshot(page: Page, later: Page) {
    && page.tab.frozen && later.tab.frozen
    && later.tab.context == page.tab.context
    && later.tab.documentLoadId == page.tab.documentLoadId
    && later.snapshotAt == page.snapshotAt
    && later.frozeAt == page.frozeAt
  }

  lemma StepKeepsSnapshot(w: World, step: Step, id: nat)
    requires w.history != [] && id in w.pages && w.pages[id].tab.frozen && KeepsDocument(step, id)
    ensures id in Next(w, step).pages && SameSnapshot(w.pages[id], Next(w, step).pages[id])
  {
  }

  /**
   * Freeze once: as long as the document lives, its snapshot and the moment it froze never
   * change, however many later fetches, switches and gate evaluations happen.
   */
  lemma {:induction false} SnapshotIsFrozenOnce(w: World, steps: seq<Step>, id: nat)
    requires w.history != [] && id in w.pages && w.pages[id].tab.frozen
    requires forall k :: 0 <= k < |steps| ==> KeepsDocument(steps[k], id)
    ensures id in Run(w, steps).pages && SameSnapshot(w.pages[id], Run(w, steps).pages[id])
    decreases |steps|
  {
    if steps != [] {
      StepKeepsSnapshot(w, steps[0], id);
      SnapshotIsFrozenOnce(Next(w, steps[0]), steps[1..], id);
    }
  }

  /**
   * A document that has not frozen sends no revision header, and as organisation header only the
   * page's own fallback, whatever earlier documents left behind.
   */
  lemma UnfrozenDocumentSendsNoRevision(initial: World, steps: seq<Step>, id: nat, fallback: string)
    requires Initial(initial)
    requires id in Run(initial, steps).pages && !Run(initial, steps).pages[id].tab.frozen
    ensures ImmutableContext(Run(initial, steps).pages[id].tab, fallback) == Context(fallback, "", "")
  {
    RunKeepsInvariant(initial, steps);
    assert PageInvariant(Run(initial, steps).history, Run(initial, steps).pages[id]);
  }

  /**
   * The gate on the frozen revision alone, for an announcement the tab has not acknowledged: it
   * is clear if and only if the tab froze into the destination from a row at or after the one
   * the announcement read back; in particular at or after the switch it announces.
   */
  lemma ClearGateMeansFrozenAfterSwitch(initial: World, steps: seq<Step>, id: nat, k: nat)
    requires Initial(initial)
    requires id in Run(initial, steps).pages && Run(initial, steps).pages[id].tab.frozen
    requires k < |Run(initial, steps).announced|
    requires Run(initial, steps).pages[id].tab.acknowledged != ChangeId(Run(initial, steps).announced[k].event)
    requires ImmutableContext(Run(initial, steps).pages[id].tab, "").loadedOrganisationId != ""
    ensures
      var w := Run(initial, steps);
      var page, a := w.pages[id], w.announced[k];
      var context := ImmutableContext(page.tab, "");
      var clear := !ShouldBlock(page.tab.acknowledged, context.loadedOrganisationId,
                                context.workspaceRevision, "", Some(a.event));
      && (clear <==> context.loadedOrganisationId == a.event.organisationId && a.readBackAt <= page.snapshotAt)
      && (clear ==> a.switchedAt <= page.snapshotAt <= page.frozeAt)
  {
    var w := Run(initial, steps);
    RunKeepsInvariant(initial, steps);
    assert PageInvariant(w.history, w.pages[id]);
    assert Announced(w.history, w.announced[k]);
    RevisionsOrderHistory(w.history, w.pages[id].snapshotAt, w.announced[k].readBackAt);
  }

  /**
   * The gate as it is, with the live revision: for an announcement the tab has not acknowledged it
   * is clear if and only if the tab froze into the destination and the later of the two rows it
   * read its frozen and its live revision from is at or after the one the announcement read back.
   */
  lemma ClearGateMeansSeenAfterSwitch(initial: World, steps: seq<Step>, id: nat, k: nat, current: string)
    requires Initial(initial)
    requires id in Run(initial, steps).pages && Run(initial, steps).pages[id].tab.frozen
    requires k < |Run(initial, steps).announced|
    requires Run(initial, steps).pages[id].tab.acknowledged != ChangeId(Run(initial, steps).announced[k].event)
    ensures
      var w := Run(initial, steps);
      var page, a := w.pages[id], w.announced[k];
      page.tab.context.Some? &&
      var mine := if page.tab.context.value.loadedOrganisationId != "" then page.tab.context.value.loadedOrganisationId
                  else current;
      mine != "" ==>
        (EvaluateGate(page.tab, current, page.live, Some(a.event)).1 == None <==>
          mine == a.event.organisationId && (a.readBackAt <= page.snapshotAt || a.readBackAt <= page.liveAt))
  {
    var w := Run(initial, steps);
    RunKeepsInvariant(initial, steps);
    var page, a := w.pages[id], w.announced[k];
    assert PageInvariant(w.history, page) && Announced(w.history, a);
    assert CleanRow(w.history[page.snapshotAt]) && CleanRow(w.history[page.liveAt]) && CleanRow(w.history[a.readBackAt]);
    GateBlocksExactlyWhenBehind(page.tab, current, page.live, a.event);
    RevisionsOrderHistory(w.history, page.snapshotAt, a.readBackAt);
    RevisionsOrderHistory(w.history, page.liveAt, a.readBackAt);
  }

  /** The gate of tab `id`. */
  predicate ClearFor(w: World, id: nat, organisation: string, event: Event) {
    id in w.pages && GateClear(w.pages[id].tab, organisation, w.pages[id].live, event)
  }

  /** An organisation, known before anything is frozen, that is not the event's destination. */
  predicate IsElsewhere(organisation: string, event: Event) {
    organisation != "" && event.organisationId != "" && organisation != event.organisationId
  }

  /** The response freezes a tab, or only brings it a live revision, that leaves it behind the event. */
  predicate ResponseBlocks(tab: Tab, organisation: string, response: Response, event: Event) {
    if tab.frozen then WouldBlock(tab, organisation, response.revision, event)
    else
      && !(tab.recovering && response.organisationId == event.organisationId)
      && ShouldBlock("", response.organisationId, response.revision, "", Some(event))
  }

  /**
   * The steps that block a gate that is clear for the stored event: another event takes the
   * tab's one acknowledgement, "Reload this tab" drops it, or a tab without it loads a document
   * or receives a response that is behind.
   */
  predicate Rearms(w: World, step: Step, id: nat, organisation: string, event: Event)
    requires id in w.pages
  {
    var tab, live := w.pages[id].tab, w.pages[id].live;
    match step
    case Evaluate(i, shown, current) =>
      && i == id && ChangeId(shown) != ChangeId(event)
      && Consumes(tab, current, live, shown) && WouldBlock(tab, organisation, live, event)
    case ReloadThisTab(i) => i == id && IsElsewhere(organisation, event)
    case Reload(i, load) =>
      i == id && FreshLoad(tab, load) && tab.acknowledged != ChangeId(event) && IsElsewhere(organisation, event)
    case Deliver(i, response) =>
      && i == id && response in w.pages[id].inFlight && tab.acknowledged != ChangeId(event)
      && ResponseBlocks(tab, organisation, response, event)
    case _ => false
  }

  lemma EvaluateRearms(tab: Tab, live: string, shown: Event, current: string, organisation: string, event: Event)
    requires GateClear(tab, organisation, live, event)
    ensures !GateClear(EvaluateGate(tab, current, live, Some(shown)).0, organisation, live, event) <==>
              && ChangeId(shown) != ChangeId(event)
              && Consumes(tab, current, live, shown) && WouldBlock(tab, organisation, live, event)
  {
    EvaluateAcknowledges(tab, current, live, shown);
    ClearMeansAcknowledgedOrHarmless(tab, organisation, live, event);
    ClearMeansAcknowledgedOrHarmless(EvaluateGate(tab, current, live, Some(shown)).0, organisation, live, event);
  }

  lemma UnfrozenBlocksElsewhere(tab: Tab, organisation: string, live: string, event: Event)
    requires !tab.ready && (tab.context.Some? ==> tab.context.value.documentLoadId != tab.documentLoadId)
    ensures WouldBlock(tab, organisation, live, event) <==> IsElsewhere(organisation, event)
  {
    ChangeIdIsNotEmpty(event);
  }

  lemma ReloadThisTabRearms(tab: Tab, live: string, organisation: string, event: Event)
    ensures GateClear(PrepareReload(tab), organisation, live, event) <==> !IsElsewhere(organisation, event)
  {
    ClearMeansAcknowledgedOrHarmless(PrepareReload(tab), organisation, live, event);
    UnfrozenBlocksElsewhere(PrepareReload(tab), organisation, live, event);
    ChangeIdIsNotEmpty(event);
  }

  lemma ReloadRearms(tab: Tab, load: string, organisation: string, event: Event)
    requires FreshLoad(tab, load)
    ensures GateClear(NewDocument(tab, load), organisation, "", event) <==>
              tab.acknowledged == ChangeId(event) || !IsElsewhere(organisation, event)
  {
    ClearMeansAcknowledgedOrHarmless(NewDocument(tab, load), organisation, "", event);
    UnfrozenBlocksElsewhere(NewDocument(tab, load), organisation, "", event);
  }

  lemma DeliverRearms(history: seq<Row>, page: Page, response: Response, organisation: string, event: Event, now: nat)
    requires PageInvariant(history, page)
    ensures var after := DeliverTo(page, response, Some(event), now);
            GateClear(after.tab, organisation, after.live, event) <==>
              page.tab.acknowledged == ChangeId(event) || !ResponseBlocks(page.tab, organisation, response, event)
  {
    var after := DeliverTo(page, response, Some(event), now);
    ClearMeansAcknowledgedOrHarmless(after.tab, organisation, after.live, event);
    ChangeIdIsNotEmpty(event);
    if !page.tab.frozen {
      assert ImmutableContext(after.tab, organisation).workspaceRevision == response.revision;
      assert NewerRevision(response.revision, response.revision) == NewerRevision(response.revision, "");
    }
  }

  /** Exactly the rearming steps turn a clear gate into a blocked one. */
  lemma ClearGateStep(w: World, step: Step, id: nat, organisation: string, event: Event)
    requires Invariant(w) && w.stored == Some(event) && ClearFor(w, id, organisation, event)
    ensures ClearFor(Next(w, step), id, organisation, event) <==> !Rearms(w, step, id, organisation, event)
  {
    var page := w.pages[id];
    match step
    case Evaluate(i, shown, current) =>
      if i == id {
        EvaluateRearms(page.tab, page.live, shown, current, organisation, event);
      }
    case ReloadThisTab(i) =>
      if i == id {
        ReloadThisTabRearms(page.tab, page.live, organisation, event);
      }
    case Reload(i, load) =>
      if i == id && FreshLoad(page.tab, load) {
        ReloadRearms(page.tab, load, organisation, event);
      }
    case Deliver(i, response) =>
      if i == id && response in page.inFlight {
        DeliverRearms(w.history, page, response, organisation, event, |w.history| - 1);
      }
    case _ =>
  }

  ghost predicate ClearThroughout(w: World, steps: seq<Step>, id: nat, organisation: string, event: Event)
    requires w.history != []
    decreases |steps|
  {
    && ClearFor(w, id, organisation, event)
    && (steps == [] || ClearThroughout(Next(w, steps[0]), steps[1..], id, organisation, event))
  }

  predicate NoRearming(w: World, steps: seq<Step>, id: nat, organisation: string, event: Event)
    requires w.history != []
    decreases |steps|
  {
    steps == [] ||
    (id in w.pages && !Rearms(w, steps[0], id, organisation, event) &&
     NoRearming(Next(w, steps[0]), steps[1..], id, organisation, event))
  }

  predicate NoAnnouncement(steps: seq<Step>) {
    steps == [] || (!steps[0].Announce? && NoAnnouncement(steps[1..]))
  }

  /**
   * While an event stays the stored one, a tab's gate is clear for it all through a run if and
   * only if it is clear at the start and no step rearms it.
   */
  lemma {:induction false} GateStaysClear(w: World, steps: seq<Step>, id: nat, organisation: string, event: Event)
    requires Invariant(w) && w.stored == Some(event) && NoAnnouncement(steps) && id in w.pages
    ensures ClearThroughout(w, steps, id, organisation, event) <==>
              ClearFor(w, id, organisation, event) && NoRearming(w, steps, id, organisation, event)
    decreases |steps|
  {
    if steps != [] && ClearFor(w, id, organisation, event) {
      ClearGateStep(w, steps[0], id, organisation, event);
      if !Rearms(w, steps[0], id, organisation, event) {
        StepKeepsInvariant(w, steps[0]);
        GateStaysClear(Next(w, steps[0]), steps[1..], id, organisation, event);
      }
    }
  }

  /** Until it freezes again, a tab that pressed "Reload this tab" keeps its recovery flag. */
  lemma {:induction false} RecoveryFlagWaits(w: World, steps: seq<Step>, id: nat)
    requires w.history != [] && id in w.pages
    requires w.pages[id].tab.recovering && !w.pages[id].tab.frozen
    requires forall k :: 0 <= k < |steps| ==> !(steps[k].Deliver? && steps[k].id == id)
    ensures id in Run(w, steps).pages
    ensures Run(w, steps).pages[id].tab.recovering && !Run(w, steps).pages[id].tab.frozen
    decreases |steps|
  {
    if steps != [] {
      var middle := Next(w, steps[0]);
      assert !(steps[0].Deliver? && steps[0].id == id);
      assert id in middle.pages && middle.pages[id].tab.recovering && !middle.pages[id].tab.frozen;
      RecoveryFlagWaits(middle, steps[1..], id);
    }
  }

  /**
   * Reload recovery, end to end, from any reachable world. A tab presses "Reload this tab"; then
   * anything happens anywhere until the first organisations response reaches it; if that response
   * names the destination of the stored event, the gate is clear for the event, and it is clear
   * all through any later run that leaves the event stored if and only if no step rearms it.
   */
  lemma ReloadThisTabRecovers(w: World, between: seq<Step>, response: Response, event: Event,
                              later: seq<Step>, id: nat, organisation: string)
    requires Invariant(w) && id in w.pages
    requires forall k :: 0 <= k < |between| ==> !(between[k].Deliver? && between[k].id == id)
    requires var waiting := Run(Next(w, ReloadThisTab(id)), between);
      && waiting.stored == Some(event)
      && id in waiting.pages
      && response in waiting.pages[id].inFlight
    requires response.organisationId == event.organisationId != ""
    requires NoAnnouncement(later)
    ensures
      var frozen := Next(Run(Next(w, ReloadThisTab(id)), between), Deliver(id, response));
      && ClearFor(frozen, id, organisation, event)
      && (ClearThroughout(frozen, later, id, organisation, event) <==>
            NoRearming(frozen, later, id, organisation, event))
  {
    var waiting := Run(Next(w, ReloadThisTab(id)), between);
    var frozen := Next(waiting, Deliver(id, response));
    RecoveryFlagWaits(Next(w, ReloadThisTab(id)), between, id);
    FirstResponseAcknowledges(waiting, frozen, id, response, event);
    StepKeepsInvariant(w, ReloadThisTab(id));
    RunKeepsInvariant(Next(w, ReloadThisTab(id)), between);
    StepKeepsInvariant(waiting, Deliver(id, response));
    ClearMeansAcknowledgedOrHarmless(frozen.pages[id].tab, organisation, frozen.pages[id].live, event);
    GateStaysClear(frozen, later, id, organisation, event);
  }

  lemma FirstResponseAcknowledges(waiting: World, frozen: World, id: nat, response: Response, event: Event)
    requires waiting.history != [] && id in waiting.pages && frozen == Next(waiting, Deliver(id, response))
    requires waiting.pages[id].tab.recovering && !waiting.pages[id].tab.frozen
    requires waiting.stored == Some(event) && response in waiting.pages[id].inFlight
    requires response.organisationId == event.organisationId != ""
    ensures id in frozen.pages && frozen.stored == Some(event)
    ensures frozen.pages[id].tab.acknowledged == ChangeId(event)
  {
  }

  ghost predicate Reachable(w: World) {
    exists initial: World, steps: seq<Step> :: Initial(initial) && Run(initial, steps) == w
  }

  lemma {:induction false} RunThenStep(w: World, steps: seq<Step>, step: Step)
    requires w.history != []
    ensures Run(w, steps + [step]) == Next(Run(w, steps), step)
    decreases |steps|
  {
    if steps == [] {
      assert Run(Next(w, step), []) == Next(w, step);
    } else {
      assert (steps + [step])[1..] == steps[1..] + [step];
      RunThenStep(Next(w, steps[0]), steps[1..], step);
    }
  }

  lemma StepStaysReachable(w: World, step: Step)
    requires Reachable(w) && w.history != []
    ensures Reachable(Next(w, step))
  {
    var initial: World, steps: seq<Step> :| Initial(initial) && Run(initial, steps) == w;
    RunThenStep(initial, steps, step);
  }

  const EARLY := Event("b", "2", "early", "")
  const LATE := Event("b", "4", "late", "")
  const ROWS := [Row("a", "1"), Row("b", "2"), Row("a", "3"), Row("b", "4")]

  /** Row "b" has been fetched by a recovering tab; then the user switched to "a" and back. */
  function FetchedWorld(rows: seq<Row>): World {
    World(rows, map[0 := Page(Tab("load", false, false, None, "", true), {Response("b", "2", 1)}, "", 0, 0, 0)],
          None, [], {})
  }

  lemma TwoRowsRise(first: Row, second: Row)
    requires CleanRow(first) && CleanRow(second) && Less(first.revision, second.revision)
    ensures Rising([first, second])
  {
  }

  lemma InitialRowsRise()
    ensures Initial(World(ROWS[..2], map[], None, [], {}))
  {
    assert CleanRow(Row("a", "1")) && CleanRow(Row("b", "2"));
    assert Less("1", "2");
    TwoRowsRise(Row("a", "1"), Row("b", "2"));
    assert ROWS[..2] == [Row("a", "1"), Row("b", "2")];
  }

  function OpenedWorld(): World {
    World(ROWS[..2], map[0 := Page(Tab("load", false, false, None, "", true), {}, "", 0, 0, 0)], None, [], {})
  }

  lemma OpenedWorldIsReachable()
    ensures Reachable(OpenedWorld())
  {
    var empty := World(ROWS[..2], map[], None, [], {});
    InitialRowsRise();
    assert Run(empty, []) == empty;
    StepStaysReachable(empty, OpenTab(0, Tab("", false, false, None, "", true), "load"));
  }

  lemma FetchedWorldIsReachable()
    ensures Reachable(FetchedWorld(ROWS[..2]))
  {
    OpenedWorldIsReachable();
    var w := OpenedWorld();
    assert Clean("b");
    StepStaysReachable(w, Fetch(0, "b"));
    assert Current(w) == Row("b", "2");
    assert Next(w, Fetch(0, "b")).pages[0].inFlight == {Response("b", "2", 1)};
  }

  lemma WriteStaysReachable(rows: seq<Row>, row: Row)
    requires rows != [] && Reachable(FetchedWorld(rows))
    requires CleanRow(row) && Less(rows[|rows| - 1].revision, row.revision)
    ensures Reachable(FetchedWorld(rows + [row]))
  {
    StepStaysReachable(FetchedWorld(rows), WriteRow(row));
  }

  lemma SwitchedWorldIsReachable()
    ensures Reachable(FetchedWorld(ROWS))
  {
    FetchedWorldIsReachable();
    LaterRowsAreClean();
    WriteStaysReachable(ROWS[..2], ROWS[2]);
    assert ROWS[..2] + [ROWS[2]] == ROWS[..3];
    WriteStaysReachable(ROWS[..3], ROWS[3]);
    assert ROWS[..3] + [ROWS[3]] == ROWS;
  }

  lemma LaterRowsAreClean()
    ensures CleanRow(ROWS[2]) && CleanRow(ROWS[3])
    ensures Less(ROWS[1].revision, ROWS[2].revision) && Less(ROWS[2].revision, ROWS[3].revision)
  {
    assert Less("2", "3") && Less("3", "4");
  }

  /** Both switches to "b" are announced and the tab recovers with the older response. */
  function RecoveredWorld(): World {
    World(ROWS,
          map[0 := Page(Tab("load", true, true, Some(Context("b", "2", "load")), "late", false), {}, "2", 1, 1, 3)],
          Some(LATE), [Announcement(EARLY, 1, 1), Announcement(LATE, 3, 3)], {})
  }

  function AnnouncedWorld(announced: seq<Announcement>): World
    requires announced != []
  {
    FetchedWorld(ROWS).(stored := Some(announced[|announced| - 1].event), announced := announced)
  }

  lemma AnnouncedWorldIsReachable()
    ensures Reachable(AnnouncedWorld(RecoveredWorld().announced))
  {
    SwitchedWorldIsReachable();
    var early, late := Announcement(EARLY, 1, 1), Announcement(LATE, 3, 3);
    AnnounceStaysReachable(FetchedWorld(ROWS), early);
    assert [] + [early] == [early];
    AnnounceStaysReachable(AnnouncedWorld([early]), late);
    assert [early] + [late] == [early, late];
  }

  lemma AnnounceStaysReachable(w: World, a: Announcement)
    requires w.history != [] && Reachable(w) && Announced(w.history, a)
    ensures Reachable(w.(stored := Some(a.event), announced := w.announced + [a]))
  {
    StepStaysReachable(w, Announce(a));
  }

  lemma RecoveredWorldIsReachable()
    ensures Reachable(RecoveredWorld())
  {
    AnnouncedWorldIsReachable();
    var w := AnnouncedWorld(RecoveredWorld().announced);
    StepStaysReachable(w, Deliver(0, Response("b", "2", 1)));
    assert DeliverTo(w.pages[0], Response("b", "2", 1), w.stored, 3) == RecoveredWorld().pages[0];
  }

  /**
   * Rearming happens. In a reachable world the gate is clear for the stored event by recovery; a
   * late broadcast of the earlier event replaces the single acknowledgement and the gate blocks
   * for the stored event again.
   */
  lemma LateBroadcastRearmsGate()
    ensures
      var before := RecoveredWorld();
      var after := Next(before, Evaluate(0, EARLY, "b"));
      && Reachable(before)
      && before.stored == after.stored == Some(LATE)
      && ClearFor(before, 0, "b", LATE)
      && Rearms(before, Evaluate(0, EARLY, "b"), 0, "b", LATE)
      && !ClearFor(after, 0, "b", LATE)
  {
    RecoveredWorldIsReachable();
    var page := RecoveredWorld().pages[0];
    assert Less("2", "4") && !Less("4", "2");
    assert ChangeId(LATE) == "late" && ChangeId(EARLY) == "early";
    assert WouldBlock(page.tab, "b", page.live, LATE);
    assert Consumes(page.tab, "b", page.live, EARLY);
    EvaluateRearms(page.tab, page.live, EARLY, "b", "b", LATE);
  }
}
