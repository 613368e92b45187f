# Verified models of a CRM and AI-agent server

This project models the stateful cores of the server and proves what they keep over whole runs.
Check everything with `dafny verify dfyconfig.toml`.

| files | subject |
|---|---|
| `WorkspaceServer`, `WorkspaceClient`, `WorkspaceProtocol` | one user row, any number of browser tabs, the switch announcements between them, the gate in each tab and the guard on every mutation |
| `Policy`, `ContentModel`, `ContentStore`, `ContentProtocol`, `ContentLedger`, `ContentLifecycle`, `ContentEdits` | content pieces, versions, approvals and publishing jobs, every writer of a job with its overlapping calls, one table of who writes what, and overlapping edits |
| `RateLimit`, `SpendGate`, `Login` | three numeric gates, each with the bound it really enforces and a run that attains it |
| `AutomationOs`, `Automations`, `AutomationRuns` | text compiled to a workflow, rules, which of them a trigger runs, approval requests, overlapping decisions, executed actions |
| `Retention`, `Knowledge`, `KnowledgeEdits`, `EmbeddingBackfill`, `RankFusion` | retention sweeps, document versions and chunks, overlapping content changes, the resumable embedding backfill, rank fusion |
| `SocialListening`, `CrmMemory`, `RedisCircuit`, `SourceFill` | label counting under a worker pool, the memory merge, the Redis circuit, the choice of sources to keep |
| `Basics` | options, text, sums, counts, distinctness and the stable sort, shared by the others |

## Conventions

An object or table the program updates in place is a class whose fields the methods reassign.
Each such method is proved equal to a function of the old state, and the lemmas are about those
functions: what each operation leaves behind is stated once more without naming the function that
computes it, as a table, an exact condition or a record of the run. A run is a list of steps folded over a total step function; a step that is not possible
leaves the state unchanged, so a fact about every list is a fact about every interleaving. A call
that awaits between reading and writing is split where its writes are not conditional on what it
read; where a call is taken as one step although it awaits, "Left out" says so.

Absent, null and empty identifiers and revisions are the empty string, as `!x` and `x || y` treat
them. Scores, confidences and money are reals, times are integers on a clock that does not go back,
and provider replies, pattern matches, database picks and permissions are arbitrary inputs. Every
write of the user row is taken to raise its revision strictly (the row's update time), an
organisations response carries the row's current pair, and storage works.

## What was found

- The guard's organisation check alone cannot see a switch away and back; only the revision can
  (`OrganisationHeaderAloneIgnoresRevisions`).
- The guard checks the user row but the write uses the session's organisation. They differ exactly
  when the session's recheck fell back to another membership
  (`AcceptedWriteLandsWhereExpected`, `SuspendedWorkspaceMisroutesWrite`).
- A tab keeps one acknowledgement. A late broadcast of an older switch replaces it, and the gate
  blocks again for a switch it had cleared (`LateBroadcastRearmsGate`); `GateStaysClear` says
  exactly which steps block a clear gate.
- Raising the live revision keeps a clear gate clear only if the tab has some revision
  (`FirstLiveRevisionCanBlock`).
- The limiter's bound over any window length is `2 * limit - 1`; a limit below 1 still accepts one
  call per window (`IntervalBound`).
- The limit of five failed logins holds exactly when no two attempts overlap
  (`FiveAttemptsHoldOneAtATime`). With k open attempts the limit is C(k + 5, 5) - 1, and every
  password reset, password change or reactivation gives it back (`ComparisonsAreBounded`,
  `BoundIsAttained`, `ResetsGiveBackAllowance`).
- A reset while an attempt is open is undone when that attempt fails: it writes the counter it had
  read, so the row again counts failures from before the reset (`ResetDuringAttemptIsUndone`,
  `CounterCountsFailures`).
- An approval decision checks the request when it reads it and writes its status without a
  condition. A list runs once, for an approved request, exactly when no decision is written after an
  approval was (`ListsRunOnceWhenApproved`); a rejection written before an overlapping approval is
  lost (`OverlappingDecisions`). An enqueue whose addition is separated from its checks is not gated
  either (`SeparatedAdditionIsNotGated`).
- Editing the actions of a rule without naming its trigger keeps the old approval flag, so a compiled
  rule that needed no approval can come to send without one when sending is automatic
  (`EditWithoutTriggerUngates`).
- Status, outcome and event log of a publishing job agree exactly as long as no late write hits the
  confirmed job: a cancellation, a deletion notice and a reconciliation note check what they read
  and write without a condition (`AgreementOverRuns`, `CancelRacingSuccessDisagrees`). A deletion
  notice followed by a reconciliation needs no overlap to leave a CONTENT_PUBLISHED event without a
  confirmed job (`DeletionThenReconcileLosesConfirmation`).
- An edit refused by the unique index on versions leaves its text in the piece
  (`RefusedEditStaysInRow`). For knowledge documents the index refuses exactly the stale changes
  (`RefusedExactlyWhenStale`), but overlapping changes can leave the chunks of both
  (`ChunksOfBothStay`).
- The key of a cancelled publish request stays taken (the unique index of migration
  20260824190000), so the same request is refused rather than queued again
  (`RepeatedRequestNeverDuplicates`).
- No text compiles to the `lead_disqualified` trigger (`DisqualifiedTriggerIsUnreachable`), and the
  words that ask for some actions fix the trigger (`ActionsDecideTrigger`).
- The compiler emits the conditions `topicIncludes` and `requireHumanReview`; `matchesConditions`
  reads neither.
- A valid retention setting orders the two step cutoffs only up to the time between two clock
  readings (`SkeletonCutoffIsNotLater`).
- Label counts do not depend on the order in which posts finish; the text shown for a label does
  (`ShownTextDependsOnOrder`).
- An update to the CRM memory keys `updatedAt` and `updatedBy` is always overwritten
  (`MergeCrmMemory`).

## Model

| member | source | states |
|---|---|---|
| ActiveWorkspace.PickFollowsPriority | src/services/active-workspace.ts:27-46 | the preferred workspace while its member is usable, else the first usable tenant, else the first usable membership; nothing exactly when none is usable |
| ActiveWorkspace.PickIsStable | src/services/active-workspace.ts:56-74 | resolving again from the persisted result gives the same workspace |
| MutationGuard.OrganisationHeaderAloneIgnoresRevisions | src/lib/workspace-mutation-guard.ts:46-64 | with only the organisation header the guard accepts exactly the rows naming that organisation, at any revision; with both it accepts exactly that row |
| MutationGuard.GuardComparesWhatIsSent | src/lib/workspace-mutation-guard.ts:18-64 | a request passes if and only if the organisation and the revision it sends, by header or else by body, are missing or those of the user row, whatever the row lacks |
| MutationGuard.AcceptedWriteLandsWhereExpected | src/lib/auth.ts:204-246 | an accepted request saw its own snapshot's row, and the session names the expected organisation if and only if the recheck had no reason to fall back |
| MutationGuard.SuspendedWorkspaceMisroutesWrite | src/lib/session.ts:52-70 | an accepted mutation whose session names another organisation, after the expected one was suspended |
| WorkspaceClient.WorkspaceTab.GetImmutableWorkspaceContext | src/lib/workspace-client.ts:435-465 | the frozen snapshot of this document, or nothing an earlier document left behind |
| WorkspaceClient.WorkspaceTab.SetImmutableWorkspaceContext | src/lib/workspace-client.ts:372-433 | freezes at most once per document load and runs reload recovery once, on the whole tab state |
| WorkspaceClient.WorkspaceTab.PrepareWorkspaceTabReload | src/lib/workspace-client.ts:183-205 | forgets snapshot and readiness and sets the recovery flag |
| WorkspaceClient.WorkspaceTab.AcknowledgeOrgChangedEvent | src/lib/workspace-client.ts:287-299 | remembers the change id of the event, in this tab only |
| WorkspaceClient.WorkspaceTab.BroadcastOrgChanged | src/lib/workspace-client.ts:207-231 | replaces the shared last event by the message, its missing change id and timestamp filled in |
| WorkspaceClient.BroadcastFillsGaps | src/lib/workspace-client.ts:207-231 | a sent event keeps its change id and time; a missing id is the server's, else a new one, a missing time is now |
| WorkspaceClient.WorkspaceTab.Evaluate | src/components/workspace-changed-gate.tsx:30-60 | blocks or acknowledges as the gate's specification says, leaving the rest of the tab alone |
| WorkspaceClient.NewerIsMaximum | src/lib/workspace-client.ts:301-314 | the newer of two revisions is one of them and neither is above it |
| Texts.LessIsSmallerSomewhere | src/lib/workspace-client.ts:93-94 | a revision is older exactly when it ends, or has the smaller character, where the two first differ |
| WorkspaceClient.ComparisonOrdersRevisions | src/lib/workspace-client.ts:85-95 | a missing revision is older than any other, two compare equal exactly when they are the same, else as their texts are ordered |
| WorkspaceClient.RaisingLiveRevisionKeepsGateClear | src/lib/workspace-client.ts:316-349 | once some revision is known, raising the live revision never blocks a clear gate |
| WorkspaceClient.FirstLiveRevisionCanBlock | src/lib/workspace-client.ts:316-349 | with no known revision the first live one can block |
| WorkspaceClient.BlocksExactlyWhenBehind | src/lib/workspace-client.ts:316-349 | an unacknowledged event with a destination blocks another organisation always, and its own if and only if it has a revision, the tab has one, and every one the tab has, frozen or live, is older |
| WorkspaceClient.GateBlocksExactlyWhenBehind | src/components/workspace-changed-gate.tsx:30-60 | so does the gate of a frozen tab, on its frozen organisation and the newer of its frozen and live revisions |
| WorkspaceClient.UnfrozenGateBlocksElsewhere | src/components/workspace-changed-gate.tsx:43-60 | before freezing the gate blocks exactly for an unacknowledged event of another organisation than the page's own |
| WorkspaceClient.ReloadRecoveryClearsGate | src/lib/workspace-client.ts:388-420 | freezing into the destination after "Reload this tab" acknowledges the stored event and clears the gate, whatever revisions are involved |
| WorkspaceProtocol.RunKeepsInvariant | src/lib/workspace-client.ts:372-477 | in every run each frozen snapshot and each captured header pair was read from one row, no later than the freeze |
| WorkspaceProtocol.AcceptedMutationIsCurrent | src/lib/workspace-mutation-guard.ts:46-64 | in every run with any number of tabs, a mutation with both headers of a frozen tab is accepted if and only if the user row was not written since its snapshot was read; so no switch happened since the tab froze |
| WorkspaceProtocol.SnapshotIsFrozenOnce | src/lib/workspace-client.ts:372-433 | while a document lives its snapshot never changes, whatever else happens |
| WorkspaceProtocol.UnfrozenDocumentSendsNoRevision | src/lib/workspace-client.ts:435-477 | in every run a document that has not frozen sends no revision header, and no organisation header but the page's own fallback, whatever its predecessor stored |
| WorkspaceProtocol.ClearGateMeansFrozenAfterSwitch | src/lib/workspace-client.ts:316-349 | on the frozen revision alone, the gate is clear for an unacknowledged announcement if and only if the tab froze into its destination from a row at or after the one it read back; so at or after the switch |
| WorkspaceProtocol.ClearGateMeansSeenAfterSwitch | src/components/workspace-changed-gate.tsx:43-60 | with the live revision too, the gate of a tab frozen into the destination is clear for an unacknowledged announcement if and only if the later of the rows its two revisions were read from is at or after the one read back |
| WorkspaceClient.ShownEventKeepsGateClear | src/components/workspace-changed-gate.tsx:30-60 | after an acknowledgement, showing any other event leaves the gate clear if and only if the tab has no organisation, the change ids agree, the other event itself blocks, or the acknowledged one would not block anyway |
| WorkspaceProtocol.ClearGateStep | src/lib/workspace-client.ts:287-433 | a step turns a clear gate into a blocked one if and only if it is one of the rearming steps, for every step and reachable world |
| WorkspaceProtocol.GateStaysClear | src/components/workspace-changed-gate.tsx:30-124 | while an event stays the stored one, the gate is clear for it all through a run if and only if it is clear at the start and no step rearms it |
| WorkspaceProtocol.RecoveryFlagWaits | src/lib/workspace-client.ts:183-205 | the recovery flag survives anything until this tab's first response |
| WorkspaceProtocol.ReloadThisTabRecovers | src/lib/workspace-client.ts:388-420 | pressing "Reload this tab", any steps, freezing into the destination: the gate is clear for the stored event, and stays so through any later steps if and only if none rearms it |
| WorkspaceProtocol.LateBroadcastRearmsGate | src/lib/workspace-client.ts:287-299 | a reachable run in which an older broadcast blocks a recovered tab again |
| RateLimit.Limiter.RateLimit | src/lib/rate-limit.ts:9-19 | the bucket map and the verdict are exactly those of the specification, other keys untouched |
| RateLimit.IntervalBound | src/lib/rate-limit.ts:9-19 | any half-open interval of one window length sees at most 2 * max(1, limit) - 1 accepted calls, whatever happens on other keys |
| RateLimit.WindowAcceptsQuota | src/lib/rate-limit.ts:11-18 | the open window accepts at most the quota, and a call is refused if and only if it already did |
| RateLimit.IntervalBoundIsAttained | src/lib/rate-limit.ts:9-19 | for every limit of at least 1 and every window of at least 2 ms some run attains the bound |
| SpendGate.CentsAreNearest | src/lib/ai-models.ts:213-215 | the spend compared is the nearest number of cents, halves going up |
| SpendGate.SpendNeverExceedsBound | src/services/ai-spend-gate.ts:149-182 | with costs within estimates and at most k calls in flight, the rounded spend never exceeds cap + (k - 1) * M or what it already was, across months and budget changes |
| SpendGate.SequentialSpendStaysWithinCap | src/services/ai-spend-gate.ts:149-182 | one call at a time, the rounded spend never passes the cap |
| SpendGate.BoundIsAttained | src/services/ai-spend-gate.ts:28-39 | for every cap, k of at least 1 and M up to the cap some run attains the bound |
| SpendGate.CapDecides | src/services/ai-spend-gate.ts:149-182 | no cap admits every call without a warning; with one a call is refused if and only if spend and estimate pass it, and an admitted call warns from 80% of it on, in whole cents |
| SpendGate.NoCapAdmitsAll | src/services/ai-spend-gate.ts:153-157 | in every run without a cap each dispatch goes into flight and stays there until it completes |
| Login.User.LogIn | src/lib/auth.ts:99-127 | counter, lock and outcome of one attempt, locked accounts unchanged |
| Login.LogInIsBeginFinish | src/lib/auth.ts:99-127 | an attempt whose read and write have nothing in between is one call of authorize |
| Login.ComparisonsAreBounded | src/lib/auth.ts:99-127 | from any row and any attempts already open, with at most k open at a time, any time span T sees at most C(k + 5, 5) - 1 + k * floor(T / 15 min) compared passwords, and as many again for every successful login or reset of the run |
| Login.FiveAttemptsHoldOneAtATime | src/lib/auth.ts:58-59 | the limit of 5 + floor(T / 15 min) holds for every run without a successful login or reset if and only if at most one attempt is ever open |
| Login.BoundIsAttained | src/lib/auth.ts:99-117 | for every k and every number of locks some run from a fresh account attains the bound |
| Login.ResetsGiveBackAllowance | src/app/api/auth/password-reset/route.ts:108-116 | for every k and n a run with n resets compares (n + 1) * (C(k + 5, 5) - 1) passwords at one instant |
| Login.CounterCountsFailures | src/lib/auth.ts:103-125 | from a fresh account with at most one attempt open: the counter is the number of failures since the last successful login or reset if and only if none of them had read the row before that reset, else more; the row is locked exactly from a counter of five on, until 15 minutes after the last failure |
| Login.ResetDuringAttemptIsUndone | src/lib/auth.ts:103-117 | a reset while an attempt is open is undone by its failure, which leaves one more than before the reset |
| Login.AttemptAnswersByRecord | src/lib/auth.ts:99-127 | after such a run the next attempt is refused as locked, lets in or fails exactly as that record and the password say, and writes exactly that row |
| Login.FifthFailureAfterLoginLocks | src/lib/auth.ts:119-125 | after a successful login, whatever came before, four wrong passwords never lock and the fifth does, for 15 minutes |
| Policy.OnlyHarmlessToolsRunAlone | src/kernel/policy.ts:10-85 | exactly which risks run alone and which need approval, under every configuration |
| ContentStore.Store.CreateDraft | src/services/content-os.ts:206-252 | the tables after a draft is created, with its first version, or untouched when refused |
| ContentStore.Store.CreateFromBrief | src/services/content-os.ts:148-200 | the tables after a brief and its piece are created with the first version, or untouched when the idea is missing or its evidence fails |
| ContentStore.Store.FindLastVersion | src/services/content-os.ts:282-290 | the largest version number of a piece, 0 without one |
| ContentStore.Store.Update | src/services/content-os.ts:254-295 | the edited piece and its next version |
| ContentStore.Store.Submit | src/services/content-os.ts:297-320 | the piece in review with a pending approval row, or a refusal |
| ContentStore.Store.Decide | src/services/content-os.ts:322-354 | the piece approved or back in draft with the decision's row, or a refusal |
| ContentStore.Store.Request | src/services/content-os.ts:360-521 | the existing job, a refusal, or one added job with its approval request and event |
| ContentStore.Store.Commit | src/services/content-os.ts:551-668 | the conditional writes of a result, in the tables as they are when it commits |
| ContentStore.Store.Record | src/services/content-os.ts:530-668 | a call without overlap reads and commits in one go |
| ContentProtocol.PublishedExactlyWhenConfirmed | src/services/content-os.ts:530-668 | for every job in every interleaving with every other writer of jobs: published exactly when its last turn was a success, confirmed exactly when that was a success or a late write that kept the outcome, then with a non-blank post id or URL, and one CONTENT_PUBLISHED event exactly when it was ever confirmed |
| ContentProtocol.ConfirmedJobNeverChanges | src/adapters/zernio/webhook-coverage.ts:657-690 | the row of a published job stays as it is all through the rest of a run if and only if no late write hits it and no partial-delivery notice brings another post id or URL |
| ContentProtocol.OnlySuccessConfirms | src/services/content-os.ts:626-668 | a job becomes confirmed only when a recorded result with a delivery reference and no error finishes, which in the same step publishes it with that reference and logs its event |
| ContentProtocol.NewJobIsPending | src/services/content-os.ts:421-521 | every job a step adds is PENDING_APPROVAL and undispatched |
| ContentProtocol.AgreementOverRuns | src/services/publishing/reconcile.ts:182-191 | status, outcome and event log of a job agree all through a run if and only if no cancellation, deletion notice or reconciliation note writes to the job after it was confirmed |
| ContentProtocol.AgreementAtEnd | src/services/content-os.ts:530-668 | at the end of every run they agree if and only if the job's last turn was none or a success |
| ContentProtocol.CancelRacingSuccessDisagrees | src/services/publishing/approve.ts:230-258 | for every cancellable job a run that ends confirmed and marked cancelled |
| ContentProtocol.DeletionThenReconcileLosesConfirmation | src/adapters/zernio/webhook-coverage.ts:677-690 | without any overlap, a deletion notice and then a reconciliation leave a confirmed job unconfirmed with its CONTENT_PUBLISHED event |
| ContentProtocol.PublishedPiecesAreBacked | src/services/publishing/reconcile.ts:182-191 | every published piece has a confirmed job all through a run if and only if no reconciliation note takes the last confirmation of a published piece |
| ContentLedger.ReconciliationIsRecorded | src/services/content-os.ts:551-587 | what a finishing result that needs reconciling leaves: status, outcome, error, note and event of a job not final, everything else as it was |
| ContentLedger.FailureIsRecorded | src/services/content-os.ts:589-621 | what a finishing error leaves: status, outcome, error and event of a job not confirmed and the status of its piece, everything else as it was |
| ContentLedger.SuccessIsRecorded | src/services/content-os.ts:627-668 | what a finishing success leaves: status, outcome, references and event of a job not final and the status of its piece, everything else as it was |
| ContentLedger.ResultIsReadInOrder | src/services/content-os.ts:539-548 | an unknown job, a final one and a success without reference stop the call, in this order |
| ContentLedger.StepWritesJob | src/services/publishing/dispatch.ts:815-870 | every step of every caller does to a job exactly what one table of writers and columns says |
| ContentLedger.JobShowsLastWriters | src/services/publishing/approve.ts:171-258 | in every run with any interleaving, status, outcome, error, note and both references of a job are those of the last write that sets the column |
| ContentLedger.EventsAreLogged | src/services/content-os.ts:500-517 | in every run the event log is, in order, exactly what the steps add |
| ContentLedger.StepWritesPiece | src/services/content-os.ts:254-354 | every step does to a piece exactly what a second table says: an edit writes the fields it gives, a submission, decision, result or dispatcher failure one status |
| ContentLedger.PieceShowsLastStatus | src/services/content-os.ts:322-354 | in every run a piece has the status last given to it, DRAFT if none was: approved only by an approving decision, published only by a success |
| ContentLedger.StepAddsReview | src/services/content-os.ts:297-354 | the approval history grows by exactly the submission's pending row or the decision's row |
| ContentLedger.RecordIsBeginFinish | src/services/content-os.ts:530-668 | a recording whose read and write have nothing in between is one call of recordPublishResult |
| ContentLedger.RequestIsBeginFinish | src/services/content-os.ts:360-521 | so is a publish request; one that is refused or finds its job writes nothing |
| ContentLedger.UnconditionalWritesBegin | src/services/publishing/approve.ts:230-258 | exactly what a cancellation, a reconciliation and a deletion notice need to read before they write |
| ContentLifecycle.ContentStaysSound | src/services/content-os.ts:206-521 | in every run of whole edits: versions of a piece are 1..n with the last equal to its title and body, kept evidence passes its check and is that of the piece's brief, each job has one approval request naming it, and keys are unique per organisation, with any publish requests, results and job writes overlapping |
| ContentEdits.OverlappingEditsStayNumbered | src/services/content-os.ts:277-294 | however edits of a piece overlap between their reads and writes, its versions are 1..n without gaps or repeats |
| ContentEdits.EditAloneIsUpdate | src/services/content-os.ts:254-295 | an edit with nothing between its reads and writes leaves the row and versions of one whole updatePiece |
| ContentEdits.NewestIsCurrentWhenLastWriterSavedLast | src/services/content-os.ts:277-294 | in every interleaving the newest version is the current text if and only if the calls that last wrote the row and last saved a version had the same text |
| ContentEdits.CurrentOneEditAtATime | src/services/content-os.ts:277-294 | the newest version is the current text at every quiet point of every run with at most n edits between their write and their version if and only if n is at most 1 |
| ContentEdits.RefusedEditStaysInRow | src/services/content-os.ts:277-294 | for any two edits a run in which the second is refused by the unique index while its text stays in the row |
| ContentLifecycle.CheckedEvidencePasses | src/services/content-os.ts:34-59 | checked evidence passes the check again, unchanged |
| ContentLedger.EvidencePassesWhenJustified | src/services/content-os.ts:34-59 | evidence passes if and only if it has a rationale and an http link or another origin; it is then trimmed and its other links dropped |
| ContentLedger.DraftIsAsGiven | src/services/content-os.ts:206-252 | a new draft is refused if and only if it gives a link that is not http and no agent run wrote it; else piece and first version are exactly as given |
| ContentLedger.BriefAndPieceAreAsGiven | src/services/content-os.ts:148-200 | the refusals of a brief, and otherwise brief, piece and first version as given with the idea's checked evidence |
| ContentLifecycle.AddedJobAwaitsApproval | src/services/content-os.ts:360-521 | a request that adds a job leaves it PENDING_APPROVAL with exactly one new approval request naming it and its requested event logged, and changes nothing else |
| ContentLedger.RequestAddsJobExactlyWhen | src/services/content-os.ts:360-521 | a request adds its job, approval request and event if and only if the piece is the organisation's, approved or scheduled and justified, its connection exists and its key is free; else nothing changes |
| ContentLedger.RequestIsRefusedInOrder | src/services/content-os.ts:368-405 | which refusal is given, in the order of the checks |
| ContentLedger.TakenKeyAnswers | src/services/content-os.ts:421-442 | with a taken key the answer is that job, or a refusal if it was cancelled unconfirmed |
| ContentLifecycle.RepeatedRequestNeverDuplicates | src/services/content-os.ts:421-442 | repeating a request never adds a job: it returns the live one or, after a cancellation, is refused |
| ContentLifecycle.SecondRequestIsRefused | src/services/content-os.ts:421-521 | of two overlapping requests for the same publish the one that commits second is refused and adds nothing |
| ContentLifecycle.EditsStayInOrganisation | src/services/content-os.ts:254-295 | an edit changes nothing of another organisation |
| ContentLifecycle.ResultsStayInOrganisation | src/services/content-os.ts:530-668 | a publish result changes nothing of another organisation |
| WorkflowCompiler.BuildWorkflowSteps | src/services/automation-os.ts:150-219 | the pushed steps are those of the specification |
| WorkflowCompiler.ActionsAreThoseAsked | src/services/automation-os.ts:80-111 | the parsed actions are exactly those whose phrases the text holds, each once, in a fixed order of their kinds |
| WorkflowCompiler.ActionsDecideTrigger | src/services/automation-os.ts:49-111 | for every text: an action that marks leads qualified only ever runs on qualified leads; one that sends a booking link or, without "nudge", a follow-up never runs on new leads or messages |
| WorkflowCompiler.DisqualifiedTriggerIsUnreachable | src/services/automation-os.ts:49-66 | no text compiles to lead_disqualified |
| WorkflowCompiler.StepsShowActions | src/services/automation-os.ts:150-219 | the steps show exactly the actions, in order, outbound ones marked as gated |
| WorkflowCompiler.CompiledWorkflowIsGated | src/services/automation-os.ts:119-147 | a compiled workflow has an action, requires approval whenever it can reach a contact, and shows a human step exactly then |
| Automations.AutomationService.CreateRuleFromWorkflow | src/services/automation-os.ts:221-244 | the stored rule carries the workflow's trigger, conditions, actions and approval flag |
| Automations.AutomationService.ExecuteDirectly | src/services/automations.ts:86-88 | actions are attempted in order up to and including the one that throws |
| Automations.AutomationService.ExecuteRule | src/services/automations.ts:69-146 | one rule: immediate actions, then approval or direct sending, then the execution record |
| Automations.AutomationService.RunAutomations | src/services/automations.ts:50-152 | a locked key runs nothing; otherwise all active rules of the trigger run in order and the lock is released |
| AutomationRuns.OneRule | src/services/automations.ts:69-146 | a rule asked for leaves exactly its attempts up to the first that throws, a request holding its outbound actions if it waits for approval, and one execution; a rule not asked for leaves nothing |
| AutomationRuns.RunsExactlyAskedRules | src/services/automations.ts:58-146 | a trigger adds one execution for each rule it asks for, in order, only attempts of such rules, and only requests named by one of these executions |
| AutomationRuns.RuleRunsExactlyWhenAsked | src/services/automations.ts:154-171 | a rule gets an execution if and only if it is active, of the event's organisation and trigger, and no value the event carries is below its score, of another sentiment or of fewer inactive minutes; else it leaves no attempt |
| AutomationRuns.AnswerCountsExecutions | src/services/automations.ts:65-148 | the number returned is that of the executions that did not fail |
| Automations.AutomationService.DecideApproval | src/services/automation-os.ts:323-494 | refusals write nothing; a decision writes the status and runs the list |
| AutomationRuns.DecisionIsRefusedInOrder | src/services/automation-os.ts:332-400 | which refusal a decision gets, in the order of the checks, and that it writes nothing then |
| AutomationRuns.DecisionIsCarriedOut | src/services/automation-os.ts:402-493 | the status a decision writes, and the texts and actions an approval sends up to the first that throws |
| Automations.OutboundNeedsApproval | src/services/automations.ts:85-108 | with automatic sending off, in every run every attempted outbound action stands at its position in the list of a request for which an approval was written; with it on, this holds as long as every rule added or edited by hand gates its outbound actions, with any rules compiled from text |
| Automations.EditKeepsGate | src/app/api/automations/route.ts:134-178 | exactly which edits leave a gating rule ungated: outbound actions afterwards, and no approval required explicitly or by keeping the flag of a rule that required none |
| Automations.EditWithoutTriggerUngates | src/app/api/automations/route.ts:148-160 | bringing outbound actions without the trigger to a compiled rule that required no approval ungates it; with the trigger it does not |
| Automations.ListsRunOnceWhenApproved | src/services/automation-os.ts:332-493 | in every run with reads, status writes and single actions of decisions interleaved, whenever no written approval still has to begin the list: the list was started at most once and only if the request is now approved, if and only if no decision was written after an approval was |
| Automations.AttemptsArePaidFor | src/services/automation-os.ts:402-493 | in every run no position is attempted more often than the list was started, nor that more often than approvals were written |
| Automations.ListRunsWhileApproved | src/services/automation-os.ts:402-493 | without a decision after an approval, every action of the list is attempted while the request is approved |
| Automations.DecideInOneGo | src/services/automation-os.ts:323-494 | reading, writing and running with nothing in between is one call |
| Automations.OneDecisionAtATimeRunsOnce | src/services/automation-os.ts:332-338 | with never more than one decision open, every position is attempted at most once and only for an approved request |
| Automations.BypassNeedsUngatedRule | src/services/automations.ts:91-108 | exactly when a rule sends without approval |
| Automations.ApprovalRunsWholeList | src/services/automation-os.ts:473-493 | a granted approval without a throwing action runs its whole list once, in order, and reports its length |
| Automations.SecondDecisionIsRefused | src/services/automation-os.ts:332-338 | a decided request is refused and nothing changes |
| Automations.OverlappingDecisions | src/services/automation-os.ts:332-493 | an approval overlapping another decision, in both orders of their writes: the list of a request not started before ends started once for an approved request if and only if the other decision is a rejection written first, which is then lost |
| Retention.StoredSettingsStayValid | src/services/agent-retention.ts:44-71 | every setting stored by any sequence of updates is valid |
| Retention.UpdateIsMerged | src/services/agent-retention.ts:44-71 | an update keeps what it does not give and is refused exactly when a value falls below a day or the two step ages cross |
| Retention.SkeletonCutoffIsNotLater | src/services/agent-retention.ts:145-149 | the cutoffs are ordered exactly when the clock moved less than the settings differ |
| Retention.Artifacts.SkeletoniseBatch | src/services/agent-retention.ts:174-189 | the rows after the loop and how many it changed |
| Retention.Artifacts.CompactBatch | src/services/agent-retention.ts:201-216 | the rows after the loop and how many it changed |
| Retention.Artifacts.CollapseBatch | src/services/agent-retention.ts:234-252 | the runs after the loop and how many it changed |
| Retention.Artifacts.TakeBatch | src/services/agent-retention.ts:164-172 | some rows of the query, all of them if they fit in 500, else 500 |
| Retention.Artifacts.Prune | src/services/agent-retention.ts:142-272 | a sweep is the specified one for some admissible batches |
| Retention.SweepLeavesLess | src/services/agent-retention.ts:142-272 | one sweep leaves at most a batch fewer due steps, whichever rows it picks |
| Retention.SweepsFinish | src/services/agent-retention.ts:142-272 | k sweeps leave exactly max(0, n - 500k) steps short of SKELETON and at most max(0, m - 500k) old FULL steps |
| Retention.SweepOnlyReducesOldSteps | src/services/agent-retention.ts:164-252 | no retention level falls, no row or finalOutput changes otherwise, newer steps are untouched |
| Retention.SweepReducesByAge | src/services/agent-retention.ts:142-260 | by age in days: steps, partial results and payloads not older than their setting stay as they are, older ones are reduced to exactly this or wait, every old payload is cleared, and the counts are those of the rows changed |
| Retention.CountsAddUp | src/services/agent-retention.ts:254-260 | the two step counts add up to the step rows changed |
| Retention.SweepIsIdempotent | src/services/agent-retention.ts:142-272 | with nothing due a sweep changes nothing and reports zeros |
| Knowledge.ChunkText | src/services/knowledge.ts:287-297 | the chunks concatenate to the normalised text, all but the last exactly `size` long, the last not empty |
| Knowledge.ChunkingIsUnique | src/services/knowledge.ts:287-297 | a text has only one such chunking |
| Knowledge.NormalizeTrimsLines | src/services/knowledge.ts:289-289 | the text chunked is the content in newline-ended lines without the space at both ends |
| Knowledge.UnixLinesReplacesPairs | src/services/knowledge.ts:289-289 | every carriage return before a newline goes, wherever it stands |
| Knowledge.UnixLinesKeepsTheRest | src/services/knowledge.ts:289-289 | a text without such a pair stays as it is |
| Knowledge.KnowledgeService.ReplaceChunks | src/services/knowledge.ts:340-378 | the document's chunks become those of the new content, nothing else changes |
| Knowledge.KnowledgeService.UpdateKnowledgeDocument | src/services/knowledge.ts:380-438 | the edited document, with a saved version and new chunks exactly when the content changed |
| Knowledge.KnowledgeService.UpsertKnowledgeDocument | src/services/knowledge.ts:440-483 | updates the document of that title or adds one with its chunks |
| Knowledge.UpsertWritesTitle | src/services/knowledge.ts:440-483 | the first document of that organisation and title gets the fields given; without one exactly one document with these fields is added; every other document stays as it was |
| Knowledge.UpdateWritesGivenFields | src/services/knowledge.ts:380-438 | an update writes the fields it gives to the document it names and leaves the others alone |
| Knowledge.KnowledgeService.ArchiveKnowledgeDocument | src/services/knowledge.ts:485-497 | only the status changes |
| Knowledge.ArchiveKeepsContent | src/services/knowledge.ts:485-497 | archiving writes the status of the document it names and keeps its text, version and chunks |
| Knowledge.DocumentsStaySound | src/services/knowledge.ts:340-483 | after any writes: version is one more than the saved versions, these and the content are the successive contents written, and the chunks are the chunking of the content |
| KnowledgeEdits.OverlappingChangesKeepHistory | src/services/knowledge.ts:389-423 | however content changes overlap, the version is one more than the saved versions, these are numbered from 1, and saved contents and content are exactly the contents the row has had, none repeated at once |
| KnowledgeEdits.RefusedExactlyWhenStale | src/services/knowledge.ts:399-418 | in every run a change is refused by the unique index if and only if another was written since it read the row |
| KnowledgeEdits.ChunksCurrentOneChangeAtATime | src/services/knowledge.ts:340-362 | the chunks are those of the content at every quiet point of every run with at most n changes between their write and their chunks if and only if n is at most 1 |
| KnowledgeEdits.ChunksOfBothStay | src/services/knowledge.ts:340-362 | for any two changes a run after which the document has the chunks of both |
| EmbeddingBackfill.ChunkTable.BackfillKnowledgeEmbeddings | src/services/knowledge.ts:511-581 | the rows and the report of one call, or nothing when unconfigured |
| EmbeddingBackfill.SizeIsBetween | src/services/knowledge.ts:511-532 | the batch size is the one asked for, 50 by default, kept between 1 and 200 |
| EmbeddingBackfill.CallIsReported | src/services/knowledge.ts:533-581 | a call reports exactly how many missing rows beyond the cursor it took, up to its size, and how many are missing afterwards |
| EmbeddingBackfill.BackfillNeverOverwrites | src/services/knowledge.ts:533-565 | whatever the cursor, no embedding is overwritten and only rows the query selects change, to the provider's vector |
| EmbeddingBackfill.EveryMissingChunkOnce | src/services/knowledge.ts:533-580 | feeding the cursor back from null, call c processes exactly the missing chunks of its own interval, min(size, rest) of them; the intervals meet end to end and exactly ceil(n / size) calls are not empty |
| EmbeddingBackfill.WritesKeepWhole | src/services/knowledge.ts:324-332 | whatever rows are created, deleted, embedded on write or backfilled, a row has an embedding exactly when it has an embedding time |
| EmbeddingBackfill.BackfillFinishes | src/services/knowledge.ts:545-569 | on any table such writes lead to, after those calls every missing chunk the provider has a vector for has it, other rows are as they were, and exactly the missing chunks without a vector remain |
| RankFusion.AddHit | src/services/knowledge.ts:41-49 | one hit adds its share to the entry of its id |
| RankFusion.ReciprocalRankFusion | src/services/knowledge.ts:35-52 | each id scores exactly the sum of 1/(60 + rank) over its hits; the result is the `limit` highest, descending, each id once, nothing higher left out |
| RankFusion.OneHitScores | src/services/knowledge.ts:40-46 | one hit alone is worth 1 / (60 + rank) for its id and nothing for another |
| RankFusion.ScoreOfAllHits | src/services/knowledge.ts:40-50 | list by list or hit by hit, the score is the same sum |
| RankFusion.ListOrderDoesNotMatter | src/services/knowledge.ts:35-52 | the scores are the same for every order of the lists |
| RankFusion.DominatingIdScoresHigher | src/services/knowledge.ts:35-52 | an id never scores below one it ranks at least as well as in every list |
| WorkerPool.EachItemOnce | src/adapters/sources/index.ts:158-177 | however the workers interleave, when the pool resolves every item completed exactly once |
| WorkerPool.FewAtATime | src/adapters/sources/index.ts:158-177 | at most min(max(1, concurrency), items) mappers run at any point of any run, and that many workers are started |
| WorkerPool.PoolGetsDone | src/adapters/sources/index.ts:166-174 | a run has at most 2 * items + workers steps that change anything, and as long as the pool has not resolved some worker has one |
| SocialListening.LabelMap.Bump | src/agents/social-listening.ts:53-67 | one label counted under its trimmed lower-case key, with its url |
| SocialListening.LabelMap.BumpAll | src/agents/social-listening.ts:238-242 | one post's loop adds exactly its mentions |
| SocialListening.TallyPosts | src/agents/social-listening.ts:173-245 | the map after a pool run is the tally of the mentions in finishing order |
| SocialListening.FrequenciesAreExact | src/agents/social-listening.ts:53-67 | each frequency is the number of extracted occurrences equal after trimming and lower-casing, each evidence set exactly their urls, and the keys exactly the non-blank ones |
| SocialListening.FrequenciesAddUp | src/agents/social-listening.ts:53-67 | the frequencies add up to the number of non-blank labels |
| SocialListening.FinishingOrderDoesNotMatter | src/agents/social-listening.ts:181-245 | keys, frequencies and evidence are the same for every order in which the pool can finish |
| SocialListening.ShownTextDependsOnOrder | src/agents/social-listening.ts:53-67 | for every list of mentions the shown text is the first one with that key, trimmed |
| SocialListening.ReportIsLargest | src/agents/social-listening.ts:69-80 | the report holds the 15 most frequent labels in order with exact counts and at most 8 of their urls; a label left out is no more frequent |
| CrmMemory.MergeCrmMemory | src/services/crm-memory.ts:30-80 | the entry of every key after a merge, in whatever order the updates are visited |
| CrmMemory.MergeReplacesUnguarded | src/services/crm-memory.ts:37-78 | an entry is replaced exactly when its value says something and neither a human nor more confidence guards it against an AI; then by the value with the merge's source, confidence, message and time |
| CrmMemory.HumanFieldNeverChanges | src/services/crm-memory.ts:46-56 | a HUMAN field survives every sequence of AI merges |
| CrmMemory.FieldHoldsWinner | src/services/crm-memory.ts:57-74 | any other field holds the last effective update that reached the highest confidence, or its start if none was as confident |
| CrmMemory.WinnerIsUnique | src/services/crm-memory.ts:57-74 | that update is determined |
| CrmMemory.UnnamedKeyIsUnchanged | src/services/crm-memory.ts:37-80 | a key no merge names keeps its entry |
| CrmMemory.FlattenCrmMemory | src/services/crm-memory.ts:83-90 | exactly the values of the entries that have one |
| RedisCircuit.RedisGate.NoteRedisError | src/jobs/redis-circuit.ts:100-140 | the variables, the hook and the verdict after an error |
| RedisCircuit.RedisGate.MaybeRemind | src/jobs/redis-circuit.ts:142-152 | a reminder exactly when the interval has passed |
| RedisCircuit.RedisGate.ClearRedisCircuit | src/jobs/redis-circuit.ts:158-191 | closes an open circuit and calls the hook, else nothing |
| RedisCircuit.RedisGate.PingRedis | src/jobs/redis.ts:184-247 | when a ping reaches Redis, what it caches and what it answers |
| RedisCircuit.RedisGate.EnqueueAgentRunJob | src/jobs/agent-runs.ts:50-103 | adds exactly when the circuit and the ping allow it |
| RedisCircuit.HooksAlternate | src/jobs/redis-circuit.ts:100-191 | over any run the hooks alternate, differ by one exactly while OPEN, and suppressedWhileOpen counts the fatal errors since opening |
| RedisCircuit.ErrorIsNoted | src/jobs/redis-circuit.ts:100-152 | what an error changes: nothing if not fatal, else it opens the circuit with its time and the first 240 characters of its message, or is counted and may remind |
| RedisCircuit.OpenExactlyAfterFatal | src/jobs/redis-circuit.ts:100-191 | in every run the circuit is OPEN if and only if a fatal error was observed since it was last cleared |
| RedisCircuit.PingRepeatsLastAnswer | src/jobs/redis.ts:184-247 | in every run a ping says no while OPEN unless it bypasses, repeats the last settled answer for 15 seconds, and otherwise says whether Redis answered |
| RedisCircuit.EnqueueAddsWhenUp | src/jobs/agent-runs.ts:50-103 | a job is added if and only if the circuit is closed and such a ping says yes; else the error says why |
| RedisCircuit.RemindersAreApart | src/jobs/redis-circuit.ts:142-152 | a reminder comes at least REMINDER_MS after every earlier opening and reminder |
| RedisCircuit.OnlyProbesReachRedisWhileOpen | src/jobs/agent-runs.ts:50-95 | with calls one at a time only a bypassing ping reaches Redis while OPEN |
| RedisCircuit.SeparatedAdditionIsNotGated | src/jobs/agent-runs.ts:56-95 | with an error noted between checks and addition, the addition happens while OPEN exactly when it was fatal |
| SourceFill.DedupeSourceResults | src/adapters/sources/index.ts:289-299 | the loop keeps the specified results |
| SourceFill.SameKeyIsSameUrl | src/adapters/sources/index.ts:293-293 | two urls are one exactly when they differ only in case and outer space |
| SourceFill.DedupedKeys | src/adapters/sources/index.ts:289-299 | every non-blank url stays, read without case or outer space |
| SourceFill.DedupedIsDistinct | src/adapters/sources/index.ts:289-299 | it stays once |
| SourceFill.FirstOfKeyStays | src/adapters/sources/index.ts:289-299 | what stays is the first result with that url |
| SourceFill.FillKeepsReserve | src/agents/research.ts:462-472 | min(max, results) distinct sources, all results; the first primary authorities and the best ranked others, exactly as many of each as stated, for any ranking |
| SourceFill.ReserveIsKept | src/agents/research.ts:311-311 | at least min(primaries, reserve, max) authorities are kept, and the reserve is worth at least 5 for limits of 5 to 40 |

## Left out

- React rendering, DOM listeners, BroadcastChannel delivery and navigation: an announcement reaches a tab by an arbitrary step.
- migrateWorkspaceStorage, the readiness listeners and failing browser storage: storage works in the model.
- Login.ComparisonsAreBounded: suspended, inactive and unknown accounts, which are refused before the lock is read, are not modelled.
- ContentProtocol.PublishedExactlyWhenConfirmed: the provider's lookups and replies are inputs; failure events are appended each time, without their key per dispatch attempt.
- ContentLifecycle.ContentStaysSound: a piece's creation, edit, submission and decision are one step each there; ContentEdits takes the edit apart.
- Automations.OutboundNeedsApproval: a trigger reads its rules and runs them in one step. What each action kind does to conversations, leads and tags is not modelled, only that it was attempted.
- RedisCircuit.OnlyProbesReachRedisWhileOpen: calls one at a time; SeparatedAdditionIsNotGated says why. Hooks are recorded whether or not one is registered, and a hook's own failure is ignored.
- SocialListening.TallyPosts: models one of the five label kinds, which are counted alike; a failing post aborts the run and is not modelled.
- SourceFill.FillKeepsReserve: the ranking is any permutation of the secondary sources; its comparison by engagement and date is not modelled.
- EmbeddingBackfill.EveryMissingChunkOnce: row ids are numbers in the query's order; new chunks arriving between the calls are not modelled.
- Retention.Artifacts.Prune: previews and summaries of payloads are opaque texts.
- Knowledge.DocumentsStaySound: writes one at a time; KnowledgeEdits takes content changes of one document apart. Overlapping upserts of a new title, stale titles and tags, and embedding on write are not modelled.
- Floating-point rounding: scores, confidences and money are exact reals.
- Unicode case folding and UTF-16 code units: lower-casing covers ASCII, text is a sequence of characters.
- Regular expressions, LLM replies, encryption, hashing, HTTP and SQL: their results are inputs, tables are sequences and maps.
- Claim summaries, scheduling text and the construction of idempotency keys: the key is an input of a publish request.
- The agent-run lifecycle, permission tables, label maps and the sweep over all organisations: the first needs code that is not part of this model, the others would add only easy members.
