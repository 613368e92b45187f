/**
 * Runs over the content tables. Edits of a piece are atomic. The calls that read, await and then
 * write a job (requestPublish, recordPublishResult, cancelPublishingJob, reconcilePublishingJob and the
 * handler of the provider's deletion notice) are split, so any number of them overlap in any order.
 */
module ContentProtocol {
  import opened Wrappers
  import opened Texts
  import opened Sums
  import opened Policy
  import opened ContentModel

  datatype Pending =
    | Requesting(request: PublishRequest)
    | Recording(input: RecordInput, seenError: Option<string>)
    | Cancelling(jobId: nat, reason: string)
    | Stamping(jobId: nat, note: string)
    | Deleting(jobId: nat, note: string, error: string)

  datatype World = World(db: Db, pending: seq<Pending>)

  datatype Step =
    | CreateDraft(organisationId: string, title: string, body: string, platform: string, rationale: string,
                  sourceUrl: string, agentRunId: string)
    | CreateFromBrief(organisationId: string, idea: Option<Idea>, brief: BriefText, title: string, body: string,
                      platform: string)
    | Update(organisationId: string, pieceId: nat, newTitle: Option<string>, newBody: Option<string>,
             newPlatform: Option<string>)
    | Submit(organisationId: string, pieceId: nat)
    | Decide(organisationId: string, pieceId: nat, approved: bool)
    | Approve(jobId: nat, future: bool)
    | Reject(jobId: nat, reason: string)
    | Claim(jobId: nat)
    | CancelDuplicate(jobId: nat, reason: string)
    | MarkFailed(jobId: nat, error: string)
    | MarkReconciliation(jobId: nat, note: string)
    | PartialPost(jobId: nat, postId: string, url: string)
    | BeginRequest(request: PublishRequest)
    | BeginRecord(input: RecordInput)
    | BeginCancel(jobId: nat, reason: string)
    | BeginReconcile(jobId: nat, note: string)
    | BeginDelete(jobId: nat, note: string, error: string)
    | Finish(call: nat)

  function FinishCall(db: Db, call: Pending): Db {
    match call
    case Requesting(request) => CommitRequest(db, request).0
    case Recording(input, seenError) => CommitPublishResult(db, input, seenError)
    case Cancelling(jobId, reason) => CommitCancel(db, jobId, reason)
    case Stamping(jobId, note) => StampNote(db, jobId, note)
    case Deleting(jobId, note, error) => CommitDeletion(db, jobId, note, error)
  }

  /** The tables after an atomic operation; the pending calls do not change. */
  function Operate(db: Db, step: Step): Db {
    match step
    case CreateDraft(o, title, body, platform, rationale, url, run) =>
      CreateDraftPiece(db, o, title, body, platform, rationale, url, run).0
    case CreateFromBrief(o, idea, brief, title, body, platform) =>
      CreateBriefAndPiece(db, o, idea, brief, title, body, platform).0
    case Update(o, id, title, body, platform) => UpdatePiece(db, o, id, title, body, platform).0
    case Submit(o, id) => SubmitPieceForApproval(db, o, id).0
    case Decide(o, id, approved) => DecidePieceApproval(db, o, id, approved).0
    case Approve(id, future) => ApproveJob(db, id, future)
    case Reject(id, reason) => RejectJob(db, id, reason)
    case Claim(id) => ClaimJob(db, id)
    case CancelDuplicate(id, reason) => ContentModel.CancelDuplicate(db, id, reason)
    case MarkFailed(id, error) => ContentModel.MarkFailed(db, id, error)
    case MarkReconciliation(id, note) => ContentModel.MarkReconciliation(db, id, note)
    case PartialPost(id, postId, url) => ContentModel.PartialPost(db, id, postId, url)
    case _ => db
  }

  /** The call a step opens, if what it reads lets it go on. */
  function Opened(db: Db, step: Step): Option<Pending> {
    match step
    case BeginRequest(request) => if ReadRequest(db, request) == Ok(None) then Some(Requesting(request)) else None
    case BeginRecord(input) =>
      var reading := ReadPublishResult(db, input);
      if reading.Proceed? then Some(Recording(reading.input, reading.seenError)) else None
    case BeginCancel(id, reason) =>
      if id < |db.jobs| && MayCancel(db.jobs[id]) then Some(Cancelling(id, reason)) else None
    case BeginReconcile(id, note) =>
      if id < |db.jobs| && MayReconcile(db.jobs[id]) then Some(Stamping(id, note)) else None
    case BeginDelete(id, note, error) =>
      if id < |db.jobs| && MayDelete(db.jobs[id]) then Some(Deleting(id, note, error)) else None
    case _ => None
  }

  predicate Begins(step: Step) {
    step.BeginRequest? || step.BeginRecord? || step.BeginCancel? || step.BeginReconcile? || step.BeginDelete?
  }

  function Next(w: World, step: Step): World {
    if Begins(step) then
      var call := Opened(w.db, step);
      if call.Some? then w.(pending := w.pending + [call.value]) else w
    else if step.Finish? then
      if step.call < |w.pending|
      then World(FinishCall(w.db, w.pending[step.call]), w.pending[..step.call] + w.pending[step.call + 1..]) else w
    else w.(db := Operate(w.db, step))
  }

  function Run(w: World, steps: seq<Step>): World
    decreases |steps|
  {
    if steps == [] then w else Run(Next(w, steps[0]), steps[1..])
  }

  const EMPTY := World(Db([], [], [], [], [], [], []), [])

  predicate IsPublished(event: DomainEvent, jobId: nat) {
    event == DomainEvent(ContentPublished, jobId)
  }

  function PublishedEvents(events: seq<DomainEvent>, jobId: nat): nat {
    Count(events, (e: DomainEvent) => IsPublished(e, jobId))
  }

  lemma {:induction false} NoPublishedEvents(events: seq<DomainEvent>, jobId: nat)
    ensures PublishedEvents(events, jobId) == 0 <==> DomainEvent(ContentPublished, jobId) !in events
  {
    if events != [] {
      NoPublishedEvents(events[1..], jobId);
    }
  }

  lemma PublishedEventsAppend(events: seq<DomainEvent>, event: DomainEvent, jobId: nat)
    ensures var before, after := PublishedEvents(events, jobId), PublishedEvents(AppendEvent(events, event), jobId);
            after == if !IsPublished(event, jobId) then before else if before == 0 then 1 else before
  {
    CountAppend(events, event, (e: DomainEvent) => IsPublished(e, jobId));
    NoPublishedEvents(events, jobId);
  }

  predicate HasDelivery(job: Job) {
    Trim(job.externalPostId) != "" || Trim(job.externalUrl) != ""
  }

  /** A pending success carries a delivery reference: the call checked it before writing. */
  predicate CallSound(call: Pending) {
    call.Recording? && IsSuccess(call.input) ==>
      Trim(call.input.externalPostId) != "" || Trim(call.input.externalUrl) != ""
  }

  predicate IsSuccess(input: RecordInput) {
    !input.reconciliationRequired && !IsError(input.error)
  }

  predicate CallsSound(w: World) {
    forall i :: 0 <= i < |w.pending| ==> CallSound(w.pending[i])
  }

  lemma StepKeepsCallsSound(w: World, step: Step)
    requires CallsSound(w)
    ensures CallsSound(Next(w, step))
  {
  }

  // The three ways a step can change what a job's confirmation looks like

  /** A success confirms; an unconditional write hits a job already confirmed, keeping its outcome or not. */
  datatype Turn = Confirms | Overwrites | Unconfirms

  function CallTurn(db: Db, call: Pending, id: nat): Option<Turn> {
    if id >= |db.jobs| then None
    else
      match call
      case Requesting(_) => None
      case Recording(input, _) =>
        if input.jobId == id && HasJob(db, input.organisationId, id) && IsSuccess(input) && !Final(db.jobs[id])
        then Some(Confirms) else None
      case Cancelling(jobId, _) => if jobId == id && db.jobs[id].outcome == Confirmed then Some(Overwrites) else None
      case Deleting(jobId, _, _) => if jobId == id && db.jobs[id].outcome == Confirmed then Some(Overwrites) else None
      case Stamping(jobId, _) => if jobId == id && db.jobs[id].outcome == Confirmed then Some(Unconfirms) else None
  }

  function TurnOf(w: World, step: Step, id: nat): Option<Turn> {
    if step.Finish? && step.call < |w.pending| then CallTurn(w.db, w.pending[step.call], id) else None
  }

  function Later(last: Option<Turn>, turn: Option<Turn>): Option<Turn> {
    if turn.Some? then turn else last
  }

  /** The last turn of a job in a run, `last` if the run has none. */
  function LastTurn(w: World, steps: seq<Step>, id: nat, last: Option<Turn>): Option<Turn>
    decreases |steps|
  {
    if steps == [] then last else LastTurn(Next(w, steps[0]), steps[1..], id, Later(last, TurnOf(w, steps[0], id)))
  }

  lemma TurnCases(last: Option<Turn>)
    ensures last in {None, Some(Confirms), Some(Overwrites), Some(Unconfirms)}
  {
    if last.Some? {
      match last.value
      case Confirms =>
      case Overwrites =>
      case Unconfirms =>
    }
  }

  /** What a job and its events look like after its last turn. */
  predicate JobFits(db: Db, id: nat, last: Option<Turn>) {
    && PublishedEvents(db.events, id) == (if last.None? then 0 else 1)
    && if id >= |db.jobs| then last.None? else Fits(db.jobs[id], last)
  }

  predicate Fits(job: Job, last: Option<Turn>) {
    && (job.status == JobPublished <==> last == Some(Confirms))
    && (job.outcome == Confirmed <==> last == Some(Confirms) || last == Some(Overwrites))
    && (job.outcome == Confirmed ==> HasDelivery(job) && job.status in {JobPublished, JobCancelled, JobReconciliation})
  }

  /** The transaction of a publish request leaves every existing job as it is and adds at most one, pending. */
  lemma RequestKeepsRows(db: Db, request: PublishRequest)
    ensures
      var after := CommitRequest(db, request).0;
      && db.jobs <= after.jobs
      && (after == db || (|after.jobs| == |db.jobs| + 1
                          && after.jobs[|db.jobs|].status == JobPendingApproval
                          && after.jobs[|db.jobs|].outcome == Prepared
                          && after.events == AppendEvent(db.events, DomainEvent(PublishRequested, |db.jobs|))
                          && after.pieces == db.pieces && after.versions == db.versions))
  {
    assert EvaluateToolPolicy(Some(Publish), NO_MODES) == RequireApproval;
  }

  /** The operations that write to a job in a single step. */
  predicate ChangesJob(step: Step) {
    step.Approve? || step.Reject? || step.Claim? || step.CancelDuplicate? || step.MarkFailed? ||
    step.MarkReconciliation? || step.PartialPost?
  }

  lemma EditsLeaveJobs(db: Db, step: Step)
    requires !ChangesJob(step)
    ensures Operate(db, step).jobs == db.jobs && Operate(db, step).events == db.events
  {
  }

  function AfterReferences(job: Job, step: Step, id: nat): Job {
    if step.PartialPost? && step.jobId == id then WithReferences(job, step.postId, step.url) else job
  }

  /** The job after an operation still fits its last turn; a confirmed one only takes references. */
  predicate JobKept(db: Db, step: Step, id: nat, last: Option<Turn>, after: Db)
    requires id < |db.jobs|
  {
    && id < |after.jobs| && Fits(after.jobs[id], last) && after.jobs[id].pieceId == db.jobs[id].pieceId
    && (db.jobs[id].outcome == Confirmed ==> after.jobs[id] == AfterReferences(db.jobs[id], step, id))
  }

  lemma ClaimKeepsJob(db: Db, step: Step, id: nat, last: Option<Turn>, after: Db)
    requires step.Claim?
    requires id < |db.jobs| && Fits(db.jobs[id], last) && after == Operate(db, step)
    ensures JobKept(db, step, id, last, after)
  {
  }

  lemma DuplicateKeepsJob(db: Db, step: Step, id: nat, last: Option<Turn>, after: Db)
    requires step.CancelDuplicate?
    requires id < |db.jobs| && Fits(db.jobs[id], last) && after == Operate(db, step)
    ensures JobKept(db, step, id, last, after)
  {
  }

  lemma MarkKeepsJob(db: Db, step: Step, id: nat, last: Option<Turn>, after: Db)
    requires step.MarkFailed? || step.MarkReconciliation?
    requires id < |db.jobs| && Fits(db.jobs[id], last) && after == Operate(db, step)
    ensures JobKept(db, step, id, last, after)
  {
  }

  lemma ReferencesKeepFit(job: Job, postId: string, url: string, last: Option<Turn>, after: Job)
    requires Fits(job, last) && after == WithReferences(job, postId, url)
    ensures Fits(after, last) && after.pieceId == job.pieceId && after.outcome == job.outcome
  {
    TrimKeepsTrimmed(postId);
    TrimKeepsTrimmed(url);
  }

  lemma PartialKeepsJob(db: Db, step: Step, id: nat, last: Option<Turn>, after: Db)
    requires step.PartialPost?
    requires id < |db.jobs| && Fits(db.jobs[id], last) && after == Operate(db, step)
    ensures JobKept(db, step, id, last, after)
  {
    if step.jobId == id {
      ReferencesKeepFit(db.jobs[id], step.postId, step.url, last, after.jobs[id]);
    }
  }

  lemma ApproveKeepsJob(db: Db, step: Step, id: nat, last: Option<Turn>, after: Db)
    requires step.Approve? || step.Reject?
    requires id < |db.jobs| && Fits(db.jobs[id], last) && after == Operate(db, step)
    ensures JobKept(db, step, id, last, after)
  {
  }

  /** What an atomic operation does to one existing job that fits its last turn. */
  lemma OperateKeepsJob(db: Db, step: Step, id: nat, last: Option<Turn>, after: Db)
    requires id < |db.jobs| && Fits(db.jobs[id], last) && after == Operate(db, step)
    ensures JobKept(db, step, id, last, after)
  {
    if !ChangesJob(step) {
      EditsLeaveJobs(db, step);
    } else if step.MarkFailed? || step.MarkReconciliation? {
      MarkKeepsJob(db, step, id, last, after);
    } else if step.PartialPost? {
      PartialKeepsJob(db, step, id, last, after);
    } else if step.Approve? || step.Reject? {
      ApproveKeepsJob(db, step, id, last, after);
    } else if step.Claim? {
      ClaimKeepsJob(db, step, id, last, after);
    } else {
      DuplicateKeepsJob(db, step, id, last, after);
    }
  }

  lemma OperateKeepsEvents(db: Db, step: Step, id: nat)
    ensures PublishedEvents(Operate(db, step).events, id) == PublishedEvents(db.events, id)
  {
    if !ChangesJob(step) {
      EditsLeaveJobs(db, step);
    } else if step.MarkFailed? {
      PublishedEventsAppend(db.events, DomainEvent(PublishFailed, step.jobId), id);
    } else if step.MarkReconciliation? {
      PublishedEventsAppend(db.events, DomainEvent(PublishUnreconciled, step.jobId), id);
    }
  }

  /** Every job a step adds awaits approval and has not been dispatched. */
  lemma NewJobIsPending(w: World, step: Step, id: nat)
    ensures var jobs := Next(w, step).db.jobs;
            |w.db.jobs| <= id < |jobs| ==> jobs[id].status == JobPendingApproval && jobs[id].outcome == Prepared
  {
    if step.Finish? {
      if step.call < |w.pending| {
        FinishKeepsJobs(w.db, w.pending[step.call]);
      }
    } else if !Begins(step) {
      OperateAddsNoJob(w.db, step);
    }
  }

  lemma OperateAddsNoJob(db: Db, step: Step)
    ensures |Operate(db, step).jobs| == |db.jobs|
  {
    if !ChangesJob(step) {
      EditsLeaveJobs(db, step);
    }
  }

  /** Only the transaction of a publish request adds a job. */
  lemma FinishKeepsJobs(db: Db, call: Pending)
    ensures call.Requesting? || |FinishCall(db, call).jobs| == |db.jobs|
    ensures var jobs := FinishCall(db, call).jobs;
            |jobs| > |db.jobs| ==> |jobs| == |db.jobs| + 1 && jobs[|db.jobs|].status == JobPendingApproval
                                   && jobs[|db.jobs|].outcome == Prepared
  {
    if call.Requesting? {
      RequestKeepsRows(db, call.request);
    }
  }

  lemma OperateKeepsFit(w: World, step: Step, id: nat, last: Option<Turn>)
    requires JobFits(w.db, id, last) && !Begins(step) && !step.Finish?
    ensures JobFits(Next(w, step).db, id, last)
  {
    OperateKeepsEvents(w.db, step, id);
    OperateAddsNoJob(w.db, step);
    if id < |w.db.jobs| {
      OperateKeepsJob(w.db, step, id, last, Operate(w.db, step));
    }
  }

  lemma RequestKeepsFit(db: Db, request: PublishRequest, id: nat, last: Option<Turn>)
    requires JobFits(db, id, last)
    ensures JobFits(CommitRequest(db, request).0, id, last)
  {
    RequestKeepsRows(db, request);
    PublishedEventsAppend(db.events, DomainEvent(PublishRequested, |db.jobs|), id);
  }

  lemma FailureKeepsFit(db: Db, input: RecordInput, seenError: Option<string>, id: nat, last: Option<Turn>, after: Db)
    requires JobFits(db, id, last) && !IsSuccess(input) && after == CommitPublishResult(db, input, seenError)
    ensures JobFits(after, id, last)
  {
    PublishedEventsAppend(db.events, DomainEvent(PublishUnreconciled, input.jobId), id);
    PublishedEventsAppend(db.events, DomainEvent(PublishFailed, input.jobId), id);
  }

  lemma SuccessKeepsFit(db: Db, input: RecordInput, seenError: Option<string>, id: nat, last: Option<Turn>, after: Db)
    requires JobFits(db, id, last) && IsSuccess(input) && CallSound(Recording(input, seenError))
    requires after == CommitPublishResult(db, input, seenError)
    ensures JobFits(after, id, Later(last, CallTurn(db, Recording(input, seenError), id)))
  {
    PublishedEventsAppend(db.events, DomainEvent(ContentPublished, input.jobId), id);
  }

  lemma RecordKeepsFit(db: Db, input: RecordInput, seenError: Option<string>, id: nat, last: Option<Turn>)
    requires JobFits(db, id, last) && CallSound(Recording(input, seenError))
    ensures JobFits(CommitPublishResult(db, input, seenError), id,
                    Later(last, CallTurn(db, Recording(input, seenError), id)))
  {
    if IsSuccess(input) {
      SuccessKeepsFit(db, input, seenError, id, last, CommitPublishResult(db, input, seenError));
    } else {
      FailureKeepsFit(db, input, seenError, id, last, CommitPublishResult(db, input, seenError));
    }
  }

  lemma FinishKeepsFit(db: Db, call: Pending, id: nat, last: Option<Turn>)
    requires JobFits(db, id, last) && CallSound(call)
    ensures JobFits(FinishCall(db, call), id, Later(last, CallTurn(db, call, id)))
  {
    if call.Recording? {
      RecordKeepsFit(db, call.input, call.seenError, id, last);
    } else if call.Requesting? {
      RequestKeepsFit(db, call.request, id, last);
    }
  }

  lemma StepKeepsFit(w: World, step: Step, id: nat, last: Option<Turn>)
    requires CallsSound(w) && JobFits(w.db, id, last)
    ensures JobFits(Next(w, step).db, id, Later(last, TurnOf(w, step, id)))
  {
    if step.Finish? {
      if step.call < |w.pending| {
        FinishKeepsFit(w.db, w.pending[step.call], id, last);
      }
    } else if !Begins(step) {
      OperateKeepsFit(w, step, id, last);
    }
  }

  lemma {:induction false} RunKeepsFit(w: World, steps: seq<Step>, id: nat, last: Option<Turn>)
    requires CallsSound(w) && JobFits(w.db, id, last)
    ensures JobFits(Run(w, steps).db, id, LastTurn(w, steps, id, last))
    ensures CallsSound(Run(w, steps))
    decreases |steps|
  {
    if steps != [] {
      StepKeepsFit(w, steps[0], id, last);
      StepKeepsCallsSound(w, steps[0]);
      RunKeepsFit(Next(w, steps[0]), steps[1..], id, Later(last, TurnOf(w, steps[0], id)));
    }
  }

  /**
   * The publishing ledger of every job, in every run with any interleaving of overlapping calls.
   * A job is published exactly when its last turn was a success. It is confirmed exactly when
   * that was a success or a write that kept the outcome (a late cancellation or deletion notice),
   * and then it has a non-blank post id or URL. It has one CONTENT_PUBLISHED event exactly when it
   * was ever confirmed, and never more than one.
   */
  lemma PublishedExactlyWhenConfirmed(steps: seq<Step>, id: nat)
    requires id < |Run(EMPTY, steps).db.jobs|
    ensures
      var db, last := Run(EMPTY, steps).db, LastTurn(EMPTY, steps, id, None);
      var job := db.jobs[id];
      && (job.status == JobPublished <==> last == Some(Confirms))
      && (job.outcome == Confirmed <==> last == Some(Confirms) || last == Some(Overwrites))
      && (job.outcome == Confirmed ==> HasDelivery(job))
      && PublishedEvents(db.events, id) == (if last.None? then 0 else 1)
  {
    RunKeepsFit(EMPTY, steps, id, None);
  }

  // When status, outcome and event log agree

  predicate Agrees(db: Db, id: nat) {
    id < |db.jobs| ==>
      && (db.jobs[id].status == JobPublished <==> db.jobs[id].outcome == Confirmed)
      && (PublishedEvents(db.events, id) == 1 <==> db.jobs[id].outcome == Confirmed)
  }

  predicate AgreesThroughout(w: World, steps: seq<Step>, id: nat)
    decreases |steps|
  {
    Agrees(w.db, id) && (steps == [] || AgreesThroughout(Next(w, steps[0]), steps[1..], id))
  }

  /** The calls that write to a job without a condition. */
  predicate Overwriting(call: Pending, id: nat) {
    (call.Cancelling? || call.Deleting? || call.Stamping?) && call.jobId == id
  }

  /** A cancellation, a deletion notice or a reconciliation note writes to a job already confirmed. */
  predicate IsLateWrite(w: World, step: Step, id: nat) {
    && step.Finish? && step.call < |w.pending| && Overwriting(w.pending[step.call], id)
    && id < |w.db.jobs| && w.db.jobs[id].outcome == Confirmed
  }

  predicate NoLateWrite(w: World, steps: seq<Step>, id: nat)
    decreases |steps|
  {
    steps == [] || (!IsLateWrite(w, steps[0], id) && NoLateWrite(Next(w, steps[0]), steps[1..], id))
  }

  lemma FitDecidesAgreement(db: Db, id: nat, last: Option<Turn>)
    requires JobFits(db, id, last)
    ensures Agrees(db, id) <==> last.None? || last == Some(Confirms)
  {
  }

  lemma LateWriteIsTurn(w: World, step: Step, id: nat)
    ensures IsLateWrite(w, step, id) <==> TurnOf(w, step, id) in {Some(Overwrites), Some(Unconfirms)}
  {
  }

  lemma {:induction false} AgreementFrom(w: World, steps: seq<Step>, id: nat, last: Option<Turn>)
    requires CallsSound(w) && JobFits(w.db, id, last)
    ensures AgreesThroughout(w, steps, id) <==> Agrees(w.db, id) && NoLateWrite(w, steps, id)
    decreases |steps|
  {
    FitDecidesAgreement(w.db, id, last);
    if steps != [] {
      var next, turned := Next(w, steps[0]), Later(last, TurnOf(w, steps[0], id));
      StepKeepsFit(w, steps[0], id, last);
      StepKeepsCallsSound(w, steps[0]);
      LateWriteIsTurn(w, steps[0], id);
      FitDecidesAgreement(next.db, id, turned);
      AgreementFrom(next, steps[1..], id, turned);
    }
  }

  /**
   * Status, outcome and event log of a job agree all through a run if and only if no cancellation,
   * deletion notice or reconciliation note writes to the job after it was confirmed.
   */
  lemma AgreementOverRuns(steps: seq<Step>, id: nat)
    ensures AgreesThroughout(EMPTY, steps, id) <==> NoLateWrite(EMPTY, steps, id)
  {
    AgreementFrom(EMPTY, steps, id, None);
  }

  /** At the end of a run from nothing they agree if and only if the last turn was no late write. */
  lemma AgreementAtEnd(steps: seq<Step>, id: nat)
    ensures var last := LastTurn(EMPTY, steps, id, None);
            Agrees(Run(EMPTY, steps).db, id) <==> last != Some(Overwrites) && last != Some(Unconfirms)
  {
    RunKeepsFit(EMPTY, steps, id, None);
    TurnCases(LastTurn(EMPTY, steps, id, None));
    FitDecidesAgreement(Run(EMPTY, steps).db, id, LastTurn(EMPTY, steps, id, None));
  }

  /** The step finishes a successful result with a delivery reference, and shows it in the job and the events. */
  predicate Confirming(w: World, step: Step, id: nat) {
    && step.Finish? && step.call < |w.pending| && w.pending[step.call].Recording?
    && var input, after := w.pending[step.call].input, Next(w, step).db;
       && input.jobId == id && IsSuccess(input)
       && (Trim(input.externalPostId) != "" || Trim(input.externalUrl) != "")
       && id < |after.jobs| && after.jobs[id].status == JobPublished
       && after.jobs[id].externalPostId == input.externalPostId && after.jobs[id].externalUrl == input.externalUrl
       && DomainEvent(ContentPublished, id) in after.events
  }

  lemma SuccessStepConfirms(w: World, step: Step, id: nat, last: Option<Turn>)
    requires CallsSound(w) && JobFits(w.db, id, last)
    requires id < |Next(w, step).db.jobs| && Next(w, step).db.jobs[id].outcome == Confirmed
    requires id >= |w.db.jobs| || w.db.jobs[id].outcome != Confirmed
    ensures Confirming(w, step, id)
  {
    StepKeepsFit(w, step, id, last);
    NoPublishedEvents(Next(w, step).db.events, id);
    assert TurnOf(w, step, id) == Some(Confirms);
    assert CallSound(w.pending[step.call]);
  }

  /**
   * In every run a job becomes confirmed only when a successful result with a delivery reference
   * finishes, which publishes the job with that reference and logs the event in the same step.
   */
  lemma OnlySuccessConfirms(steps: seq<Step>, step: Step, id: nat)
    requires var db := Run(EMPTY, steps).db; id < |db.jobs| ==> db.jobs[id].outcome != Confirmed
    requires var after := Next(Run(EMPTY, steps), step).db; id < |after.jobs| && after.jobs[id].outcome == Confirmed
    ensures Confirming(Run(EMPTY, steps), step, id)
  {
    RunKeepsFit(EMPTY, steps, id, None);
    SuccessStepConfirms(Run(EMPTY, steps), step, id, LastTurn(EMPTY, steps, id, None));
  }

  // What a confirmed job keeps

  /** A step that changes the row of a published and confirmed job. */
  predicate Rewrites(w: World, step: Step, id: nat) {
    || IsLateWrite(w, step, id)
    || (step.PartialPost? && step.jobId == id && id < |w.db.jobs| &&
        WithReferences(w.db.jobs[id], step.postId, step.url) != w.db.jobs[id])
  }

  predicate NoRewrite(w: World, steps: seq<Step>, id: nat)
    decreases |steps|
  {
    steps == [] || (!Rewrites(w, steps[0], id) && NoRewrite(Next(w, steps[0]), steps[1..], id))
  }

  predicate RowKept(w: World, steps: seq<Step>, id: nat, job: Job)
    decreases |steps|
  {
    id < |w.db.jobs| && w.db.jobs[id] == job && (steps == [] || RowKept(Next(w, steps[0]), steps[1..], id, job))
  }

  lemma ConfirmedJobStep(w: World, step: Step, id: nat)
    requires id < |w.db.jobs| && Fits(w.db.jobs[id], Some(Confirms))
    ensures id < |Next(w, step).db.jobs|
    ensures Next(w, step).db.jobs[id] == w.db.jobs[id] <==> !Rewrites(w, step, id)
  {
    if step.Finish? {
      if step.call < |w.pending| {
        FinishRewrites(w.db, w.pending[step.call], id);
      }
    } else if !Begins(step) {
      OperateKeepsJob(w.db, step, id, Some(Confirms), Operate(w.db, step));
    }
  }

  lemma FinishRewrites(db: Db, call: Pending, id: nat)
    requires id < |db.jobs| && Fits(db.jobs[id], Some(Confirms))
    ensures id < |FinishCall(db, call).jobs|
    ensures FinishCall(db, call).jobs[id] == db.jobs[id] <==> !Overwriting(call, id)
  {
    if call.Requesting? {
      RequestKeepsRows(db, call.request);
    }
  }

  lemma {:induction false} RowKeptFrom(w: World, steps: seq<Step>, id: nat)
    requires id < |w.db.jobs| && Fits(w.db.jobs[id], Some(Confirms))
    ensures RowKept(w, steps, id, w.db.jobs[id]) <==> NoRewrite(w, steps, id)
    decreases |steps|
  {
    if steps != [] {
      ConfirmedJobStep(w, steps[0], id);
      if !Rewrites(w, steps[0], id) {
        RowKeptFrom(Next(w, steps[0]), steps[1..], id);
      }
    }
  }

  /**
   * The row of a published job stays as it is all through the rest of a run if and only if no
   * late write hits it and no partial-delivery notice brings it another post id or URL.
   */
  lemma ConfirmedJobNeverChanges(before: seq<Step>, steps: seq<Step>, id: nat)
    requires id < |Run(EMPTY, before).db.jobs| && Run(EMPTY, before).db.jobs[id].status == JobPublished
    ensures var w := Run(EMPTY, before); RowKept(w, steps, id, w.db.jobs[id]) <==> NoRewrite(w, steps, id)
  {
    RunKeepsFit(EMPTY, before, id, None);
    RowKeptFrom(Run(EMPTY, before), steps, id);
  }

  // Published pieces and their confirmed jobs

  /** The turn a sound job last made, read off its row and events. */
  function Standing(db: Db, id: nat): Option<Turn> {
    if PublishedEvents(db.events, id) == 0 || id >= |db.jobs| then None
    else if db.jobs[id].status == JobPublished then Some(Confirms)
    else if db.jobs[id].outcome == Confirmed then Some(Overwrites) else Some(Unconfirms)
  }

  ghost predicate Sound(w: World) {
    CallsSound(w) && forall id: nat :: JobFits(w.db, id, Standing(w.db, id))
  }

  lemma StepKeepsSound(w: World, step: Step)
    requires Sound(w)
    ensures Sound(Next(w, step))
  {
    StepKeepsCallsSound(w, step);
    var after := Next(w, step).db;
    forall id: nat
      ensures JobFits(after, id, Standing(after, id))
    {
      StepKeepsFit(w, step, id, Standing(w.db, id));
      FitIsStanding(after, id, Later(Standing(w.db, id), TurnOf(w, step, id)));
    }
  }

  lemma FitIsStanding(db: Db, id: nat, last: Option<Turn>)
    requires JobFits(db, id, last)
    ensures last == Standing(db, id)
  {
    TurnCases(last);
  }

  predicate Backs(db: Db, pieceId: nat, job: nat) {
    job < |db.jobs| && db.jobs[job].pieceId == pieceId && db.jobs[job].outcome == Confirmed
  }

  /** Every published piece has a confirmed job. */
  ghost predicate PiecesBacked(db: Db) {
    forall p: nat :: p < |db.pieces| && db.pieces[p].status == Published ==> exists job: nat :: Backs(db, p, job)
  }

  /** A reconciliation note takes the confirmation of the only confirmed job of a published piece. */
  ghost predicate Unbacks(w: World, step: Step) {
    && step.Finish? && step.call < |w.pending| && w.pending[step.call].Stamping?
    && var id := w.pending[step.call].jobId;
       && id < |w.db.jobs| && w.db.jobs[id].outcome == Confirmed
       && var p := w.db.jobs[id].pieceId;
          && p < |w.db.pieces| && w.db.pieces[p].status == Published
          && forall job: nat :: Backs(w.db, p, job) ==> job == id
  }

  lemma ConfirmedStays(w: World, step: Step, p: nat, job: nat)
    requires Sound(w) && Backs(w.db, p, job) && TurnOf(w, step, job) != Some(Unconfirms)
    ensures Backs(Next(w, step).db, p, job)
  {
    assert JobFits(w.db, job, Standing(w.db, job));
    StepKeepsFit(w, step, job, Standing(w.db, job));
    if !Begins(step) && !step.Finish? {
      OperateKeepsJob(w.db, step, job, Standing(w.db, job), Operate(w.db, step));
    }
  }

  /** A piece is published by the step that confirms its job, and by nothing else. */
  lemma OnlySuccessPublishes(w: World, step: Step, p: nat)
    requires p < |Next(w, step).db.pieces| && Next(w, step).db.pieces[p].status == Published
    requires p >= |w.db.pieces| || w.db.pieces[p].status != Published
    ensures step.Finish? && step.call < |w.pending| && w.pending[step.call].Recording?
    ensures Backs(Next(w, step).db, p, w.pending[step.call].input.jobId)
  {
    if !Begins(step) && !step.Finish? {
      OperatePublishesNothing(w.db, step, p);
    }
  }

  lemma OperatePublishesNothing(db: Db, step: Step, p: nat)
    requires p < |Operate(db, step).pieces| && Operate(db, step).pieces[p].status == Published
    ensures p < |db.pieces| && db.pieces[p].status == Published
  {
  }

  lemma StepKeepsBacking(w: World, step: Step, p: nat)
    requires Sound(w) && PiecesBacked(w.db) && !Unbacks(w, step)
    requires p < |Next(w, step).db.pieces| && Next(w, step).db.pieces[p].status == Published
    ensures exists job: nat :: Backs(Next(w, step).db, p, job)
  {
    if p >= |w.db.pieces| || w.db.pieces[p].status != Published {
      OnlySuccessPublishes(w, step, p);
    } else {
      var job: nat :| Backs(w.db, p, job);
      if TurnOf(w, step, job) == Some(Unconfirms) {
        var other: nat :| Backs(w.db, p, other) && other != job;
        ConfirmedStays(w, step, p, other);
      } else {
        ConfirmedStays(w, step, p, job);
      }
    }
  }

  lemma UnbackingStep(w: World, step: Step)
    requires Sound(w) && Unbacks(w, step)
    ensures !PiecesBacked(Next(w, step).db)
  {
    var after, id := Next(w, step).db, w.pending[step.call].jobId;
    var p := w.db.jobs[id].pieceId;
    assert after.pieces[p].status == Published;
    forall job: nat
      ensures !Backs(after, p, job)
    {
      assert Backs(after, p, job) ==> job != id && Backs(w.db, p, job);
    }
  }

  ghost predicate BackedThroughout(w: World, steps: seq<Step>)
    decreases |steps|
  {
    PiecesBacked(w.db) && (steps == [] || BackedThroughout(Next(w, steps[0]), steps[1..]))
  }

  ghost predicate NoUnbacking(w: World, steps: seq<Step>)
    decreases |steps|
  {
    steps == [] || (!Unbacks(w, steps[0]) && NoUnbacking(Next(w, steps[0]), steps[1..]))
  }

  lemma {:induction false} BackingOverRuns(w: World, steps: seq<Step>)
    requires Sound(w)
    ensures BackedThroughout(w, steps) <==> PiecesBacked(w.db) && NoUnbacking(w, steps)
    decreases |steps|
  {
    if steps != [] {
      var next := Next(w, steps[0]);
      StepKeepsSound(w, steps[0]);
      if PiecesBacked(w.db) {
        if Unbacks(w, steps[0]) {
          UnbackingStep(w, steps[0]);
        } else {
          forall p: nat | p < |next.db.pieces| && next.db.pieces[p].status == Published
            ensures exists job: nat :: Backs(next.db, p, job)
          {
            StepKeepsBacking(w, steps[0], p);
          }
        }
      }
      BackingOverRuns(next, steps[1..]);
    }
  }

  /**
   * From nothing, every published piece has a confirmed job all through a run if and only if no
   * reconciliation note takes the last confirmation of a published piece.
   */
  lemma PublishedPiecesAreBacked(steps: seq<Step>)
    ensures BackedThroughout(EMPTY, steps) <==> NoUnbacking(EMPTY, steps)
  {
    BackingOverRuns(EMPTY, steps);
  }

  // Late writes do happen

  lemma RunFirst(w: World, step: Step, rest: seq<Step>)
    ensures Run(w, [step] + rest) == Run(Next(w, step), rest)
  {
    assert ([step] + rest)[1..] == rest;
  }

  lemma RunFour(w: World, a: Step, b: Step, c: Step, d: Step)
    ensures Run(w, [a, b, c, d]) == Next(Next(Next(Next(w, a), b), c), d)
  {
    assert [a, b, c, d] == [a] + [b, c, d];
    RunFirst(w, a, [b, c, d]);
    RunThree(Next(w, a), b, c, d);
  }

  lemma RunThree(w: World, b: Step, c: Step, d: Step)
    ensures Run(w, [b, c, d]) == Next(Next(Next(w, b), c), d)
  {
    var w1 := Next(w, b);
    var w2 := Next(w1, c);
    assert [b, c, d] == [b] + [c, d] && [c, d] == [c] + [d] && [d] == [d] + [];
    RunFirst(w, b, [c, d]);
    RunFirst(w1, c, [d]);
    RunFirst(w2, d, []);
  }

  /** The last call of a world finishes. */
  lemma FinishLast(db: Db, pending: seq<Pending>, call: Pending, after: World)
    requires after == Next(World(db, pending + [call]), Finish(|pending|))
    ensures after == World(FinishCall(db, call), pending)
  {
    assert (pending + [call])[..|pending|] + (pending + [call])[|pending| + 1..] == pending;
  }

  lemma BeginsCall(w: World, step: Step, call: Pending, after: World)
    requires Begins(step) && Opened(w.db, step) == Some(call) && after == Next(w, step)
    ensures after == World(w.db, w.pending + [call])
  {
  }

  /** Two calls begin, the second finishes, then the first. */
  lemma Overlapping(w: World, first: Step, second: Step, one: Pending, two: Pending)
    requires Begins(first) && Opened(w.db, first) == Some(one) && Begins(second) && Opened(w.db, second) == Some(two)
    ensures Run(w, [first, second, Finish(|w.pending| + 1), Finish(|w.pending|)])
         == World(FinishCall(FinishCall(w.db, two), one), w.pending)
  {
    var n := |w.pending|;
    RunFour(w, first, second, Finish(n + 1), Finish(n));
    var w1 := Next(w, first);
    var w2 := Next(w1, second);
    var w3 := Next(w2, Finish(n + 1));
    BeginsCall(w, first, one, w1);
    BeginsCall(w1, second, two, w2);
    FinishLast(w.db, w.pending + [one], two, w3);
    FinishLast(w3.db, w.pending, one, Next(w3, Finish(n)));
  }

  /** One call after the other. */
  lemma Sequential(w: World, first: Step, second: Step, one: Pending, two: Pending)
    requires Begins(first) && Opened(w.db, first) == Some(one)
    requires Begins(second) && Opened(FinishCall(w.db, one), second) == Some(two)
    ensures Run(w, [first, Finish(|w.pending|), second, Finish(|w.pending|)])
         == World(FinishCall(FinishCall(w.db, one), two), w.pending)
  {
    var n := |w.pending|;
    RunFour(w, first, Finish(n), second, Finish(n));
    var w1 := Next(w, first);
    var w2 := Next(w1, Finish(n));
    var w3 := Next(w2, second);
    BeginsCall(w, first, one, w1);
    FinishLast(w.db, w.pending, one, w2);
    BeginsCall(w2, second, two, w3);
    FinishLast(w2.db, w.pending, two, Next(w3, Finish(n)));
  }

  /**
   * The late cancellation is possible on every cancellable job: a cancellation and a successful
   * result both read the job, the result is written, then the cancellation. The job ends up
   * confirmed, with its CONTENT_PUBLISHED event, and marked cancelled.
   */
  lemma CancelRacingSuccessDisagrees(w: World, input: RecordInput, reason: string, last: Option<Turn>)
    requires JobFits(w.db, input.jobId, last)
    requires HasJob(w.db, input.organisationId, input.jobId) && MayCancel(w.db.jobs[input.jobId])
    requires IsSuccess(input) && (Trim(input.externalPostId) != "" || Trim(input.externalUrl) != "")
    ensures
      var n := |w.pending|;
      var steps := [BeginCancel(input.jobId, reason), BeginRecord(input), Finish(n + 1), Finish(n)];
      var after := Run(w, steps).db;
      && input.jobId < |after.jobs|
      && after.jobs[input.jobId].outcome == Confirmed
      && after.jobs[input.jobId].status == JobCancelled
      && PublishedEvents(after.events, input.jobId) == 1
  {
    var id := input.jobId;
    var cancel, record := Cancelling(id, reason), Recording(input, w.db.jobs[id].error);
    Overlapping(w, BeginCancel(id, reason), BeginRecord(input), cancel, record);
    RecordKeepsFit(w.db, input, w.db.jobs[id].error, id, last);
    CancelMarks(FinishCall(w.db, record), id, reason);
  }

  lemma CancelMarks(db: Db, id: nat, reason: string)
    requires id < |db.jobs| && JobFits(db, id, Some(Confirms))
    ensures var after := CommitCancel(db, id, reason);
            && id < |after.jobs| && after.jobs[id].outcome == Confirmed && after.jobs[id].status == JobCancelled
            && PublishedEvents(after.events, id) == 1
  {
  }

  /**
   * Without any overlap: a deletion notice for a confirmed job, then a reconciliation that settles
   * nothing. The job ends up unconfirmed, with its CONTENT_PUBLISHED event.
   */
  lemma DeletionThenReconcileLosesConfirmation(w: World, id: nat, note: string, error: string)
    requires id < |w.db.jobs| && JobFits(w.db, id, Some(Confirms))
    ensures
      var n := |w.pending|;
      var steps := [BeginDelete(id, note, error), Finish(n), BeginReconcile(id, note), Finish(n)];
      var after := Run(w, steps).db;
      && id < |after.jobs|
      && after.jobs[id].outcome == Unreconciled && after.jobs[id].status == JobReconciliation
      && PublishedEvents(after.events, id) == 1
  {
    var deleted := CommitDeletion(w.db, id, note, error);
    var stamped := StampNote(deleted, id, note);
    DeletionAllowsStamp(w.db, id, note, error, deleted);
    StampMarks(deleted, id, note, stamped);
    DeletionThenReconcile(w, id, note, error, stamped);
  }

  lemma DeletionThenReconcile(w: World, id: nat, note: string, error: string, after: Db)
    requires id < |w.db.jobs| && JobFits(w.db, id, Some(Confirms))
    requires after == StampNote(CommitDeletion(w.db, id, note, error), id, note)
    ensures var n := |w.pending|;
            Run(w, [BeginDelete(id, note, error), Finish(n), BeginReconcile(id, note), Finish(n)]) == World(after, w.pending)
  {
    DeletionAllowsStamp(w.db, id, note, error, CommitDeletion(w.db, id, note, error));
    Sequential(w, BeginDelete(id, note, error), BeginReconcile(id, note), Deleting(id, note, error), Stamping(id, note));
  }

  lemma DeletionAllowsStamp(db: Db, id: nat, note: string, error: string, deleted: Db)
    requires id < |db.jobs| && JobFits(db, id, Some(Confirms)) && deleted == CommitDeletion(db, id, note, error)
    ensures Opened(db, BeginDelete(id, note, error)) == Some(Deleting(id, note, error))
    ensures id < |deleted.jobs| && Opened(deleted, BeginReconcile(id, note)) == Some(Stamping(id, note))
    ensures PublishedEvents(deleted.events, id) == 1
  {
  }

  lemma StampMarks(db: Db, id: nat, note: string, after: Db)
    requires id < |db.jobs| && after == StampNote(db, id, note)
    ensures id < |after.jobs| && after.jobs[id].outcome == Unreconciled && after.jobs[id].status == JobReconciliation
    ensures after.events == db.events
  {
  }
}
