/**
 * Every job as the sum of its writes, every piece's status as the last one given to it and the event
 * log as what each step adds: one table of who writes which column, proved of every step and of
 * every run. It is written down apart from the operations and names none of them.
 */
module ContentLedger {
  import opened Wrappers
  import opened Texts
  import opened ContentModel
  import opened ContentProtocol
  import ContentLifecycle

  /** A write to one job, with what it brings. */
  datatype Write =
    | Approves(future: bool)
    | Rejects(reason: string)
    | Claims
    | GivesUp(reason: string)
    | Cancels(reason: string)
    | Fails(error: string)
    | Unsettles(lastError: Option<string>, note: string)
    | Publishes(postId: string, url: string)
    | Notes(note: string)
    | Deletes(note: string, error: string)
    | Refers(postId: string, url: string)

  function First4000(s: string): string {
    if |s| <= 4000 then s else s[..4000]
  }

  function FirstOf(a: Option<string>, b: Option<string>): Option<string> {
    if a.Some? then a else b
  }

  /** The write a recorded result makes to the job it names, nothing if its guard fails at the write. */
  function ResultWrite(job: Job, input: RecordInput, seen: Option<string>): Option<Write> {
    if input.organisationId != job.organisationId || job.outcome == Confirmed then None
    else if input.reconciliationRequired then
      if job.status == JobPublished then None
      else
        var text := FirstOf(input.note, FirstOf(input.error, Some("Reconciliation required")));
        Some(Unsettles(FirstOf(input.error, seen), First4000(text.value)))
    else if input.error.Some? && input.error.value != "" then Some(Fails(input.error.value))
    else if job.status == JobPublished then None
    else Some(Publishes(input.externalPostId, input.externalUrl))
  }

  /** The write a finishing call makes to job `id`. */
  function CallWrite(job: Job, call: Pending, id: nat): Option<Write> {
    match call
    case Requesting(_) => None
    case Recording(input, seen) => if input.jobId == id then ResultWrite(job, input, seen) else None
    case Cancelling(jobId, reason) => if jobId == id then Some(Cancels(reason)) else None
    case Stamping(jobId, note) => if jobId == id then Some(Notes(First4000(note))) else None
    case Deleting(jobId, note, error) => if jobId == id then Some(Deletes(note, error)) else None
  }

  predicate AwaitsDispatch(job: Job) {
    job.status == JobApproved || job.status == JobQueued || job.status == JobScheduled
  }

  /** The write an atomic operation makes to the job it names. */
  function OperationWrite(job: Job, step: Step): Option<Write> {
    match step
    case Approve(_, future) =>
      if job.status == JobPendingApproval && job.outcome != Confirmed then Some(Approves(future)) else None
    case Reject(_, reason) => if job.status == JobPendingApproval then Some(Rejects(reason)) else None
    case Claim(_) =>
      if AwaitsDispatch(job) && job.outcome != Confirmed && job.outcome != Dispatching && job.outcome != Unreconciled
      then Some(Claims) else None
    case CancelDuplicate(_, reason) => if AwaitsDispatch(job) then Some(GivesUp(reason)) else None
    case MarkFailed(_, error) => if job.outcome != Confirmed then Some(Fails(error)) else None
    case MarkReconciliation(_, note) =>
      if job.outcome != Confirmed then Some(Unsettles(Some(First4000(note)), First4000(note))) else None
    case PartialPost(_, postId, url) => Some(Refers(Trim(postId), Trim(url)))
    case _ => None
  }

  /** The write a step makes to an existing job. */
  function WriteOf(w: World, step: Step, id: nat): Option<Write>
    requires id < |w.db.jobs|
  {
    if step.Finish? then
      if step.call < |w.pending| then CallWrite(w.db.jobs[id], w.pending[step.call], id) else None
    else if ChangesJob(step) && step.jobId == id then OperationWrite(w.db.jobs[id], step)
    else None
  }

  // The columns each write sets

  function StatusSet(write: Write): Option<JobStatus> {
    match write
    case Approves(future) => Some(if future then JobScheduled else JobQueued)
    case Claims => Some(JobDispatching)
    case Rejects(_) => Some(JobCancelled)
    case GivesUp(_) => Some(JobCancelled)
    case Cancels(_) => Some(JobCancelled)
    case Fails(_) => Some(JobFailed)
    case Publishes(_, _) => Some(JobPublished)
    case Unsettles(_, _) => Some(JobReconciliation)
    case Notes(_) => Some(JobReconciliation)
    case Deletes(_, _) => Some(JobReconciliation)
    case Refers(_, _) => None
  }

  function OutcomeSet(write: Write): Option<Outcome> {
    match write
    case Claims => Some(Outcome.Dispatching)
    case Rejects(_) => Some(NotDelivered)
    case Fails(_) => Some(NotDelivered)
    case Publishes(_, _) => Some(Confirmed)
    case Unsettles(_, _) => Some(Unreconciled)
    case Notes(_) => Some(Unreconciled)
    case _ => None
  }

  function ErrorSet(write: Write): Option<Option<string>> {
    match write
    case Claims => Some(None)
    case Publishes(_, _) => Some(None)
    case Rejects(reason) => Some(Some(reason))
    case GivesUp(reason) => Some(Some(reason))
    case Cancels(reason) => Some(Some(reason))
    case Fails(error) => Some(Some(error))
    case Unsettles(error, _) => Some(error)
    case Deletes(_, error) => Some(Some(error))
    case _ => None
  }

  function NoteSet(write: Write): Option<Option<string>> {
    match write
    case Publishes(_, _) => Some(None)
    case GivesUp(_) => Some(Some("Superseded by confirmed sibling — not dispatched"))
    case Unsettles(_, note) => Some(Some(note))
    case Notes(note) => Some(Some(note))
    case Deletes(note, _) => Some(Some(note))
    case _ => None
  }

  function PostSet(write: Write): Option<string> {
    match write
    case Publishes(postId, _) => Some(postId)
    case Refers(postId, _) => if postId != "" then Some(postId) else None
    case _ => None
  }

  function UrlSet(write: Write): Option<string> {
    match write
    case Publishes(_, url) => Some(url)
    case Refers(_, url) => if url != "" then Some(url) else None
    case _ => None
  }

  function Or<T>(written: Option<T>, kept: T): T {
    if written.Some? then written.value else kept
  }

  function Written(job: Job, write: Write): Job {
    job.(status := Or(StatusSet(write), job.status),
         outcome := Or(OutcomeSet(write), job.outcome),
         error := Or(ErrorSet(write), job.error),
         note := Or(NoteSet(write), job.note),
         externalPostId := Or(PostSet(write), job.externalPostId),
         externalUrl := Or(UrlSet(write), job.externalUrl))
  }

  function After(job: Job, write: Option<Write>): Job {
    if write.Some? then Written(job, write.value) else job
  }

  // One step

  lemma RecordingWrites(db: Db, input: RecordInput, seen: Option<string>, id: nat, after: Db)
    requires id < |db.jobs| && after == CommitPublishResult(db, input, seen)
    ensures id < |after.jobs|
    ensures after.jobs[id] == if input.jobId == id then After(db.jobs[id], ResultWrite(db.jobs[id], input, seen)) else db.jobs[id]
  {
  }

  lemma FinishWrites(db: Db, call: Pending, id: nat, after: Db)
    requires id < |db.jobs| && after == FinishCall(db, call)
    ensures id < |after.jobs| && after.jobs[id] == After(db.jobs[id], CallWrite(db.jobs[id], call, id))
  {
    match call
    case Requesting(request) => RequestKeepsRows(db, request);
    case Recording(input, seen) => RecordingWrites(db, input, seen, id, after);
    case _ =>
  }

  /** The job after an atomic operation on a job. */
  predicate WritesAsTold(db: Db, step: Step, id: nat, after: Db)
    requires id < |db.jobs| && ChangesJob(step)
  {
    && id < |after.jobs|
    && after.jobs[id] == After(db.jobs[id], if step.jobId == id then OperationWrite(db.jobs[id], step) else None)
  }

  lemma DecisionWrites(db: Db, step: Step, id: nat, after: Db)
    requires id < |db.jobs| && (step.Approve? || step.Reject?) && after == Operate(db, step)
    requires db.jobs[id].outcome != NotStarted
    ensures WritesAsTold(db, step, id, after)
  {
  }

  lemma ClaimWrites(db: Db, step: Step, id: nat, after: Db)
    requires id < |db.jobs| && (step.Claim? || step.CancelDuplicate?) && after == Operate(db, step)
    requires db.jobs[id].outcome != NotStarted
    ensures WritesAsTold(db, step, id, after)
  {
  }

  lemma MarkWrites(db: Db, step: Step, id: nat, after: Db)
    requires id < |db.jobs| && (step.MarkFailed? || step.MarkReconciliation?) && after == Operate(db, step)
    ensures WritesAsTold(db, step, id, after)
  {
  }

  lemma ReferenceWrites(db: Db, step: Step, id: nat, after: Db)
    requires id < |db.jobs| && step.PartialPost? && after == Operate(db, step)
    ensures WritesAsTold(db, step, id, after)
  {
  }

  lemma OperationWrites(db: Db, step: Step, id: nat, after: Db)
    requires id < |db.jobs| && ChangesJob(step) && after == Operate(db, step)
    requires db.jobs[id].outcome != NotStarted
    ensures WritesAsTold(db, step, id, after)
  {
    if step.Approve? || step.Reject? {
      DecisionWrites(db, step, id, after);
    } else if step.Claim? || step.CancelDuplicate? {
      ClaimWrites(db, step, id, after);
    } else if step.PartialPost? {
      ReferenceWrites(db, step, id, after);
    } else {
      MarkWrites(db, step, id, after);
    }
  }

  /** Every step does to a job exactly what the table says. */
  lemma StepWritesJob(w: World, step: Step, id: nat)
    requires id < |w.db.jobs| && w.db.jobs[id].outcome != NotStarted
    ensures id < |Next(w, step).db.jobs|
    ensures Next(w, step).db.jobs[id] == After(w.db.jobs[id], WriteOf(w, step, id))
  {
    if step.Finish? {
      if step.call < |w.pending| {
        FinishWrites(w.db, w.pending[step.call], id, FinishCall(w.db, w.pending[step.call]));
      }
    } else if !Begins(step) {
      if ChangesJob(step) {
        OperationWrites(w.db, step, id, Operate(w.db, step));
      } else {
        EditsLeaveJobs(w.db, step);
      }
    }
  }

  // The row of a job over a run

  /** What a step writes to job `id`, nothing while there is no such job. */
  function WrittenBy(w: World, step: Step, id: nat): seq<Write> {
    if id < |w.db.jobs| && WriteOf(w, step, id).Some? then [WriteOf(w, step, id).value] else []
  }

  /** All writes to job `id` in a run, in order. */
  function WritesOf(w: World, steps: seq<Step>, id: nat): seq<Write>
    decreases |steps|
  {
    if steps == [] then [] else WrittenBy(w, steps[0], id) + WritesOf(Next(w, steps[0]), steps[1..], id)
  }

  // Each column as the last write that sets it left it; without one, as the job was added

  function LastStatus(writes: seq<Write>): JobStatus {
    if writes == [] then JobPendingApproval
    else Or(StatusSet(writes[|writes| - 1]), LastStatus(writes[..|writes| - 1]))
  }

  function LastOutcome(writes: seq<Write>): Outcome {
    if writes == [] then Prepared
    else Or(OutcomeSet(writes[|writes| - 1]), LastOutcome(writes[..|writes| - 1]))
  }

  function LastError(writes: seq<Write>): Option<string> {
    if writes == [] then None
    else Or(ErrorSet(writes[|writes| - 1]), LastError(writes[..|writes| - 1]))
  }

  function LastNote(writes: seq<Write>): Option<string> {
    if writes == [] then None
    else Or(NoteSet(writes[|writes| - 1]), LastNote(writes[..|writes| - 1]))
  }

  function LastPost(writes: seq<Write>): string {
    if writes == [] then ""
    else Or(PostSet(writes[|writes| - 1]), LastPost(writes[..|writes| - 1]))
  }

  function LastUrl(writes: seq<Write>): string {
    if writes == [] then ""
    else Or(UrlSet(writes[|writes| - 1]), LastUrl(writes[..|writes| - 1]))
  }

  predicate ShowsWrites(job: Job, writes: seq<Write>) {
    && job.status == LastStatus(writes)
    && job.outcome == LastOutcome(writes)
    && job.error == LastError(writes)
    && job.note == LastNote(writes)
    && job.externalPostId == LastPost(writes)
    && job.externalUrl == LastUrl(writes)
  }

  lemma {:induction false} OutcomeIsSet(writes: seq<Write>)
    ensures LastOutcome(writes) != NotStarted
  {
    if writes != [] {
      OutcomeIsSet(writes[..|writes| - 1]);
    }
  }

  lemma OneMoreWrite(job: Job, writes: seq<Write>, write: Write)
    requires ShowsWrites(job, writes)
    ensures ShowsWrites(Written(job, write), writes + [write])
  {
    assert (writes + [write])[..|writes|] == writes;
  }

  predicate Shows(db: Db, id: nat, writes: seq<Write>) {
    if id < |db.jobs| then ShowsWrites(db.jobs[id], writes) else writes == []
  }

  lemma StepShowsWrites(w: World, step: Step, id: nat, writes: seq<Write>)
    requires Shows(w.db, id, writes)
    ensures Shows(Next(w, step).db, id, writes + WrittenBy(w, step, id))
  {
    if id < |w.db.jobs| {
      OutcomeIsSet(writes);
      StepWritesJob(w, step, id);
      if WriteOf(w, step, id).Some? {
        OneMoreWrite(w.db.jobs[id], writes, WriteOf(w, step, id).value);
      } else {
        assert writes + WrittenBy(w, step, id) == writes;
      }
    } else {
      StepAddsJob(w, step);
    }
  }

  lemma Regroup<T>(a: seq<T>, b: seq<T>, c: seq<T>)
    ensures a + (b + c) == (a + b) + c
  {
  }

  lemma {:induction false} RunShowsWrites(w: World, steps: seq<Step>, id: nat, writes: seq<Write>)
    requires Shows(w.db, id, writes)
    ensures Shows(Run(w, steps).db, id, writes + WritesOf(w, steps, id))
    decreases |steps|
  {
    if steps == [] {
      assert writes + WritesOf(w, steps, id) == writes;
    } else {
      var next, written := Next(w, steps[0]), WrittenBy(w, steps[0], id);
      StepShowsWrites(w, steps[0], id, writes);
      RunShowsWrites(next, steps[1..], id, writes + written);
      Regroup(writes, written, WritesOf(next, steps[1..], id));
    }
  }

  /**
   * In every run with any interleaving, each column of a job was left by the last write that sets it:
   * status, outcome, error, note and both references.
   */
  lemma JobShowsLastWriters(steps: seq<Step>, id: nat)
    requires id < |Run(EMPTY, steps).db.jobs|
    ensures ShowsWrites(Run(EMPTY, steps).db.jobs[id], WritesOf(EMPTY, steps, id))
  {
    RunShowsWrites(EMPTY, steps, id, []);
    assert [] + WritesOf(EMPTY, steps, id) == WritesOf(EMPTY, steps, id);
  }

  // Jobs and events that a step adds

  predicate KeyIsFree(jobs: seq<Job>, organisation: string, key: string) {
    forall i :: 0 <= i < |jobs| ==> jobs[i].organisationId != organisation || jobs[i].idempotencyKey != key
  }

  /** The publish request whose transaction the step finishes, if its key is free. */
  function Granted(w: World, step: Step): Option<PublishRequest> {
    if step.Finish? && step.call < |w.pending| && w.pending[step.call].Requesting? &&
       KeyIsFree(w.db.jobs, w.pending[step.call].request.organisationId, w.pending[step.call].request.key)
    then Some(w.pending[step.call].request) else None
  }

  /** The job a granted request adds. */
  function NewJob(request: PublishRequest, approvalId: nat): Job {
    Job(request.organisationId, request.pieceId, request.key, JobPendingApproval, Prepared, Some(approvalId),
        "", "", None, None)
  }

  lemma RequestAddsJob(db: Db, request: PublishRequest, after: Db)
    requires after == CommitRequest(db, request).0
    ensures
      if KeyIsFree(db.jobs, request.organisationId, request.key) then
        && after.jobs == db.jobs + [NewJob(request, |db.approvals|)]
        && after.approvals == db.approvals + [PublishApproval(request.organisationId, |db.jobs|)]
      else after == db
  {
    ContentLifecycle.FindByKeyFinds(db.jobs, request.organisationId, request.key);
    RequestKeepsRows(db, request);
  }

  /** A step adds a job if and only if it grants a request; the job and its approval request are these. */
  lemma StepAddsJob(w: World, step: Step)
    ensures
      var granted, after := Granted(w, step), Next(w, step).db;
      if granted.Some? then
        && after.jobs == w.db.jobs + [NewJob(granted.value, |w.db.approvals|)]
        && after.approvals == w.db.approvals + [PublishApproval(granted.value.organisationId, |w.db.jobs|)]
      else |after.jobs| == |w.db.jobs| && after.approvals == w.db.approvals
  {
    if ContentLifecycle.Enqueues(w, step) {
      RequestAddsJob(w.db, w.pending[step.call].request, Next(w, step).db);
    } else {
      ContentLifecycle.JobIdentityStep(w, step);
    }
  }

  /** What a finishing result writes to the job it names. */
  function CallResult(db: Db, call: Pending): Option<Write> {
    if call.Recording? && call.input.jobId < |db.jobs|
    then ResultWrite(db.jobs[call.input.jobId], call.input, call.seenError) else None
  }

  function ResultOf(w: World, step: Step): Option<Write> {
    if step.Finish? && step.call < |w.pending| then CallResult(w.db, w.pending[step.call]) else None
  }

  /** The event of a recorded result; CONTENT_PUBLISHED is logged once for a job. */
  function ResultEvents(events: seq<DomainEvent>, write: Write, jobId: nat): seq<DomainEvent> {
    match write
    case Fails(_) => [DomainEvent(PublishFailed, jobId)]
    case Unsettles(_, _) => [DomainEvent(PublishUnreconciled, jobId)]
    case Publishes(_, _) =>
      if DomainEvent(ContentPublished, jobId) in events then [] else [DomainEvent(ContentPublished, jobId)]
    case _ => []
  }

  /** What a step adds to the event log; the dispatcher's failures are logged whatever became of the job. */
  function LoggedBy(w: World, step: Step): seq<DomainEvent> {
    if Granted(w, step).Some? then [DomainEvent(PublishRequested, |w.db.jobs|)]
    else if step.MarkFailed? && step.jobId < |w.db.jobs| then [DomainEvent(PublishFailed, step.jobId)]
    else if step.MarkReconciliation? && step.jobId < |w.db.jobs| then [DomainEvent(PublishUnreconciled, step.jobId)]
    else if ResultOf(w, step).Some? then
      ResultEvents(w.db.events, ResultOf(w, step).value, w.pending[step.call].input.jobId)
    else []
  }

  predicate EventsNameJobs(db: Db) {
    forall i :: 0 <= i < |db.events| ==> db.events[i].jobId < |db.jobs|
  }

  lemma RequestLogs(db: Db, request: PublishRequest, after: Db)
    requires EventsNameJobs(db) && after == CommitRequest(db, request).0
    ensures after.events == db.events + if KeyIsFree(db.jobs, request.organisationId, request.key)
                                        then [DomainEvent(PublishRequested, |db.jobs|)] else []
  {
    ContentLifecycle.FindByKeyFinds(db.jobs, request.organisationId, request.key);
    RequestKeepsRows(db, request);
    assert DomainEvent(PublishRequested, |db.jobs|) !in db.events;
  }

  lemma ResultLogs(db: Db, input: RecordInput, seen: Option<string>, after: Db)
    requires after == CommitPublishResult(db, input, seen)
    ensures
      var write := CallResult(db, Recording(input, seen));
      after.events == db.events + if write.Some? then ResultEvents(db.events, write.value, input.jobId) else []
  {
  }

  lemma FinishLogs(w: World, step: Step, after: Db)
    requires EventsNameJobs(w.db) && step.Finish? && after == Next(w, step).db
    ensures after.events == w.db.events + LoggedBy(w, step)
  {
    if step.call < |w.pending| {
      match w.pending[step.call]
      case Requesting(request) => RequestLogs(w.db, request, after);
      case Recording(input, seen) => ResultLogs(w.db, input, seen, after);
      case _ =>
    }
  }

  lemma OperationLogs(w: World, step: Step, after: Db)
    requires !step.Finish? && after == Next(w, step).db
    ensures after.events == w.db.events + LoggedBy(w, step)
  {
    if !Begins(step) && !ChangesJob(step) {
      EditsLeaveJobs(w.db, step);
    }
  }

  lemma LoggedEventsNameJobs(w: World, step: Step, after: Db)
    requires EventsNameJobs(w.db) && after.events == w.db.events + LoggedBy(w, step)
    requires |after.jobs| == |w.db.jobs| + if Granted(w, step).Some? then 1 else 0
    ensures EventsNameJobs(after)
  {
    forall i | 0 <= i < |LoggedBy(w, step)|
      ensures LoggedBy(w, step)[i].jobId < |after.jobs|
    {
    }
  }

  lemma StepLogs(w: World, step: Step)
    requires EventsNameJobs(w.db)
    ensures Next(w, step).db.events == w.db.events + LoggedBy(w, step)
    ensures EventsNameJobs(Next(w, step).db)
  {
    var after := Next(w, step).db;
    if step.Finish? {
      FinishLogs(w, step, after);
    } else {
      OperationLogs(w, step, after);
    }
    StepAddsJob(w, step);
    LoggedEventsNameJobs(w, step, after);
  }

  function LogOf(w: World, steps: seq<Step>): seq<DomainEvent>
    decreases |steps|
  {
    if steps == [] then [] else LoggedBy(w, steps[0]) + LogOf(Next(w, steps[0]), steps[1..])
  }

  lemma {:induction false} LogOverRuns(w: World, steps: seq<Step>)
    requires EventsNameJobs(w.db)
    ensures Run(w, steps).db.events == w.db.events + LogOf(w, steps)
    decreases |steps|
  {
    if steps == [] {
      assert w.db.events + LogOf(w, steps) == w.db.events;
    } else {
      var next := Next(w, steps[0]);
      StepLogs(w, steps[0]);
      LogOverRuns(next, steps[1..]);
      Regroup(w.db.events, LoggedBy(w, steps[0]), LogOf(next, steps[1..]));
    }
  }

  /** In every run the event log is, in order, what the steps add: nothing is lost, doubled or out of place. */
  lemma EventsAreLogged(steps: seq<Step>)
    ensures Run(EMPTY, steps).db.events == LogOf(EMPTY, steps)
  {
    LogOverRuns(EMPTY, steps);
  }

  // Pieces

  /** A rationale, and a link or another origin. */
  predicate Justified(e: Evidence) {
    && Trim(e.rationale) != ""
    && (e.operatorDraft || e.researchJobId != "" || e.trendClusterId != "" || e.agentRunId != ""
        || exists u :: u in e.sourceUrls && IsHttp(u))
  }

  lemma {:induction false} HttpOnlyHolds(urls: seq<string>, url: string)
    ensures url in HttpOnly(urls) <==> url in urls && IsHttp(url)
  {
    if urls != [] {
      HttpOnlyHolds(urls[1..], url);
    }
  }

  /** The evidence check passes if and only if the evidence justifies the piece; then it trims and filters. */
  lemma EvidencePassesWhenJustified(e: Evidence)
    ensures AssertWhyEvidence(e).Ok? <==> Justified(e)
    ensures AssertWhyEvidence(e) == Err(NoRationale) <==> Trim(e.rationale) == ""
    ensures Justified(e) ==>
      var checked := AssertWhyEvidence(e).value;
      && checked.rationale == Trim(e.rationale)
      && (forall u :: u in checked.sourceUrls <==> u in e.sourceUrls && IsHttp(u))
      && checked == e.(rationale := checked.rationale, sourceUrls := checked.sourceUrls)
  {
    forall u
      ensures u in HttpOnly(e.sourceUrls) <==> u in e.sourceUrls && IsHttp(u)
    {
      HttpOnlyHolds(e.sourceUrls, u);
    }
    if HttpOnly(e.sourceUrls) != [] {
      assert HttpOnly(e.sourceUrls)[0] in HttpOnly(e.sourceUrls);
    }
  }

  predicate IsPieceOf(db: Db, p: nat, jobId: nat) {
    && p < |db.pieces| && jobId < |db.jobs|
    && db.jobs[jobId].pieceId == p && db.pieces[p].organisationId == db.jobs[jobId].organisationId
  }

  /** The status a finishing result gives to the piece of its job. */
  function GivenByCall(db: Db, call: Pending, p: nat): Option<PieceStatus> {
    var write := CallResult(db, call);
    if write.None? || !IsPieceOf(db, p, call.input.jobId) then None
    else if write.value.Publishes? then Some(Published)
    else if write.value.Fails? then Some(Failed)
    else None
  }

  /** The status a step gives to an existing piece. */
  function StatusGiven(w: World, step: Step, p: nat): Option<PieceStatus>
    requires p < |w.db.pieces|
  {
    var piece := w.db.pieces[p];
    match step
    case Submit(o, id) => if id == p && piece.organisationId == o && Justified(piece.why) then Some(InReview) else None
    case Decide(o, id, approved) =>
      if id == p && piece.organisationId == o then Some(if approved then Approved else Draft) else None
    case MarkFailed(jobId, _) => if IsPieceOf(w.db, p, jobId) then Some(Failed) else None
    case Finish(call) => if call < |w.pending| then GivenByCall(w.db, w.pending[call], p) else None
    case _ => None
  }

  /** A step that edits the piece; a published or archived one cannot be edited. */
  predicate Edits(w: World, step: Step, p: nat)
    requires p < |w.db.pieces|
  {
    && step.Update? && step.pieceId == p && w.db.pieces[p].organisationId == step.organisationId
    && w.db.pieces[p].status != Published && w.db.pieces[p].status != Archived
  }

  /** The piece after a step: an edit writes the fields it gives, a status is written on its own. */
  function PieceAfter(w: World, step: Step, p: nat): Piece
    requires p < |w.db.pieces|
  {
    var piece := w.db.pieces[p];
    if Edits(w, step, p) then
      piece.(title := if step.newTitle.Some? then Trim(step.newTitle.value) else piece.title,
             body := Or(step.newBody, piece.body),
             platform := Or(step.newPlatform, piece.platform))
    else piece.(status := Or(StatusGiven(w, step, p), piece.status))
  }

  lemma FinishWritesPiece(db: Db, call: Pending, p: nat, after: Db)
    requires p < |db.pieces| && after == FinishCall(db, call)
    ensures |after.pieces| == |db.pieces|
    ensures after.pieces[p] == db.pieces[p].(status := Or(GivenByCall(db, call, p), db.pieces[p].status))
  {
    if call.Requesting? {
      RequestKeepsRows(db, call.request);
    }
  }

  lemma ReviewWritesPiece(w: World, step: Step, p: nat, after: Db)
    requires p < |w.db.pieces| && (step.Submit? || step.Decide?) && after == Operate(w.db, step)
    ensures |w.db.pieces| <= |after.pieces| && after.pieces[p] == PieceAfter(w, step, p)
  {
    EvidencePassesWhenJustified(w.db.pieces[p].why);
  }

  lemma DispatchWritesPiece(w: World, step: Step, p: nat, after: Db)
    requires p < |w.db.pieces| && ChangesJob(step) && after == Operate(w.db, step)
    ensures |w.db.pieces| <= |after.pieces| && after.pieces[p] == PieceAfter(w, step, p)
  {
  }

  lemma EditWritesPiece(w: World, step: Step, p: nat, after: Db)
    requires p < |w.db.pieces| && (step.Update? || step.CreateDraft? || step.CreateFromBrief?) && after == Operate(w.db, step)
    ensures |w.db.pieces| <= |after.pieces| && after.pieces[p] == PieceAfter(w, step, p)
  {
  }

  /** Every step does to a piece exactly what the table says. */
  lemma StepWritesPiece(w: World, step: Step, p: nat)
    requires p < |w.db.pieces|
    ensures p < |Next(w, step).db.pieces| && Next(w, step).db.pieces[p] == PieceAfter(w, step, p)
  {
    var after := Next(w, step).db;
    if step.Finish? {
      if step.call < |w.pending| {
        FinishWritesPiece(w.db, w.pending[step.call], p, after);
      }
    } else if step.Submit? || step.Decide? {
      ReviewWritesPiece(w, step, p, after);
    } else if ChangesJob(step) {
      DispatchWritesPiece(w, step, p, after);
    } else if !Begins(step) {
      EditWritesPiece(w, step, p, after);
    }
  }

  /** The review row a step adds. */
  function ReviewAdded(w: World, step: Step): seq<Review> {
    match step
    case Submit(o, id) =>
      if id < |w.db.pieces| && w.db.pieces[id].organisationId == o && Justified(w.db.pieces[id].why)
      then [Review(o, id, ReviewPending)] else []
    case Decide(o, id, approved) =>
      if id < |w.db.pieces| && w.db.pieces[id].organisationId == o
      then [Review(o, id, if approved then ReviewApproved else ReviewRejected)] else []
    case _ => []
  }

  lemma StepAddsReview(w: World, step: Step)
    ensures Next(w, step).db.reviews == w.db.reviews + ReviewAdded(w, step)
  {
    if step.Submit? && step.pieceId < |w.db.pieces| {
      EvidencePassesWhenJustified(w.db.pieces[step.pieceId].why);
    } else if step.Finish? && step.call < |w.pending| {
      FinishAddsNoReview(w.db, w.pending[step.call]);
    }
  }

  lemma FinishAddsNoReview(db: Db, call: Pending)
    ensures FinishCall(db, call).reviews == db.reviews && FinishCall(db, call).briefs == db.briefs
  {
  }

  /** Every piece a step adds is a draft; at most one is added. */
  lemma NewPieceIsDraft(w: World, step: Step)
    ensures |w.db.pieces| <= |Next(w, step).db.pieces| <= |w.db.pieces| + 1
    ensures |Next(w, step).db.pieces| > |w.db.pieces| ==> Next(w, step).db.pieces[|w.db.pieces|].status == Draft
  {
    if step.Finish? && step.call < |w.pending| && w.pending[step.call].Requesting? {
      RequestKeepsRows(w.db, w.pending[step.call].request);
    }
  }

  /** The statuses given to piece `p` in a run, in order. */
  function StatusesOf(w: World, steps: seq<Step>, p: nat): seq<PieceStatus>
    decreases |steps|
  {
    if steps == [] then [] else GivenBy(w, steps[0], p) + StatusesOf(Next(w, steps[0]), steps[1..], p)
  }

  function GivenBy(w: World, step: Step, p: nat): seq<PieceStatus> {
    if p < |w.db.pieces| && StatusGiven(w, step, p).Some? then [StatusGiven(w, step, p).value] else []
  }

  function LastGiven(statuses: seq<PieceStatus>): PieceStatus {
    if statuses == [] then Draft else statuses[|statuses| - 1]
  }

  predicate ShowsStatus(db: Db, p: nat, statuses: seq<PieceStatus>) {
    if p < |db.pieces| then db.pieces[p].status == LastGiven(statuses) else statuses == []
  }

  lemma StepShowsStatus(w: World, step: Step, p: nat, statuses: seq<PieceStatus>)
    requires ShowsStatus(w.db, p, statuses)
    ensures ShowsStatus(Next(w, step).db, p, statuses + GivenBy(w, step, p))
  {
    if p < |w.db.pieces| {
      StepWritesPiece(w, step, p);
    } else {
      NewPieceIsDraft(w, step);
    }
  }

  lemma {:induction false} RunShowsStatus(w: World, steps: seq<Step>, p: nat, statuses: seq<PieceStatus>)
    requires ShowsStatus(w.db, p, statuses)
    ensures ShowsStatus(Run(w, steps).db, p, statuses + StatusesOf(w, steps, p))
    decreases |steps|
  {
    if steps == [] {
      assert statuses + StatusesOf(w, steps, p) == statuses;
    } else {
      var next, given := Next(w, steps[0]), GivenBy(w, steps[0], p);
      StepShowsStatus(w, steps[0], p, statuses);
      RunShowsStatus(next, steps[1..], p, statuses + given);
      Regroup(statuses, given, StatusesOf(next, steps[1..], p));
    }
  }

  /** In every run a piece has the status last given to it, by a review, a result or the dispatcher; else it is a draft. */
  lemma PieceShowsLastStatus(steps: seq<Step>, p: nat)
    requires p < |Run(EMPTY, steps).db.pieces|
    ensures Run(EMPTY, steps).db.pieces[p].status == LastGiven(StatusesOf(EMPTY, steps, p))
  {
    RunShowsStatus(EMPTY, steps, p, []);
    assert [] + StatusesOf(EMPTY, steps, p) == StatusesOf(EMPTY, steps, p);
  }

  // The branches of a recorded result, spelled out

  /** `after` is `before` with job `id`, the event log and perhaps one piece's status changed. */
  predicate OnlyResult(before: Db, after: Db, id: nat, job: Job, event: DomainEvent, piece: Option<PieceStatus>)
    requires id < |before.jobs|
  {
    && after.jobs == before.jobs[id := job]
    && after.events == (if event.kind == ContentPublished && event in before.events then before.events
                        else before.events + [event])
    && |after.pieces| == |before.pieces|
    && (forall p: nat :: p < |before.pieces| ==>
          after.pieces[p] == if piece.Some? && IsPieceOf(before, p, id) then before.pieces[p].(status := piece.value)
                             else before.pieces[p])
    && after.versions == before.versions && after.approvals == before.approvals
    && after.briefs == before.briefs && after.reviews == before.reviews
  }

  /** A recorded result finishes. */
  predicate Finishes(w: World, step: Step, input: RecordInput, seen: Option<string>) {
    && step.Finish? && step.call < |w.pending| && w.pending[step.call] == Recording(input, seen)
    && HasJob(w.db, input.organisationId, input.jobId)
  }

  /** A delivery that needs reconciling marks any job not final; its piece stays as it was. */
  lemma ReconciliationIsRecorded(w: World, step: Step, input: RecordInput, seen: Option<string>)
    requires Finishes(w, step, input, seen) && input.reconciliationRequired
    ensures
      var db, id := w.db, input.jobId;
      var job, after := db.jobs[id], Next(w, step).db;
      if job.outcome == Confirmed || job.status == JobPublished then after == db
      else
        OnlyResult(db, after, id,
          job.(status := JobReconciliation, outcome := Unreconciled,
               error := if input.error.Some? then input.error else seen,
               note := Some(First4000(if input.note.Some? then input.note.value
                                      else if input.error.Some? then input.error.value
                                      else "Reconciliation required"))),
          DomainEvent(PublishUnreconciled, id), None)
  {
  }

  /** An error fails any job not confirmed, and its piece. */
  lemma FailureIsRecorded(w: World, step: Step, input: RecordInput, seen: Option<string>)
    requires Finishes(w, step, input, seen)
    requires !input.reconciliationRequired && input.error.Some? && input.error.value != ""
    ensures
      var db, id := w.db, input.jobId;
      var job, after := db.jobs[id], Next(w, step).db;
      if job.outcome == Confirmed then after == db
      else
        OnlyResult(db, after, id, job.(status := JobFailed, outcome := NotDelivered, error := input.error),
                   DomainEvent(PublishFailed, id), Some(Failed))
  {
  }

  /** Any other result publishes a job not final, with the references it brings, and its piece. */
  lemma SuccessIsRecorded(w: World, step: Step, input: RecordInput, seen: Option<string>)
    requires Finishes(w, step, input, seen)
    requires !input.reconciliationRequired && (input.error.None? || input.error.value == "")
    ensures
      var db, id := w.db, input.jobId;
      var job, after := db.jobs[id], Next(w, step).db;
      if job.outcome == Confirmed || job.status == JobPublished then after == db
      else
        OnlyResult(db, after, id,
          job.(status := JobPublished, outcome := Confirmed, externalPostId := input.externalPostId,
               externalUrl := input.externalUrl, error := None, note := None),
          DomainEvent(ContentPublished, id), Some(Published))
  {
  }

  // Publish requests

  /** The piece may be published: the organisation's, approved or scheduled, and justified. */
  predicate Publishable(db: Db, request: PublishRequest) {
    && HasPiece(db, request.organisationId, request.pieceId)
    && (db.pieces[request.pieceId].status == Approved || db.pieces[request.pieceId].status == Scheduled)
    && Justified(db.pieces[request.pieceId].why)
  }

  /** A publish request adds a job if and only if it must: nothing refuses it and its key is free. */
  lemma RequestAddsJobExactlyWhen(db: Db, request: PublishRequest)
    ensures
      var (after, answer) := RequestPublish(db, request);
      if Publishable(db, request) && request.socialConnectionId != "" && request.connectionFound
         && KeyIsFree(db.jobs, request.organisationId, request.key)
      then
        && answer == Ok(|db.jobs|)
        && after.jobs == db.jobs + [NewJob(request, |db.approvals|)]
        && after.approvals == db.approvals + [PublishApproval(request.organisationId, |db.jobs|)]
        && (DomainEvent(PublishRequested, |db.jobs|) !in db.events ==>
              after.events == db.events + [DomainEvent(PublishRequested, |db.jobs|)])
        && after.pieces == db.pieces && after.versions == db.versions
      else after == db
  {
    ContentLifecycle.FindByKeyFinds(db.jobs, request.organisationId, request.key);
    if HasPiece(db, request.organisationId, request.pieceId) {
      EvidencePassesWhenJustified(db.pieces[request.pieceId].why);
    }
    RequestAddsJob(db, request, CommitRequest(db, request).0);
    RequestKeepsRows(db, request);
  }

  /** The refusals, in the order they are checked. */
  lemma RequestIsRefusedInOrder(db: Db, request: PublishRequest)
    ensures
      var answer := RequestPublish(db, request).1;
      if !HasPiece(db, request.organisationId, request.pieceId) then answer == Err(PieceNotFound)
      else
        var piece := db.pieces[request.pieceId];
        if piece.status != Approved && piece.status != Scheduled then answer == Err(PieceNotApproved)
        else if Trim(piece.why.rationale) == "" then answer == Err(NoRationale)
        else if !Justified(piece.why) then answer == Err(NoSourceLink)
        else if request.socialConnectionId == "" then answer == Err(NoConnection)
        else if !request.connectionFound then answer == Err(ConnectionNotFound)
        else answer.Ok? || answer == Err(KeyTaken)
  {
    if HasPiece(db, request.organisationId, request.pieceId) {
      EvidencePassesWhenJustified(db.pieces[request.pieceId].why);
    }
    RequestKeepsRows(db, request);
  }

  /** With nothing else to refuse it, a request whose key is taken returns that job unless it was cancelled unconfirmed. */
  lemma TakenKeyAnswers(db: Db, request: PublishRequest, id: nat)
    requires ContentLifecycle.JobsSound(db) && HasJob(db, request.organisationId, id)
    requires db.jobs[id].idempotencyKey == request.key
    requires Publishable(db, request) && request.socialConnectionId != "" && request.connectionFound
    ensures RequestPublish(db, request)
         == (db, if db.jobs[id].status == JobCancelled && db.jobs[id].outcome != Confirmed then Err(KeyTaken) else Ok(id))
  {
    ContentLifecycle.KeyFindsItsJob(db, request.organisationId, request.key, id);
    EvidencePassesWhenJustified(db.pieces[request.pieceId].why);
  }

  // Creating pieces

  /** A new draft is refused if and only if it gives a link that is no http link and no agent run wrote it. */
  lemma DraftIsAsGiven(db: Db, o: string, title: string, body: string, platform: string, rationale: string,
                       sourceUrl: string, run: string)
    ensures
      var (after, answer) := CreateDraftPiece(db, o, title, body, platform, rationale, sourceUrl, run);
      var url := Trim(sourceUrl);
      if url != "" && !IsHttp(url) && run == "" then after == db && answer == Err(NoSourceLink)
      else
        && answer == Ok(|db.pieces|)
        && after.versions == db.versions + [Version(|db.pieces|, 1, Trim(title), body)]
        && after == db.(pieces := after.pieces, versions := after.versions)
        && |after.pieces| == |db.pieces| + 1 && db.pieces <= after.pieces
        && var piece := after.pieces[|db.pieces|];
           && piece == Piece(o, None, Trim(title), body, platform, Draft, piece.why)
           && piece.why.sourceUrls == (if IsHttp(url) then [url] else [])
           && piece.why.agentRunId == run
           && (piece.why.operatorDraft <==> url == "" && run == "")
           && (Trim(rationale) != "" ==> piece.why.rationale == Trim(rationale))
  {
    TrimKeepsTrimmed(rationale);
    DefaultRationales();
    if Trim(sourceUrl) != "" {
      OneUrl(Trim(sourceUrl));
    }
  }

  lemma DefaultRationales()
    ensures Trim("Draft created in Content OS") == "Draft created in Content OS"
    ensures Trim("Manual draft created in Content OS") == "Manual draft created in Content OS"
  {
  }

  lemma OneUrl(url: string)
    ensures HttpOnly([url]) == if IsHttp(url) then [url] else []
  {
  }

  /** Brief and draft take over the checked evidence of the idea; a missing or unjustified idea adds nothing. */
  lemma BriefAndPieceAreAsGiven(db: Db, o: string, idea: Option<Idea>, brief: BriefText, title: string, body: string,
                                platform: string)
    ensures
      var (after, answer) := CreateBriefAndPiece(db, o, idea, brief, title, body, platform);
      if idea.None? then after == db && answer == Err(IdeaNotFound)
      else if Trim(idea.value.why.rationale) == "" then after == db && answer == Err(NoRationale)
      else if !Justified(idea.value.why) then after == db && answer == Err(NoSourceLink)
      else
        var why := idea.value.why.(rationale := Trim(idea.value.why.rationale),
                                   sourceUrls := HttpOnly(idea.value.why.sourceUrls));
        && answer == Ok(|db.pieces|)
        && after == db.(briefs := db.briefs + [Brief(o, idea.value.id, brief, why)],
                        pieces := db.pieces + [Piece(o, Some(|db.briefs|), Trim(title), body, platform, Draft, why)],
                        versions := db.versions + [Version(|db.pieces|, 1, Trim(title), body)])
  {
    if idea.Some? {
      EvidencePassesWhenJustified(idea.value.why);
    }
  }

  // What the calls need to read before they go on

  /** recordPublishResult: an unknown job, a final one, and a success without a reference stop it, in this order. */
  lemma ResultIsReadInOrder(db: Db, input: RecordInput)
    ensures
      var answer := RecordPublishResult(db, input).1;
      if !HasJob(db, input.organisationId, input.jobId) then answer == Throws(JobNotFound)
      else
        var job := db.jobs[input.jobId];
        if job.outcome == Confirmed || job.status == JobPublished then answer == Done
        else if !input.reconciliationRequired && (input.error.None? || input.error.value == "")
                && Trim(input.externalPostId) == "" && Trim(input.externalUrl) == "" then answer == Throws(NoDelivery)
        else answer == Proceed(input, job.error)
    ensures var result := RecordPublishResult(db, input); !result.1.Proceed? ==> result.0 == db
  {
  }

  lemma BeginThenFinish(w: World, step: Step, call: Pending)
    requires Begins(step) && Opened(w.db, step) == Some(call)
    ensures Run(w, [step, Finish(|w.pending|)]) == World(FinishCall(w.db, call), w.pending)
  {
    var begun, finish := Next(w, step), Finish(|w.pending|);
    BeginsCall(w, step, call, begun);
    FinishLast(w.db, w.pending, call, Next(begun, finish));
    RunFirst(w, step, [finish]);
    RunFirst(begun, finish, []);
    assert [step, finish] == [step] + [finish] && [finish] == [finish] + [];
  }

  /** A recording that goes on and finishes at once is the whole call; one that stops writes nothing. */
  lemma RecordIsBeginFinish(w: World, input: RecordInput)
    ensures
      var (after, reading) := RecordPublishResult(w.db, input);
      if reading.Proceed? then Run(w, [BeginRecord(input), Finish(|w.pending|)]) == World(after, w.pending)
      else Next(w, BeginRecord(input)) == w && after == w.db
  {
    if RecordPublishResult(w.db, input).1.Proceed? {
      BeginThenFinish(w, BeginRecord(input), Recording(input, w.db.jobs[input.jobId].error));
    }
  }

  /** So is a publish request that goes on; one that is refused or finds its job writes nothing. */
  lemma RequestIsBeginFinish(w: World, request: PublishRequest)
    ensures
      var after := RequestPublish(w.db, request).0;
      if ReadRequest(w.db, request) == Ok(None)
      then Run(w, [BeginRequest(request), Finish(|w.pending|)]) == World(after, w.pending)
      else Next(w, BeginRequest(request)) == w && after == w.db
  {
    if ReadRequest(w.db, request) == Ok(None) {
      BeginThenFinish(w, BeginRequest(request), Requesting(request));
    }
  }

  /** When a cancellation, a reconciliation and a deletion notice go on to write. */
  lemma UnconditionalWritesBegin(db: Db, id: nat, note: string, error: string)
    ensures Opened(db, BeginCancel(id, note)) ==
            if id < |db.jobs| && db.jobs[id].outcome != Confirmed && db.jobs[id].status != JobPublished
               && db.jobs[id].status != JobDispatching
            then Some(Cancelling(id, note)) else None
    ensures Opened(db, BeginReconcile(id, note)) ==
            if id < |db.jobs| && (db.jobs[id].status != JobPublished || db.jobs[id].outcome != Confirmed)
            then Some(Stamping(id, note)) else None
    ensures Opened(db, BeginDelete(id, note, error)) ==
            if id < |db.jobs| && (db.jobs[id].status == JobPublished || db.jobs[id].externalPostId != "")
            then Some(Deleting(id, note, error)) else None
  {
  }
}
