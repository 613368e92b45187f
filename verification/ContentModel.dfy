/**
 * The content tables and what each content operation does to them. Rows are never deleted, so a
 * row's id is its position in its table. "" stands for a missing optional text except where the
 * program tells null from the empty string; those are options.
 */
module ContentModel {
  import opened Wrappers
  import opened Texts
  import opened Policy

  /** The errors the operations throw; KeyTaken is the table's unique index refusing a row. */
  datatype Refusal =
    | IdeaNotFound | NoRationale | NoSourceLink | PieceNotFound | PieceNotEditable | PieceNotApproved | DeniedByPolicy
    | NoConnection | ConnectionNotFound | KeyTaken | JobNotFound | NoDelivery

  datatype Evidence = Evidence(
    rationale: string,
    sourceUrls: seq<string>,
    researchJobId: string,
    trendClusterId: string,
    agentRunId: string,
    operatorDraft: bool)

  predicate IsHttp(url: string) {
    "http" <= url
  }

  function HttpOnly(urls: seq<string>): (r: seq<string>)
    ensures forall u :: u in r ==> IsHttp(u)
  {
    if urls == [] then []
    else (if IsHttp(urls[0]) then [urls[0]] else []) + HttpOnly(urls[1..])
  }

  function AssertWhyEvidence(e: Evidence): Result<Evidence, Refusal> {
    var rationale := Trim(e.rationale);
    var urls := HttpOnly(e.sourceUrls);
    if rationale == "" then Err(NoRationale)
    else if urls == [] && e.researchJobId == "" && e.trendClusterId == "" && e.agentRunId == "" && !e.operatorDraft
    then Err(NoSourceLink)
    else Ok(e.(rationale := rationale, sourceUrls := urls))
  }

  datatype PieceStatus = Draft | InReview | Approved | Scheduled | Published | Failed | Archived

  datatype Piece = Piece(organisationId: string, briefId: Option<nat>, title: string, body: string, platform: string,
                         status: PieceStatus, why: Evidence)

  datatype BriefText = BriefText(objective: string, audience: string, keyMessage: string, cta: string)

  datatype Brief = Brief(organisationId: string, ideaId: string, text: BriefText, why: Evidence)

  datatype Idea = Idea(id: string, why: Evidence)

  datatype ReviewDecision = ReviewPending | ReviewApproved | ReviewRejected

  /** One row of a piece's approval history. */
  datatype Review = Review(organisationId: string, pieceId: nat, decision: ReviewDecision)

  datatype Version = Version(pieceId: nat, version: int, title: string, body: string)

  datatype JobStatus =
    | JobPendingApproval | JobApproved | JobQueued | JobScheduled | JobDispatching | JobPublishing
    | JobPublished | JobFailed | JobReconciliation | JobCancelled

  datatype Outcome = NotStarted | Prepared | Dispatching | Confirmed | NotDelivered | Unreconciled

  datatype Job = Job(
    organisationId: string,
    pieceId: nat,
    idempotencyKey: string,
    status: JobStatus,
    outcome: Outcome,
    approvalId: Option<nat>,
    externalPostId: string,
    externalUrl: string,
    error: Option<string>,
    note: Option<string>)

  /** An approval request of kind "publish"; its payload names one job. */
  datatype PublishApproval = PublishApproval(organisationId: string, jobId: nat)

  datatype EventKind = PublishRequested | ContentPublished | PublishFailed | PublishUnreconciled

  datatype DomainEvent = DomainEvent(kind: EventKind, jobId: nat)

  datatype Db = Db(
    pieces: seq<Piece>,
    versions: seq<Version>,
    jobs: seq<Job>,
    approvals: seq<PublishApproval>,
    events: seq<DomainEvent>,
    briefs: seq<Brief>,
    reviews: seq<Review>)

  predicate HasPiece(db: Db, organisation: string, id: nat) {
    id < |db.pieces| && db.pieces[id].organisationId == organisation
  }

  predicate HasJob(db: Db, organisation: string, id: nat) {
    id < |db.jobs| && db.jobs[id].organisationId == organisation
  }

  /** A write `where id and organisationId` match. */
  function SetPieceStatus(db: Db, organisation: string, id: nat, status: PieceStatus): Db {
    if HasPiece(db, organisation, id) then db.(pieces := db.pieces[id := db.pieces[id].(status := status)]) else db
  }

  function AddPiece(db: Db, piece: Piece): Db {
    db.(pieces := db.pieces + [piece],
        versions := db.versions + [Version(|db.pieces|, 1, piece.title, piece.body)])
  }

  /** The highest version number saved for a piece, 0 if there is none. */
  function LastVersion(versions: seq<Version>, pieceId: nat): int {
    if versions == [] then 0
    else
      var earlier := LastVersion(versions[..|versions| - 1], pieceId);
      var last := versions[|versions| - 1];
      if last.pieceId == pieceId && last.version > earlier then last.version else earlier
  }

  function CreateDraftPiece(db: Db, organisation: string, title: string, body: string, platform: string,
                            rationale: string, sourceUrl: string, agentRunId: string): (Db, Result<nat, Refusal>)
  {
    var url := Trim(sourceUrl);
    var why := AssertWhyEvidence(Evidence(
      if Trim(rationale) != "" then Trim(rationale)
      else if url != "" then "Draft created in Content OS" else "Manual draft created in Content OS",
      if url != "" then [url] else [], "", "", agentRunId, url == "" && agentRunId == ""));
    if why.Err? then (db, Err(why.error))
    else (AddPiece(db, Piece(organisation, None, Trim(title), body, platform, Draft, why.value)), Ok(|db.pieces|))
  }

  /** Brief and piece inherit the checked evidence of the idea they come from, if that idea exists. */
  function CreateBriefAndPiece(db: Db, organisation: string, idea: Option<Idea>, brief: BriefText, title: string,
                               body: string, platform: string): (Db, Result<nat, Refusal>)
  {
    var why := if idea.Some? then AssertWhyEvidence(idea.value.why) else Err(IdeaNotFound);
    if why.Err? then (db, Err(why.error))
    else
      (AddPiece(db.(briefs := db.briefs + [Brief(organisation, idea.value.id, brief, why.value)]),
                Piece(organisation, Some(|db.briefs|), Trim(title), body, platform, Draft, why.value)),
       Ok(|db.pieces|))
  }

  function UpdatePiece(db: Db, organisation: string, id: nat, title: Option<string>, body: Option<string>,
                       platform: Option<string>): (Db, Result<nat, Refusal>)
  {
    if !HasPiece(db, organisation, id) then (db, Err(PieceNotFound))
    else
      var piece := db.pieces[id];
      if piece.status == Published || piece.status == Archived then (db, Err(PieceNotEditable))
      else
        var newTitle := if title.Some? then Trim(title.value) else piece.title;
        var newBody := if body.Some? then body.value else piece.body;
        var newPlatform := if platform.Some? then platform.value else piece.platform;
        (db.(pieces := db.pieces[id := piece.(title := newTitle, body := newBody, platform := newPlatform)],
             versions := db.versions + [Version(id, LastVersion(db.versions, id) + 1, newTitle, newBody)]),
         Ok(id))
  }

  function AddReview(db: Db, organisation: string, id: nat, decision: ReviewDecision): Db {
    db.(reviews := db.reviews + [Review(organisation, id, decision)])
  }

  function SubmitPieceForApproval(db: Db, organisation: string, id: nat): (Db, Result<nat, Refusal>) {
    if !HasPiece(db, organisation, id) then (db, Err(PieceNotFound))
    else
      var why := AssertWhyEvidence(db.pieces[id].why);
      if why.Err? then (db, Err(why.error))
      else (AddReview(SetPieceStatus(db, organisation, id, InReview), organisation, id, ReviewPending), Ok(|db.reviews|))
  }

  function DecidePieceApproval(db: Db, organisation: string, id: nat, approved: bool): (Db, Result<nat, Refusal>) {
    if !HasPiece(db, organisation, id) then (db, Err(PieceNotFound))
    else
      (AddReview(SetPieceStatus(db, organisation, id, if approved then Approved else Draft), organisation, id,
                 if approved then ReviewApproved else ReviewRejected),
       Ok(id))
  }

  /** The job holding a key; the table's unique index on (organisation, key) allows one. */
  function FindByKey(jobs: seq<Job>, organisation: string, key: string): Option<nat> {
    if jobs == [] then None
    else
      var earlier := FindByKey(jobs[..|jobs| - 1], organisation, key);
      var last := jobs[|jobs| - 1];
      if earlier.Some? then earlier
      else if last.organisationId == organisation && last.idempotencyKey == key then Some(|jobs| - 1)
      else None
  }

  /** Requested and published events carry a dedupe key: a second one for the job is not appended. */
  function AppendEvent(events: seq<DomainEvent>, event: DomainEvent): seq<DomainEvent> {
    if event.kind in {PublishRequested, ContentPublished} && event in events then events else events + [event]
  }

  /** A publish request; the idempotency key is already built and the connection already looked up. */
  datatype PublishRequest = PublishRequest(
    organisationId: string,
    pieceId: nat,
    key: string,
    socialConnectionId: string,
    connectionFound: bool,
    scheduledFuture: bool)

  /** What requestPublish reads: an error, the job that exists already, or nothing that stops it. */
  function ReadRequest(db: Db, input: PublishRequest): Result<Option<nat>, Refusal> {
    if !HasPiece(db, input.organisationId, input.pieceId) then Err(PieceNotFound)
    else
      var piece := db.pieces[input.pieceId];
      if piece.status != Approved && piece.status != Scheduled then Err(PieceNotApproved)
      else if AssertWhyEvidence(piece.why).Err? then Err(AssertWhyEvidence(piece.why).error)
      else if EvaluateToolPolicy(Some(Publish), NO_MODES) == Deny then Err(DeniedByPolicy)
      else if input.socialConnectionId == "" then Err(NoConnection)
      else if !input.connectionFound then Err(ConnectionNotFound)
      else
        var existing := FindByKey(db.jobs, input.organisationId, input.key);
        if existing.Some? && existing.value < |db.jobs| &&
           (db.jobs[existing.value].outcome == Confirmed || db.jobs[existing.value].status != JobCancelled)
        then Ok(Some(existing.value)) else Ok(None)
  }

  /** Its transaction, which the unique index on the key refuses when the key is taken by then. */
  function CommitRequest(db: Db, input: PublishRequest): (Db, Result<nat, Refusal>) {
    if FindByKey(db.jobs, input.organisationId, input.key).Some? then (db, Err(KeyTaken))
    else EnqueuePublish(db, input, EvaluateToolPolicy(Some(Publish), NO_MODES))
  }

  /** The two with nothing in between. */
  function RequestPublish(db: Db, input: PublishRequest): (Db, Result<nat, Refusal>) {
    var reading := ReadRequest(db, input);
    if reading.Err? then (db, Err(reading.error))
    else if reading.value.Some? then (db, Ok(reading.value.value))
    else CommitRequest(db, input)
  }

  /** The transaction that creates the job, its approval request and its event. */
  function EnqueuePublish(db: Db, input: PublishRequest, effect: Effect): (Db, Result<nat, Refusal>) {
    var needsApproval := effect == RequireApproval;
    var status := if needsApproval then JobPendingApproval
                  else if input.scheduledFuture then JobScheduled else JobQueued;
    var id := |db.jobs|;
    var job := Job(input.organisationId, input.pieceId, input.key, status, Prepared,
                   if needsApproval then Some(|db.approvals|) else None, "", "", None, None);
    var created := db.(
      jobs := db.jobs + [job],
      approvals := if needsApproval then db.approvals + [PublishApproval(input.organisationId, id)] else db.approvals,
      events := AppendEvent(db.events, DomainEvent(PublishRequested, id)));
    (if input.scheduledFuture && status != JobPendingApproval
     then SetPieceStatus(created, input.organisationId, input.pieceId, Scheduled) else created,
     Ok(id))
  }

  datatype RecordInput = RecordInput(
    organisationId: string,
    jobId: nat,
    externalPostId: string,
    externalUrl: string,
    error: Option<string>,
    reconciliationRequired: bool,
    note: Option<string>)

  /** What a call read before its conditional write: whether to go on, and the error it saw. */
  datatype Reading = Done | Throws(refusal: Refusal) | Proceed(input: RecordInput, seenError: Option<string>)

  predicate Final(job: Job) {
    job.outcome == Confirmed || job.status == JobPublished
  }

  function ReadPublishResult(db: Db, input: RecordInput): Reading {
    if !HasJob(db, input.organisationId, input.jobId) then Throws(JobNotFound)
    else
      var job := db.jobs[input.jobId];
      if Final(job) then Done
      else if !input.reconciliationRequired && !IsError(input.error) &&
              Trim(input.externalPostId) == "" && Trim(input.externalUrl) == ""
      then Throws(NoDelivery)
      else Proceed(input, job.error)
  }

  predicate IsError(error: Option<string>) {
    error.Some? && error.value != ""
  }

  function Slice(s: string, n: nat): string {
    if |s| <= n then s else s[..n]
  }

  function ReconciliationNote(input: RecordInput): string {
    Slice(if input.note.Some? then input.note.value
          else if input.error.Some? then input.error.value else "Reconciliation required", 4000)
  }

  /** The conditional write. Its guard is checked again, atomically with the write. */
  function CommitPublishResult(db: Db, input: RecordInput, seenError: Option<string>): Db {
    if !HasJob(db, input.organisationId, input.jobId) then db
    else
      var job := db.jobs[input.jobId];
      if input.reconciliationRequired then
        if Final(job) then db
        else db.(jobs := db.jobs[input.jobId := job.(
                           status := JobReconciliation, outcome := Unreconciled,
                           error := if input.error.Some? then input.error else seenError,
                           note := Some(ReconciliationNote(input)))],
                 events := AppendEvent(db.events, DomainEvent(PublishUnreconciled, input.jobId)))
      else if IsError(input.error) then
        if job.outcome == Confirmed then db
        else SetPieceStatus(
               db.(jobs := db.jobs[input.jobId := job.(status := JobFailed, outcome := NotDelivered, error := input.error)],
                   events := AppendEvent(db.events, DomainEvent(PublishFailed, input.jobId))),
               input.organisationId, job.pieceId, Failed)
      else
        if Final(job) then db
        else SetPieceStatus(
               db.(jobs := db.jobs[input.jobId := job.(
                             status := JobPublished, outcome := Confirmed,
                             externalPostId := input.externalPostId, externalUrl := input.externalUrl,
                             error := None, note := None)],
                   events := AppendEvent(db.events, DomainEvent(ContentPublished, input.jobId))),
               input.organisationId, job.pieceId, Published)
  }

  function RecordPublishResult(db: Db, input: RecordInput): (Db, Reading) {
    var reading := ReadPublishResult(db, input);
    (if reading.Proceed? then CommitPublishResult(db, reading.input, reading.seenError) else db, reading)
  }

  /** approvePublishingJob, its transaction only: a pending job is queued or scheduled. */
  function ApproveJob(db: Db, id: nat, future: bool): Db {
    if id < |db.jobs| && db.jobs[id].status == JobPendingApproval && db.jobs[id].outcome != Confirmed then
      var job := db.jobs[id];
      db.(jobs := db.jobs[id := job.(status := if future then JobScheduled else JobQueued,
                                     outcome := if job.outcome == NotStarted then Prepared else job.outcome)])
    else db
  }

  function RejectJob(db: Db, id: nat, reason: string): Db {
    if id < |db.jobs| && db.jobs[id].status == JobPendingApproval then
      db.(jobs := db.jobs[id := db.jobs[id].(status := JobCancelled, outcome := NotDelivered, error := Some(reason))])
    else db
  }

  /** The dispatcher's claim: a conditional write on a dispatchable job that is not confirmed. */
  function ClaimJob(db: Db, id: nat): Db {
    if id < |db.jobs| && db.jobs[id].status in {JobApproved, JobQueued, JobScheduled} &&
       db.jobs[id].outcome in {NotStarted, Prepared, NotDelivered}
    then db.(jobs := db.jobs[id := db.jobs[id].(status := JobDispatching, outcome := Dispatching, error := None)])
    else db
  }

  /** cancelPublishingJob checks what it read and then writes without a condition. */
  predicate MayCancel(job: Job) {
    !Final(job) && job.status != JobDispatching
  }

  function CommitCancel(db: Db, id: nat, reason: string): Db {
    if id < |db.jobs|
    then db.(jobs := db.jobs[id := db.jobs[id].(status := JobCancelled, error := Some(reason))]) else db
  }

  const SUPERSEDED := "Superseded by confirmed sibling — not dispatched"

  /** The dispatcher gives up a job whose key it saw confirmed on another job. */
  function CancelDuplicate(db: Db, id: nat, reason: string): Db {
    if id < |db.jobs| && db.jobs[id].status in {JobApproved, JobQueued, JobScheduled}
    then db.(jobs := db.jobs[id := db.jobs[id].(status := JobCancelled, error := Some(reason),
                                                note := Some(SUPERSEDED))])
    else db
  }

  /** The dispatcher's failure: the job is spared when it is confirmed, its piece and the event log are not. */
  function MarkFailed(db: Db, id: nat, error: string): Db {
    if id < |db.jobs| then
      var job := db.jobs[id];
      var marked := if job.outcome == Confirmed then job
                    else job.(status := JobFailed, outcome := NotDelivered, error := Some(error));
      SetPieceStatus(db.(jobs := db.jobs[id := marked], events := AppendEvent(db.events, DomainEvent(PublishFailed, id))),
                     job.organisationId, job.pieceId, Failed)
    else db
  }

  function MarkReconciliation(db: Db, id: nat, note: string): Db {
    if id < |db.jobs| then
      var job := db.jobs[id];
      var text := Some(Slice(note, 4000));
      var marked := if job.outcome == Confirmed then job
                    else job.(status := JobReconciliation, outcome := Unreconciled, note := text, error := text);
      db.(jobs := db.jobs[id := marked], events := AppendEvent(db.events, DomainEvent(PublishUnreconciled, id)))
    else db
  }

  /** reconcilePublishingJob goes on unless it read a published and confirmed job. */
  predicate MayReconcile(job: Job) {
    !(job.status == JobPublished && job.outcome == Confirmed)
  }

  /** Its note, written without a condition when the lookup settled nothing. */
  function StampNote(db: Db, id: nat, note: string): Db {
    if id < |db.jobs|
    then db.(jobs := db.jobs[id := db.jobs[id].(status := JobReconciliation, outcome := Unreconciled,
                                                note := Some(Slice(note, 4000)))])
    else db
  }

  /** What the provider's deletion notice needs to read before it writes without a condition. */
  predicate MayDelete(job: Job) {
    job.status == JobPublished || job.externalPostId != ""
  }

  function CommitDeletion(db: Db, id: nat, note: string, error: string): Db {
    if id < |db.jobs|
    then db.(jobs := db.jobs[id := db.jobs[id].(status := JobReconciliation, note := Some(note), error := Some(error))])
    else db
  }

  /** The references of a partial delivery; the provider's texts are trimmed and blank ones dropped. */
  function WithReferences(job: Job, postId: string, url: string): Job {
    job.(externalPostId := if Trim(postId) != "" then Trim(postId) else job.externalPostId,
         externalUrl := if Trim(url) != "" then Trim(url) else job.externalUrl)
  }

  /** Written without a condition; what the notice records besides is an ordinary result. */
  function PartialPost(db: Db, id: nat, postId: string, url: string): Db {
    if id < |db.jobs| then db.(jobs := db.jobs[id := WithReferences(db.jobs[id], postId, url)]) else db
  }
}
