/** The content tables as the service changes them: in place, row by row. */
module ContentStore {
  import opened Wrappers
  import opened Texts
  import opened Policy
  import opened ContentModel

  class Store {
    var pieces: seq<Piece>
    var versions: seq<Version>
    var jobs: seq<Job>
    var approvals: seq<PublishApproval>
    var events: seq<DomainEvent>
    var briefs: seq<Brief>
    var reviews: seq<Review>

    constructor ()
      ensures View() == Db([], [], [], [], [], [], [])
    {
      pieces, versions, jobs, approvals, events, briefs, reviews := [], [], [], [], [], [], [];
    }

    function View(): Db
      reads this
    {
      Db(pieces, versions, jobs, approvals, events, briefs, reviews)
    }

    method InsertPiece(piece: Piece) returns (id: nat)
      modifies this`pieces, this`versions
      ensures View() == AddPiece(old(View()), piece) && id == |old(pieces)|
    {
      id := |pieces|;
      pieces := pieces + [piece];
      versions := versions + [Version(id, 1, piece.title, piece.body)];
    }

    method UpdatePieceStatus(organisation: string, id: nat, status: PieceStatus)
      modifies this`pieces
      ensures View() == SetPieceStatus(old(View()), organisation, id, status)
    {
      if id < |pieces| && pieces[id].organisationId == organisation {
        pieces := pieces[id := pieces[id].(status := status)];
      }
    }

    method Append(event: DomainEvent)
      modifies this`events
      ensures events == AppendEvent(old(events), event)
    {
      if !(event.kind in {PublishRequested, ContentPublished} && event in events) {
        events := events + [event];
      }
    }

    method CreateDraft(organisation: string, title: string, body: string, platform: string,
                       rationale: string, sourceUrl: string, agentRunId: string)
      returns (result: Result<nat, Refusal>)
      modifies this`pieces, this`versions
      ensures (View(), result) == CreateDraftPiece(old(View()), organisation, title, body, platform,
                                                   rationale, sourceUrl, agentRunId)
    {
      var url := Trim(sourceUrl);
      var reason := Trim(rationale);
      if reason == "" {
        reason := if url != "" then "Draft created in Content OS" else "Manual draft created in Content OS";
      }
      var why := AssertWhyEvidence(Evidence(reason, if url != "" then [url] else [], "", "", agentRunId,
                                            url == "" && agentRunId == ""));
      if why.Err? {
        return Err(why.error);
      }
      var id := InsertPiece(Piece(organisation, None, Trim(title), body, platform, Draft, why.value));
      return Ok(id);
    }

    method CreateFromBrief(organisation: string, idea: Option<Idea>, brief: BriefText, title: string, body: string,
                           platform: string)
      returns (result: Result<nat, Refusal>)
      modifies this`pieces, this`versions, this`briefs
      ensures (View(), result) == CreateBriefAndPiece(old(View()), organisation, idea, brief, title, body, platform)
    {
      if idea.None? {
        return Err(IdeaNotFound);
      }
      var why := AssertWhyEvidence(idea.value.why);
      if why.Err? {
        return Err(why.error);
      }
      var briefId := |briefs|;
      briefs := briefs + [Brief(organisation, idea.value.id, brief, why.value)];
      var id := InsertPiece(Piece(organisation, Some(briefId), Trim(title), body, platform, Draft, why.value));
      return Ok(id);
    }

    /** The version a row search ordered by version descending finds first. */
    method FindLastVersion(pieceId: nat) returns (last: int)
      ensures last == LastVersion(versions, pieceId)
    {
      last := 0;
      for i := 0 to |versions|
        invariant last == LastVersion(versions[..i], pieceId)
      {
        assert versions[..i + 1][..i] == versions[..i];
        if versions[i].pieceId == pieceId && versions[i].version > last {
          last := versions[i].version;
        }
      }
      assert versions[..|versions|] == versions;
    }

    method Update(organisation: string, id: nat, title: Option<string>, body: Option<string>,
                  platform: Option<string>)
      returns (result: Result<nat, Refusal>)
      modifies this`pieces, this`versions
      ensures (View(), result) == UpdatePiece(old(View()), organisation, id, title, body, platform)
    {
      if id >= |pieces| || pieces[id].organisationId != organisation {
        return Err(PieceNotFound);
      }
      var piece := pieces[id];
      if piece.status == Published || piece.status == Archived {
        return Err(PieceNotEditable);
      }
      var newTitle := if title.Some? then Trim(title.value) else piece.title;
      var newBody := if body.Some? then body.value else piece.body;
      var newPlatform := if platform.Some? then platform.value else piece.platform;
      pieces := pieces[id := piece.(title := newTitle, body := newBody, platform := newPlatform)];
      var last := FindLastVersion(id);
      versions := versions + [Version(id, last + 1, newTitle, newBody)];
      return Ok(id);
    }

    method Submit(organisation: string, id: nat) returns (result: Result<nat, Refusal>)
      modifies this`pieces, this`reviews
      ensures (View(), result) == SubmitPieceForApproval(old(View()), organisation, id)
    {
      if id >= |pieces| || pieces[id].organisationId != organisation {
        return Err(PieceNotFound);
      }
      var why := AssertWhyEvidence(pieces[id].why);
      if why.Err? {
        return Err(why.error);
      }
      UpdatePieceStatus(organisation, id, InReview);
      var reviewId := |reviews|;
      reviews := reviews + [Review(organisation, id, ReviewPending)];
      return Ok(reviewId);
    }

    method Decide(organisation: string, id: nat, approved: bool) returns (result: Result<nat, Refusal>)
      modifies this`pieces, this`reviews
      ensures (View(), result) == DecidePieceApproval(old(View()), organisation, id, approved)
    {
      if id >= |pieces| || pieces[id].organisationId != organisation {
        return Err(PieceNotFound);
      }
      reviews := reviews + [Review(organisation, id, if approved then ReviewApproved else ReviewRejected)];
      UpdatePieceStatus(organisation, id, if approved then Approved else Draft);
      return Ok(id);
    }

    /** The transaction of requestPublish. */
    method Enqueue(input: PublishRequest, effect: Effect) returns (id: nat)
      modifies this`jobs, this`approvals, this`events, this`pieces
      ensures (View(), Ok(id)) == EnqueuePublish(old(View()), input, effect)
    {
      var needsApproval := effect == RequireApproval;
      var status := if needsApproval then JobPendingApproval
                    else if input.scheduledFuture then JobScheduled else JobQueued;
      id := |jobs|;
      var approvalId: Option<nat> := None;
      if needsApproval {
        approvalId := Some(|approvals|);
        approvals := approvals + [PublishApproval(input.organisationId, id)];
      }
      jobs := jobs + [Job(input.organisationId, input.pieceId, input.key, status, Prepared, approvalId,
                          "", "", None, None)];
      Append(DomainEvent(PublishRequested, id));
      if input.scheduledFuture && status != JobPendingApproval {
        UpdatePieceStatus(input.organisationId, input.pieceId, Scheduled);
      }
    }

    method Request(input: PublishRequest) returns (result: Result<nat, Refusal>)
      modifies this`jobs, this`approvals, this`events, this`pieces
      ensures (View(), result) == RequestPublish(old(View()), input)
    {
      if input.pieceId >= |pieces| || pieces[input.pieceId].organisationId != input.organisationId {
        return Err(PieceNotFound);
      }
      var piece := pieces[input.pieceId];
      if piece.status != Approved && piece.status != Scheduled {
        return Err(PieceNotApproved);
      }
      var why := AssertWhyEvidence(piece.why);
      if why.Err? {
        return Err(why.error);
      }
      var effect := EvaluateToolPolicy(Some(Publish), NO_MODES);
      if effect == Deny {
        return Err(DeniedByPolicy);
      }
      if input.socialConnectionId == "" {
        return Err(NoConnection);
      }
      if !input.connectionFound {
        return Err(ConnectionNotFound);
      }
      var existing := FindByKey(jobs, input.organisationId, input.key);
      if existing.Some? {
        if existing.value < |jobs| &&
           (jobs[existing.value].outcome == Confirmed || jobs[existing.value].status != JobCancelled) {
          return Ok(existing.value);
        }
        return Err(KeyTaken);
      }
      var id := Enqueue(input, effect);
      return Ok(id);
    }

    /** The conditional write of one of the three result branches. */
    method Commit(input: RecordInput, seenError: Option<string>)
      modifies this`jobs, this`pieces, this`events
      ensures View() == CommitPublishResult(old(View()), input, seenError)
    {
      if input.jobId >= |jobs| || jobs[input.jobId].organisationId != input.organisationId {
        return;
      }
      var job := jobs[input.jobId];
      if input.reconciliationRequired {
        if job.outcome == Confirmed || job.status == JobPublished {
          return;
        }
        jobs := jobs[input.jobId := job.(status := JobReconciliation, outcome := Unreconciled,
                                         error := if input.error.Some? then input.error else seenError,
                                         note := Some(ReconciliationNote(input)))];
        Append(DomainEvent(PublishUnreconciled, input.jobId));
      } else if IsError(input.error) {
        if job.outcome == Confirmed {
          return;
        }
        jobs := jobs[input.jobId := job.(status := JobFailed, outcome := NotDelivered, error := input.error)];
        UpdatePieceStatus(input.organisationId, job.pieceId, Failed);
        Append(DomainEvent(PublishFailed, input.jobId));
      } else {
        if job.outcome == Confirmed || job.status == JobPublished {
          return;
        }
        jobs := jobs[input.jobId := job.(status := JobPublished, outcome := Confirmed,
                                         externalPostId := input.externalPostId, externalUrl := input.externalUrl,
                                         error := None, note := None)];
        UpdatePieceStatus(input.organisationId, job.pieceId, Published);
        Append(DomainEvent(ContentPublished, input.jobId));
      }
    }

    /** recordPublishResult with nothing between its read and its write. */
    method Record(input: RecordInput) returns (reading: Reading)
      modifies this`jobs, this`pieces, this`events
      ensures (View(), reading) == RecordPublishResult(old(View()), input)
    {
      if input.jobId >= |jobs| || jobs[input.jobId].organisationId != input.organisationId {
        return Throws(JobNotFound);
      }
      var job := jobs[input.jobId];
      if job.outcome == Confirmed || job.status == JobPublished {
        return Done;
      }
      if !input.reconciliationRequired && !IsError(input.error) &&
         Trim(input.externalPostId) == "" && Trim(input.externalUrl) == "" {
        return Throws(NoDelivery);
      }
      reading := Proceed(input, job.error);
      Commit(input, job.error);
    }
  }
}
