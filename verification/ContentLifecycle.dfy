/** What every content operation keeps: version numbering, evidence, approvals and unique keys. */
module ContentLifecycle {
  import opened Wrappers
  import opened Texts
  import opened Policy
  import opened ContentModel
  import opened ContentProtocol

  function VersionsOf(versions: seq<Version>, pieceId: nat): seq<Version> {
    if versions == [] then []
    else
      var last := versions[|versions| - 1];
      VersionsOf(versions[..|versions| - 1], pieceId) + (if last.pieceId == pieceId then [last] else [])
  }

  lemma VersionsOfAppend(versions: seq<Version>, v: Version, pieceId: nat)
    ensures VersionsOf(versions + [v], pieceId)
              == VersionsOf(versions, pieceId) + (if v.pieceId == pieceId then [v] else [])
  {
    assert (versions + [v])[..|versions|] == versions;
  }

  ghost predicate Numbered(vs: seq<Version>) {
    forall i :: 0 <= i < |vs| ==> vs[i].version == i + 1
  }

  lemma {:induction false} LastVersionIsCount(versions: seq<Version>, pieceId: nat)
    requires Numbered(VersionsOf(versions, pieceId))
    ensures LastVersion(versions, pieceId) == |VersionsOf(versions, pieceId)|
  {
    if versions != [] {
      var earlier := versions[..|versions| - 1];
      var last := versions[|versions| - 1];
      assert versions == earlier + [last];
      VersionsOfAppend(earlier, last, pieceId);
      var vs := VersionsOf(versions, pieceId);
      assert forall i :: 0 <= i < |VersionsOf(earlier, pieceId)| ==> vs[i] == VersionsOf(earlier, pieceId)[i];
      LastVersionIsCount(earlier, pieceId);
      if last.pieceId == pieceId {
        assert vs[|vs| - 1] == last;
      }
    }
  }

  lemma {:induction false} NoVersions(versions: seq<Version>, pieceId: nat)
    requires forall v :: v in versions ==> v.pieceId < pieceId
    ensures VersionsOf(versions, pieceId) == []
  {
    if versions != [] {
      NoVersions(versions[..|versions| - 1], pieceId);
    }
  }

  /** Versions 1..n without gaps, version n holding the current title and body. */
  ghost predicate VersionsSound(versions: seq<Version>, piece: Piece, id: nat) {
    var vs := VersionsOf(versions, id);
    vs != [] && Numbered(vs) && vs[|vs| - 1].title == piece.title && vs[|vs| - 1].body == piece.body
  }

  /** The evidence passes the check, and is that of the piece's brief if it has one. */
  ghost predicate EvidenceSound(briefs: seq<Brief>, piece: Piece) {
    && AssertWhyEvidence(piece.why) == Ok(piece.why)
    && (piece.briefId.Some? ==>
          && piece.briefId.value < |briefs|
          && briefs[piece.briefId.value].organisationId == piece.organisationId
          && briefs[piece.briefId.value].why == piece.why)
  }

  ghost predicate PiecesSound(db: Db) {
    && (forall id: nat :: id < |db.pieces| ==> VersionsSound(db.versions, db.pieces[id], id) && EvidenceSound(db.briefs, db.pieces[id]))
    && (forall v :: v in db.versions ==> v.pieceId < |db.pieces|)
  }

  /** Each job has one approval request and each approval request names its one job. */
  ghost predicate JobsSound(db: Db) {
    && (forall id: nat :: id < |db.jobs| ==>
          var a := db.jobs[id].approvalId;
          a.Some? && a.value < |db.approvals|
          && db.approvals[a.value] == PublishApproval(db.jobs[id].organisationId, id))
    && (forall a: nat :: a < |db.approvals| ==>
          db.approvals[a].jobId < |db.jobs| && db.jobs[db.approvals[a].jobId].approvalId == Some(a))
    && (forall i: nat, j: nat :: i < j < |db.jobs| ==>
          !(db.jobs[i].organisationId == db.jobs[j].organisationId
            && db.jobs[i].idempotencyKey == db.jobs[j].idempotencyKey))
  }

  lemma {:induction false} HttpOnlyKeeps(urls: seq<string>)
    requires forall u :: u in urls ==> IsHttp(u)
    ensures HttpOnly(urls) == urls
  {
    if urls != [] {
      HttpOnlyKeeps(urls[1..]);
    }
  }

  /** Checked evidence passes the check again, unchanged. */
  lemma CheckedEvidencePasses(e: Evidence)
    requires AssertWhyEvidence(e).Ok?
    ensures AssertWhyEvidence(AssertWhyEvidence(e).value) == AssertWhyEvidence(e)
  {
    HttpOnlyKeeps(HttpOnly(e.sourceUrls));
    TrimKeepsTrimmed(e.rationale);
  }

  lemma FirstVersionIsSound(versions: seq<Version>, piece: Piece, id: nat)
    requires forall v :: v in versions ==> v.pieceId < id
    ensures VersionsSound(versions + [Version(id, 1, piece.title, piece.body)], piece, id)
  {
    NoVersions(versions, id);
    VersionsOfAppend(versions, Version(id, 1, piece.title, piece.body), id);
  }

  lemma OtherVersionKeepsPiece(versions: seq<Version>, v: Version, piece: Piece, id: nat)
    requires VersionsSound(versions, piece, id) && v.pieceId != id
    ensures VersionsSound(versions + [v], piece, id)
  {
    VersionsOfAppend(versions, v, id);
  }

  lemma AddPieceKeepsPieces(db: Db, piece: Piece)
    requires PiecesSound(db) && EvidenceSound(db.briefs, piece)
    ensures PiecesSound(AddPiece(db, piece))
  {
    var after := AddPiece(db, piece);
    var n := |db.pieces|;
    FirstVersionIsSound(db.versions, piece, n);
    forall id: nat | id < |after.pieces|
      ensures VersionsSound(after.versions, after.pieces[id], id) && EvidenceSound(after.briefs, after.pieces[id])
    {
      if id < n {
        assert VersionsSound(db.versions, db.pieces[id], id) && EvidenceSound(db.briefs, db.pieces[id]);
        OtherVersionKeepsPiece(db.versions, Version(n, 1, piece.title, piece.body), db.pieces[id], id);
      }
    }
  }

  lemma BriefedPieceKeepsPieces(db: Db, brief: Brief, piece: Piece)
    requires PiecesSound(db) && piece.briefId == Some(|db.briefs|) && AssertWhyEvidence(piece.why) == Ok(piece.why)
    requires brief.organisationId == piece.organisationId && brief.why == piece.why
    ensures PiecesSound(AddPiece(db.(briefs := db.briefs + [brief]), piece))
  {
    var briefed := db.(briefs := db.briefs + [brief]);
    forall id: nat | id < |db.pieces|
      ensures VersionsSound(briefed.versions, briefed.pieces[id], id) && EvidenceSound(briefed.briefs, briefed.pieces[id])
    {
      assert VersionsSound(db.versions, db.pieces[id], id) && EvidenceSound(db.briefs, db.pieces[id]);
    }
    AddPieceKeepsPieces(briefed, piece);
  }

  /** Saving the next version together with the title and body it records. */
  lemma SaveVersionKeepsPieces(db: Db, p: nat, piece: Piece)
    requires PiecesSound(db) && p < |db.pieces| && piece.why == db.pieces[p].why
    requires piece.briefId == db.pieces[p].briefId && piece.organisationId == db.pieces[p].organisationId
    ensures PiecesSound(db.(pieces := db.pieces[p := piece],
                            versions := db.versions + [Version(p, LastVersion(db.versions, p) + 1, piece.title, piece.body)]))
  {
    assert VersionsSound(db.versions, db.pieces[p], p) && EvidenceSound(db.briefs, db.pieces[p]);
    LastVersionIsCount(db.versions, p);
    var v := Version(p, LastVersion(db.versions, p) + 1, piece.title, piece.body);
    var versions, pieces := db.versions + [v], db.pieces[p := piece];
    forall id: nat | id < |pieces|
      ensures VersionsSound(versions, pieces[id], id) && EvidenceSound(db.briefs, pieces[id])
    {
      VersionsOfAppend(db.versions, v, id);
      assert VersionsSound(db.versions, db.pieces[id], id) && EvidenceSound(db.briefs, db.pieces[id]);
    }
  }

  lemma UpdateKeepsPieces(db: Db, o: string, p: nat, title: Option<string>, body: Option<string>, platform: Option<string>)
    requires PiecesSound(db)
    ensures PiecesSound(UpdatePiece(db, o, p, title, body, platform).0)
  {
    var after := UpdatePiece(db, o, p, title, body, platform).0;
    if after != db {
      SaveVersionKeepsPieces(db, p, after.pieces[p]);
    }
  }

  lemma StatusKeepsPieces(db: Db, after: Db)
    requires PiecesSound(db) && after.versions == db.versions && after.briefs == db.briefs && |after.pieces| == |db.pieces|
    requires forall id: nat :: id < |db.pieces| ==> after.pieces[id] == db.pieces[id].(status := after.pieces[id].status)
    ensures PiecesSound(after)
  {
    forall id: nat | id < |after.pieces|
      ensures VersionsSound(after.versions, after.pieces[id], id) && EvidenceSound(after.briefs, after.pieces[id])
    {
      assert VersionsSound(db.versions, db.pieces[id], id) && EvidenceSound(db.briefs, db.pieces[id]);
    }
  }

  lemma StepKeepsPieces(w: World, step: Step)
    requires PiecesSound(w.db)
    ensures PiecesSound(Next(w, step).db)
  {
    var db, after := w.db, Next(w, step).db;
    match step
    case CreateDraft(o, title, body, platform, rationale, sourceUrl, run) =>
      if after != db {
        CreatedDraftIsSound(db, o, title, body, platform, rationale, sourceUrl, run);
        AddPieceKeepsPieces(db, after.pieces[|db.pieces|]);
      }
    case CreateFromBrief(_, idea, _, _, _, _) =>
      if after != db {
        CheckedEvidencePasses(idea.value.why);
        BriefedPieceKeepsPieces(db, after.briefs[|db.briefs|], after.pieces[|db.pieces|]);
      }
    case Update(o, p, title, body, platform) => UpdateKeepsPieces(db, o, p, title, body, platform);
    case _ =>
      OnlyStatusChanges(w, step);
      StatusKeepsPieces(db, after);
  }

  /** Steps other than creating and updating change nothing of a piece but its status. */
  lemma OnlyStatusChanges(w: World, step: Step)
    requires !step.CreateDraft? && !step.CreateFromBrief? && !step.Update?
    ensures
      var db, after := w.db, Next(w, step).db;
      && after.versions == db.versions && after.briefs == db.briefs && |after.pieces| == |db.pieces|
      && forall id: nat :: id < |db.pieces| ==> after.pieces[id] == db.pieces[id].(status := after.pieces[id].status)
  {
    if step.Finish? {
      if step.call < |w.pending| {
        FinishOnlyChangesStatus(w.db, w.pending[step.call], FinishCall(w.db, w.pending[step.call]));
      }
    }
  }

  lemma FinishOnlyChangesStatus(db: Db, call: Pending, after: Db)
    requires after == FinishCall(db, call)
    ensures after.versions == db.versions && after.briefs == db.briefs && |after.pieces| == |db.pieces|
    ensures forall id: nat :: id < |db.pieces| ==> after.pieces[id] == db.pieces[id].(status := after.pieces[id].status)
  {
    if call.Requesting? {
      RequestKeepsRows(db, call.request);
    }
  }

  lemma CreatedDraftIsSound(db: Db, o: string, title: string, body: string, platform: string, rationale: string,
                            sourceUrl: string, run: string)
    ensures
      var (after, result) := CreateDraftPiece(db, o, title, body, platform, rationale, sourceUrl, run);
      result.Ok? ==>
        && after.pieces == db.pieces + [after.pieces[|db.pieces|]]
        && after == AddPiece(db, after.pieces[|db.pieces|])
        && EvidenceSound(db.briefs, after.pieces[|db.pieces|])
  {
    var url := Trim(sourceUrl);
    var e := Evidence(
      if Trim(rationale) != "" then Trim(rationale)
      else if url != "" then "Draft created in Content OS" else "Manual draft created in Content OS",
      if url != "" then [url] else [], "", "", run, url == "" && run == "");
    if AssertWhyEvidence(e).Ok? {
      CheckedEvidencePasses(e);
    }
  }

  lemma {:induction false} FindByKeyFinds(jobs: seq<Job>, organisation: string, key: string)
    ensures
      var found := FindByKey(jobs, organisation, key);
      && (found.Some? ==> found.value < |jobs| && jobs[found.value].organisationId == organisation
                          && jobs[found.value].idempotencyKey == key)
      && (found.None? ==> forall i: nat :: i < |jobs| ==>
            !(jobs[i].organisationId == organisation && jobs[i].idempotencyKey == key))
  {
    if jobs != [] {
      FindByKeyFinds(jobs[..|jobs| - 1], organisation, key);
    }
  }

  lemma EnqueueKeepsJobs(db: Db, request: PublishRequest)
    requires JobsSound(db) && FindByKey(db.jobs, request.organisationId, request.key).None?
    ensures JobsSound(EnqueuePublish(db, request, RequireApproval).0)
  {
    FindByKeyFinds(db.jobs, request.organisationId, request.key);
    var after := EnqueuePublish(db, request, RequireApproval).0;
    forall a: nat | a < |after.approvals|
      ensures after.approvals[a].jobId < |after.jobs| && after.jobs[after.approvals[a].jobId].approvalId == Some(a)
    {
      if a < |db.approvals| {
        assert db.jobs[db.approvals[a].jobId].approvalId == Some(a);
      }
    }
  }

  lemma RequestKeepsJobs(db: Db, request: PublishRequest)
    requires JobsSound(db)
    ensures JobsSound(CommitRequest(db, request).0)
  {
    assert EvaluateToolPolicy(Some(Publish), NO_MODES) == RequireApproval;
    if FindByKey(db.jobs, request.organisationId, request.key).None? {
      EnqueueKeepsJobs(db, request);
    }
  }

  /** Finishing a publish request. */
  predicate Enqueues(w: World, step: Step) {
    step.Finish? && step.call < |w.pending| && w.pending[step.call].Requesting?
  }

  lemma StepKeepsJobs(w: World, step: Step)
    requires JobsSound(w.db)
    ensures JobsSound(Next(w, step).db)
  {
    if Enqueues(w, step) {
      RequestKeepsJobs(w.db, w.pending[step.call].request);
    } else {
      JobIdentityStep(w, step);
    }
  }

  /** Only a publish request adds jobs; no step changes a job's owner, key or approval request. */
  lemma JobIdentityStep(w: World, step: Step)
    requires !Enqueues(w, step)
    ensures
      var db, after := w.db, Next(w, step).db;
      && after.approvals == db.approvals
      && |after.jobs| == |db.jobs|
      && forall id: nat :: id < |db.jobs| ==>
           && after.jobs[id].organisationId == db.jobs[id].organisationId
           && after.jobs[id].idempotencyKey == db.jobs[id].idempotencyKey
           && after.jobs[id].approvalId == db.jobs[id].approvalId
  {
    if step.Finish? {
      if step.call < |w.pending| {
        FinishKeepsIdentity(w.db, w.pending[step.call], FinishCall(w.db, w.pending[step.call]));
      }
    } else if !Begins(step) {
      OperateKeepsIdentity(w.db, step, Operate(w.db, step));
    }
  }

  lemma OperateKeepsIdentity(db: Db, step: Step, after: Db)
    requires after == Operate(db, step)
    ensures after.approvals == db.approvals && |after.jobs| == |db.jobs|
    ensures forall id: nat :: id < |db.jobs| ==>
              && after.jobs[id].organisationId == db.jobs[id].organisationId
              && after.jobs[id].idempotencyKey == db.jobs[id].idempotencyKey
              && after.jobs[id].approvalId == db.jobs[id].approvalId
  {
    if !ChangesJob(step) {
      EditsLeaveJobs(db, step);
    }
  }

  lemma FinishKeepsIdentity(db: Db, call: Pending, after: Db)
    requires !call.Requesting? && after == FinishCall(db, call)
    ensures after.approvals == db.approvals && |after.jobs| == |db.jobs|
    ensures forall id: nat :: id < |db.jobs| ==>
              && after.jobs[id].organisationId == db.jobs[id].organisationId
              && after.jobs[id].idempotencyKey == db.jobs[id].idempotencyKey
              && after.jobs[id].approvalId == db.jobs[id].approvalId
  {
  }

  lemma {:induction false} RunKeepsContent(w: World, steps: seq<Step>)
    requires PiecesSound(w.db) && JobsSound(w.db)
    ensures PiecesSound(Run(w, steps).db) && JobsSound(Run(w, steps).db)
    decreases |steps|
  {
    if steps != [] {
      StepKeepsPieces(w, steps[0]);
      StepKeepsJobs(w, steps[0]);
      RunKeepsContent(Next(w, steps[0]), steps[1..]);
    }
  }

  /**
   * Over any run of content operations with overlapping publish results and cancellations: a
   * piece's versions are numbered 1..n without gaps, version n is its current title and body, its
   * evidence still passes the evidence check and is that of its brief; every job has exactly one approval request naming
   * it; and no two jobs of an organisation share an idempotency key.
   */
  lemma ContentStaysSound(steps: seq<Step>)
    ensures PiecesSound(Run(EMPTY, steps).db) && JobsSound(Run(EMPTY, steps).db)
  {
    RunKeepsContent(EMPTY, steps);
  }

  /**
   * Every job requestPublish adds starts pending approval and prepared, for an approved or
   * scheduled piece, with one new approval request naming it; its CONTENT_PUBLISH_REQUESTED event
   * is logged, and nothing else changes.
   */
  lemma AddedJobAwaitsApproval(db: Db, request: PublishRequest)
    ensures
      var after := RequestPublish(db, request).0;
      |after.jobs| != |db.jobs| ==>
        && HasPiece(db, request.organisationId, request.pieceId)
        && db.pieces[request.pieceId].status in {Approved, Scheduled}
        && (exists job: Job ::
              && after.jobs == db.jobs + [job]
              && job.status == JobPendingApproval && job.outcome == Prepared
              && job.pieceId == request.pieceId && job.organisationId == request.organisationId
              && job.approvalId == Some(|db.approvals|))
        && after.approvals == db.approvals + [PublishApproval(request.organisationId, |db.jobs|)]
        && after.events == AppendEvent(db.events, DomainEvent(PublishRequested, |db.jobs|))
        && after.pieces == db.pieces && after.versions == db.versions
    ensures |RequestPublish(db, request).0.jobs| == |db.jobs| ==> RequestPublish(db, request).0 == db
  {
    var after := RequestPublish(db, request).0;
    if |after.jobs| != |db.jobs| {
      var job := after.jobs[|db.jobs|];
      assert after.jobs == db.jobs + [job];
    }
  }

  lemma KeyFindsItsJob(db: Db, organisation: string, key: string, id: nat)
    requires JobsSound(db) && id < |db.jobs|
    requires db.jobs[id].organisationId == organisation && db.jobs[id].idempotencyKey == key
    ensures FindByKey(db.jobs, organisation, key) == Some(id)
  {
    FindByKeyFinds(db.jobs, organisation, key);
    var found := FindByKey(db.jobs, organisation, key).value;
    assert !(found < id) && !(id < found);
  }

  /**
   * Asking again for a publish that has a job never writes anything. It returns that job, or
   * fails; and for a job that was cancelled without being confirmed it always fails, on the
   * unique key: a cancelled publish intent can never be queued again.
   */
  lemma RepeatedRequestNeverDuplicates(db: Db, request: PublishRequest, id: nat)
    requires JobsSound(db) && id < |db.jobs|
    requires db.jobs[id].organisationId == request.organisationId && db.jobs[id].idempotencyKey == request.key
    ensures RequestPublish(db, request).0 == db
    ensures RequestPublish(db, request).1.Ok? ==>
              RequestPublish(db, request).1 == Ok(id)
              && (db.jobs[id].outcome == Confirmed || db.jobs[id].status != JobCancelled)
  {
    KeyFindsItsJob(db, request.organisationId, request.key, id);
  }

  /** Of two overlapping requests for the same publish, whichever commits second is refused. */
  lemma SecondRequestIsRefused(db: Db, first: PublishRequest, second: PublishRequest)
    requires first.organisationId == second.organisationId && first.key == second.key
    ensures
      var once := CommitRequest(db, first).0;
      CommitRequest(once, second) == (once, Err(KeyTaken))
  {
    var once := CommitRequest(db, first).0;
    FindByKeyFinds(db.jobs, first.organisationId, first.key);
    FindByKeyFinds(once.jobs, first.organisationId, first.key);
    if once != db {
      assert once.jobs[|db.jobs|].idempotencyKey == first.key;
    }
  }

  /** The pieces and jobs of every other organisation are as they were. */
  ghost predicate OnlyTouches(db: Db, after: Db, organisation: string) {
    && |db.pieces| <= |after.pieces| && |db.jobs| <= |after.jobs|
    && (forall p: nat :: p < |db.pieces| && db.pieces[p].organisationId != organisation ==>
          after.pieces[p] == db.pieces[p])
    && (forall j: nat :: j < |db.jobs| && db.jobs[j].organisationId != organisation ==> after.jobs[j] == db.jobs[j])
  }

  /** Editing a piece, submitting it and deciding its approval stay within the caller's organisation. */
  lemma EditsStayInOrganisation(db: Db, o: string, id: nat, title: Option<string>, body: Option<string>,
                                platform: Option<string>, status: PieceStatus)
    ensures OnlyTouches(db, UpdatePiece(db, o, id, title, body, platform).0, o)
    ensures OnlyTouches(db, SetPieceStatus(db, o, id, status), o)
  {
  }

  /** So does recording a publish result, including the status of the job's piece. */
  lemma ResultsStayInOrganisation(db: Db, input: RecordInput, seenError: Option<string>)
    ensures OnlyTouches(db, CommitPublishResult(db, input, seenError), input.organisationId)
  {
  }
}
