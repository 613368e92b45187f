/** Which workspace a user with several memberships is scoped to. */
module ActiveWorkspace {
  import opened Wrappers

  datatype Membership = Membership(organisationId: string, isPlatform: bool, deleted: bool, active: bool)

  predicate Usable(m: Membership) {
    !m.deleted && m.active
  }

  function Filter(ms: seq<Membership>, p: Membership -> bool): seq<Membership> {
    if ms == [] then []
    else (if p(ms[0]) then [ms[0]] else []) + Filter(ms[1..], p)
  }

  function Find(ms: seq<Membership>, p: Membership -> bool): Option<Membership> {
    if ms == [] then None else if p(ms[0]) then Some(ms[0]) else Find(ms[1..], p)
  }

  function PickActiveWorkspace(memberships: seq<Membership>, preferred: string): Option<Membership> {
    var usable := Filter(memberships, Usable);
    if usable == [] then None
    else
      var named := if preferred == "" then None
                   else Find(usable, (m: Membership) => m.organisationId == preferred);
      if named.Some? then named
      else
        var tenant := Find(usable, (m: Membership) => !m.isPlatform);
        if tenant.Some? then tenant else Some(usable[0])
  }

  /** `m` is the first membership of `ms` that satisfies `p`. */
  ghost predicate IsFirst(ms: seq<Membership>, p: Membership -> bool, m: Membership) {
    exists i: nat :: i < |ms| && ms[i] == m && p(m) && forall j: nat :: j < i ==> !p(ms[j])
  }

  lemma {:induction false} FindInFilter(ms: seq<Membership>, p: Membership -> bool, q: Membership -> bool)
    ensures Find(Filter(ms, p), q).None? <==> forall i: nat :: i < |ms| ==> !(p(ms[i]) && q(ms[i]))
    ensures Find(Filter(ms, p), q).Some? ==>
              IsFirst(ms, (m: Membership) => p(m) && q(m), Find(Filter(ms, p), q).value)
  {
    if ms != [] {
      var both := (m: Membership) => p(m) && q(m);
      FindInFilter(ms[1..], p, q);
      assert forall i: nat :: i < |ms| && i > 0 ==> ms[i] == ms[1..][i - 1];
      assert forall i: nat :: i < |ms[1..]| ==> ms[1..][i] == ms[i + 1];
      if both(ms[0]) {
        assert Filter(ms, p)[0] == ms[0];
        assert IsFirst(ms, both, ms[0]);
      } else {
        assert Find(Filter(ms, p), q) == Find(Filter(ms[1..], p), q) by {
          if p(ms[0]) {
            assert Filter(ms, p)[1..] == Filter(ms[1..], p);
          } else {
            assert Filter(ms, p) == Filter(ms[1..], p);
          }
        }
        if Find(Filter(ms[1..], p), q).Some? {
          var m := Find(Filter(ms[1..], p), q).value;
          var i: nat :| i < |ms[1..]| && ms[1..][i] == m && both(m) && forall j: nat :: j < i ==> !both(ms[1..][j]);
          assert ms[i + 1] == m && forall j: nat :: j < i + 1 ==> !both(ms[j]);
        }
      }
    }
  }

  predicate IsTenant(m: Membership) {
    !m.isPlatform
  }

  predicate Anything(m: Membership) {
    true
  }

  lemma {:induction false} FindSame(ms: seq<Membership>, p: Membership -> bool, q: Membership -> bool)
    requires forall m :: p(m) == q(m)
    ensures Find(ms, p) == Find(ms, q)
  {
    if ms != [] {
      FindSame(ms[1..], p, q);
    }
  }

  /**
   * The documented priority: the preferred workspace while the user is a usable member of it,
   * otherwise the first usable tenant workspace, otherwise the first usable membership; nothing
   * exactly when no membership is usable.
   */
  lemma PickFollowsPriority(ms: seq<Membership>, preferred: string)
    ensures
      var picked := PickActiveWorkspace(ms, preferred);
      var isPreferred := (m: Membership) => Usable(m) && (m.organisationId == preferred);
      var isUsableTenant := (m: Membership) => Usable(m) && IsTenant(m);
      if forall i: nat :: i < |ms| ==> !Usable(ms[i]) then picked.None?
      else if preferred != "" && exists i: nat :: i < |ms| && isPreferred(ms[i]) then
        picked.Some? && Usable(picked.value) && picked.value.organisationId == preferred
      else if exists i: nat :: i < |ms| && isUsableTenant(ms[i]) then
        picked.Some? && IsFirst(ms, (m: Membership) => Usable(m) && IsTenant(m), picked.value)
      else picked.Some? && IsFirst(ms, (m: Membership) => Usable(m) && Anything(m), picked.value)
  {
    var usable := Filter(ms, Usable);
    var named := (m: Membership) => m.organisationId == preferred;
    var tenant := (m: Membership) => !m.isPlatform;
    FindInFilter(ms, Usable, named);
    FindInFilter(ms, Usable, IsTenant);
    FindInFilter(ms, Usable, Anything);
    FindSame(usable, tenant, IsTenant);
    FirstFound(usable);
    FindSatisfies(usable, named);
    if Find(usable, named).Some? {
      FilterMembers(ms, Usable, Find(usable, named).value);
    }
  }

  lemma FirstFound(usable: seq<Membership>)
    ensures Find(usable, Anything) == if usable == [] then None else Some(usable[0])
  {
  }

  /** Resolving again from the resolved workspace gives the same workspace. */
  lemma PickIsStable(ms: seq<Membership>, preferred: string)
    requires PickActiveWorkspace(ms, preferred).Some?
    ensures var org := PickActiveWorkspace(ms, preferred).value.organisationId;
      org != "" ==> PickActiveWorkspace(ms, org).Some? && PickActiveWorkspace(ms, org).value.organisationId == org
  {
    PickFollowsPriority(ms, preferred);
    var m := PickActiveWorkspace(ms, preferred).value;
    PickFollowsPriority(ms, m.organisationId);
    assert Usable(m) && m in ms by {
      var usable := Filter(ms, Usable);
      FindSatisfies(usable, (x: Membership) => x.organisationId == preferred);
      FindSatisfies(usable, (x: Membership) => !x.isPlatform);
      assert m in usable;
      FilterMembers(ms, Usable, m);
    }
    var i: nat :| i < |ms| && ms[i] == m;
  }

  lemma {:induction false} FilterMembers(ms: seq<Membership>, p: Membership -> bool, m: Membership)
    ensures m in Filter(ms, p) <==> m in ms && p(m)
  {
    if ms != [] {
      FilterMembers(ms[1..], p, m);
    }
  }

  lemma {:induction false} FindSatisfies(ms: seq<Membership>, p: Membership -> bool)
    ensures Find(ms, p).Some? ==> Find(ms, p).value in ms && p(Find(ms, p).value)
  {
    if ms != [] {
      FindSatisfies(ms[1..], p);
    }
  }
}

/** The expected-workspace guard every mutating route runs, and the session it protects. */
module MutationGuard {
  import opened Wrappers
  import opened Texts
  import opened ActiveWorkspace

  /** The two columns of the user row the guard reads; any write to the row raises the revision. */
  datatype Row = Row(activeOrganisationId: string, revision: string)

  datatype Verdict = Pass | WorkspaceChanged

  /** The header wins over the body field; blank values count as missing. */
  function ReadExpected(header: string, bodyField: string): string {
    if Trim(header) != "" then Trim(header) else Trim(bodyField)
  }

  function AssertExpectedOrganisation(active: string, expected: string): Verdict {
    if expected == "" || expected == active then Pass else WorkspaceChanged
  }

  function AssertExpectedWorkspaceRevision(active: string, expected: string): Verdict {
    if expected == "" || expected == active then Pass else WorkspaceChanged
  }

  function AuthoritativeOrganisation(user: Option<Row>, sessionOrganisation: string): string {
    if user.Some? && user.value.activeOrganisationId != "" then user.value.activeOrganisationId
    else sessionOrganisation
  }

  /** The comparisons of requireSessionForMutation and requirePermissionForMutation. */
  function Guard(user: Option<Row>, sessionOrganisation: string, expectedOrganisation: string,
                 expectedRevision: string): Verdict
  {
    var organisation := AssertExpectedOrganisation(
                          AuthoritativeOrganisation(user, sessionOrganisation), expectedOrganisation);
    if organisation == WorkspaceChanged then WorkspaceChanged
    else if user.Some? && user.value.revision != "" then
      AssertExpectedWorkspaceRevision(user.value.revision, expectedRevision)
    else Pass
  }

  /**
   * An organisation header alone cannot see a switch away and back: the guard accepts it in
   * every row whose active organisation is the expected one, whatever the revision.
   */
  lemma OrganisationHeaderAloneIgnoresRevisions(user: Row, sessionOrganisation: string, expected: string)
    requires expected != "" && user.activeOrganisationId != ""
    ensures Guard(Some(user), sessionOrganisation, expected, "") == Pass
            <==> user.activeOrganisationId == expected
    ensures user.revision != "" ==>
              forall revision :: revision != "" ==>
                (Guard(Some(user), sessionOrganisation, expected, revision) == Pass
                 <==> user == Row(expected, revision))
  {
  }

  /**
   * What a request is checked for: a header that is not blank counts, else the body's field, without the space around
   * it. The guard passes it if and only if each of the two values is missing or that of the user row; a user without
   * a row is checked against the session's organisation, and without a revision against none.
   */
  lemma GuardComparesWhatIsSent(user: Option<Row>, session: string, header: string, bodyField: string,
                                revisionHeader: string, revisionField: string)
    ensures
      var organisation := if OnlySpace(header) then Trim(bodyField) else Trim(header);
      var revision := if OnlySpace(revisionHeader) then Trim(revisionField) else Trim(revisionHeader);
      var active := if user.Some? && user.value.activeOrganisationId != "" then user.value.activeOrganisationId else session;
      Guard(user, session, ReadExpected(header, bodyField), ReadExpected(revisionHeader, revisionField)) == Pass
      <==> (organisation == "" || organisation == active)
           && (revision == "" || user.None? || user.value.revision == "" || revision == user.value.revision)
  {
    TrimIsEmpty(header);
    TrimIsEmpty(revisionHeader);
  }

  /** The organisation claim the session carries. */
  datatype Token = Token(organisationId: string)

  /**
   * The recheck the session callback runs on every request: it follows the row's active
   * organisation, re-resolves memberships when that changed or the periodic check is due, and
   * writes the row back only when the claim had to change. A database error keeps the claim.
   */
  function RecheckToken(token: Token, user: Row, memberships: seq<Membership>, databaseUp: bool,
                        due: bool, nextRevision: string): (Token, Row)
  {
    var preferred := if user.activeOrganisationId != "" then user.activeOrganisationId else token.organisationId;
    var changed := preferred != "" && preferred != token.organisationId;
    if !databaseUp || !(due || changed) then (token, user)
    else
      var picked := PickActiveWorkspace(memberships, preferred);
      if picked.None? then (Token(""), user)
      else
        var row := if changed || token.organisationId == ""
                   then Row(picked.value.organisationId, nextRevision) else user;
        (Token(picked.value.organisationId), row)
  }

  ghost predicate UsableMember(memberships: seq<Membership>, organisation: string) {
    exists i: nat :: i < |memberships| && Usable(memberships[i]) && memberships[i].organisationId == organisation
  }

  /** `later` is a state the row can reach from `earlier` when every write raises the revision. */
  ghost predicate SameOrLater(earlier: Row, later: Row) {
    earlier == later || Less(earlier.revision, later.revision)
  }

  /**
   * Where an accepted write lands. The guard checks the user row, but the write uses the
   * session's organisation. When both headers of a snapshot are accepted the row is unchanged
   * since the snapshot, and the write lands in the expected organisation exactly when the
   * recheck did not fall back: with the database up, when no periodic check was due or the user
   * is still a usable member of that organisation; with it down, when the claim already named it.
   */
  lemma AcceptedWriteLandsWhereExpected(snapshot: Row, token: Token, atSession: Row, atGuard: Row,
                                        memberships: seq<Membership>, databaseUp: bool, due: bool,
                                        nextRevision: string)
    requires snapshot.activeOrganisationId != "" && snapshot.revision != ""
    requires SameOrLater(snapshot, atSession) && Less(atSession.revision, nextRevision)
    requires SameOrLater(RecheckToken(token, atSession, memberships, databaseUp, due, nextRevision).1, atGuard)
    requires RecheckToken(token, atSession, memberships, databaseUp, due, nextRevision).0.organisationId != ""
    requires Guard(Some(atGuard),
                   RecheckToken(token, atSession, memberships, databaseUp, due, nextRevision).0.organisationId,
                   snapshot.activeOrganisationId, snapshot.revision) == Pass
    ensures atGuard == snapshot
    ensures RecheckToken(token, atSession, memberships, databaseUp, due, nextRevision).0.organisationId
              == snapshot.activeOrganisationId
            <==> (if databaseUp then !due || UsableMember(memberships, snapshot.activeOrganisationId)
                  else token.organisationId == snapshot.activeOrganisationId)
  {
    var (session, rechecked) := RecheckToken(token, atSession, memberships, databaseUp, due, nextRevision);
    LessIrreflexive(snapshot.revision);
    LessIrreflexive(atGuard.revision);
    if Less(snapshot.revision, atSession.revision) {
      LessTransitive(snapshot.revision, atSession.revision, nextRevision);
    }
    if Less(snapshot.revision, rechecked.revision) && Less(rechecked.revision, atGuard.revision) {
      LessTransitive(snapshot.revision, rechecked.revision, atGuard.revision);
    }
    assert atGuard.revision == snapshot.revision || atGuard.revision == "";
    assert rechecked == atSession == snapshot;
    PickFollowsPriority(memberships, snapshot.activeOrganisationId);
  }

  /**
   * The fallback really misroutes: a tab frozen in organisation "a", whose organisation has been
   * suspended, gets its mutation accepted and the write goes to organisation "b".
   */
  lemma SuspendedWorkspaceMisroutesWrite()
    ensures
      var row := Row("a", "1");
      var memberships := [Membership("a", false, false, false), Membership("b", false, false, true)];
      var (session, after) := RecheckToken(Token("a"), row, memberships, true, true, "2");
      && session.organisationId == "b"
      && Guard(Some(after), session.organisationId, "a", "1") == Pass
  {
    var memberships := [Membership("a", false, false, false), Membership("b", false, false, true)];
    assert memberships[1..] == [memberships[1]];
    assert Filter(memberships, Usable) == [memberships[1]];
  }
}
