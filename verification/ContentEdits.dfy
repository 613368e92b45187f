/**
 * Overlapping edits of one piece. updatePiece reads the piece, writes its row, reads the highest
 * version and adds the next one; any other edit may come between any two of these.
 */
module ContentEdits {
  import opened Wrappers
  import opened Sums
  import opened ContentModel
  import opened ContentLifecycle
  import opened Texts

  /** The text an edit writes, worked out from what it read. */
  datatype Text = Text(title: string, body: string)

  /** How far a call has come; `last` is the highest version it read. */
  datatype Call =
    | HasRead(text: Text) | HasWritten(text: Text) | HasCounted(text: Text, last: int)
    | Returned(text: Text) | Refused(text: Text)

  /** The row's text, the saved versions, the calls, and which call wrote the row and which saved a version last. */
  datatype State = State(row: Text, versions: seq<Version>, calls: seq<Call>, writer: Option<nat>, saver: Option<nat>)

  datatype Step = Begin(title: Option<string>, body: Option<string>) | Advance(call: nat)

  /** A piece as it is created: one version holding its text. */
  function Created(id: nat, text: Text): State {
    State(text, [Version(id, 1, text.title, text.body)], [], None, None)
  }

  /** The unique index on piece and version. */
  predicate Taken(versions: seq<Version>, version: int) {
    exists i :: 0 <= i < |versions| && versions[i].version == version
  }

  function Edited(row: Text, title: Option<string>, body: Option<string>): Text {
    Text(if title.Some? then Trim(title.value) else row.title, if body.Some? then body.value else row.body)
  }

  function Next(id: nat, s: State, step: Step): State {
    match step
    case Begin(title, body) => s.(calls := s.calls + [HasRead(Edited(s.row, title, body))])
    case Advance(c) =>
      if c >= |s.calls| then s
      else
        match s.calls[c]
        case HasRead(text) => s.(row := text, writer := Some(c), calls := s.calls[c := HasWritten(text)])
        case HasWritten(text) => s.(calls := s.calls[c := HasCounted(text, LastVersion(s.versions, id))])
        case HasCounted(text, last) =>
          if Taken(s.versions, last + 1) then s.(calls := s.calls[c := Refused(text)])
          else s.(versions := s.versions + [Version(id, last + 1, text.title, text.body)],
                  saver := Some(c), calls := s.calls[c := Returned(text)])
        case _ => s
  }

  function Run(id: nat, s: State, steps: seq<Step>): State {
    if steps == [] then s else Next(id, Run(id, s, steps[..|steps| - 1]), steps[|steps| - 1])
  }

  ghost predicate AllOf(versions: seq<Version>, id: nat) {
    forall i :: 0 <= i < |versions| ==> versions[i].pieceId == id
  }

  lemma {:induction false} AllOfPiece(versions: seq<Version>, id: nat)
    requires AllOf(versions, id)
    ensures VersionsOf(versions, id) == versions
  {
    if versions != [] {
      AllOfPiece(versions[..|versions| - 1], id);
    }
  }

  lemma HighestIsCount(versions: seq<Version>, id: nat)
    requires AllOf(versions, id) && Numbered(versions)
    ensures LastVersion(versions, id) == |versions|
  {
    AllOfPiece(versions, id);
    LastVersionIsCount(versions, id);
  }

  ghost predicate CallCounted(call: Call, versions: seq<Version>) {
    call.HasCounted? ==> 0 <= call.last <= |versions|
  }

  ghost predicate Sound(id: nat, s: State) {
    && s.versions != [] && AllOf(s.versions, id) && Numbered(s.versions)
    && forall c :: 0 <= c < |s.calls| ==> CallCounted(s.calls[c], s.versions)
  }

  lemma LowerIsTaken(versions: seq<Version>, version: int)
    requires Numbered(versions) && 1 <= version <= |versions|
    ensures Taken(versions, version)
  {
    assert versions[version - 1].version == version;
  }

  lemma StepKeepsSound(id: nat, s: State, step: Step)
    requires Sound(id, s)
    ensures Sound(id, Next(id, s, step))
  {
    if step.Advance? && step.call < |s.calls| {
      var call := s.calls[step.call];
      assert CallCounted(call, s.versions);
      HighestIsCount(s.versions, id);
      if call.HasCounted? && call.last < |s.versions| {
        LowerIsTaken(s.versions, call.last + 1);
      }
    }
  }

  lemma {:induction false} RunKeepsSound(id: nat, s: State, steps: seq<Step>)
    requires Sound(id, s)
    ensures Sound(id, Run(id, s, steps))
  {
    if steps != [] {
      RunKeepsSound(id, s, steps[..|steps| - 1]);
      StepKeepsSound(id, Run(id, s, steps[..|steps| - 1]), steps[|steps| - 1]);
    }
  }

  /**
   * However edits overlap, a piece's versions are numbered 1..n without gaps or repeats: an edit
   * that lost the race for a number is refused by the unique index, never numbered wrongly.
   */
  lemma OverlappingEditsStayNumbered(id: nat, text: Text, steps: seq<Step>)
    ensures var versions := Run(id, Created(id, text), steps).versions; versions != [] && Numbered(versions)
  {
    RunKeepsSound(id, Created(id, text), steps);
  }

  // Whether the newest version is the current text

  function Newest(s: State): Text
    requires s.versions != []
  {
    Text(s.versions[|s.versions| - 1].title, s.versions[|s.versions| - 1].body)
  }

  /** A call whose write is in the row and whose version is not saved yet. */
  predicate Unsaved(call: Call) {
    call.HasWritten? || call.HasCounted?
  }

  predicate Quiet(s: State) {
    forall c :: 0 <= c < |s.calls| ==> !Unsaved(s.calls[c])
  }

  /** The text of the call, or the first text if no call did it. */
  function TextOf(s: State, first: Text, who: Option<nat>): Text {
    if who.Some? && who.value < |s.calls| then s.calls[who.value].text else first
  }

  predicate Authored(s: State, first: Text) {
    && s.versions != []
    && (s.writer.Some? ==> s.writer.value < |s.calls|) && (s.saver.Some? ==> s.saver.value < |s.calls|)
    && s.row == TextOf(s, first, s.writer) && Newest(s) == TextOf(s, first, s.saver)
  }

  lemma StepKeepsAuthors(id: nat, s: State, step: Step, first: Text)
    requires Authored(s, first)
    ensures Authored(Next(id, s, step), first)
  {
  }

  lemma {:induction false} RunKeepsAuthors(id: nat, s: State, steps: seq<Step>, first: Text)
    requires Authored(s, first)
    ensures Authored(Run(id, s, steps), first)
  {
    if steps != [] {
      RunKeepsAuthors(id, s, steps[..|steps| - 1], first);
      StepKeepsAuthors(id, Run(id, s, steps[..|steps| - 1]), steps[|steps| - 1], first);
    }
  }

  /**
   * In every run the newest version is the current text if and only if the call that last wrote
   * the row and the call that last saved a version had the same text; so whenever they are the
   * same call.
   */
  lemma NewestIsCurrentWhenLastWriterSavedLast(id: nat, text: Text, steps: seq<Step>)
    ensures
      var s := Run(id, Created(id, text), steps);
      && s.versions != []
      && (Newest(s) == s.row <==> TextOf(s, text, s.writer) == TextOf(s, text, s.saver))
      && (s.writer == s.saver ==> Newest(s) == s.row)
  {
    RunKeepsAuthors(id, Created(id, text), steps, text);
  }

  /** A call writes the row only when no other write waits for its version. */
  predicate WritesInTurn(s: State, step: Step) {
    step.Advance? && step.call < |s.calls| && s.calls[step.call].HasRead? ==> Quiet(s)
  }

  predicate InTurn(id: nat, s: State, steps: seq<Step>)
    decreases |steps|
  {
    if steps == [] then true
    else
      var before := steps[..|steps| - 1];
      InTurn(id, s, before) && WritesInTurn(Run(id, s, before), steps[|steps| - 1])
  }

  /** The one call that waits for its version wrote the row, and no version was saved since it counted. */
  predicate Waits(s: State, c: nat)
    requires c < |s.calls|
  {
    && s.writer == Some(c)
    && (s.calls[c].HasCounted? ==> s.calls[c].last == |s.versions|)
  }

  ghost predicate Orderly(s: State) {
    && (Quiet(s) ==> s.writer == s.saver)
    && forall c :: 0 <= c < |s.calls| && Unsaved(s.calls[c]) ==> Waits(s, c)
  }

  lemma BeginKeepsOrder(id: nat, s: State, step: Step, after: State)
    requires Sound(id, s) && Orderly(s) && step.Begin? && after == Next(id, s, step)
    ensures Orderly(after)
  {
    forall c | 0 <= c < |after.calls| && Unsaved(after.calls[c])
      ensures Waits(after, c)
    {
      assert after.calls[c] == s.calls[c];
    }
    if Quiet(after) {
      forall c | 0 <= c < |s.calls|
        ensures !Unsaved(s.calls[c])
      {
        assert after.calls[c] == s.calls[c];
      }
    }
  }

  lemma AdvanceKeepsOrder(id: nat, s: State, c: nat, after: State)
    requires Sound(id, s) && Orderly(s) && c < |s.calls| && WritesInTurn(s, Advance(c))
    requires after == Next(id, s, Advance(c))
    ensures Orderly(after)
  {
    HighestIsCount(s.versions, id);
    if s.calls[c].HasCounted? {
      assert Waits(s, c);
      NextIsFree(s.versions);
    }
    forall d | 0 <= d < |after.calls| && Unsaved(after.calls[d])
      ensures Waits(after, d)
    {
      if d != c {
        assert after.calls[d] == s.calls[d] && Waits(s, d);
      }
    }
    if s.calls[c].HasRead? || s.calls[c].HasWritten? {
      assert Unsaved(after.calls[c]);
    }
  }

  lemma NextIsFree(versions: seq<Version>)
    requires Numbered(versions)
    ensures !Taken(versions, |versions| + 1)
  {
  }

  /** A call that nothing comes between is updatePiece: the same row, the same new version. */
  lemma EditAloneIsUpdate(id: nat, s: State, title: Option<string>, body: Option<string>, db: Db, organisation: string)
    requires Sound(id, s) && db.versions == s.versions && HasPiece(db, organisation, id)
    requires s.row == Text(db.pieces[id].title, db.pieces[id].body)
    requires db.pieces[id].status != Published && db.pieces[id].status != Archived
    ensures
      var c, updated := |s.calls|, UpdatePiece(db, organisation, id, title, body, None).0;
      var begun := Next(id, s, Begin(title, body));
      var after := Next(id, Next(id, Next(id, begun, Advance(c)), Advance(c)), Advance(c));
      && after.row == Text(updated.pieces[id].title, updated.pieces[id].body)
      && after.versions == updated.versions
      && after.calls == s.calls + [Returned(after.row)]
  {
    HighestIsCount(s.versions, id);
    NextIsFree(s.versions);
  }

  lemma {:induction false} RunKeepsOrder(id: nat, s: State, steps: seq<Step>)
    requires Sound(id, s) && Orderly(s) && InTurn(id, s, steps)
    ensures Orderly(Run(id, s, steps))
  {
    if steps != [] {
      var before, last := Run(id, s, steps[..|steps| - 1]), steps[|steps| - 1];
      RunKeepsOrder(id, s, steps[..|steps| - 1]);
      RunKeepsSound(id, s, steps[..|steps| - 1]);
      if last.Begin? {
        BeginKeepsOrder(id, before, last, Next(id, before, last));
      } else if last.call < |before.calls| {
        AdvanceKeepsOrder(id, before, last.call, Next(id, before, last));
      }
    }
  }

  /** While no edit writes the row before the edit that wrote it last has saved its version. */
  lemma EditsInTurnStayCurrent(id: nat, text: Text, steps: seq<Step>)
    requires InTurn(id, Created(id, text), steps)
    ensures
      var s := Run(id, Created(id, text), steps);
      Quiet(s) ==> s.versions != [] && Newest(s) == s.row
  {
    var created := Created(id, text);
    assert created.calls == [];
    RunKeepsOrder(id, created, steps);
    NewestIsCurrentWhenLastWriterSavedLast(id, text, steps);
  }

  lemma RunSnoc(id: nat, s: State, steps: seq<Step>, step: Step, before: State, longer: seq<Step>)
    requires longer == steps + [step] && before == Run(id, s, steps)
    ensures Run(id, s, longer) == Next(id, before, step)
  {
    assert longer[..|steps|] == steps;
  }

  lemma RunPair(id: nat, s: State, steps: seq<Step>, a: Step, b: Step, before: State, between: State)
    requires before == Run(id, s, steps) && between == Next(id, before, a)
    ensures Run(id, s, steps + [a, b]) == Next(id, between, b)
  {
    assert steps + [a, b] == steps + [a] + [b];
    RunSnoc(id, s, steps, a, before, steps + [a]);
    RunSnoc(id, s, steps + [a], b, between, steps + [a, b]);
  }

  const TURN := [Advance(0), Advance(1)]

  function Two(row: Text, versions: seq<Version>, one: Call, two: Call, writer: Option<nat>, saver: Option<nat>): State {
    State(row, versions, [one, two], writer, saver)
  }

  lemma TwoBegin(id: nat, text: Text, a: Text, b: Text, after: State)
    requires a == Edited(text, Some(a.title), Some(a.body)) && b == Edited(text, Some(b.title), Some(b.body))
    requires after == Run(id, Created(id, text), [Begin(Some(a.title), Some(a.body)), Begin(Some(b.title), Some(b.body))])
    ensures after == Two(text, Created(id, text).versions, HasRead(a), HasRead(b), None, None)
  {
    var first, second := Begin(Some(a.title), Some(a.body)), Begin(Some(b.title), Some(b.body));
    var created := Created(id, text);
    RunPair(id, created, [], first, second, created, Next(id, created, first));
    assert [] + [first, second] == [first, second];
  }

  lemma TwoWrite(id: nat, s: State, a: Text, b: Text)
    requires s.calls == [HasRead(a), HasRead(b)]
    ensures Next(id, Next(id, s, Advance(0)), Advance(1))
         == Two(b, s.versions, HasWritten(a), HasWritten(b), Some(1), s.saver)
  {
  }

  lemma TwoCount(id: nat, s: State, a: Text, b: Text)
    requires s.calls == [HasWritten(a), HasWritten(b)]
    ensures Next(id, Next(id, s, Advance(0)), Advance(1))
         == Two(s.row, s.versions, HasCounted(a, LastVersion(s.versions, id)), HasCounted(b, LastVersion(s.versions, id)),
                s.writer, s.saver)
  {
  }

  lemma TwoSave(id: nat, s: State, a: Text, b: Text, last: int)
    requires s.calls == [HasCounted(a, last), HasCounted(b, last)] && !Taken(s.versions, last + 1)
    ensures Next(id, Next(id, s, Advance(0)), Advance(1))
         == Two(s.row, s.versions + [Version(id, last + 1, a.title, a.body)], Returned(a), Refused(b), s.writer, Some(0))
  {
    var saved := s.versions + [Version(id, last + 1, a.title, a.body)];
    assert saved[|s.versions|].version == last + 1;
    assert Taken(saved, last + 1);
  }

  /**
   * Out of turn it can fail, for any two edits: both read the highest version before either saves.
   * The second is refused, yet its text stays in the row, and the newest version holds the first's.
   */
  lemma RefusedEditStaysInRow(id: nat, text: Text, a: Text, b: Text)
    requires a == Edited(text, Some(a.title), Some(a.body)) && b == Edited(text, Some(b.title), Some(b.body))
    ensures
      var begun := [Begin(Some(a.title), Some(a.body)), Begin(Some(b.title), Some(b.body))];
      var s := Run(id, Created(id, text), begun + TURN + TURN + TURN);
      && Quiet(s) && s.row == b && |s.versions| == 2 && Newest(s) == a && s.calls == [Returned(a), Refused(b)]
  {
    var begun := [Begin(Some(a.title), Some(a.body)), Begin(Some(b.title), Some(b.body))];
    var created, one := Created(id, text), Created(id, text).versions;
    var s0 := Run(id, created, begun);
    TwoBegin(id, text, a, b, s0);
    RunPair(id, created, begun, Advance(0), Advance(1), s0, Next(id, s0, Advance(0)));
    TwoWrite(id, s0, a, b);
    var s1 := Run(id, created, begun + TURN);
    RunPair(id, created, begun + TURN, Advance(0), Advance(1), s1, Next(id, s1, Advance(0)));
    TwoCount(id, s1, a, b);
    HighestIsCount(one, id);
    NextIsFree(one);
    var s2 := Run(id, created, begun + TURN + TURN);
    RunPair(id, created, begun + TURN + TURN, Advance(0), Advance(1), s2, Next(id, s2, Advance(0)));
    TwoSave(id, s2, a, b, 1);
  }

  // How many edits may be between their write and their version

  /** The calls whose write is in the row and whose version is not saved yet. */
  function Outstanding(calls: seq<Call>): nat {
    Count(calls, (call: Call) => Unsaved(call))
  }

  /** At no point of the run are more than `n` outstanding. */
  predicate AtMostOutstanding(id: nat, s: State, steps: seq<Step>, n: nat) {
    && Outstanding(Run(id, s, steps).calls) <= n
    && (steps == [] || AtMostOutstanding(id, s, steps[..|steps| - 1], n))
  }

  predicate NewestIsCurrent(s: State) {
    s.versions != [] && Newest(s) == s.row
  }

  /** The newest version is the current text at every quiet point of every run with at most `n` outstanding. */
  ghost predicate CurrentWithOutstanding(n: nat) {
    forall id: nat, text: Text, steps: seq<Step> ::
      AtMostOutstanding(id, Created(id, text), steps, n) && Quiet(Run(id, Created(id, text), steps)) ==>
        NewestIsCurrent(Run(id, Created(id, text), steps))
  }

  lemma {:induction false} OneOutstandingIsInTurn(id: nat, s: State, steps: seq<Step>)
    requires AtMostOutstanding(id, s, steps, 1)
    ensures InTurn(id, s, steps)
  {
    if steps != [] {
      var before, last := Run(id, s, steps[..|steps| - 1]), steps[|steps| - 1];
      OneOutstandingIsInTurn(id, s, steps[..|steps| - 1]);
      if !WritesInTurn(before, last) {
        var d :| 0 <= d < |before.calls| && Unsaved(before.calls[d]);
        WriteOutOfTurn(id, before, last.call, d);
      }
    }
  }

  lemma WriteOutOfTurn(id: nat, s: State, c: nat, d: nat)
    requires c < |s.calls| && s.calls[c].HasRead? && d < |s.calls| && Unsaved(s.calls[d])
    ensures Outstanding(Next(id, s, Advance(c)).calls) >= 2
  {
    var after := Next(id, s, Advance(c)).calls;
    assert Unsaved(after[c]) && Unsaved(after[d]);
    CountsEach(after, if c < d then c else d, if c < d then d else c, (call: Call) => Unsaved(call));
  }

  lemma {:induction false} FewerOutstanding(id: nat, s: State, steps: seq<Step>, n: nat, m: nat)
    requires AtMostOutstanding(id, s, steps, n) && n <= m
    ensures AtMostOutstanding(id, s, steps, m)
  {
    if steps != [] {
      FewerOutstanding(id, s, steps[..|steps| - 1], n, m);
    }
  }

  /** No more calls can be outstanding than have begun. */
  function Begun(steps: seq<Step>): nat {
    if steps == [] then 0 else Begun(steps[..|steps| - 1]) + if steps[|steps| - 1].Begin? then 1 else 0
  }

  lemma {:induction false} BegunConcat(a: seq<Step>, b: seq<Step>)
    ensures Begun(a + b) == Begun(a) + Begun(b)
  {
    if b == [] {
      assert a + b == a;
    } else {
      assert (a + b)[..|a + b| - 1] == a + b[..|b| - 1];
      BegunConcat(a, b[..|b| - 1]);
    }
  }

  lemma {:induction false} CallsHaveBegun(id: nat, s: State, steps: seq<Step>)
    ensures |Run(id, s, steps).calls| == |s.calls| + Begun(steps)
  {
    if steps != [] {
      CallsHaveBegun(id, s, steps[..|steps| - 1]);
    }
  }

  lemma {:induction false} FewBegunFewOutstanding(id: nat, s: State, steps: seq<Step>, n: nat)
    requires |s.calls| + Begun(steps) <= n
    ensures AtMostOutstanding(id, s, steps, n)
  {
    CallsHaveBegun(id, s, steps);
    CountAtMost(Run(id, s, steps).calls, (call: Call) => Unsaved(call));
    if steps != [] {
      FewBegunFewOutstanding(id, s, steps[..|steps| - 1], n);
    }
  }

  const ONE := Text("a", "a")
  const TWO := Text("b", "b")
  const BEGIN_BOTH := [Begin(Some("a"), Some("a")), Begin(Some("b"), Some("b"))]

  lemma TwoOutstandingFail()
    ensures AtMostOutstanding(0, Created(0, ONE), BEGIN_BOTH + TURN + TURN + TURN, 2)
    ensures var s := Run(0, Created(0, ONE), BEGIN_BOTH + TURN + TURN + TURN); Quiet(s) && !NewestIsCurrent(s)
  {
    assert ONE == Edited(ONE, Some("a"), Some("a")) && TWO == Edited(ONE, Some("b"), Some("b"));
    RefusedEditStaysInRow(0, ONE, ONE, TWO);
    BegunConcat(BEGIN_BOTH + TURN + TURN, TURN);
    BegunConcat(BEGIN_BOTH + TURN, TURN);
    BegunConcat(BEGIN_BOTH, TURN);
    assert TURN[..1] == [Advance(0)] && BEGIN_BOTH[..1] == [BEGIN_BOTH[0]];
    assert Begun([Advance(0)]) == 0 && Begun([BEGIN_BOTH[0]]) == 1;
    FewBegunFewOutstanding(0, Created(0, ONE), BEGIN_BOTH + TURN + TURN + TURN, 2);
  }

  /** The newest version stays the current text exactly when no two edits are ever outstanding at once. */
  lemma CurrentOneEditAtATime(n: nat)
    ensures CurrentWithOutstanding(n) <==> n <= 1
  {
    if n <= 1 {
      forall id: nat, text: Text, steps: seq<Step>
        | AtMostOutstanding(id, Created(id, text), steps, n) && Quiet(Run(id, Created(id, text), steps))
        ensures NewestIsCurrent(Run(id, Created(id, text), steps))
      {
        FewerOutstanding(id, Created(id, text), steps, n, 1);
        OneOutstandingIsInTurn(id, Created(id, text), steps);
        EditsInTurnStayCurrent(id, text, steps);
      }
    } else {
      TwoOutstandingFail();
      FewerOutstanding(0, Created(0, ONE), BEGIN_BOTH + TURN + TURN + TURN, 2, n);
    }
  }
}
