/**
 * Overlapping content changes of one knowledge document. updateKnowledgeDocument reads the row,
 * saves the content it read and writes the new one in one transaction, then deletes the chunks and
 * then creates new ones; any other change may come between any two of these.
 */
module KnowledgeEdits {
  import opened Wrappers
  import opened Sums
  import opened Knowledge

  /** How far a call has come. */
  datatype Call =
    | HasRead(version: int, content: string, next: string)
    | HasSaved(next: string)
    | HasCleared(next: string)
    | Returned
    | Refused

  /** `written` lists every content the row has had, `writer` is the call that wrote the last one. */
  datatype State = State(version: int, content: string, saved: seq<Saved>, chunks: seq<string>, calls: seq<Call>,
                         written: seq<string>, writer: Option<nat>)

  datatype Step = Begin(content: Option<string>) | Advance(call: nat)

  function ChunksOf(content: string): seq<string> {
    Chunks(Normalize(content), CHUNK_SIZE)
  }

  function Created(content: string): State {
    State(1, content, [], ChunksOf(content), [], [content], None)
  }

  /** The unique index on document and version. */
  predicate Taken(saved: seq<Saved>, version: int) {
    exists i :: 0 <= i < |saved| && saved[i].version == version
  }

  function Next(s: State, step: Step): State {
    match step
    case Begin(content) =>
      if content.Some? && content.value != s.content
      then s.(calls := s.calls + [HasRead(s.version, s.content, content.value)]) else s
    case Advance(c) =>
      if c >= |s.calls| then s
      else
        match s.calls[c]
        case HasRead(version, content, next) =>
          if Taken(s.saved, version) then s.(calls := s.calls[c := Refused])
          else s.(version := version + 1, content := next, saved := s.saved + [Saved(version, content)],
                  calls := s.calls[c := HasSaved(next)], written := s.written + [next], writer := Some(c))
        case HasSaved(next) => s.(chunks := [], calls := s.calls[c := HasCleared(next)])
        case HasCleared(next) => s.(chunks := s.chunks + ChunksOf(next), calls := s.calls[c := Returned])
        case _ => s
  }

  function Run(s: State, steps: seq<Step>): State {
    if steps == [] then s else Next(Run(s, steps[..|steps| - 1]), steps[|steps| - 1])
  }

  // The history of contents

  ghost predicate Numbered(saved: seq<Saved>) {
    forall i :: 0 <= i < |saved| ==> saved[i].version == i + 1
  }

  /** A call that has read holds what the row was at its version, and a different content. */
  predicate ReadSound(call: Call, version: int, written: seq<string>) {
    call.HasRead? ==>
      1 <= call.version <= version <= |written| && call.content == written[call.version - 1] && call.next != call.content
  }

  ghost predicate NoRepeats(written: seq<string>) {
    forall i :: 0 < i < |written| ==> written[i - 1] != written[i]
  }

  ghost predicate Sound(s: State) {
    && s.version == |s.saved| + 1 && Numbered(s.saved)
    && SavedContents(s.saved) + [s.content] == s.written && NoRepeats(s.written)
    && forall c :: 0 <= c < |s.calls| ==> ReadSound(s.calls[c], s.version, s.written)
  }

  /** The index refuses exactly the versions before the row's. */
  lemma TakenBefore(saved: seq<Saved>, version: int)
    requires Numbered(saved) && version >= 1
    ensures Taken(saved, version) <==> version <= |saved|
  {
    if version <= |saved| {
      assert saved[version - 1].version == version;
    }
  }

  lemma CommitKeepsSound(s: State, c: nat, after: State)
    requires Sound(s) && c < |s.calls| && s.calls[c].HasRead? && after == Next(s, Advance(c))
    ensures Sound(after)
    ensures after.calls[c].Refused? <==> s.calls[c].version != s.version
  {
    var call := s.calls[c];
    assert ReadSound(call, s.version, s.written);
    TakenBefore(s.saved, call.version);
    if call.version == s.version {
      assert s.written[s.version - 1] == s.content;
      assert SavedContents(after.saved) == SavedContents(s.saved) + [s.content];
      forall d | 0 <= d < |after.calls|
        ensures ReadSound(after.calls[d], after.version, after.written)
      {
        assert ReadSound(s.calls[d], s.version, s.written);
      }
    }
  }

  lemma StepKeepsSound(s: State, step: Step)
    requires Sound(s)
    ensures Sound(Next(s, step))
  {
    if step.Advance? && step.call < |s.calls| && s.calls[step.call].HasRead? {
      CommitKeepsSound(s, step.call, Next(s, step));
    } else if step.Begin? {
      assert s.written[|s.saved|] == s.content;
    }
  }

  lemma {:induction false} RunKeepsSound(s: State, steps: seq<Step>)
    requires Sound(s)
    ensures Sound(Run(s, steps))
  {
    if steps != [] {
      RunKeepsSound(s, steps[..|steps| - 1]);
      StepKeepsSound(Run(s, steps[..|steps| - 1]), steps[|steps| - 1]);
    }
  }

  lemma CreatedIsSound(content: string)
    ensures Sound(Created(content))
  {
    assert SavedContents([]) == [];
  }

  /**
   * However content changes overlap, the document's version is one more than its saved versions,
   * these are numbered from 1, and saved contents and content together are exactly the contents
   * the row has had, in order, none equal to the one before it.
   */
  lemma OverlappingChangesKeepHistory(content: string, steps: seq<Step>)
    ensures
      var s := Run(Created(content), steps);
      && s.version == |s.saved| + 1 && Numbered(s.saved)
      && SavedContents(s.saved) + [s.content] == s.written && NoRepeats(s.written)
  {
    CreatedIsSound(content);
    RunKeepsSound(Created(content), steps);
  }

  /**
   * The unique index makes the transaction a compare-and-swap: in every run a change is refused if
   * and only if another change was written since it read the row. So no content is ever lost.
   */
  lemma RefusedExactlyWhenStale(content: string, steps: seq<Step>, c: nat)
    requires c < |Run(Created(content), steps).calls| && Run(Created(content), steps).calls[c].HasRead?
    ensures
      var s := Run(Created(content), steps);
      && (Next(s, Advance(c)).calls[c].Refused? <==> s.version != s.calls[c].version)
      && (s.version == s.calls[c].version ==> s.content == s.calls[c].content)
  {
    CreatedIsSound(content);
    RunKeepsSound(Created(content), steps);
    var s := Run(Created(content), steps);
    assert ReadSound(s.calls[c], s.version, s.written);
    CommitKeepsSound(s, c, Next(s, Advance(c)));
  }

  // Whether the chunks are those of the content

  /** A call whose content is in the row and whose chunks are not created yet. */
  predicate Unindexed(call: Call) {
    call.HasSaved? || call.HasCleared?
  }

  predicate Quiet(s: State) {
    forall c :: 0 <= c < |s.calls| ==> !Unindexed(s.calls[c])
  }

  /** A call writes the row only when no other still has chunks to create. */
  predicate WritesInTurn(s: State, step: Step) {
    step.Advance? && step.call < |s.calls| && s.calls[step.call].HasRead? ==> Quiet(s)
  }

  /** The one call that has chunks to create wrote the row, and none are there once it has cleared them. */
  predicate Waits(s: State, c: nat)
    requires c < |s.calls| && Unindexed(s.calls[c])
  {
    s.writer == Some(c) && s.calls[c].next == s.content && (s.calls[c].HasCleared? ==> s.chunks == [])
  }

  ghost predicate Orderly(s: State) {
    && (Quiet(s) ==> s.chunks == ChunksOf(s.content))
    && forall c :: 0 <= c < |s.calls| && Unindexed(s.calls[c]) ==> Waits(s, c)
  }

  lemma BeginKeepsOrder(s: State, step: Step, after: State)
    requires Orderly(s) && step.Begin? && after == Next(s, step)
    ensures Orderly(after)
  {
    forall c | 0 <= c < |after.calls| && Unindexed(after.calls[c])
      ensures Waits(after, c)
    {
      assert after.calls[c] == s.calls[c];
    }
    if Quiet(after) {
      forall c | 0 <= c < |s.calls|
        ensures !Unindexed(s.calls[c])
      {
        assert after.calls[c] == s.calls[c];
      }
    }
  }

  lemma AdvanceKeepsOrder(s: State, c: nat, after: State)
    requires Orderly(s) && c < |s.calls| && WritesInTurn(s, Advance(c)) && after == Next(s, Advance(c))
    ensures Orderly(after)
  {
    if Unindexed(s.calls[c]) {
      assert Waits(s, c);
    }
    forall d | 0 <= d < |after.calls| && Unindexed(after.calls[d])
      ensures Waits(after, d)
    {
      if d != c {
        assert after.calls[d] == s.calls[d] && Waits(s, d);
      }
    }
    if Unindexed(after.calls[c]) {
      assert !Quiet(after);
    } else if s.calls[c].HasRead? {
      assert after.calls[c].Refused?;
    } else if s.calls[c].HasCleared? {
      assert after.chunks == ChunksOf(s.content);
    }
  }

  /** The calls that still have chunks to create. */
  function Outstanding(calls: seq<Call>): nat {
    Count(calls, (call: Call) => Unindexed(call))
  }

  /** At no point of the run are more than `n` outstanding. */
  predicate AtMostOutstanding(s: State, steps: seq<Step>, n: nat) {
    && Outstanding(Run(s, steps).calls) <= n
    && (steps == [] || AtMostOutstanding(s, steps[..|steps| - 1], n))
  }

  predicate ChunksAreCurrent(s: State) {
    s.chunks == ChunksOf(s.content)
  }

  /** The chunks are those of the content at every quiet point of every run with at most `n` outstanding. */
  ghost predicate CurrentWithOutstanding(n: nat) {
    forall content: string, steps: seq<Step> ::
      AtMostOutstanding(Created(content), steps, n) && Quiet(Run(Created(content), steps)) ==>
        ChunksAreCurrent(Run(Created(content), steps))
  }

  /** A write out of turn leaves two outstanding, unless it is refused, which changes nothing. */
  lemma RefusedOutOfTurn(s: State, c: nat, after: State)
    requires Orderly(s) && c < |s.calls| && s.calls[c].HasRead? && !Quiet(s)
    requires after == Next(s, Advance(c)) && Outstanding(after.calls) <= 1
    ensures Orderly(after)
  {
    var d :| 0 <= d < |s.calls| && Unindexed(s.calls[d]);
    assert after.calls[d] == s.calls[d];
    if after.calls[c].HasSaved? {
      CountsEach(after.calls, if c < d then c else d, if c < d then d else c, (call: Call) => Unindexed(call));
    }
    forall e | 0 <= e < |after.calls| && Unindexed(after.calls[e])
      ensures Waits(after, e)
    {
      assert after.calls[e] == s.calls[e] && Waits(s, e);
    }
  }
  lemma {:induction false} OneOutstandingStaysOrderly(s: State, steps: seq<Step>)
    requires Orderly(s) && AtMostOutstanding(s, steps, 1)
    ensures Orderly(Run(s, steps))
  {
    if steps != [] {
      var before, last := Run(s, steps[..|steps| - 1]), steps[|steps| - 1];
      OneOutstandingStaysOrderly(s, steps[..|steps| - 1]);
      if last.Begin? {
        BeginKeepsOrder(before, last, Next(before, last));
      } else if last.call < |before.calls| {
        if WritesInTurn(before, last) {
          AdvanceKeepsOrder(before, last.call, Next(before, last));
        } else {
          RefusedOutOfTurn(before, last.call, Next(before, last));
        }
      }
    }
  }

  lemma {:induction false} FewerOutstanding(s: State, steps: seq<Step>, n: nat, m: nat)
    requires AtMostOutstanding(s, steps, n) && n <= m
    ensures AtMostOutstanding(s, steps, m)
  {
    if steps != [] {
      FewerOutstanding(s, steps[..|steps| - 1], n, m);
    }
  }

  // Two changes whose chunks are created out of order

  lemma RunSnoc(s: State, steps: seq<Step>, step: Step, before: State, longer: seq<Step>)
    requires longer == steps + [step] && before == Run(s, steps)
    ensures Run(s, longer) == Next(before, step)
  {
    assert longer[..|steps|] == steps;
  }

  lemma RunPair(s: State, steps: seq<Step>, a: Step, b: Step, before: State, between: State)
    requires before == Run(s, steps) && between == Next(before, a)
    ensures Run(s, steps + [a, b]) == Next(between, b)
  {
    assert steps + [a, b] == steps + [a] + [b];
    RunSnoc(s, steps, a, before, steps + [a]);
    RunSnoc(s, steps + [a], b, between, steps + [a, b]);
  }

  const TURN := [Advance(0), Advance(1)]

  function Changing(a: string, b: string): seq<Step> {
    [Begin(Some(a)), Advance(0)] + [Begin(Some(b)), Advance(1)]
  }

  /** Both changes are written, the second after reading the first. */
  lemma BothWritten(first: string, a: string, b: string, after: State)
    requires a != first && b != a && after == Run(Created(first), Changing(a, b))
    ensures after.content == b && after.calls == [HasSaved(a), HasSaved(b)]
  {
    var s := Created(first);
    var s1 := Next(s, Begin(Some(a)));
    var s2 := Next(s1, Advance(0));
    var s3 := Next(s2, Begin(Some(b)));
    TakenBefore(s.saved, 1);
    TakenBefore(s2.saved, 2);
    RunPair(s, [], Begin(Some(a)), Advance(0), s, s1);
    assert [] + [Begin(Some(a)), Advance(0)] == [Begin(Some(a)), Advance(0)];
    RunPair(s, [Begin(Some(a)), Advance(0)], Begin(Some(b)), Advance(1), s2, s3);
    assert s2.calls == [HasSaved(a)] && s3.calls == [HasSaved(a), HasRead(2, a, b)];
  }

  lemma BothCleared(s: State, a: string, b: string, after: State)
    requires s.calls == [HasSaved(a), HasSaved(b)] && after == Next(Next(s, Advance(0)), Advance(1))
    ensures after.chunks == [] && after.content == s.content && after.calls == [HasCleared(a), HasCleared(b)]
  {
  }

  lemma BothCreated(s: State, a: string, b: string, after: State)
    requires s.calls == [HasCleared(a), HasCleared(b)] && s.chunks == [] && after == Next(Next(s, Advance(0)), Advance(1))
    ensures after.chunks == ChunksOf(a) + ChunksOf(b) && after.content == s.content && after.calls == [Returned, Returned]
  {
    assert [] + ChunksOf(a) == ChunksOf(a);
  }

  /** For any two changes: both delete before either creates, and the document keeps the chunks of both. */
  lemma ChunksOfBothStay(first: string, a: string, b: string)
    requires a != first && b != a
    ensures
      var s := Run(Created(first), Changing(a, b) + TURN + TURN);
      Quiet(s) && s.content == b && s.chunks == ChunksOf(a) + ChunksOf(b)
  {
    var s0 := Run(Created(first), Changing(a, b));
    BothWritten(first, a, b, s0);
    RunPair(Created(first), Changing(a, b), Advance(0), Advance(1), s0, Next(s0, Advance(0)));
    var s1 := Run(Created(first), Changing(a, b) + TURN);
    BothCleared(s0, a, b, s1);
    RunPair(Created(first), Changing(a, b) + TURN, Advance(0), Advance(1), s1, Next(s1, Advance(0)));
    BothCreated(s1, a, b, Run(Created(first), Changing(a, b) + TURN + TURN));
  }

  /** No more calls can be outstanding than have begun. */
  function Begun(steps: seq<Step>): nat {
    if steps == [] then 0 else Begun(steps[..|steps| - 1]) + if steps[|steps| - 1].Begin? then 1 else 0
  }

  lemma {:induction false} BegunConcat(a: seq<Step>, b: seq<Step>)
    ensures Begun(a + b) == Begun(a) + Begun(b)
  {
    if b == [] {
      assert a + b == a;
    } else {
      assert (a + b)[..|a + b| - 1] == a + b[..|b| - 1];
      BegunConcat(a, b[..|b| - 1]);
    }
  }

  lemma BegunPair(a: Step, b: Step)
    ensures Begun([a, b]) == (if a.Begin? then 1 else 0) + if b.Begin? then 1 else 0
  {
    assert [a][..0] == [];
    assert Begun([a]) == if a.Begin? then 1 else 0;
    assert [a, b][..1] == [a];
  }

  lemma {:induction false} CallsHaveBegun(s: State, steps: seq<Step>)
    ensures |Run(s, steps).calls| <= |s.calls| + Begun(steps)
  {
    if steps != [] {
      CallsHaveBegun(s, steps[..|steps| - 1]);
    }
  }

  lemma {:induction false} FewBegunFewOutstanding(s: State, steps: seq<Step>, n: nat)
    requires |s.calls| + Begun(steps) <= n
    ensures AtMostOutstanding(s, steps, n)
  {
    CallsHaveBegun(s, steps);
    CountAtMost(Run(s, steps).calls, (call: Call) => Unindexed(call));
    if steps != [] {
      FewBegunFewOutstanding(s, steps[..|steps| - 1], n);
    }
  }

  const BOTH := Changing("a", "b") + TURN + TURN

  lemma TwoOutstandingFail()
    ensures AtMostOutstanding(Created(""), BOTH, 2)
    ensures Quiet(Run(Created(""), BOTH)) && !ChunksAreCurrent(Run(Created(""), BOTH))
  {
    ChunksOfBothStay("", "a", "b");
    BegunConcat(Changing("a", "b") + TURN, TURN);
    BegunConcat(Changing("a", "b"), TURN);
    BegunConcat([Begin(Some("a")), Advance(0)], [Begin(Some("b")), Advance(1)]);
    BegunPair(Advance(0), Advance(1));
    BegunPair(Begin(Some("a")), Advance(0));
    BegunPair(Begin(Some("b")), Advance(1));
    FewBegunFewOutstanding(Created(""), BOTH, 2);
    ChunkOfLetter("a");
  }

  lemma ChunkOfLetter(s: string)
    requires s == "a"
    ensures ChunksOf(s) == ["a"]
  {
    assert UnixLines("a") == ['a'] + UnixLines("");
    assert Normalize("a") == "a";
  }

  /** The chunks stay those of the content exactly when no two changes are ever outstanding at once. */
  lemma ChunksCurrentOneChangeAtATime(n: nat)
    ensures CurrentWithOutstanding(n) <==> n <= 1
  {
    if n <= 1 {
      forall content: string, steps: seq<Step>
        | AtMostOutstanding(Created(content), steps, n) && Quiet(Run(Created(content), steps))
        ensures ChunksAreCurrent(Run(Created(content), steps))
      {
        FewerOutstanding(Created(content), steps, n, 1);
        OneOutstandingStaysOrderly(Created(content), steps);
      }
    } else {
      TwoOutstandingFail();
      FewerOutstanding(Created(""), BOTH, 2, n);
    }
  }
}
