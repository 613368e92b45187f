/** The resumable embedding backfill of one organisation's chunks. */
module EmbeddingBackfill {
  import opened Wrappers

  /** A chunk row; `vector` stands for the embedding, `embeddedAt` for whether its time is set. */
  datatype Row = Row(id: nat, content: string, vector: Option<int>, embeddedAt: bool)

  /** What the embedding provider returns for each text it has a vector for. */
  type Provider = map<string, int>

  function VectorOf(provider: Provider, text: string): Option<int> {
    if text in provider then Some(provider[text]) else None
  }

  /** The chunk table in ascending id order. */
  ghost predicate Sorted(rows: seq<Row>) {
    SortedFrom(rows, 0)
  }

  ghost predicate SortedFrom(rows: seq<Row>, start: nat)
    decreases |rows| - start
  {
    start + 1 < |rows| ==> rows[start].id < rows[start + 1].id && SortedFrom(rows, start + 1)
  }

  lemma {:induction false} LaterIdIsLarger(rows: seq<Row>, start: nat, i: nat, j: nat)
    requires SortedFrom(rows, start) && start <= i < j < |rows|
    ensures rows[i].id < rows[j].id
    decreases j - start
  {
    if start < i {
      LaterIdIsLarger(rows, start + 1, i, j);
    } else if i + 1 < j {
      LaterIdIsLarger(rows, start + 1, i + 1, j);
    }
  }

  lemma {:induction false} SameIdsSameOrder(rows: seq<Row>, others: seq<Row>, start: nat)
    requires SortedFrom(rows, start)
    requires |others| == |rows| && forall i :: 0 <= i < |rows| ==> others[i].id == rows[i].id
    ensures SortedFrom(others, start)
    decreases |rows| - start
  {
    if start + 1 < |rows| {
      SameIdsSameOrder(rows, others, start + 1);
    }
  }

  /** The rows a call looks for: no embedding time, and an id beyond the cursor. */
  predicate Due(row: Row, cursor: Option<nat>) {
    !row.embeddedAt && (cursor.None? || row.id > cursor.value)
  }

  /** The positions, from `start` on, of the first `limit` due rows. */
  function Query(rows: seq<Row>, start: nat, cursor: Option<nat>, limit: nat): (r: seq<nat>)
    ensures forall k :: 0 <= k < |r| ==> start <= r[k] < |rows|
    decreases |rows| - start
  {
    if start >= |rows| || limit == 0 then []
    else if Due(rows[start], cursor) then [start] + Query(rows, start + 1, cursor, limit - 1)
    else Query(rows, start + 1, cursor, limit)
  }

  /** How many rows, from `start` on, have no embedding time. */
  function Remaining(rows: seq<Row>, start: nat): nat
    decreases |rows| - start
  {
    if start >= |rows| then 0
    else (if Due(rows[start], None) then 1 else 0) + Remaining(rows, start + 1)
  }

  function Clamp(requested: Option<int>): nat {
    var size := if requested.Some? then requested.value else 50;
    if size < 1 then 1 else if size > 200 then 200 else size
  }

  /** The size asked for, 50 if none is, kept between 1 and 200. */
  lemma SizeIsBetween(requested: Option<int>)
    ensures 1 <= Clamp(requested) <= 200
    ensures requested.None? ==> Clamp(requested) == 50
    ensures requested.Some? ==>
              (Clamp(requested) == requested.value <==> 1 <= requested.value <= 200)
              && (requested.value > 200 ==> Clamp(requested) == 200) && (requested.value < 1 ==> Clamp(requested) == 1)
  {
  }

  /** The update of one row, which matches only a row without an embedding. */
  function EmbedRow(row: Row, vector: Option<int>): Row {
    if vector.Some? && row.vector.None? then row.(vector := vector, embeddedAt := true) else row
  }

  function EmbedAll(rows: seq<Row>, batch: seq<nat>, provider: Provider): (r: seq<Row>)
    ensures |r| == |rows|
    ensures forall i {:trigger r[i]} :: 0 <= i < |r| ==>
              r[i] == if i in batch then EmbedRow(rows[i], VectorOf(provider, rows[i].content)) else rows[i]
  {
    seq(|rows|, i requires 0 <= i < |rows| =>
      if i in batch then EmbedRow(rows[i], VectorOf(provider, rows[i].content)) else rows[i])
  }

  datatype Report = Report(processed: nat, remaining: nat, cursor: Option<nat>, skippedUnconfigured: bool)

  /** The cursor after a batch: the id of its last row. */
  function CursorAfter(rows: seq<Row>, batch: seq<nat>, cursor: Option<nat>): Option<nat>
    requires forall k :: 0 <= k < |batch| ==> batch[k] < |rows|
  {
    if batch == [] then cursor else Some(rows[batch[|batch| - 1]].id)
  }

  function Backfill(rows: seq<Row>, cursor: Option<nat>, size: nat, provider: Provider): (seq<Row>, Report) {
    var batch := Query(rows, 0, cursor, size);
    var after := EmbedAll(rows, batch, provider);
    (after, Report(|batch|, Remaining(after, 0), CursorAfter(rows, batch, cursor), false))
  }

  lemma EmbedNext(rows: seq<Row>, done: seq<nat>, p: nat, provider: Provider)
    requires p < |rows|
    ensures
      var now := EmbedAll(rows, done, provider);
      now[p := EmbedRow(now[p], VectorOf(provider, now[p].content))] == EmbedAll(rows, done + [p], provider)
  {
    var now, next := EmbedAll(rows, done, provider), EmbedAll(rows, done + [p], provider);
    forall i | 0 <= i < |rows|
      ensures now[p := EmbedRow(now[p], VectorOf(provider, now[p].content))][i] == next[i]
    {
      assert i in done + [p] <==> i in done || i == p;
    }
  }

  class ChunkTable {
    var rows: seq<Row>

    method BackfillKnowledgeEmbeddings(configured: bool, cursor: Option<nat>, requested: Option<int>, provider: Provider)
      returns (report: Report)
      modifies this
      ensures configured ==> (rows, report) == Backfill(old(rows), cursor, Clamp(requested), provider)
      ensures !configured ==> rows == old(rows) && report == Report(0, 0, cursor, true)
    {
      if !configured {
        return Report(0, 0, cursor, true);
      }
      ghost var was := rows;
      var batch := Query(rows, 0, cursor, Clamp(requested));
      var next := CursorAfter(rows, batch, cursor);
      var i := 0;
      assert EmbedAll(was, batch[..0], provider) == was;
      while i < |batch|
        invariant 0 <= i <= |batch|
        invariant rows == EmbedAll(was, batch[..i], provider)
      {
        var p := batch[i];
        EmbedNext(was, batch[..i], p, provider);
        assert batch[..i + 1] == batch[..i] + [p];
        rows := rows[p := EmbedRow(rows[p], VectorOf(provider, rows[p].content))];
        i := i + 1;
      }
      assert batch[..i] == batch;
      report := Report(|batch|, Remaining(rows, 0), next, false);
    }
  }

  lemma {:induction false} QueriedAreDue(rows: seq<Row>, start: nat, cursor: Option<nat>, limit: nat, i: nat)
    requires i in Query(rows, start, cursor, limit)
    ensures i < |rows| && Due(rows[i], cursor)
    decreases |rows| - start
  {
    if start < |rows| && limit > 0 {
      if !Due(rows[start], cursor) {
        QueriedAreDue(rows, start + 1, cursor, limit, i);
      } else if i != start {
        QueriedAreDue(rows, start + 1, cursor, limit - 1, i);
      }
    }
  }

  /**
   * Whatever the cursor, batch size and provider, a backfill call never overwrites an embedding,
   * never changes a row it does not look for, and changes nothing but the embedding.
   */
  lemma BackfillNeverOverwrites(rows: seq<Row>, cursor: Option<nat>, size: nat, provider: Provider)
    ensures
      var after := Backfill(rows, cursor, size, provider).0;
      && |after| == |rows|
      && forall i :: 0 <= i < |rows| ==>
           && after[i].id == rows[i].id && after[i].content == rows[i].content
           && (rows[i].vector.Some? ==> after[i] == rows[i])
           && (after[i] != rows[i] ==> Due(rows[i], cursor) && after[i].vector == VectorOf(provider, rows[i].content))
  {
    forall i | 0 <= i < |rows| && i in Query(rows, 0, cursor, size)
      ensures Due(rows[i], cursor)
    {
      QueriedAreDue(rows, 0, cursor, size, i);
    }
  }

  /** The rows from `start` on without an embedding time whose id is beyond the cursor. */
  function MissingBeyond(rows: seq<Row>, start: nat, cursor: Option<nat>): set<nat> {
    set i: nat | start <= i < |rows| && !rows[i].embeddedAt && (cursor.Some? ==> rows[i].id > cursor.value)
  }

  lemma MissingFromNext(rows: seq<Row>, start: nat, cursor: Option<nat>)
    requires start < |rows|
    ensures |MissingBeyond(rows, start, cursor)|
         == |MissingBeyond(rows, start + 1, cursor)| + if Due(rows[start], cursor) then 1 else 0
  {
    var rest := MissingBeyond(rows, start + 1, cursor);
    assert MissingBeyond(rows, start, cursor) == if Due(rows[start], cursor) then rest + {start} else rest;
  }

  lemma {:induction false} QueryTakesMissing(rows: seq<Row>, start: nat, cursor: Option<nat>, limit: nat)
    ensures var n := |MissingBeyond(rows, start, cursor)|; |Query(rows, start, cursor, limit)| == if n < limit then n else limit
    decreases |rows| - start
  {
    if start < |rows| && limit > 0 {
      MissingFromNext(rows, start, cursor);
      QueryTakesMissing(rows, start + 1, cursor, if Due(rows[start], cursor) then limit - 1 else limit);
    } else if start >= |rows| {
      assert MissingBeyond(rows, start, cursor) == {};
    }
  }

  lemma {:induction false} RemainingIsMissing(rows: seq<Row>, start: nat)
    ensures Remaining(rows, start) == |MissingBeyond(rows, start, None)|
    decreases |rows| - start
  {
    if start < |rows| {
      MissingFromNext(rows, start, None);
      RemainingIsMissing(rows, start + 1);
    } else {
      assert MissingBeyond(rows, start, None) == {};
    }
  }

  /** A call reports how many missing rows beyond the cursor it took, up to its size, and how many are missing now. */
  lemma CallIsReported(rows: seq<Row>, cursor: Option<nat>, size: nat, provider: Provider)
    ensures
      var (after, report) := Backfill(rows, cursor, size, provider);
      var due := |MissingBeyond(rows, 0, cursor)|;
      && report.processed == (if due < size then due else size)
      && report.remaining == |MissingBeyond(after, 0, None)|
      && !report.skippedUnconfigured
      && (report.processed == 0 ==> report.cursor == cursor)
  {
    QueryTakesMissing(rows, 0, cursor, size);
    RemainingIsMissing(Backfill(rows, cursor, size, provider).0, 0);
  }

  /** The table together with the cursor a caller holds. */
  datatype Progress = Progress(rows: seq<Row>, cursor: Option<nat>)

  /** One call with the cursor held, keeping the returned one. */
  function Call(now: Progress, size: nat, provider: Provider): (r: Progress)
    ensures |r.rows| == |now.rows|
  {
    var (after, report) := Backfill(now.rows, now.cursor, size, provider);
    Progress(after, report.cursor)
  }

  /** `calls` calls, each with the cursor the previous one returned, starting without a cursor. */
  function Resume(rows: seq<Row>, calls: nat, size: nat, provider: Provider): (r: Progress)
    ensures |r.rows| == |rows|
    decreases calls
  {
    if calls == 0 then Progress(rows, None) else Call(Resume(rows, calls - 1, size, provider), size, provider)
  }

  /** The positions the next call embeds. */
  function Batch(now: Progress, size: nat): seq<nat> {
    Query(now.rows, 0, now.cursor, size)
  }

  /** The position after the next `size` missing rows from `start` on; `start` if there are none. */
  function EndOf(rows: seq<Row>, start: nat, size: nat): nat {
    var batch := Query(rows, start, None, size);
    if batch == [] then start else batch[|batch| - 1] + 1
  }

  /** The position the numbered call starts at. */
  function Start(rows: seq<Row>, call: nat, size: nat): nat
    decreases call
  {
    if call == 0 then 0 else EndOf(rows, Start(rows, call - 1, size), size)
  }

  function Least(a: nat, b: nat): nat {
    if a <= b then a else b
  }

  /** A batch is every missing row of an interval, and the interval holds min(size, rest) of them. */
  lemma {:induction false} QueryIsNext(rows: seq<Row>, start: nat, size: nat)
    requires start <= |rows|
    ensures
      var batch, end := Query(rows, start, None, size), EndOf(rows, start, size);
      && start <= end <= |rows|
      && |batch| == Least(size, Remaining(rows, start))
      && Remaining(rows, start) == |batch| + Remaining(rows, end)
    decreases |rows| - start
  {
    if start < |rows| && size > 0 {
      QueryIsNext(rows, start + 1, if Due(rows[start], None) then size - 1 else size);
    }
  }

  ghost predicate IsDueBetween(rows: seq<Row>, start: nat, end: nat, i: nat) {
    start <= i < end && i < |rows| && Due(rows[i], None)
  }

  lemma {:induction false} BatchFillsInterval(rows: seq<Row>, start: nat, size: nat, i: nat)
    requires start <= |rows|
    ensures i in Query(rows, start, None, size) <==> IsDueBetween(rows, start, EndOf(rows, start, size), i)
    decreases |rows| - start
  {
    if start < |rows| && size > 0 {
      if Due(rows[start], None) {
        FirstOfBatch(rows, start, size);
        BatchFillsInterval(rows, start + 1, size - 1, i);
        assert i in Query(rows, start, None, size) <==> i == start || i in Query(rows, start + 1, None, size - 1);
      } else {
        BatchFillsInterval(rows, start + 1, size, i);
        assert EndOf(rows, start + 1, size) == EndOf(rows, start, size) || Query(rows, start, None, size) == [];
      }
    }
  }

  lemma FirstOfBatch(rows: seq<Row>, start: nat, size: nat)
    requires start < |rows| && size > 0 && Due(rows[start], None)
    ensures Query(rows, start, None, size) == [start] + Query(rows, start + 1, None, size - 1)
    ensures EndOf(rows, start, size) == EndOf(rows, start + 1, size - 1) > start
  {
    QueryIsNext(rows, start + 1, size - 1);
  }

  lemma {:induction false} QueryIgnoresEarlierRows(rows: seq<Row>, others: seq<Row>, start: nat, size: nat)
    requires |rows| == |others| && forall i :: start <= i < |rows| ==> rows[i] == others[i]
    ensures Query(rows, start, None, size) == Query(others, start, None, size)
    decreases |rows| - start
  {
    if start < |rows| && size > 0 {
      QueryIgnoresEarlierRows(rows, others, start + 1, if Due(rows[start], None) then size - 1 else size);
    }
  }

  /** In id order, "beyond the cursor row" is "at a later position". */
  lemma {:induction false} LaterRowsAreBeyond(rows: seq<Row>, start: nat, p: nat, size: nat)
    requires Sorted(rows) && p < |rows| && p < start
    ensures Query(rows, start, Some(rows[p].id), size) == Query(rows, start, None, size)
    decreases |rows| - start
  {
    if start < |rows| && size > 0 {
      LaterIdIsLarger(rows, 0, p, start);
      LaterRowsAreBeyond(rows, start + 1, p, if Due(rows[start], None) then size - 1 else size);
    }
  }

  lemma {:induction false} CursorIsPosition(rows: seq<Row>, start: nat, p: nat, size: nat)
    requires Sorted(rows) && start <= p < |rows|
    ensures Query(rows, start, Some(rows[p].id), size) == Query(rows, p + 1, None, size)
    decreases p - start
  {
    if start < p {
      LaterIdIsLarger(rows, 0, start, p);
      CursorIsPosition(rows, start + 1, p, size);
    } else {
      LaterRowsAreBeyond(rows, p + 1, p, size);
    }
  }

  /** The table once every missing row before position `b` has been processed. */
  function EmbedBelow(rows: seq<Row>, b: nat, provider: Provider): (r: seq<Row>)
    ensures |r| == |rows|
    ensures forall i {:trigger r[i]} :: 0 <= i < |r| ==>
              r[i] == if i < b && Due(rows[i], None) then EmbedRow(rows[i], VectorOf(provider, rows[i].content)) else rows[i]
  {
    seq(|rows|, i requires 0 <= i < |rows| =>
      if i < b && Due(rows[i], None) then EmbedRow(rows[i], VectorOf(provider, rows[i].content)) else rows[i])
  }

  /** That table, with the cursor at the last row processed. */
  function StateAt(rows: seq<Row>, b: nat, provider: Provider): Progress
    requires b <= |rows|
  {
    Progress(EmbedBelow(rows, b, provider), if b == 0 then None else Some(rows[b - 1].id))
  }

  lemma NothingDoneYet(rows: seq<Row>, provider: Provider)
    ensures StateAt(rows, 0, provider) == Progress(rows, None)
  {
    assert EmbedBelow(rows, 0, provider) == rows;
  }

  /** What lies beyond the cursor is what lies at or after that position. */
  lemma BatchIsNext(rows: seq<Row>, b: nat, size: nat, provider: Provider)
    requires Sorted(rows) && b <= |rows|
    ensures Batch(StateAt(rows, b, provider), size) == Query(rows, b, None, size)
  {
    if b == 0 {
      NothingDoneYet(rows, provider);
    } else {
      var embedded := EmbedBelow(rows, b, provider);
      SameIdsSameOrder(rows, embedded, 0);
      CursorIsPosition(embedded, 0, b - 1, size);
      QueryIgnoresEarlierRows(embedded, rows, b, size);
    }
  }

  lemma EmbeddingTheBatchAdvances(rows: seq<Row>, b: nat, size: nat, provider: Provider)
    requires b <= |rows|
    ensures EmbedAll(EmbedBelow(rows, b, provider), Query(rows, b, None, size), provider)
         == EmbedBelow(rows, EndOf(rows, b, size), provider)
  {
    QueryIsNext(rows, b, size);
    var batch, end := Query(rows, b, None, size), EndOf(rows, b, size);
    var after, next := EmbedAll(EmbedBelow(rows, b, provider), batch, provider), EmbedBelow(rows, end, provider);
    forall i | 0 <= i < |rows|
      ensures after[i] == next[i]
    {
      BatchFillsInterval(rows, b, size, i);
    }
  }

  lemma CallAdvances(rows: seq<Row>, b: nat, size: nat, provider: Provider)
    requires Sorted(rows) && b <= |rows|
    ensures EndOf(rows, b, size) <= |rows|
    ensures Call(StateAt(rows, b, provider), size, provider) == StateAt(rows, EndOf(rows, b, size), provider)
  {
    QueryIsNext(rows, b, size);
    BatchIsNext(rows, b, size, provider);
    EmbeddingTheBatchAdvances(rows, b, size, provider);
  }

  lemma {:induction false} CallsMakeProgress(rows: seq<Row>, calls: nat, size: nat, provider: Provider)
    requires Sorted(rows)
    ensures Start(rows, calls, size) <= |rows|
    ensures Resume(rows, calls, size, provider) == StateAt(rows, Start(rows, calls, size), provider)
    decreases calls
  {
    if calls == 0 {
      NothingDoneYet(rows, provider);
    } else {
      CallsMakeProgress(rows, calls - 1, size, provider);
      CallAdvances(rows, Start(rows, calls - 1, size), size, provider);
    }
  }

  lemma {:induction false} RemainingAfterCalls(rows: seq<Row>, calls: nat, size: nat)
    ensures Start(rows, calls, size) <= |rows|
    ensures var n := Remaining(rows, 0); Remaining(rows, Start(rows, calls, size)) == n - Least(n, calls * size)
    decreases calls
  {
    if calls > 0 {
      RemainingAfterCalls(rows, calls - 1, size);
      QueryIsNext(rows, Start(rows, calls - 1, size), size);
      assert calls * size == (calls - 1) * size + size;
    }
  }

  /** ceil(n / size) */
  function CallsNeeded(n: nat, size: nat): nat
    requires size >= 1
  {
    (n + size - 1) / size
  }

  lemma EnoughCalls(n: nat, size: nat)
    requires size >= 1
    ensures n <= CallsNeeded(n, size) * size < n + size
  {
  }

  lemma ProductRises(a: nat, b: nat, size: nat)
    requires a <= b
    ensures a * size <= b * size
  {
  }

  lemma NeededCallsCover(n: nat, call: nat, size: nat)
    requires size >= 1
    ensures call < CallsNeeded(n, size) <==> call * size < n
  {
    EnoughCalls(n, size);
    var needed := CallsNeeded(n, size);
    if call < needed {
      ProductRises(call, needed - 1, size);
      assert (needed - 1) * size == needed * size - size;
    } else {
      ProductRises(needed, call, size);
    }
  }

  lemma BatchOfCall(rows: seq<Row>, call: nat, size: nat, provider: Provider)
    requires Sorted(rows)
    ensures Start(rows, call, size) <= |rows|
    ensures Batch(Resume(rows, call, size, provider), size) == Query(rows, Start(rows, call, size), None, size)
  {
    CallsMakeProgress(rows, call, size, provider);
    BatchIsNext(rows, Start(rows, call, size), size, provider);
  }

  lemma BatchSize(rows: seq<Row>, call: nat, size: nat)
    requires size >= 1
    ensures
      var n, batch := Remaining(rows, 0), Query(rows, Start(rows, call, size), None, size);
      && Start(rows, call, size) <= Start(rows, call + 1, size) <= |rows|
      && |batch| == Least(size, n - Least(n, call * size))
      && (batch != [] <==> call < CallsNeeded(n, size))
  {
    RemainingAfterCalls(rows, call, size);
    QueryIsNext(rows, Start(rows, call, size), size);
    NeededCallsCover(Remaining(rows, 0), call, size);
  }

  /**
   * From a null start, feeding the returned cursor back, with no new chunks: the numbered call
   * processes exactly the originally missing chunks between its start and the start of the next
   * call, `size` of them as long as there are that many. So each missing chunk is processed by
   * exactly one call, and exactly the first ceil(n / size) calls are not empty.
   */
  lemma EveryMissingChunkOnce(rows: seq<Row>, call: nat, size: nat, provider: Provider)
    requires Sorted(rows) && size >= 1
    ensures
      var n := Remaining(rows, 0);
      var start, next := Start(rows, call, size), Start(rows, call + 1, size);
      var batch := Batch(Resume(rows, call, size, provider), size);
      && start <= next <= |rows|
      && (forall i :: i in batch <==> IsDueBetween(rows, start, next, i))
      && |batch| == Least(size, n - Least(n, call * size))
      && (batch != [] <==> call < CallsNeeded(n, size))
  {
    BatchOfCall(rows, call, size, provider);
    BatchSize(rows, call, size);
    forall i: nat
      ensures i in Query(rows, Start(rows, call, size), None, size)
         <==> IsDueBetween(rows, Start(rows, call, size), Start(rows, call + 1, size), i)
    {
      BatchFillsInterval(rows, Start(rows, call, size), size, i);
    }
  }

  // Embedding and embedding time are only ever written together

  /** Everything that writes chunk rows: creation without either, deletion, embedding on write, a backfill call. */
  datatype Write =
    | Create(at: nat, id: nat, content: string)
    | Delete(at: nat)
    | EmbedOnWrite(at: nat, vector: Option<int>)
    | BackfillCall(cursor: Option<nat>, size: nat, provider: Provider)

  function Apply(rows: seq<Row>, write: Write): seq<Row> {
    match write
    case Create(at, id, content) =>
      if at <= |rows| then rows[..at] + [Row(id, content, None, false)] + rows[at..] else rows
    case Delete(at) => if at < |rows| then rows[..at] + rows[at + 1..] else rows
    case EmbedOnWrite(at, vector) =>
      if at < |rows| && vector.Some? then rows[at := rows[at].(vector := vector, embeddedAt := true)] else rows
    case BackfillCall(cursor, size, provider) => Backfill(rows, cursor, size, provider).0
  }

  function ApplyAll(rows: seq<Row>, writes: seq<Write>): seq<Row> {
    if writes == [] then rows else Apply(ApplyAll(rows, writes[..|writes| - 1]), writes[|writes| - 1])
  }

  /** Each row has an embedding exactly when it has an embedding time. */
  ghost predicate Whole(rows: seq<Row>) {
    forall i :: 0 <= i < |rows| ==> (rows[i].vector.Some? <==> rows[i].embeddedAt)
  }

  lemma {:induction false} WritesKeepWhole(rows: seq<Row>, writes: seq<Write>)
    requires Whole(rows)
    ensures Whole(ApplyAll(rows, writes))
  {
    if writes != [] {
      WritesKeepWhole(rows, writes[..|writes| - 1]);
    }
  }

  /** How many missing rows, from `start` on, the provider has no vector for. */
  function Unserved(rows: seq<Row>, start: nat, provider: Provider): nat
    decreases |rows| - start
  {
    if start >= |rows| then 0
    else
      (if Due(rows[start], None) && rows[start].content !in provider then 1 else 0) + Unserved(rows, start + 1, provider)
  }

  lemma {:induction false} OnlyUnservedRemain(rows: seq<Row>, done: seq<Row>, start: nat, provider: Provider)
    requires |done| == |rows|
    requires forall i :: start <= i < |rows| ==>
               (Due(done[i], None) <==> Due(rows[i], None) && rows[i].content !in provider)
    ensures Remaining(done, start) == Unserved(rows, start, provider)
    decreases |rows| - start
  {
    if start < |rows| {
      OnlyUnservedRemain(rows, done, start + 1, provider);
    }
  }

  lemma {:induction false} NoneRemain(rows: seq<Row>, start: nat, i: nat)
    requires Remaining(rows, start) == 0 && start <= i < |rows|
    ensures !Due(rows[i], None)
    decreases i - start
  {
    if start < i {
      NoneRemain(rows, start + 1, i);
    }
  }

  /**
   * On the table any writes lead to: after those calls each chunk missing its embedding has the
   * provider's vector and its time, every other row is as it was, and what still counts as
   * remaining is exactly the missing chunks the provider gave no vector for; nothing, if it has one
   * for each.
   */
  lemma BackfillFinishes(writes: seq<Write>, size: nat, provider: Provider)
    requires Sorted(ApplyAll([], writes)) && size >= 1
    ensures
      var rows := ApplyAll([], writes);
      var done := Resume(rows, CallsNeeded(Remaining(rows, 0), size), size, provider).rows;
      && Remaining(done, 0) == Unserved(rows, 0, provider)
      && forall i :: 0 <= i < |rows| ==>
           done[i] == if rows[i].vector.None? && rows[i].content in provider
                      then rows[i].(vector := Some(provider[rows[i].content]), embeddedAt := true) else rows[i]
  {
    WritesKeepWhole([], writes);
    WholeTableFinishes(ApplyAll([], writes), size, provider);
  }

  lemma WholeTableFinishes(rows: seq<Row>, size: nat, provider: Provider)
    requires Sorted(rows) && Whole(rows) && size >= 1
    ensures
      var done := Resume(rows, CallsNeeded(Remaining(rows, 0), size), size, provider).rows;
      && Remaining(done, 0) == Unserved(rows, 0, provider)
      && forall i :: 0 <= i < |rows| ==>
           done[i] == if rows[i].vector.None? && rows[i].content in provider
                      then rows[i].(vector := Some(provider[rows[i].content]), embeddedAt := true) else rows[i]
  {
    var calls := CallsNeeded(Remaining(rows, 0), size);
    EnoughCalls(Remaining(rows, 0), size);
    RemainingAfterCalls(rows, calls, size);
    CallsMakeProgress(rows, calls, size, provider);
    forall i | Start(rows, calls, size) <= i < |rows|
      ensures !Due(rows[i], None)
    {
      NoneRemain(rows, Start(rows, calls, size), i);
    }
    OnlyUnservedRemain(rows, Resume(rows, calls, size, provider).rows, 0, provider);
  }
}
