/** The structured memory kept per lead. */
module CrmMemory {
  import opened Wrappers
  import opened Texts

  datatype Source = AI | HUMAN | INTEGRATION

  /** An extracted value; null and undefined are one. */
  datatype Value = Null | Text(text: string) | List(items: seq<string>)

  /** A memory entry: an object, whose parts may be absent in old data, or text. */
  datatype Entry =
    | Object(value: Option<Value>, source: Option<Source>, confidence: Option<real>, messageId: string, updatedAt: int)
    | Plain(text: string)
    | Time(at: int)
    | Name(of: Source)

  type Memory = map<string, Entry>

  /** What one merge says about all its values. */
  datatype Origin = Origin(source: Source, confidence: real, messageId: string, now: int)

  const UPDATED_AT := "updatedAt"
  const UPDATED_BY := "updatedBy"

  function Get(memory: Memory, key: string): Option<Entry> {
    if key in memory then Some(memory[key]) else None
  }

  predicate Blank(value: Value) {
    match value
    case Null => true
    case Text(text) => Trim(text) == ""
    case List(items) => items == []
  }

  predicate IsHuman(prev: Option<Entry>) {
    prev.Some? && prev.value.Object? && prev.value.source == Some(HUMAN)
  }

  /** A previous confidence that the new one falls below. */
  predicate IsSurer(prev: Option<Entry>, confidence: real) {
    && prev.Some? && prev.value.Object? && prev.value.confidence.Some?
    && confidence < prev.value.confidence.value
  }

  function FieldOf(value: Value, origin: Origin): Entry {
    Object(Some(value), Some(origin.source), Some(origin.confidence), origin.messageId, origin.now)
  }

  /** What one named value does to the entry of its key. */
  function Updated(prev: Option<Entry>, value: Value, origin: Origin): Option<Entry> {
    if Blank(value) || (origin.source == AI && (IsHuman(prev) || IsSurer(prev, origin.confidence))) then prev
    else Some(FieldOf(value, origin))
  }

  /** The entry of a key after a merge. The two bookkeeping keys are written last, whatever the updates say. */
  function MergedAt(existing: Memory, updates: map<string, Value>, origin: Origin, key: string): Option<Entry> {
    if key == UPDATED_BY then Some(Name(origin.source))
    else if key == UPDATED_AT then Some(Time(origin.now))
    else if key in updates then Updated(Get(existing, key), updates[key], origin)
    else Get(existing, key)
  }

  /** The loop visits the updates in any order. */
  method MergeCrmMemory(existing: Memory, updates: map<string, Value>, origin: Origin) returns (next: Memory)
    ensures forall key :: Get(next, key) == MergedAt(existing, updates, origin, key)
  {
    next := existing;
    var left := updates.Keys;
    while left != {}
      invariant left <= updates.Keys
      invariant forall key ::
                  Get(next, key) == (if key in updates && key !in left then Updated(Get(existing, key), updates[key], origin)
                                     else Get(existing, key))
    {
      var key :| key in left;
      left := left - {key};
      var raw := updates[key];
      if raw == Null || (raw.Text? && Trim(raw.text) == "") || (raw.List? && raw.items == []) {
        continue;
      }
      if key in next && next[key].Object? && next[key].source == Some(HUMAN) && origin.source == AI {
        continue;
      }
      if && key in next && next[key].Object? && next[key].confidence.Some?
         && origin.source == AI && origin.confidence < next[key].confidence.value {
        continue;
      }
      next := next[key := Object(Some(raw), Some(origin.source), Some(origin.confidence), origin.messageId, origin.now)];
    }
    next := next[UPDATED_AT := Time(origin.now)];
    next := next[UPDATED_BY := Name(origin.source)];
  }

  /** The value says something: it is there and not blank. */
  predicate SaysSomething(value: Value) {
    && value != Null && value != List([])
    && (value.Text? ==> !OnlySpace(value.text))
  }

  /** The entry forbids an AI to overwrite it: a human gave it, or something surer did. */
  predicate Guarded(entry: Entry, confidence: real) {
    && entry.Object?
    && (entry.source == Some(HUMAN) || (entry.confidence.Some? && entry.confidence.value > confidence))
  }

  /**
   * A merge replaces the entry of a key exactly when it names it with a value that says something and the key is not
   * guarded against it; then the entry is the value with the merge's source, confidence, message and time. Every
   * other entry but the two bookkeeping ones is as it was.
   */
  lemma MergeReplacesUnguarded(existing: Memory, updates: map<string, Value>, origin: Origin, next: Memory, key: string)
    requires forall k :: Get(next, k) == MergedAt(existing, updates, origin, k)
    ensures "updatedBy" in next && next["updatedBy"] == Name(origin.source)
    ensures "updatedAt" in next && next["updatedAt"] == Time(origin.now)
    ensures key != "updatedBy" && key != "updatedAt" ==>
      if key in updates && SaysSomething(updates[key])
         && !(origin.source == AI && key in existing && Guarded(existing[key], origin.confidence))
      then key in next && next[key] == Object(Some(updates[key]), Some(origin.source), Some(origin.confidence),
                                              origin.messageId, origin.now)
      else (key in next <==> key in existing) && (key in existing ==> next[key] == existing[key])
  {
    if key in updates && updates[key].Text? {
      TrimIsEmpty(updates[key].text);
    }
    assert Get(next, key) == MergedAt(existing, updates, origin, key);
    assert Get(next, "updatedBy") == Some(Name(origin.source));
    assert Get(next, "updatedAt") == Some(Time(origin.now));
  }

  /** One AI merge of a run. */
  datatype Merge = Merge(updates: map<string, Value>, confidence: real, messageId: string, now: int)

  function OriginOf(m: Merge): Origin {
    Origin(AI, m.confidence, m.messageId, m.now)
  }

  /** A run of AI merges from `first` through the memories `after`: each memory is what its merge returns. */
  ghost predicate IsRun(first: Memory, merges: seq<Merge>, after: seq<Memory>)
    decreases |merges|
  {
    && |after| == |merges|
    && (merges != [] ==>
          && IsRun(first, merges[..|merges| - 1], after[..|merges| - 1])
          && IsMerge(Last(first, after[..|merges| - 1]), merges[|merges| - 1], after[|merges| - 1]))
  }

  ghost predicate IsMerge(before: Memory, m: Merge, next: Memory) {
    forall key :: Get(next, key) == MergedAt(before, m.updates, OriginOf(m), key)
  }

  function Last(first: Memory, after: seq<Memory>): Memory {
    if after == [] then first else after[|after| - 1]
  }

  /** The merge names the key with a value that is not blank. */
  predicate Effective(m: Merge, key: string) {
    key in m.updates && !Blank(m.updates[key])
  }

  predicate IsField(key: string) {
    key != UPDATED_AT && key != UPDATED_BY
  }

  /**
   * Merge `j` is the last effective one to reach the running maximum: no effective merge is more
   * confident, every later one is less so, and it is no less confident than the starting entry.
   */
  ghost predicate Wins(first: Memory, merges: seq<Merge>, key: string, j: nat) {
    && j < |merges|
    && Effective(merges[j], key)
    && !IsSurer(Get(first, key), merges[j].confidence)
    && (forall i :: 0 <= i < |merges| && Effective(merges[i], key) ==> merges[i].confidence <= merges[j].confidence)
    && (forall i :: j < i < |merges| && Effective(merges[i], key) ==> merges[i].confidence < merges[j].confidence)
  }

  /** No effective merge is as confident as the starting entry. */
  ghost predicate NoneWins(first: Memory, merges: seq<Merge>, key: string) {
    forall i :: 0 <= i < |merges| && Effective(merges[i], key) ==> IsSurer(Get(first, key), merges[i].confidence)
  }

  /** A human-confirmed field survives every run of AI merges. */
  lemma {:induction false} HumanFieldNeverChanges(first: Memory, merges: seq<Merge>, after: seq<Memory>, key: string)
    requires IsRun(first, merges, after) && IsField(key) && IsHuman(Get(first, key))
    ensures Get(Last(first, after), key) == Get(first, key)
    decreases |merges|
  {
    if merges != [] {
      HumanFieldNeverChanges(first, merges[..|merges| - 1], after[..|merges| - 1], key);
    }
  }

  /** A key no merge names keeps its entry. */
  lemma {:induction false} UnnamedKeyIsUnchanged(first: Memory, merges: seq<Merge>, after: seq<Memory>, key: string)
    requires IsRun(first, merges, after) && IsField(key) && forall i :: 0 <= i < |merges| ==> key !in merges[i].updates
    ensures Get(Last(first, after), key) == Get(first, key)
    decreases |merges|
  {
    if merges != [] {
      UnnamedKeyIsUnchanged(first, merges[..|merges| - 1], after[..|merges| - 1], key);
    }
  }

  function EntryFrom(m: Merge, key: string): Option<Entry>
    requires key in m.updates
  {
    Some(FieldOf(m.updates[key], OriginOf(m)))
  }

  /** The outcome of a run for a key that does not start human-confirmed. */
  ghost predicate HoldsWinner(first: Memory, merges: seq<Merge>, key: string, entry: Option<Entry>) {
    || (NoneWins(first, merges, key) && entry == Get(first, key))
    || (exists j: nat :: Wins(first, merges, key, j) && entry == EntryFrom(merges[j], key))
  }

  /** The entry after one AI merge. */
  function Step(entry: Option<Entry>, m: Merge, key: string): Option<Entry> {
    if key in m.updates then Updated(entry, m.updates[key], OriginOf(m)) else entry
  }

  lemma NewMergeWins(first: Memory, merges: seq<Merge>, m: Merge, key: string)
    requires Effective(m, key) && !IsSurer(Get(first, key), m.confidence)
    requires forall i :: 0 <= i < |merges| && Effective(merges[i], key) ==> merges[i].confidence <= m.confidence
    ensures HoldsWinner(first, merges + [m], key, EntryFrom(m, key))
  {
    assert Wins(first, merges + [m], key, |merges|);
  }

  lemma OldMergeWins(first: Memory, merges: seq<Merge>, m: Merge, key: string, j: nat)
    requires Wins(first, merges, key, j)
    requires Effective(m, key) ==> m.confidence < merges[j].confidence
    ensures HoldsWinner(first, merges + [m], key, EntryFrom(merges[j], key))
  {
    assert Wins(first, merges + [m], key, j);
  }

  lemma MergeKeepsStart(first: Memory, merges: seq<Merge>, m: Merge, key: string)
    requires !IsHuman(Get(first, key)) && NoneWins(first, merges, key)
    ensures HoldsWinner(first, merges + [m], key, Step(Get(first, key), m, key))
  {
    if Effective(m, key) && !IsSurer(Get(first, key), m.confidence) {
      NewMergeWins(first, merges, m, key);
    }
  }

  lemma MergeKeepsWinner(first: Memory, merges: seq<Merge>, m: Merge, key: string, j: nat)
    requires Wins(first, merges, key, j)
    ensures HoldsWinner(first, merges + [m], key, Step(EntryFrom(merges[j], key), m, key))
  {
    if Effective(m, key) && m.confidence >= merges[j].confidence {
      NewMergeWins(first, merges, m, key);
    } else {
      OldMergeWins(first, merges, m, key, j);
    }
  }

  /**
   * Across any run of AI merges a field that is not human-confirmed holds the value of the last
   * effective update that reached the highest confidence, with that confidence; or it is as it
   * was, if every effective update was less confident than it.
   */
  lemma {:induction false} FieldHoldsWinner(first: Memory, merges: seq<Merge>, after: seq<Memory>, key: string)
    requires IsRun(first, merges, after) && IsField(key) && !IsHuman(Get(first, key))
    ensures HoldsWinner(first, merges, key, Get(Last(first, after), key))
    decreases |merges|
  {
    if merges != [] {
      var n := |merges| - 1;
      FieldHoldsWinner(first, merges[..n], after[..n], key);
      var entry := Get(Last(first, after[..n]), key);
      assert merges == merges[..n] + [merges[n]];
      assert Get(after[n], key) == Step(entry, merges[n], key);
      if NoneWins(first, merges[..n], key) && entry == Get(first, key) {
        MergeKeepsStart(first, merges[..n], merges[n], key);
      } else {
        var j: nat :| Wins(first, merges[..n], key, j) && entry == EntryFrom(merges[..n][j], key);
        MergeKeepsWinner(first, merges[..n], merges[n], key, j);
      }
    }
  }

  /** At most one merge wins, so the outcome is determined. */
  lemma WinnerIsUnique(first: Memory, merges: seq<Merge>, key: string, j: nat, k: nat)
    requires Wins(first, merges, key, j)
    ensures Wins(first, merges, key, k) ==> j == k
    ensures !NoneWins(first, merges, key)
  {
  }

  /** Flattening: the value of every object entry that has one. */
  method FlattenCrmMemory(memory: Memory) returns (out: map<string, Value>)
    ensures forall key :: key in out <==> key in memory && memory[key].Object? && memory[key].value.Some?
    ensures forall key :: key in out ==> Some(out[key]) == memory[key].value
  {
    out := map[];
    var left := memory.Keys;
    while left != {}
      invariant left <= memory.Keys
      invariant forall key :: key in out <==> key in memory && key !in left && memory[key].Object? && memory[key].value.Some?
      invariant forall key :: key in out ==> Some(out[key]) == memory[key].value
    {
      var key :| key in left;
      left := left - {key};
      if memory[key].Object? && memory[key].value.Some? {
        out := out[key := memory[key].value.value];
      }
    }
  }
}
