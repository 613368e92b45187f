/** Reciprocal rank fusion of the lexical and semantic result lists. */
module RankFusion {
  import opened Sums
  import opened Sorting
  import opened Distinctness

  const RRF_K := 60

  datatype Hit = Hit(id: string, content: string, title: string, rank: nat)

  datatype Entry = Entry(id: string, content: string, title: string, score: real)

  function Share(hit: Hit): real {
    1.0 / (RRF_K + hit.rank) as real
  }

  function ShareFor(hit: Hit, id: string): real {
    if hit.id == id then Share(hit) else 0.0
  }

  function ListScore(list: seq<Hit>, id: string): real {
    SumBy(list, (hit: Hit) => ShareFor(hit, id))
  }

  /** The fused score of an id: the sum of its shares over all lists. */
  function Score(lists: seq<seq<Hit>>, id: string): real {
    SumBy(lists, (list: seq<Hit>) => ListScore(list, id))
  }

  /** One hit alone scores 1 / (60 + rank) for its id and nothing for any other. */
  lemma OneHitScores(hit: Hit, id: string)
    ensures Score([[hit]], id) == if id == hit.id then 1.0 / (60 + hit.rank) as real else 0.0
  {
    var share, score := (h: Hit) => ShareFor(h, id), (list: seq<Hit>) => ListScore(list, id);
    SumByAppend([], hit, share);
    SumByAppend([], [hit], score);
    assert [] + [hit] == [hit] && [] + [[hit]] == [[hit]];
  }

  function Ids(hits: seq<Hit>): set<string> {
    set hit | hit in hits :: hit.id
  }

  /** The score map, with the order its keys were inserted in. */
  datatype Scores = Scores(order: seq<string>, entries: map<string, Entry>)

  /** The entry of an id after some hits: its exact score and the text of one of its hits. */
  ghost predicate EntryFor(entry: Entry, hits: seq<Hit>, id: string) {
    && entry.id == id
    && entry.score == ListScore(hits, id)
    && exists hit :: hit in hits && hit.id == id && hit.content == entry.content && hit.title == entry.title
  }

  ghost predicate ScoresFor(scores: Scores, hits: seq<Hit>) {
    && scores.entries.Keys == Ids(hits)
    && (forall id :: id in scores.order <==> id in scores.entries)
    && (forall i, j :: 0 <= i < j < |scores.order| ==> scores.order[i] != scores.order[j])
    && (forall id :: id in scores.entries ==> EntryFor(scores.entries[id], hits, id))
  }

  lemma ListScoreAppend(hits: seq<Hit>, hit: Hit, id: string)
    ensures ListScore(hits + [hit], id) == ListScore(hits, id) + ShareFor(hit, id)
  {
    SumByAppend(hits, hit, (h: Hit) => ShareFor(h, id));
  }

  lemma {:induction false} NoHitNoScore(hits: seq<Hit>, id: string)
    requires id !in Ids(hits)
    ensures ListScore(hits, id) == 0.0
  {
    if hits != [] {
      assert hits[0].id in Ids(hits);
      assert Ids(hits[1..]) <= Ids(hits);
      NoHitNoScore(hits[1..], id);
    }
  }

  /** Scoring the lists one hit after another is scoring all hits at once. */
  lemma {:induction false} ScoreOfAllHits(lists: seq<seq<Hit>>, id: string)
    ensures Score(lists, id) == ListScore(Flatten(lists), id)
  {
    if lists != [] {
      SumByConcat(lists[0], Flatten(lists[1..]), (h: Hit) => ShareFor(h, id));
      ScoreOfAllHits(lists[1..], id);
    }
  }

  lemma OtherHitKeepsEntry(entry: Entry, hits: seq<Hit>, hit: Hit, id: string)
    requires EntryFor(entry, hits, id)
    ensures EntryFor(entry.(score := entry.score + ShareFor(hit, id)), hits + [hit], id)
  {
    var h :| h in hits && h.id == id && h.content == entry.content && h.title == entry.title;
    assert h in hits + [hit];
    ListScoreAppend(hits, hit, id);
  }

  lemma FirstHitMakesEntry(hits: seq<Hit>, hit: Hit)
    requires hit.id !in Ids(hits)
    ensures EntryFor(Entry(hit.id, hit.content, hit.title, Share(hit)), hits + [hit], hit.id)
  {
    NoHitNoScore(hits, hit.id);
    ListScoreAppend(hits, hit, hit.id);
    assert hit in hits + [hit];
  }

  /** One hit: its share is added to the entry of its id, or a new entry is made. */
  method AddHit(scores: Scores, hit: Hit, ghost hits: seq<Hit>) returns (next: Scores)
    requires ScoresFor(scores, hits)
    ensures ScoresFor(next, hits + [hit])
  {
    var add := 1.0 / (RRF_K + hit.rank) as real;
    if hit.id in scores.entries {
      var existing := scores.entries[hit.id];
      next := scores.(entries := scores.entries[hit.id := existing.(score := existing.score + add)]);
    } else {
      next := Scores(scores.order + [hit.id],
                     scores.entries[hit.id := Entry(hit.id, hit.content, hit.title, add)]);
    }
    assert Ids(hits + [hit]) == Ids(hits) + {hit.id};
    forall id | id in next.entries
      ensures EntryFor(next.entries[id], hits + [hit], id)
    {
      if id in scores.entries {
        OtherHitKeepsEntry(scores.entries[id], hits, hit, id);
      } else {
        FirstHitMakesEntry(hits, hit);
      }
    }
  }

  method FuseList(scores: Scores, list: seq<Hit>, ghost hits: seq<Hit>) returns (next: Scores)
    requires ScoresFor(scores, hits)
    ensures ScoresFor(next, hits + list)
  {
    next := scores;
    assert hits + list[..0] == hits;
    for j := 0 to |list|
      invariant ScoresFor(next, hits + list[..j])
    {
      next := AddHit(next, list[j], hits + list[..j]);
      assert hits + list[..j] + [list[j]] == hits + list[..j + 1];
    }
    assert list[..|list|] == list;
  }

  function EntryId(entry: Entry): string {
    entry.id
  }

  function EntryScore(entry: Entry): real {
    entry.score
  }

  /** The entry carries the exact fused score of its id and the text of one of its hits. */
  ghost predicate IsFused(e: Entry, lists: seq<seq<Hit>>) {
    && e.id in Ids(Flatten(lists))
    && e.score == Score(lists, e.id)
    && exists hit :: hit in Flatten(lists) && hit.id == e.id && hit.content == e.content && hit.title == e.title
  }

  /** An id of the lists is in the result, or scores no higher than anything in it. */
  ghost predicate PresentOrLower(result: seq<Entry>, lists: seq<seq<Hit>>, id: string) {
    || (exists i :: 0 <= i < |result| && result[i].id == id)
    || (forall i :: 0 <= i < |result| ==> result[i].score >= Score(lists, id))
  }

  /**
   * Each id hit by some list appears with exactly the sum of 1/(60 + rank) over its hits; the
   * result is the `limit` highest scores in descending order, each id once.
   */
  ghost predicate IsFusion(result: seq<Entry>, lists: seq<seq<Hit>>, limit: nat) {
    && |result| == (if |Ids(Flatten(lists))| <= limit then |Ids(Flatten(lists))| else limit)
    && (forall i :: 0 <= i < |result| ==> IsFused(result[i], lists))
    && (forall i, j :: 0 <= i < j < |result| ==> result[i].id != result[j].id && result[i].score >= result[j].score)
    && (forall id :: id in Ids(Flatten(lists)) ==> PresentOrLower(result, lists, id))
  }

  method ReciprocalRankFusion(lists: seq<seq<Hit>>, limit: nat) returns (result: seq<Entry>)
    ensures IsFusion(result, lists, limit)
  {
    var scores := Scores([], map[]);
    assert lists[..0] == [];
    for i := 0 to |lists|
      invariant ScoresFor(scores, Flatten(lists[..i]))
    {
      scores := FuseList(scores, lists[i], Flatten(lists[..i]));
      FlattenAppend(lists[..i], lists[i]);
      assert lists[..i] + [lists[i]] == lists[..i + 1];
    }
    assert lists[..|lists|] == lists;
    var values := Values(scores);
    result := Top(values, EntryScore, limit);
    TopIsFusion(scores, lists, limit);
  }

  function Values(scores: Scores): seq<Entry>
    requires forall id :: id in scores.order ==> id in scores.entries
  {
    seq(|scores.order|, i requires 0 <= i < |scores.order| => scores.entries[scores.order[i]])
  }

  lemma {:induction false} DistinctCardinality(s: seq<string>, ids: set<string>)
    requires forall i, j :: 0 <= i < j < |s| ==> s[i] != s[j]
    requires forall id :: id in s <==> id in ids
    ensures |s| == |ids|
  {
    if s == [] {
      assert ids == {};
    } else {
      assert s[0] in ids;
      DistinctCardinality(s[1..], ids - {s[0]});
    }
  }

  lemma ValuesAreDistinct(scores: Scores, hits: seq<Hit>)
    requires ScoresFor(scores, hits)
    ensures DistinctBy(Values(scores), EntryId)
    ensures |Values(scores)| == |Ids(hits)|
  {
    DistinctCardinality(scores.order, scores.entries.Keys);
    forall i, j | 0 <= i < j < |scores.order|
      ensures EntryId(Values(scores)[i]) != EntryId(Values(scores)[j])
    {
      assert scores.order[i] in scores.entries && scores.order[j] in scores.entries;
    }
  }

  lemma ValuesAreEntries(scores: Scores, hits: seq<Hit>)
    requires ScoresFor(scores, hits)
    ensures forall e :: e in Values(scores) <==> e.id in scores.entries && e == scores.entries[e.id]
  {
    forall e: Entry | e.id in scores.entries && e == scores.entries[e.id]
      ensures e in Values(scores)
    {
      var k :| 0 <= k < |scores.order| && scores.order[k] == e.id;
      assert Values(scores)[k] == e;
    }
    forall e | e in Values(scores)
      ensures e.id in scores.entries && e == scores.entries[e.id]
    {
      var k :| 0 <= k < |scores.order| && Values(scores)[k] == e;
      assert scores.order[k] in scores.entries;
    }
  }

  lemma EntryIsFused(scores: Scores, lists: seq<seq<Hit>>, e: Entry)
    requires ScoresFor(scores, Flatten(lists)) && e.id in scores.entries && e == scores.entries[e.id]
    ensures IsFused(e, lists)
  {
    ScoreOfAllHits(lists, e.id);
  }

  lemma TopIsFusion(scores: Scores, lists: seq<seq<Hit>>, limit: nat)
    requires ScoresFor(scores, Flatten(lists))
    ensures IsFusion(Top(Values(scores), EntryScore, limit), lists, limit)
  {
    var values := Values(scores);
    ValuesAreDistinct(scores, Flatten(lists));
    TopIsLargest(values, EntryScore, limit);
    PartIsDistinct(values, Top(values, EntryScore, limit), EntryId);
    LargestIsFusion(scores, lists, Top(values, EntryScore, limit), limit);
  }

  lemma LargestIsFusion(scores: Scores, lists: seq<seq<Hit>>, result: seq<Entry>, limit: nat)
    requires ScoresFor(scores, Flatten(lists))
    requires multiset(result) <= multiset(Values(scores)) && DistinctBy(result, EntryId) && Descending(result, EntryScore)
    requires |result| == if |Ids(Flatten(lists))| <= limit then |Ids(Flatten(lists))| else limit
    requires forall x :: x in Values(scores) ==> x in result || forall t :: t in result ==> EntryScore(t) >= EntryScore(x)
    ensures IsFusion(result, lists, limit)
  {
    forall i | 0 <= i < |result|
      ensures IsFused(result[i], lists)
    {
      assert result[i] in multiset(result);
      ValuesAreEntries(scores, Flatten(lists));
      EntryIsFused(scores, lists, result[i]);
    }
    forall i, j | 0 <= i < j < |result|
      ensures result[i].id != result[j].id && result[i].score >= result[j].score
    {
      assert EntryId(result[i]) != EntryId(result[j]) && EntryScore(result[i]) >= EntryScore(result[j]);
    }
    forall id | id in Ids(Flatten(lists))
      ensures PresentOrLower(result, lists, id)
    {
      LeftOutScoresLess(scores, lists, result, id);
    }
  }

  lemma LeftOutScoresLess(scores: Scores, lists: seq<seq<Hit>>, result: seq<Entry>, id: string)
    requires ScoresFor(scores, Flatten(lists)) && id in scores.entries
    requires forall x :: x in Values(scores) ==> x in result || forall t :: t in result ==> EntryScore(t) >= EntryScore(x)
    ensures PresentOrLower(result, lists, id)
  {
    var e := scores.entries[id];
    ValuesAreEntries(scores, Flatten(lists));
    EntryIsFused(scores, lists, e);
    assert e in Values(scores);
    if e !in result {
      assert forall i :: 0 <= i < |result| ==> result[i] in result && EntryScore(result[i]) >= EntryScore(e);
    }
  }

  /** The scores do not depend on the order of the lists. */
  lemma ListOrderDoesNotMatter(lists: seq<seq<Hit>>, reordered: seq<seq<Hit>>, id: string)
    requires multiset(lists) == multiset(reordered)
    ensures Score(lists, id) == Score(reordered, id)
  {
    SumByPermutation(lists, reordered, (list: seq<Hit>) => ListScore(list, id));
  }

  /** `a` is ranked at least as well as `b` by a list that hits each id at most once. */
  ghost predicate RanksAtLeast(list: seq<Hit>, a: string, b: string) {
    && (forall i, j :: 0 <= i < j < |list| ==> list[i].id != list[j].id)
    && (forall i :: 0 <= i < |list| && list[i].id == b ==>
          exists j :: 0 <= j < |list| && list[j].id == a && list[j].rank <= list[i].rank)
  }

  lemma {:induction false} ScoreIsNonNegative(list: seq<Hit>, id: string)
    ensures ListScore(list, id) >= 0.0
  {
    if list != [] {
      ScoreIsNonNegative(list[1..], id);
    }
  }

  lemma {:induction false} ScoreOfOnlyHit(list: seq<Hit>, i: nat)
    requires i < |list| && forall x, y :: 0 <= x < y < |list| ==> list[x].id != list[y].id
    ensures ListScore(list, list[i].id) == Share(list[i])
  {
    var id := list[i].id;
    SumByRemove(list, i, (hit: Hit) => ShareFor(hit, id));
    NoHitNoScore(list[..i] + list[i + 1..], id);
  }

  lemma BetterHitScoresHigher(list: seq<Hit>, i: nat, j: nat)
    requires i < |list| && j < |list| && list[j].rank <= list[i].rank
    requires forall x, y :: 0 <= x < y < |list| ==> list[x].id != list[y].id
    ensures ListScore(list, list[j].id) >= ListScore(list, list[i].id)
  {
    ScoreOfOnlyHit(list, i);
    ScoreOfOnlyHit(list, j);
    ReciprocalFalls(RRF_K + list[j].rank, RRF_K + list[i].rank);
  }

  lemma BetterRankScoresHigher(list: seq<Hit>, a: string, b: string)
    requires RanksAtLeast(list, a, b)
    ensures ListScore(list, a) >= ListScore(list, b)
  {
    if b in Ids(list) {
      var i :| 0 <= i < |list| && list[i].id == b;
      var j :| 0 <= j < |list| && list[j].id == a && list[j].rank <= list[i].rank;
      BetterHitScoresHigher(list, i, j);
    } else {
      NoHitNoScore(list, b);
      ScoreIsNonNegative(list, a);
    }
  }

  lemma ReciprocalFalls(x: nat, y: nat)
    requires 0 < x <= y
    ensures 1.0 / x as real >= 1.0 / y as real
  {
  }

  /** An id never scores below one it ranks at least as well as in every list. */
  lemma {:induction false} DominatingIdScoresHigher(lists: seq<seq<Hit>>, a: string, b: string)
    requires forall k :: 0 <= k < |lists| ==> RanksAtLeast(lists[k], a, b)
    ensures Score(lists, a) >= Score(lists, b)
  {
    if lists != [] {
      BetterRankScoresHigher(lists[0], a, b);
      DominatingIdScoresHigher(lists[1..], a, b);
    }
  }
}
