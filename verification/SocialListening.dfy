/** The worker pool that runs one mapper per item, a few at a time. */
module WorkerPool {
  /** `finished` lists the items in the order their mappers complete. */
  datatype Pool = Pool(next: nat, running: map<nat, nat>, finished: seq<nat>, stopped: set<nat>)

  /** A worker takes the next index, or its mapper completes. */
  datatype Step = Claim(worker: nat) | Finish(worker: nat)

  function Workers(items: nat, concurrency: int): nat {
    var limit := if concurrency < 1 then 1 else concurrency;
    if limit < items then limit else items
  }

  function Next(p: Pool, step: Step, items: nat, workers: nat): Pool {
    match step
    case Claim(w) =>
      if w >= workers || w in p.running || w in p.stopped then p
      else if p.next < items then p.(next := p.next + 1, running := p.running[w := p.next])
      else p.(next := p.next + 1, stopped := p.stopped + {w})
    case Finish(w) =>
      if w in p.running then p.(running := p.running - {w}, finished := p.finished + [p.running[w]]) else p
  }

  function Run(steps: seq<Step>, items: nat, workers: nat): Pool
    decreases |steps|
  {
    if steps == [] then Pool(0, map[], [], {})
    else Next(Run(steps[..|steps| - 1], items, workers), steps[|steps| - 1], items, workers)
  }

  /** Every worker has returned, so the pool's promise resolves. */
  ghost predicate Resolved(p: Pool, workers: nat) {
    forall w :: 0 <= w < workers ==> w in p.stopped
  }

  /** How many times an index occurs. */
  function Times(s: seq<nat>, i: nat): nat {
    multiset(s)[i]
  }

  /** Each index below `items` occurs once, and nothing else does. */
  ghost predicate EachOnce(s: seq<nat>, items: nat) {
    forall i: nat :: Times(s, i) == if i < items then 1 else 0
  }

  /** What is claimed and not running has finished, exactly once. */
  ghost predicate Sound(p: Pool, items: nat, workers: nat) {
    && (forall w :: w in p.running ==> w < workers && w !in p.stopped && p.running[w] < items && p.running[w] < p.next)
    && (forall v, w :: v in p.running && w in p.running && v != w ==> p.running[v] != p.running[w])
    && (forall w :: w in p.stopped ==> w < workers && p.next >= items)
    && (forall i :: FinishedAsExpected(p, items, i))
  }

  ghost predicate FinishedAsExpected(p: Pool, items: nat, i: nat) {
    Times(p.finished, i) == if i < items && i < p.next && i !in p.running.Values then 1 else 0
  }

  lemma ClaimKeepsSound(p: Pool, w: nat, items: nat, workers: nat)
    requires Sound(p, items, workers)
    ensures Sound(Next(p, Claim(w), items, workers), items, workers)
  {
    var q := Next(p, Claim(w), items, workers);
    forall i: nat
      ensures FinishedAsExpected(q, items, i)
    {
      assert FinishedAsExpected(p, items, i);
      if q.running != p.running {
        assert q.running[w] == p.next;
        assert i in q.running.Values <==> i in p.running.Values || i == p.next by {
          if i in p.running.Values {
            var v :| v in p.running && p.running[v] == i;
            assert q.running[v] == i;
          }
        }
      }
    }
  }

  lemma FinishKeepsSound(p: Pool, w: nat, items: nat, workers: nat)
    requires Sound(p, items, workers)
    ensures Sound(Next(p, Finish(w), items, workers), items, workers)
  {
    var q := Next(p, Finish(w), items, workers);
    if w in p.running {
      var done := p.running[w];
      forall i: nat
        ensures FinishedAsExpected(q, items, i)
      {
        assert FinishedAsExpected(p, items, i);
        assert i in q.running.Values <==> i in p.running.Values && i != done by {
          if i in p.running.Values && i != done {
            var v :| v in p.running && p.running[v] == i;
            assert q.running[v] == i;
          }
        }
      }
    }
  }

  lemma {:induction false} RunIsSound(steps: seq<Step>, items: nat, workers: nat)
    ensures Sound(Run(steps, items, workers), items, workers)
    decreases |steps|
  {
    if steps != [] {
      var before := Run(steps[..|steps| - 1], items, workers);
      RunIsSound(steps[..|steps| - 1], items, workers);
      match steps[|steps| - 1]
      case Claim(w) => ClaimKeepsSound(before, w, items, workers);
      case Finish(w) => FinishKeepsSound(before, w, items, workers);
    }
  }

  /**
   * However the workers interleave, when the pool resolves every item's mapper has completed
   * exactly once.
   */
  lemma EachItemOnce(steps: seq<Step>, items: nat, concurrency: int)
    requires Resolved(Run(steps, items, Workers(items, concurrency)), Workers(items, concurrency))
    ensures EachOnce(Run(steps, items, Workers(items, concurrency)).finished, items)
  {
    var p := Run(steps, items, Workers(items, concurrency));
    RunIsSound(steps, items, Workers(items, concurrency));
    assert items > 0 ==> 0 in p.stopped;
    forall i: nat
      ensures Times(p.finished, i) == if i < items then 1 else 0
    {
      assert FinishedAsExpected(p, items, i);
    }
  }

  // How many run at once, and that the pool gets done

  lemma {:induction false} BelowAtMost(s: set<nat>, n: nat)
    requires forall x :: x in s ==> x < n
    ensures |s| <= n
  {
    if n > 0 {
      BelowAtMost(s - {n - 1}, n - 1);
      assert s <= (s - {n - 1}) + {n - 1};
      if n - 1 in s {
        assert s == (s - {n - 1}) + {n - 1};
      } else {
        assert s == s - {n - 1};
      }
    } else {
      assert s == {};
    }
  }

  /** At every point of every run at most as many mappers run as there are items and as the concurrency says, at least one. */
  lemma FewAtATime(steps: seq<Step>, items: nat, concurrency: int)
    ensures
      var workers := Workers(items, concurrency);
      && (workers == items || (workers < items && workers == if concurrency > 1 then concurrency else 1))
      && |Run(steps, items, workers).running| <= workers
      && (items > 0 ==> 1 <= workers <= items)
      && (concurrency >= 1 ==> workers <= concurrency)
  {
    var workers := Workers(items, concurrency);
    var p := Run(steps, items, workers);
    RunIsSound(steps, items, workers);
    BelowAtMost(p.running.Keys, workers);
  }

  /** What is left to do: claiming and finishing each item, and every worker's return. */
  function Left(p: Pool, items: nat, workers: nat): int {
    2 * (if p.next < items then items - p.next else 0) + |p.running| + workers - |p.stopped|
  }

  lemma StepUsesOne(p: Pool, step: Step, items: nat, workers: nat)
    requires Sound(p, items, workers)
    ensures Next(p, step, items, workers) == p || Left(Next(p, step, items, workers), items, workers) == Left(p, items, workers) - 1
  {
    if step.Finish? && step.worker in p.running {
      assert (p.running - {step.worker}).Keys == p.running.Keys - {step.worker};
    } else if step.Claim? && step.worker !in p.running {
      assert p.running[step.worker := p.next].Keys == p.running.Keys + {step.worker};
    }
  }

  /** The steps of a run that change something. */
  function Moves(steps: seq<Step>, items: nat, workers: nat): nat {
    if steps == [] then 0
    else
      var before := Run(steps[..|steps| - 1], items, workers);
      Moves(steps[..|steps| - 1], items, workers)
      + if Next(before, steps[|steps| - 1], items, workers) != before then 1 else 0
  }

  lemma {:induction false} MovesUseUp(steps: seq<Step>, items: nat, workers: nat)
    ensures Moves(steps, items, workers) + Left(Run(steps, items, workers), items, workers) == 2 * items + workers
  {
    if steps != [] {
      RunIsSound(steps[..|steps| - 1], items, workers);
      MovesUseUp(steps[..|steps| - 1], items, workers);
      StepUsesOne(Run(steps[..|steps| - 1], items, workers), steps[|steps| - 1], items, workers);
    }
  }

  /**
   * The pool always gets done: no run has more than 2 * items + workers steps that change anything, and as long
   * as the pool has not resolved some worker has such a step.
   */
  lemma PoolGetsDone(steps: seq<Step>, items: nat, workers: nat)
    ensures Moves(steps, items, workers) <= 2 * items + workers
    ensures var p := Run(steps, items, workers);
            Resolved(p, workers) || exists step :: Next(p, step, items, workers) != p
  {
    var p := Run(steps, items, workers);
    RunIsSound(steps, items, workers);
    MovesUseUp(steps, items, workers);
    BelowAtMost(p.stopped, workers);
    if w: nat :| w < workers && w !in p.stopped {
      if w in p.running {
        assert w !in Next(p, Finish(w), items, workers).running;
      } else {
        assert Next(p, Claim(w), items, workers).next == p.next + 1;
      }
    }
  }
}

/** Counting the labels extracted from posts. */
module SocialListening {
  import opened Sums
  import opened Sorting
  import opened Texts
  import opened WorkerPool

  /** A label extracted from the post at `url`. */
  datatype Mention = Mention(text: string, url: string)

  /** One map entry; the evidence set in insertion order. */
  datatype Entry = Entry(text: string, frequency: nat, evidenceUrls: seq<string>)

  /** A map with the order its keys were inserted in. */
  datatype Tally = Tally(order: seq<string>, entries: map<string, Entry>)

  function Key(text: string): string {
    Lower(Trim(text))
  }

  function WithUrl(urls: seq<string>, url: string): seq<string> {
    if url in urls then urls else urls + [url]
  }

  function Bumped(t: Tally, m: Mention): Tally {
    var key := Key(m.text);
    if key == "" then t
    else if key in t.entries then
      var e := t.entries[key];
      t.(entries := t.entries[key := Entry(e.text, e.frequency + 1, WithUrl(e.evidenceUrls, m.url))])
    else Tally(t.order + [key], t.entries[key := Entry(Trim(m.text), 1, [m.url])])
  }

  function TallyOf(mentions: seq<Mention>): Tally {
    if mentions == [] then Tally([], map[])
    else Bumped(TallyOf(mentions[..|mentions| - 1]), mentions[|mentions| - 1])
  }

  lemma TallyAppend(mentions: seq<Mention>, m: Mention)
    ensures TallyOf(mentions + [m]) == Bumped(TallyOf(mentions), m)
  {
    assert (mentions + [m])[..|mentions|] == mentions;
  }

  class LabelMap {
    var order: seq<string>
    var entries: map<string, Entry>

    function View(): Tally
      reads this
    {
      Tally(order, entries)
    }

    constructor ()
      ensures View() == TallyOf([])
    {
      order := [];
      entries := map[];
    }

    method Bump(text: string, url: string)
      modifies this
      ensures View() == Bumped(old(View()), Mention(text, url))
    {
      var key := Lower(Trim(text));
      if key == "" {
        return;
      }
      if key in entries {
        var existing := entries[key];
        var urls := existing.evidenceUrls;
        if url !in urls {
          urls := urls + [url];
        }
        entries := entries[key := existing.(frequency := existing.frequency + 1, evidenceUrls := urls)];
      } else {
        order := order + [key];
        entries := entries[key := Entry(Trim(text), 1, [url])];
      }
    }

    /** The loop over one post's labels. */
    method BumpAll(post: Post, ghost before: seq<Mention>)
      requires View() == TallyOf(before)
      modifies this
      ensures View() == TallyOf(before + MentionsOf(post))
    {
      ghost var seen := before;
      for i := 0 to |post.labels|
        invariant seen == before + MentionsOf(post)[..i]
        invariant View() == TallyOf(seen)
      {
        MentionsStep(post, i);
        TallyAppend(seen, Mention(post.labels[i], post.url));
        Bump(post.labels[i], post.url);
        seen := seen + [Mention(post.labels[i], post.url)];
      }
      assert MentionsOf(post)[..|post.labels|] == MentionsOf(post);
    }
  }

  /** A post with the labels extracted from it; none if its extraction degraded. */
  datatype Post = Post(url: string, labels: seq<string>)

  function MentionsOf(post: Post): (r: seq<Mention>)
    ensures |r| == |post.labels|
  {
    seq(|post.labels|, i requires 0 <= i < |post.labels| => Mention(post.labels[i], post.url))
  }

  lemma MentionsStep(post: Post, i: nat)
    requires i < |post.labels|
    ensures MentionsOf(post)[..i + 1] == MentionsOf(post)[..i] + [Mention(post.labels[i], post.url)]
  {
  }

  function MentionsAt(posts: seq<Post>, i: nat): seq<Mention> {
    if i < |posts| then MentionsOf(posts[i]) else []
  }

  /** The mentions in the order the pool finishes the posts. */
  function MentionsIn(posts: seq<Post>, finished: seq<nat>): seq<Mention> {
    if finished == [] then []
    else MentionsIn(posts, finished[..|finished| - 1]) + MentionsAt(posts, finished[|finished| - 1])
  }

  /** Tallying a pool run: the posts' loops run whole, in the order the posts finish. */
  method TallyPosts(posts: seq<Post>, finished: seq<nat>) returns (tally: Tally)
    requires forall k :: 0 <= k < |finished| ==> finished[k] < |posts|
    ensures tally == TallyOf(MentionsIn(posts, finished))
  {
    var labels := new LabelMap();
    for k := 0 to |finished|
      invariant fresh(labels)
      invariant labels.View() == TallyOf(MentionsIn(posts, finished[..k]))
    {
      assert finished[..k + 1][..k] == finished[..k];
      labels.BumpAll(posts[finished[k]], MentionsIn(posts, finished[..k]));
    }
    assert finished[..|finished|] == finished;
    tally := labels.View();
  }

  predicate Matches(m: Mention, key: string) {
    Key(m.text) == key
  }

  /** How many mentions have that label after trimming and lower-casing. */
  function Occurrences(mentions: seq<Mention>, key: string): nat {
    Count(mentions, (m: Mention) => Matches(m, key))
  }

  function NonBlank(mentions: seq<Mention>): nat {
    Count(mentions, (m: Mention) => !Matches(m, ""))
  }

  ghost predicate Evidence(mentions: seq<Mention>, key: string, url: string) {
    exists m :: m in mentions && Matches(m, key) && m.url == url
  }

  ghost predicate Distinct(s: seq<string>) {
    forall i, j :: 0 <= i < j < |s| ==> s[i] != s[j]
  }

  /** The entry of a key: its exact count, exactly the urls it was seen at, a label that reads as the key. */
  ghost predicate EntryIsExact(e: Entry, mentions: seq<Mention>, key: string) {
    && e.frequency == Occurrences(mentions, key)
    && Key(e.text) == key
    && Distinct(e.evidenceUrls)
    && (forall url :: url in e.evidenceUrls <==> Evidence(mentions, key, url))
  }

  ghost predicate TallyIsExact(t: Tally, mentions: seq<Mention>) {
    && Distinct(t.order)
    && (forall key :: key in t.order <==> key in t.entries)
    && (forall key :: key in t.entries <==> key != "" && Occurrences(mentions, key) > 0)
    && (forall key :: key in t.entries ==> EntryIsExact(t.entries[key], mentions, key))
  }

  lemma OccurrencesAppend(mentions: seq<Mention>, m: Mention, key: string)
    ensures Occurrences(mentions + [m], key) == Occurrences(mentions, key) + (if Matches(m, key) then 1 else 0)
  {
    CountAppend(mentions, m, (x: Mention) => Matches(x, key));
  }

  lemma EvidenceAppend(mentions: seq<Mention>, m: Mention, key: string, url: string)
    ensures Evidence(mentions + [m], key, url) <==> Evidence(mentions, key, url) || (Matches(m, key) && m.url == url)
  {
    if Evidence(mentions, key, url) {
      var x :| x in mentions && Matches(x, key) && x.url == url;
      assert x in mentions + [m];
    } else if Matches(m, key) && m.url == url {
      assert m in mentions + [m];
    }
  }

  lemma {:induction false} NoOccurrenceNoEvidence(mentions: seq<Mention>, key: string, url: string)
    requires Occurrences(mentions, key) == 0
    ensures !Evidence(mentions, key, url)
  {
    if mentions != [] {
      NoOccurrenceNoEvidence(mentions[1..], key, url);
    }
  }

  lemma BumpKeepsEvidence(e: Entry, mentions: seq<Mention>, m: Mention, key: string)
    requires EntryIsExact(e, mentions, key) && Matches(m, key)
    ensures EntryIsExact(Entry(e.text, e.frequency + 1, WithUrl(e.evidenceUrls, m.url)), mentions + [m], key)
  {
    OccurrencesAppend(mentions, m, key);
    forall url: string
      ensures url in WithUrl(e.evidenceUrls, m.url) <==> Evidence(mentions + [m], key, url)
    {
      EvidenceAppend(mentions, m, key, url);
    }
  }

  lemma OtherMentionKeepsEntry(e: Entry, mentions: seq<Mention>, m: Mention, key: string)
    requires EntryIsExact(e, mentions, key) && !Matches(m, key)
    ensures EntryIsExact(e, mentions + [m], key)
  {
    OccurrencesAppend(mentions, m, key);
    forall url: string
      ensures url in e.evidenceUrls <==> Evidence(mentions + [m], key, url)
    {
      EvidenceAppend(mentions, m, key, url);
    }
  }

  lemma FirstMentionIsExact(mentions: seq<Mention>, m: Mention, key: string)
    requires Occurrences(mentions, key) == 0 && Matches(m, key)
    ensures EntryIsExact(Entry(Trim(m.text), 1, [m.url]), mentions + [m], key)
  {
    OccurrencesAppend(mentions, m, key);
    TrimKeepsTrimmed(m.text);
    forall url: string
      ensures url in [m.url] <==> Evidence(mentions + [m], key, url)
    {
      EvidenceAppend(mentions, m, key, url);
      NoOccurrenceNoEvidence(mentions, key, url);
    }
  }

  lemma BumpKeepsEntry(t: Tally, mentions: seq<Mention>, m: Mention, key: string)
    requires TallyIsExact(t, mentions) && key in Bumped(t, m).entries
    ensures EntryIsExact(Bumped(t, m).entries[key], mentions + [m], key)
  {
    if !Matches(m, key) || key == "" {
      assert key in t.entries;
      OtherMentionKeepsEntry(t.entries[key], mentions, m, key);
    } else if key in t.entries {
      BumpKeepsEvidence(t.entries[key], mentions, m, key);
    } else {
      FirstMentionIsExact(mentions, m, key);
    }
  }

  lemma BumpKeepsExact(t: Tally, mentions: seq<Mention>, m: Mention)
    requires TallyIsExact(t, mentions)
    ensures TallyIsExact(Bumped(t, m), mentions + [m])
  {
    var next := Bumped(t, m);
    forall key: string
      ensures key in next.entries <==> key != "" && Occurrences(mentions + [m], key) > 0
    {
      OccurrencesAppend(mentions, m, key);
    }
    forall key | key in next.entries
      ensures EntryIsExact(next.entries[key], mentions + [m], key)
    {
      BumpKeepsEntry(t, mentions, m, key);
    }
  }

  /**
   * The final frequency of each label is the number of extracted occurrences equal to it after
   * trimming and lower-casing, and its evidence is exactly the urls of those occurrences.
   */
  lemma {:induction false} FrequenciesAreExact(mentions: seq<Mention>)
    ensures TallyIsExact(TallyOf(mentions), mentions)
  {
    if mentions != [] {
      var last := |mentions| - 1;
      FrequenciesAreExact(mentions[..last]);
      BumpKeepsExact(TallyOf(mentions[..last]), mentions[..last], mentions[last]);
      assert mentions == mentions[..last] + [mentions[last]];
    }
  }

  function Total(keys: seq<string>, mentions: seq<Mention>): nat {
    if keys == [] then 0 else Occurrences(mentions, keys[0]) + Total(keys[1..], mentions)
  }

  lemma {:induction false} TotalOfNothing(keys: seq<string>)
    ensures Total(keys, []) == 0
  {
    if keys != [] {
      TotalOfNothing(keys[1..]);
    }
  }

  lemma {:induction false} TotalAppend(keys: seq<string>, mentions: seq<Mention>, m: Mention)
    requires Distinct(keys)
    ensures Total(keys, mentions + [m]) == Total(keys, mentions) + (if Key(m.text) in keys then 1 else 0)
  {
    if keys != [] {
      OccurrencesAppend(mentions, m, keys[0]);
      TotalAppend(keys[1..], mentions, m);
    }
  }

  lemma {:induction false} TotalIsNonBlank(keys: seq<string>, mentions: seq<Mention>)
    requires Distinct(keys) && "" !in keys
    requires forall m :: m in mentions && Key(m.text) != "" ==> Key(m.text) in keys
    ensures Total(keys, mentions) == NonBlank(mentions)
    decreases |mentions|
  {
    if mentions == [] {
      TotalOfNothing(keys);
    } else {
      var last := |mentions| - 1;
      var m := mentions[last];
      TotalIsNonBlank(keys, mentions[..last]);
      TotalAppend(keys, mentions[..last], m);
      CountAppend(mentions[..last], m, (x: Mention) => !Matches(x, ""));
      assert mentions == mentions[..last] + [m];
    }
  }

  lemma {:induction false} MentionOccurs(mentions: seq<Mention>, m: Mention)
    requires m in mentions
    ensures Occurrences(mentions, Key(m.text)) > 0
  {
    if mentions[0] != m {
      MentionOccurs(mentions[1..], m);
    }
  }

  function FrequencySum(t: Tally, keys: seq<string>): nat
    requires forall key :: key in keys ==> key in t.entries
  {
    if keys == [] then 0 else t.entries[keys[0]].frequency + FrequencySum(t, keys[1..])
  }

  lemma {:induction false} SumIsTotal(t: Tally, keys: seq<string>, mentions: seq<Mention>)
    requires TallyIsExact(t, mentions) && forall key :: key in keys ==> key in t.entries
    ensures FrequencySum(t, keys) == Total(keys, mentions)
  {
    if keys != [] {
      assert keys[0] in t.entries && EntryIsExact(t.entries[keys[0]], mentions, keys[0]);
      SumIsTotal(t, keys[1..], mentions);
    }
  }

  /** The frequencies add up to the number of non-blank extracted labels. */
  lemma FrequenciesAddUp(mentions: seq<Mention>)
    ensures
      var t := TallyOf(mentions);
      && (forall key :: key in t.order ==> key in t.entries)
      && FrequencySum(t, t.order) == NonBlank(mentions)
  {
    var t := TallyOf(mentions);
    FrequenciesAreExact(mentions);
    SumIsTotal(t, t.order, mentions);
    forall m | m in mentions && Key(m.text) != ""
      ensures Key(m.text) in t.order
    {
      MentionOccurs(mentions, m);
    }
    assert "" !in t.entries;
    TotalIsNonBlank(t.order, mentions);
  }

  /** One post's part of a count. */
  function PostShare(posts: seq<Post>, i: nat, key: string): real {
    Occurrences(MentionsAt(posts, i), key) as real
  }

  lemma OccurrencesConcat(posts: seq<Post>, rest: seq<nat>, last: nat, key: string)
    ensures Occurrences(MentionsIn(posts, rest + [last]), key) as real
         == Occurrences(MentionsIn(posts, rest), key) as real + PostShare(posts, last, key)
  {
    assert (rest + [last])[..|rest|] == rest;
    CountConcat(MentionsIn(posts, rest), MentionsAt(posts, last), (m: Mention) => Matches(m, key));
  }

  lemma {:induction false} OccurrencesByPost(posts: seq<Post>, finished: seq<nat>, key: string)
    ensures Occurrences(MentionsIn(posts, finished), key) as real == SumBy(finished, (i: nat) => PostShare(posts, i, key))
  {
    if finished != [] {
      var rest, last := finished[..|finished| - 1], finished[|finished| - 1];
      assert finished == rest + [last];
      OccurrencesByPost(posts, rest, key);
      OccurrencesConcat(posts, rest, last, key);
      SumByAppend(rest, last, (i: nat) => PostShare(posts, i, key));
    }
  }

  lemma {:induction false} MentionsOfAllPosts(posts: seq<Post>, finished: seq<nat>, m: Mention)
    ensures m in MentionsIn(posts, finished) <==> exists i :: i in finished && m in MentionsAt(posts, i)
  {
    if finished != [] {
      var rest, last := finished[..|finished| - 1], finished[|finished| - 1];
      MentionsOfAllPosts(posts, rest, m);
      assert finished == rest + [last];
      assert last in finished;
    }
  }

  /** Occurrences and mentions do not depend on the order in which the posts finish. */
  lemma ReorderingKeepsMentions(posts: seq<Post>, some: seq<nat>, other: seq<nat>)
    requires multiset(some) == multiset(other)
    ensures forall key :: Occurrences(MentionsIn(posts, some), key) == Occurrences(MentionsIn(posts, other), key)
    ensures forall m :: m in MentionsIn(posts, some) <==> m in MentionsIn(posts, other)
  {
    forall key: string
      ensures Occurrences(MentionsIn(posts, some), key) == Occurrences(MentionsIn(posts, other), key)
    {
      OccurrencesByPost(posts, some, key);
      OccurrencesByPost(posts, other, key);
      SumByPermutation(some, other, (i: nat) => PostShare(posts, i, key));
    }
    forall m: Mention
      ensures m in MentionsIn(posts, some) <==> m in MentionsIn(posts, other)
    {
      MentionsOfAllPosts(posts, some, m);
      MentionsOfAllPosts(posts, other, m);
      assert forall i: nat :: i in some <==> i in multiset(some);
      assert forall i: nat :: i in other <==> i in multiset(other);
    }
  }

  lemma TimesAgree(a: seq<nat>, b: seq<nat>, items: nat, i: nat)
    requires EachOnce(a, items) && EachOnce(b, items)
    ensures multiset(a)[i] == multiset(b)[i]
  {
    assert Times(a, i) == Times(b, i);
  }

  lemma PartOf(a: seq<nat>, b: seq<nat>, items: nat)
    requires EachOnce(a, items) && EachOnce(b, items)
    ensures multiset(a) - multiset(b) == multiset{}
  {
    if multiset(a) - multiset(b) != multiset{} {
      var x :| x in multiset(a) - multiset(b);
      TimesAgree(a, b, items, x);
    }
  }

  lemma SameMultiset(a: seq<nat>, b: seq<nat>, items: nat)
    requires EachOnce(a, items) && EachOnce(b, items)
    ensures multiset(a) == multiset(b)
  {
    PartOf(a, b, items);
    PartOf(b, a, items);
    assert multiset(a) <= multiset(b) && multiset(b) <= multiset(a);
  }

  /** A run of the pool over the posts that has resolved. */
  ghost predicate Finishes(steps: seq<Step>, posts: seq<Post>, concurrency: int) {
    Resolved(Run(steps, |posts|, Workers(|posts|, concurrency)), Workers(|posts|, concurrency))
  }

  function Finished(steps: seq<Step>, posts: seq<Post>, concurrency: int): seq<nat> {
    Run(steps, |posts|, Workers(|posts|, concurrency)).finished
  }

  /** The same keys, each with the same count and the same evidence. */
  ghost predicate SameCounts(a: Tally, b: Tally) {
    && a.entries.Keys == b.entries.Keys
    && forall key :: key in a.entries ==>
         && a.entries[key].frequency == b.entries[key].frequency
         && (forall url :: url in a.entries[key].evidenceUrls <==> url in b.entries[key].evidenceUrls)
  }

  /** The counts and the evidence are the same for every order in which the pool can finish the posts. */
  lemma FinishingOrderDoesNotMatter(posts: seq<Post>, some: seq<Step>, other: seq<Step>, concurrency: int)
    requires Finishes(some, posts, concurrency) && Finishes(other, posts, concurrency)
    ensures SameCounts(TallyOf(MentionsIn(posts, Finished(some, posts, concurrency))),
                       TallyOf(MentionsIn(posts, Finished(other, posts, concurrency))))
  {
    var first, second := Finished(some, posts, concurrency), Finished(other, posts, concurrency);
    EachItemOnce(some, |posts|, concurrency);
    EachItemOnce(other, |posts|, concurrency);
    SameMultiset(first, second, |posts|);
    ReorderingKeepsMentions(posts, first, second);
    SameMentionsSameEvidence(MentionsIn(posts, first), MentionsIn(posts, second));
    SameCountsSameTally(MentionsIn(posts, first), MentionsIn(posts, second));
  }

  lemma SameMentionsSameEvidence(x: seq<Mention>, y: seq<Mention>)
    requires forall m :: m in x <==> m in y
    ensures forall key, url :: Evidence(x, key, url) <==> Evidence(y, key, url)
  {
  }

  lemma SameCountsSameTally(x: seq<Mention>, y: seq<Mention>)
    requires forall key :: Occurrences(x, key) == Occurrences(y, key)
    requires forall key, url :: Evidence(x, key, url) <==> Evidence(y, key, url)
    ensures SameCounts(TallyOf(x), TallyOf(y))
  {
    FrequenciesAreExact(x);
    FrequenciesAreExact(y);
    var a, b := TallyOf(x), TallyOf(y);
    forall key: string
      ensures key in a.entries <==> key in b.entries
    {
      assert Occurrences(x, key) == Occurrences(y, key);
    }
    forall key | key in a.entries
      ensures a.entries[key].frequency == b.entries[key].frequency
      ensures forall url :: url in a.entries[key].evidenceUrls <==> url in b.entries[key].evidenceUrls
    {
      assert EntryIsExact(a.entries[key], x, key) && EntryIsExact(b.entries[key], y, key);
    }
  }

  /** The position of the first entry that satisfies `p`, `|s|` if there is none. */
  function FirstIndex<T>(s: seq<T>, p: T -> bool): nat {
    if s == [] then 0
    else
      var earlier := FirstIndex(s[..|s| - 1], p);
      if earlier < |s| - 1 || p(s[|s| - 1]) then earlier else |s|
  }

  lemma {:induction false} FirstIndexIsFirst<T>(s: seq<T>, p: T -> bool)
    ensures FirstIndex(s, p) <= |s| && (FirstIndex(s, p) < |s| ==> p(s[FirstIndex(s, p)]))
    ensures forall i :: 0 <= i < FirstIndex(s, p) ==> !p(s[i])
  {
    if s != [] {
      FirstIndexIsFirst(s[..|s| - 1], p);
    }
  }

  /** The position of the first mention of a label, `|mentions|` if there is none. */
  function FirstOf(mentions: seq<Mention>, key: string): nat {
    FirstIndex(mentions, (m: Mention) => Matches(m, key))
  }

  /** The text shown for a label is not: it is that of its first mention in tally order, trimmed. */
  lemma {:induction false} ShownTextDependsOnOrder(mentions: seq<Mention>, key: string)
    requires key != ""
    ensures
      var t, first := TallyOf(mentions), FirstOf(mentions, key);
      && first <= |mentions|
      && (key in t.entries <==> first < |mentions|)
      && (first < |mentions| ==> t.entries[key].text == Trim(mentions[first].text))
  {
    FirstIndexIsFirst(mentions, (m: Mention) => Matches(m, key));
    if mentions != [] {
      ShownTextDependsOnOrder(mentions[..|mentions| - 1], key);
    }
  }

  /** The most frequent labels first, with up to eight urls each. */
  function Values(t: Tally): (r: seq<Entry>)
    requires forall key :: key in t.order ==> key in t.entries
    ensures |r| == |t.order|
    ensures forall i {:trigger r[i]} :: 0 <= i < |r| ==> r[i] == t.entries[t.order[i]]
  {
    seq(|t.order|, i requires 0 <= i < |t.order| => t.entries[t.order[i]])
  }

  function Frequency(e: Entry): real {
    e.frequency as real
  }

  function Shown(e: Entry): Entry {
    if |e.evidenceUrls| <= 8 then e else e.(evidenceUrls := e.evidenceUrls[..8])
  }

  function ShowAll(top: seq<Entry>): (r: seq<Entry>)
    ensures |r| == |top|
    ensures forall i {:trigger r[i]} :: 0 <= i < |r| ==> r[i] == Shown(top[i])
  {
    seq(|top|, i requires 0 <= i < |top| => Shown(top[i]))
  }

  function ToSorted(t: Tally): seq<Entry>
    requires forall key :: key in t.order ==> key in t.entries
  {
    ShowAll(Top(Values(t), Frequency, 15))
  }

  /** A row of the report: the count of its label, and up to eight of the urls it was seen at. */
  ghost predicate RowIsExact(row: Entry, mentions: seq<Mention>) {
    && Key(row.text) != ""
    && row.frequency == Occurrences(mentions, Key(row.text))
    && |row.evidenceUrls| <= 8 && Distinct(row.evidenceUrls)
    && forall url :: url in row.evidenceUrls ==> Evidence(mentions, Key(row.text), url)
  }

  /** A label is in the report, or occurs no more often than any label that is. */
  ghost predicate ReportedOrRarer(report: seq<Entry>, mentions: seq<Mention>, key: string) {
    || (exists i :: 0 <= i < |report| && Key(report[i].text) == key)
    || (forall i :: 0 <= i < |report| ==> report[i].frequency >= Occurrences(mentions, key))
  }

  lemma ShownIsExact(e: Entry, mentions: seq<Mention>, key: string)
    requires EntryIsExact(e, mentions, key) && key != ""
    ensures RowIsExact(Shown(e), mentions)
  {
  }

  lemma ValueIsExact(t: Tally, mentions: seq<Mention>, e: Entry)
    requires TallyIsExact(t, mentions) && e in Values(t)
    ensures RowIsExact(Shown(e), mentions)
  {
    var i :| 0 <= i < |t.order| && Values(t)[i] == e;
    assert t.order[i] in t.entries && EntryIsExact(e, mentions, t.order[i]);
    ShownIsExact(e, mentions, t.order[i]);
  }

  lemma RowsAreExact(t: Tally, mentions: seq<Mention>, top: seq<Entry>)
    requires TallyIsExact(t, mentions) && multiset(top) <= multiset(Values(t))
    ensures forall i :: 0 <= i < |top| ==> RowIsExact(ShowAll(top)[i], mentions)
  {
    forall i | 0 <= i < |top|
      ensures RowIsExact(ShowAll(top)[i], mentions)
    {
      assert top[i] in multiset(top);
      ValueIsExact(t, mentions, top[i]);
    }
  }

  lemma RowsDescend(top: seq<Entry>)
    requires Descending(top, Frequency)
    ensures forall i, j :: 0 <= i < j < |top| ==> ShowAll(top)[i].frequency >= ShowAll(top)[j].frequency
  {
    forall i, j | 0 <= i < j < |top|
      ensures ShowAll(top)[i].frequency >= ShowAll(top)[j].frequency
    {
      assert Frequency(top[i]) >= Frequency(top[j]);
    }
  }

  lemma LabelIsReportedOrRarer(mentions: seq<Mention>, top: seq<Entry>, e: Entry, key: string)
    requires EntryIsExact(e, mentions, key)
    requires e in top || forall x :: x in top ==> Frequency(x) >= Frequency(e)
    ensures ReportedOrRarer(ShowAll(top), mentions, key)
  {
    if e in top {
      var i :| 0 <= i < |top| && top[i] == e;
      assert Key(ShowAll(top)[i].text) == key;
    } else {
      forall i | 0 <= i < |top|
        ensures ShowAll(top)[i].frequency >= Occurrences(mentions, key)
      {
        assert top[i] in top;
      }
    }
  }

  lemma EveryLabelIsReportedOrRarer(t: Tally, mentions: seq<Mention>, top: seq<Entry>, key: string)
    requires TallyIsExact(t, mentions) && key != ""
    requires forall x :: x in Values(t) ==> x in top || forall y :: y in top ==> Frequency(y) >= Frequency(x)
    ensures ReportedOrRarer(ShowAll(top), mentions, key)
  {
    if key in t.entries {
      var k :| 0 <= k < |t.order| && t.order[k] == key;
      assert Values(t)[k] == t.entries[key];
      LabelIsReportedOrRarer(mentions, top, t.entries[key], key);
    }
  }

  /** The report holds the 15 most frequent labels, in order, with exact counts. */
  lemma ReportIsLargest(mentions: seq<Mention>)
    ensures forall key :: key in TallyOf(mentions).order ==> key in TallyOf(mentions).entries
    ensures
      var t := TallyOf(mentions);
      var report := ToSorted(t);
      && |report| == (if |t.order| <= 15 then |t.order| else 15)
      && (forall i :: 0 <= i < |report| ==> RowIsExact(report[i], mentions))
      && (forall i, j :: 0 <= i < j < |report| ==> report[i].frequency >= report[j].frequency)
      && (forall key :: key != "" ==> ReportedOrRarer(report, mentions, key))
  {
    var t := TallyOf(mentions);
    FrequenciesAreExact(mentions);
    var top := Top(Values(t), Frequency, 15);
    TopIsLargest(Values(t), Frequency, 15);
    RowsAreExact(t, mentions, top);
    RowsDescend(top);
    forall key | key != ""
      ensures ReportedOrRarer(ShowAll(top), mentions, key)
    {
      EveryLabelIsReportedOrRarer(t, mentions, top, key);
    }
  }
}
