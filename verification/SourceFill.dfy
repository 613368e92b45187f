/** Which sources a research run keeps when it has found more than it may persist. */
module SourceFill {
  import opened Distinctness
  import opened Texts

  /** A source found; whether its host is a primary authority is decided by a pattern on the url. */
  datatype Source = Source(url: string, primary: bool)

  function Least(a: int, b: int): int {
    if a <= b then a else b
  }

  function Greatest(a: int, b: int): int {
    if a >= b then a else b
  }

  /** Array.prototype.slice(0, n) and slice(n). */
  function Take(s: seq<Source>, n: nat): seq<Source> {
    s[..Least(n, |s|)]
  }

  function Drop(s: seq<Source>, n: nat): seq<Source> {
    s[Least(n, |s|)..]
  }

  /** The slots kept for primary authorities. */
  function PrimaryReserve(isHighStakes: bool, maxSources: nat): nat {
    if isHighStakes then Least(12, Greatest(6, maxSources / 2)) else 0
  }

  /** Array.prototype.filter on the classification. */
  function Kind(s: seq<Source>, primary: bool): seq<Source> {
    if s == [] then []
    else if s[0].primary == primary then [s[0]] + Kind(s[1..], primary)
    else Kind(s[1..], primary)
  }

  /** The fill: primary authorities in the order found, the others as ranked. */
  function Fill(primary: seq<Source>, secondary: seq<Source>, isHighStakes: bool, maxSources: nat): seq<Source> {
    var reserve := PrimaryReserve(isHighStakes, maxSources);
    if isHighStakes then
      Take(Take(primary, reserve)
           + Take(secondary, Greatest(0, maxSources - Least(|primary|, reserve)))
           + Drop(primary, reserve), maxSources)
    else Take(primary + secondary, maxSources)
  }

  /** How many primary authorities that keeps. */
  function PrimariesKept(primary: nat, secondary: nat, isHighStakes: bool, maxSources: nat): nat {
    if isHighStakes then
      Least(primary, Greatest(Least(PrimaryReserve(true, maxSources), maxSources), maxSources - secondary))
    else Least(primary, maxSources)
  }

  lemma FirstAndRest(a: seq<Source>, b: seq<Source>)
    requires a != []
    ensures (a + b)[0] == a[0] && (a + b)[1..] == a[1..] + b
  {
  }

  lemma {:induction false} KindConcat(a: seq<Source>, b: seq<Source>, primary: bool)
    ensures Kind(a + b, primary) == Kind(a, primary) + Kind(b, primary)
  {
    if a == [] {
      assert a + b == b;
    } else {
      KindConcat(a[1..], b, primary);
      FirstAndRest(a, b);
    }
  }

  lemma {:induction false} KindOfOneKind(s: seq<Source>, primary: bool)
    requires forall x :: x in s ==> x.primary == primary
    ensures Kind(s, primary) == s && Kind(s, !primary) == []
  {
    if s != [] {
      KindOfOneKind(s[1..], primary);
    }
  }

  lemma {:induction false} Partition(s: seq<Source>)
    ensures forall x :: x in Kind(s, true) ==> x.primary
    ensures forall x :: x in Kind(s, false) ==> !x.primary
    ensures multiset(s) == multiset(Kind(s, true)) + multiset(Kind(s, false))
  {
    if s != [] {
      Partition(s[1..]);
      assert s == [s[0]] + s[1..];
    }
  }

  lemma KindOfParts(first: seq<Source>, middle: seq<Source>, last: seq<Source>, primary: bool,
                    a: seq<Source>, b: seq<Source>, c: seq<Source>)
    requires Kind(first, primary) == a && Kind(middle, primary) == b && Kind(last, primary) == c
    ensures Kind(first + middle + last, primary) == a + b + c
  {
    KindConcat(first + middle, last, primary);
    KindConcat(first, middle, primary);
  }

  /** A fill of this form keeps its parts in order. */
  lemma PartsOfFill(first: seq<Source>, middle: seq<Source>, last: seq<Source>)
    requires forall x :: x in first ==> x.primary
    requires forall x :: x in middle ==> !x.primary
    requires forall x :: x in last ==> x.primary
    ensures Kind(first + middle + last, true) == first + last
    ensures Kind(first + middle + last, false) == middle
  {
    KindOfOneKind(first, true);
    KindOfOneKind(middle, false);
    KindOfOneKind(last, true);
    KindOfParts(first, middle, last, true, first, [], last);
    KindOfParts(first, middle, last, false, [], middle, []);
    assert first + [] + last == first + last;
    assert [] + middle + [] == middle;
  }

  /** The first `n` of part of one kind, some of the other, then the rest of the first. */
  lemma TakeOfThree(first: seq<Source>, middle: seq<Source>, last: seq<Source>, n: nat)
    requires |first| + |middle| <= n
    ensures Take(first + middle + last, n) == first + middle + Take(last, n - |first| - |middle|)
  {
  }

  lemma RestOfPrimaries(primary: seq<Source>, a: nat, n: nat)
    requires a <= |primary|
    ensures primary[..a] + Take(primary[a..], n) == Take(primary, a + n)
  {
  }

  /** The fill keeps exactly the first `kept` primary authorities and the first of the others. */
  ghost predicate Keeps(fill: seq<Source>, primary: seq<Source>, secondary: seq<Source>, kept: nat) {
    && kept <= |primary| && kept <= |fill| && |fill| - kept <= |secondary|
    && Kind(fill, true) == primary[..kept]
    && Kind(fill, false) == secondary[..|fill| - kept]
  }

  lemma OrdinaryFill(primary: seq<Source>, secondary: seq<Source>, maxSources: nat)
    requires (forall x :: x in primary ==> x.primary) && forall x :: x in secondary ==> !x.primary
    ensures Keeps(Fill(primary, secondary, false, maxSources), primary, secondary, Least(|primary|, maxSources))
  {
    var kept := Least(|primary|, maxSources);
    var others := Take(secondary, Greatest(0, maxSources - |primary|));
    assert Fill(primary, secondary, false, maxSources) == primary[..kept] + others + [];
    PartsOfFill(primary[..kept], others, []);
  }

  /** More authorities than fit before any other source is considered. */
  lemma CrowdedFill(primary: seq<Source>, secondary: seq<Source>, maxSources: nat)
    requires forall x :: x in primary ==> x.primary
    requires Least(|primary|, PrimaryReserve(true, maxSources)) >= maxSources
    ensures Keeps(Fill(primary, secondary, true, maxSources), primary, secondary, maxSources)
  {
    var reserve := PrimaryReserve(true, maxSources);
    assert Take(primary, reserve) + secondary[..0] + Drop(primary, reserve) == primary;
    assert Fill(primary, secondary, true, maxSources) == primary[..maxSources] + [] + [];
    PartsOfFill(primary[..maxSources], [], []);
  }

  lemma ReservedFillParts(primary: seq<Source>, secondary: seq<Source>, maxSources: nat, a: nat, b: nat)
    requires a == Least(|primary|, PrimaryReserve(true, maxSources)) < maxSources
    requires b == Least(|secondary|, maxSources - a)
    ensures Fill(primary, secondary, true, maxSources)
         == primary[..a] + secondary[..b] + Take(primary[a..], maxSources - a - b)
  {
    TakeOfThree(primary[..a], secondary[..b], primary[a..], maxSources);
  }

  lemma ReservedFill(primary: seq<Source>, secondary: seq<Source>, maxSources: nat)
    requires (forall x :: x in primary ==> x.primary) && forall x :: x in secondary ==> !x.primary
    requires Least(|primary|, PrimaryReserve(true, maxSources)) < maxSources
    ensures Keeps(Fill(primary, secondary, true, maxSources), primary, secondary,
                  PrimariesKept(|primary|, |secondary|, true, maxSources))
  {
    var a := Least(|primary|, PrimaryReserve(true, maxSources));
    var b := Least(|secondary|, maxSources - a);
    ReservedFillParts(primary, secondary, maxSources, a, b);
    PartsOfFill(primary[..a], secondary[..b], Take(primary[a..], maxSources - a - b));
    RestOfPrimaries(primary, a, maxSources - a - b);
  }

  /** Which sources the fill keeps. */
  lemma FillKeeps(primary: seq<Source>, secondary: seq<Source>, isHighStakes: bool, maxSources: nat)
    requires (forall x :: x in primary ==> x.primary) && forall x :: x in secondary ==> !x.primary
    ensures Keeps(Fill(primary, secondary, isHighStakes, maxSources), primary, secondary,
                  PrimariesKept(|primary|, |secondary|, isHighStakes, maxSources))
  {
    if !isHighStakes {
      OrdinaryFill(primary, secondary, maxSources);
    } else if Least(|primary|, PrimaryReserve(true, maxSources)) >= maxSources {
      CrowdedFill(primary, secondary, maxSources);
    } else {
      ReservedFill(primary, secondary, maxSources);
    }
  }

  lemma FillSize(primary: seq<Source>, secondary: seq<Source>, isHighStakes: bool, maxSources: nat)
    ensures |Fill(primary, secondary, isHighStakes, maxSources)| == Least(maxSources, |primary| + |secondary|)
  {
  }

  function Key(source: Source): string {
    Lower(Trim(source.url))
  }

  /** Two urls are one when they differ only in the case of letters and in the space around them. */
  lemma SameKeyIsSameUrl(a: Source, b: Source)
    ensures
      var x, y := Trim(a.url), Trim(b.url);
      Key(a) == Key(b) <==> |x| == |y| && forall i :: 0 <= i < |x| ==> LowerChar(x[i]) == LowerChar(y[i])
  {
    var x, y := Trim(a.url), Trim(b.url);
    if Key(a) == Key(b) {
      forall i | 0 <= i < |x|
        ensures LowerChar(x[i]) == LowerChar(y[i])
      {
        assert Lower(x)[i] == Lower(y)[i];
      }
    }
  }

  function Keys(sources: seq<Source>): set<string> {
    set x | x in sources :: Key(x)
  }

  function Deduped(results: seq<Source>): seq<Source> {
    if results == [] then []
    else
      var kept, next := Deduped(results[..|results| - 1]), results[|results| - 1];
      if Key(next) == "" || Key(next) in Keys(kept) then kept else kept + [next]
  }

  method DedupeSourceResults(results: seq<Source>) returns (out: seq<Source>)
    ensures out == Deduped(results)
  {
    out := [];
    var seen: set<string> := {};
    for i := 0 to |results|
      invariant out == Deduped(results[..i])
      invariant seen == Keys(out)
    {
      assert results[..i + 1][..i] == results[..i];
      var key := Lower(Trim(results[i].url));
      if key == "" || key in seen {
        continue;
      }
      KeysAppend(out, results[i]);
      seen := seen + {key};
      out := out + [results[i]];
    }
    assert results[..|results|] == results;
  }

  lemma KeysAppend(sources: seq<Source>, x: Source)
    ensures Keys(sources + [x]) == Keys(sources) + {Key(x)}
  {
    assert forall y :: y in sources + [x] <==> y in sources || y == x;
  }

  /** Every url that is not blank stays, read without case or outer space. */
  lemma {:induction false} DedupedKeys(results: seq<Source>)
    ensures Keys(Deduped(results)) == Keys(results) - {""}
  {
    if results != [] {
      var rest, next := results[..|results| - 1], results[|results| - 1];
      DedupedKeys(rest);
      assert results == rest + [next];
      NextKey(rest, Deduped(rest), next, Deduped(results));
    }
  }

  lemma NextKey(rest: seq<Source>, kept: seq<Source>, next: Source, after: seq<Source>)
    requires Keys(kept) == Keys(rest) - {""}
    requires after == if Key(next) == "" || Key(next) in Keys(kept) then kept else kept + [next]
    ensures Keys(after) == Keys(rest + [next]) - {""}
  {
    KeysAppend(rest, next);
    KeysAppend(kept, next);
  }

  lemma DistinctAppend(kept: seq<Source>, next: Source)
    requires DistinctBy(kept, Key) && Key(next) !in Keys(kept)
    ensures DistinctBy(kept + [next], Key)
  {
    forall i | 0 <= i < |kept|
      ensures Key(kept[i]) != Key(next)
    {
      assert kept[i] in kept;
    }
  }

  /** It stays once. */
  lemma {:induction false} DedupedIsDistinct(results: seq<Source>)
    ensures DistinctBy(Deduped(results), Key)
  {
    if results != [] {
      var rest, next := results[..|results| - 1], results[|results| - 1];
      DedupedIsDistinct(rest);
      if Key(next) !in Keys(Deduped(rest)) {
        DistinctAppend(Deduped(rest), next);
      }
    }
  }

  /** What stays for a url is the first result with it. */
  lemma {:induction false} FirstOfKeyStays(results: seq<Source>, i: nat)
    requires i < |results| && Key(results[i]) != "" && Key(results[i]) !in Keys(results[..i])
    ensures results[i] in Deduped(results)
  {
    var rest := results[..|results| - 1];
    if i < |rest| {
      assert rest[..i] == results[..i] && rest[i] == results[i];
      FirstOfKeyStays(rest, i);
    } else {
      DedupedKeys(rest);
    }
  }

  /**
   * For deduplicated results, however the secondary sources are ranked: the fill has exactly as
   * many sources as fit, all of them results, no url twice; it keeps the first primary authorities
   * found and the best ranked others; and it keeps exactly PrimariesKept authorities.
   */
  lemma FillKeepsReserve(results: seq<Source>, ranked: seq<Source>, isHighStakes: bool, maxSources: nat)
    requires DistinctBy(results, Key) && multiset(ranked) == multiset(Kind(results, false))
    ensures
      var fill := Fill(Kind(results, true), ranked, isHighStakes, maxSources);
      && |fill| == Least(maxSources, |results|)
      && multiset(fill) <= multiset(results)
      && DistinctBy(fill, Key)
      && Keeps(fill, Kind(results, true), ranked, PrimariesKept(|Kind(results, true)|, |ranked|, isHighStakes, maxSources))
  {
    var primary := Kind(results, true);
    var fill := Fill(primary, ranked, isHighStakes, maxSources);
    Partition(results);
    RankedAreSecondary(results, ranked);
    SameSize(results, primary, ranked);
    FillSize(primary, ranked, isHighStakes, maxSources);
    FillKeeps(primary, ranked, isHighStakes, maxSources);
    KeptAreResults(fill, primary, ranked, PrimariesKept(|primary|, |ranked|, isHighStakes, maxSources));
    PartIsDistinct(results, fill, Key);
  }

  /** A high-stakes fill keeps at least as many authorities as there are, as the reserve holds and as fit. */
  lemma ReserveIsKept(primary: nat, secondary: nat, maxSources: nat)
    ensures PrimariesKept(primary, secondary, true, maxSources)
         >= Least(primary, Least(PrimaryReserve(true, maxSources), maxSources))
    ensures 5 <= maxSources <= 40 ==> Least(PrimaryReserve(true, maxSources), maxSources) >= 5
  {
  }

  lemma RankedAreSecondary(results: seq<Source>, ranked: seq<Source>)
    requires multiset(ranked) == multiset(Kind(results, false))
    ensures forall x :: x in ranked ==> !x.primary
  {
    Partition(results);
    forall x | x in ranked
      ensures !x.primary
    {
      assert x in multiset(ranked);
      assert x in Kind(results, false);
    }
  }

  lemma PrefixIsPart(s: seq<Source>, n: nat)
    requires n <= |s|
    ensures multiset(s[..n]) <= multiset(s)
  {
    assert s == s[..n] + s[n..];
  }

  lemma KeptAreResults(fill: seq<Source>, primary: seq<Source>, secondary: seq<Source>, kept: nat)
    requires Keeps(fill, primary, secondary, kept)
    ensures multiset(fill) <= multiset(primary) + multiset(secondary)
  {
    Partition(fill);
    PrefixIsPart(primary, kept);
    PrefixIsPart(secondary, |fill| - kept);
  }

  lemma SameSize(results: seq<Source>, primary: seq<Source>, ranked: seq<Source>)
    requires multiset(results) == multiset(primary) + multiset(ranked)
    ensures |results| == |primary| + |ranked|
  {
    assert |multiset(results)| == |results|;
  }
}
