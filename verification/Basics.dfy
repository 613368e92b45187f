/** Options, outcomes, text and counting facts shared by the other modules. */
module Wrappers {
  datatype Option<+T> = None | Some(value: T)

  /** A call that returns a value or throws. */
  datatype Result<+T, +E> = Ok(value: T) | Err(error: E)
}

/**
 * Text as the program sees it. JavaScript treats null, undefined and the empty string
 * alike in `!x` and `x || y`; identifiers and revisions below use "" for all three.
 */
module Texts {
  /** The characters String.prototype.trim removes. */
  predicate IsSpace(c: char) {
    || '\t' <= c <= '\r'
    || c == ' '
    || c == '\U{00A0}'
    || c == '\U{1680}'
    || '\U{2000}' <= c <= '\U{200A}'
    || c == '\U{2028}'
    || c == '\U{2029}'
    || c == '\U{202F}'
    || c == '\U{205F}'
    || c == '\U{3000}'
    || c == '\U{FEFF}'
  }

  function TrimLeft(s: string): (r: string)
    ensures r == "" || !IsSpace(r[0])
    ensures s != "" && !IsSpace(s[|s| - 1]) ==> r != "" && r[|r| - 1] == s[|s| - 1]
  {
    if s != "" && IsSpace(s[0]) then TrimLeft(s[1..]) else s
  }

  function TrimRight(s: string): (r: string)
    ensures r == "" || !IsSpace(r[|r| - 1])
    ensures r <= s
  {
    if s != "" && IsSpace(s[|s| - 1]) then TrimRight(s[..|s| - 1]) else s
  }

  function Trim(s: string): (r: string)
    ensures r != "" ==> !IsSpace(r[0]) && !IsSpace(r[|r| - 1])
  {
    TrimLeft(TrimRight(s))
  }

  predicate OnlySpace(s: string) {
    forall i :: 0 <= i < |s| ==> IsSpace(s[i])
  }

  /** Trimming takes away the space at both ends and nothing else. */
  lemma TrimIsMiddle(s: string) returns (i: nat, j: nat)
    ensures i <= j <= |s| && Trim(s) == s[i..j] && OnlySpace(s[..i]) && OnlySpace(s[j..])
  {
    j := TrimRightIsPrefix(s);
    i := TrimLeftIsSuffix(s[..j]);
    assert s[..j][..i] == s[..i] && s[..j][i..] == s[i..j];
  }

  lemma {:induction false} TrimLeftIsSuffix(s: string) returns (i: nat)
    ensures i <= |s| && TrimLeft(s) == s[i..] && OnlySpace(s[..i])
  {
    i := 0;
    if s != "" && IsSpace(s[0]) {
      i := TrimLeftIsSuffix(s[1..]);
      assert s[..i + 1] == [s[0]] + s[1..][..i];
      i := i + 1;
    }
  }

  lemma {:induction false} TrimRightIsPrefix(s: string) returns (j: nat)
    ensures j <= |s| && TrimRight(s) == s[..j] && OnlySpace(s[j..])
  {
    j := |s|;
    if s != "" && IsSpace(s[|s| - 1]) {
      j := TrimRightIsPrefix(s[..|s| - 1]);
      assert s[j..] == s[..|s| - 1][j..] + [s[|s| - 1]];
    }
  }

  lemma TrimIsEmpty(s: string)
    ensures Trim(s) == "" <==> OnlySpace(s)
  {
    var i, j := TrimIsMiddle(s);
    if Trim(s) == "" {
      assert s == s[..i] + s[j..];
    } else {
      assert s[i..j][0] == s[i];
    }
  }

  lemma TrimKeepsTrimmed(s: string)
    ensures Trim(Trim(s)) == Trim(s)
  {
  }

  function LowerChar(c: char): char {
    if 'A' <= c <= 'Z' then c - 'A' + 'a' else c
  }

  function Lower(s: string): (r: string)
    ensures |r| == |s|
  {
    seq(|s|, i requires 0 <= i < |s| => LowerChar(s[i]))
  }

  /** String.prototype.includes. */
  predicate Includes(text: string, part: string) {
    part <= text || (text != "" && Includes(text[1..], part))
  }

  predicate PartAt(text: string, part: string, i: nat) {
    i + |part| <= |text| && text[i..i + |part|] == part
  }

  lemma {:induction false} IncludesIsSomewhere(text: string, part: string)
    ensures Includes(text, part) <==> exists i: nat :: PartAt(text, part, i)
  {
    assert part <= text <==> PartAt(text, part, 0);
    if text != "" {
      IncludesIsSomewhere(text[1..], part);
      forall i: nat
        ensures PartAt(text, part, i + 1) <==> PartAt(text[1..], part, i)
      {
      }
      if i: nat :| PartAt(text, part, i) && i > 0 {
        assert PartAt(text[1..], part, i - 1);
      }
    }
  }

  /** The order of `<` on strings; ISO-8601 timestamps sort this way. */
  predicate Less(a: string, b: string) {
    b != "" && (a == "" || a[0] < b[0] || (a[0] == b[0] && Less(a[1..], b[1..])))
  }

  /** Up to `k` the texts agree; there `a` ends or has the smaller character. */
  predicate SmallerAt(a: string, b: string, k: nat) {
    && k <= |a| && k < |b| && a[..k] == b[..k]
    && (k == |a| || a[k] < b[k])
  }

  lemma SmallerLater(a: string, b: string, k: nat)
    ensures SmallerAt(a, b, k + 1) <==> a != "" && b != "" && a[0] == b[0] && SmallerAt(a[1..], b[1..], k)
  {
    if k + 1 <= |a| && k + 1 <= |b| {
      assert a[..k + 1] == [a[0]] + a[1..][..k] && b[..k + 1] == [b[0]] + b[1..][..k];
    }
  }

  lemma {:induction false} LessIsSmallerSomewhere(a: string, b: string)
    ensures Less(a, b) <==> exists k: nat :: SmallerAt(a, b, k)
  {
    assert SmallerAt(a, b, 0) <==> b != "" && (a == "" || a[0] < b[0]);
    if a != "" && b != "" {
      LessIsSmallerSomewhere(a[1..], b[1..]);
      if k: nat :| SmallerAt(a[1..], b[1..], k) {
        SmallerLater(a, b, k);
      }
    }
    if k: nat :| SmallerAt(a, b, k) && k > 0 {
      SmallerLater(a, b, k - 1);
    }
  }

  lemma {:induction false} LessIrreflexive(a: string)
    ensures !Less(a, a)
  {
    if a != "" {
      LessIrreflexive(a[1..]);
    }
  }

  lemma {:induction false} LessTotal(a: string, b: string)
    ensures a == b || Less(a, b) || Less(b, a)
  {
    if a != "" && b != "" && a[0] == b[0] {
      LessTotal(a[1..], b[1..]);
      assert a == [a[0]] + a[1..] && b == [b[0]] + b[1..];
    }
  }

  lemma {:induction false} LessTransitive(a: string, b: string, c: string)
    requires Less(a, b) && Less(b, c)
    ensures Less(a, c)
  {
    if a != "" && a[0] == b[0] == c[0] {
      LessTransitive(a[1..], b[1..], c[1..]);
    }
  }
}

/** Sums and counts over sequences. */
module Sums {
  function SumBy<T>(s: seq<T>, f: T -> real): real {
    if s == [] then 0.0 else f(s[0]) + SumBy(s[1..], f)
  }

  lemma {:induction false} SumByConcat<T>(a: seq<T>, b: seq<T>, f: T -> real)
    ensures SumBy(a + b, f) == SumBy(a, f) + SumBy(b, f)
  {
    if a == [] {
      assert a + b == b;
    } else {
      assert (a + b)[1..] == a[1..] + b;
      SumByConcat(a[1..], b, f);
    }
  }

  lemma SumByAppend<T>(s: seq<T>, x: T, f: T -> real)
    ensures SumBy(s + [x], f) == SumBy(s, f) + f(x)
  {
    SumByConcat(s, [x], f);
    assert SumBy([x], f) == f(x) + SumBy([x][1..], f);
  }

  /** Taking one entry out of a sequence takes its share out of the sum. */
  lemma SumByRemove<T>(s: seq<T>, i: nat, f: T -> real)
    requires i < |s|
    ensures SumBy(s, f) == f(s[i]) + SumBy(s[..i] + s[i + 1..], f)
  {
    assert s == s[..i] + s[i..];
    SumByConcat(s[..i], s[i..], f);
    SumByConcat(s[..i], s[i + 1..], f);
    assert s[i..][1..] == s[i + 1..];
  }

  lemma RemoveFromMultiset<T>(s: seq<T>, i: nat)
    requires i < |s|
    ensures multiset(s[..i] + s[i + 1..]) == multiset(s) - multiset{s[i]}
  {
    assert s == s[..i] + [s[i]] + s[i + 1..];
  }

  lemma RemoveFirst<T>(s: seq<T>)
    requires s != []
    ensures multiset(s[1..]) == multiset(s) - multiset{s[0]}
  {
    assert s == [s[0]] + s[1..];
  }

  /** A sum does not depend on the order of its terms. */
  lemma {:induction false} SumByPermutation<T>(a: seq<T>, b: seq<T>, f: T -> real)
    requires multiset(a) == multiset(b)
    ensures SumBy(a, f) == SumBy(b, f)
  {
    if a == [] {
      assert |b| == |multiset(b)|;
    } else {
      assert a[0] in multiset(a);
      assert a[0] in b;
      var i: nat :| i < |b| && b[i] == a[0];
      RemoveFromMultiset(b, i);
      RemoveFirst(a);
      SumByRemove(b, i, f);
      SumByPermutation(a[1..], b[..i] + b[i + 1..], f);
    }
  }

  function Flatten<T>(lists: seq<seq<T>>): seq<T> {
    if lists == [] then [] else lists[0] + Flatten(lists[1..])
  }

  lemma {:induction false} FlattenConcat<T>(a: seq<seq<T>>, b: seq<seq<T>>)
    ensures Flatten(a + b) == Flatten(a) + Flatten(b)
  {
    if a == [] {
      assert a + b == b;
    } else {
      assert (a + b)[1..] == a[1..] + b;
      FlattenConcat(a[1..], b);
    }
  }

  lemma FlattenAppend<T>(lists: seq<seq<T>>, list: seq<T>)
    ensures Flatten(lists + [list]) == Flatten(lists) + list
  {
    FlattenConcat(lists, [list]);
    assert Flatten([list]) == list + Flatten([list][1..]);
  }

  /** How many entries satisfy `p`. */
  function Count<T>(s: seq<T>, p: T -> bool): nat {
    if s == [] then 0 else (if p(s[0]) then 1 else 0) + Count(s[1..], p)
  }

  lemma {:induction false} CountConcat<T>(a: seq<T>, b: seq<T>, p: T -> bool)
    ensures Count(a + b, p) == Count(a, p) + Count(b, p)
  {
    if a == [] {
      assert a + b == b;
    } else {
      assert (a + b)[1..] == a[1..] + b;
      CountConcat(a[1..], b, p);
    }
  }

  lemma CountAppend<T>(s: seq<T>, x: T, p: T -> bool)
    ensures Count(s + [x], p) == Count(s, p) + (if p(x) then 1 else 0)
  {
    CountConcat(s, [x], p);
  }

  lemma {:induction false} CountAtMost<T>(s: seq<T>, p: T -> bool)
    ensures Count(s, p) <= |s|
  {
    if s != [] {
      CountAtMost(s[1..], p);
    }
  }

  lemma {:induction false} CountsEach<T>(s: seq<T>, i: nat, j: nat, p: T -> bool)
    requires i <= j < |s| && p(s[i]) && p(s[j])
    ensures Count(s, p) >= if i == j then 1 else 2
  {
    if i > 0 {
      CountsEach(s[1..], i - 1, j - 1, p);
    } else if j > 0 {
      CountsEach(s[1..], j - 1, j - 1, p);
    }
  }
}

/** Sequences in which no key occurs twice. */
module Distinctness {
  ghost predicate DistinctBy<T>(s: seq<T>, key: T -> string) {
    forall i, j :: 0 <= i < j < |s| ==> key(s[i]) != key(s[j])
  }

  lemma TwiceInMultiset<T>(s: seq<T>, i: nat, j: nat)
    requires i < j < |s| && s[i] == s[j]
    ensures multiset(s)[s[i]] >= 2
  {
    assert s == s[..i] + [s[i]] + s[i + 1..j] + [s[j]] + s[j + 1..];
  }

  lemma {:induction false} OnceInMultiset<T>(s: seq<T>, x: T, key: T -> string)
    requires DistinctBy(s, key)
    ensures multiset(s)[x] <= 1
  {
    if s != [] {
      assert s == [s[0]] + s[1..];
      OnceInMultiset(s[1..], x, key);
      if s[0] == x {
        assert x !in s[1..];
        assert multiset(s[1..])[x] == 0;
      }
    }
  }

  /** Entries with different keys still have after sorting and cutting. */
  lemma PartIsDistinct<T>(all: seq<T>, part: seq<T>, key: T -> string)
    requires DistinctBy(all, key) && multiset(part) <= multiset(all)
    ensures DistinctBy(part, key)
  {
    forall i, j | 0 <= i < j < |part|
      ensures key(part[i]) != key(part[j])
    {
      assert part[i] in multiset(part) && part[j] in multiset(part);
      assert part[i] in all && part[j] in all;
      if part[i] == part[j] {
        TwiceInMultiset(part, i, j);
        OnceInMultiset(all, part[i], key);
      }
    }
  }
}

/** The built-in stable sort, in descending order of a key. */
module Sorting {
  ghost predicate Descending<T>(s: seq<T>, key: T -> real) {
    forall i, j :: 0 <= i < j < |s| ==> key(s[i]) >= key(s[j])
  }

  /** Puts an entry after every entry whose key is at least its own. */
  function Insert<T>(sorted: seq<T>, x: T, key: T -> real): (r: seq<T>)
    ensures multiset(r) == multiset(sorted) + multiset{x}
  {
    if sorted == [] then [x]
    else if key(sorted[0]) >= key(x) then
      assert sorted == [sorted[0]] + sorted[1..];
      [sorted[0]] + Insert(sorted[1..], x, key)
    else [x] + sorted
  }

  lemma {:induction false} InsertKeepsOrder<T>(sorted: seq<T>, x: T, key: T -> real)
    requires Descending(sorted, key)
    ensures Descending(Insert(sorted, x, key), key)
  {
    if sorted != [] && key(sorted[0]) >= key(x) {
      var rest := Insert(sorted[1..], x, key);
      InsertKeepsOrder(sorted[1..], x, key);
      forall j | 0 <= j < |rest|
        ensures key(sorted[0]) >= key(rest[j])
      {
        assert rest[j] in multiset(rest);
        if rest[j] != x {
          assert rest[j] in sorted[1..];
        }
      }
    }
  }

  function SortDescending<T>(s: seq<T>, key: T -> real): (r: seq<T>)
    ensures multiset(r) == multiset(s)
  {
    if s == [] then []
    else
      assert s == s[..|s| - 1] + [s[|s| - 1]];
      Insert(SortDescending(s[..|s| - 1], key), s[|s| - 1], key)
  }

  lemma {:induction false} SortedIsDescending<T>(s: seq<T>, key: T -> real)
    ensures Descending(SortDescending(s, key), key)
  {
    if s != [] {
      SortedIsDescending(s[..|s| - 1], key);
      InsertKeepsOrder(SortDescending(s[..|s| - 1], key), s[|s| - 1], key);
    }
  }

  /** The first `limit` entries after sorting. */
  function Top<T>(s: seq<T>, key: T -> real, limit: nat): seq<T> {
    var sorted := SortDescending(s, key);
    if |sorted| <= limit then sorted else sorted[..limit]
  }

  lemma CutOffIsNoLarger<T>(sorted: seq<T>, cut: nat, x: T, t: T, key: T -> real)
    requires Descending(sorted, key) && cut <= |sorted|
    requires t in sorted[..cut] && x in sorted[cut..]
    ensures key(t) >= key(x)
  {
    var i :| 0 <= i < cut && sorted[i] == t;
    var j :| cut <= j < |sorted| && sorted[j] == x;
  }

  /**
   * The top entries are the largest, in order: entries of the input, as many as fit, descending,
   * and every entry of the input is among them or no larger than any of them.
   */
  lemma TopIsLargest<T>(s: seq<T>, key: T -> real, limit: nat)
    ensures
      var top := Top(s, key, limit);
      && |top| == (if |s| <= limit then |s| else limit)
      && multiset(top) <= multiset(s)
      && Descending(top, key)
      && forall x :: x in s ==> x in top || forall t :: t in top ==> key(t) >= key(x)
  {
    var sorted := SortDescending(s, key);
    var top := Top(s, key, limit);
    SortedIsDescending(s, key);
    assert |multiset(sorted)| == |sorted| && |multiset(s)| == |s|;
    assert top == sorted[..|top|] && sorted == top + sorted[|top|..];
    forall x, t | x in s && x !in top && t in top
      ensures key(t) >= key(x)
    {
      assert x in multiset(sorted);
      CutOffIsNoLarger(sorted, |top|, x, t, key);
    }
  }
}
