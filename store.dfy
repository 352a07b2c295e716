/** Query semantics shared by every collection: filtering, "latest by recordedAt",
    newest-first ordering, paging and JavaScript `slice`. */
module Store {
  import opened Wrappers

  /** A geographic position as stored in every document. */
  datatype Coordinates = Coordinates(lat: real, lng: real)

  /** A collection of documents of one model, in insertion order; a document's id is its index. */
  class Collection<T> {
    var docs: seq<T>

    constructor ()
      ensures docs == []
    {
      docs := [];
    }

    /** `Model.create(doc)`: the new document is appended. */
    method Create(d: T) returns (id: nat)
      modifies this
      ensures docs == old(docs) + [d]
      ensures id == |old(docs)| && docs[id] == d
    {
      id := |docs|;
      docs := docs + [d];
    }
  }

  /** `array.filter(p)` (and a Mongo `find` over the store order). */
  function Filter<T>(s: seq<T>, p: T -> bool): (r: seq<T>)
    ensures |r| <= |s|
    ensures forall i :: 0 <= i < |r| ==> p(r[i])
    decreases |s|
  {
    if s == [] then [] else (if p(s[0]) then [s[0]] else []) + Filter(s[1..], p)
  }

  /** `a` is obtained from `b` by deleting elements, keeping the rest in order. */
  ghost predicate IsSubsequence<T>(a: seq<T>, b: seq<T>)
    decreases |b|
  {
    if a == [] then true
    else if b == [] then false
    else if a[0] == b[0] then IsSubsequence(a[1..], b[1..])
    else IsSubsequence(a, b[1..])
  }

  lemma {:induction false} FilterIsSubsequence<T>(s: seq<T>, p: T -> bool)
    ensures IsSubsequence(Filter(s, p), s)
    decreases |s|
  {
    if s != [] {
      FilterIsSubsequence(s[1..], p);
      if p(s[0]) {
        assert Filter(s, p) == [s[0]] + Filter(s[1..], p);
        assert Filter(s, p)[1..] == Filter(s[1..], p);
      } else {
        assert Filter(s, p) == Filter(s[1..], p);
        SubsequenceOfTail(Filter(s, p), s);
      }
    }
  }

  lemma {:induction false} SubsequenceOfTail<T>(a: seq<T>, b: seq<T>)
    requires b != [] && IsSubsequence(a, b[1..])
    ensures IsSubsequence(a, b)
    decreases |b|, 0
  {
    if a != [] && a[0] == b[0] {
      SubsequenceDropHead(a, b[1..]);
    }
  }

  lemma {:induction false} SubsequenceDropHead<T>(a: seq<T>, c: seq<T>)
    requires a != [] && IsSubsequence(a, c)
    ensures IsSubsequence(a[1..], c)
    decreases |c|, 1
  {
    if a[0] == c[0] {
      SubsequenceOfTail(a[1..], c);
    } else {
      SubsequenceDropHead(a, c[1..]);
      SubsequenceOfTail(a[1..], c);
    }
  }

  lemma {:induction false} SubsequenceOfSelf<T>(s: seq<T>)
    ensures IsSubsequence(s, s)
    decreases |s|
  {
    if s != [] {
      SubsequenceOfSelf(s[1..]);
    }
  }

  /** A subsequence of a subsequence is a subsequence (successive filters keep the order). */
  lemma {:induction false} SubsequenceTrans<T>(a: seq<T>, b: seq<T>, c: seq<T>)
    requires IsSubsequence(a, b) && IsSubsequence(b, c)
    ensures IsSubsequence(a, c)
    decreases |c|
  {
    if a != [] {
      if b[0] == c[0] {
        if a[0] == b[0] {
          SubsequenceTrans(a[1..], b[1..], c[1..]);
        } else {
          SubsequenceTrans(a, b[1..], c[1..]);
          SubsequenceOfTail(a, c);
        }
      } else {
        SubsequenceTrans(a, b, c[1..]);
        SubsequenceOfTail(a, c);
      }
    }
  }

  /** Every element of the input that satisfies `p` is kept. */
  lemma {:induction false} FilterKeeps<T>(s: seq<T>, p: T -> bool, x: T)
    requires x in s && p(x)
    ensures x in Filter(s, p)
    decreases |s|
  {
    if s[0] != x {
      FilterKeeps(s[1..], p, x);
    }
  }

  /** Every element of the result comes from the input. */
  lemma {:induction false} FilterFrom<T>(s: seq<T>, p: T -> bool, x: T)
    requires x in Filter(s, p)
    ensures x in s
    decreases |s|
  {
    if s != [] && !(p(s[0]) && x == s[0]) {
      FilterFrom(s[1..], p, x);
    }
  }

  lemma FilterMembership<T>(s: seq<T>, p: T -> bool)
    ensures forall x :: x in Filter(s, p) <==> x in s && p(x)
  {
    forall x | x in Filter(s, p) ensures x in s { FilterFrom(s, p, x); }
    forall x | x in s && p(x) ensures x in Filter(s, p) { FilterKeeps(s, p, x); }
  }

  /** Filtering keeps every copy: an element satisfying `p` occurs as often as in the input,
      any other element not at all. */
  lemma {:induction false} FilterMultiplicity<T>(s: seq<T>, p: T -> bool)
    ensures forall x :: multiset(Filter(s, p))[x] == if p(x) then multiset(s)[x] else 0
    decreases |s|
  {
    if s != [] {
      FilterMultiplicity(s[1..], p);
      assert s == [s[0]] + s[1..];
      assert Filter(s, p) == (if p(s[0]) then [s[0]] else []) + Filter(s[1..], p);
    }
  }

  /** A subsequence holds no element more often than the sequence it is taken from. */
  lemma {:induction false} SubsequenceMultiplicity<T>(a: seq<T>, b: seq<T>)
    requires IsSubsequence(a, b)
    ensures forall x :: multiset(a)[x] <= multiset(b)[x]
    decreases |b|
  {
    if a != [] {
      assert b == [b[0]] + b[1..];
      if a[0] == b[0] {
        SubsequenceMultiplicity(a[1..], b[1..]);
        assert a == [a[0]] + a[1..];
      } else {
        SubsequenceMultiplicity(a, b[1..]);
      }
    }
  }

  /** Order and multiplicity determine a filter: a subsequence of `s` holding each element
      satisfying `p` as often as `s` does, and nothing else, is `Filter(s, p)`. */
  lemma {:induction false} FilterDetermined<T>(r: seq<T>, s: seq<T>, p: T -> bool)
    requires IsSubsequence(r, s)
    requires forall x :: multiset(r)[x] == if p(x) then multiset(s)[x] else 0
    ensures r == Filter(s, p)
    decreases |s|
  {
    if s == [] {
      assert r == [];
    } else {
      var t := s[1..];
      assert s == [s[0]] + t;
      if r != [] && r[0] == s[0] {
        assert r == [r[0]] + r[1..];
        assert p(s[0]);
        FilterDetermined(r[1..], t, p);
      } else {
        assert IsSubsequence(r, t);
        SubsequenceMultiplicity(r, t);
        assert multiset(r)[s[0]] <= multiset(t)[s[0]] < multiset(s)[s[0]];
        assert !p(s[0]);
        FilterDetermined(r, t, p);
      }
    }
  }

  /** Filtering distributes over concatenation (an appended document is filtered on its own). */
  lemma {:induction false} FilterAppend<T>(a: seq<T>, b: seq<T>, p: T -> bool)
    ensures Filter(a + b, p) == Filter(a, p) + Filter(b, p)
    decreases |a|
  {
    if a != [] {
      assert (a + b)[1..] == a[1..] + b;
      FilterAppend(a[1..], b, p);
    } else {
      assert a + b == b;
    }
  }

  lemma {:induction false} FilterAllKept<T>(s: seq<T>, p: T -> bool)
    requires forall i :: 0 <= i < |s| ==> p(s[i])
    ensures Filter(s, p) == s
    decreases |s|
  {
    if s != [] {
      FilterAllKept(s[1..], p);
      assert [s[0]] + s[1..] == s;
    }
  }

  /** Filters by predicates that agree everywhere agree. */
  lemma {:induction false} FilterExt<T>(s: seq<T>, p: T -> bool, q: T -> bool)
    requires forall x :: p(x) == q(x)
    ensures Filter(s, p) == Filter(s, q)
    decreases |s|
  {
    if s != [] {
      FilterExt(s[1..], p, q);
    }
  }

  /** The number of elements satisfying `p`. */
  function Count<T>(s: seq<T>, p: T -> bool): nat
    decreases |s|
  {
    if s == [] then 0 else (if p(s[0]) then 1 else 0) + Count(s[1..], p)
  }

  lemma {:induction false} FilterLength<T>(s: seq<T>, p: T -> bool)
    ensures |Filter(s, p)| == Count(s, p)
    decreases |s|
  {
    if s != [] {
      FilterLength(s[1..], p);
    }
  }

  /** `findOne(filter).sort({ recordedAt: -1 })`: the index of a matching document with the
      greatest timestamp (the earliest stored one among equals), or None when nothing matches. */
  function LatestIndex<T>(docs: seq<T>, p: T -> bool, time: T -> int): (r: Option<nat>)
    ensures r.None? <==> forall i :: 0 <= i < |docs| ==> !p(docs[i])
    ensures r.Some? ==> r.value < |docs| && p(docs[r.value])
    ensures r.Some? ==> forall i :: 0 <= i < |docs| && p(docs[i]) ==> time(docs[i]) <= time(docs[r.value])
    decreases |docs|
  {
    if docs == [] then None
    else
      var rest := LatestIndex(docs[1..], p, time);
      assert forall i :: 1 <= i < |docs| ==> docs[i] == docs[1..][i - 1];
      if !p(docs[0]) then
        (if rest.None? then None else Some(rest.value + 1))
      else if rest.Some? && time(docs[rest.value + 1]) > time(docs[0]) then Some(rest.value + 1)
      else Some(0)
  }

  /** A handler's `findOne(filter).sort({ recordedAt: -1 })` followed by a 404 answer when
      nothing matches. */
  function LatestOr404<T>(docs: seq<T>, p: T -> bool, time: T -> int): (r: Result<T>)
    ensures r.Err? <==> forall i :: 0 <= i < |docs| ==> !p(docs[i])
    ensures r.Err? ==> r.status == 404
    ensures r.Ok? ==> r.value in docs && p(r.value)
    ensures r.Ok? ==> forall i :: 0 <= i < |docs| && p(docs[i]) ==> time(docs[i]) <= time(r.value)
  {
    var k := LatestIndex(docs, p, time);
    if k.None? then Err(404) else Ok(docs[k.value])
  }

  /** `findOne(filter)` without a sort, and `array.find`: the index of the first document in
      stored order that satisfies `p`, or None when nothing does. */
  function FirstIndex<T>(s: seq<T>, p: T -> bool): (r: Option<nat>)
    ensures r.None? <==> forall i :: 0 <= i < |s| ==> !p(s[i])
    ensures r.Some? ==> r.value < |s| && p(s[r.value]) && forall i :: 0 <= i < r.value ==> !p(s[i])
    decreases |s|
  {
    if s == [] then None
    else if p(s[0]) then Some(0)
    else
      var rest := FirstIndex(s[1..], p);
      assert forall i :: 1 <= i < |s| ==> s[i] == s[1..][i - 1];
      if rest.None? then None else Some(rest.value + 1)
  }

  /** The predicate that admits every document. */
  predicate Anything<T>(x: T) {
    true
  }

  /** `find(filter).sort({ recordedAt: -1 })` result: the documents, newest first. */
  function NewestFirst<T>(docs: seq<T>, time: T -> int): (r: seq<T>)
    ensures |r| == |docs|
    decreases |docs|
  {
    if docs == [] then []
    else
      var i := LatestIndex(docs, Anything, time).value;
      [docs[i]] + NewestFirst(docs[..i] + docs[i + 1..], time)
  }

  predicate SortedNewestFirst<T>(s: seq<T>, time: T -> int) {
    forall i, j :: 0 <= i < j < |s| ==> time(s[i]) >= time(s[j])
  }

  /** NewestFirst is a permutation of its input. */
  lemma {:induction false} NewestFirstPermutes<T>(docs: seq<T>, time: T -> int)
    ensures multiset(NewestFirst(docs, time)) == multiset(docs)
    decreases |docs|
  {
    if docs != [] {
      var i := LatestIndex(docs, Anything, time).value;
      var rest := docs[..i] + docs[i + 1..];
      NewestFirstPermutes(rest, time);
      RemoveAtMultiset(docs, i);
      assert NewestFirst(docs, time) == [docs[i]] + NewestFirst(rest, time);
    }
  }

  /** Taking out the element at `i` takes exactly that element out of the multiset. */
  lemma RemoveAtMultiset<T>(s: seq<T>, i: nat)
    requires i < |s|
    ensures multiset(s[..i] + s[i + 1..]) + multiset{s[i]} == multiset(s)
  {
    assert s == s[..i] + [s[i]] + s[i + 1..];
  }

  /** NewestFirst orders by decreasing timestamp. */
  lemma {:induction false} NewestFirstSorted<T>(docs: seq<T>, time: T -> int)
    ensures SortedNewestFirst(NewestFirst(docs, time), time)
    decreases |docs|
  {
    if docs != [] {
      var i := LatestIndex(docs, Anything, time).value;
      var rest := docs[..i] + docs[i + 1..];
      var tail := NewestFirst(rest, time);
      NewestFirstSorted(rest, time);
      NewestFirstPermutes(rest, time);
      RemoveAtMultiset(docs, i);
      forall j | 0 <= j < |tail|
        ensures time(tail[j]) <= time(docs[i])
      {
        assert tail[j] in multiset(tail);
        LatestIsNewest(docs, time, tail[j]);
      }
      SortedCons(docs[i], tail, time);
    }
  }

  lemma SortedCons<T>(h: T, tail: seq<T>, time: T -> int)
    requires SortedNewestFirst(tail, time)
    requires forall j :: 0 <= j < |tail| ==> time(tail[j]) <= time(h)
    ensures SortedNewestFirst([h] + tail, time)
  {
    var r := [h] + tail;
    forall i, j | 0 <= i < j < |r|
      ensures time(r[i]) >= time(r[j])
    {
      if i > 0 {
        assert r[i] == tail[i - 1] && r[j] == tail[j - 1];
      } else {
        assert r[j] == tail[j - 1];
      }
    }
  }

  lemma LatestIsNewest<T>(docs: seq<T>, time: T -> int, x: T)
    requires docs != [] && x in multiset(docs)
    ensures time(x) <= time(docs[LatestIndex(docs, Anything, time).value])
  {
    var k :| 0 <= k < |docs| && docs[k] == x;
    assert Anything(docs[k]);
  }

  /** The first `n` elements (`limit(n)` with `n > 0`). */
  function Take<T>(s: seq<T>, n: nat): (r: seq<T>)
    ensures |r| == if n < |s| then n else |s|
    ensures |r| <= |s|
    ensures r == s[..|r|]
  {
    if n < |s| then s[..n] else s
  }

  function Min(a: int, b: int): int {
    if a <= b then a else b
  }

  /** `cursor.skip(skip).limit(limit)`: a limit of 0 means no limit, a negative limit
      returns at most its absolute value. */
  function Page<T>(s: seq<T>, skip: nat, limit: int): (r: seq<T>)
    ensures skip >= |s| ==> r == []
    ensures skip < |s| ==> |r| <= |s| - skip && r == s[skip..][..|r|]
    ensures limit != 0 ==> |r| <= if limit < 0 then -limit else limit
    ensures limit != 0 && skip < |s| ==> |r| == Min(|s| - skip, if limit < 0 then -limit else limit)
    ensures limit == 0 ==> |r| == if skip < |s| then |s| - skip else 0
  {
    var rest := if skip < |s| then s[skip..] else [];
    if limit == 0 then rest else Take(rest, if limit < 0 then -limit else limit)
  }

  /** `array.slice(0, n)`: a negative end counts back from the end of the array. */
  function SliceTo<T>(s: seq<T>, n: int): (r: seq<T>)
    ensures |r| <= |s| && r == s[..|r|]
    ensures 0 <= n ==> |r| == if n < |s| then n else |s|
    ensures n < 0 ==> |r| == if |s| + n < 0 then 0 else |s| + n
  {
    if 0 <= n then Take(s, n) else if |s| + n < 0 then [] else s[..|s| + n]
  }

  function Reverse<T>(s: seq<T>): (r: seq<T>)
    ensures |r| == |s|
    ensures forall i :: 0 <= i < |s| ==> r[i] == s[|s| - 1 - i]
    decreases |s|
  {
    if s == [] then [] else Reverse(s[1..]) + [s[0]]
  }
}
