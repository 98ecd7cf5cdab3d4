/**
 * Sequence notions the app leans on: a JavaScript `Set` filled by `add` in
 * order keeps the first occurrence of every value (`Dedup`), and
 * `Array.prototype.filter` keeps a subsequence in the original order.
 */
module Sequences {

  predicate NoDuplicates<T(==)>(s: seq<T>) {
    forall i, j :: 0 <= i < j < |s| ==> s[i] != s[j]
  }

  /** Position of the first occurrence of `x` in `s`. */
  function FirstIndex<T(==)>(s: seq<T>, x: T): (k: nat)
    requires x in s
    ensures k < |s| && s[k] == x && x !in s[..k]
  {
    if s[0] == x then 0 else
      assert x in s[1..];
      var k := 1 + FirstIndex(s[1..], x);
      assert s[..k] == [s[0]] + s[1..][..k - 1];
      k
  }

  lemma {:induction false} FirstIndexInPrefix<T>(p: seq<T>, q: seq<T>, x: T)
    requires x in p
    ensures FirstIndex(p + q, x) == FirstIndex(p, x)
  {
    if p[0] != x {
      assert (p + q)[1..] == p[1..] + q;
      FirstIndexInPrefix(p[1..], q, x);
    }
  }

  /**
   * The values of `s` in order of first occurrence: what `Array.from(set)`
   * gives after `set.add(v)` was called for every `v` of `s` in turn.
   */
  function Dedup<T(==)>(s: seq<T>): (d: seq<T>)
    ensures NoDuplicates(d)
    ensures forall i :: 0 <= i < |d| ==> d[i] in s
    ensures forall i :: 0 <= i < |s| ==> s[i] in d
    ensures |d| <= |s|
  {
    if s == [] then []
    else
      var d := Dedup(s[..|s| - 1]);
      assert s == s[..|s| - 1] + [s[|s| - 1]];
      if s[|s| - 1] in d then d else d + [s[|s| - 1]]
  }

  lemma {:induction false} DedupMembership<T>(s: seq<T>)
    ensures forall x :: x in Dedup(s) <==> x in s
  {
    var d := Dedup(s);
    forall x | x in s ensures x in d {
      var i :| 0 <= i < |s| && s[i] == x;
    }
  }

  /** Dedup lists the values in the order in which they first occur in the input. */
  lemma {:induction false} DedupFirstOccurrenceOrder<T>(s: seq<T>)
    ensures FirstOccurrenceOrder(s, Dedup(s))
  {
    if s != [] {
      var p, x := s[..|s| - 1], s[|s| - 1];
      assert s == p + [x];
      DedupFirstOccurrenceOrder(p);
      DedupStep(p, x);
      var dp := Dedup(p);
      if x in dp {
        OrderAfterOld(p, x, dp);
      } else {
        OrderAfterNew(p, x, dp);
      }
    }
  }

  /** The values of `d` occur in `s`, and their first occurrences come in the order of `d`. */
  ghost predicate FirstOccurrenceOrder<T>(s: seq<T>, d: seq<T>) {
    (forall i :: 0 <= i < |d| ==> d[i] in s) &&
    forall i, j :: 0 <= i < j < |d| ==> FirstIndex(s, d[i]) < FirstIndex(s, d[j])
  }

  /** A value added at the end leaves the first occurrences of earlier values where they were. */
  lemma {:induction false} OrderAfterOld<T>(p: seq<T>, x: T, d: seq<T>)
    requires FirstOccurrenceOrder(p, d)
    ensures FirstOccurrenceOrder(p + [x], d)
  {
    forall i | 0 <= i < |d| ensures FirstIndex(p + [x], d[i]) == FirstIndex(p, d[i]) {
      FirstIndexInPrefix(p, [x], d[i]);
    }
  }

  /** A new value added at the end first occurs after every earlier one. */
  lemma {:induction false} OrderAfterNew<T>(p: seq<T>, x: T, d: seq<T>)
    requires FirstOccurrenceOrder(p, d) && x !in p
    ensures FirstOccurrenceOrder(p + [x], d + [x])
  {
    var s, e := p + [x], d + [x];
    OrderAfterOld(p, x, d);
    assert FirstIndex(s, x) == |p|;
    forall i | 0 <= i < |d| ensures FirstIndex(s, d[i]) < |p| {
      FirstIndexInPrefix(p, [x], d[i]);
    }
    forall i, j | 0 <= i < j < |e| ensures FirstIndex(s, e[i]) < FirstIndex(s, e[j]) {
      assert e[i] == d[i];
      if j < |d| {
        assert e[j] == d[j];
      }
    }
  }

  lemma {:induction false} NoDuplicatesCount<T>(s: seq<T>, x: T)
    requires NoDuplicates(s)
    ensures multiset(s)[x] <= 1
  {
    if s != [] {
      assert s == [s[0]] + s[1..];
      NoDuplicatesCount(s[1..], x);
      if s[0] == x {
        assert x !in s[1..];
      }
    }
  }

  lemma {:induction false} RepeatCount<T>(s: seq<T>, i: nat, j: nat)
    requires i < j < |s| && s[i] == s[j]
    ensures multiset(s)[s[i]] >= 2
  {
    assert s == s[..i] + [s[i]] + s[i + 1..j] + [s[j]] + s[j + 1..];
  }

  /** Rearranging a duplicate-free sequence cannot create a duplicate. */
  lemma {:induction false} PermutationKeepsNoDuplicates<T>(a: seq<T>, b: seq<T>)
    requires multiset(a) == multiset(b) && NoDuplicates(b)
    ensures NoDuplicates(a)
  {
    forall i, j | 0 <= i < j < |a| ensures a[i] != a[j] {
      if a[i] == a[j] {
        RepeatCount(a, i, j);
        NoDuplicatesCount(b, a[i]);
      }
    }
  }

  /** A rearrangement has the same members. */
  lemma {:induction false} PermutationKeepsMembers<T>(a: seq<T>, b: seq<T>)
    requires multiset(a) == multiset(b)
    ensures forall x :: x in a <==> x in b
  {
    forall x ensures x in a <==> x in b {
      assert x in a <==> x in multiset(a);
      assert x in b <==> x in multiset(b);
    }
  }

  /**
   * `items.forEach(x => set.add(x))`, for a set kept as the list of its values
   * in insertion order: if the set so far holds the values of `before`, it
   * afterwards holds those of `before + items`.
   */
  method AddAll<T(==)>(values: seq<T>, items: seq<T>, ghost before: seq<T>) returns (after: seq<T>)
    requires values == Dedup(before)
    ensures after == Dedup(before + items)
  {
    after := values;
    var j := 0;
    assert before + items[..0] == before;
    while j < |items|
      invariant 0 <= j <= |items|
      invariant after == Dedup(before + items[..j])
    {
      AddOneStep(before, items, j);
      if items[j] !in after {
        after := after + [items[j]];
      }
      j := j + 1;
    }
    assert before + items[..j] == before + items;
  }

  /** Adding one value to the end of the input appends it to the deduplicated list unless it is already there. */
  lemma {:induction false} DedupStep<T>(p: seq<T>, x: T)
    ensures Dedup(p + [x]) == if x in Dedup(p) then Dedup(p) else Dedup(p) + [x]
  {
    var s := p + [x];
    assert s[..|s| - 1] == p && s[|s| - 1] == x;
  }

  lemma {:induction false} AddOneStep<T>(before: seq<T>, items: seq<T>, j: nat)
    requires j < |items|
    ensures var d := Dedup(before + items[..j]);
      Dedup(before + items[..j + 1]) == if items[j] in d then d else d + [items[j]]
  {
    var seen := before + items[..j];
    assert before + items[..j + 1] == seen + [items[j]];
    DedupStep(seen, items[j]);
  }

  /** `a` is `b` with some elements removed and the rest in their original order. */
  predicate IsSubsequence<T(==)>(a: seq<T>, b: seq<T>)
    decreases |b|
  {
    a == [] || (b != [] && ((a[0] == b[0] && IsSubsequence(a[1..], b[1..])) || IsSubsequence(a, b[1..])))
  }

  /** `s.filter(keep)`. */
  function Filter<T>(keep: T -> bool, s: seq<T>): (r: seq<T>)
    ensures |r| <= |s|
  {
    if s == [] then [] else (if keep(s[0]) then [s[0]] else []) + Filter(keep, s[1..])
  }

  /** What survives a filter is a subsequence of the input, in the input's order. */
  lemma {:induction false} FilterIsSubsequence<T>(keep: T -> bool, s: seq<T>)
    ensures IsSubsequence(Filter(keep, s), s)
  {
    if s != [] {
      FilterIsSubsequence(keep, s[1..]);
      var rest := Filter(keep, s[1..]);
      if keep(s[0]) {
        assert Filter(keep, s) == [s[0]] + rest;
        assert ([s[0]] + rest)[1..] == rest;
      } else {
        assert Filter(keep, s) == rest;
      }
    }
  }

  /** An element survives exactly when it is in the input and passes the test. */
  lemma {:induction false} FilterMembership<T>(keep: T -> bool, s: seq<T>)
    ensures forall x :: x in Filter(keep, s) <==> x in s && keep(x)
  {
    if s != [] {
      FilterMembership(keep, s[1..]);
      assert s == [s[0]] + s[1..];
    }
  }

  /** Each value that passes is kept as many times as it occurs; any other, never. */
  lemma {:induction false} FilterMultiset<T>(keep: T -> bool, s: seq<T>)
    ensures forall x :: multiset(Filter(keep, s))[x] == (if keep(x) then multiset(s)[x] else 0)
  {
    if s != [] {
      FilterMultiset(keep, s[1..]);
      assert s == [s[0]] + s[1..];
      var head := if keep(s[0]) then [s[0]] else [];
      assert multiset(Filter(keep, s)) == multiset(head) + multiset(Filter(keep, s[1..]));
    }
  }

  /** Filtering twice with the same test changes nothing the second time. */
  lemma {:induction false} FilterIdempotent<T>(keep: T -> bool, s: seq<T>)
    ensures Filter(keep, Filter(keep, s)) == Filter(keep, s)
  {
    if s != [] {
      FilterIdempotent(keep, s[1..]);
      var rest := Filter(keep, s[1..]);
      if keep(s[0]) {
        assert Filter(keep, s) == [s[0]] + rest;
        assert ([s[0]] + rest)[1..] == rest;
      } else {
        assert Filter(keep, s) == rest;
      }
    }
  }

  /** A filter that every element passes keeps the whole input. */
  lemma {:induction false} FilterAll<T>(keep: T -> bool, s: seq<T>)
    requires forall i :: 0 <= i < |s| ==> keep(s[i])
    ensures Filter(keep, s) == s
  {
    if s != [] {
      FilterAll(keep, s[1..]);
      assert s == [s[0]] + s[1..];
    }
  }

  /** Filtering distributes over concatenation. */
  lemma {:induction false} FilterAppend<T>(keep: T -> bool, a: seq<T>, b: seq<T>)
    ensures Filter(keep, a + b) == Filter(keep, a) + Filter(keep, b)
  {
    if a != [] {
      assert (a + b)[0] == a[0] && (a + b)[1..] == a[1..] + b;
      FilterAppend(keep, a[1..], b);
    } else {
      assert a + b == b;
    }
  }

  /** A filter that no element passes keeps nothing. */
  lemma {:induction false} FilterNone<T>(keep: T -> bool, s: seq<T>)
    requires forall i :: 0 <= i < |s| ==> !keep(s[i])
    ensures Filter(keep, s) == []
  {
    if s != [] {
      FilterNone(keep, s[1..]);
    }
  }

  /** A filter that every element but the one at `k` passes drops exactly that one. */
  lemma {:induction false} FilterDropsOne<T>(keep: T -> bool, s: seq<T>, k: nat)
    requires k < |s| && !keep(s[k])
    requires forall i :: 0 <= i < |s| && i != k ==> keep(s[i])
    ensures Filter(keep, s) == s[..k] + s[k + 1..]
  {
    var front, back := s[..k], s[k + 1..];
    FilterKeepsSlice(keep, s, 0, k);
    FilterKeepsSlice(keep, s, k + 1, |s|);
    assert s[0..k] == front && s[k + 1..|s|] == back;
    FilterSplitAt(keep, s, k);
  }

  /** A slice whose every element passes is kept whole. */
  lemma {:induction false} FilterKeepsSlice<T>(keep: T -> bool, s: seq<T>, lo: nat, hi: nat)
    requires lo <= hi <= |s|
    requires forall i :: lo <= i < hi ==> keep(s[i])
    ensures Filter(keep, s[lo..hi]) == s[lo..hi]
  {
    var t := s[lo..hi];
    forall i | 0 <= i < |t| ensures keep(t[i]) {
      assert t[i] == s[lo + i];
    }
    FilterAll(keep, t);
  }

  /** A head that fails the test is dropped. */
  lemma {:induction false} FilterDropsHead<T>(keep: T -> bool, x: T, t: seq<T>)
    requires !keep(x)
    ensures Filter(keep, [x] + t) == Filter(keep, t)
  {
    var s := [x] + t;
    assert s[0] == x && s[1..] == t;
  }

  /** Filtering splits around the element at `k`, which is dropped. */
  lemma {:induction false} FilterSplitAt<T>(keep: T -> bool, s: seq<T>, k: nat)
    requires k < |s| && !keep(s[k])
    ensures Filter(keep, s) == Filter(keep, s[..k]) + Filter(keep, s[k + 1..])
  {
    var front, back := s[..k], s[k + 1..];
    var rest := [s[k]] + back;
    assert s == front + rest;
    FilterAppend(keep, front, rest);
    FilterDropsHead(keep, s[k], back);
  }

  /** Five concatenated pieces, grouped from the right, equal the same pieces grouped from the left. */
  lemma {:induction false} ConcatRegroup<T>(a: seq<T>, b: seq<T>, c: seq<T>, d: seq<T>, e: seq<T>)
    ensures a + (b + (c + (d + e))) == a + b + c + d + e
  {
  }

  /** A lower bound on `rank` that holds throughout the input holds throughout what a filter keeps. */
  lemma {:induction false} FilterKeepsRankBound<T>(keep: T -> bool, s: seq<T>, rank: T -> int, bound: int)
    requires forall i :: 0 <= i < |s| ==> bound < rank(s[i])
    ensures forall i :: 0 <= i < |Filter(keep, s)| ==> bound < rank(Filter(keep, s)[i])
  {
    if s != [] {
      FilterKeepsRankBound(keep, s[1..], rank, bound);
      if !keep(s[0]) {
        assert Filter(keep, s) == Filter(keep, s[1..]);
      }
    }
  }

  /** What survives a filter keeps the strictly increasing `rank` order of the input. */
  lemma {:induction false} FilterKeepsRankOrder<T>(keep: T -> bool, s: seq<T>, rank: T -> int)
    requires forall i, j :: 0 <= i < j < |s| ==> rank(s[i]) < rank(s[j])
    ensures forall i, j :: 0 <= i < j < |Filter(keep, s)| ==> rank(Filter(keep, s)[i]) < rank(Filter(keep, s)[j])
  {
    if s != [] {
      var rest := Filter(keep, s[1..]);
      FilterKeepsRankOrder(keep, s[1..], rank);
      if keep(s[0]) {
        FilterKeepsRankBound(keep, s[1..], rank, rank(s[0]));
        assert Filter(keep, s) == [s[0]] + rest;
      } else {
        assert Filter(keep, s) == rest;
      }
    }
  }
}
