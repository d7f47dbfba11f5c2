/**
 * Small value types and sequence combinators shared by the storefront model:
 * the JavaScript falsy-value default on optional request fields, filtering,
 * de-duplication through a `Set`, prefixes and sums.
 */
module Seqs {

  datatype Option<+T> = None | Some(value: T)

  datatype Result<+R, +E> = Success(value: R) | Failure(error: E)

  /** The value, or `d` when it is falsy: absent and "" are falsy. */
  function OrString(v: Option<string>, d: string): (r: string)
    ensures (v.None? || v.value == "") ==> r == d
    ensures (v.Some? && v.value != "") ==> r == v.value
  {
    if v.None? || v.value == "" then d else v.value
  }

  /** The value, or `d` when it is falsy: absent and 0 are falsy. */
  function OrInt(v: Option<int>, d: int): (r: int)
    ensures (v.None? || v.value == 0) ==> r == d
    ensures (v.Some? && v.value != 0) ==> r == v.value
  {
    if v.None? || v.value == 0 then d else v.value
  }

  /** `r` can be obtained from `s` by deleting elements: order is preserved. */
  ghost predicate IsSubsequence<T>(r: seq<T>, s: seq<T>)
    decreases |s|
  {
    if r == [] then true
    else if s == [] then false
    else (r[0] == s[0] && IsSubsequence(r[1..], s[1..])) || IsSubsequence(r, s[1..])
  }

  /** Every sequence is a subsequence of itself. */
  lemma {:induction false} SubsequenceIsReflexive<T>(s: seq<T>)
    ensures IsSubsequence(s, s)
  {
    if s != [] {
      SubsequenceIsReflexive(s[1..]);
    }
  }

  /** Deleting elements twice is deleting elements once. */
  lemma {:induction false} SubsequenceTransitive<T>(a: seq<T>, b: seq<T>, c: seq<T>)
    requires IsSubsequence(a, b) && IsSubsequence(b, c)
    ensures IsSubsequence(a, c)
    decreases |c|
  {
    if a != [] && b != [] && c != [] {
      if IsSubsequence(b, c[1..]) {
        SubsequenceTransitive(a, b, c[1..]);
      } else if a[0] == b[0] && IsSubsequence(a[1..], b[1..]) {
        SubsequenceTransitive(a[1..], b[1..], c[1..]);
      } else {
        SubsequenceTransitive(a, b[1..], c[1..]);
      }
    }
  }

  ghost predicate NoDuplicates<T>(s: seq<T>)
  {
    forall i, j :: 0 <= i < j < |s| ==> s[i] != s[j]
  }

  /** Appending a value not yet present keeps a sequence duplicate-free. */
  lemma NoDuplicatesAppend<T>(s: seq<T>, x: T)
    requires NoDuplicates(s) && x !in s
    ensures NoDuplicates(s + [x])
  {
    var r := s + [x];
    forall i, j | 0 <= i < j < |r| ensures r[i] != r[j] {
      assert r[i] == s[i];
      if j < |s| {
        assert r[j] == s[j];
      }
    }
  }

  /** `Array.prototype.filter`. */
  function Filter<T(!new)>(s: seq<T>, keep: T -> bool): (r: seq<T>)
    ensures |r| <= |s|
    ensures forall x :: x in r <==> x in s && keep(x)
    ensures IsSubsequence(r, s)
  {
    if s == [] then []
    else
      var rest := Filter(s[1..], keep);
      if keep(s[0]) then
        assert ([s[0]] + rest)[1..] == rest;
        [s[0]] + rest
      else
        rest
  }

  /** A filter keeps each kept value exactly as often as it occurs, and no other value. */
  lemma {:induction false} FilterCount<T(!new)>(s: seq<T>, keep: T -> bool)
    ensures forall x :: multiset(Filter(s, keep))[x] == if keep(x) then multiset(s)[x] else 0
  {
    if s != [] {
      FilterCount(s[1..], keep);
      assert s == [s[0]] + s[1..];
      assert multiset(s) == multiset{s[0]} + multiset(s[1..]);
      if keep(s[0]) {
        assert multiset(Filter(s, keep)) == multiset{s[0]} + multiset(Filter(s[1..], keep));
      }
    }
  }

  /** A filter that keeps every element returns its input. */
  lemma {:induction false} FilterKeepsAll<T(!new)>(s: seq<T>, keep: T -> bool)
    requires forall x :: x in s ==> keep(x)
    ensures Filter(s, keep) == s
  {
    if s != [] {
      assert s[0] in s;
      forall x | x in s[1..] ensures keep(x) {
        assert x in s;
      }
      FilterKeepsAll(s[1..], keep);
      assert s == [s[0]] + s[1..];
    }
  }

  /** Filtering distributes over appending one element. */
  lemma {:induction false} FilterAppend<T(!new)>(s: seq<T>, x: T, keep: T -> bool)
    ensures Filter(s + [x], keep) == Filter(s, keep) + (if keep(x) then [x] else [])
  {
    if s == [] {
      assert [x][1..] == [];
    } else {
      assert (s + [x])[1..] == s[1..] + [x];
      FilterAppend(s[1..], x, keep);
    }
  }

  /** `indexOf`: the position of the first occurrence of `x`. */
  function FirstIndex<T(==)>(s: seq<T>, x: T): (k: nat)
    requires x in s
    ensures k < |s| && s[k] == x
    ensures x !in s[..k]
  {
    if s[0] == x then 0
    else
      var k := FirstIndex(s[1..], x);
      assert s[..k + 1] == [s[0]] + s[1..][..k];
      k + 1
  }

  /** An occurrence with none before it is the first occurrence. */
  lemma FirstIndexAt<T>(s: seq<T>, x: T, i: nat)
    requires i < |s| && s[i] == x && x !in s[..i]
    ensures FirstIndex(s, x) == i
  {
    var k := FirstIndex(s, x);
    forall j | 0 <= j < i ensures s[j] != x {
      assert s[..i][j] == s[j];
    }
    forall j | 0 <= j < k ensures s[j] != x {
      assert s[..k][j] == s[j];
    }
  }

  /** The elements of `s` not in `seen`, each once, in first-occurrence order. */
  function DistinctFrom<T(==,!new)>(s: seq<T>, seen: set<T>): (r: seq<T>)
    ensures |r| <= |s|
    ensures NoDuplicates(r)
    ensures forall x :: x in r <==> x in s && x !in seen
    ensures IsSubsequence(r, s)
  {
    if s == [] then []
    else if s[0] in seen then DistinctFrom(s[1..], seen)
    else
      var rest := DistinctFrom(s[1..], seen + {s[0]});
      assert ([s[0]] + rest)[1..] == rest;
      [s[0]] + rest
  }

  /** Each value of `s` once, in the insertion order a JavaScript `Set` iterates in. */
  function Distinct<T(==,!new)>(s: seq<T>): (r: seq<T>)
    ensures |r| <= |s|
    ensures NoDuplicates(r)
    ensures forall x :: x in r <==> x in s
    ensures IsSubsequence(r, s)
  {
    DistinctFrom(s, {})
  }

  /** Every element of `r` occurs in `s`, and earlier in `r` means first seen earlier in `s`. */
  ghost predicate InFirstOccurrenceOrder<T>(r: seq<T>, s: seq<T>)
  {
    && (forall i :: 0 <= i < |r| ==> r[i] in s)
    && (forall i, j :: 0 <= i < j < |r| ==> FirstIndex(s, r[i]) < FirstIndex(s, r[j]))
  }

  /** `DistinctFrom` keeps the order in which values first appear. */
  lemma {:induction false} DistinctFromFirstOccurrence<T(!new)>(s: seq<T>, seen: set<T>)
    ensures InFirstOccurrenceOrder(DistinctFrom(s, seen), s)
  {
    var r := DistinctFrom(s, seen);
    if s != [] {
      var seen' := if s[0] in seen then seen else seen + {s[0]};
      var rest := DistinctFrom(s[1..], seen');
      DistinctFromFirstOccurrence(s[1..], seen');
      forall i | 0 <= i < |rest| ensures FirstIndex(s, rest[i]) == 1 + FirstIndex(s[1..], rest[i]) {
        assert rest[i] in rest;
        assert rest[i] != s[0];
      }
      forall i | 0 <= i < |r| ensures r[i] in s {
        assert r[i] in r;
      }
      forall i, j | 0 <= i < j < |r| ensures FirstIndex(s, r[i]) < FirstIndex(s, r[j]) {
        if s[0] in seen {
          assert r == rest;
        } else {
          assert r == [s[0]] + rest;
          assert r[j] == rest[j - 1];
          if i > 0 {
            assert r[i] == rest[i - 1];
          } else {
            assert r[0] == s[0];
          }
        }
      }
    }
  }

  /** `Distinct` keeps the order in which values first appear. */
  lemma DistinctFirstOccurrence<T(!new)>(s: seq<T>)
    ensures InFirstOccurrenceOrder(Distinct(s), s)
  {
    DistinctFromFirstOccurrence(s, {});
  }

  /** A duplicate-free sequence has as many elements as its set. */
  lemma {:induction false} NoDuplicatesCardinality<T(!new)>(s: seq<T>)
    requires NoDuplicates(s)
    ensures |s| == |set x | x in s|
  {
    if s != [] {
      NoDuplicatesCardinality(s[1..]);
      var tail := set x | x in s[1..];
      assert s[0] !in s[1..] by {
        forall k | 0 <= k < |s[1..]| ensures s[1..][k] != s[0] {
          assert s[1..][k] == s[k + 1];
        }
      }
      assert (set x | x in s) == {s[0]} + tail;
    }
  }

  /** The number of distinct values in `s`. */
  function DistinctCount<T(==,!new)>(s: seq<T>): (n: nat)
    ensures n == |set x | x in s|
    ensures n <= |s|
  {
    var r := Distinct(s);
    NoDuplicatesCardinality(r);
    assert (set x | x in r) == (set x | x in s);
    |r|
  }

  /** The first `n` elements, or all of `s` when it is shorter. */
  function Take<T>(s: seq<T>, n: nat): (r: seq<T>)
    ensures |r| == if |s| < n then |s| else n
    ensures forall i :: 0 <= i < |r| ==> r[i] == s[i]
  {
    if |s| < n then s else s[..n]
  }

  /** The sum of `xs`, starting from 0. */
  function Sum(xs: seq<int>): (total: int)
    ensures (forall i :: 0 <= i < |xs| ==> xs[i] >= 0) ==> total >= 0
  {
    if xs == [] then 0 else xs[0] + Sum(xs[1..])
  }

  /** Appending one summand adds exactly that summand to the sum. */
  lemma {:induction false} SumAppend(xs: seq<int>, x: int)
    ensures Sum(xs + [x]) == Sum(xs) + x
  {
    if xs != [] {
      assert (xs + [x])[1..] == xs[1..] + [x];
      SumAppend(xs[1..], x);
    }
  }
}
