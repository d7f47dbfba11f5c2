/**
 * `Array.prototype.sort` with a comparator, which is stable: a sort by
 * insertion where `before(x, y)` means the comparator's value for `(x, y)`
 * is at most 0, so `x` may stay ahead of `y`.
 */
module Sorting {

  ghost predicate Total<T(!new)>(before: (T, T) -> bool)
  {
    forall x, y :: before(x, y) || before(y, x)
  }

  ghost predicate Transitive<T(!new)>(before: (T, T) -> bool)
  {
    forall x, y, z :: before(x, y) && before(y, z) ==> before(x, z)
  }

  ghost predicate SortedBy<T>(s: seq<T>, before: (T, T) -> bool)
  {
    forall i, j :: 0 <= i < j < |s| ==> before(s[i], s[j])
  }

  /** Puts `x` ahead of the first element it may precede. */
  function Insert<T>(s: seq<T>, x: T, before: (T, T) -> bool): (r: seq<T>)
    ensures |r| == |s| + 1
    ensures multiset(r) == multiset(s) + multiset{x}
  {
    if s == [] || before(x, s[0]) then [x] + s
    else
      assert s == [s[0]] + s[1..];
      [s[0]] + Insert(s[1..], x, before)
  }

  /** The sorted arrangement of `s`: a permutation of it. */
  function SortBy<T>(s: seq<T>, before: (T, T) -> bool): (r: seq<T>)
    ensures |r| == |s|
    ensures multiset(r) == multiset(s)
  {
    if s == [] then []
    else
      assert s == [s[0]] + s[1..];
      Insert(SortBy(s[1..], before), s[0], before)
  }

  lemma {:induction false} InsertSorted<T(!new)>(s: seq<T>, x: T, before: (T, T) -> bool)
    requires Total(before) && Transitive(before)
    requires SortedBy(s, before)
    ensures SortedBy(Insert(s, x, before), before)
  {
    var r := Insert(s, x, before);
    if s == [] || before(x, s[0]) {
      forall i, j | 0 <= i < j < |r| ensures before(r[i], r[j]) {
        if i == 0 && j > 1 {
          assert r[j] == s[j - 1];
          assert before(s[0], s[j - 1]);
        }
      }
    } else {
      var rest := Insert(s[1..], x, before);
      InsertSorted(s[1..], x, before);
      assert before(s[0], x);
      forall k | 0 <= k < |rest| ensures before(s[0], rest[k]) {
        assert rest[k] in multiset(rest);
        assert rest[k] in multiset(s[1..]) || rest[k] == x;
        if rest[k] != x {
          var m :| 0 <= m < |s[1..]| && s[1..][m] == rest[k];
          assert s[m + 1] == rest[k];
        }
      }
      forall i, j | 0 <= i < j < |r| ensures before(r[i], r[j]) {
        if i == 0 {
          assert r[j] == rest[j - 1];
        } else {
          assert r[i] == rest[i - 1] && r[j] == rest[j - 1];
        }
      }
    }
  }

  lemma {:induction false} SortBySorted<T(!new)>(s: seq<T>, before: (T, T) -> bool)
    requires Total(before) && Transitive(before)
    ensures SortedBy(SortBy(s, before), before)
  {
    if s != [] {
      SortBySorted(s[1..], before);
      InsertSorted(SortBy(s[1..], before), s[0], before);
    }
  }

  /** A sorted sequence's elements are exactly those of the input. */
  lemma SortByMembers<T>(s: seq<T>, before: (T, T) -> bool, x: T)
    ensures x in SortBy(s, before) <==> x in s
  {
    var r := SortBy(s, before);
    assert x in r <==> x in multiset(r);
    assert x in s <==> x in multiset(s);
  }
}
