/**
 * The string operations the storefront's filters and sorts use:
 * `toLowerCase`, `includes` and `localeCompare`. Case folding is limited to
 * ASCII and collation is code-unit order.
 */
module Text {

  function LowerChar(c: char): char
  {
    if 'A' <= c <= 'Z' then (c as int + 32) as char else c
  }

  /** Lower-casing, on ASCII letters. */
  function ToLower(s: string): (r: string)
    ensures |r| == |s|
  {
    seq(|s|, i requires 0 <= i < |s| => LowerChar(s[i]))
  }

  predicate StartsWith(s: string, prefix: string)
  {
    |prefix| <= |s| && s[..|prefix|] == prefix
  }

  /** Substring search: `needle` occurs in `s` at some position. */
  predicate Contains(s: string, needle: string)
    decreases |s|
  {
    StartsWith(s, needle) || (s != [] && Contains(s[1..], needle))
  }

  /** `needle` sits in `s` starting at position `k`. */
  ghost predicate OccursAt(s: string, needle: string, k: int)
  {
    0 <= k && k + |needle| <= |s| && s[k..k + |needle|] == needle
  }

  /** `Contains` holds exactly when `needle` is a slice of `s`. */
  lemma {:induction false} ContainsIffOccurs(s: string, needle: string)
    ensures Contains(s, needle) <==> exists k :: OccursAt(s, needle, k)
  {
    if StartsWith(s, needle) {
      assert OccursAt(s, needle, 0);
    }
    if s != [] {
      ContainsIffOccurs(s[1..], needle);
      if Contains(s[1..], needle) {
        var k :| OccursAt(s[1..], needle, k);
        assert s[1..][k..k + |needle|] == s[k + 1..k + 1 + |needle|];
        assert OccursAt(s, needle, k + 1);
      }
      if exists k :: OccursAt(s, needle, k) {
        var k :| OccursAt(s, needle, k);
        if k > 0 {
          assert s[1..][k - 1..k - 1 + |needle|] == s[k..k + |needle|];
          assert OccursAt(s[1..], needle, k - 1);
        } else {
          assert StartsWith(s, needle);
        }
      }
    } else if exists k :: OccursAt(s, needle, k) {
      var k :| OccursAt(s, needle, k);
      assert StartsWith(s, needle);
    }
  }

  /** Case-insensitive containment: both sides lower-cased first. */
  predicate ContainsIgnoringCase(s: string, term: string)
  {
    Contains(ToLower(s), ToLower(term))
  }

  /** The empty search term is found in every string. */
  lemma EmptyTermMatches(s: string)
    ensures ContainsIgnoringCase(s, "")
  {
    assert StartsWith(ToLower(s), ToLower(""));
  }

  /** Code-unit lexicographic order, standing in for a locale comparison that puts `a` no later than `b`. */
  predicate LexLeq(a: string, b: string)
  {
    if a == [] then true
    else if b == [] then false
    else if a[0] != b[0] then a[0] < b[0]
    else LexLeq(a[1..], b[1..])
  }

  lemma {:induction false} LexLeqTotal(a: string, b: string)
    ensures LexLeq(a, b) || LexLeq(b, a)
  {
    if a != [] && b != [] && a[0] == b[0] {
      LexLeqTotal(a[1..], b[1..]);
    }
  }

  lemma {:induction false} LexLeqAntisymmetric(a: string, b: string)
    requires LexLeq(a, b) && LexLeq(b, a)
    ensures a == b
  {
    if a != [] && b != [] {
      LexLeqAntisymmetric(a[1..], b[1..]);
      assert a == [a[0]] + a[1..] && b == [b[0]] + b[1..];
    }
  }

  lemma {:induction false} LexLeqTransitive(a: string, b: string, c: string)
    requires LexLeq(a, b) && LexLeq(b, c)
    ensures LexLeq(a, c)
  {
    if a != [] && b != [] && c != [] && a[0] == b[0] && b[0] == c[0] {
      LexLeqTransitive(a[1..], b[1..], c[1..]);
    }
  }
}
