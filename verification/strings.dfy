/**
 * String helpers: JavaScript's `startsWith`, `indexOf`, `join` and default sort order,
 * over `string == seq<char>`.
 */
module Strings {

  /** `s.startsWith(p)`. */
  predicate IsPrefix(p: string, s: string) {
    |p| <= |s| && s[..|p|] == p
  }

  /** `pat` occurs in `s` at index `i`. */
  predicate OccursAt(s: string, pat: string, i: int) {
    0 <= i && i + |pat| <= |s| && s[i..i + |pat|] == pat
  }

  predicate Contains(s: string, pat: string) {
    exists i | 0 <= i <= |s| :: OccursAt(s, pat, i)
  }

  /** `s.indexOf(pat)`, searching from `from`: the first index at or after `from` where `pat` occurs. */
  function IndexOfFrom(s: string, pat: string, from: nat): (r: int)
    ensures r == -1 || (from <= r && OccursAt(s, pat, r))
    ensures r == -1 ==> forall i | from <= i :: !OccursAt(s, pat, i)
    ensures r != -1 ==> forall i | from <= i < r :: !OccursAt(s, pat, i)
    decreases |s| - from
  {
    if from + |pat| > |s| then -1
    else if s[from..from + |pat|] == pat then from
    else IndexOfFrom(s, pat, from + 1)
  }

  function IndexOf(s: string, pat: string): (r: int)
    ensures r == -1 <==> !Contains(s, pat)
    ensures r != -1 ==> OccursAt(s, pat, r) && forall i | 0 <= i < r :: !OccursAt(s, pat, i)
  {
    IndexOfFrom(s, pat, 0)
  }

  /** `parts.join(sep)`. */
  function Join(parts: seq<string>, sep: string): string {
    if |parts| == 0 then ""
    else if |parts| == 1 then parts[0]
    else parts[0] + sep + Join(parts[1..], sep)
  }

  /**
   * Lexicographic order on code points: the order JavaScript's default `sort` uses on strings
   * whose characters all lie in the Basic Multilingual Plane.
   */
  predicate LessEq(a: string, b: string) {
    |a| == 0 || (|b| > 0 && (a[0] < b[0] || (a[0] == b[0] && LessEq(a[1..], b[1..]))))
  }

  lemma LessEqReflexive(a: string)
    ensures LessEq(a, a)
  {}

  lemma LessEqTotal(a: string, b: string)
    ensures LessEq(a, b) || LessEq(b, a)
  {}

  lemma LessEqAntisymmetric(a: string, b: string)
    requires LessEq(a, b) && LessEq(b, a)
    ensures a == b
  {
    if |a| > 0 && |b| > 0 {
      LessEqAntisymmetric(a[1..], b[1..]);
      assert a == [a[0]] + a[1..];
      assert b == [b[0]] + b[1..];
    }
  }

  lemma LessEqTransitive(a: string, b: string, c: string)
    requires LessEq(a, b) && LessEq(b, c)
    ensures LessEq(a, c)
  {
    if |a| > 0 && a[0] == b[0] && b[0] == c[0] {
      LessEqTransitive(a[1..], b[1..], c[1..]);
    }
  }

  /** `s` is in non-decreasing order of `key`. */
  predicate SortedBy<T>(s: seq<T>, key: T -> string) {
    forall i, j | 0 <= i < j < |s| :: LessEq(key(s[i]), key(s[j]))
  }

  /** Inserts `x` in front of the first element whose key is not smaller than its own. */
  function InsertBy<T>(x: T, s: seq<T>, key: T -> string): (r: seq<T>)
    requires SortedBy(s, key)
    ensures SortedBy(r, key)
    ensures multiset(r) == multiset(s) + multiset{x}
  {
    if |s| == 0 then [x]
    else if LessEq(key(x), key(s[0])) then
      assert forall j | 0 <= j < |s| :: LessEq(key(x), key(s[j])) by {
        forall j | 0 <= j < |s| ensures LessEq(key(x), key(s[j])) {
          if j > 0 { LessEqTransitive(key(x), key(s[0]), key(s[j])); }
        }
      }
      [x] + s
    else
      LessEqTotal(key(x), key(s[0]));
      SortedTail(s, key);
      HeadAndTail(s);
      var rest := InsertBy(x, s[1..], key);
      assert forall j | 0 <= j < |rest| :: LessEq(key(s[0]), key(rest[j])) by {
        forall j | 0 <= j < |rest| ensures LessEq(key(s[0]), key(rest[j])) {
          var y := rest[j];
          assert y in multiset(rest);
          if y != x {
            assert y in s[1..];
          }
        }
      }
      [s[0]] + rest
  }

  /** Insertion sort by `key`: a sorted permutation of `s`. */
  function SortBy<T>(s: seq<T>, key: T -> string): (r: seq<T>)
    ensures SortedBy(r, key)
    ensures multiset(r) == multiset(s)
  {
    if |s| == 0 then []
    else
      assert s == [s[0]] + s[1..];
      InsertBy(s[0], SortBy(s[1..], key), key)
  }

  /** Two elements with the same key are the same element. */
  predicate KeyDetermines<T(!new)>(m: multiset<T>, key: T -> string) {
    forall x, y | x in m && y in m && key(x) == key(y) :: x == y
  }

  /** The head of a sorted sequence has the least key. */
  lemma HeadIsLeast<T>(s: seq<T>, x: T, key: T -> string)
    requires SortedBy(s, key)
    requires x in s
    ensures LessEq(key(s[0]), key(x))
  {
    var i :| 0 <= i < |s| && s[i] == x;
    if i == 0 { LessEqReflexive(key(x)); }
  }

  /**
   * A sorted arrangement is unique: two sorted sequences with the same elements are equal,
   * as long as the key tells elements apart.
   */
  lemma {:induction false} SortedUnique<T(!new)>(a: seq<T>, b: seq<T>, key: T -> string)
    requires SortedBy(a, key) && SortedBy(b, key)
    requires multiset(a) == multiset(b)
    requires KeyDetermines(multiset(a), key)
    ensures a == b
    decreases |a|
  {
    assert |a| == |multiset(a)| == |multiset(b)| == |b|;
    if |a| > 0 {
      SameHead(a, b, key);
      TailsAgree(a, b, key);
      SortedUnique(a[1..], b[1..], key);
      assert a == [a[0]] + a[1..] && b == [b[0]] + b[1..];
    }
  }

  lemma SameHead<T(!new)>(a: seq<T>, b: seq<T>, key: T -> string)
    requires |a| > 0 && |b| > 0
    requires SortedBy(a, key) && SortedBy(b, key)
    requires multiset(a) == multiset(b)
    requires KeyDetermines(multiset(a), key)
    ensures a[0] == b[0]
  {
    assert a[0] in multiset(b) && b[0] in multiset(a);
    HeadIsLeast(b, a[0], key);
    HeadIsLeast(a, b[0], key);
    LessEqAntisymmetric(key(a[0]), key(b[0]));
  }

  lemma TailsAgree<T(!new)>(a: seq<T>, b: seq<T>, key: T -> string)
    requires |a| > 0 && |b| > 0 && a[0] == b[0]
    requires SortedBy(a, key) && SortedBy(b, key)
    requires multiset(a) == multiset(b)
    requires KeyDetermines(multiset(a), key)
    ensures SortedBy(a[1..], key) && SortedBy(b[1..], key)
    ensures multiset(a[1..]) == multiset(b[1..])
    ensures KeyDetermines(multiset(a[1..]), key)
  {
    SortedTail(a, key);
    SortedTail(b, key);
    HeadAndTail(a);
    HeadAndTail(b);
    KeyDeterminesSubset(multiset(a[1..]), multiset(a), key);
  }

  lemma SortedTail<T>(s: seq<T>, key: T -> string)
    requires |s| > 0 && SortedBy(s, key)
    ensures SortedBy(s[1..], key)
  {
    forall i, j | 0 <= i < j < |s[1..]| ensures LessEq(key(s[1..][i]), key(s[1..][j])) {
      assert s[1..][i] == s[i + 1] && s[1..][j] == s[j + 1];
    }
  }

  lemma HeadAndTail<T>(s: seq<T>)
    requires |s| > 0
    ensures multiset(s) == multiset{s[0]} + multiset(s[1..])
  {
    assert s == [s[0]] + s[1..];
  }

  lemma KeyDeterminesSubset<T(!new)>(m: multiset<T>, n: multiset<T>, key: T -> string)
    requires m <= n && KeyDetermines(n, key)
    ensures KeyDetermines(m, key)
  {}

  /** Sorting forgets the order of its input. */
  lemma SortByIgnoresOrder<T(!new)>(a: seq<T>, b: seq<T>, key: T -> string)
    requires multiset(a) == multiset(b)
    requires KeyDetermines(multiset(a), key)
    ensures SortBy(a, key) == SortBy(b, key)
  {
    SortedUnique(SortBy(a, key), SortBy(b, key), key);
  }

  /** The identity key, for sorting plain strings. */
  function Self(s: string): string { s }
}
