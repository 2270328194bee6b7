/** Sequence utilities shared by the model: order-preserving de-duplication and filtering. */
module Seqs {

  /** No element occurs twice. */
  predicate NoDup<T(==)>(s: seq<T>) {
    forall i, j | 0 <= i < j < |s| :: s[i] != s[j]
  }

  /** Joining two duplicate-free sequences with no common element gives a duplicate-free sequence. */
  lemma NoDupAppend<T>(a: seq<T>, b: seq<T>)
    requires NoDup(a) && NoDup(b)
    requires forall x | x in a :: x !in b
    ensures NoDup(a + b)
  {
    forall i, j | 0 <= i < j < |a + b| ensures (a + b)[i] != (a + b)[j] {
      if j >= |a| && i < |a| {
        assert (a + b)[i] in a && (a + b)[j] == b[j - |a|];
      }
    }
  }

  /** The elements of `s`, as a set. */
  function Elems<T>(s: seq<T>): set<T> {
    set x | x in s
  }

  lemma ElemsAppend<T>(a: seq<T>, b: seq<T>)
    ensures Elems(a + b) == Elems(a) + Elems(b)
  {
    assert forall x | x in a + b :: x in a || x in b;
  }

  /**
   * Keeps the first occurrence of every element of `s` not already in `seen`, in order.
   * With `seen == {}` this is JavaScript's `[...new Set(s)]`: a Set iterates in first-insertion order.
   */
  function DedupFrom<T(==)>(s: seq<T>, seen: set<T>): (r: seq<T>)
    ensures NoDup(r)
    ensures Elems(r) == Elems(s) - seen
    ensures forall x | x in r :: x !in seen
    decreases |s|
  {
    if |s| == 0 then []
    else if s[0] in seen then DedupFrom(s[1..], seen)
    else
      var rest := DedupFrom(s[1..], seen + {s[0]});
      assert Elems(s) == {s[0]} + Elems(s[1..]);
      assert Elems([s[0]] + rest) == {s[0]} + Elems(rest);
      [s[0]] + rest
  }

  function Dedup<T(==)>(s: seq<T>): (r: seq<T>)
    ensures NoDup(r)
    ensures Elems(r) == Elems(s)
  {
    DedupFrom(s, {})
  }

  /** A sequence without duplicates is left as it is. */
  lemma {:induction false} DedupFromOfNoDup<T>(s: seq<T>, seen: set<T>)
    requires NoDup(s)
    requires forall x | x in s :: x !in seen
    ensures DedupFrom(s, seen) == s
    decreases |s|
  {
    if |s| > 0 {
      assert forall x | x in s[1..] :: x != s[0] by {
        forall x | x in s[1..] ensures x != s[0] {
          var k :| 0 <= k < |s[1..]| && s[1..][k] == x;
          assert s[k + 1] == x;
        }
      }
      DedupFromOfNoDup(s[1..], seen + {s[0]});
    }
  }

  /**
   * De-duplicating a concatenation: the de-duplicated left part, then the elements of the
   * right part not already present, each at its first occurrence.
   */
  lemma {:induction false} DedupFromAppend<T>(a: seq<T>, b: seq<T>, seen: set<T>)
    ensures DedupFrom(a + b, seen) == DedupFrom(a, seen) + DedupFrom(b, seen + Elems(a))
    decreases |a|
  {
    if |a| == 0 {
      assert a + b == b;
      assert Elems(a) == {};
      assert seen + Elems(a) == seen;
    } else {
      assert (a + b)[0] == a[0];
      assert (a + b)[1..] == a[1..] + b;
      assert Elems(a) == {a[0]} + Elems(a[1..]);
      if a[0] in seen {
        DedupFromAppend(a[1..], b, seen);
        assert seen + Elems(a[1..]) == seen + Elems(a);
      } else {
        DedupFromAppend(a[1..], b, seen + {a[0]});
        assert seen + {a[0]} + Elems(a[1..]) == seen + Elems(a);
      }
    }
  }

  /** The elements of `s` satisfying `p`, in order (`Array.prototype.filter`). */
  function Filter<T>(s: seq<T>, p: T -> bool): (r: seq<T>)
    ensures |r| <= |s|
    ensures forall x | x in r :: p(x) && x in s
    ensures forall x | x in s && p(x) :: x in r
    ensures multiset(r) <= multiset(s)
  {
    if |s| == 0 then []
    else
      var rest := Filter(s[1..], p);
      assert s == [s[0]] + s[1..];
      if p(s[0]) then [s[0]] + rest else rest
  }

  /** Filtering distributes over concatenation. */
  lemma {:induction false} FilterAppend<T>(a: seq<T>, b: seq<T>, p: T -> bool)
    ensures Filter(a + b, p) == Filter(a, p) + Filter(b, p)
    decreases |a|
  {
    if |a| == 0 {
      assert a + b == b;
    } else {
      assert (a + b)[0] == a[0];
      assert (a + b)[1..] == a[1..] + b;
      FilterAppend(a[1..], b, p);
    }
  }

  /** A filter whose predicate holds everywhere keeps the whole sequence. */
  lemma {:induction false} FilterKeepsAll<T>(s: seq<T>, p: T -> bool)
    requires forall x | x in s :: p(x)
    ensures Filter(s, p) == s
    decreases |s|
  {
    if |s| > 0 {
      assert s[0] in s;
      assert forall x | x in s[1..] :: x in s;
      FilterKeepsAll(s[1..], p);
      assert s == [s[0]] + s[1..];
    }
  }

  /** A filter whose predicate fails everywhere keeps nothing. */
  lemma {:induction false} FilterDropsAll<T>(s: seq<T>, p: T -> bool)
    requires forall x | x in s :: !p(x)
    ensures Filter(s, p) == []
    decreases |s|
  {
    if |s| > 0 {
      assert forall x | x in s[1..] :: x in s;
      FilterDropsAll(s[1..], p);
    }
  }

  /** `sub` is `s` with some elements dropped and the rest in their original order. */
  predicate IsSubsequence<T(==)>(sub: seq<T>, s: seq<T>)
    decreases |s|
  {
    if |sub| == 0 then true
    else if |s| == 0 then false
    else if sub[0] == s[0] then IsSubsequence(sub[1..], s[1..])
    else IsSubsequence(sub, s[1..])
  }

  /** A filter keeps its survivors in their original order. */
  lemma {:induction false} FilterIsSubsequence<T>(s: seq<T>, p: T -> bool)
    ensures IsSubsequence(Filter(s, p), s)
    decreases |s|
  {
    if |s| > 0 {
      FilterIsSubsequence(s[1..], p);
      var rest := Filter(s[1..], p);
      if p(s[0]) {
        assert Filter(s, p) == [s[0]] + rest;
        assert ([s[0]] + rest)[1..] == rest;
      } else {
        assert Filter(s, p) == rest;
        assert |rest| > 0 ==> rest[0] in rest && rest[0] != s[0];
      }
    }
  }
}
