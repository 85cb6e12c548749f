/**
 * The stable sort of `Array.prototype.sort(compare)`. ECMAScript requires the sort
 * to be stable, and for a comparator that is consistent (a total preorder) the
 * stable sorted permutation is unique, so insertion sort describes its result.
 * `le(a, b)` stands for `compare(a, b) <= 0`.
 */
module Sorting {
  import opened Seqs

  ghost predicate TotalPreorder<T(!new)>(le: (T, T) -> bool) {
    (forall a, b :: le(a, b) || le(b, a)) &&
    (forall a, b, c :: le(a, b) && le(b, c) ==> le(a, c))
  }

  predicate Sorted<T>(s: seq<T>, le: (T, T) -> bool) {
    forall i, j :: 0 <= i < j < |s| ==> le(s[i], s[j])
  }

  /** Inserts x after the last element that is not greater than it. */
  function Insert<T>(s: seq<T>, x: T, le: (T, T) -> bool): (r: seq<T>)
    ensures |r| == |s| + 1
    ensures multiset(r) == multiset(s) + multiset{x}
  {
    if s == [] || le(s[|s| - 1], x) then s + [x]
    else
      assert s == s[..|s| - 1] + [s[|s| - 1]];
      Insert(s[..|s| - 1], x, le) + [s[|s| - 1]]
  }

  function SortBy<T>(s: seq<T>, le: (T, T) -> bool): (r: seq<T>)
    ensures |r| == |s|
    ensures multiset(r) == multiset(s)
  {
    if s == [] then []
    else
      assert s == s[..|s| - 1] + [s[|s| - 1]];
      Insert(SortBy(s[..|s| - 1], le), s[|s| - 1], le)
  }

  lemma {:induction false} InsertSorted<T(!new)>(s: seq<T>, x: T, le: (T, T) -> bool)
    requires TotalPreorder(le)
    requires Sorted(s, le)
    ensures Sorted(Insert(s, x, le), le)
  {
    if s == [] || le(s[|s| - 1], x) {
    } else {
      var init, last := s[..|s| - 1], s[|s| - 1];
      InsertSorted(init, x, le);
      var r := Insert(init, x, le);
      forall y | y in r ensures le(y, last) {
        assert y in multiset(r);
        if y != x {
          assert y in init;
        }
      }
    }
  }

  /** The result of SortBy is sorted. */
  lemma {:induction false} SortBySorted<T(!new)>(s: seq<T>, le: (T, T) -> bool)
    requires TotalPreorder(le)
    ensures Sorted(SortBy(s, le), le)
  {
    if s != [] {
      SortBySorted(s[..|s| - 1], le);
      InsertSorted(SortBy(s[..|s| - 1], le), s[|s| - 1], le);
    }
  }

  /** Dropping the last element keeps a sequence sorted, and that element follows the new last one. */
  lemma SortedInit<T>(s: seq<T>, le: (T, T) -> bool)
    requires Sorted(s, le) && |s| > 0
    ensures Sorted(s[..|s| - 1], le)
    ensures |s| > 1 ==> le(s[..|s| - 1][|s| - 2], s[|s| - 1])
  {
  }

  /** Sorting a sequence that is already sorted leaves it as it is. */
  lemma {:induction false} SortBySortedIsIdentity<T>(s: seq<T>, le: (T, T) -> bool)
    requires Sorted(s, le)
    ensures SortBy(s, le) == s
  {
    if s != [] {
      var init, last := s[..|s| - 1], s[|s| - 1];
      SortedInit(s, le);
      SortBySortedIsIdentity(init, le);
      assert s == init + [last];
    }
  }

  predicate Equivalent<T>(a: T, b: T, le: (T, T) -> bool) {
    le(a, b) && le(b, a)
  }

  /** The elements of s whose key equals the key of y, in their order in s. */
  function ClassOf<T>(s: seq<T>, y: T, le: (T, T) -> bool): seq<T> {
    if s == [] then []
    else ClassOf(s[..|s| - 1], y, le) + (if Equivalent(s[|s| - 1], y, le) then [s[|s| - 1]] else [])
  }

  lemma {:induction false} ClassOfSnoc<T>(s: seq<T>, x: T, y: T, le: (T, T) -> bool)
    ensures ClassOf(s + [x], y, le) == ClassOf(s, y, le) + (if Equivalent(x, y, le) then [x] else [])
  {
    assert (s + [x])[..|s|] == s;
  }

  /** Of two elements out of order, at most one is equivalent to a given element. */
  lemma NotBothEquivalent<T(!new)>(a: T, b: T, y: T, le: (T, T) -> bool)
    requires TotalPreorder(le)
    requires !le(a, b)
    ensures !(Equivalent(a, y, le) && Equivalent(b, y, le))
  {
    assert Equivalent(a, y, le) && Equivalent(b, y, le) ==> le(a, y) && le(y, b);
  }

  lemma {:induction false} InsertClass<T(!new)>(s: seq<T>, x: T, y: T, le: (T, T) -> bool)
    requires TotalPreorder(le)
    ensures ClassOf(Insert(s, x, le), y, le) == ClassOf(s, y, le) + (if Equivalent(x, y, le) then [x] else [])
  {
    if s == [] || le(s[|s| - 1], x) {
      ClassOfSnoc(s, x, y, le);
    } else {
      var init, last := s[..|s| - 1], s[|s| - 1];
      InsertClass(init, x, y, le);
      assert Insert(s, x, le) == Insert(init, x, le) + [last];
      ClassOfSnoc(Insert(init, x, le), last, y, le);
      assert s == init + [last];
      ClassOfSnoc(init, last, y, le);
      // last and x cannot both be equivalent to y: then le(last, x) would hold
      NotBothEquivalent(last, x, y, le);
    }
  }

  lemma {:induction false} ClassOfNone<T>(s: seq<T>, y: T, le: (T, T) -> bool)
    requires forall k :: 0 <= k < |s| ==> !Equivalent(s[k], y, le)
    ensures ClassOf(s, y, le) == []
  {
    if s != [] {
      ClassOfNone(s[..|s| - 1], y, le);
    }
  }

  /** The class of y begins with the first element of s equivalent to y. */
  lemma {:induction false} ClassOfHead<T>(s: seq<T>, y: T, le: (T, T) -> bool, i: nat)
    requires i < |s| && Equivalent(s[i], y, le)
    requires forall k :: 0 <= k < i ==> !Equivalent(s[k], y, le)
    ensures |ClassOf(s, y, le)| > 0 && ClassOf(s, y, le)[0] == s[i]
  {
    var init := s[..|s| - 1];
    if i == |s| - 1 {
      ClassOfNone(init, y, le);
    } else {
      ClassOfHead(init, y, le, i);
    }
  }

  /** The least index whose element is equivalent to y, given one at `bound`. */
  lemma FirstEquivalent<T>(s: seq<T>, y: T, le: (T, T) -> bool, bound: nat) returns (first: nat)
    requires bound < |s| && Equivalent(s[bound], y, le)
    ensures first <= bound && Equivalent(s[first], y, le)
    ensures forall k :: 0 <= k < first ==> !Equivalent(s[k], y, le)
    decreases bound
  {
    if k :| 0 <= k < bound && Equivalent(s[k], y, le) {
      first := FirstEquivalent(s, y, le, k);
    } else {
      first := bound;
    }
  }

  /** Stability: elements with equal keys keep their relative input order. */
  lemma {:induction false} SortByStable<T(!new)>(s: seq<T>, y: T, le: (T, T) -> bool)
    requires TotalPreorder(le)
    ensures ClassOf(SortBy(s, le), y, le) == ClassOf(s, y, le)
  {
    if s != [] {
      var init, last := s[..|s| - 1], s[|s| - 1];
      var tail := if Equivalent(last, y, le) then [last] else [];
      calc {
        ClassOf(SortBy(s, le), y, le);
        ClassOf(Insert(SortBy(init, le), last, le), y, le);
        { InsertClass(SortBy(init, le), last, y, le); }
        ClassOf(SortBy(init, le), y, le) + tail;
        { SortByStable(init, y, le); }
        ClassOf(init, y, le) + tail;
        ClassOf(s, y, le);
      }
    }
  }

  /** The head of the sorted sequence is the first element of its class in the input. */
  lemma SortByHeadIsFirstOfClass<T(!new)>(s: seq<T>, le: (T, T) -> bool) returns (first: nat)
    requires TotalPreorder(le) && |s| > 0
    ensures first < |s| && s[first] == SortBy(s, le)[0]
    ensures forall k :: 0 <= k < first ==> !Equivalent(s[k], SortBy(s, le)[0], le)
  {
    var sorted := SortBy(s, le);
    var t := sorted[0];
    assert t in multiset(sorted);
    var j :| 0 <= j < |s| && s[j] == t;
    first := FirstEquivalent(s, t, le, j);
    SortByStable(s, t, le);
    ClassOfHead(sorted, t, le, 0);
    ClassOfHead(s, t, le, first);
  }
}
