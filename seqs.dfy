/**
 * Sequence operations behind `Array.prototype.filter`, `new Set(...)` (which keeps
 * first occurrences in insertion order), and counting, with the lemmas the
 * aggregations rely on.
 */
module Seqs {
  import opened Wrappers

  /** `s.filter(p)`: the elements that satisfy p, in order. */
  function Filter<T>(s: seq<T>, p: T -> bool): (r: seq<T>)
    ensures |r| <= |s|
  {
    if s == [] then []
    else if p(s[0]) then [s[0]] + Filter(s[1..], p)
    else Filter(s[1..], p)
  }

  lemma {:induction false} FilterMembership<T>(s: seq<T>, p: T -> bool)
    ensures forall x :: x in Filter(s, p) <==> x in s && p(x)
  {
    if s != [] {
      FilterMembership(s[1..], p);
      assert forall x :: x in s <==> x == s[0] || x in s[1..];
    }
  }

  lemma {:induction false} FilterMultiset<T>(s: seq<T>, p: T -> bool)
    ensures forall x :: multiset(Filter(s, p))[x] == if p(x) then multiset(s)[x] else 0
  {
    if s != [] {
      FilterMultiset(s[1..], p);
      assert s == [s[0]] + s[1..];
    }
  }

  lemma {:induction false} FilterAppend<T>(a: seq<T>, b: seq<T>, p: T -> bool)
    ensures Filter(a + b, p) == Filter(a, p) + Filter(b, p)
  {
    if a != [] {
      assert (a + b)[1..] == a[1..] + b;
      FilterAppend(a[1..], b, p);
    } else {
      assert a + b == b;
    }
  }

  /** Filtering the result of a filter with the same predicate changes nothing. */
  lemma {:induction false} FilterIdempotent<T>(s: seq<T>, p: T -> bool)
    ensures Filter(Filter(s, p), p) == Filter(s, p)
  {
    if s != [] {
      FilterIdempotent(s[1..], p);
      if p(s[0]) {
        assert ([s[0]] + Filter(s[1..], p))[1..] == Filter(s[1..], p);
      }
    }
  }

  /** A predicate that holds of every element keeps the whole sequence. */
  lemma {:induction false} FilterAll<T>(s: seq<T>, p: T -> bool)
    requires forall x :: x in s ==> p(x)
    ensures Filter(s, p) == s
  {
    if s != [] {
      FilterAll(s[1..], p);
      assert s == [s[0]] + s[1..];
    }
  }

  /** A predicate that holds of no element keeps nothing. */
  lemma {:induction false} FilterNone<T>(s: seq<T>, p: T -> bool)
    requires forall x :: x in s ==> !p(x)
    ensures Filter(s, p) == []
  {
    if s != [] {
      FilterNone(s[1..], p);
    }
  }

  /** Filtering twice is filtering once by both predicates. */
  lemma {:induction false} FilterFilter<T>(s: seq<T>, p: T -> bool, q: T -> bool, both: T -> bool)
    requires forall x :: both(x) == (p(x) && q(x))
    ensures Filter(Filter(s, p), q) == Filter(s, both)
  {
    if s != [] {
      FilterFilter(s[1..], p, q, both);
      if p(s[0]) {
        assert ([s[0]] + Filter(s[1..], p))[1..] == Filter(s[1..], p);
      }
    }
  }

  /** `a` is obtained from `b` by deleting elements; the order is kept. */
  predicate IsSubsequence<T(==)>(a: seq<T>, b: seq<T>)
    decreases |b|
  {
    if a == [] then true
    else if b == [] then false
    else if a[0] == b[0] then IsSubsequence(a[1..], b[1..])
    else IsSubsequence(a, b[1..])
  }

  lemma {:induction false} FilterIsSubsequence<T>(s: seq<T>, p: T -> bool)
    ensures IsSubsequence(Filter(s, p), s)
  {
    if s != [] {
      FilterIsSubsequence(s[1..], p);
      if p(s[0]) {
        assert ([s[0]] + Filter(s[1..], p))[1..] == Filter(s[1..], p);
      } else {
        // s[0] fails p, so it cannot head the filtered tail
        FilterMembership(s[1..], p);
        var f := Filter(s[1..], p);
        assert f == [] || f[0] != s[0] by {
          if f != [] { assert f[0] in f; }
        }
      }
    }
  }

  /** Number of occurrences of x in xs. */
  function Occ<T(==)>(xs: seq<T>, x: T): nat {
    if xs == [] then 0
    else Occ(xs[..|xs| - 1], x) + (if xs[|xs| - 1] == x then 1 else 0)
  }

  lemma {:induction false} OccIsMultiplicity<T>(xs: seq<T>, x: T)
    ensures Occ(xs, x) == multiset(xs)[x]
  {
    if xs != [] {
      OccIsMultiplicity(xs[..|xs| - 1], x);
      assert xs == xs[..|xs| - 1] + [xs[|xs| - 1]];
    }
  }

  predicate NoDuplicates<T(==)>(s: seq<T>) {
    forall i, j :: 0 <= i < j < |s| ==> s[i] != s[j]
  }

  /** `Array.from(new Set(xs))`: the distinct elements in order of first occurrence. */
  function Dedup<T(==)>(xs: seq<T>): seq<T> {
    if xs == [] then []
    else
      var d := Dedup(xs[..|xs| - 1]);
      if xs[|xs| - 1] in xs[..|xs| - 1] then d else d + [xs[|xs| - 1]]
  }

  lemma {:induction false} DedupFacts<T>(xs: seq<T>)
    ensures NoDuplicates(Dedup(xs))
    ensures forall x :: x in Dedup(xs) <==> x in xs
    ensures |Dedup(xs)| <= |xs|
    ensures Dedup(xs) == [] ==> xs == []
  {
    if xs != [] {
      var init := xs[..|xs| - 1];
      DedupFacts(init);
      assert forall x :: x in xs <==> x in init || x == xs[|xs| - 1] by {
        assert xs == init + [xs[|xs| - 1]];
      }
    }
  }

  /** The sum, over the keys, of how often each key occurs in xs. */
  function SumOcc<T(==)>(keys: seq<T>, xs: seq<T>): nat {
    if keys == [] then 0 else SumOcc(keys[..|keys| - 1], xs) + Occ(xs, keys[|keys| - 1])
  }

  lemma {:induction false} SumOccSnoc<T>(keys: seq<T>, xs: seq<T>, x: T)
    ensures SumOcc(keys, xs + [x]) == SumOcc(keys, xs) + Occ(keys, x)
  {
    if keys != [] {
      SumOccSnoc(keys[..|keys| - 1], xs, x);
      assert (xs + [x])[..|xs|] == xs;
    }
  }

  lemma {:induction false} OccOfDistinctMember<T>(keys: seq<T>, x: T)
    requires NoDuplicates(keys) && x in keys
    ensures Occ(keys, x) == 1
  {
    var init := keys[..|keys| - 1];
    assert NoDuplicates(init);
    if keys[|keys| - 1] == x {
      OccAbsent(init, x);
    } else {
      assert x in init by { assert keys == init + [keys[|keys| - 1]]; }
      OccOfDistinctMember(init, x);
    }
  }

  lemma {:induction false} OccAbsent<T>(xs: seq<T>, x: T)
    requires x !in xs
    ensures Occ(xs, x) == 0
  {
    if xs != [] {
      OccAbsent(xs[..|xs| - 1], x);
    }
  }

  /**
   * Counting each distinct key's occurrences and adding the counts up gives the
   * length of the list, provided every element of the list is one of the keys.
   */
  lemma {:induction false} SumOccCoversAll<T>(keys: seq<T>, xs: seq<T>)
    requires NoDuplicates(keys)
    requires forall x :: x in xs ==> x in keys
    ensures SumOcc(keys, xs) == |xs|
  {
    if xs == [] {
      SumOccEmpty(keys);
    } else {
      var init := xs[..|xs| - 1];
      assert xs == init + [xs[|xs| - 1]];
      SumOccCoversAll(keys, init);
      SumOccSnoc(keys, init, xs[|xs| - 1]);
      OccOfDistinctMember(keys, xs[|xs| - 1]);
    }
  }

  lemma {:induction false} SumOccEmpty<T>(keys: seq<T>)
    ensures SumOcc(keys, []) == 0
  {
    if keys != [] {
      SumOccEmpty(keys[..|keys| - 1]);
    }
  }

  lemma {:induction false} FilterNoDuplicates<T>(s: seq<T>, p: T -> bool)
    requires NoDuplicates(s)
    ensures NoDuplicates(Filter(s, p))
  {
    if s != [] {
      assert NoDuplicates(s[1..]);
      FilterNoDuplicates(s[1..], p);
      FilterMembership(s[1..], p);
      if p(s[0]) {
        var f := Filter(s[1..], p);
        assert s[0] !in f;
        forall i, j | 0 <= i < j < |[s[0]] + f| ensures ([s[0]] + f)[i] != ([s[0]] + f)[j] {
          if i == 0 {
            assert ([s[0]] + f)[j] == f[j - 1];
          }
        }
      }
    }
  }

  /** A list without repeats has as many distinct elements as entries. */
  lemma {:induction false} DistinctCardinality<T>(s: seq<T>)
    requires NoDuplicates(s)
    ensures |set x | x in s| == |s|
  {
    if s != [] {
      var init := s[..|s| - 1];
      assert NoDuplicates(init);
      DistinctCardinality(init);
      assert (set x | x in s) == (set x | x in init) + {s[|s| - 1]} by {
        assert s == init + [s[|s| - 1]];
      }
      assert s[|s| - 1] !in init;
    }
  }

  lemma SameElements<T>(a: seq<T>, b: seq<T>)
    requires forall x :: x in a <==> x in b
    ensures (set x | x in a) == (set x | x in b)
  {
  }

  /** `new Set(xs).size` is the number of distinct elements of xs. */
  lemma DedupCardinality<T>(xs: seq<T>)
    ensures |Dedup(xs)| == |set x | x in xs|
  {
    DedupFacts(xs);
    DistinctCardinality(Dedup(xs));
    SameElements(Dedup(xs), xs);
  }

  /** Every sequence is a subsequence of itself. */
  lemma SubsequenceReflexive<T>(s: seq<T>)
    ensures IsSubsequence(s, s)
  {
    FilterAll(s, x => true);
    FilterIsSubsequence(s, x => true);
  }

  /** A repeat-free list has every element with multiplicity at most one. */
  lemma {:induction false} NoDuplicatesMultiplicity<T>(s: seq<T>, x: T)
    requires NoDuplicates(s)
    ensures multiset(s)[x] <= 1
  {
    if s != [] {
      var init := s[..|s| - 1];
      assert NoDuplicates(init);
      NoDuplicatesMultiplicity(init, x);
      assert s == init + [s[|s| - 1]];
      if s[|s| - 1] == x {
        assert x !in init;
      }
    }
  }

  /** An element found at two positions occurs at least twice. */
  lemma RepeatMultiplicity<T>(b: seq<T>, i: nat, j: nat)
    requires i < j < |b|
    ensures b[i] == b[j] ==> multiset(b)[b[j]] >= 2
  {
    assert b == b[..j] + [b[j]] + b[j + 1..];
    assert b[i] in b[..j];
  }

  /** Reordering a repeat-free list cannot create repeats. */
  lemma NoDuplicatesPermutation<T>(a: seq<T>, b: seq<T>)
    requires multiset(a) == multiset(b) && NoDuplicates(a)
    ensures NoDuplicates(b)
  {
    forall i, j | 0 <= i < j < |b| ensures b[i] != b[j] {
      RepeatMultiplicity(b, i, j);
      NoDuplicatesMultiplicity(a, b[j]);
    }
  }

  /** Each element of `seen` with its number of occurrences: what a counting `Map` or object ends with. */
  function CountMap<T(==)>(seen: seq<T>): map<T, nat> {
    map k | k in seen :: Occ(seen, k)
  }

  /**
   * One `counts[k] = (counts[k] || 0) + 1` step on the counts of `seen`; a key
   * seen for the first time is appended to the insertion order.
   */
  lemma CountStep<T>(seen: seq<T>, k: T)
    ensures CountMap(seen + [k]) ==
      CountMap(seen)[k := (if k in CountMap(seen) then CountMap(seen)[k] else 0) + 1]
    ensures Dedup(seen + [k]) == Dedup(seen) + (if k in CountMap(seen) then [] else [k])
  {
    var s := seen + [k];
    assert s[..|s| - 1] == seen;
    forall x | x in seen && x != k ensures Occ(s, x) == Occ(seen, x) {
    }
    if k !in seen {
      OccAbsent(seen, k);
    }
  }

  /** `CountStep` for the element after a prefix of `ks`, counted on top of `seen`. */
  lemma CountPrefixStep<T>(seen: seq<T>, ks: seq<T>, j: nat)
    requires j < |ks|
    ensures var before := CountMap(seen + ks[..j]);
      CountMap(seen + ks[..j + 1]) == before[ks[j] := (if ks[j] in before then before[ks[j]] else 0) + 1]
      && Dedup(seen + ks[..j + 1]) == Dedup(seen + ks[..j]) + (if ks[j] in before then [] else [ks[j]])
  {
    assert seen + ks[..j + 1] == seen + ks[..j] + [ks[j]];
    CountStep(seen + ks[..j], ks[j]);
  }

  /**
   * The counting loop `counts[k] = (counts[k] || 0) + 1` over `ks`, on top of
   * the counts of `seen`; `order` is the counting Map's key order, the order of
   * first insertion.
   */
  method CountInto<T>(counts0: map<T, nat>, order0: seq<T>, ks: seq<T>, ghost seen: seq<T>)
    returns (counts: map<T, nat>, order: seq<T>)
    requires counts0 == CountMap(seen) && order0 == Dedup(seen)
    ensures counts == CountMap(seen + ks) && order == Dedup(seen + ks)
  {
    counts, order := counts0, order0;
    assert seen + ks[..0] == seen;
    for j := 0 to |ks|
      invariant counts == CountMap(seen + ks[..j]) && order == Dedup(seen + ks[..j])
    {
      var k := ks[j];
      CountPrefixStep(seen, ks, j);
      var prior := if k in counts then counts[k] else 0;
      if k !in counts {
        order := order + [k];
      }
      counts := counts[k := prior + 1];
    }
    assert ks[..|ks|] == ks;
  }

  /** `s.find(p)`: an element satisfying p, or undefined when there is none. */
  function Find<T>(s: seq<T>, p: T -> bool): (r: Option<T>)
    ensures r.None? <==> forall i :: 0 <= i < |s| ==> !p(s[i])
    ensures r.Some? ==> r.value in s && p(r.value)
  {
    if s == [] then None
    else if p(s[0]) then Some(s[0])
    else Find(s[1..], p)
  }

  /** What `find` returns is the first element satisfying p. */
  lemma {:induction false} FindFirst<T>(s: seq<T>, p: T -> bool, i: nat)
    requires i < |s| && p(s[i])
    requires forall k :: 0 <= k < i ==> !p(s[k])
    ensures Find(s, p) == Some(s[i])
  {
    if i > 0 {
      FindFirst(s[1..], p, i - 1);
    }
  }
}
