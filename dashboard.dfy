/**
 * The dashboard's figures (app/dashboard/page.tsx): specialization counts built
 * in a Map, the most common specialization, the distribution over the known
 * specializations, the city categories, the ten most recent companies and the
 * average budget.
 */
module Dashboard {
  import opened Wrappers
  import opened Records
  import opened Seqs
  import opened Sorting
  import CompanyFilters

  function SpecIdsOf(specs: seq<Specialization>): (r: seq<string>)
    ensures |r| == |specs|
    ensures forall j :: 0 <= j < |r| ==> r[j] == specs[j].id
  {
    seq(|specs|, j requires 0 <= j < |specs| => specs[j].id)
  }

  /** Every specialization id of every company, company by company. */
  function AllIds(companies: seq<Company>): seq<string> {
    if companies == [] then [] else AllIds(companies[..|companies| - 1]) + SpecIdsOf(companies[|companies| - 1].specializations)
  }

  /** The total length of the companies' specialization lists. */
  function TotalSpecializations(companies: seq<Company>): nat {
    if companies == [] then 0
    else TotalSpecializations(companies[..|companies| - 1]) + |companies[|companies| - 1].specializations|
  }

  lemma {:induction false} AllIdsLength(companies: seq<Company>)
    ensures |AllIds(companies)| == TotalSpecializations(companies)
  {
    if companies != [] {
      AllIdsLength(companies[..|companies| - 1]);
    }
  }

  /** The counts `specCounts` ends with. */
  function SpecCountMap(companies: seq<Company>): map<string, nat> {
    CountMap(AllIds(companies))
  }

  /**
   * The `forEach` loops filling `specCounts`: the Map's contents and its key
   * order, which is the order of first insertion.
   */
  method CountSpecializations(companies: seq<Company>) returns (counts: map<string, nat>, order: seq<string>)
    ensures counts == SpecCountMap(companies)
    ensures order == Dedup(AllIds(companies))
  {
    counts := map[];
    order := [];
    assert CountMap<string>([]) == map[];
    for i := 0 to |companies|
      invariant counts == CountMap(AllIds(companies[..i])) && order == Dedup(AllIds(companies[..i]))
    {
      assert companies[..i + 1][..i] == companies[..i];
      assert AllIds(companies[..i + 1]) == AllIds(companies[..i]) + SpecIdsOf(companies[i].specializations);
      counts, order := CountInto(counts, order, SpecIdsOf(companies[i].specializations), AllIds(companies[..i]));
    }
    assert companies[..|companies|] == companies;
  }

  /** The counts add up to the total number of specialization entries. */
  lemma CountsSumToTotal(companies: seq<Company>)
    ensures var keys := Dedup(AllIds(companies));
      SumOcc(keys, AllIds(companies)) == TotalSpecializations(companies)
      && forall k :: k in keys ==> k in SpecCountMap(companies) && SpecCountMap(companies)[k] == Occ(AllIds(companies), k)
  {
    DedupFacts(AllIds(companies));
    SumOccCoversAll(Dedup(AllIds(companies)), AllIds(companies));
    AllIdsLength(companies);
  }

  /** `b[1] - a[1]` as an order: larger counts first. */
  const ByCountDesc: ((string, nat), (string, nat)) -> bool := (a: (string, nat), b: (string, nat)) => a.1 >= b.1

  lemma ByCountDescIsTotalPreorder()
    ensures TotalPreorder(ByCountDesc)
  {
  }

  /** `Array.from(specCounts.entries())`. */
  function Entries(order: seq<string>, counts: map<string, nat>): (r: seq<(string, nat)>)
    requires forall k :: k in order ==> k in counts
    ensures |r| == |order|
    ensures forall i :: 0 <= i < |order| ==> r[i] == (order[i], counts[order[i]])
  {
    seq(|order|, i requires 0 <= i < |order| => (order[i], counts[order[i]]))
  }

  /** `topSpecId`: the key of the first entry after sorting by count, undefined when there are none. */
  function TopSpecId(order: seq<string>, counts: map<string, nat>): Option<string>
    requires forall k :: k in order ==> k in counts
  {
    var sorted := SortBy(Entries(order, counts), ByCountDesc);
    if |sorted| == 0 then None else Some(sorted[0].0)
  }

  /** The first entry after the sort has the largest count. */
  lemma SortedHeadIsMaximal(entries: seq<(string, nat)>)
    requires |entries| > 0
    ensures var t := SortBy(entries, ByCountDesc)[0];
      t in entries && forall e :: e in entries ==> e.1 <= t.1
  {
    var sorted := SortBy(entries, ByCountDesc);
    ByCountDescIsTotalPreorder();
    SortBySorted(entries, ByCountDesc);
    assert sorted[0] in multiset(sorted);
    forall e | e in entries ensures e.1 <= sorted[0].1 {
      assert e in multiset(sorted);
      var m :| 0 <= m < |sorted| && sorted[m] == e;
      if m > 0 {
        assert ByCountDesc(sorted[0], sorted[m]);
      }
    }
  }

  /** Because the sort is stable, the first entry after it is the first entry with the largest count. */
  lemma SortedHeadIsFirstOfItsCount(entries: seq<(string, nat)>)
    requires |entries| > 0
    ensures var t := SortBy(entries, ByCountDesc)[0];
      exists j :: 0 <= j < |entries| && entries[j] == t && forall i :: 0 <= i < j ==> entries[i].1 != t.1
  {
    ByCountDescIsTotalPreorder();
    var t := SortBy(entries, ByCountDesc)[0];
    var first := SortByHeadIsFirstOfClass(entries, ByCountDesc);
    forall i | 0 <= i < first ensures entries[i].1 != t.1 {
      assert !Equivalent(entries[i], t, ByCountDesc);
    }
  }

  /** Over any entry list whose keys are exactly the counted ids: the top id is the first with the largest count. */
  lemma TopOfEntries(order: seq<string>, counts: map<string, nat>)
    requires forall k :: k in order <==> k in counts
    requires |order| > 0
    ensures TopSpecId(order, counts).Some?
    ensures var top := TopSpecId(order, counts).value;
      top in counts
      && (forall k :: k in counts ==> counts[k] <= counts[top])
      && exists j :: 0 <= j < |order| && order[j] == top && forall i :: 0 <= i < j ==> counts[order[i]] < counts[top]
  {
    var entries := Entries(order, counts);
    var j := HeadEntry(entries);
    FirstMaximum(order, counts, j);
  }

  /** The entry the sort puts first, found at its position j in the unsorted list. */
  lemma HeadEntry(entries: seq<(string, nat)>) returns (j: nat)
    requires |entries| > 0
    ensures j < |entries| && SortBy(entries, ByCountDesc)[0] == entries[j]
    ensures forall i :: 0 <= i < |entries| ==> entries[i].1 <= entries[j].1
    ensures forall i :: 0 <= i < j ==> entries[i].1 != entries[j].1
  {
    var t := SortBy(entries, ByCountDesc)[0];
    SortedHeadIsMaximal(entries);
    SortedHeadIsFirstOfItsCount(entries);
    j :| 0 <= j < |entries| && entries[j] == t && forall i :: 0 <= i < j ==> entries[i].1 != t.1;
    forall i | 0 <= i < |entries| ensures entries[i].1 <= t.1 {
      assert entries[i] in entries;
    }
  }

  /** The id at j, when no count exceeds its count and none before it reaches it, is the first maximum. */
  lemma FirstMaximum(order: seq<string>, counts: map<string, nat>, j: nat)
    requires forall k :: k in order <==> k in counts
    requires j < |order|
    requires forall i :: 0 <= i < |order| ==> counts[order[i]] <= counts[order[j]]
    requires forall i :: 0 <= i < j ==> counts[order[i]] != counts[order[j]]
    ensures order[j] in counts
    ensures forall k :: k in counts ==> counts[k] <= counts[order[j]]
    ensures forall i :: 0 <= i < j ==> counts[order[i]] < counts[order[j]]
  {
    forall k | k in counts ensures counts[k] <= counts[order[j]] {
      var m :| 0 <= m < |order| && order[m] == k;
    }
  }

  /**
   * The top id has the largest count, and among ids with that count it is the
   * one inserted first; there is none exactly when no company has a specialization.
   */
  lemma TopSpecIsFirstMaximum(companies: seq<Company>)
    ensures var counts := SpecCountMap(companies);
      var order := Dedup(AllIds(companies));
      (forall k :: k in order ==> k in counts)
      && (TopSpecId(order, counts).None? <==> TotalSpecializations(companies) == 0)
      && (TopSpecId(order, counts).Some? ==>
            var top := TopSpecId(order, counts).value;
            top in counts
            && (forall k :: k in counts ==> counts[k] <= counts[top])
            && exists j :: 0 <= j < |order| && order[j] == top && forall i :: 0 <= i < j ==> counts[order[i]] < counts[top])
  {
    var counts := SpecCountMap(companies);
    var order := Dedup(AllIds(companies));
    DedupFacts(AllIds(companies));
    AllIdsLength(companies);
    if |order| > 0 {
      TopOfEntries(order, counts);
      assert order[0] in AllIds(companies);
    } else {
      assert |SortBy(Entries(order, counts), ByCountDesc)| == 0;
      assert AllIds(companies) == [];
    }
  }

  /** `s => s.id === topSpecId`: an undefined id matches no specialization. */
  function HasId(id: Option<string>): Specialization -> bool {
    (s: Specialization) => id.Some? && s.id == id.value
  }

  /** `specializations.find(s => s.id === topSpecId)`. */
  function FindSpecialization(specs: seq<Specialization>, id: Option<string>): (r: Option<Specialization>)
    ensures r.Some? ==> id.Some? && r.value in specs && r.value.id == id.value
    ensures r.None? <==> id.None? || forall s :: s in specs ==> s.id != id.value
  {
    Find(specs, HasId(id))
  }

  datatype DistributionEntry = DistributionEntry(name: string, value: nat, color: string, icon: string)

  /** `specDistribution`: one entry per known specialization, `specCounts.get(id) || 0`. */
  function Distribution(specs: seq<Specialization>, counts: map<string, nat>): (r: seq<DistributionEntry>)
    ensures |r| == |specs|
  {
    seq(|specs|, i requires 0 <= i < |specs| =>
      DistributionEntry(specs[i].name, if specs[i].id in counts then counts[specs[i].id] else 0, specs[i].color, specs[i].icon))
  }

  /** Each known specialization gets its number of uses, 0 when unused, in the list's order. */
  lemma DistributionCounts(specs: seq<Specialization>, companies: seq<Company>)
    ensures var r := Distribution(specs, SpecCountMap(companies));
      forall i :: 0 <= i < |specs| ==>
        r[i].name == specs[i].name && r[i].color == specs[i].color && r[i].icon == specs[i].icon
        && r[i].value == Occ(AllIds(companies), specs[i].id)
  {
    forall i | 0 <= i < |specs| && specs[i].id !in AllIds(companies)
      ensures Occ(AllIds(companies), specs[i].id) == 0
    {
      OccAbsent(AllIds(companies), specs[i].id);
    }
  }

  function HasCategory(name: string): City -> bool {
    (c: City) => c.cityCategory == name
  }

  /** `cityCategories`: the number of cities of each category. */
  function CategoryCounts(cities: seq<City>): (r: (nat, nat, nat))
    ensures r.0 <= |cities| && r.1 <= |cities| && r.2 <= |cities|
  {
    (|Filter(cities, HasCategory("Großstadt"))|, |Filter(cities, HasCategory("Mittelstadt"))|,
     |Filter(cities, HasCategory("Kleinstadt"))|)
  }

  /** When every city has one of the three categories, the counts add up to the number of cities. */
  lemma {:induction false} CategoryCountsCoverAll(cities: seq<City>)
    requires forall c :: c in cities ==> ValidCategoryName(c.cityCategory)
    ensures var r := CategoryCounts(cities); r.0 + r.1 + r.2 == |cities|
  {
    if cities != [] {
      CategoryCountsCoverAll(cities[1..]);
      assert cities[0] in cities;
    }
  }

  /** `recentCompanies`: a sorted copy, newest first, cut to ten. */
  function Recent(companies: seq<Company>): (r: seq<Company>)
    ensures |r| == if |companies| < 10 then |companies| else 10
  {
    var sorted := SortBy(companies, CompanyFilters.NewestFirst);
    sorted[..if |sorted| < 10 then |sorted| else 10]
  }

  /**
   * The recent list is newest first, takes its companies from the input, and no
   * company left out is newer than one shown.
   */
  lemma RecentAreNewest(companies: seq<Company>)
    ensures var r := Recent(companies);
      && (forall i, j :: 0 <= i < j < |r| ==> r[i].createdAt >= r[j].createdAt)
      && (forall x :: x in r ==> x in companies)
      && (forall x, c :: x in r && c in companies && c !in r ==> x.createdAt >= c.createdAt)
  {
    var sorted := SortBy(companies, CompanyFilters.NewestFirst);
    CompanyFilters.NewestFirstIsTotalPreorder();
    SortBySorted(companies, CompanyFilters.NewestFirst);
    var r := Recent(companies);
    forall x | x in r ensures x in companies {
      assert x in multiset(sorted);
    }
    forall x, c | x in r && c in companies && c !in r ensures x.createdAt >= c.createdAt {
      assert c in multiset(sorted);
      var i :| 0 <= i < |r| && r[i] == x;
      var j :| 0 <= j < |sorted| && sorted[j] == c;
      assert CompanyFilters.NewestFirst(sorted[i], sorted[j]);
    }
  }

  function TotalBudget(cities: seq<City>): real {
    if cities == [] then 0.0 else TotalBudget(cities[..|cities| - 1]) + cities[|cities| - 1].digitalizationBudget
  }

  /** `avgBudget`: the mean budget, 0 without cities. */
  function AverageBudget(cities: seq<City>): real {
    if |cities| > 0 then TotalBudget(cities) / (|cities| as real) else 0.0
  }

  lemma {:induction false} TotalBudgetBounds(cities: seq<City>, lo: real, hi: real)
    requires forall c :: c in cities ==> lo <= c.digitalizationBudget <= hi
    ensures (|cities| as real) * lo <= TotalBudget(cities) <= (|cities| as real) * hi
  {
    if cities != [] {
      var init := cities[..|cities| - 1];
      var last := cities[|cities| - 1];
      BudgetsOfInit(cities, lo, hi);
      TotalBudgetBounds(init, lo, hi);
      BoundsStep(|init| as real, lo, hi, TotalBudget(init), last.digitalizationBudget);
    }
  }

  lemma BudgetsOfInit(cities: seq<City>, lo: real, hi: real)
    requires |cities| > 0
    requires forall c :: c in cities ==> lo <= c.digitalizationBudget <= hi
    ensures forall c :: c in cities[..|cities| - 1] ==> lo <= c.digitalizationBudget <= hi
    ensures lo <= cities[|cities| - 1].digitalizationBudget <= hi
  {
    forall c | c in cities[..|cities| - 1] ensures lo <= c.digitalizationBudget <= hi {
      assert c in cities;
    }
    assert cities[|cities| - 1] in cities;
  }

  /** Adding one value within [lo, hi] to a sum of m such values. */
  lemma BoundsStep(m: real, lo: real, hi: real, t: real, b: real)
    requires m * lo <= t <= m * hi && lo <= b <= hi
    ensures (m + 1.0) * lo <= t + b <= (m + 1.0) * hi
  {
    assert (m + 1.0) * lo == m * lo + lo;
    assert (m + 1.0) * hi == m * hi + hi;
  }

  lemma AverageBudgetBounds(cities: seq<City>, lo: real, hi: real)
    requires forall c :: c in cities ==> lo <= c.digitalizationBudget <= hi
    ensures |cities| == 0 ==> AverageBudget(cities) == 0.0
    ensures |cities| > 0 ==> lo <= AverageBudget(cities) <= hi
  {
    if |cities| > 0 {
      TotalBudgetBounds(cities, lo, hi);
      var n := |cities| as real;
      assert TotalBudget(cities) / n >= lo by {
        assert TotalBudget(cities) >= n * lo;
      }
      assert TotalBudget(cities) / n <= hi by {
        assert TotalBudget(cities) <= n * hi;
      }
    }
  }
}
