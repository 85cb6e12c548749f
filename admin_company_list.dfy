/**
 * The admin company list (components/Admin/CompanyList.tsx): its filter effect,
 * which searches name or city and narrows to one exact city, and the city
 * drop-down, whose options are the distinct cities in default sort order, each
 * with its number of companies.
 */
module AdminCompanyList {
  import opened Wrappers
  import opened Text
  import opened Records
  import opened Seqs
  import opened Sorting

  /** The select's value for "every city". */
  const AllCities := "all"

  /** The search callback: the lower-cased query occurs in the lower-cased name or city. */
  function NameOrCityMatches(query: string): AdminCompany -> bool {
    (c: AdminCompany) => Includes(Lower(c.name), Lower(query)) || Includes(Lower(c.city), Lower(query))
  }

  /** The city callback: exact, case-sensitive equality. */
  function InCity(city: string): AdminCompany -> bool {
    (c: AdminCompany) => c.city == city
  }

  /** What the filter effect leaves in `filteredCompanies`. */
  function AdminFiltered(companies: seq<AdminCompany>, query: string, city: string): seq<AdminCompany> {
    var searched := if query != "" then Filter(companies, NameOrCityMatches(query)) else companies;
    if city != AllCities then Filter(searched, InCity(city)) else searched
  }

  /** The filter's decision on one company. */
  predicate Kept(c: AdminCompany, query: string, city: string) {
    (query == "" || Includes(Lower(c.name), Lower(query)) || Includes(Lower(c.city), Lower(query)))
    && (city == AllCities || c.city == city)
  }

  lemma AdminFilteredMembership(companies: seq<AdminCompany>, query: string, city: string, c: AdminCompany)
    ensures c in AdminFiltered(companies, query, city) <==> c in companies && Kept(c, query, city)
  {
    var searched := if query != "" then Filter(companies, NameOrCityMatches(query)) else companies;
    if query != "" {
      FilterMembership(companies, NameOrCityMatches(query));
    }
    if city != AllCities {
      FilterMembership(searched, InCity(city));
    }
  }

  lemma AdminFilteredSubsequence(companies: seq<AdminCompany>, query: string, city: string)
    ensures IsSubsequence(AdminFiltered(companies, query, city), companies)
  {
    if query != "" && city != AllCities {
      var both := (c: AdminCompany) => NameOrCityMatches(query)(c) && InCity(city)(c);
      FilterFilter(companies, NameOrCityMatches(query), InCity(city), both);
      FilterIsSubsequence(companies, both);
    } else if query != "" {
      FilterIsSubsequence(companies, NameOrCityMatches(query));
    } else if city != AllCities {
      FilterIsSubsequence(companies, InCity(city));
    } else {
      SubsequenceReflexive(companies);
    }
  }

  /**
   * A company is kept iff the query is empty or found in its name or city, and the
   * selection is "all" or its city; the result keeps the input order.
   */
  lemma AdminFilteredMeaning(companies: seq<AdminCompany>, query: string, city: string)
    ensures var r := AdminFiltered(companies, query, city);
      (forall c :: c in r <==> c in companies && Kept(c, query, city))
      && IsSubsequence(r, companies)
      && |r| <= |companies|
  {
    forall c ensures c in AdminFiltered(companies, query, city) <==> c in companies && Kept(c, query, city) {
      AdminFilteredMembership(companies, query, city, c);
    }
    AdminFilteredSubsequence(companies, query, city);
  }

  /** An empty query with "all" selected shows the whole list. */
  lemma AdminFilteredIdentity(companies: seq<AdminCompany>)
    ensures AdminFiltered(companies, "", AllCities) == companies
  {
  }

  /** The companies of one city, `companies.filter(c => c.city === city).length`. */
  function CityCount(companies: seq<AdminCompany>, city: string): nat {
    |Filter(companies, InCity(city))|
  }

  const ByCodeUnits: (string, string) -> bool := (a: string, b: string) => CodeUnitLe(a, b)

  lemma ByCodeUnitsIsTotalPreorder()
    ensures TotalPreorder(ByCodeUnits)
  {
    forall a, b ensures ByCodeUnits(a, b) || ByCodeUnits(b, a) {
      CodeUnitLeTotal(a, b);
    }
    forall a, b, c | ByCodeUnits(a, b) && ByCodeUnits(b, c) ensures ByCodeUnits(a, c) {
      CodeUnitLeTransitive(a, b, c);
    }
  }

  /** `Array.from(new Set(companies.map(c => c.city))).sort()`. */
  function CityOptions(companies: seq<AdminCompany>): seq<string> {
    SortBy(Dedup(CompanyCities(companies)), ByCodeUnits)
  }

  /** The options are sorted, without repeats, and exactly the cities that occur. */
  lemma CityOptionsMeaning(companies: seq<AdminCompany>)
    ensures var r := CityOptions(companies);
      Sorted(r, ByCodeUnits)
      && NoDuplicates(r)
      && forall x :: x in r <==> exists c :: c in companies && c.city == x
  {
    var d := Dedup(CompanyCities(companies));
    var r := CityOptions(companies);
    ByCodeUnitsIsTotalPreorder();
    SortBySorted(d, ByCodeUnits);
    DedupFacts(CompanyCities(companies));
    NoDuplicatesPermutation(d, r);
    forall x ensures x in r <==> exists c :: c in companies && c.city == x {
      assert x in r <==> x in multiset(r);
      assert x in d <==> x in multiset(d);
      if x in CompanyCities(companies) {
        var i :| 0 <= i < |companies| && CompanyCities(companies)[i] == x;
        assert companies[i] in companies;
      }
      if c :| c in companies && c.city == x {
        var i :| 0 <= i < |companies| && companies[i] == c;
        assert CompanyCities(companies)[i] == x;
      }
    }
  }

  /** Counting one city's companies is counting its occurrences among the cities. */
  lemma {:induction false} CityCountIsOcc(companies: seq<AdminCompany>, city: string)
    ensures CityCount(companies, city) == Occ(CompanyCities(companies), city)
  {
    if companies != [] {
      var init, last := companies[..|companies| - 1], companies[|companies| - 1];
      assert companies == init + [last];
      CityCountIsOcc(init, city);
      FilterAppend(init, [last], InCity(city));
      assert CompanyCities(companies)[..|companies| - 1] == CompanyCities(init);
    }
  }

  /** The sum of the shown counts over a list of cities. */
  function SumCounts(companies: seq<AdminCompany>, cities: seq<string>): nat {
    if cities == [] then 0 else SumCounts(companies, cities[..|cities| - 1]) + CityCount(companies, cities[|cities| - 1])
  }

  lemma {:induction false} SumCountsIsSumOcc(companies: seq<AdminCompany>, cities: seq<string>)
    ensures SumCounts(companies, cities) == SumOcc(cities, CompanyCities(companies))
  {
    if cities != [] {
      SumCountsIsSumOcc(companies, cities[..|cities| - 1]);
      CityCountIsOcc(companies, cities[|cities| - 1]);
    }
  }

  /** The counts shown beside the options add up to the number of companies. */
  lemma CityCountsCoverAll(companies: seq<AdminCompany>)
    ensures SumCounts(companies, CityOptions(companies)) == |companies|
  {
    var r := CityOptions(companies);
    CityOptionsMeaning(companies);
    SumCountsIsSumOcc(companies, r);
    forall x | x in CompanyCities(companies) ensures x in r {
      var i :| 0 <= i < |companies| && CompanyCities(companies)[i] == x;
      assert companies[i] in companies;
    }
    SumOccCoversAll(r, CompanyCities(companies));
  }

  /** The list's state: the loaded companies, the shown subset and the two filter inputs. */
  class CompanyListView {
    var companies: seq<AdminCompany>
    var filteredCompanies: seq<AdminCompany>
    var loading: bool
    var searchQuery: string
    var selectedCity: string

    constructor()
      ensures companies == [] && filteredCompanies == [] && loading
      ensures searchQuery == "" && selectedCity == AllCities
    {
      companies := [];
      filteredCompanies := [];
      loading := true;
      searchQuery := "";
      selectedCity := AllCities;
    }

    /** `loadCompanies`: a successful fetch replaces both lists; a failure keeps them. */
    method LoadCompanies(fetched: Result<seq<AdminCompany>>)
      modifies this
      ensures fetched.Ok? ==> companies == fetched.value && filteredCompanies == fetched.value
      ensures fetched.Err? ==> companies == old(companies) && filteredCompanies == old(filteredCompanies)
      ensures !loading && searchQuery == old(searchQuery) && selectedCity == old(selectedCity)
    {
      loading := true;
      if fetched.Ok? {
        companies := fetched.value;
        filteredCompanies := fetched.value;
      }
      loading := false;
    }

    method SetSearchQuery(query: string)
      modifies this
      ensures searchQuery == query
      ensures companies == old(companies) && filteredCompanies == old(filteredCompanies)
      ensures loading == old(loading) && selectedCity == old(selectedCity)
    {
      searchQuery := query;
    }

    method SetSelectedCity(city: string)
      modifies this
      ensures selectedCity == city
      ensures companies == old(companies) && filteredCompanies == old(filteredCompanies)
      ensures loading == old(loading) && searchQuery == old(searchQuery)
    {
      selectedCity := city;
    }

    /** The filter effect, run after any change of the query, the city or the companies. */
    method RunFilterEffect()
      modifies this
      ensures filteredCompanies == AdminFiltered(companies, searchQuery, selectedCity)
      ensures forall c :: c in filteredCompanies <==> c in companies && Kept(c, searchQuery, selectedCity)
      ensures IsSubsequence(filteredCompanies, companies)
      ensures companies == old(companies) && loading == old(loading)
      ensures searchQuery == old(searchQuery) && selectedCity == old(selectedCity)
    {
      var filtered := companies;
      if searchQuery != "" {
        filtered := Filter(filtered, NameOrCityMatches(searchQuery));
      }
      if selectedCity != AllCities {
        filtered := Filter(filtered, InCity(selectedCity));
      }
      filteredCompanies := filtered;
      AdminFilteredMeaning(companies, searchQuery, selectedCity);
    }
  }
}
