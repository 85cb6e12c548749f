/**
 * The filter and sort engine of the company list (hooks/useCompanyFilters.ts):
 * a case-insensitive text search over name, description and address, a
 * specialization filter, and a stable sort by name, by creation time, or not at all.
 * `collate(a, b)` stands for `a.localeCompare(b) <= 0`.
 */
module CompanyFilters {
  import opened Wrappers
  import opened Text
  import opened Seqs
  import opened Sorting
  import opened Records

  datatype SortOption = Alphabetical | Newest | Nearest

  datatype FilterState = FilterState(searchQuery: string, selectedSpecializations: seq<string>, sortBy: SortOption)

  const InitialState: FilterState := FilterState("", [], Alphabetical)

  /** `field?.toLowerCase().includes(query)`: a missing field does not match. */
  predicate FieldMatches(field: Option<string>, query: string) {
    field.Some? && Includes(Lower(field.value), Lower(query))
  }

  predicate MatchesSearch(c: Company, query: string) {
    Includes(Lower(c.name), Lower(query)) || FieldMatches(c.description, query) || FieldMatches(c.address, query)
  }

  /** `company.specializations.some(spec => selected.includes(spec.id))`. */
  predicate HasSelectedSpecialization(c: Company, selected: seq<string>) {
    exists i :: 0 <= i < |c.specializations| && c.specializations[i].id in selected
  }

  function SearchFilter(query: string): Company -> bool {
    c => MatchesSearch(c, query)
  }

  function SpecializationFilter(selected: seq<string>): Company -> bool {
    c => HasSelectedSpecialization(c, selected)
  }

  /** The combined condition of both filters; an empty query or selection passes everything. */
  predicate Matches(c: Company, state: FilterState) {
    (state.searchQuery == "" || MatchesSearch(c, state.searchQuery)) &&
    (state.selectedSpecializations == [] || HasSelectedSpecialization(c, state.selectedSpecializations))
  }

  /** `a.name.localeCompare(b.name)` as an ordering of companies. */
  function ByName(collate: (string, string) -> bool): (Company, Company) -> bool {
    (a: Company, b: Company) => collate(a.name, b.name)
  }

  /** `created_at(b) - created_at(a)` as an ordering: newest first. */
  const NewestFirst: (Company, Company) -> bool := (a: Company, b: Company) => a.createdAt >= b.createdAt

  function Filtered(companies: seq<Company>, state: FilterState): seq<Company> {
    var searched := if state.searchQuery == "" then companies else Filter(companies, SearchFilter(state.searchQuery));
    if state.selectedSpecializations == [] then searched
    else Filter(searched, SpecializationFilter(state.selectedSpecializations))
  }

  function SortedBy(companies: seq<Company>, sortBy: SortOption, collate: (string, string) -> bool): seq<Company> {
    match sortBy
    case Alphabetical => SortBy(companies, ByName(collate))
    case Newest => SortBy(companies, NewestFirst)
    case Nearest => companies
  }

  /** The value of the memoised `filteredAndSortedCompanies`. */
  function Apply(companies: seq<Company>, state: FilterState, collate: (string, string) -> bool): seq<Company> {
    SortedBy(Filtered(companies, state), state.sortBy, collate)
  }

  /** The memo body: copy the input, narrow it by each active filter, then sort the copy. */
  method FilterAndSort(companies: seq<Company>, state: FilterState, collate: (string, string) -> bool)
    returns (result: seq<Company>)
    ensures result == Apply(companies, state, collate)
  {
    result := companies;
    if state.searchQuery != "" {
      result := Filter(result, SearchFilter(state.searchQuery));
    }
    if |state.selectedSpecializations| > 0 {
      result := Filter(result, SpecializationFilter(state.selectedSpecializations));
    }
    match state.sortBy {
      case Alphabetical =>
        result := SortBy(result, ByName(collate));
      case Newest =>
        result := SortBy(result, NewestFirst);
      case Nearest =>
    }
  }

  lemma FilteredMultiset(companies: seq<Company>, state: FilterState)
    ensures forall c ::
      multiset(Filtered(companies, state))[c] == if Matches(c, state) then multiset(companies)[c] else 0
  {
    var q, sel := state.searchQuery, state.selectedSpecializations;
    var searched := if q == "" then companies else Filter(companies, SearchFilter(q));
    if q != "" { FilterMultiset(companies, SearchFilter(q)); }
    if sel != [] { FilterMultiset(searched, SpecializationFilter(sel)); }
  }

  lemma SortedByMultiset(companies: seq<Company>, sortBy: SortOption, collate: (string, string) -> bool)
    ensures multiset(SortedBy(companies, sortBy, collate)) == multiset(companies)
  {
  }

  /**
   * The result holds exactly the input companies that pass both filters, each as
   * often as in the input: nothing is invented, nothing that matches is lost.
   */
  lemma ApplyContents(companies: seq<Company>, state: FilterState, collate: (string, string) -> bool)
    ensures forall c ::
      multiset(Apply(companies, state, collate))[c] == if Matches(c, state) then multiset(companies)[c] else 0
    ensures |Apply(companies, state, collate)| <= |companies|
  {
    FilteredMultiset(companies, state);
    SortedByMultiset(Filtered(companies, state), state.sortBy, collate);
  }

  /** A company is kept iff it is an input company and passes the search and the specialization filter. */
  lemma ApplyKeeps(companies: seq<Company>, state: FilterState, collate: (string, string) -> bool, c: Company)
    ensures c in Apply(companies, state, collate) <==>
      c in companies &&
      (state.searchQuery == "" || MatchesSearch(c, state.searchQuery)) &&
      (state.selectedSpecializations == [] || HasSelectedSpecialization(c, state.selectedSpecializations))
  {
    ApplyContents(companies, state, collate);
    assert c in Apply(companies, state, collate) <==> multiset(Apply(companies, state, collate))[c] > 0;
  }

  /** With no query and no selection every company is kept; under 'nearest' even the order is the input's. */
  lemma ApplyWithoutFilters(companies: seq<Company>, state: FilterState, collate: (string, string) -> bool)
    requires state.searchQuery == "" && state.selectedSpecializations == []
    ensures multiset(Apply(companies, state, collate)) == multiset(companies)
    ensures state.sortBy == Nearest ==> Apply(companies, state, collate) == companies
  {
    SortedByMultiset(companies, state.sortBy, collate);
  }

  lemma ByNameIsTotalPreorder(collate: (string, string) -> bool)
    requires TotalPreorder(collate)
    ensures TotalPreorder(ByName(collate))
  {
    var le := ByName(collate);
    forall a, b ensures le(a, b) || le(b, a) {
      assert collate(a.name, b.name) || collate(b.name, a.name);
    }
    forall a, b, c | le(a, b) && le(b, c) ensures le(a, c) {
      assert collate(a.name, b.name) && collate(b.name, c.name);
    }
  }

  lemma NewestFirstIsTotalPreorder()
    ensures TotalPreorder(NewestFirst)
  {
  }

  /**
   * The three orders: names ascending, creation times descending, or the filtered
   * order untouched. Companies with equal keys keep their input order (stability).
   */
  lemma ApplyOrder(companies: seq<Company>, state: FilterState, collate: (string, string) -> bool)
    requires TotalPreorder(collate)
    ensures var r := Apply(companies, state, collate);
      && (state.sortBy == Alphabetical ==> forall i, j :: 0 <= i < j < |r| ==> collate(r[i].name, r[j].name))
      && (state.sortBy == Newest ==> forall i, j :: 0 <= i < j < |r| ==> r[i].createdAt >= r[j].createdAt)
      && (state.sortBy == Nearest ==> r == Filtered(companies, state))
    ensures state.sortBy == Alphabetical ==> forall y ::
      ClassOf(Apply(companies, state, collate), y, ByName(collate)) == ClassOf(Filtered(companies, state), y, ByName(collate))
    ensures state.sortBy == Newest ==> forall y ::
      ClassOf(Apply(companies, state, collate), y, NewestFirst) == ClassOf(Filtered(companies, state), y, NewestFirst)
  {
    var f := Filtered(companies, state);
    match state.sortBy {
      case Alphabetical =>
        ByNameIsTotalPreorder(collate);
        SortBySorted(f, ByName(collate));
        forall y ensures ClassOf(SortBy(f, ByName(collate)), y, ByName(collate)) == ClassOf(f, y, ByName(collate)) {
          SortByStable(f, y, ByName(collate));
        }
      case Newest =>
        NewestFirstIsTotalPreorder();
        SortBySorted(f, NewestFirst);
        forall y ensures ClassOf(SortBy(f, NewestFirst), y, NewestFirst) == ClassOf(f, y, NewestFirst) {
          SortByStable(f, y, NewestFirst);
        }
      case Nearest =>
    }
  }

  /** Applying the same filter state to an already filtered and sorted list returns it unchanged. */
  lemma ApplyIdempotent(companies: seq<Company>, state: FilterState, collate: (string, string) -> bool)
    requires TotalPreorder(collate)
    ensures Apply(Apply(companies, state, collate), state, collate) == Apply(companies, state, collate)
  {
    var r := Apply(companies, state, collate);
    ApplyContents(companies, state, collate);
    assert forall c :: c in r ==> Matches(c, state) by {
      forall c | c in r ensures Matches(c, state) {
        assert multiset(r)[c] > 0;
      }
    }
    var q, sel := state.searchQuery, state.selectedSpecializations;
    if q != "" { FilterAll(r, SearchFilter(q)); }
    if sel != [] { FilterAll(r, SpecializationFilter(sel)); }
    assert Filtered(r, state) == r;
    ApplyOrder(companies, state, collate);
    match state.sortBy {
      case Alphabetical => SortBySortedIsIdentity(r, ByName(collate));
      case Newest => SortBySortedIsIdentity(r, NewestFirst);
      case Nearest =>
    }
  }

  // ---- Filter-state transitions ----

  function NotEqualTo(id: string): string -> bool {
    x => x != id
  }

  /** Removes every copy of a selected id, or appends an id that is not selected. */
  function Toggled(selected: seq<string>, id: string): seq<string> {
    if id in selected then Filter(selected, NotEqualTo(id)) else selected + [id]
  }

  /** After a toggle, id is selected iff it was not before; no other id changes. */
  lemma ToggledMembership(selected: seq<string>, id: string)
    ensures forall x :: x in Toggled(selected, id) <==> if x == id then id !in selected else x in selected
  {
    if id in selected {
      FilterMembership(selected, NotEqualTo(id));
    }
  }

  /** Toggling keeps a selection free of duplicates. */
  lemma ToggledNoDuplicates(selected: seq<string>, id: string)
    requires NoDuplicates(selected)
    ensures NoDuplicates(Toggled(selected, id))
  {
    if id in selected {
      FilterNoDuplicates(selected, NotEqualTo(id));
    }
  }

  /**
   * Toggling twice restores the selection: exactly when the id was absent, and as a
   * set of ids when it was present (it then moves to the end of the list).
   */
  lemma ToggledTwice(selected: seq<string>, id: string)
    ensures forall x :: x in Toggled(Toggled(selected, id), id) <==> x in selected
    ensures id !in selected ==> Toggled(Toggled(selected, id), id) == selected
  {
    ToggledMembership(selected, id);
    ToggledMembership(Toggled(selected, id), id);
    if id !in selected {
      FilterAppend(selected, [id], NotEqualTo(id));
      FilterAll(selected, NotEqualTo(id));
      assert Filter([id], NotEqualTo(id)) == [];
    }
  }

  function SetSearchQuery(state: FilterState, query: string): (r: FilterState)
    ensures r.searchQuery == query
    ensures r.selectedSpecializations == state.selectedSpecializations && r.sortBy == state.sortBy
  {
    state.(searchQuery := query)
  }

  function ToggleSpecialization(state: FilterState, id: string): (r: FilterState)
    ensures forall x :: x in r.selectedSpecializations <==> if x == id then id !in state.selectedSpecializations else x in state.selectedSpecializations
    ensures r.searchQuery == state.searchQuery && r.sortBy == state.sortBy
  {
    ToggledMembership(state.selectedSpecializations, id);
    state.(selectedSpecializations := Toggled(state.selectedSpecializations, id))
  }

  function SetSortBy(state: FilterState, sortBy: SortOption): (r: FilterState)
    ensures r.sortBy == sortBy
    ensures r.searchQuery == state.searchQuery && r.selectedSpecializations == state.selectedSpecializations
  {
    state.(sortBy := sortBy)
  }

  /** Clearing returns the initial state, under which every company is kept, sorted by name. */
  function ClearFilters(): (r: FilterState)
    ensures r.searchQuery == "" && r.selectedSpecializations == [] && r.sortBy == Alphabetical
  {
    InitialState
  }
}
