/**
 * The city dropdown on the map (components/Map/CityDropdown.tsx): the cities
 * sorted by name from a copy, the selection test, the icon table with its
 * default, the row of at most three icons, and the click handler that selects,
 * closes and reports a city. `collate(a, b)` stands for
 * `a.localeCompare(b, 'de') <= 0`.
 */
module CityDropdown {
  import opened Wrappers
  import opened Records
  import opened Text
  import opened Sorting

  function ByCityName(collate: (string, string) -> bool): (City, City) -> bool {
    (a: City, b: City) => collate(a.name, b.name)
  }

  lemma ByCityNameIsTotalPreorder(collate: (string, string) -> bool)
    requires TotalPreorder(collate)
    ensures TotalPreorder(ByCityName(collate))
  {
    var le := ByCityName(collate);
    forall a, b ensures le(a, b) || le(b, a) {
      assert collate(a.name, b.name) || collate(b.name, a.name);
    }
    forall a, b, c | le(a, b) && le(b, c) ensures le(a, c) {
      assert collate(a.name, b.name) && collate(b.name, c.name);
    }
  }

  /** `sortedCities`: `[...cities].sort(...)`, so the prop itself keeps its order. */
  function SortedCities(cities: seq<City>, collate: (string, string) -> bool): seq<City> {
    SortBy(cities, ByCityName(collate))
  }

  /**
   * The sorted list holds the same cities as often as the prop does, ordered by
   * name, and cities with equal names keep their relative order.
   */
  lemma SortedCitiesMeaning(cities: seq<City>, collate: (string, string) -> bool)
    requires TotalPreorder(collate)
    ensures var r := SortedCities(cities, collate);
      multiset(r) == multiset(cities)
      && (forall i, j :: 0 <= i < j < |r| ==> collate(r[i].name, r[j].name))
      && (forall c :: ClassOf(r, c, ByCityName(collate)) == ClassOf(cities, c, ByCityName(collate)))
  {
    ByCityNameIsTotalPreorder(collate);
    SortBySorted(cities, ByCityName(collate));
    forall c ensures ClassOf(SortedCities(cities, collate), c, ByCityName(collate)) == ClassOf(cities, c, ByCityName(collate)) {
      SortByStable(cities, c, ByCityName(collate));
    }
  }

  /** `isSameCity`: a null or empty selected name matches no city. */
  predicate IsSameCity(city: City, selectedName: Option<string>) {
    if TruthyText(selectedName) then city.name == selectedName.value else false
  }

  lemma IsSameCityMeaning(city: City, selectedName: Option<string>)
    ensures !TruthyText(selectedName) ==> !IsSameCity(city, selectedName)
    ensures IsSameCity(city, selectedName) <==> selectedName == Some(city.name) && city.name != ""
  {
  }

  const DefaultIcon := "\U{1F4CD}"

  /** The icon table of `getSpecializationIcon`. */
  const Icons: map<string, string> := map[
    "Cloud-Migration" := "\U{2601}\U{FE0F}",
    "Cybersecurity" := "\U{1F512}",
    "Digitalisierung" := "\U{1F4F1}",
    "KI-Beratung" := "\U{1F916}",
    "Prozessoptimierung" := "\U{2699}\U{FE0F}"]

  /** `icons[spec] || '📍'`. */
  function Icon(spec: string): string {
    if spec in Icons && Icons[spec] != "" then Icons[spec] else DefaultIcon
  }

  /** The five table names get their own icon; every other name gets the pin. */
  lemma IconMeaning(spec: string)
    ensures spec in Icons ==> Icon(spec) == Icons[spec]
    ensures Icon(spec) == DefaultIcon <==> spec !in Icons
    ensures Icon(spec) != ""
  {
  }

  const MaxIcons := 3

  /** `specializations.slice(0, 3).map(getSpecializationIcon)`. */
  function ShownIcons(specs: seq<string>): (r: seq<string>)
    ensures |r| == if |specs| < MaxIcons then |specs| else MaxIcons
    ensures forall i :: 0 <= i < |r| ==> r[i] == Icon(specs[i])
  {
    var shown := if |specs| <= MaxIcons then specs else specs[..MaxIcons];
    seq(|shown|, i requires 0 <= i < |shown| => Icon(shown[i]))
  }

  /** The `+k` label after the icons. */
  function MoreLabel(specs: seq<string>): Option<string> {
    if |specs| > MaxIcons then Some("+" + IntToString(|specs| - MaxIcons)) else None
  }

  /** The icon row is rendered for a non-empty list. */
  predicate ShowsIconRow(city: City) {
    city.specializations.Some? && |city.specializations.value| > 0
  }

  /** At most three icons; the label appears exactly when some are hidden, and counts them. */
  lemma IconRowMeaning(specs: seq<string>)
    ensures |ShownIcons(specs)| <= MaxIcons
    ensures MoreLabel(specs).Some? <==> |ShownIcons(specs)| < |specs|
    ensures MoreLabel(specs).Some? ==> MoreLabel(specs).value == "+" + IntToString(|specs| - |ShownIcons(specs)|)
  {
  }

  /** The button text: the selected city's name, or the prompt. */
  function ButtonLabel(selected: Option<City>): string {
    if selected.Some? then selected.value.name else "\U{1F3D9}\U{FE0F} St\U{E4}dte ausw\U{E4}hlen"
  }

  /** The row of the selected city is highlighted: `selectedCity?.id === city.id`. */
  predicate Highlighted(selected: Option<City>, city: City) {
    selected.Some? && selected.value.id == city.id
  }

  /** The dropdown's state; `reported` lists the cities passed to `onCitySelect`, in order. */
  class Dropdown {
    var isOpen: bool
    var selectedCity: Option<City>
    var reported: seq<City>

    constructor()
      ensures !isOpen && selectedCity == None && reported == []
    {
      isOpen := false;
      selectedCity := None;
      reported := [];
    }

    /** The button flips the menu. */
    method ToggleOpen()
      modifies this
      ensures isOpen == !old(isOpen)
      ensures selectedCity == old(selectedCity) && reported == old(reported)
    {
      isOpen := !isOpen;
    }

    /** A click outside the menu closes it. */
    method CloseFromOutside()
      modifies this
      ensures !isOpen
      ensures selectedCity == old(selectedCity) && reported == old(reported)
    {
      isOpen := false;
    }

    /** `handleCityClick`: select, close, and report the city once. */
    method HandleCityClick(city: City)
      modifies this
      ensures selectedCity == Some(city) && !isOpen
      ensures reported == old(reported) + [city]
      ensures ButtonLabel(selectedCity) == city.name && Highlighted(selectedCity, city)
    {
      selectedCity := Some(city);
      isOpen := false;
      reported := reported + [city];
    }
  }
}
