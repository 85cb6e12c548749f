/**
 * The city filter in the sidebar (components/Sidebar/CityFilter.tsx): the
 * button label and the option click, which reports the choice to the parent
 * and closes the menu. The selection itself is the parent's.
 */
module CityFilter {
  import opened Wrappers
  import opened Records
  import opened Text
  import opened Seqs

  datatype CityWithCount = CityWithCount(city: string, count: int)

  function NamedAs(name: string): CityWithCount -> bool {
    (c: CityWithCount) => c.city == name
  }

  /** `getDisplayText`. */
  function DisplayText(cities: seq<CityWithCount>, selectedCity: Option<string>, totalCompanies: int): string {
    if !TruthyText(selectedCity) then
      "Alle St\U{E4}dte (" + IntToString(totalCompanies) + ")"
    else
      var cityData := Find(cities, NamedAs(selectedCity.value));
      var count := if cityData.Some? && cityData.value.count != 0 then cityData.value.count else 0;
      selectedCity.value + " (" + IntToString(count) + ")"
  }

  /** Without a selection the label shows the total; a city missing from the list shows 0. */
  lemma DisplayTextMeaning(cities: seq<CityWithCount>, selectedCity: Option<string>, totalCompanies: int)
    ensures !TruthyText(selectedCity) ==>
      DisplayText(cities, selectedCity, totalCompanies) == "Alle St\U{E4}dte (" + IntToString(totalCompanies) + ")"
    ensures TruthyText(selectedCity) && (forall k :: 0 <= k < |cities| ==> cities[k].city != selectedCity.value) ==>
      DisplayText(cities, selectedCity, totalCompanies) == selectedCity.value + " (0)"
  {
  }

  /** With a selection the label shows the count of the first entry for that city. */
  lemma DisplayTextOfFirstMatch(cities: seq<CityWithCount>, selectedCity: string, totalCompanies: int, i: nat)
    requires selectedCity != ""
    requires i < |cities| && cities[i].city == selectedCity
    requires forall k :: 0 <= k < i ==> cities[k].city != selectedCity
    ensures DisplayText(cities, Some(selectedCity), totalCompanies) == selectedCity + " (" + IntToString(cities[i].count) + ")"
  {
    FindFirst(cities, NamedAs(selectedCity), i);
  }

  /** The menu's state; `reported` lists what `onCitySelect` was called with, None for "all". */
  class FilterMenu {
    var isOpen: bool
    var reported: seq<Option<string>>

    constructor()
      ensures !isOpen && reported == []
    {
      isOpen := false;
      reported := [];
    }

    /** The button flips the menu. */
    method ToggleOpen()
      modifies this
      ensures isOpen == !old(isOpen) && reported == old(reported)
    {
      isOpen := !isOpen;
    }

    /** `handleCityClick`: report the choice once and close. */
    method HandleCityClick(city: Option<string>)
      modifies this
      ensures reported == old(reported) + [city]
      ensures !isOpen
    {
      reported := reported + [city];
      isOpen := false;
    }
  }
}
