/**
 * The admin form for a new city (components/Admin/AddCityForm.tsx): the
 * population classifier, the schema bounds, and the geocode and submit handlers
 * over the form's state. The geocoder's and the store's answers are parameters;
 * `fixed4` renders a coordinate with four decimals.
 */
module AddCityForm {
  import opened Wrappers
  import opened Records
  import CityActions

  /** The order of the categories by size. */
  function Rank(c: CityCategory): nat {
    match c
    case Kleinstadt => 0
    case Mittelstadt => 1
    case Grossstadt => 2
  }

  /** `handlePopulationChange`: 100000 and more is a Großstadt, 20000 and more a Mittelstadt. */
  function Classify(population: int): CityCategory {
    if population >= 100000 then Grossstadt
    else if population >= 20000 then Mittelstadt
    else Kleinstadt
  }

  /** The thresholds, each as an if-and-only-if. */
  lemma ClassifyThresholds(population: int)
    ensures Classify(population) == Grossstadt <==> population >= 100000
    ensures Classify(population) == Mittelstadt <==> 20000 <= population < 100000
    ensures Classify(population) == Kleinstadt <==> population < 20000
  {
  }

  /** A larger population never gives a smaller category. */
  lemma ClassifyMonotone(a: int, b: int)
    requires a <= b
    ensures Rank(Classify(a)) <= Rank(Classify(b))
  {
  }

  /** `parseInt(value) || 0`: an unparseable input (NaN) and 0 both give 0. */
  function PopulationInput(parsed: Option<int>): int {
    if parsed.Some? && parsed.value != 0 then parsed.value else 0
  }

  /** Unparseable input is classified as a Kleinstadt. */
  lemma UnparseableIsKleinstadt()
    ensures Classify(PopulationInput(None)) == Kleinstadt
  {
  }

  /** The submitted form values. */
  datatype CityFormData = CityFormData(
    name: string,
    population: int,
    digitalizationBudget: real,
    cityCategory: string,
    description: Option<string>,
    website: Option<string>)

  /** The schema: `isUrl` stands for zod's URL check. */
  predicate SchemaAccepts(d: CityFormData, isUrl: string -> bool) {
    && |d.name| >= 2
    && 1000 <= d.population <= 10000000
    && 0.0 <= d.digitalizationBudget <= 1000000000.0
    && ValidCategoryName(d.cityCategory)
    && (d.website.None? || d.website.value == "" || isUrl(d.website.value))
  }

  const DefaultPopulation: int := 50000
  const DefaultBudget: real := 1000000.0
  const DefaultCategory: string := "Mittelstadt"

  /**
   * The defaults, with any name of two characters or more, pass the schema, and
   * the default category is the one the classifier gives for the default population.
   */
  lemma DefaultsAccepted(name: string, isUrl: string -> bool)
    requires |name| >= 2
    ensures SchemaAccepts(CityFormData(name, DefaultPopulation, DefaultBudget, DefaultCategory, None, None), isUrl)
    ensures CategoryName(Classify(DefaultPopulation)) == DefaultCategory
  {
  }

  /** The query sent to the geocoder for a city name. */
  function GeocodeQuery(cityName: string): string {
    cityName + ", Niedersachsen, Deutschland"
  }

  /** `createCity`'s argument: the form data with the geocoded coordinates. */
  function Request(d: CityFormData, at: Coordinates): CityActions.CityInput {
    CityActions.CityInput(d.name, at.lat, at.lng, Some(d.population), Some(d.digitalizationBudget),
      Some(d.cityCategory), d.description, d.website)
  }

  /** The request keeps the form's values; the store row differs only where text is empty. */
  lemma RequestRow(d: CityFormData, at: Coordinates)
    ensures var row := CityActions.CreateCityRow(Request(d, at));
      && row.population == d.population && row.digitalizationBudget == d.digitalizationBudget
      && row.cityCategory == d.cityCategory && row.latitude == at.lat && row.longitude == at.lng
  {
  }

  class CityForm {
    var coordinates: Option<Coordinates>
    var error: Option<string>
    var success: Option<string>
    var isGeocoding: bool
    var isSubmitting: bool
    /** The `city_category` value held by the form. */
    var category: string

    constructor ()
      ensures coordinates == None && error == None && success == None
      ensures !isGeocoding && !isSubmitting && category == DefaultCategory
    {
      coordinates := None;
      error := None;
      success := None;
      isGeocoding := false;
      isSubmitting := false;
      category := DefaultCategory;
    }

    /** `setValue('city_category', …)` with the classifier's answer. */
    method HandlePopulationChange(population: int)
      modifies this
      ensures category == CategoryName(Classify(population))
      ensures coordinates == old(coordinates) && error == old(error) && success == old(success)
      ensures isGeocoding == old(isGeocoding) && isSubmitting == old(isSubmitting)
    {
      if population >= 100000 {
        category := CategoryName(Grossstadt);
      } else if population >= 20000 {
        category := CategoryName(Mittelstadt);
      } else {
        category := CategoryName(Kleinstadt);
      }
    }

    /**
     * `handleGeocode`: refused with an error for an empty name, and then no query
     * is sent. Otherwise the query is returned and the geocoder's answer sets the
     * coordinates, or clears them and sets the error.
     */
    method HandleGeocode(cityName: string, answer: Outcome<Coordinates>, fixed4: real -> string)
      returns (query: Option<string>)
      modifies this
      ensures cityName == "" ==> (query == None && error == Some("Bitte Stadtnamen eingeben")
        && coordinates == old(coordinates) && success == old(success) && isGeocoding == old(isGeocoding))
      ensures cityName != "" ==> query == Some(GeocodeQuery(cityName)) && !isGeocoding
      ensures cityName != "" && answer.Done? ==> (coordinates == Some(answer.value) && error == None
        && success == Some("Koordinaten gefunden: " + fixed4(answer.value.lat) + ", " + fixed4(answer.value.lng)))
      ensures cityName != "" && answer.Failed? ==> (coordinates == None
        && error == Some(answer.MessageOr("Geocoding fehlgeschlagen")) && success == old(success))
      ensures category == old(category) && isSubmitting == old(isSubmitting)
    {
      if cityName == "" {
        error := Some("Bitte Stadtnamen eingeben");
        return None;
      }
      isGeocoding := true;
      error := None;
      query := Some(GeocodeQuery(cityName));
      match answer {
        case Done(coords) =>
          coordinates := Some(coords);
          success := Some("Koordinaten gefunden: " + fixed4(coords.lat) + ", " + fixed4(coords.lng));
        case Failed(_) =>
          error := Some(answer.MessageOr("Geocoding fehlgeschlagen"));
          coordinates := None;
      }
      isGeocoding := false;
    }

    /**
     * `onSubmit` (called only with data the schema accepts): without coordinates
     * it sets an error and sends nothing; otherwise it sends the data with the
     * coordinates, and on success clears the coordinates and resets the form.
     */
    method OnSubmit(data: CityFormData, created: Outcome<CityActions.CityRow>)
      returns (request: Option<CityActions.CityInput>)
      modifies this
      ensures old(coordinates).None? ==> (request == None && error == Some("Bitte zuerst Stadt geocodieren")
        && coordinates == old(coordinates) && success == old(success) && category == old(category)
        && isSubmitting == old(isSubmitting))
      ensures old(coordinates).Some? ==> request == Some(Request(data, old(coordinates).value)) && !isSubmitting
      ensures old(coordinates).Some? && created.Done? ==> (coordinates == None && error == None
        && success == Some("✅ Stadt erfolgreich hinzugefügt!") && category == DefaultCategory)
      ensures old(coordinates).Some? && created.Failed? ==> (coordinates == old(coordinates)
        && error == Some(created.MessageOr("Fehler beim Speichern")) && success == None && category == old(category))
      ensures isGeocoding == old(isGeocoding)
    {
      if coordinates.None? {
        error := Some("Bitte zuerst Stadt geocodieren");
        return None;
      }
      isSubmitting := true;
      error := None;
      success := None;
      request := Some(Request(data, coordinates.value));
      match created {
        case Done(_) =>
          success := Some("✅ Stadt erfolgreich hinzugefügt!");
          category := DefaultCategory;
          coordinates := None;
        case Failed(_) =>
          error := Some(created.MessageOr("Fehler beim Speichern"));
      }
      isSubmitting := false;
    }
  }
}
