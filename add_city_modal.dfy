/**
 * The modal for a new city (components/Modal/AddCityModal.tsx): its classifier,
 * its looser schema, the `cityData` defaulting on submit, and the handlers over
 * the modal's state.
 */
module AddCityModal {
  import opened Wrappers
  import opened Records
  import CityActions
  import AddCityForm

  /**
   * `handlePopulationChange`: non-positive populations give a Kleinstadt, others
   * use the 100000/20000 thresholds, so it agrees with the admin form everywhere.
   */
  function Classify(population: int): (r: CityCategory)
    ensures r == AddCityForm.Classify(population)
  {
    if population > 0 then
      if population >= 100000 then Grossstadt
      else if population >= 20000 then Mittelstadt
      else Kleinstadt
    else Kleinstadt
  }

  /** The modal's values; optional fields are None when left out. */
  datatype ModalFormData = ModalFormData(
    name: string,
    population: Option<int>,
    digitalizationBudget: Option<real>,
    cityCategory: Option<string>,
    description: Option<string>,
    website: Option<string>,
    specializations: Option<seq<string>>)

  predicate SchemaAccepts(d: ModalFormData, isUrl: string -> bool) {
    && |d.name| >= 2
    && (d.population.None? || 0 <= d.population.value <= 10000000)
    && (d.digitalizationBudget.None? || 0.0 <= d.digitalizationBudget.value <= 1000000000.0)
    && (d.cityCategory.None? || ValidCategoryName(d.cityCategory.value))
    && (d.website.None? || d.website.value == "" || isUrl(d.website.value))
  }

  const DefaultPopulation: int := 0
  const DefaultBudget: real := 0.0
  const DefaultCategory: string := "Kleinstadt"

  /** The defaults pass the schema and agree with the classifier. */
  lemma DefaultsAccepted(name: string, isUrl: string -> bool)
    requires |name| >= 2
    ensures SchemaAccepts(ModalFormData(name, Some(DefaultPopulation), Some(DefaultBudget), Some(DefaultCategory), None, None, None), isUrl)
    ensures CategoryName(Classify(DefaultPopulation)) == DefaultCategory
  {
  }

  /** What `createCity` receives: `cityData`, with `||` defaults. */
  datatype CityData = CityData(input: CityActions.CityInput, specializations: seq<string>)

  function NumberOr(x: Option<int>): int {
    if x.Some? && x.value != 0 then x.value else 0
  }

  function AmountOr(x: Option<real>): real {
    if x.Some? && x.value != 0.0 then x.value else 0.0
  }

  function MakeCityData(d: ModalFormData, at: Coordinates): CityData {
    CityData(
      CityActions.CityInput(d.name, at.lat, at.lng, Some(NumberOr(d.population)), Some(AmountOr(d.digitalizationBudget)),
        Some(TextOr(d.cityCategory, DefaultCategory)), d.description, d.website),
      d.specializations.GetOr([]))
  }

  /**
   * Through `cityData` and `createCity` together: a missing population or budget
   * is stored as 0, a missing category as 'Kleinstadt', and specializations
   * default to the empty list; coordinates come from the geocoder.
   */
  lemma StoredDefaults(d: ModalFormData, at: Coordinates)
    ensures var data := MakeCityData(d, at);
      var row := CityActions.CreateCityRow(data.input);
      && row.population == d.population.GetOr(0)
      && row.digitalizationBudget == d.digitalizationBudget.GetOr(0.0)
      && (d.cityCategory.Some? && d.cityCategory.value != "" ==> row.cityCategory == d.cityCategory.value)
      && (d.cityCategory.None? ==> row.cityCategory == "Kleinstadt")
      && (d.specializations.None? ==> data.specializations == [])
      && (d.specializations.Some? ==> data.specializations == d.specializations.value)
      && row.latitude == at.lat && row.longitude == at.lng
  {
  }

  datatype StatusKind = Success | Error

  datatype Status = Status(kind: StatusKind, text: string)

  class CityModal {
    var coordinates: Option<Coordinates>
    var status: Option<Status>
    var isGeocoding: bool
    var isSubmitting: bool
    var category: string

    constructor ()
      ensures coordinates == None && status == None && !isGeocoding && !isSubmitting
      ensures category == DefaultCategory
    {
      coordinates := None;
      status := None;
      isGeocoding := false;
      isSubmitting := false;
      category := DefaultCategory;
    }

    method HandlePopulationChange(population: int)
      modifies this
      ensures category == CategoryName(Classify(population))
      ensures coordinates == old(coordinates) && status == old(status)
      ensures isGeocoding == old(isGeocoding) && isSubmitting == old(isSubmitting)
    {
      if population > 0 {
        if population >= 100000 {
          category := CategoryName(Grossstadt);
        } else if population >= 20000 {
          category := CategoryName(Mittelstadt);
        } else {
          category := CategoryName(Kleinstadt);
        }
      } else {
        category := CategoryName(Kleinstadt);
      }
    }

    /** `handleGeocode`: as in the admin form, with the outcome shown as a status. */
    method HandleGeocode(cityName: string, answer: Outcome<Coordinates>, fixed4: real -> string)
      returns (query: Option<string>)
      modifies this
      ensures cityName == "" ==> (query == None && status == Some(Status(Error, "Bitte Stadtnamen eingeben"))
        && coordinates == old(coordinates) && isGeocoding == old(isGeocoding))
      ensures cityName != "" ==> query == Some(AddCityForm.GeocodeQuery(cityName)) && !isGeocoding
      ensures cityName != "" && answer.Done? ==> (coordinates == Some(answer.value)
        && status == Some(Status(Success, "✓ Koordinaten: " + fixed4(answer.value.lat) + ", " + fixed4(answer.value.lng))))
      ensures cityName != "" && answer.Failed? ==> (coordinates == None
        && status == Some(Status(Error, answer.MessageOr("Geocoding fehlgeschlagen"))))
      ensures category == old(category) && isSubmitting == old(isSubmitting)
    {
      if cityName == "" {
        status := Some(Status(Error, "Bitte Stadtnamen eingeben"));
        return None;
      }
      isGeocoding := true;
      status := None;
      query := Some(cityName + ", Niedersachsen, Deutschland");
      match answer {
        case Done(coords) =>
          coordinates := Some(coords);
          status := Some(Status(Success, "✓ Koordinaten: " + fixed4(coords.lat) + ", " + fixed4(coords.lng)));
        case Failed(_) =>
          status := Some(Status(Error, answer.MessageOr("Geocoding fehlgeschlagen")));
          coordinates := None;
      }
      isGeocoding := false;
    }

    /**
     * `onSubmit`: without coordinates it shows an error and never calls
     * `createCity`; otherwise it sends `cityData` and shows the outcome. The
     * reset after success happens later, in `AfterSuccessDelay`.
     */
    method OnSubmit(data: ModalFormData, created: Outcome<CityActions.CityRow>)
      returns (request: Option<CityData>)
      modifies this
      ensures old(coordinates).None? ==> (request == None && status == Some(Status(Error, "Bitte zuerst Stadt geocodieren"))
        && isSubmitting == old(isSubmitting))
      ensures old(coordinates).Some? ==> request == Some(MakeCityData(data, old(coordinates).value)) && !isSubmitting
      ensures old(coordinates).Some? && created.Done? ==> status == Some(Status(Success, "✅ Stadt erfolgreich hinzugefügt!"))
      ensures old(coordinates).Some? && created.Failed? ==> status == Some(Status(Error, created.MessageOr("Fehler beim Speichern")))
      ensures coordinates == old(coordinates) && category == old(category) && isGeocoding == old(isGeocoding)
    {
      if coordinates.None? {
        status := Some(Status(Error, "Bitte zuerst Stadt geocodieren"));
        return None;
      }
      isSubmitting := true;
      status := None;
      var cityData := MakeCityData(data, coordinates.value);
      request := Some(cityData);
      match created {
        case Done(_) =>
          status := Some(Status(Success, "✅ Stadt erfolgreich hinzugefügt!"));
        case Failed(_) =>
          status := Some(Status(Error, created.MessageOr("Fehler beim Speichern")));
      }
      isSubmitting := false;
    }

    /** The delayed callback after a successful submit: form reset, coordinates and status cleared. */
    method AfterSuccessDelay()
      modifies this
      ensures coordinates == None && status == None && category == DefaultCategory
      ensures isGeocoding == old(isGeocoding) && isSubmitting == old(isSubmitting)
    {
      category := DefaultCategory;
      coordinates := None;
      status := None;
    }
  }
}
