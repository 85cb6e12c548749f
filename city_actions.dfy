/**
 * The pure parts of the city server actions (app/actions/cities.ts): the row
 * `createCity` inserts, the fallback of `getCities`, and the `getCityStats`
 * aggregation. The store's answers are parameters.
 */
module CityActions {
  import opened Wrappers
  import opened Records
  import Seqs

  /** `CityInput`: what the forms send; a field the caller leaves out is None. */
  datatype CityInput = CityInput(
    name: string,
    latitude: real,
    longitude: real,
    population: Option<int>,
    digitalizationBudget: Option<real>,
    cityCategory: Option<string>,
    description: Option<string>,
    website: Option<string>)

  /** The row inserted into `cities`: every NOT NULL column has a value. */
  datatype CityRow = CityRow(
    name: string,
    latitude: real,
    longitude: real,
    population: int,
    digitalizationBudget: real,
    cityCategory: string,
    description: Option<string>,
    website: Option<string>)

  /** `??` defaults a missing population, budget or category; `||` turns a missing or empty text into null. */
  function CreateCityRow(input: CityInput): CityRow {
    CityRow(
      input.name,
      input.latitude,
      input.longitude,
      input.population.GetOr(0),
      input.digitalizationBudget.GetOr(0.0),
      input.cityCategory.GetOr(CategoryName(Kleinstadt)),
      if TruthyText(input.description) then input.description else None,
      if TruthyText(input.website) then input.website else None)
  }

  /**
   * Provided values, 0 included, are kept and missing ones become 0 or
   * 'Kleinstadt'; description and website are null exactly when missing or empty.
   */
  lemma CreateCityRowDefaults(input: CityInput)
    ensures var row := CreateCityRow(input);
      && (input.population.Some? ==> row.population == input.population.value)
      && (input.population.None? ==> row.population == 0)
      && (input.digitalizationBudget.Some? ==> row.digitalizationBudget == input.digitalizationBudget.value)
      && (input.digitalizationBudget.None? ==> row.digitalizationBudget == 0.0)
      && (input.cityCategory.Some? ==> row.cityCategory == input.cityCategory.value)
      && (input.cityCategory.None? ==> row.cityCategory == "Kleinstadt")
      && (row.description.None? <==> (input.description.None? || input.description.value == ""))
      && (row.description.Some? ==> row.description == input.description)
      && (row.website.None? <==> (input.website.None? || input.website.value == ""))
      && (row.website.Some? ==> row.website == input.website)
      && row.name == input.name && row.latitude == input.latitude && row.longitude == input.longitude
  {
  }

  /** `createCity`: the inserted row, or the store's error rethrown with a German prefix. */
  function CreateCity(input: CityInput, insertError: Option<string>): (r: Result<CityRow>)
    ensures insertError.None? <==> r.Ok?
    ensures r.Ok? ==> r.value == CreateCityRow(input)
    ensures r.Err? ==> r.message == "Fehler beim Erstellen der Stadt: " + insertError.value
  {
    match insertError
    case None => Ok(CreateCityRow(input))
    case Some(m) => Err("Fehler beim Erstellen der Stadt: " + m)
  }

  /** `getCities`: a failed read yields the empty list instead of an error. */
  function GetCities(fetched: Result<seq<City>>): (r: seq<City>)
    ensures fetched.Ok? ==> r == fetched.value
    ensures fetched.Err? ==> r == []
  {
    if fetched.Ok? then fetched.value else []
  }

  /** The three columns `getCityStats` selects; the columns may be null in the answer. */
  datatype StatsRow = StatsRow(cityCategory: Option<string>, population: Option<int>, digitalizationBudget: Option<real>)

  datatype CityStats = CityStats(
    total: nat,
    totalPopulation: int,
    totalBudget: real,
    grossstadt: nat,
    mittelstadt: nat,
    kleinstadt: nat)

  /** `sum + (city.population || 0)` over the rows. */
  function TotalPopulation(rows: seq<StatsRow>): int {
    if rows == [] then 0
    else TotalPopulation(rows[..|rows| - 1]) + rows[|rows| - 1].population.GetOr(0)
  }

  /** `sum + (city.digitalization_budget || 0)` over the rows. */
  function TotalBudget(rows: seq<StatsRow>): real {
    if rows == [] then 0.0
    else TotalBudget(rows[..|rows| - 1]) + rows[|rows| - 1].digitalizationBudget.GetOr(0.0)
  }

  function InCategory(name: string): StatsRow -> bool {
    (r: StatsRow) => r.cityCategory == Some(name)
  }

  function CountCategory(rows: seq<StatsRow>, c: CityCategory): (r: nat)
    ensures r <= |rows|
  {
    |Seqs.Filter(rows, InCategory(CategoryName(c)))|
  }

  function Stats(rows: seq<StatsRow>): CityStats {
    CityStats(|rows|, TotalPopulation(rows), TotalBudget(rows),
      CountCategory(rows, Grossstadt), CountCategory(rows, Mittelstadt), CountCategory(rows, Kleinstadt))
  }

  /** `getCityStats`: null when the read fails or returns no data. */
  function GetCityStats(fetched: Result<Option<seq<StatsRow>>>): (r: Option<CityStats>)
    ensures r.Some? <==> fetched.Ok? && fetched.value.Some?
    ensures r.Some? ==> r.value.total == |fetched.value.value|
  {
    if fetched.Err? then None
    else if fetched.value.None? then None
    else Some(Stats(fetched.value.value))
  }

  predicate HasValidCategory(r: StatsRow) {
    r.cityCategory.Some? && ValidCategoryName(r.cityCategory.value)
  }

  /** The sums are additive over the rows: each row contributes its value, or 0 when missing. */
  lemma {:induction false} TotalsAppend(a: seq<StatsRow>, b: seq<StatsRow>)
    ensures TotalPopulation(a + b) == TotalPopulation(a) + TotalPopulation(b)
    ensures TotalBudget(a + b) == TotalBudget(a) + TotalBudget(b)
    decreases |b|
  {
    if b == [] {
      assert a + b == a;
    } else {
      assert (a + b)[..|a + b| - 1] == a + b[..|b| - 1];
      TotalsAppend(a, b[..|b| - 1]);
    }
  }

  lemma {:induction false} CategoryCountsSum(rows: seq<StatsRow>)
    ensures CountCategory(rows, Grossstadt) + CountCategory(rows, Mittelstadt) + CountCategory(rows, Kleinstadt)
      == |Seqs.Filter(rows, HasValidCategory)|
  {
    if rows != [] {
      CategoryCountsSum(rows[1..]);
    }
  }

  /** When every row has one of the three categories, the category counts add up to the total. */
  lemma CategoryCountsCoverTotal(rows: seq<StatsRow>)
    requires forall r :: r in rows ==> HasValidCategory(r)
    ensures var s := Stats(rows); s.grossstadt + s.mittelstadt + s.kleinstadt == s.total
  {
    CategoryCountsSum(rows);
    Seqs.FilterAll(rows, HasValidCategory);
  }

  /** No rows: every statistic is 0. */
  lemma StatsEmpty()
    ensures Stats([]) == CityStats(0, 0, 0.0, 0, 0, 0)
  {
  }
}
