/**
 * The records of the directory: specializations, companies with their joined
 * specializations, and cities. Timestamps are integers; nullable columns are Options.
 */
module Records {
  import opened Wrappers

  datatype Specialization = Specialization(id: string, name: string, icon: string, color: string)

  /** A row of consulting_companies joined with its specializations. */
  datatype Company = Company(
    id: string,
    name: string,
    description: Option<string>,
    address: Option<string>,
    latitude: Option<real>,
    longitude: Option<real>,
    website: Option<string>,
    email: Option<string>,
    phone: Option<string>,
    createdAt: int,
    updatedAt: int,
    specializations: seq<Specialization>)

  /** JavaScript truthiness of a nullable string: null and '' are falsy. */
  predicate TruthyText(s: Option<string>) {
    s.Some? && s.value != ""
  }

  /** JavaScript truthiness of a nullable number: null and 0 are falsy. */
  predicate TruthyNumber(x: Option<real>) {
    x.Some? && x.value != 0.0
  }

  /** `s || fallback` for a nullable string. */
  function TextOr(s: Option<string>, fallback: string): string {
    if TruthyText(s) then s.value else fallback
  }

  datatype Coordinates = Coordinates(lat: real, lng: real)

  datatype CityCategory = Grossstadt | Mittelstadt | Kleinstadt

  /** The category as stored: 'Großstadt', 'Mittelstadt' or 'Kleinstadt'. */
  function CategoryName(c: CityCategory): string {
    match c
    case Grossstadt => "Großstadt"
    case Mittelstadt => "Mittelstadt"
    case Kleinstadt => "Kleinstadt"
  }

  /** A row of the cities table. The category is stored as text. */
  datatype City = City(
    id: string,
    name: string,
    latitude: real,
    longitude: real,
    population: int,
    digitalizationBudget: real,
    cityCategory: string,
    description: Option<string>,
    website: Option<string>,
    specializations: Option<seq<string>>)

  predicate ValidCategoryName(s: string) {
    s == CategoryName(Grossstadt) || s == CategoryName(Mittelstadt) || s == CategoryName(Kleinstadt)
  }

  /**
   * A company as the admin pages read it: the row has a city, coordinates named
   * lat/lng and optional employee count and founding year, and the nested
   * `company_specializations` join may be missing.
   */
  datatype AdminCompany = AdminCompany(
    id: string,
    name: string,
    city: string,
    address: Option<string>,
    lat: Option<real>,
    lng: Option<real>,
    website: Option<string>,
    phone: Option<string>,
    email: Option<string>,
    description: Option<string>,
    employeeCount: Option<int>,
    foundedYear: Option<int>,
    companySpecializations: Option<seq<Specialization>>)

  /** A row of company_specializations. */
  datatype LinkRow = LinkRow(companyId: string, specializationId: string)

  /** `companies.map(c => c.city)`. */
  function CompanyCities(companies: seq<AdminCompany>): (r: seq<string>)
    ensures |r| == |companies|
    ensures forall i :: 0 <= i < |r| ==> r[i] == companies[i].city
  {
    seq(|companies|, i requires 0 <= i < |companies| => companies[i].city)
  }
}
