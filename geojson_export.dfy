/**
 * The GeoJSON export (lib/export/exportToGeoJSON.ts): a FeatureCollection
 * (section 3.3 of RFC 7946) with one Point feature (sections 3.1.2 and 3.2) per
 * company whose latitude and longitude are both truthy. The structure is
 * modelled; its JSON text is not.
 */
module GeoJsonExport {
  import opened Wrappers
  import opened Records
  import Seqs

  datatype SpecializationSummary = SpecializationSummary(name: string, icon: string, color: string)

  /** A position is `[longitude, latitude]` (section 3.1.1 of RFC 7946). */
  datatype Geometry = Point(coordinates: seq<real>)

  datatype Properties = Properties(
    id: string,
    name: string,
    description: Option<string>,
    address: Option<string>,
    website: Option<string>,
    email: Option<string>,
    phone: Option<string>,
    specializations: seq<SpecializationSummary>,
    createdAt: int,
    updatedAt: int)

  datatype Feature = Feature(geometry: Geometry, properties: Properties)

  datatype FeatureCollection = FeatureCollection(features: seq<Feature>)

  /** `company.latitude && company.longitude`: null and exactly 0 are dropped. */
  predicate Usable(c: Company) {
    TruthyNumber(c.latitude) && TruthyNumber(c.longitude)
  }

  function Summaries(specs: seq<Specialization>): (r: seq<SpecializationSummary>)
    ensures |r| == |specs|
    ensures forall i :: 0 <= i < |specs| ==>
      r[i] == SpecializationSummary(specs[i].name, specs[i].icon, specs[i].color)
  {
    seq(|specs|, i requires 0 <= i < |specs| => SpecializationSummary(specs[i].name, specs[i].icon, specs[i].color))
  }

  function ToFeature(c: Company): Feature
    requires Usable(c)
  {
    Feature(
      Point([c.longitude.value, c.latitude.value]),
      Properties(c.id, c.name, c.description, c.address, c.website, c.email, c.phone,
                 Summaries(c.specializations), c.createdAt, c.updatedAt))
  }

  /** The companies kept, then each mapped to its feature. */
  function Features(companies: seq<Company>): (r: seq<Feature>)
    ensures |r| <= |companies|
  {
    var kept := Seqs.Filter(companies, Usable);
    Seqs.FilterMembership(companies, Usable);
    seq(|kept|, i requires 0 <= i < |kept| => ToFeature(kept[i]))
  }

  function ExportGeoJson(companies: seq<Company>): FeatureCollection {
    FeatureCollection(Features(companies))
  }

  /**
   * Appending a company appends its feature exactly when both coordinates are
   * truthy: features keep the input order and come from usable companies only.
   */
  lemma FeaturesSnoc(companies: seq<Company>, c: Company)
    ensures Features(companies + [c]) == Features(companies) + (if Usable(c) then [ToFeature(c)] else [])
  {
    Seqs.FilterAppend(companies, [c], Usable);
    assert Seqs.Filter([c], Usable) == (if Usable(c) then [c] else []) by {
      assert [c][1..] == [];
    }
  }

  /** Every usable company has its feature, and every feature is that of a usable company. */
  lemma FeaturesExactly(companies: seq<Company>)
    ensures forall c :: c in companies && Usable(c) ==> ToFeature(c) in Features(companies)
    ensures forall f :: f in Features(companies) ==> exists c :: c in companies && Usable(c) && f == ToFeature(c)
  {
    var kept := Seqs.Filter(companies, Usable);
    Seqs.FilterMembership(companies, Usable);
    var r := Features(companies);
    forall c | c in companies && Usable(c) ensures ToFeature(c) in r {
      var i :| 0 <= i < |kept| && kept[i] == c;
      assert r[i] == ToFeature(c);
    }
    forall f | f in r ensures exists c :: c in companies && Usable(c) && f == ToFeature(c) {
      var i :| 0 <= i < |r| && r[i] == f;
      assert kept[i] in kept;
    }
  }

  /**
   * A feature is a Point at `[longitude, latitude]` and carries the company's
   * fields unchanged; its specializations keep name, icon and colour, in order,
   * without ids.
   */
  lemma FeatureDescribesCompany(c: Company)
    requires Usable(c)
    ensures var f := ToFeature(c);
      && f.geometry.coordinates == [c.longitude.value, c.latitude.value]
      && f.geometry.coordinates[0] != 0.0 && f.geometry.coordinates[1] != 0.0
      && f.properties.id == c.id && f.properties.name == c.name
      && f.properties.description == c.description && f.properties.address == c.address
      && f.properties.website == c.website && f.properties.email == c.email
      && f.properties.phone == c.phone
      && f.properties.createdAt == c.createdAt && f.properties.updatedAt == c.updatedAt
      && f.properties.specializations == Summaries(c.specializations)
      && |f.properties.specializations| == |c.specializations|
      && forall i :: 0 <= i < |c.specializations| ==>
           var sum := f.properties.specializations[i];
           sum.name == c.specializations[i].name && sum.icon == c.specializations[i].icon
           && sum.color == c.specializations[i].color
  {
  }

  /** No usable coordinates, in particular no companies, gives no features. */
  lemma NoUsableNoFeatures(companies: seq<Company>)
    requires forall c :: c in companies ==> !Usable(c)
    ensures ExportGeoJson(companies).features == []
  {
    Seqs.FilterNone(companies, Usable);
  }
}
