/**
 * The decisions of the clustered map (components/Map/MapWithClustering.tsx):
 * whether markers are clustered, the size class of a cluster icon, and where
 * the map flies when a company is selected.
 */
module MapClustering {
  import opened Wrappers
  import opened Records
  import opened Seqs

  const ClusterThreshold := 20
  const LargeThreshold := 50
  const FlyZoom := 12

  /** The `enableClustering` prop with its default: left out, it is `true`. */
  function ClusteringEnabled(prop: Option<bool>): bool {
    prop.GetOr(true)
  }

  /** `shouldCluster`. */
  predicate ShouldCluster(enableClustering: bool, companyCount: nat) {
    enableClustering && companyCount > ClusterThreshold
  }

  /**
   * Markers are clustered exactly when clustering is not switched off and there
   * are more than 20 companies; with the default, exactly when there are more
   * than 20. Adding companies never switches clustering off.
   */
  lemma ShouldClusterMeaning(prop: Option<bool>, companyCount: nat, more: nat)
    requires companyCount <= more
    ensures ShouldCluster(ClusteringEnabled(prop), companyCount) <==> prop != Some(false) && companyCount > 20
    ensures ShouldCluster(ClusteringEnabled(None), companyCount) <==> companyCount > 20
    ensures ShouldCluster(ClusteringEnabled(Some(false)), companyCount) == false
    ensures ShouldCluster(ClusteringEnabled(prop), companyCount) ==> ShouldCluster(ClusteringEnabled(prop), more)
  {
  }

  datatype SizeClass = Small | Medium | Large

  /** `sizeClass`: 'small' unless the count passes 50 ('large') or 20 ('medium'). */
  function SizeClassOf(count: int): (r: SizeClass)
    ensures r == Large <==> count > LargeThreshold
    ensures r == Medium <==> ClusterThreshold < count <= LargeThreshold
    ensures r == Small <==> count <= ClusterThreshold
  {
    if count > LargeThreshold then Large
    else if count > ClusterThreshold then Medium
    else Small
  }

  /** The CSS class `cluster-<size>`. */
  function SizeClassName(s: SizeClass): string {
    match s
    case Small => "cluster-small"
    case Medium => "cluster-medium"
    case Large => "cluster-large"
  }

  function Rank(s: SizeClass): nat {
    match s
    case Small => 0
    case Medium => 1
    case Large => 2
  }

  /** A bigger cluster never gets a smaller icon. */
  lemma SizeClassMonotone(a: int, b: int)
    requires a <= b
    ensures Rank(SizeClassOf(a)) <= Rank(SizeClassOf(b))
  {
  }

  function HasId(id: string): Company -> bool {
    (c: Company) => c.id == id
  }

  /**
   * The fly-to effect: with a map and a truthy selected id, the first company
   * with that id, when both of its coordinates are truthy.
   */
  function FlyTarget(mapReady: bool, selectedCompanyId: Option<string>, companies: seq<Company>): Option<Coordinates> {
    if mapReady && TruthyText(selectedCompanyId) then
      var company := Find(companies, HasId(selectedCompanyId.value));
      if company.Some? && TruthyNumber(company.value.latitude) && TruthyNumber(company.value.longitude) then
        Some(Coordinates(company.value.latitude.value, company.value.longitude.value))
      else None
    else None
  }

  /**
   * The map flies exactly to the first company with the selected id, and only
   * when its latitude and longitude are both present and non-zero.
   */
  lemma FlyTargetMeaning(mapReady: bool, selectedCompanyId: string, companies: seq<Company>, i: nat)
    requires mapReady && selectedCompanyId != ""
    requires i < |companies| && companies[i].id == selectedCompanyId
    requires forall k :: 0 <= k < i ==> companies[k].id != selectedCompanyId
    ensures var target := FlyTarget(mapReady, Some(selectedCompanyId), companies);
      (target.Some? <==> TruthyNumber(companies[i].latitude) && TruthyNumber(companies[i].longitude))
      && (target.Some? ==> target.value == Coordinates(companies[i].latitude.value, companies[i].longitude.value))
  {
    FindFirst(companies, HasId(selectedCompanyId), i);
  }

  /** Without a map, a truthy selection or a company with that id, the map stays where it is. */
  lemma NoFlyTarget(mapReady: bool, selectedCompanyId: Option<string>, companies: seq<Company>)
    requires !mapReady || !TruthyText(selectedCompanyId)
      || forall k :: 0 <= k < |companies| ==> companies[k].id != selectedCompanyId.value
    ensures FlyTarget(mapReady, selectedCompanyId, companies) == None
  {
  }
}
