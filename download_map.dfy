/**
 * `simplifyGeoJSON` and `roundCoordinates` from scripts/download-map.js: pick
 * the Niedersachsen feature, round its coordinates, and wrap it in a
 * FeatureCollection (RFC 7946 section 3.3). `round` stands for
 * `c => parseFloat(c.toFixed(4))`; the document arrives already parsed.
 */
module DownloadMap {
  import opened Wrappers
  import opened Seqs

  /** A GeoJSON coordinates value: a number or an array of coordinates values. */
  datatype Coords = Num(x: real) | Arr(items: seq<Coords>)

  /**
   * `roundCoordinates(coords)`. An array whose first element is a number is
   * rounded element by element; any other array is walked recursively. A number
   * reached by the recursion has no `map` and an array met by `toFixed` has no
   * `toFixed`: both throw a TypeError, here None.
   */
  function RoundCoordinates(coords: Coords, round: real -> real): Option<Coords>
    decreases coords
  {
    match coords
    case Num(_) => None
    case Arr(items) =>
      if |items| > 0 && items[0].Num? then
        if forall i :: 0 <= i < |items| ==> items[i].Num? then
          Some(Arr(seq(|items|, i requires 0 <= i < |items| && items[i].Num? => Num(round(items[i].x)))))
        else None
      else
        var rounded := seq(|items|, i requires 0 <= i < |items| => RoundCoordinates(items[i], round));
        if forall i :: 0 <= i < |rounded| ==> rounded[i].Some? then
          Some(Arr(seq(|rounded|, i requires 0 <= i < |rounded| && rounded[i].Some? => rounded[i].value)))
        else None
  }

  /**
   * The arrays the walk accepts: each array holds only numbers or only arrays,
   * and the array-holding ones hold accepted arrays.
   */
  predicate WellFormed(coords: Coords)
    decreases coords
  {
    match coords
    case Num(_) => false
    case Arr(items) =>
      (forall i :: 0 <= i < |items| ==> items[i].Num?)
      || (forall i :: 0 <= i < |items| ==> items[i].Arr? && WellFormed(items[i]))
  }

  /** The same tree with every leaf number passed through f. */
  function MapLeaves(coords: Coords, f: real -> real): Coords
    decreases coords
  {
    match coords
    case Num(x) => Num(f(x))
    case Arr(items) => Arr(seq(|items|, i requires 0 <= i < |items| => MapLeaves(items[i], f)))
  }

  /** Two trees with the same nesting and the same array lengths. */
  predicate SameShape(a: Coords, b: Coords)
    decreases a
  {
    match a
    case Num(_) => b.Num?
    case Arr(items) =>
      b.Arr? && |b.items| == |items|
      && forall i :: 0 <= i < |items| ==> SameShape(items[i], b.items[i])
  }

  /** Mapping the leaves keeps every array's length and depth. */
  lemma {:induction false} MapLeavesSameShape(coords: Coords, f: real -> real)
    ensures SameShape(coords, MapLeaves(coords, f))
    decreases coords
  {
    match coords
    case Num(_) =>
    case Arr(items) =>
      forall i | 0 <= i < |items| ensures SameShape(items[i], MapLeaves(coords, f).items[i]) {
        MapLeavesSameShape(items[i], f);
      }
  }

  /**
   * The walk succeeds exactly on well-formed arrays, and then it keeps the shape
   * and rounds every leaf.
   */
  lemma {:induction false} RoundCoordinatesMeaning(coords: Coords, round: real -> real)
    ensures RoundCoordinates(coords, round).Some? <==> WellFormed(coords)
    ensures WellFormed(coords) ==> RoundCoordinates(coords, round) == Some(MapLeaves(coords, round))
    decreases coords
  {
    match coords
    case Num(_) =>
    case Arr(items) =>
      if |items| > 0 && items[0].Num? {
        if forall i :: 0 <= i < |items| ==> items[i].Num? {
          assert RoundCoordinates(coords, round).value == MapLeaves(coords, round);
        } else {
          assert !WellFormed(coords) by {
            assert !(forall i :: 0 <= i < |items| ==> items[i].Arr?) by {
              assert !items[0].Arr?;
            }
          }
        }
      } else {
        forall i | 0 <= i < |items|
          ensures RoundCoordinates(items[i], round).Some? <==> WellFormed(items[i])
          ensures WellFormed(items[i]) ==> RoundCoordinates(items[i], round) == Some(MapLeaves(items[i], round))
        {
          RoundCoordinatesMeaning(items[i], round);
        }
        var rounded := seq(|items|, i requires 0 <= i < |items| => RoundCoordinates(items[i], round));
        if !WellFormed(coords) {
          var j :| 0 <= j < |items| && !(items[j].Arr? && WellFormed(items[j]));
          assert rounded[j].None?;
        } else {
          if |items| > 0 {
            assert items[0].Arr?;
          }
          assert RoundCoordinates(coords, round).value == MapLeaves(coords, round);
        }
      }
  }

  /** A feature with the properties the script looks at. */
  datatype Feature = Feature(name: Option<string>, gen: Option<string>, coordinates: Option<Coords>)

  datatype FeatureCollection = FeatureCollection(features: seq<Feature>)

  const NotFound := "Niedersachsen feature not found in GeoJSON"

  /** `properties.name === 'Niedersachsen' || properties.GEN === 'Niedersachsen'`. */
  predicate IsNiedersachsen(f: Feature) {
    f.name == Some("Niedersachsen") || f.gen == Some("Niedersachsen")
  }

  function NiedersachsenTest(): Feature -> bool {
    (f: Feature) => IsNiedersachsen(f)
  }

  /** `if (geometry.coordinates)`: an array is truthy; missing or the number 0 is not. */
  predicate HasCoordinates(f: Feature) {
    f.coordinates.Some? && f.coordinates.value != Num(0.0)
  }

  /**
   * `simplifyGeoJSON`: the first Niedersachsen feature, its coordinates rounded
   * in place when it has any, as the single feature of a FeatureCollection. No
   * such feature throws the not-found error; coordinates the walk cannot round
   * throw a TypeError, whose message text the JavaScript engine chooses and
   * `typeError` stands for.
   */
  method SimplifyGeoJson(features: seq<Feature>, round: real -> real, typeError: string) returns (r: Outcome<FeatureCollection>)
    ensures (forall i :: 0 <= i < |features| ==> !IsNiedersachsen(features[i])) ==> r == Failed(Some(NotFound))
    ensures r.Failed? ==> r == Failed(Some(NotFound)) || r == Failed(Some(typeError))
    ensures r.Done? ==> |r.value.features| == 1
    ensures forall i :: (0 <= i < |features| && IsNiedersachsen(features[i])
      && (forall k :: 0 <= k < i ==> !IsNiedersachsen(features[k]))) ==>
      var f := features[i];
      (r.Done? <==> !HasCoordinates(f) || WellFormed(f.coordinates.value))
      && (r.Done? && !HasCoordinates(f) ==> r.value.features[0] == f)
      && (r.Done? && HasCoordinates(f) ==>
          r.value.features[0] == f.(coordinates := Some(MapLeaves(f.coordinates.value, round))))
  {
    var found := Find(features, NiedersachsenTest());
    if found.None? {
      return Failed(Some(NotFound));
    }
    var niedersachsen := found.value;
    forall i | 0 <= i < |features| && IsNiedersachsen(features[i]) && (forall k :: 0 <= k < i ==> !IsNiedersachsen(features[k]))
      ensures niedersachsen == features[i]
    {
      FindFirst(features, NiedersachsenTest(), i);
    }
    if HasCoordinates(niedersachsen) {
      RoundCoordinatesMeaning(niedersachsen.coordinates.value, round);
      var rounded := RoundCoordinates(niedersachsen.coordinates.value, round);
      if rounded.None? {
        return Failed(Some(typeError));
      }
      niedersachsen := niedersachsen.(coordinates := Some(rounded.value));
    }
    r := Done(FeatureCollection([niedersachsen]));
  }
}
