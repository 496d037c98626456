/**
 * One feature of the country-boundary dataset: the name picked from its
 * properties and the representative coordinate computed from its boundary.
 */
module Geo {
  import opened Options

  /**
   * The name-bearing properties of a feature. A property that is missing, or
   * holds the empty string, is the empty string here; both are falsy in the
   * JavaScript the game is written in.
   */
  datatype Props = Props(name: string, NAME: string, ADMIN: string)

  /** The sentinel name of a feature none of whose name properties is set. */
  const UNKNOWN := "Unknown"

  /** getCountryName: the first truthy one of `name`, `NAME` and `ADMIN`, else "Unknown". */
  function CountryName(p: Props): (r: string)
    ensures r != ""
    ensures p.name != "" ==> r == p.name
    ensures p.name == "" && p.NAME != "" ==> r == p.NAME
    ensures p.name == "" && p.NAME == "" && p.ADMIN != "" ==> r == p.ADMIN
    ensures p.name == "" && p.NAME == "" && p.ADMIN == "" ==> r == UNKNOWN
  {
    if p.name != "" then p.name
    else if p.NAME != "" then p.NAME
    else if p.ADMIN != "" then p.ADMIN
    else UNKNOWN
  }

  /** A GeoJSON position: longitude first, latitude second. */
  datatype Position = Position(lng: real, lat: real)

  /**
   * The `coordinates` member of a GeoJSON geometry: an array nested to any depth
   * whose innermost arrays are positions.
   */
  datatype Geom = Point(pos: Position) | Nest(items: seq<Geom>)

  datatype Feature = Feature(properties: Props, geometry: Option<Geom>)

  datatype LatLng = LatLng(lat: real, lng: real)

  /** A great-circle distance in kilometres, as the haversine formula returns it: never negative. */
  type Km = d: real | 0.0 <= d witness 0.0

  /** Every position of a geometry, depth first, left to right. */
  function Flatten(g: Geom): seq<Position>
    decreases g, 1
  {
    match g
    case Point(p) => [p]
    case Nest(items) => FlattenAll(items)
  }

  function FlattenAll(gs: seq<Geom>): seq<Position>
    decreases gs, 0
  {
    if gs == [] then [] else FlattenAll(gs[..|gs| - 1]) + Flatten(gs[|gs| - 1])
  }

  /**
   * The inner `extractCoords` of getCentroid: walks the nested array and pushes
   * every position it meets onto the accumulator.
   */
  method ExtractCoords(c: Geom, acc: seq<Position>) returns (out: seq<Position>)
    ensures out == acc + Flatten(c)
    decreases c
  {
    match c {
      case Point(p) =>
        out := acc + [p];
      case Nest(items) =>
        out := acc;
        var i := 0;
        while i < |items|
          invariant 0 <= i <= |items|
          invariant out == acc + FlattenAll(items[..i])
        {
          assert items[..i + 1][..i] == items[..i];
          out := ExtractCoords(items[i], out);
          i := i + 1;
        }
        assert items[..i] == items;
    }
  }

  /** All positions of a feature; none when it has no geometry. */
  function Points(f: Feature): seq<Position> {
    match f.geometry
    case None => []
    case Some(g) => Flatten(g)
  }

  /** The running sums of `coords.reduce`, a left fold starting at 0. */
  function SumLat(ps: seq<Position>): real {
    if ps == [] then 0.0 else SumLat(ps[..|ps| - 1]) + ps[|ps| - 1].lat
  }

  function SumLng(ps: seq<Position>): real {
    if ps == [] then 0.0 else SumLng(ps[..|ps| - 1]) + ps[|ps| - 1].lng
  }

  /** The unweighted mean of the feature's positions, or None when it has none. */
  function CentroidOf(f: Feature): Option<LatLng> {
    var ps := Points(f);
    if |ps| == 0 then None
    else Some(LatLng(SumLat(ps) / |ps| as real, SumLng(ps) / |ps| as real))
  }

  /**
   * getCentroid: collects the positions, then averages the second components
   * into `lat` and the first components into `lng`.
   */
  method Centroid(f: Feature) returns (c: Option<LatLng>)
    ensures c.None? <==> Points(f) == []
    ensures c.Some? ==> (c.value.lat * |Points(f)| as real == SumLat(Points(f))
                         && c.value.lng * |Points(f)| as real == SumLng(Points(f)))
    ensures c == CentroidOf(f)
  {
    var coords: seq<Position> := [];
    if f.geometry.Some? {
      coords := ExtractCoords(f.geometry.value, coords);
    }
    assert coords == Points(f);
    if |coords| == 0 {
      return None;
    }
    var n := |coords| as real;
    c := Some(LatLng(SumLat(coords) / n, SumLng(coords) / n));
    CentroidTimesCount(f);
  }

  /** The centroid's coordinates times the number of positions are the sums of the positions' coordinates. */
  lemma CentroidTimesCount(f: Feature)
    requires Points(f) != []
    ensures CentroidOf(f).value.lat * |Points(f)| as real == SumLat(Points(f))
    ensures CentroidOf(f).value.lng * |Points(f)| as real == SumLng(Points(f))
  {
    var ps := Points(f);
    MeanTimesCount(SumLat(ps), |ps| as real);
    MeanTimesCount(SumLng(ps), |ps| as real);
  }

  lemma MeanTimesCount(sum: real, n: real)
    requires n > 0.0
    ensures sum / n * n == sum
  {
  }

  lemma MeanBounds(sum: real, n: real, lo: real, hi: real)
    requires n > 0.0 && n * lo <= sum <= n * hi
    ensures lo <= sum / n <= hi
  {
    MeanTimesCount(sum, n);
  }

  lemma {:induction false} SumLatBounds(ps: seq<Position>, lo: real, hi: real)
    requires forall k :: 0 <= k < |ps| ==> lo <= ps[k].lat <= hi
    ensures |ps| as real * lo <= SumLat(ps) <= |ps| as real * hi
  {
    if ps != [] {
      SumLatBounds(ps[..|ps| - 1], lo, hi);
    }
  }

  lemma {:induction false} SumLngBounds(ps: seq<Position>, lo: real, hi: real)
    requires forall k :: 0 <= k < |ps| ==> lo <= ps[k].lng <= hi
    ensures |ps| as real * lo <= SumLng(ps) <= |ps| as real * hi
  {
    if ps != [] {
      SumLngBounds(ps[..|ps| - 1], lo, hi);
    }
  }

  lemma MeanLatInRange(ps: seq<Position>, lo: real, hi: real)
    requires |ps| > 0 && forall k :: 0 <= k < |ps| ==> lo <= ps[k].lat <= hi
    ensures lo <= SumLat(ps) / |ps| as real <= hi
  {
    SumLatBounds(ps, lo, hi);
    MeanBounds(SumLat(ps), |ps| as real, lo, hi);
  }

  lemma MeanLngInRange(ps: seq<Position>, lo: real, hi: real)
    requires |ps| > 0 && forall k :: 0 <= k < |ps| ==> lo <= ps[k].lng <= hi
    ensures lo <= SumLng(ps) / |ps| as real <= hi
  {
    SumLngBounds(ps, lo, hi);
    MeanBounds(SumLng(ps), |ps| as real, lo, hi);
  }

  /**
   * The centroid lies inside the bounding box of the feature's positions: when
   * every position has its latitude in [latLo, latHi] and its longitude in
   * [lngLo, lngHi], so does the centroid.
   */
  lemma CentroidInBoundingBox(f: Feature, latLo: real, latHi: real, lngLo: real, lngHi: real)
    requires forall p :: p in Points(f) ==> latLo <= p.lat <= latHi && lngLo <= p.lng <= lngHi
    ensures CentroidOf(f).Some? ==>
              latLo <= CentroidOf(f).value.lat <= latHi && lngLo <= CentroidOf(f).value.lng <= lngHi
  {
    var ps := Points(f);
    if |ps| > 0 {
      forall k | 0 <= k < |ps| ensures latLo <= ps[k].lat <= latHi && lngLo <= ps[k].lng <= lngHi {
        assert ps[k] in ps;
      }
      MeanLatInRange(ps, latLo, latHi);
      MeanLngInRange(ps, lngLo, lngHi);
    }
  }

  /** A feature whose boundary is made of one position, however deeply nested, has that position as centroid. */
  lemma {:induction false} CentroidOfSinglePosition(f: Feature, p: Position)
    requires Points(f) == [p]
    ensures CentroidOf(f) == Some(LatLng(p.lat, p.lng))
  {
    var ps := Points(f);
    assert ps[..0] == [];
    assert SumLat(ps) == p.lat && SumLng(ps) == p.lng;
    assert |ps| as real == 1.0;
    assert CentroidOf(f) == Some(LatLng(SumLat(ps) / 1.0, SumLng(ps) / 1.0));
  }
}
