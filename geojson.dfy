/**
 * The parsed GeoJSON the map works with. `JSON.parse` itself is not part
 * of the model: callers pass a parse function returning `None` when the
 * text does not parse (or when reading the result throws).
 */
module GeoJson {
  import opened Host

  /** A position `[lon, lat]`. */
  datatype Position = Position(lon: real, lat: real)

  /**
   * A geometry: a polygon's rings, a multi-polygon's polygons, or any other
   * geometry type (which none of the map code looks inside).
   */
  datatype Geometry =
    | Polygon(rings: seq<seq<Position>>)
    | MultiPolygon(polygons: seq<seq<seq<Position>>>)
    | OtherGeometry(kind: string)

  /** A feature: its geometry when it has one, and its properties (null properties read as none). */
  datatype Feature = Feature(geometry: Option<Geometry>, properties: map<string, Value>)

  /**
   * A parsed JSON document: a `FeatureCollection` with a `features` array,
   * a single `Feature`, or anything else (including a collection whose
   * `features` is not an array).
   */
  datatype Parsed = FeatureCollection(features: seq<Feature>) | BareFeature(feature: Feature) | OtherJson

  predicate IsPolygonal(g: Geometry) { g.Polygon? || g.MultiPolygon? }

  /** A feature whose geometry is a polygon or a multi-polygon. */
  predicate HasPolygon(f: Feature) { f.geometry.Some? && IsPolygonal(f.geometry.value) }

  /** `xs.flat()`: the inner sequences one after another. */
  function Flatten<T(!new)>(xs: seq<seq<T>>): (r: seq<T>)
    ensures forall x :: x in r <==> exists i :: 0 <= i < |xs| && x in xs[i]
  {
    if xs == [] then []
    else
      var r := Flatten(xs[..|xs| - 1]) + xs[|xs| - 1];
      assert forall i :: 0 <= i < |xs| - 1 ==> xs[..|xs| - 1][i] == xs[i];
      r
  }

  lemma FlattenAppend<T(!new)>(xs: seq<seq<T>>, ys: seq<seq<T>>)
    ensures Flatten(xs + ys) == Flatten(xs) + Flatten(ys)
  {
    if ys != [] {
      assert (xs + ys)[..|xs + ys| - 1] == xs + ys[..|ys| - 1];
      FlattenAppend(xs, ys[..|ys| - 1]);
    } else {
      assert xs + ys == xs;
    }
  }

  /** The rings the map reads from a geometry: a multi-polygon's polygons flattened one level. */
  function RingsOf(g: Geometry): seq<seq<Position>> {
    match g
    case Polygon(rings) => rings
    case MultiPolygon(polygons) => Flatten(polygons)
    case OtherGeometry(_) => []
  }

  /** `{ ...f.properties, fillColor: color }` on the feature's own geometry. */
  function WithFillColor(f: Feature, color: Value): (r: Feature)
    ensures r.geometry == f.geometry
    ensures r.properties.Keys == f.properties.Keys + {"fillColor"} && r.properties["fillColor"] == color
    ensures forall k :: k in f.properties && k != "fillColor" ==> r.properties[k] == f.properties[k]
  {
    Feature(f.geometry, f.properties["fillColor" := color])
  }
}
