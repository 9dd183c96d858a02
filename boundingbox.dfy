/**
 * `getGeoJsonBoundingBox`: the longitude/latitude box around every position
 * of the polygon and multi-polygon features of a list.
 */
module BoundingBox {
  import opened Host
  import opened GeoJson

  /** `[minLon, minLat, maxLon, maxLat]`, each possibly still at its infinite start value. */
  datatype Bounds = Bounds(minLon: JsNumber, minLat: JsNumber, maxLon: JsNumber, maxLat: JsNumber)

  /** The start values `[Infinity, Infinity, -Infinity, -Infinity]`. */
  function Start(): Bounds { Bounds(PosInfinity, PosInfinity, NegInfinity, NegInfinity) }

  /** `x < b` for a number against a running bound. */
  predicate Below(x: real, b: JsNumber) { b.PosInfinity? || (b.Finite? && x < b.v) }

  /** `x > b` for a number against a running bound. */
  predicate Above(x: real, b: JsNumber) { b.NegInfinity? || (b.Finite? && x > b.v) }

  /** The bounds after looking at one more position. */
  function Widen(b: Bounds, p: Position): Bounds {
    Bounds(if Below(p.lon, b.minLon) then Finite(p.lon) else b.minLon,
           if Below(p.lat, b.minLat) then Finite(p.lat) else b.minLat,
           if Above(p.lon, b.maxLon) then Finite(p.lon) else b.maxLon,
           if Above(p.lat, b.maxLat) then Finite(p.lat) else b.maxLat)
  }

  /** The bounds after looking at `ps` in order, starting from `b`. */
  function WidenAll(b: Bounds, ps: seq<Position>): Bounds {
    if ps == [] then b else Widen(WidenAll(b, ps[..|ps| - 1]), ps[|ps| - 1])
  }

  /** The positions a feature contributes: none unless it is a polygon or a multi-polygon. */
  function FeaturePositions(f: Feature): seq<Position> {
    if HasPolygon(f) then Flatten(RingsOf(f.geometry.value)) else []
  }

  /** The positions of all features, in order. */
  function Positions(features: seq<Feature>): seq<Position> {
    if features == [] then []
    else Positions(features[..|features| - 1]) + FeaturePositions(features[|features| - 1])
  }

  /** The box `getGeoJsonBoundingBox` returns: none for an empty list. */
  function BoxOf(features: seq<Feature>): Option<Bounds> {
    if features == [] then None else Some(WidenAll(Start(), Positions(features)))
  }

  /**
   * `getGeoJsonBoundingBox`. Every feature must have a geometry: the source
   * reads `feature.geometry.type` without testing for it.
   */
  method GetGeoJsonBoundingBox(features: seq<Feature>) returns (r: Option<Bounds>)
    requires forall i :: 0 <= i < |features| ==> features[i].geometry.Some?
    ensures r == BoxOf(features)
  {
    if |features| == 0 {
      return None;
    }
    var b := Start();
    var i := 0;
    while i < |features|
      invariant 0 <= i <= |features|
      invariant b == WidenAll(Start(), Positions(features[..i]))
    {
      var geometry := features[i].geometry.value;
      PositionsStep(features, i);
      WidenAllAppend(Start(), Positions(features[..i]), FeaturePositions(features[i]));
      if geometry.Polygon? || geometry.MultiPolygon? {
        var coordinates := if geometry.Polygon? then geometry.rings else Flatten(geometry.polygons);
        assert Flatten(coordinates) == FeaturePositions(features[i]);
        b := ScanRings(b, coordinates);
      } else {
        assert FeaturePositions(features[i]) == [];
      }
      i := i + 1;
    }
    assert features[..i] == features;
    r := Some(b);
  }

  lemma PositionsStep(features: seq<Feature>, i: nat)
    requires i < |features|
    ensures Positions(features[..i + 1]) == Positions(features[..i]) + FeaturePositions(features[i])
  {
    assert features[..i + 1][..i] == features[..i];
  }

  /** `coordinates.forEach(ring => ...)`. */
  method ScanRings(b: Bounds, rings: seq<seq<Position>>) returns (b': Bounds)
    ensures b' == WidenAll(b, Flatten(rings))
  {
    b' := b;
    var j := 0;
    while j < |rings|
      invariant 0 <= j <= |rings|
      invariant b' == WidenAll(b, Flatten(rings[..j]))
    {
      assert rings[..j + 1] == rings[..j] + [rings[j]];
      FlattenAppend(rings[..j], [rings[j]]);
      assert Flatten([rings[j]]) == rings[j] by {
        assert [rings[j]][..0] == [];
      }
      WidenAllAppend(b, Flatten(rings[..j]), rings[j]);
      b' := ScanRing(b', rings[j]);
      j := j + 1;
    }
    assert rings[..j] == rings;
  }

  /** `ring.forEach(([lon, lat]) => ...)`: the four running bounds. */
  method ScanRing(b: Bounds, ring: seq<Position>) returns (b': Bounds)
    ensures b' == WidenAll(b, ring)
  {
    var minLon, minLat, maxLon, maxLat := b.minLon, b.minLat, b.maxLon, b.maxLat;
    var k := 0;
    while k < |ring|
      invariant 0 <= k <= |ring|
      invariant Bounds(minLon, minLat, maxLon, maxLat) == WidenAll(b, ring[..k])
    {
      var lon, lat := ring[k].lon, ring[k].lat;
      assert ring[..k + 1][..k] == ring[..k];
      if Below(lon, minLon) { minLon := Finite(lon); }
      if Below(lat, minLat) { minLat := Finite(lat); }
      if Above(lon, maxLon) { maxLon := Finite(lon); }
      if Above(lat, maxLat) { maxLat := Finite(lat); }
      k := k + 1;
    }
    assert ring[..k] == ring;
    b' := Bounds(minLon, minLat, maxLon, maxLat);
  }

  lemma {:induction false} WidenAllAppend(b: Bounds, ps: seq<Position>, qs: seq<Position>)
    ensures WidenAll(b, ps + qs) == WidenAll(WidenAll(b, ps), qs)
    decreases |qs|
  {
    if qs == [] {
      assert ps + qs == ps;
    } else {
      assert (ps + qs)[..|ps + qs| - 1] == ps + qs[..|qs| - 1];
      WidenAllAppend(b, ps, qs[..|qs| - 1]);
    }
  }

  // ---------------------------------------------------------------------
  // Properties
  // ---------------------------------------------------------------------

  /** A box of at least one position is finite and holds every position. */
  lemma {:induction false} BoxContains(ps: seq<Position>)
    ensures var b := WidenAll(Start(), ps);
      ps != [] ==> (b.minLon.Finite? && b.minLat.Finite? && b.maxLon.Finite? && b.maxLat.Finite?
        && forall i :: 0 <= i < |ps| ==>
             b.minLon.v <= ps[i].lon <= b.maxLon.v && b.minLat.v <= ps[i].lat <= b.maxLat.v)
  {
    if ps != [] {
      var init := ps[..|ps| - 1];
      BoxContains(init);
      forall i | 0 <= i < |init| ensures init[i] == ps[i] { }
    }
  }

  /** Each bound of a box of at least one position is a coordinate of one of them. */
  lemma {:induction false} BoxAttained(ps: seq<Position>)
    requires ps != []
    ensures var b := WidenAll(Start(), ps);
      && (exists i :: 0 <= i < |ps| && Finite(ps[i].lon) == b.minLon)
      && (exists i :: 0 <= i < |ps| && Finite(ps[i].lat) == b.minLat)
      && (exists i :: 0 <= i < |ps| && Finite(ps[i].lon) == b.maxLon)
      && (exists i :: 0 <= i < |ps| && Finite(ps[i].lat) == b.maxLat)
  {
    var n := |ps| - 1;
    var init := ps[..n];
    var b := WidenAll(Start(), ps);
    if init == [] {
      assert WidenAll(Start(), init) == Start();
      assert Finite(ps[0].lon) == b.minLon;
    } else {
      BoxAttained(init);
      var a := WidenAll(Start(), init);
      var i1 :| 0 <= i1 < |init| && Finite(init[i1].lon) == a.minLon;
      var i2 :| 0 <= i2 < |init| && Finite(init[i2].lat) == a.minLat;
      var i3 :| 0 <= i3 < |init| && Finite(init[i3].lon) == a.maxLon;
      var i4 :| 0 <= i4 < |init| && Finite(init[i4].lat) == a.maxLat;
      var j1 := if Below(ps[n].lon, a.minLon) then n else i1;
      var j2 := if Below(ps[n].lat, a.minLat) then n else i2;
      var j3 := if Above(ps[n].lon, a.maxLon) then n else i3;
      var j4 := if Above(ps[n].lat, a.maxLat) then n else i4;
      assert Finite(ps[j1].lon) == b.minLon;
      assert Finite(ps[j2].lat) == b.minLat;
      assert Finite(ps[j3].lon) == b.maxLon;
      assert Finite(ps[j4].lat) == b.maxLat;
    }
  }

  /** A non-empty list without any polygon position gives the untouched start values. */
  lemma {:induction false} NoPositionsNoBox(features: seq<Feature>)
    requires forall i :: 0 <= i < |features| ==> !HasPolygon(features[i])
    ensures Positions(features) == []
    ensures features != [] ==> BoxOf(features) == Some(Bounds(PosInfinity, PosInfinity, NegInfinity, NegInfinity))
  {
    if features != [] {
      NoPositionsNoBox(features[..|features| - 1]);
    }
  }

  /** Only polygon and multi-polygon features contribute: dropping the others changes nothing. */
  lemma {:induction false} OnlyPolygonsCount(features: seq<Feature>, others: seq<Feature>)
    requires forall i :: 0 <= i < |others| ==> !HasPolygon(others[i])
    ensures Positions(features + others) == Positions(features)
    decreases |others|
  {
    if others != [] {
      var init := others[..|others| - 1];
      assert (features + others)[..|features + others| - 1] == features + init;
      OnlyPolygonsCount(features, init);
    } else {
      assert features + others == features;
    }
  }

  /** A position is looked at exactly when it lies in a ring of a polygon feature (multi-polygons flattened). */
  lemma {:induction false} PositionsMembers(features: seq<Feature>, p: Position)
    ensures p in Positions(features) <==>
      exists i :: 0 <= i < |features| && HasPolygon(features[i])
        && exists k :: 0 <= k < |RingsOf(features[i].geometry.value)| && p in RingsOf(features[i].geometry.value)[k]
  {
    if features != [] {
      var init := features[..|features| - 1];
      PositionsMembers(init, p);
      var f := features[|features| - 1];
      forall i | 0 <= i < |init| ensures init[i] == features[i] { }
    }
  }

  /** The box of one square. */
  lemma SquareExample()
    ensures BoxOf([Feature(Some(Polygon([[Position(1.0, 2.0), Position(3.0, 4.0)]])), map[])])
      == Some(Bounds(Finite(1.0), Finite(2.0), Finite(3.0), Finite(4.0)))
  {
    var ring := [Position(1.0, 2.0), Position(3.0, 4.0)];
    var f := Feature(Some(Polygon([ring])), map[]);
    assert [f][..0] == [];
    var rings := [ring];
    assert Flatten(rings) == ring by {
      assert rings[..0] == [];
    }
    assert Positions([f]) == ring;
    assert ring[..1] == [Position(1.0, 2.0)];
    assert ring[..1][..0] == [];
    var first := Bounds(Finite(1.0), Finite(2.0), Finite(1.0), Finite(2.0));
    assert WidenAll(Start(), ring[..1]) == first;
    assert WidenAll(Start(), ring) == Widen(first, Position(3.0, 4.0));
  }
}
