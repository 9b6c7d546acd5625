/**
  Geographic positions, layer pixels and the two bounding boxes of the points layer:
  the geographic extent of the features (d3.geo.bounds) and the padded pixel box
  that the overlay container is fitted to (`_translateBounds`).
 */
module Geo {

  /** A GeoJSON position: longitude first, then latitude. */
  datatype LngLat = LngLat(lng: real, lat: real)

  /** A Leaflet coordinate: latitude first, then longitude. */
  datatype LatLng = LatLng(lat: real, lng: real)

  /** A point in the map's layer pixel space; with a fractional padding its coordinates need not be whole. */
  datatype Pixel = Pixel(x: real, y: real)

  /** The map's geographic-to-layer-pixel transform (latLngToLayerPoint) as it stands at one moment. */
  type Transform = LatLng -> Pixel

  /** A GeoJSON point feature; its properties are opaque to the layer. */
  datatype Feature = Feature(coordinates: LngLat, properties: map<string, string>)

  /** The result of d3.geo.bounds, `[[west, south], [east, north]]`. */
  datatype GeoBox = GeoBox(sw: LngLat, ne: LngLat)

  /** An L.Bounds: `min` is the top-left corner, `max` the bottom-right one. */
  datatype Bounds = Bounds(min: Pixel, max: Pixel)

  function MinReal(a: real, b: real): real { if a <= b then a else b }
  function MaxReal(a: real, b: real): real { if a <= b then b else a }

  function Add(p: Pixel, q: Pixel): Pixel { Pixel(p.x + q.x, p.y + q.y) }
  function Sub(p: Pixel, q: Pixel): Pixel { Pixel(p.x - q.x, p.y - q.y) }

  /** `box` contains the position `p`, edges included. */
  predicate Covers(box: GeoBox, p: LngLat) {
    box.sw.lng <= p.lng <= box.ne.lng && box.sw.lat <= p.lat <= box.ne.lat
  }

  /** `b` contains the pixel `p`, edges included. */
  predicate Contains(b: Bounds, p: Pixel) {
    b.min.x <= p.x <= b.max.x && b.min.y <= p.y <= b.max.y
  }

  /**
    d3.geo.bounds of a collection of point features, taken as the plain minimum and
    maximum longitude and latitude, folded over the features in order. The box covers
    every feature and each of its four edges is reached by some feature.
   */
  function GeoBounds(fs: seq<Feature>): (box: GeoBox)
    requires |fs| > 0
    ensures forall i :: 0 <= i < |fs| ==> Covers(box, fs[i].coordinates)
    ensures exists i :: 0 <= i < |fs| && fs[i].coordinates.lng == box.sw.lng
    ensures exists i :: 0 <= i < |fs| && fs[i].coordinates.lat == box.sw.lat
    ensures exists i :: 0 <= i < |fs| && fs[i].coordinates.lng == box.ne.lng
    ensures exists i :: 0 <= i < |fs| && fs[i].coordinates.lat == box.ne.lat
  {
    var n := |fs| - 1;
    var p := fs[n].coordinates;
    if n == 0 then GeoBox(p, p)
    else
      var b := GeoBounds(fs[..n]);
      assert forall i :: 0 <= i < n ==> fs[..n][i] == fs[i];
      GeoBox(LngLat(MinReal(b.sw.lng, p.lng), MinReal(b.sw.lat, p.lat)),
             LngLat(MaxReal(b.ne.lng, p.lng), MaxReal(b.ne.lat, p.lat)))
  }

  /** Any box covering every feature covers GeoBounds: the extent is the smallest such box. */
  lemma GeoBoundsSmallest(fs: seq<Feature>, box: GeoBox)
    requires |fs| > 0
    requires forall i :: 0 <= i < |fs| ==> Covers(box, fs[i].coordinates)
    ensures box.sw.lng <= GeoBounds(fs).sw.lng && box.sw.lat <= GeoBounds(fs).sw.lat
    ensures GeoBounds(fs).ne.lng <= box.ne.lng && GeoBounds(fs).ne.lat <= box.ne.lat
  {
    var g := GeoBounds(fs);
    var i0 :| 0 <= i0 < |fs| && fs[i0].coordinates.lng == g.sw.lng;
    var i1 :| 0 <= i1 < |fs| && fs[i1].coordinates.lat == g.sw.lat;
    var i2 :| 0 <= i2 < |fs| && fs[i2].coordinates.lng == g.ne.lng;
    var i3 :| 0 <= i3 < |fs| && fs[i3].coordinates.lat == g.ne.lat;
    assert Covers(box, fs[i0].coordinates) && Covers(box, fs[i1].coordinates);
    assert Covers(box, fs[i2].coordinates) && Covers(box, fs[i3].coordinates);
  }

  /** `_project`: a GeoJSON position handed to the map transform in Leaflet's latitude-first order. */
  function Project(t: Transform, p: LngLat): Pixel {
    t(LatLng(p.lat, p.lng))
  }

  /** The GeoJSON form of a Leaflet coordinate. */
  function ToLngLat(c: LatLng): LngLat {
    LngLat(c.lng, c.lat)
  }

  /**
    Projecting the GeoJSON form of any Leaflet coordinate yields exactly what the
    transform gives for that coordinate: `_project` swaps the two components back
    and returns the transform's point unchanged.
   */
  lemma ProjectRoundTrip(t: Transform, c: LatLng)
    ensures Project(t, ToLngLat(c)) == t(c)
  {
  }

  /**
    A transform shaped like Leaflet's spherical Mercator: x depends on longitude alone
    and grows with it; y depends on latitude alone and grows as latitude falls.
   */
  ghost predicate Monotone(t: Transform) {
    && (forall a: LatLng, b: LatLng :: a.lng <= b.lng ==> t(a).x <= t(b).x)
    && (forall a: LatLng, b: LatLng :: a.lat <= b.lat ==> t(b).y <= t(a).y)
  }

  /** Under a monotone transform, `_project` orders x by GeoJSON's first component and y, reversed, by its second. */
  lemma ProjectMonotone(t: Transform, p: LngLat, q: LngLat)
    requires Monotone(t)
    ensures p.lng <= q.lng ==> Project(t, p).x <= Project(t, q).x
    ensures p.lat <= q.lat ==> Project(t, q).y <= Project(t, p).y
  {
  }

  /**
    L.bounds(a, b): the smallest box holding both points, by componentwise minimum
    and maximum.
   */
  function BoundsOf(a: Pixel, b: Pixel): (r: Bounds)
    ensures Contains(r, a) && Contains(r, b)
    ensures (r.min.x == a.x || r.min.x == b.x) && (r.min.y == a.y || r.min.y == b.y)
    ensures (r.max.x == a.x || r.max.x == b.x) && (r.max.y == a.y || r.max.y == b.y)
  {
    Bounds(Pixel(MinReal(a.x, b.x), MinReal(a.y, b.y)), Pixel(MaxReal(a.x, b.x), MaxReal(a.y, b.y)))
  }

  /** L.Bounds.getSize: the extent from the top-left to the bottom-right corner. */
  function Size(b: Bounds): (s: Pixel)
    ensures Add(b.min, s) == b.max
  {
    Sub(b.max, b.min)
  }

  /** The north-west corner of a geographic box, `[west, north]`. */
  function NorthWest(box: GeoBox): LngLat { LngLat(box.sw.lng, box.ne.lat) }

  /** The south-east corner of a geographic box, `[east, south]`. */
  function SouthEast(box: GeoBox): LngLat { LngLat(box.ne.lng, box.sw.lat) }

  /**
    `_translateBounds`: project the north-west and south-east corners, move the first
    `padding` pixels up and left and the second `padding` pixels down and right, and
    take L.bounds of the two. Whatever the transform, the result holds both padded
    corners and each of its edges is one of theirs: it is their componentwise minimum
    and maximum.
   */
  function TranslateBounds(t: Transform, box: GeoBox, padding: real): (r: Bounds)
    ensures var nw := Sub(Project(t, NorthWest(box)), Pixel(padding, padding));
            var se := Add(Project(t, SouthEast(box)), Pixel(padding, padding));
            && Contains(r, nw) && Contains(r, se)
            && (r.min.x == nw.x || r.min.x == se.x) && (r.min.y == nw.y || r.min.y == se.y)
            && (r.max.x == nw.x || r.max.x == se.x) && (r.max.y == nw.y || r.max.y == se.y)
    ensures r.min.x <= r.max.x && r.min.y <= r.max.y
  {
    var nw := Project(t, NorthWest(box));
    var se := Project(t, SouthEast(box));
    BoundsOf(Pixel(nw.x - padding, nw.y - padding), Pixel(se.x + padding, se.y + padding))
  }

  /**
    For a monotone transform, a well-formed box and a padding of at least zero, the
    padded bounds are exactly the north-west corner's pixel minus the padding and the
    south-east corner's pixel plus the padding, componentwise.
   */
  lemma TranslateBoundsCorners(t: Transform, box: GeoBox, padding: real)
    requires Monotone(t) && padding >= 0.0
    requires box.sw.lng <= box.ne.lng && box.sw.lat <= box.ne.lat
    ensures TranslateBounds(t, box, padding).min == Sub(Project(t, NorthWest(box)), Pixel(padding, padding))
    ensures TranslateBounds(t, box, padding).max == Add(Project(t, SouthEast(box)), Pixel(padding, padding))
  {
    ProjectMonotone(t, NorthWest(box), SouthEast(box));
  }

  /**
    With a monotone transform, every feature's pixel lies inside the padded bounds of
    the features' extent, at least `padding` pixels from each edge.
   */
  lemma FeaturesInsideBounds(t: Transform, fs: seq<Feature>, padding: real, i: int)
    requires Monotone(t) && padding >= 0.0 && 0 <= i < |fs|
    ensures var b := TranslateBounds(t, GeoBounds(fs), padding);
            var p := Project(t, fs[i].coordinates);
            b.min.x + padding <= p.x <= b.max.x - padding && b.min.y + padding <= p.y <= b.max.y - padding
  {
    var box := GeoBounds(fs);
    var p := fs[i].coordinates;
    assert Covers(box, p);
    TranslateBoundsCorners(t, box, padding);
    ProjectMonotone(t, NorthWest(box), p);
    ProjectMonotone(t, p, SouthEast(box));
  }
}
