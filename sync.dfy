/**
  One synchronisation pass of the points layer (`_update`) as a function on values:
  the padded bounds of the features, the container geometry fitted to them, the
  markers, and the properties the pass keeps: zoom gating, alignment, containment
  and idempotence.
 */
module ViewportSync {
  import opened Wrappers
  import opened Geo
  import opened LayerOptions

  /** The attributes `_update` writes: the svg's width, height and margins and the inner group's translate. */
  datatype Geometry = Geometry(width: real, height: real, marginLeft: real, marginTop: real, translate: Pixel)

  /** One `path.circle` per feature; Blank until its `d` attribute is first set. */
  datatype Marker = Blank | Circle(center: Pixel, radius: real)

  /** What the container shows: its geometry (None while never set) and one marker per feature, in order. */
  datatype Drawing = Drawing(geometry: Option<Geometry>, markers: seq<Marker>)

  /** What `_update` reads from the map: its zoom and its current transform. */
  datatype View = View(zoom: int, transform: Transform)

  /** A container just built by `_initContainer`: no geometry set and `n` markers with no `d`. */
  function Fresh(n: nat): Drawing {
    Drawing(None, seq(n, _ => Blank))
  }

  /** `bounds` in `_update`: the padded pixel box of the features' geographic extent. */
  function PaddedBounds(t: Transform, fs: seq<Feature>, padding: real): Bounds
    requires |fs| > 0
  {
    TranslateBounds(t, GeoBounds(fs), padding)
  }

  /** The container geometry for the current transform: size of the bounds, margins at its top-left, group shifted back by it. */
  function Layout(t: Transform, fs: seq<Feature>, padding: real): Geometry
    requires |fs| > 0
  {
    var b := PaddedBounds(t, fs, padding);
    var size := Size(b);
    Geometry(size.x, size.y, b.min.x, b.min.y, Pixel(-b.min.x, -b.min.y))
  }

  /** The circle d3.geo.path draws for one feature: its projected centre and its radius resolved at the current zoom. */
  function MarkerFor(v: View, o: Options, d: Feature): Marker {
    Circle(Project(v.transform, d.coordinates), ResolveRadius(o, v.zoom, d))
  }

  /** Every marker redrawn, one per feature, in feature order. */
  function Render(v: View, o: Options, fs: seq<Feature>): seq<Marker> {
    seq(|fs|, i requires 0 <= i < |fs| => MarkerFor(v, o, fs[i]))
  }

  /** The effect of one `_update` on an attached layer's drawing. */
  function Sync(d: Drawing, v: View, o: Options, fs: seq<Feature>): Drawing
    requires |fs| > 0
  {
    if !InWindow(o, v.zoom) then d
    else Drawing(Some(Layout(v.transform, fs, o.padding)), Render(v, o, fs))
  }

  /** Where a layer pixel is drawn inside the container: moved by the inner group's translate. */
  function Local(g: Geometry, p: Pixel): Pixel {
    Add(p, g.translate)
  }

  /** Where a point of the container sits in layer pixels: moved by the container's margins. */
  function Placed(g: Geometry, q: Pixel): Pixel {
    Add(q, Pixel(g.marginLeft, g.marginTop))
  }

  /**
    Zoom gating: outside [minZoom, maxZoom] the pass leaves the drawing exactly as it
    was; inside it, both ends included, the drawing is replaced by the fresh layout
    and markers, whatever it was before.
   */
  lemma SyncGating(d: Drawing, v: View, o: Options, fs: seq<Feature>)
    requires |fs| > 0
    ensures (v.zoom > o.maxZoom || v.zoom < o.minZoom) ==> Sync(d, v, o, fs) == d
    ensures o.minZoom <= v.zoom <= o.maxZoom ==>
              Sync(d, v, o, fs) == Drawing(Some(Layout(v.transform, fs, o.padding)), Render(v, o, fs))
  {
  }

  /** Options with minZoom above maxZoom are accepted, and then no pass ever draws anything. */
  lemma InvertedWindowNeverSyncs(d: Drawing, v: View, o: Options, fs: seq<Feature>)
    requires |fs| > 0 && o.minZoom > o.maxZoom
    ensures Sync(d, v, o, fs) == d
  {
  }

  /** Two passes with no change of zoom or transform in between leave the same drawing as one. */
  lemma SyncIdempotent(d: Drawing, v: View, o: Options, fs: seq<Feature>)
    requires |fs| > 0
    ensures Sync(Sync(d, v, o, fs), v, o, fs) == Sync(d, v, o, fs)
  {
  }

  /**
    Alignment: the container's top-left sits at `bounds.min`, the inner group is shifted
    by `-bounds.min`, so a point projected to `p` is drawn at `p - bounds.min` inside the
    container and lands back on `p` on the map.
   */
  lemma LayoutAligned(t: Transform, fs: seq<Feature>, padding: real, p: Pixel)
    requires |fs| > 0
    ensures var g := Layout(t, fs, padding);
            var b := PaddedBounds(t, fs, padding);
            && Pixel(g.marginLeft, g.marginTop) == b.min
            && Local(g, p) == Sub(p, b.min)
            && Placed(g, Local(g, p)) == p
            && Placed(g, Pixel(g.width, g.height)) == b.max
  {
  }

  /**
    Under a monotone transform with padding at least zero, the container is the
    projected extent of the features plus `2.0 * padding` in each direction, hence at
    least `2.0 * padding` wide and high.
   */
  lemma LayoutSize(t: Transform, fs: seq<Feature>, padding: real)
    requires |fs| > 0 && Monotone(t) && padding >= 0.0
    ensures var g := Layout(t, fs, padding);
            var box := GeoBounds(fs);
            var nw := Project(t, NorthWest(box));
            var se := Project(t, SouthEast(box));
            && g.width == se.x - nw.x + 2.0 * padding >= 2.0 * padding
            && g.height == se.y - nw.y + 2.0 * padding >= 2.0 * padding
  {
    var box := GeoBounds(fs);
    TranslateBoundsCorners(t, box, padding);
    ProjectMonotone(t, NorthWest(box), SouthEast(box));
  }

  /**
    Containment: under a monotone transform with padding at least zero, after a pass
    every marker is drawn inside the container, at least `padding` pixels from each of
    its edges.
   */
  lemma MarkersInsideContainer(v: View, o: Options, fs: seq<Feature>, i: int)
    requires |fs| > 0 && Monotone(v.transform) && o.padding >= 0.0 && 0 <= i < |fs|
    ensures var g := Layout(v.transform, fs, o.padding);
            var q := Local(g, Render(v, o, fs)[i].center);
            o.padding <= q.x <= g.width - o.padding && o.padding <= q.y <= g.height - o.padding
  {
    FeaturesInsideBounds(v.transform, fs, o.padding, i);
  }

  /**
    A single feature at (0, 0), padding 10, and a transform taking (0, 0) to (100, 100):
    the bounds run from (90, 90) to (110, 110), the container is 20 by 20 and the
    marker is drawn at (10, 10) inside it. A whole pass at any zoom of the default
    window gives exactly that container and that one marker, whatever was shown before.
   */
  lemma SinglePointScenario(t: Transform, props: map<string, string>, d: Drawing, zoom: int)
    requires t(LatLng(0.0, 0.0)) == Pixel(100.0, 100.0)
    requires 0 <= zoom <= 18
    ensures var fs := [Feature(LngLat(0.0, 0.0), props)];
            var o := Options(0, 18, 10.0, Fixed(3.0));
            var g := Layout(t, fs, 10.0);
            && PaddedBounds(t, fs, 10.0) == Bounds(Pixel(90.0, 90.0), Pixel(110.0, 110.0))
            && g.width == 20.0 && g.height == 20.0
            && Local(g, Pixel(100.0, 100.0)) == Pixel(10.0, 10.0)
            && Sync(d, View(zoom, t), o, fs)
               == Drawing(Some(Geometry(20.0, 20.0, 90.0, 90.0, Pixel(-90.0, -90.0))), [Circle(Pixel(100.0, 100.0), 3.0)])
  {
    var fs := [Feature(LngLat(0.0, 0.0), props)];
    assert GeoBounds(fs) == GeoBox(LngLat(0.0, 0.0), LngLat(0.0, 0.0));
    assert Render(View(zoom, t), Options(0, 18, 10.0, Fixed(3.0)), fs) == [Circle(Pixel(100.0, 100.0), 3.0)];
  }
}
