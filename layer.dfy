/**
  The points layer as an object: its lifecycle on a host map (`onAdd`, `onRemove`,
  `_initContainer`) and the synchronisation pass (`_update`) that rewrites the
  container's geometry and markers in place.
 */
module PointsLayers {
  import opened Wrappers
  import opened Geo
  import opened LayerOptions
  import opened ViewportSync

  /**
    The host Leaflet map, reduced to what the layer reads from it. Panning and zooming
    the map change these two fields between passes.
   */
  class HostMap {
    var zoom: int
    var transform: Transform

    constructor (zoom: int, transform: Transform)
      ensures this.zoom == zoom && this.transform == transform
    {
      this.zoom := zoom;
      this.transform := transform;
    }

    /** What one pass reads: `getZoom()` and `latLngToLayerPoint` as they stand now. */
    function CurrentView(): View
      reads this
    {
      View(zoom, transform)
    }
  }

  /** The svg element `_initContainer` appends, with its inner group and its one `path.circle` per feature. */
  class Overlay {
    var geometry: Option<Geometry>
    const markers: array<Marker>

    /** A new svg: no size or margins set, and `n` paths with no `d` attribute yet. */
    constructor (n: nat)
      ensures fresh(markers) && markers.Length == n
      ensures Shown() == Fresh(n)
    {
      geometry := None;
      markers := new Marker[n](_ => Blank);
    }

    function Shown(): Drawing
      reads this, markers
    {
      Drawing(geometry, markers[..])
    }
  }

  class PointsLayer {
    const features: seq<Feature>
    const options: Options
    /** `_map`: the map the layer is on, or null while detached. */
    var hostMap: HostMap?
    /** `_container`: the svg, or null until built and again after removal. */
    var container: Overlay?
    /** Whether `_update` is registered for the map's `moveend` event. */
    var subscribed: bool

    /** The container, when there is one, has exactly one marker per feature. */
    ghost predicate Shaped()
      reads this, container
    {
      && |features| > 0
      && (container != null ==> container.markers.Length == |features|)
    }

    /**
      The lifecycle invariant between calls: detached means no map, no container and no
      subscription; attached means all three.
     */
    ghost predicate Valid()
      reads this, container
    {
      && Shaped()
      && (hostMap == null <==> container == null)
      && (subscribed <==> hostMap != null)
    }

    /** `initialize`: keep the features and merge the caller's options over the defaults. */
    constructor (data: seq<Feature>, given: Overrides)
      requires |data| > 0
      ensures Valid() && hostMap == null
      ensures features == data && options == SetOptions(Defaults, given)
    {
      features := data;
      options := SetOptions(Defaults, given);
      hostMap := null;
      container := null;
      subscribed := false;
    }

    /**
      `onAdd`: remember the map, build the container, subscribe to `moveend` and run one
      pass. The container is new, holds one marker per feature, and shows what one pass
      over a fresh container gives at the map's current view.
     */
    method OnAdd(m: HostMap)
      requires Valid() && hostMap == null
      modifies this
      ensures Valid() && hostMap == m && subscribed
      ensures container != null && fresh(container) && fresh(container.markers)
      ensures container.Shown() == Sync(Fresh(|features|), m.CurrentView(), options, features)
      ensures |container.Shown().markers| == |features|
    {
      hostMap := m;
      InitContainer();
      subscribed := true;
      Update();
    }

    /**
      `onRemove`: take the container off the map, unsubscribe from `moveend` and drop
      both references, so that the next `onAdd` builds a new container.
     */
    method OnRemove(m: HostMap)
      requires Valid() && hostMap == m
      modifies this
      ensures Valid() && hostMap == null && container == null && !subscribed
    {
      subscribed := false;
      container := null;
      hostMap := null;
    }

    /** `_initContainer`: build the svg and one marker per feature unless a container already exists. */
    method InitContainer()
      requires Shaped() && hostMap != null
      modifies this`container
      ensures Shaped() && container != null
      ensures old(container) != null ==> container == old(container)
      ensures old(container) == null ==>
                fresh(container) && fresh(container.markers) && container.Shown() == Fresh(|features|)
    {
      if container == null {
        container := new Overlay(|features|);
      }
    }

    /**
      `_update`: nothing when detached or when the zoom is outside [minZoom, maxZoom];
      otherwise size and place the container on the padded bounds of the features, shift
      the inner group back by the bounds' top-left, and redraw every marker.
     */
    method Update()
      requires Shaped() && (hostMap != null ==> container != null)
      modifies if container == null then {} else {container as object, container.markers}
      ensures container != null && hostMap == null ==> container.Shown() == old(container.Shown())
      ensures hostMap != null ==> container.Shown() == Sync(old(container.Shown()), hostMap.CurrentView(), options, features)
    {
      if hostMap == null {
        return;
      }
      var zoom := hostMap.zoom;
      if zoom > options.maxZoom || zoom < options.minZoom {
        return;
      }
      var t := hostMap.transform;
      var padding := options.padding;
      var bounds := TranslateBounds(t, GeoBounds(features), padding);
      var dimensions := Size(bounds);
      container.geometry := Some(Geometry(dimensions.x, dimensions.y, bounds.min.x, bounds.min.y,
                                          Pixel(-bounds.min.x, -bounds.min.y)));
      var view := hostMap.CurrentView();
      var circles := container.markers;
      var i := 0;
      while i < circles.Length
        invariant 0 <= i <= circles.Length
        invariant container.geometry == Some(Layout(t, features, padding))
        invariant forall k :: 0 <= k < i ==> circles[k] == MarkerFor(view, options, features[k])
      {
        circles[i] := MarkerFor(view, options, features[i]);
        i := i + 1;
      }
      assert circles[..] == Render(view, options, features);
    }
  }

  /**
    Attach, detach, attach to another map: the second container and its markers are
    new, neither is the first attach's container (`earlier`) or its markers, and they
    show only what the second map's view gives.
   */
  method ReattachRebuilds(layer: PointsLayer, first: HostMap, second: HostMap) returns (earlier: Overlay)
    requires layer.Valid() && layer.hostMap == null
    modifies layer
    ensures layer.Valid() && layer.hostMap == second && layer.subscribed
    ensures fresh(earlier) && fresh(earlier.markers)
    ensures layer.container != null && fresh(layer.container) && fresh(layer.container.markers)
    ensures layer.container != earlier && layer.container.markers != earlier.markers
    ensures layer.container.Shown() == Sync(Fresh(|layer.features|), second.CurrentView(), layer.options, layer.features)
  {
    layer.OnAdd(first);
    earlier := layer.container;
    layer.OnRemove(first);
    layer.OnAdd(second);
  }

  /** After `onRemove`, a late `_update` touches nothing: the removed container keeps its last drawing. */
  method UpdateAfterRemove(layer: PointsLayer, m: HostMap)
    requires layer.Valid() && layer.hostMap == m
    modifies layer
    ensures layer.Valid() && layer.hostMap == null && layer.container == null
    ensures old(layer.container) != null && old(layer.container).Shown() == old(layer.container.Shown())
  {
    layer.OnRemove(m);
    layer.Update();
  }

  /** Two passes with no change to the map in between leave the same drawing as one. */
  method UpdateTwice(layer: PointsLayer)
    requires layer.Valid() && layer.hostMap != null
    modifies layer.container, layer.container.markers
    ensures layer.container.Shown()
            == Sync(old(layer.container.Shown()), layer.hostMap.CurrentView(), layer.options, layer.features)
  {
    layer.Update();
    layer.Update();
    SyncIdempotent(old(layer.container.Shown()), layer.hostMap.CurrentView(), layer.options, layer.features);
  }
}
