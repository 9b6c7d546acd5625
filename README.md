# Points layer for Leaflet — a verified model

`L.PointsLayer` is a Leaflet overlay. It draws a fixed collection of GeoJSON point
features as SVG circles and keeps them aligned with the map as the user pans and zooms.
This project models its core in Dafny:

- the lifecycle on a host map: `onAdd`, `onRemove` and `_initContainer`;
- the synchronisation pass `_update`, with its zoom gating, the padded bounds
  (`_translateBounds`), the container geometry and the redrawing of every marker;
- the projection adapter `_project`, radius resolution `_radius` and the option defaults.

Modules:

- `Wrappers`: `Option`, for absent option keys and for a container geometry that has not been set.
- `Geo`: GeoJSON positions (`LngLat`), Leaflet coordinates (`LatLng`), layer pixels (real numbers),
  the geographic extent of the features (`GeoBounds`, for d3.geo.bounds), `Project`
  (`_project`), L.bounds (`BoundsOf`), `getSize` (`Size`) and `TranslateBounds`.
- `LayerOptions`: the defaults (`minZoom` 0, `maxZoom` 18, `padding` 100, `radius` 3), the merge of the
  caller's options over the defaults, `_radius` and the zoom guard of `_update`.
- `ViewportSync`: one pass of `_update` as a function on values (`Sync`), with lemmas for
  gating, alignment, size, containment and idempotence.
- `PointsLayers`: the classes. `HostMap` is the map, with its current zoom and transform.
  `Overlay` is the svg container, with its geometry and one marker per feature in an array.
  `PointsLayer` holds `hostMap` (`_map`), `container` (`_container`) and the `moveend`
  subscription flag. Its methods change these in place and are proved against `Sync`.

The host map's transform (`latLngToLayerPoint`) is a parameter: any function from
`LatLng` to a pixel. Pixels, padding and the container geometry are real numbers. Leaflet
rounds layer points to whole pixels, but the padding may be any number, so bounds, sizes
and margins can be fractional. The containment and size lemmas assume a `Monotone`
transform: x depends on longitude only and grows with it, and y depends on latitude only and grows as latitude falls, as in
spherical Mercator.

Two gaps in the code's own checks:

- The code does not reject `minZoom > maxZoom`. The layer then never draws
  (`InvertedWindowNeverSyncs`).
- The code does not check for an empty feature collection; d3.geo.bounds would then give
  degenerate bounds. The model makes a non-empty collection a precondition of the constructor.

## Model

| member | source | states |
|---|---|---|
| `Geo.GeoBounds` | leaflet.points-layer.js:76 | the extent covers every feature, and each of its four edges is reached by some feature |
| `Geo.GeoBoundsSmallest` | leaflet.points-layer.js:76 | any box covering every feature contains the extent, so the extent is the smallest such box |
| `Geo.ProjectRoundTrip` | leaflet.points-layer.js:100-103 | projecting the GeoJSON form `[lng, lat]` of a Leaflet coordinate gives the transform's own point for `(lat, lng)`: the components are swapped and the pixel is returned unchanged |
| `Geo.ProjectMonotone` | leaflet.points-layer.js:100-103 | under a monotone transform, projected x follows the GeoJSON first component (longitude) and projected y runs against the second (latitude) |
| `Geo.BoundsOf` | leaflet.points-layer.js:112 | L.bounds of two points contains both, and each edge of it comes from one of them (componentwise min and max) |
| `Geo.Size` | leaflet.points-layer.js:77 | `min + getSize() == max` |
| `Geo.TranslateBounds` | leaflet.points-layer.js:105-113 | for any transform, the result is L.bounds of the two padded corners: it contains the north-west corner's pixel minus the padding and the south-east corner's pixel plus the padding, each of its four edges is a coordinate of one of those two points, and min lies above and left of max |
| `Geo.TranslateBoundsCorners` | leaflet.points-layer.js:105-112 | for a monotone transform and padding at least zero, `min = project(west, north) - (padding, padding)` and `max = project(east, south) + (padding, padding)` |
| `Geo.FeaturesInsideBounds` | leaflet.points-layer.js:76-77 | for a monotone transform, every feature's pixel lies inside the padded bounds, at least `padding` from each edge |
| `LayerOptions.SetOptions` | leaflet.points-layer.js:11-12 | every option the caller gives replaces the default, and every other option keeps the default |
| `LayerOptions.SetOptionsNeutral` | leaflet.points-layer.js:4-12 | giving no options keeps whatever options are in force, and giving every key reproduces exactly the options given |
| `LayerOptions.ResolveRadius` | leaflet.points-layer.js:93-98 | a function-valued `radius` is applied to the map's current zoom and the feature, and a numeric one is returned as is |
| `LayerOptions.DefaultRadius` | leaflet.points-layer.js:4-9 | without a `radius` option every marker's radius is 3, at every zoom |
| `LayerOptions.WindowInclusive` | leaflet.points-layer.js:69-73 | the guard passes exactly on `[minZoom, maxZoom]`, both ends included, and fails at `maxZoom + 1` and `minZoom - 1`; with the defaults the window is 0 to 18 |
| `ViewportSync.SyncGating` | leaflet.points-layer.js:69-85 | outside the zoom window a pass leaves the drawing unchanged; inside it, the drawing becomes the fitted layout and the redrawn markers, whatever it was before |
| `ViewportSync.InvertedWindowNeverSyncs` | leaflet.points-layer.js:69-73 | with `minZoom > maxZoom` no pass changes anything |
| `ViewportSync.SyncIdempotent` | leaflet.points-layer.js:65-85 | two passes at the same zoom and transform give the same drawing as one |
| `ViewportSync.LayoutAligned` | leaflet.points-layer.js:75-82 | the container's margin is `bounds.min`; a point projected to `p` is drawn at `p - bounds.min` inside it and lands back on `p`; the container's far corner is `bounds.max` |
| `ViewportSync.LayoutSize` | leaflet.points-layer.js:75-79 | for a monotone transform and padding at least zero, width and height are the projected extent plus `2 * padding`, hence at least `2 * padding` |
| `ViewportSync.MarkersInsideContainer` | leaflet.points-layer.js:79-84 | for a monotone transform and padding at least zero, every redrawn marker lies inside `[0, width] x [0, height]`, at least `padding` from each edge |
| `ViewportSync.SinglePointScenario` | leaflet.points-layer.js:65-85 | one feature at (0, 0), padding 10, (0, 0) projected to (100, 100): bounds (90, 90) to (110, 110), a 20 by 20 container, the marker at (10, 10) inside it; a whole pass at any zoom from 0 to 18 gives exactly that container and that one marker, whatever was shown before |
| `PointsLayers.Overlay.constructor` | leaflet.points-layer.js:51-59 | a new container has no geometry set and one blank marker per feature |
| `PointsLayers.PointsLayer.constructor` | leaflet.points-layer.js:11-16 | the layer starts detached, keeps the features, and holds the caller's options merged over the defaults |
| `PointsLayers.PointsLayer.InitContainer` | leaflet.points-layer.js:48-63 | an existing container is kept; otherwise a new one is built with one blank marker per feature |
| `PointsLayers.PointsLayer.OnAdd` | leaflet.points-layer.js:18-30 | after attaching, the layer is on the map and subscribed, and its container is new and shows one pass over a blank drawing at the map's current view |
| `PointsLayers.PointsLayer.OnRemove` | leaflet.points-layer.js:32-41 | after detaching, map, container and subscription are all cleared |
| `PointsLayers.PointsLayer.Update` | leaflet.points-layer.js:65-85 | when detached nothing changes; when attached the container shows `Sync` of its previous drawing at the map's current zoom and transform |
| `PointsLayers.ReattachRebuilds` | leaflet.points-layer.js:18-63 | attach, detach and attach to a second map: the container and its markers are new, differ from the first attach's container and markers, and show only the second map's view |
| `PointsLayers.UpdateAfterRemove` | leaflet.points-layer.js:65-67 | an update after removal touches nothing, and the removed container keeps its last drawing |
| `PointsLayers.UpdateTwice` | leaflet.points-layer.js:65-85 | two updates with no map change in between leave the container as one update does |

## Left out

- DOM and SVG construction through d3 selections is not modelled. The container is a record of the attributes `_update` writes: width, height, margins and the inner group's translate. The svg and its `g` (`_layer`) are folded into one `Overlay`. After `onRemove` the source keeps a stale `_layer`, which nothing reads.
- The CSS and `transform` strings (`"px"`, `"translate(x,y)"`) are not modelled; their numbers are.
- The SVG path string that d3.geo.path builds for `d` is not modelled. A marker is its projected centre and its resolved radius.
- Leaflet's `latLngToLayerPoint` (spherical Mercator in floating point) is a foreign library. It is an arbitrary transform parameter.
- d3.geo.bounds is a plain min and max over longitude and latitude. Its spherical and antimeridian handling is not modelled.
- The `moveend` event mixin is a boolean `subscribed` flag. Event dispatch is not modelled: a pan is the host changing `HostMap`'s fields, then calling `Update`.
- The `applyStyle` option and `_applyStyle`, `addTo` and the `L.pointsLayer` factory are opaque callbacks or thin glue, and are not modelled.
- The `overlayPane.empty` test in `_initContainer` is always false on a DOM element, so only `!this._container` is modelled. `getPanes()` is not modelled.
- The accidental global `dimensions` (a stray `;` at line 76) has no effect and is a local here.
- LayerOptions.ResolveRadius: a radius function is called with the layer as `this`. The model gives it only what it can read through `this` that changes between passes, the map's current zoom, together with the feature.
- PointsLayers.PointsLayer.OnAdd: requires a detached layer. Leaflet adds a layer to one map at a time, and the model does not cover a second `onAdd` that reuses a container built for another map.
- PointsLayers.PointsLayer.OnRemove: requires the layer to be on that map. The source dereferences `_container.parentNode` and would throw otherwise.
- Geo.TranslateBoundsCorners: holds only for a monotone transform and padding at least zero. For other transforms L.bounds reorders the corners, and `Geo.TranslateBounds` states what then remains true.
- ViewportSync.LayoutSize: holds only for a monotone transform and padding at least zero.
- ViewportSync.MarkersInsideContainer: holds only for a monotone transform and padding at least zero.
- Geo.FeaturesInsideBounds: holds only for a monotone transform and padding at least zero.
