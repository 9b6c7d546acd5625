/**
  The points layer's configuration: its defaults, how caller options override them
  (L.setOptions), how a marker's radius is resolved and which zoom levels the layer
  draws at.
 */
module LayerOptions {
  import opened Wrappers
  import opened Geo

  /**
    The `radius` option: a fixed number, or a function called with the layer as `this`
    and the feature. Through `this` it can read the map's current zoom, so it receives
    that zoom with the feature.
   */
  datatype RadiusOption = Fixed(value: real) | PerFeature(fn: (int, Feature) -> real)

  datatype Options = Options(minZoom: int, maxZoom: int, padding: real, radius: RadiusOption)

  /** The options a caller passes to the constructor; an absent key keeps the default. */
  datatype Overrides = Overrides(minZoom: Option<int>, maxZoom: Option<int>, padding: Option<real>,
                                 radius: Option<RadiusOption>)

  /** The class-level `options`: zoom window 0..18, padding 100 pixels, radius 3. */
  const Defaults: Options := Options(0, 18, 100.0, Fixed(3.0))

  /** Options that override nothing. */
  const NoOverrides: Overrides := Overrides(None, None, None, None)

  /**
    L.setOptions: every key the caller gives replaces the default, every other key
    keeps it. No relation between minZoom and maxZoom is checked.
   */
  function SetOptions(defaults: Options, given: Overrides): (r: Options)
    ensures given.minZoom.Some? ==> r.minZoom == given.minZoom.value
    ensures given.minZoom.None? ==> r.minZoom == defaults.minZoom
    ensures given.maxZoom.Some? ==> r.maxZoom == given.maxZoom.value
    ensures given.maxZoom.None? ==> r.maxZoom == defaults.maxZoom
    ensures given.padding.Some? ==> r.padding == given.padding.value
    ensures given.padding.None? ==> r.padding == defaults.padding
    ensures given.radius.Some? ==> r.radius == given.radius.value
    ensures given.radius.None? ==> r.radius == defaults.radius
  {
    Options(given.minZoom.GetOr(defaults.minZoom), given.maxZoom.GetOr(defaults.maxZoom),
            given.padding.GetOr(defaults.padding), given.radius.GetOr(defaults.radius))
  }

  /**
    Overriding nothing keeps whatever options are in force, and giving every key
    reproduces exactly the options given, whatever the defaults were.
   */
  lemma SetOptionsNeutral(o: Options)
    ensures SetOptions(o, NoOverrides) == o
    ensures SetOptions(Defaults, Overrides(Some(o.minZoom), Some(o.maxZoom),
                                           Some(o.padding), Some(o.radius))) == o
  {
  }

  /**
    `_radius`: the function's value for the feature at the map's current `zoom` when
    `radius` is a function, the number otherwise.
   */
  function ResolveRadius(o: Options, zoom: int, d: Feature): (r: real)
    ensures o.radius.PerFeature? ==> r == o.radius.fn(zoom, d)
    ensures o.radius.Fixed? ==> r == o.radius.value
  {
    match o.radius
    case Fixed(v) => v
    case PerFeature(f) => f(zoom, d)
  }

  /** Without a `radius` option every marker has radius 3, whatever the feature and the zoom. */
  lemma DefaultRadius(given: Overrides, zoom: int, d: Feature)
    requires given.radius.None?
    ensures ResolveRadius(SetOptions(Defaults, given), zoom, d) == 3.0
  {
  }

  /** The guard of `_update`: it proceeds unless the zoom is above maxZoom or below minZoom. */
  predicate InWindow(o: Options, zoom: int) {
    !(zoom > o.maxZoom || zoom < o.minZoom)
  }

  /** The zoom window is the closed interval [minZoom, maxZoom]; by default, 0 to 18. */
  lemma WindowInclusive(o: Options, zoom: int)
    ensures InWindow(o, zoom) <==> o.minZoom <= zoom <= o.maxZoom
    ensures InWindow(o, o.minZoom) <==> o.minZoom <= o.maxZoom
    ensures InWindow(o, o.maxZoom) <==> o.minZoom <= o.maxZoom
    ensures !InWindow(o, o.maxZoom + 1) && !InWindow(o, o.minZoom - 1)
    ensures InWindow(Defaults, zoom) <==> 0 <= zoom <= 18
  {
  }
}
