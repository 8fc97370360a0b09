/**
 * The map store of frontend/src/stores/mapStore.js: centre, zoom, layer
 * switches, the selected location and the risk markers. The build-time
 * environment values (VITE_DEFAULT_LAT, _LON, _ZOOM) are inputs, already
 * parsed; `None` stands for a value that is absent or does not parse.
 */
module MapStore {
  import opened Wrappers

  const DefaultLatitude: real := 14.5995
  const DefaultLongitude: real := 120.9842
  const DefaultZoom: int := 10

  /** `parseFloat(env) || fallback`: a missing, unparsable or zero value gives the fallback. */
  function EnvOr(v: Option<real>, fallback: real): (r: real)
    ensures v.Some? && v.value != 0.0 ==> r == v.value
    ensures v.None? || v.value == 0.0 ==> r == fallback
  {
    if v.Some? && v.value != 0.0 then v.value else fallback
  }

  /** `parseInt(env) || 10`. */
  function EnvZoomOr(v: Option<int>): (r: int)
    ensures v.Some? && v.value != 0 ==> r == v.value
    ensures v.None? || v.value == 0 ==> r == DefaultZoom
  {
    if v.Some? && v.value != 0 then v.value else DefaultZoom
  }

  /** The configuration read at start-up and on `reset`. */
  datatype Env = Env(lat: Option<real>, lon: Option<real>, zoom: Option<int>)

  /** The three layers, all on. */
  const DefaultLayers: map<string, bool> := map["precipitation" := true, "floodZones" := true, "markers" := true]

  /** A selected place on the map. */
  datatype Point = Point(lat: real, lng: real)

  /** A risk marker as the map draws it. */
  datatype Marker = Marker(lat: real, lon: real, score: real, level: string)

  /** `{...layers, [name]: !layers[name]}`: an absent layer reads as undefined, so it becomes true. */
  function Toggled(layers: map<string, bool>, name: string): (r: map<string, bool>)
    ensures r.Keys == layers.Keys + {name}
    ensures name in layers ==> r[name] == !layers[name]
    ensures name !in layers ==> r[name]
    ensures forall other :: other in layers && other != name ==> other in r && r[other] == layers[other]
  {
    layers[name := !(name in layers && layers[name])]
  }

  /** Toggling a known layer twice restores the switches; an unknown one ends up false. */
  lemma ToggledTwice(layers: map<string, bool>, name: string)
    ensures name in layers ==> Toggled(Toggled(layers, name), name) == layers
    ensures name !in layers ==> Toggled(Toggled(layers, name), name) == layers[name := false]
  {
    var once := Toggled(layers, name);
    var twice := Toggled(once, name);
    if name in layers {
      assert twice.Keys == layers.Keys;
      assert forall k :: k in layers ==> twice[k] == layers[k];
    }
  }

  class Store {
    var center: (real, real)
    var zoom: int
    var layers: map<string, bool>
    var selectedLocation: Option<Point>
    var riskMarkers: seq<Marker>

    /** The initial state. */
    constructor (env: Env)
      ensures center == (EnvOr(env.lat, DefaultLatitude), EnvOr(env.lon, DefaultLongitude))
      ensures zoom == EnvZoomOr(env.zoom) && layers == DefaultLayers
      ensures selectedLocation == None && riskMarkers == []
    {
      center := (EnvOr(env.lat, DefaultLatitude), EnvOr(env.lon, DefaultLongitude));
      zoom := EnvZoomOr(env.zoom);
      layers := DefaultLayers;
      selectedLocation := None;
      riskMarkers := [];
    }

    method SetCenter(lat: real, lon: real)
      modifies this
      ensures center == (lat, lon)
      ensures zoom == old(zoom) && layers == old(layers)
      ensures selectedLocation == old(selectedLocation) && riskMarkers == old(riskMarkers)
    {
      center := (lat, lon);
    }

    method SetZoom(z: int)
      modifies this
      ensures zoom == z
      ensures center == old(center) && layers == old(layers)
      ensures selectedLocation == old(selectedLocation) && riskMarkers == old(riskMarkers)
    {
      zoom := z;
    }

    /** Flips only the named layer. */
    method ToggleLayer(name: string)
      modifies this
      ensures layers == Toggled(old(layers), name)
      ensures center == old(center) && zoom == old(zoom)
      ensures selectedLocation == old(selectedLocation) && riskMarkers == old(riskMarkers)
    {
      layers := Toggled(layers, name);
    }

    method SetSelectedLocation(location: Option<Point>)
      modifies this
      ensures selectedLocation == location
      ensures center == old(center) && zoom == old(zoom)
      ensures layers == old(layers) && riskMarkers == old(riskMarkers)
    {
      selectedLocation := location;
    }

    method SetRiskMarkers(markers: seq<Marker>)
      modifies this
      ensures riskMarkers == markers
      ensures center == old(center) && zoom == old(zoom)
      ensures layers == old(layers) && selectedLocation == old(selectedLocation)
    {
      riskMarkers := markers;
    }

    method ClearRiskMarkers()
      modifies this
      ensures riskMarkers == []
      ensures center == old(center) && zoom == old(zoom)
      ensures layers == old(layers) && selectedLocation == old(selectedLocation)
    {
      riskMarkers := [];
    }

    /** Back to the initial state for the same configuration. */
    method Reset(env: Env)
      modifies this
      ensures center == (EnvOr(env.lat, DefaultLatitude), EnvOr(env.lon, DefaultLongitude))
      ensures zoom == EnvZoomOr(env.zoom) && layers == DefaultLayers
      ensures selectedLocation == None && riskMarkers == []
    {
      center := (EnvOr(env.lat, DefaultLatitude), EnvOr(env.lon, DefaultLongitude));
      zoom := EnvZoomOr(env.zoom);
      layers := DefaultLayers;
      selectedLocation := None;
      riskMarkers := [];
    }
  }
}
