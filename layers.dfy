/** The layer viewer page: the layer metadata fetched for a layer becomes map
    bounds, a raster or vector tile layer with its zoom limit, and the area
    polygon; a failed fetch may log the user out. */
module LayersPage {
  import opened Js

  /** A JSON value as the layer endpoint returns it. */
  datatype Json =
    | JNull
    | JBool(b: bool)
    | JNumber(n: real)
    | JString(s: string)
    | JArray(items: seq<Json>)
    | JObject(fields: map<string, Json>)

  /** JavaScript truthiness of a value read from JSON; `None` is `undefined`.
      JSON has no NaN, so the falsy values are null, false, 0 and "". */
  predicate Truthy(v: Option<Json>)
  {
    match v
    case None => false
    case Some(JNull) => false
    case Some(JBool(b)) => b
    case Some(JNumber(n)) => n != 0.0
    case Some(JString(s)) => s != ""
    case Some(_) => true
  }

  /** `v.key` for the keys this page reads (`maxZoom`, `styles`): an object's own
      member, `undefined` for anything else. */
  function Property(v: Json, key: string): Option<Json>
  {
    if v.JObject? && key in v.fields then Some(v.fields[key]) else None
  }

  /** The layer metadata. `extent` is `None` when the response has none;
      `extraFields` and `areaGeom` are `None` when absent. */
  datatype Layer = Layer(
    extent: Option<seq<real>>,
    layerType: string,
    tilesUrl: string,
    extraFields: Option<Json>,
    areaGeom: Option<Json>)

  /** A Leaflet `[lat, lng]` pair; an entry is `None` when it was read past the
      end of a short `extent`. */
  datatype LatLng = LatLng(lat: Option<real>, lng: Option<real>)

  /** `[minBounds, maxBounds]`. */
  datatype Bounds = Bounds(min: LatLng, max: LatLng)

  datatype Viewport = Viewport(centerLat: real, centerLng: real, zoom: real)

  const InitialViewport: Viewport := Viewport(-36.179114636463652, -62.846142338298094, 12.0)

  /** The zoom limit used when the layer sets none. */
  const DefaultMaxZoom: real := 18.0

  /** `extent[i]`: `undefined` past the end. */
  function At(e: seq<real>, i: nat): Option<real>
  {
    if i < |e| then Some(e[i]) else None
  }

  /** `[[extent[1], extent[0]], [extent[3], extent[2]]]`: the extent lists
      (x, y) = (longitude, latitude) corners, Leaflet wants (latitude, longitude). */
  function BoundsOf(e: seq<real>): (b: Bounds)
    ensures (b.min.lng.Some? <==> |e| >= 1) && (b.min.lat.Some? <==> |e| >= 2)
    ensures (b.max.lng.Some? <==> |e| >= 3) && (b.max.lat.Some? <==> |e| >= 4)
  {
    Bounds(LatLng(At(e, 1), At(e, 0)), LatLng(At(e, 3), At(e, 2)))
  }

  /** The extent read back from bounds, corner by corner in (x, y) order. */
  function ExtentOf(b: Bounds): seq<Option<real>>
  {
    [b.min.lng, b.min.lat, b.max.lng, b.max.lat]
  }

  /** Every coordinate pair of a four-number extent is swapped, and swapping back
      gives the extent again. */
  lemma BoundsSwapCoordinates(e: seq<real>)
    requires |e| == 4
    ensures BoundsOf(e).min == LatLng(Some(e[1]), Some(e[0]))
    ensures BoundsOf(e).max == LatLng(Some(e[3]), Some(e[2]))
    ensures ExtentOf(BoundsOf(e)) == [Some(e[0]), Some(e[1]), Some(e[2]), Some(e[3])]
  {
  }

  /** Distinct four-number extents give distinct bounds. */
  lemma BoundsOfInjective(e1: seq<real>, e2: seq<real>)
    requires |e1| == 4 && |e2| == 4
    requires BoundsOf(e1) == BoundsOf(e2)
    ensures e1 == e2
  {
    assert ExtentOf(BoundsOf(e1)) == ExtentOf(BoundsOf(e2));
    assert forall i :: 0 <= i < 4 ==> e1[i] == e2[i];
  }

  /** `(layer.extra_fields && layer.extra_fields.maxZoom) || 18`. */
  function MaxZoom(layer: Layer): (z: Json)
    ensures Truthy(Some(z))
  {
    if Truthy(layer.extraFields) && Truthy(Property(layer.extraFields.value, "maxZoom"))
    then Property(layer.extraFields.value, "maxZoom").value
    else JNumber(DefaultMaxZoom)
  }

  /** The layer's own `maxZoom` is used exactly when `extra_fields` is present
      and `maxZoom` is truthy; a 0, a null or a missing `maxZoom` gives 18. */
  lemma MaxZoomDefault(layer: Layer, fields: map<string, Json>)
    requires layer.extraFields == Some(JObject(fields))
    ensures MaxZoom(layer.(extraFields := None)) == JNumber(DefaultMaxZoom)
    ensures MaxZoom(layer.(extraFields := Some(JNull))) == JNumber(DefaultMaxZoom)
    ensures "maxZoom" in fields && Truthy(Some(fields["maxZoom"])) ==> MaxZoom(layer) == fields["maxZoom"]
    ensures "maxZoom" !in fields ==> MaxZoom(layer) == JNumber(18.0)
    ensures ("maxZoom" in fields && fields["maxZoom"] in {JNull, JNumber(0.0), JBool(false), JString("")})
            ==> MaxZoom(layer) == JNumber(18.0)
  {
  }

  /** `layer.extra_fields && layer.extra_fields["styles"]`: the falsy
      `extra_fields` itself when there is none, otherwise its `styles`. */
  function Styles(layer: Layer): (r: Option<Json>)
    ensures !Truthy(layer.extraFields) ==> !Truthy(r)
    ensures layer.extraFields.Some? && layer.extraFields.value.JObject? && "styles" in layer.extraFields.value.fields
            ==> r == Some(layer.extraFields.value.fields["styles"])
  {
    if Truthy(layer.extraFields) then Property(layer.extraFields.value, "styles") else layer.extraFields
  }

  /** The tile layer element `render` builds. The vector layer is always of type
      "protobuf" with id "layer" and empty subdomains. */
  datatype TileLayer =
    | RasterTileLayer(url: string, maxZoom: Json)
    | VectorTileLayer(url: string, maxNativeZoom: Json, styles: Option<Json>)

  /** The tile layer of `render`: none without a layer; a raster layer for layer
      type "R"; a protobuf vector layer for every other type. */
  function TileLayerOf(layer: Option<Layer>): (t: Option<TileLayer>)
    ensures t.None? <==> layer.None?
    ensures t.Some? ==> t.value.url == layer.value.tilesUrl
    ensures t.Some? ==> (t.value.RasterTileLayer? <==> layer.value.layerType == "R")
    ensures t.Some? && t.value.RasterTileLayer? ==> t.value.maxZoom == MaxZoom(layer.value)
    ensures t.Some? && t.value.VectorTileLayer? ==>
              t.value.maxNativeZoom == MaxZoom(layer.value) && t.value.styles == Styles(layer.value)
  {
    match layer
    case None => None
    case Some(l) =>
      if l.layerType == "R" then Some(RasterTileLayer(l.tilesUrl, MaxZoom(l)))
      else Some(VectorTileLayer(l.tilesUrl, MaxZoom(l), Styles(l)))
  }

  /** `layer && layer.area_geom`: no area without a layer. */
  function AreaData(layer: Option<Layer>): (r: Option<Json>)
    ensures layer.None? ==> r.None?
    ensures layer.Some? ==> r == layer.value.areaGeom
  {
    if layer.Some? then layer.value.areaGeom else None
  }

  /** What the map is rendered with. */
  datatype MapView = MapView(bounds: Option<Bounds>, viewport: Viewport, roiData: Option<Json>, tileLayer: Option<TileLayer>)

  // ---------------------------------------------------------------------------
  // The fetch and its failure
  // ---------------------------------------------------------------------------

  datatype HttpResponse = HttpResponse(status: int)

  /** A rejected request, with the server's response when there was one. */
  datatype FetchError = FetchError(response: Option<HttpResponse>)

  datatype FetchOutcome = Loaded(data: Layer) | Failed(error: FetchError)

  /** The condition of the `catch` handler: `!response || response.status >= 400`. */
  predicate ShouldLogout(err: FetchError)
  {
    err.response.None? || err.response.value.status >= 400
  }

  /** The error the `catch` handler receives, if any. Reading `extent[1]` of a
      layer without an extent throws inside the `then` handler; that error has
      no response and reaches the `catch` handler too. */
  function Rejection(outcome: FetchOutcome): (r: Option<FetchError>)
    ensures r.None? <==> outcome.Loaded? && outcome.data.extent.Some?
    ensures outcome.Failed? ==> r == Some(outcome.error)
    ensures outcome.Loaded? && r.Some? ==> r.value.response.None?
  {
    match outcome
    case Loaded(layer) => if layer.extent.Some? then None else Some(FetchError(None))
    case Failed(err) => Some(err)
  }

  /** The user is logged out exactly when the request failed without a response
      or with a status of 400 or above, or the loaded layer had no extent. */
  lemma LogoutDecision(outcome: FetchOutcome)
    ensures Rejection(outcome).Some? && ShouldLogout(Rejection(outcome).value) <==>
              || (outcome.Failed? && outcome.error.response.None?)
              || (outcome.Failed? && outcome.error.response.Some? && outcome.error.response.value.status >= 400)
              || (outcome.Loaded? && outcome.data.extent.None?)
  {
  }

  // ---------------------------------------------------------------------------
  // The component
  // ---------------------------------------------------------------------------

  class Layers {
    var layer: Option<Layer>
    var bounds: Option<Bounds>
    var viewport: Viewport

    /** `layer` and `bounds` are set together, and the bounds are those of the
        layer's extent. */
    ghost predicate Valid()
      reads this
    {
      && (layer.Some? <==> bounds.Some?)
      && (layer.Some? ==> layer.value.extent.Some? && bounds.value == BoundsOf(layer.value.extent.value))
    }

    constructor ()
      ensures Valid()
      ensures layer == None && bounds == None && viewport == InitialViewport
    {
      layer := None;
      bounds := None;
      viewport := InitialViewport;
    }

    /** `componentDidMount` once the request has settled: a loaded layer with an
        extent sets `layer` and `bounds`; otherwise nothing changes and `logout`
        is the decision of the `catch` handler. */
    method ComponentDidMount(outcome: FetchOutcome) returns (logout: bool)
      requires Valid()
      modifies this
      ensures Valid()
      ensures viewport == old(viewport)
      ensures Rejection(outcome).None? ==>
                && layer == Some(outcome.data)
                && bounds == Some(BoundsOf(outcome.data.extent.value))
                && !logout
      ensures Rejection(outcome).Some? ==>
                && layer == old(layer) && bounds == old(bounds)
                && logout == ShouldLogout(Rejection(outcome).value)
    {
      match outcome
      case Loaded(data) =>
        if data.extent.None? {
          logout := ShouldLogout(FetchError(None));
          return;
        }
        var e := data.extent.value;
        var minBounds := LatLng(At(e, 1), At(e, 0));
        var maxBounds := LatLng(At(e, 3), At(e, 2));
        layer, bounds := Some(data), Some(Bounds(minBounds, maxBounds));
        logout := false;
      case Failed(err) =>
        logout := ShouldLogout(err);
    }

    /** `_onMapViewportChanged`. */
    method OnMapViewportChanged(v: Viewport)
      requires Valid()
      modifies this
      ensures Valid()
      ensures viewport == v && layer == old(layer) && bounds == old(bounds)
    {
      viewport := v;
    }

    /** What `render` passes to the map. */
    function Render(): (m: MapView)
      reads this
      requires Valid()
      ensures m.bounds == bounds && m.viewport == viewport
      ensures m.tileLayer.None? <==> bounds.None?
      ensures layer.None? ==> m.roiData.None?
      ensures layer.Some? ==> m.roiData == layer.value.areaGeom
      ensures m.tileLayer == TileLayerOf(layer)
    {
      MapView(bounds, viewport, AreaData(layer), TileLayerOf(layer))
    }
  }
}
