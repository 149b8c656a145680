/**
 * The page's map effect (`MapEffect`): once the map and the default marker
 * exist, it moves the marker and a popup to the current location (or to the
 * default location when the lookup fails), fetches the countries and adds
 * one marker per country, each badged with its case count.  The outcomes of
 * the location lookup and of the fetch are parameters.  Building the layer
 * (`new L.GeoJSON`) turns each Point into a Leaflet position, latitude from
 * the second coordinate and longitude from the first, and throws when either
 * is absent; the run then ends without adding a layer.
 */
module MapEffect {
  import opened Wrappers
  import opened Features
  import opened CaseBadge

  /** A Leaflet position, latitude first. */
  datatype LatLng = LatLng(lat: real, lng: real)

  /** The default location, `{ lat: 0, lng: 0 }`. */
  const LOCATION := LatLng(0.0, 0.0)

  /** The map's initial centre and the default marker's initial position, latitude first. */
  const CENTER: seq<real> := [LOCATION.lat, LOCATION.lng]

  /** `getCurrentLocation().catch(() => LOCATION)`; None stands for a failed lookup. */
  function ResolveLocation(lookup: Option<LatLng>): LatLng {
    lookup.GetOr(LOCATION)
  }

  /** What the `pointToLayer` callback builds for a feature: its badge and the hover flag. */
  datatype MarkerView = MarkerView(badge: string, riseOnHover: bool)

  function PointToLayer(f: Feature): MarkerView {
    MarkerView(CasesString(f.properties.cases), true)
  }

  /** Whether Leaflet can place a Point: both of its coordinates are present. */
  predicate Placeable(f: Feature) {
    |f.geometry.coordinates| == 2 && f.geometry.coordinates[0].Some? && f.geometry.coordinates[1].Some?
  }

  /** Whether a record carries both a latitude and a longitude. */
  predicate HasPosition(r: CountryRecord) {
    InfoOf(r).lat.Some? && InfoOf(r).long.Some?
  }

  /** The markers of the GeoJSON layer, one per feature, in order. */
  function Layer(features: seq<Feature>): seq<MarkerView> {
    seq(|features|, i requires 0 <= i < |features| => PointToLayer(features[i]))
  }

  /**
   * What one run of the effect leaves behind: nothing when it returns at the
   * readiness guard; otherwise the marker's and the popup's positions and the
   * markers of the layer added to the map, None when no layer is added.
   */
  datatype Outcome = Skipped | Ran(marker: LatLng, popup: LatLng, layer: Option<seq<MarkerView>>)

  /**
   * One run of the effect.  A failed countries fetch (`Err`, with the error's
   * message) is only logged and ends the run before any layer is built; the
   * location has been applied by then.  A feature Leaflet cannot place makes
   * the layer construction throw, so no layer is added either.
   */
  function RunMapEffect(
    markerReady: bool, mapReady: bool,
    lookup: Option<LatLng>, countries: Result<Payload, string>): Outcome
  {
    if !markerReady || !mapReady then Skipped
    else
      var location := ResolveLocation(lookup);
      var layer :=
        match countries
        case Err(_) => None
        case Ok(response) =>
          match BuildCollection(response)
          case None => None
          case Some(collection) =>
            if forall i :: 0 <= i < |collection.features| ==> Placeable(collection.features[i])
            then Some(Layer(collection.features))
            else None;
      Ran(location, location, layer)
  }

  /** Where the default marker stands after the run: `position={CENTER}` unless the effect moved it. */
  function MarkerAt(o: Outcome): LatLng
    requires |CENTER| == 2
  {
    match o
    case Skipped => LatLng(CENTER[0], CENTER[1])
    case Ran(marker, _, _) => marker
  }

  /**
   * The effect runs only when both the marker and the map are ready; the
   * marker and the popup are then placed at the same position, which is
   * exactly (0, 0) when the lookup fails and the looked-up location otherwise.
   * A marker the effect does not move stays at its initial (0, 0).
   */
  lemma EffectPosition(markerReady: bool, mapReady: bool,
                       lookup: Option<LatLng>, countries: Result<Payload, string>)
    ensures var o := RunMapEffect(markerReady, mapReady, lookup, countries);
      && (o.Ran? <==> markerReady && mapReady)
      && (o.Ran? ==> o.marker == o.popup)
      && (o.Ran? && lookup.None? ==> o.marker == LatLng(0.0, 0.0))
      && (o.Ran? && lookup.Some? ==> o.marker == lookup.value)
      && (!(markerReady && mapReady) || lookup.None? ==> MarkerAt(o) == LatLng(0.0, 0.0))
      && (markerReady && mapReady && lookup.Some? ==> MarkerAt(o) == lookup.value)
  {
  }

  /**
   * A layer is added exactly when the fetch succeeded with a non-empty array
   * of records that all carry a latitude and a longitude; it then holds one
   * marker per country, in order, badged with that country's case string and
   * raised on hover.  A failed fetch, an absent or non-array payload, an empty
   * array and a record without a position all add nothing.
   */
  lemma EffectLayer(lookup: Option<LatLng>, countries: Result<Payload, string>)
    ensures var o := RunMapEffect(true, true, lookup, countries);
      && o.Ran?
      && (o.layer.Some? <==>
            && countries.Ok? && countries.value.ArrayOf? && |countries.value.items| > 0
            && forall i :: 0 <= i < |countries.value.items| ==> HasPosition(countries.value.items[i]))
      && (o.layer.Some? ==>
            && |o.layer.value| == |countries.value.items|
            && forall i :: 0 <= i < |o.layer.value| ==>
                 o.layer.value[i] == MarkerView(CasesString(countries.value.items[i].cases), true))
  {
  }
}
