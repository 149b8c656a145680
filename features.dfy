/**
 * The country list returned by the countries endpoint and the GeoJSON
 * FeatureCollection the page builds from it: one Point feature per record,
 * the record copied as its properties, and its position written longitude
 * first.
 */
module Features {
  import opened Wrappers

  /** A record's `countryInfo`; either coordinate may be absent. */
  datatype CountryInfo = CountryInfo(lat: Option<real>, long: Option<real>)

  /** One element of the countries payload, with the fields the page reads. */
  datatype CountryRecord = CountryRecord(
    country: string,
    countryInfo: Option<CountryInfo>,
    cases: int,
    deaths: int,
    recovered: int,
    updated: Option<int>)

  /** A GeoJSON geometry: its `type` and its coordinate array. */
  datatype Geometry = Geometry(kind: string, coordinates: seq<Option<real>>)

  /** A GeoJSON feature: its `type`, `properties` and `geometry`. */
  datatype Feature = Feature(kind: string, properties: CountryRecord, geometry: Geometry)

  datatype FeatureCollection = FeatureCollection(kind: string, features: seq<Feature>)

  /**
   * The response's `data` field: absent, some JSON value that is not an array
   * (an object, null, a number, ...), or an array of records.
   */
  datatype Payload = Missing | NotArray | ArrayOf(items: seq<CountryRecord>)

  /** `const { data = [] } = response`: an absent payload defaults to the empty array. */
  function DataOf(response: Payload): Payload {
    if response.Missing? then ArrayOf([]) else response
  }

  /** `Array.isArray(data) && data.length > 0` */
  predicate HasData(data: Payload) {
    data.ArrayOf? && |data.items| > 0
  }

  /** `const { countryInfo = {} } = country`: a missing countryInfo has no coordinates. */
  function InfoOf(r: CountryRecord): CountryInfo {
    r.countryInfo.GetOr(CountryInfo(None, None))
  }

  /** The callback of `data.map`: a Point at `[lng, lat]` carrying a copy of the record. */
  function ToFeature(r: CountryRecord): Feature {
    var info := InfoOf(r);
    Feature("Feature", r, Geometry("Point", [info.long, info.lat]))
  }

  /** `data.map(...)`: one feature per record, in order. */
  function FeaturesOf(items: seq<CountryRecord>): (fs: seq<Feature>)
    ensures |fs| == |items|
    ensures forall i :: 0 <= i < |items| ==> fs[i] == ToFeature(items[i])
  {
    if items == [] then [] else [ToFeature(items[0])] + FeaturesOf(items[1..])
  }

  /** The FeatureCollection, or None when the guard returns early. */
  function BuildCollection(response: Payload): (r: Option<FeatureCollection>)
    ensures r.Some? <==> response.ArrayOf? && |response.items| > 0
    ensures r.Some? ==> r.value.kind == "FeatureCollection"
  {
    var data := DataOf(response);
    if !HasData(data) then None
    else Some(FeatureCollection("FeatureCollection", FeaturesOf(data.items)))
  }

  /**
   * How a GeoJSON reader takes a position back out of a Point: latitude from
   * the second coordinate, longitude from the first.
   */
  function PositionOf(g: Geometry): CountryInfo
    requires |g.coordinates| == 2
  {
    CountryInfo(g.coordinates[1], g.coordinates[0])
  }

  /** The records carried by a list of features, as their properties. */
  function RecordsOf(fs: seq<Feature>): seq<CountryRecord> {
    if fs == [] then [] else [fs[0].properties] + RecordsOf(fs[1..])
  }

  /**
   * Each record yields a Feature of type Point whose coordinates are its
   * longitude then its latitude, so that reading the position back swaps them
   * into the record's own order; a record without countryInfo still yields a
   * feature, with both coordinates absent.
   */
  lemma FeatureOfRecord(r: CountryRecord)
    ensures var f := ToFeature(r);
      && f.kind == "Feature" && f.geometry.kind == "Point" && f.properties == r
      && |f.geometry.coordinates| == 2
      && PositionOf(f.geometry) == InfoOf(r)
      && (r.countryInfo.Some? ==>
            f.geometry.coordinates == [r.countryInfo.value.long, r.countryInfo.value.lat])
      && (r.countryInfo.None? ==> f.geometry.coordinates == [None, None])
  {
  }

  /** The properties of the built features are exactly the input records: nothing is filtered, dropped or reordered. */
  lemma {:induction false} RecordsOfFeatures(items: seq<CountryRecord>)
    ensures RecordsOf(FeaturesOf(items)) == items
  {
    if items != [] {
      var fs := FeaturesOf(items);
      assert fs[1..] == FeaturesOf(items[1..]);
      RecordsOfFeatures(items[1..]);
    }
  }

  /**
   * When the guard lets the payload through, the collection holds one Point
   * feature per record, in input order, whose properties are the records and
   * whose positions read back as the records' countryInfo.
   */
  lemma CollectionOfPayload(response: Payload)
    requires response.ArrayOf? && |response.items| > 0
    ensures var r := BuildCollection(response);
      && r.Some?
      && |r.value.features| == |response.items|
      && RecordsOf(r.value.features) == response.items
      && forall i :: 0 <= i < |response.items| ==>
           && r.value.features[i].geometry.kind == "Point"
           && |r.value.features[i].geometry.coordinates| == 2
           && PositionOf(r.value.features[i].geometry) == InfoOf(response.items[i])
  {
    RecordsOfFeatures(response.items);
  }

  /** For example, lat 10 and long 20 give the coordinates [20, 10]. */
  lemma CoordinateOrderExample(r: CountryRecord)
    requires r.countryInfo == Some(CountryInfo(Some(10.0), Some(20.0)))
    ensures ToFeature(r).geometry.coordinates == [Some(20.0), Some(10.0)]
  {
  }
}
