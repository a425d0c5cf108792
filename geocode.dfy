/** Keyword to coordinates through the Tmap POI search (`tmap_geocode`).
    The HTTP request is not modelled: its outcome is the `response`
    parameter, `None` when the request, the status check or JSON decoding
    raised; the function then only reads the decoded body. */
module Geocode {
  import opened Wrappers
  import opened PyJson

  /** The pair `tmap_geocode` returns, latitude first: the two values
      `float()` converts. */
  datatype Coord = Coord(lat: Json, lon: Json)

  /** The members tried for the latitude and the longitude, in order. */
  const LatKeys: seq<string> := ["frontLat", "frontlat", "noorLat", "lat"]
  const LonKeys: seq<string> := ["frontLon", "frontlon", "noorLon", "lon"]

  /** `poi.get(k1) or poi.get(k2) or ...`. */
  function OrChain(fields: seq<(string, Json)>, keys: seq<string>): Json
    requires |keys| > 0
  {
    var v := Get(JObj(fields), keys[0], JNull).value;
    if |keys| == 1 || Truthy(v) then v else OrChain(fields, keys[1..])
  }

  /** The `or` chain yields the value of the first member that is truthy,
      and the value of the last member when none is. */
  lemma {:induction false} OrChainPicksFirstTruthy(fields: seq<(string, Json)>, keys: seq<string>, k: nat)
    requires k < |keys|
    requires forall j :: 0 <= j < k ==> !Truthy(Get(JObj(fields), keys[j], JNull).value)
    requires Truthy(Get(JObj(fields), keys[k], JNull).value) || k == |keys| - 1
    ensures OrChain(fields, keys) == Get(JObj(fields), keys[k], JNull).value
  {
    if k > 0 {
      assert !Truthy(Get(JObj(fields), keys[0], JNull).value);
      OrChainPicksFirstTruthy(fields, keys[1..], k - 1);
    }
  }

  /** The `or` chain is true exactly when one of its members is, and its
      value is always the value of one of the members it tried. */
  lemma {:induction false} OrChainTruthyIffAny(fields: seq<(string, Json)>, keys: seq<string>)
    requires |keys| > 0
    ensures Truthy(OrChain(fields, keys)) <==> exists k :: 0 <= k < |keys| && Truthy(Get(JObj(fields), keys[k], JNull).value)
    ensures exists k :: 0 <= k < |keys| && OrChain(fields, keys) == Get(JObj(fields), keys[k], JNull).value
  {
    var v := Get(JObj(fields), keys[0], JNull).value;
    if |keys| == 1 || Truthy(v) {
      assert OrChain(fields, keys) == Get(JObj(fields), keys[0], JNull).value;
    } else {
      var rest := keys[1..];
      OrChainTruthyIffAny(fields, rest);
      var k :| 0 <= k < |rest| && OrChain(fields, rest) == Get(JObj(fields), rest[k], JNull).value;
      assert keys[k + 1] == rest[k];
      if exists k :: 0 <= k < |keys| && Truthy(Get(JObj(fields), keys[k], JNull).value) {
        var j :| 0 <= j < |keys| && Truthy(Get(JObj(fields), keys[j], JNull).value);
        assert j > 0 && keys[j] == rest[j - 1];
      }
    }
  }

  /** The POI record of a decoded search body: `searchPoiInfo` must be
      truthy, then `pois.poi` must be truthy; a list gives its first item,
      anything else is taken as the record itself. `Ok(None)` when a member
      is missing or empty; `Raise` when one that must be an object is not. */
  function PoiOf(data: Json): (r: Py<Option<Json>>)
    ensures r.Raise? <==>
              (!data.JObj? ||
               var spi := Get(data, "searchPoiInfo", JNull).value;
               Truthy(spi) && (!spi.JObj? || !Get(spi, "pois", JObj([])).value.JObj?))
  {
    var spi :- Get(data, "searchPoiInfo", JNull);
    if !Truthy(spi) then Ok(None)
    else
      var poisObj :- Get(spi, "pois", JObj([]));
      var pois :- Get(poisObj, "poi", JNull);
      if !Truthy(pois) then Ok(None)
      else if pois.JArr? then Ok(Some(pois.items[0]))
      else Ok(Some(pois))
  }

  /** The selected POI record, when the body yields one without raising. */
  function SelectedPoi(data: Json): Option<Json> {
    match PoiOf(data)
    case Ok(Some(poi)) => Some(poi)
    case _ => None
  }

  /** The selected record is the first item of `poi` when `poi` is a list,
      and `poi` itself when it is a single record; a missing or empty
      `searchPoiInfo` or `poi` selects nothing. */
  lemma SelectedPoiCases(data: Json, spi: Json, poisObj: Json, pois: Json)
    requires Get(data, "searchPoiInfo", JNull) == Ok(spi)
    requires Truthy(spi) ==> Get(spi, "pois", JObj([])) == Ok(poisObj) && Get(poisObj, "poi", JNull) == Ok(pois)
    ensures !Truthy(spi) ==> SelectedPoi(data) == None
    ensures Truthy(spi) && !Truthy(pois) ==> SelectedPoi(data) == None
    ensures Truthy(spi) && Truthy(pois) && pois.JArr? ==> SelectedPoi(data) == Some(pois.items[0])
    ensures Truthy(spi) && Truthy(pois) && !pois.JArr? ==> SelectedPoi(data) == Some(pois)
  {
  }

  /** The coordinates of the selected record `poi0`: both `or` chains, then
      the `lat is None or lon is None` test, then `float()` on each value.
      Reading a non-object raises. A missing value gives no result before
      `float()` is tried, so the other value cannot make it raise. */
  function CoordOf(poi: Json): (r: Py<Option<Coord>>)
    ensures !poi.JObj? ==> r.Raise?
    ensures poi.JObj? ==>
      var lat, lon := OrChain(poi.fields, LatKeys), OrChain(poi.fields, LonKeys);
      (r == Ok(None) <==> lat == JNull || lon == JNull) &&
      (r.Raise? <==> lat != JNull && lon != JNull && !(FloatConvertible(lat) && FloatConvertible(lon))) &&
      (r.Ok? && r.value.Some? ==> r.value.value == Coord(lat, lon))
  {
    if !poi.JObj? then Raise
    else
      var lat := OrChain(poi.fields, LatKeys);
      var lon := OrChain(poi.fields, LonKeys);
      if lat == JNull || lon == JNull then Ok(None)
      else if FloatConvertible(lat) && FloatConvertible(lon) then Ok(Some(Coord(lat, lon)))
      else Raise
  }

  /** `tmap_geocode(keyword, app_key)`, `response` being the decoded body of
      the POI search it would send. Every exception the body can raise is
      caught and gives `None`. */
  function TmapGeocode(keyword: string, appKey: string, response: Option<Json>): (r: Option<Coord>)
    ensures keyword == "" || appKey == "" ==> r.None?
    ensures r.Some? <==>
      keyword != "" && appKey != "" && response.Some? &&
      (var poi := SelectedPoi(response.value);
       poi.Some? && poi.value.JObj? &&
       var lat, lon := OrChain(poi.value.fields, LatKeys), OrChain(poi.value.fields, LonKeys);
       lat != JNull && lon != JNull && FloatConvertible(lat) && FloatConvertible(lon))
    ensures r.Some? ==>
      var fields := SelectedPoi(response.value).value.fields;
      r.value == Coord(OrChain(fields, LatKeys), OrChain(fields, LonKeys))
  {
    if keyword == "" || appKey == "" then None
    else if response.None? then None
    else
      match PoiOf(response.value)
      case Ok(Some(poi)) =>
        (match CoordOf(poi)
         case Ok(c) => c
         case Raise => None)
      case _ => None
  }

  /** A keyword or key that is empty makes no request: the result is the
      same whatever the search would have answered. */
  lemma GuardIgnoresResponse(keyword: string, appKey: string, r1: Option<Json>, r2: Option<Json>)
    requires keyword == "" || appKey == ""
    ensures TmapGeocode(keyword, appKey, r1) == TmapGeocode(keyword, appKey, r2) == None
  {
  }

  /** End to end: a record whose `frontLat` and `frontLon` are truthy and
      convertible gives those two values, latitude first, whatever `lat` and
      `lon` hold. */
  lemma FrontCoordinatesWin(keyword: string, appKey: string, la: Json, lo: Json, other: Json)
    requires keyword != "" && appKey != ""
    requires Truthy(la) && Truthy(lo) && FloatConvertible(la) && FloatConvertible(lo)
    ensures var poi := JObj([("frontLat", la), ("frontLon", lo), ("lat", other), ("lon", other)]);
            var body := JObj([("searchPoiInfo", JObj([("pois", JObj([("poi", JArr([poi]))]))]))]);
            TmapGeocode(keyword, appKey, Some(body)) == Some(Coord(la, lo))
  {
    var fs := [("frontLat", la), ("frontLon", lo), ("lat", other), ("lon", other)];
    var poi := JObj(fs);
    var body := JObj([("searchPoiInfo", JObj([("pois", JObj([("poi", JArr([poi]))]))]))]);
    assert fs[0].0 == "frontLat" && forall j :: 0 < j < |fs| ==> fs[j].0 != "frontLat";
    assert fs[1].0 == "frontLon" && forall j :: 1 < j < |fs| ==> fs[j].0 != "frontLon";
    GetCases(poi, "frontLat", JNull);
    GetCases(poi, "frontLon", JNull);
    OrChainPicksFirstTruthy(fs, LatKeys, 0);
    OrChainPicksFirstTruthy(fs, LonKeys, 0);
    assert CoordOf(poi) == Ok(Some(Coord(la, lo)));
    SingleListBodySelects(poi);
  }

  /** A body whose `poi` is a one-element list selects that element. */
  lemma SingleListBodySelects(poi: Json)
    ensures var body := JObj([("searchPoiInfo", JObj([("pois", JObj([("poi", JArr([poi]))]))]))]);
            PoiOf(body) == Ok(Some(poi))
  {
    var pois := JArr([poi]);
    var poisObj := JObj([("poi", pois)]);
    var spi := JObj([("pois", poisObj)]);
    var body := JObj([("searchPoiInfo", spi)]);
    assert Lookup(body.fields, "searchPoiInfo") == Some(spi);
    assert Get(body, "searchPoiInfo", JNull) == Ok(spi);
    assert Lookup(spi.fields, "pois") == Some(poisObj);
    assert Get(spi, "pois", JObj([])) == Ok(poisObj);
    assert Lookup(poisObj.fields, "poi") == Some(pois);
    assert Get(poisObj, "poi", JNull) == Ok(pois);
  }

}
