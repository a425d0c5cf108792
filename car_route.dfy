/** The car-route block of `TravelAPIView.get`: the decoded Tmap car
    routing body becomes `car_info` and `car_path`. The request itself is
    not modelled; its outcome is `None` when posting, the status check or
    JSON decoding raised. */
module CarRoute {
  import opened Wrappers
  import opened PyJson
  import opened Loops

  /** One `{"lat": lat, "lng": lng}` entry of `car_path`. */
  datatype Point = Point(lat: Json, lng: Json)

  /** `car_info`: minutes and kilometres taken from the first feature. */
  datatype CarInfo = CarInfo(timeMin: int, distanceKm: Km)

  /** What the block leaves in `car_info` and `car_path`, and whether it
      ended in its `except` branch. */
  datatype CarResult = CarResult(info: Option<CarInfo>, path: seq<Point>, failed: bool)

  /** `car_info` from the `features` member: nothing when `features` is
      false, else the first feature's `totalTime // 60` and
      `round(totalDistance / 1000, 1)`, both first passed through `int()`.
      Only a list of objects gets that far: `features[0]` of a string is a
      string, which has no `get`. */
  function CarInfoOf(features: Json): (r: Py<Option<CarInfo>>)
    ensures !Truthy(features) ==> r == Ok(None)
    ensures Truthy(features) && r.Ok? ==> r.value.Some? && features.JArr? && features.items[0].JObj?
  {
    if !Truthy(features) then Ok(None)
    else
      var f0 :- Index0(features);
      var props0 :- Get(f0, "properties", JObj([]));
      var tt :- Get(props0, "totalTime", JInt(0));
      var totalTime :- ToInt(tt);
      // `props0` is a dict by now, so this second `get` cannot raise.
      var totalDistance :- ToInt(Get(props0, "totalDistance", JInt(0)).value);
      var km :- RoundKm(JInt(totalDistance));
      Ok(Some(CarInfo(Minutes(totalTime), km)))
  }

  /** The coordinates the inner loop visits for feature `f`: `Ok(None)` when
      its geometry is not a `LineString`. */
  function LineCoordinates(f: Json): (r: Py<Option<seq<Json>>>)
    ensures r.Ok? ==> f.JObj?
    ensures r.Ok? && r.value.Some? ==>
      var geom := Get(f, "geometry", JObj([])).value;
      geom.JObj? && Get(geom, "type", JNull) == Ok(JStr("LineString")) &&
      Iterate(Get(geom, "coordinates", JArr([])).value) == Ok(r.value.value)
    ensures r.Raise? <==> (!f.JObj? ||
      var geom := Get(f, "geometry", JObj([])).value;
      !geom.JObj? ||
      (Get(geom, "type", JNull) == Ok(JStr("LineString")) &&
       Iterate(Get(geom, "coordinates", JArr([])).value).Raise?))
  {
    var geom :- Get(f, "geometry", JObj([]));
    var t :- Get(geom, "type", JNull);
    if t != JStr("LineString") then Ok(None)
    else
      var cs :- Iterate(Get(geom, "coordinates", JArr([])).value);
      Ok(Some(cs))
  }

  /** One iteration of `for lng, lat in coordinates`: the pair is swapped. */
  function PointRun(c: Json): Run<Point>
  {
    match Unpack2(c)
    case Ok((lng, lat)) => Run([Point(lat, lng)], false)
    case Raise => Run([], true)
  }

  /** One iteration of `for f in features`. */
  function FeatureRun(f: Json): Run<Point>
  {
    match LineCoordinates(f)
    case Raise => Run([], true)
    case Ok(None) => Run([], false)
    case Ok(Some(cs)) => Scan(cs, PointRun)
  }

  /** The whole block: `car_info` survives a raise in the path loop, while
      `car_path` keeps the points appended before it. */
  function CarSummary(outcome: Option<Json>): CarResult
  {
    match outcome
    case None => CarResult(None, [], true)
    case Some(data) =>
      match Get(data, "features", JArr([]))
      case Raise => CarResult(None, [], true)
      case Ok(features) =>
        match CarInfoOf(features)
        case Raise => CarResult(None, [], true)
        case Ok(info) =>
          match Iterate(features)
          case Raise => CarResult(info, [], true)
          case Ok(fs) =>
            var r := Scan(fs, FeatureRun);
            CarResult(info, r.out, r.raised)
  }

  /** The car block with its two `for` loops, appending to `car_path` in
      `AppendFeatures` and `AppendLine`. */
  method SummariseCar(outcome: Option<Json>) returns (res: CarResult)
    ensures res == CarSummary(outcome)
  {
    if outcome.None? {
      return CarResult(None, [], true);
    }
    var features := Get(outcome.value, "features", JArr([]));
    if features.Raise? {
      return CarResult(None, [], true);
    }
    var info := CarInfoOf(features.value);
    if info.Raise? {
      return CarResult(None, [], true);
    }
    var carInfo := info.value;
    var items := Iterate(features.value);
    if items.Raise? {
      return CarResult(carInfo, [], true);
    }
    var carPath, failed := AppendFeatures(items.value);
    res := CarResult(carInfo, carPath, failed);
  }

  /** `for f in features`: the points of every feature in order, up to the
      first iteration that raises. */
  method AppendFeatures(fs: seq<Json>) returns (carPath: seq<Point>, failed: bool)
    ensures Run(carPath, failed) == Scan(fs, FeatureRun)
  {
    carPath, failed := [], false;
    var i := 0;
    while i < |fs| && !failed
      invariant 0 <= i <= |fs|
      invariant !failed ==> Scan(fs[..i], FeatureRun) == Run(carPath, false)
      invariant failed ==> Scan(fs, FeatureRun) == Run(carPath, true)
    {
      var added, stop := AppendFeature(fs[i]);
      ScanStep(fs, i, FeatureRun, carPath);
      carPath, failed := carPath + added, stop;
      i := i + 1;
    }
    if !failed {
      assert fs[..i] == fs;
    }
  }

  /** The body of `for f in features`: the points of `f` when its geometry
      is a `LineString`, and none otherwise. */
  method AppendFeature(f: Json) returns (added: seq<Point>, failed: bool)
    ensures Run(added, failed) == FeatureRun(f)
  {
    match LineCoordinates(f) {
      case Raise =>
        added, failed := [], true;
      case Ok(None) =>
        added, failed := [], false;
      case Ok(Some(cs)) =>
        added, failed := AppendLine(cs);
    }
  }

  /** `for lng, lat in coordinates`: one swapped point per pair, up to the
      first element that does not unpack into two values. */
  method AppendLine(cs: seq<Json>) returns (points: seq<Point>, failed: bool)
    ensures Run(points, failed) == Scan(cs, PointRun)
  {
    points, failed := [], false;
    var j := 0;
    while j < |cs| && !failed
      invariant 0 <= j <= |cs|
      invariant !failed ==> Scan(cs[..j], PointRun) == Run(points, false)
      invariant failed ==> Scan(cs, PointRun) == Run(points, true)
    {
      ScanStep(cs, j, PointRun, points);
      match Unpack2(cs[j]) {
        case Ok(pair) =>
          points := points + [Point(pair.1, pair.0)];
        case Raise =>
          failed := true;
      }
      j := j + 1;
    }
    if !failed {
      assert cs[..j] == cs;
    }
  }

  /** A `LineString` feature whose coordinates are all `[lng, lat]` pairs
      adds one point per pair, in order, with the two values swapped. */
  lemma LineStringPointsSwapped(f: Json, geom: Json, cs: seq<Json>)
    requires Get(f, "geometry", JObj([])) == Ok(geom)
    requires Get(geom, "type", JNull) == Ok(JStr("LineString"))
    requires Get(geom, "coordinates", JArr([])) == Ok(JArr(cs))
    requires forall k :: 0 <= k < |cs| ==> cs[k].JArr? && |cs[k].items| == 2
    ensures !FeatureRun(f).raised && |FeatureRun(f).out| == |cs|
    ensures forall k :: 0 <= k < |cs| ==>
              FeatureRun(f).out[k] == Point(lat := cs[k].items[1], lng := cs[k].items[0])
  {
    assert LineCoordinates(f) == Ok(Some(cs));
    forall k | 0 <= k < |cs|
      ensures Single(PointRun(cs[k]))
      ensures PointRun(cs[k]) == Run([Point(cs[k].items[1], cs[k].items[0])], false)
    {
      assert Unpack2(cs[k]) == Ok((cs[k].items[0], cs[k].items[1]));
    }
    ScanOfSingles(cs, PointRun);
  }

  /** A feature whose geometry is of any other type adds nothing and does
      not stop the loop. */
  lemma OtherGeometryAddsNothing(f: Json, geom: Json, t: Json)
    requires Get(f, "geometry", JObj([])) == Ok(geom)
    requires Get(geom, "type", JNull) == Ok(t) && t != JStr("LineString")
    ensures FeatureRun(f) == Run([], false)
  {
  }

  /** A first feature whose properties carry integer `totalTime` and
      `totalDistance` gives the whole minutes of `totalTime` and keeps
      `totalDistance` for the kilometre figure, unless `totalDistance / 1000`
      is beyond the float range, which raises. */
  lemma CarInfoFromFirstFeature(fs: seq<Json>, props: Json, t: int, d: int)
    requires fs != [] && Get(fs[0], "properties", JObj([])) == Ok(props)
    requires Get(props, "totalTime", JInt(0)) == Ok(JInt(t))
    requires Get(props, "totalDistance", JInt(0)) == Ok(JInt(d))
    ensures CarInfoOf(JArr(fs)).Ok? <==> -1000 * FloatOverflow < d < 1000 * FloatOverflow
    ensures CarInfoOf(JArr(fs)).Ok? ==>
              (CarInfoOf(JArr(fs)).value.Some? &&
               var ci := CarInfoOf(JArr(fs)).value.value;
               60 * ci.timeMin <= t < 60 * ci.timeMin + 60 && ci.distanceKm == RoundedKm(JInt(d)))
  {
  }

  /** `car_path` is empty whenever `car_info` is `None`: a false `features`
      has nothing to iterate, and every earlier raise leaves both unset. */
  lemma NoCarInfoNoPath(outcome: Option<Json>)
    ensures CarSummary(outcome).info.None? ==> CarSummary(outcome).path == []
  {
    if outcome.Some? {
      var features := Get(outcome.value, "features", JArr([]));
      if features.Ok? {
        IterateEmptyIffFalsy(features.value);
      }
    }
  }
}
