/** `TravelAPIView.get`, the handler of `GET /api/tmap/route/`: it reads
    `origin` (or `departure`), `destination` and `mode`, geocodes both
    endpoints, asks for the weather, a car route and a transit route, and
    shapes `duration`, `distance` and `steps` for the chosen mode, keeping
    everything it gathered in `raw`. The HTTP calls are not modelled: their
    outcomes are given in `Services`. */
module TravelView {
  import opened Wrappers
  import opened PyJson
  import PyText
  import Geocode
  import opened CarRoute
  import opened TransitRoute

  /** The environment variables the view reads; a missing one reads as "". */
  datatype Env = Env(tmapAppKey: string, kakaoJsKey: string, openweatherKey: string)

  /** `weather` as the weather lookup builds it. */
  datatype Weather = Weather(name: Json, temp: Json, desc: Json)

  /** The outcomes of the external calls: the bodies of the two POI
      searches (one request each, so one can fail while the other succeeds),
      the weather lookup, and the car and transit routing bodies; `None`
      where the call raised. */
  datatype Services = Services(
    departureSearch: Option<Json>,
    destinationSearch: Option<Json>,
    weather: Option<Weather>,
    carRoute: Option<Json>,
    transitRoute: Option<Json>)

  /** `duration`: `"약 {minutes}분"`, or for walking the minutes estimated
      from the car distance at 4 km/h. */
  datatype Duration = AboutMinutes(minutes: Json) | WalkingTime(km: Km)

  /** One line of `steps`, kept as the values it is formatted from. */
  datatype Step =
    | Line(text: string)
    | DepartByCar(place: string)
    | FollowCarRoute(km: Km)
    | ArriveAt(place: string)
    | DepartOnFoot(place: string)
    | WalkFor(km: Km)
    | TransitLeg(summary: LegSummary)

  /** The `response` dict the view fills in and returns under `raw`. */
  datatype Raw = Raw(
    kakaoJsKey: string,
    departure: string,
    destination: string,
    mode: string,
    weather: Option<Weather>,
    carInfo: Option<CarInfo>,
    transitInfo: Option<TransitInfo>,
    carPath: seq<Point>,
    transitSteps: seq<TransitStep>,
    errors: seq<string>)

  /** The body of the HTTP 200 response. */
  datatype Response = Response(duration: Option<Duration>, distance: Option<Km>, steps: seq<Step>, raw: Raw)

  const MissingEndpoints: string := "출발지와 도착지가 필요합니다."
  const MissingKey: string := "TMAP_APP_KEY가 서버 환경변수에 설정되지 않았습니다."
  const MissingKeySteps: seq<Step> := [
    Line(MissingKey),
    Line("settings.py 또는 .env에서 TMAP_APP_KEY를 설정해 주세요."),
    Line("API 키가 설정되면 실제 Tmap 경로가 표시됩니다.")]
  const WeatherFailed: string := "날씨 정보 조회 실패"
  const CarFailed: string := "자동차 경로 조회 실패"
  const TransitFailed: string := "대중교통 경로 조회 실패"
  const NoRoute: string := "적절한 경로를 찾지 못했습니다."

  function GeocodeFailed(place: string): string {
    "'" + place + "' 좌표 변환 실패"
  }

  /** `request.GET.get(key) or default`; `query` holds the value
      `QueryDict.get` returns for each key present. */
  function ParamOr(query: map<string, string>, key: string, default: string): string {
    if key in query && query[key] != "" then query[key] else default
  }

  /** The view's `departure`: `origin`, else `departure`, stripped. */
  function DepartureOf(query: map<string, string>): (r: string)
    ensures r == "" || (!PyText.IsSpace(r[0]) && !PyText.IsSpace(r[|r| - 1]))
  {
    var s := ParamOr(query, "origin", ParamOr(query, "departure", ""));
    PyText.StripIsTrimmedSlice(s);
    PyText.Strip(s)
  }

  /** The view's `destination`, stripped. */
  function DestinationOf(query: map<string, string>): (r: string)
    ensures r == "" || (!PyText.IsSpace(r[0]) && !PyText.IsSpace(r[|r| - 1]))
  {
    var s := ParamOr(query, "destination", "");
    PyText.StripIsTrimmedSlice(s);
    PyText.Strip(s)
  }

  /** The view's `mode`, `"car"` by default, stripped. */
  function ModeOf(query: map<string, string>): (r: string)
    ensures r == "" || (!PyText.IsSpace(r[0]) && !PyText.IsSpace(r[|r| - 1]))
  {
    var s := ParamOr(query, "mode", "car");
    PyText.StripIsTrimmedSlice(s);
    PyText.Strip(s)
  }

  /** `response` as first built, before any stage has run. */
  function InitialRaw(env: Env, query: map<string, string>): Raw {
    Raw(env.kakaoJsKey, DepartureOf(query), DestinationOf(query), ModeOf(query),
        None, None, None, [], [], [])
  }

  /** `dep_coord`: `tmap_geocode(departure, TMAP_APP_KEY)`. */
  function DepartureCoord(env: Env, svc: Services, departure: string): Option<Geocode.Coord> {
    Geocode.TmapGeocode(departure, env.tmapAppKey, svc.departureSearch)
  }

  /** `dest_coord`: `tmap_geocode(destination, TMAP_APP_KEY)`. */
  function DestinationCoord(env: Env, svc: Services, destination: string): Option<Geocode.Coord> {
    Geocode.TmapGeocode(destination, env.tmapAppKey, svc.destinationSearch)
  }

  /** The errors the two geocoding failures append: none exactly when both
      endpoints were found, otherwise one naming each endpoint that was not,
      departure first. */
  function GeocodeErrors(env: Env, svc: Services, departure: string, destination: string): (r: seq<string>)
    ensures r == [] <==> DepartureCoord(env, svc, departure).Some? && DestinationCoord(env, svc, destination).Some?
    ensures |r| <= 2 && forall e :: e in r ==> e == GeocodeFailed(departure) || e == GeocodeFailed(destination)
    ensures |r| == (if DepartureCoord(env, svc, departure).None? then 1 else 0) +
                   (if DestinationCoord(env, svc, destination).None? then 1 else 0)
    ensures DepartureCoord(env, svc, departure).None? ==> r[0] == GeocodeFailed(departure)
    ensures DestinationCoord(env, svc, destination).None? ==> r[|r| - 1] == GeocodeFailed(destination)
  {
    (if DepartureCoord(env, svc, departure).None? then [GeocodeFailed(departure)] else []) +
    (if DestinationCoord(env, svc, destination).None? then [GeocodeFailed(destination)] else [])
  }

  /** Both endpoints are non-blank, the key is set and both geocoded: the
      view goes on to the weather and the two routes. */
  predicate Routed(env: Env, query: map<string, string>, svc: Services) {
    var departure, destination := DepartureOf(query), DestinationOf(query);
    departure != "" && destination != "" && env.tmapAppKey != "" &&
    DepartureCoord(env, svc, departure).Some? && DestinationCoord(env, svc, destination).Some?
  }

  /** The weather is only looked up when its key is set. */
  function WeatherOf(env: Env, svc: Services): Option<Weather> {
    if env.openweatherKey != "" then svc.weather else None
  }

  /** The error a failed weather lookup appends. */
  function WeatherErrors(env: Env, svc: Services): seq<string> {
    if env.openweatherKey != "" && svc.weather.None? then [WeatherFailed] else []
  }

  /** The errors the weather, car and transit stages append, in that order. */
  function RouteErrors(env: Env, svc: Services): seq<string> {
    WeatherErrors(env, svc) +
    (if CarSummary(svc.carRoute).failed then [CarFailed] else []) +
    (if TransitSummary(svc.transitRoute).failed then [TransitFailed] else [])
  }

  /** The mode has the route it needs: car and walk need `car_info`,
      transit needs `transit_info`. */
  predicate HasRouteIn(raw: Raw) {
    (raw.mode == "car" && raw.carInfo.Some?) || (raw.mode == "transit" && raw.transitInfo.Some?) ||
    (raw.mode == "walk" && raw.carInfo.Some?)
  }

  /** The view. Every branch answers HTTP 200; the early exits leave the
      later fields of `raw` at their initial values, so no routing result
      shows up in them. */
  method Get(env: Env, query: map<string, string>, svc: Services) returns (resp: Response)
    ensures DepartureOf(query) == "" || DestinationOf(query) == "" ==>
      resp == Response(None, None, [], InitialRaw(env, query).(errors := [MissingEndpoints]))
    ensures DepartureOf(query) != "" && DestinationOf(query) != "" && env.tmapAppKey == "" ==>
      resp == Response(None, None, MissingKeySteps, InitialRaw(env, query).(errors := [MissingKey]))
    ensures DepartureOf(query) != "" && DestinationOf(query) != "" && env.tmapAppKey != "" &&
            !Routed(env, query, svc) ==>
      resp == Response(None, None, [], InitialRaw(env, query).(
                errors := GeocodeErrors(env, svc, DepartureOf(query), DestinationOf(query))))
    ensures Routed(env, query, svc) ==> Shaped(Filled(env, svc, InitialRaw(env, query)), resp)
  {
    var departure := DepartureOf(query);
    var destination := DestinationOf(query);
    var mode := ModeOf(query);
    var response := Raw(env.kakaoJsKey, departure, destination, mode, None, None, None, [], [], []);

    assert response == InitialRaw(env, query);

    if !(departure != "" && destination != "") {
      assert response.errors + [MissingEndpoints] == [MissingEndpoints];
      response := response.(errors := response.errors + [MissingEndpoints]);
      return Response(None, None, [], response);
    }

    if env.tmapAppKey == "" {
      assert response.errors + [MissingKey] == [MissingKey];
      response := response.(errors := response.errors + [MissingKey]);
      return Response(None, None, MissingKeySteps, response);
    }

    var located: bool;
    response, located := AddCoordinates(env, svc, response);
    if !located {
      return Response(None, None, [], response);
    }
    resp := FetchAndShape(env, svc, response);
  }

  /** The geocoding stage: `dep_coord` and `dest_coord` are looked up, and
      each that fails appends its error; `located` tells whether both
      succeeded, the test `dep_lat is None or dest_lat is None` negated. */
  method AddCoordinates(env: Env, svc: Services, raw: Raw) returns (response: Raw, located: bool)
    ensures located <==> DepartureCoord(env, svc, raw.departure).Some? && DestinationCoord(env, svc, raw.destination).Some?
    ensures response == raw.(errors := raw.errors + GeocodeErrors(env, svc, raw.departure, raw.destination))
  {
    response := raw;
    var depCoord := Geocode.TmapGeocode(raw.departure, env.tmapAppKey, svc.departureSearch);
    var destCoord := Geocode.TmapGeocode(raw.destination, env.tmapAppKey, svc.destinationSearch);
    ghost var first := if depCoord.None? then [GeocodeFailed(raw.departure)] else [];
    ghost var second := if destCoord.None? then [GeocodeFailed(raw.destination)] else [];
    if depCoord.None? {
      response := response.(errors := response.errors + [GeocodeFailed(raw.departure)]);
    }
    assert response.errors == raw.errors + first;
    if destCoord.None? {
      response := response.(errors := response.errors + [GeocodeFailed(raw.destination)]);
    }
    assert response.errors == raw.errors + first + second;
    assert first + second == GeocodeErrors(env, svc, raw.departure, raw.destination);
    assert raw.errors + first + second == raw.errors + (first + second);
    located := !(depCoord.None? || destCoord.None?);
  }

  /** The `response` built so far (`raw`) once the weather, car and transit
      stages have filled it in, with their errors in that order. */
  function Filled(env: Env, svc: Services, raw: Raw): (r: Raw)
    ensures r.kakaoJsKey == raw.kakaoJsKey && r.departure == raw.departure &&
            r.destination == raw.destination && r.mode == raw.mode
    ensures |raw.errors| <= |r.errors| <= |raw.errors| + 3 && r.errors[..|raw.errors|] == raw.errors
    ensures r.carInfo.None? ==> r.carPath == []
    ensures r.transitInfo.None? ==> r.transitSteps == []
  {
    NoCarInfoNoPath(svc.carRoute);
    NoTransitInfoNoSteps(svc.transitRoute);
    var car, transit := CarSummary(svc.carRoute), TransitSummary(svc.transitRoute);
    raw.(weather := WeatherOf(env, svc),
         carInfo := car.info, carPath := car.path,
         transitInfo := transit.info, transitSteps := transit.steps,
         errors := raw.errors + RouteErrors(env, svc))
  }

  /** What the view answers from a filled-in `response` (`raw`): the mode
      picks its route. Car and walk read `car_info`, transit reads
      `transit_info` and the summaries of `transit_steps` in order; without
      a usable route one error is appended and `steps` is empty. */
  predicate Shaped(raw: Raw, resp: Response) {
    resp.raw == raw.(errors := raw.errors + (if HasRouteIn(raw) then [] else [NoRoute])) &&
    (raw.mode == "car" && raw.carInfo.Some? ==>
      resp.duration == Some(AboutMinutes(JInt(raw.carInfo.value.timeMin))) &&
      resp.distance == Some(raw.carInfo.value.distanceKm) &&
      resp.steps == [DepartByCar(raw.departure), FollowCarRoute(raw.carInfo.value.distanceKm), ArriveAt(raw.destination)]) &&
    (raw.mode == "transit" && raw.transitInfo.Some? ==>
      resp.duration == Some(AboutMinutes(raw.transitInfo.value.totalTimeMin)) &&
      resp.distance == Some(raw.transitInfo.value.totalDistanceKm) &&
      |resp.steps| == |raw.transitSteps| &&
      forall i :: 0 <= i < |raw.transitSteps| ==> resp.steps[i] == TransitLeg(raw.transitSteps[i].summary)) &&
    (raw.mode == "walk" && raw.carInfo.Some? ==>
      resp.duration == Some(WalkingTime(raw.carInfo.value.distanceKm)) &&
      resp.distance == Some(raw.carInfo.value.distanceKm) &&
      resp.steps == [DepartOnFoot(raw.departure), WalkFor(raw.carInfo.value.distanceKm), ArriveAt(raw.destination)]) &&
    (!HasRouteIn(raw) ==> resp.duration == None && resp.distance == None && resp.steps == [])
  }

  /** A shaped answer has a duration exactly when the mode has its route,
      and then a distance too; without one it has no steps and exactly one
      more error, the no-route message. */
  lemma ShapedAnswersIffRoute(raw: Raw, resp: Response)
    requires Shaped(raw, resp)
    ensures resp.duration.Some? <==> HasRouteIn(raw)
    ensures resp.duration.Some? <==> resp.distance.Some?
    ensures resp.duration.Some? ==> resp.raw.errors == raw.errors
    ensures resp.duration.None? ==> resp.steps == [] && resp.raw.errors == raw.errors + [NoRoute]
  {
  }

  /** A shaped answer is unique: `Shaped` pins every field of the response. */
  lemma ShapedDeterminesAnswer(raw: Raw, r1: Response, r2: Response)
    requires Shaped(raw, r1) && Shaped(raw, r2)
    ensures r1 == r2
  {
    if raw.mode == "transit" && raw.transitInfo.Some? {
      assert r1.steps == r2.steps;
    }
  }

  /** The view from the weather lookup to the final answer, given the
      `response` built so far (`raw`): the three lookups fill in `raw`, then
      the mode decides `duration`, `distance` and `steps`. */
  method FetchAndShape(env: Env, svc: Services, raw: Raw) returns (resp: Response)
    ensures Shaped(Filled(env, svc, raw), resp)
  {
    ghost var w := WeatherErrors(env, svc);
    ghost var c := if CarSummary(svc.carRoute).failed then [CarFailed] else [];
    ghost var t := if TransitSummary(svc.transitRoute).failed then [TransitFailed] else [];
    var response := AddWeather(env, svc, raw);
    response := AddCarRoute(svc, response);
    response := AddTransitRoute(svc, response);
    assert response.errors == raw.errors + w + c + t;
    assert raw.errors + w + c + t == raw.errors + (w + c + t);
    assert response == Filled(env, svc, raw);
    resp := Shape(response);
  }

  /** The weather stage: the weather is looked up only when its key is set; a
      failed lookup appends one error and leaves `weather` as `None`. */
  method AddWeather(env: Env, svc: Services, raw: Raw) returns (response: Raw)
    ensures response == raw.(weather := WeatherOf(env, svc), errors := raw.errors + WeatherErrors(env, svc))
  {
    response := raw;
    var weather: Option<Weather> := None;
    if env.openweatherKey != "" {
      weather := svc.weather;
      if weather.None? {
        response := response.(errors := response.errors + [WeatherFailed]);
      }
    }
    response := response.(weather := weather);
  }

  /** The car stage: the car block's result goes into `car_info` and
      `car_path`, and a raise into one error. */
  method AddCarRoute(svc: Services, raw: Raw) returns (response: Raw)
    ensures var car := CarSummary(svc.carRoute);
      response == raw.(carInfo := car.info, carPath := car.path,
                       errors := raw.errors + (if car.failed then [CarFailed] else []))
  {
    response := raw;
    var car := SummariseCar(svc.carRoute);
    if car.failed {
      response := response.(errors := response.errors + [CarFailed]);
    }
    response := response.(carInfo := car.info, carPath := car.path);
  }

  /** The transit stage: the transit block's result goes into `transit_info` and
      `transit_steps`, and a raise into one error. */
  method AddTransitRoute(svc: Services, raw: Raw) returns (response: Raw)
    ensures var transit := TransitSummary(svc.transitRoute);
      response == raw.(transitInfo := transit.info, transitSteps := transit.steps,
                       errors := raw.errors + (if transit.failed then [TransitFailed] else []))
  {
    response := raw;
    var transit := SummariseTransit(svc.transitRoute);
    if transit.failed {
      response := response.(errors := response.errors + [TransitFailed]);
    }
    response := response.(transitInfo := transit.info, transitSteps := transit.steps);
  }

  /** The final shaping: `duration`, `distance` and `steps` for the mode,
      or the no-route error. */
  method Shape(raw: Raw) returns (resp: Response)
    ensures Shaped(raw, resp)
  {
    var response := raw;
    var duration: Option<Duration> := None;
    var distance: Option<Km> := None;
    var steps: seq<Step> := [];
    if response.mode == "car" && response.carInfo.Some? {
      var carInfo := response.carInfo.value;
      duration := Some(AboutMinutes(JInt(carInfo.timeMin)));
      distance := Some(carInfo.distanceKm);
      steps := [DepartByCar(response.departure), FollowCarRoute(carInfo.distanceKm), ArriveAt(response.destination)];
    } else if response.mode == "transit" && response.transitInfo.Some? {
      var transitInfo, transitSteps := response.transitInfo.value, response.transitSteps;
      duration := Some(AboutMinutes(transitInfo.totalTimeMin));
      distance := Some(transitInfo.totalDistanceKm);
      steps := seq(|transitSteps|, i requires 0 <= i < |transitSteps| => TransitLeg(transitSteps[i].summary));
    } else if response.mode == "walk" && response.carInfo.Some? {
      var carInfo := response.carInfo.value;
      duration := Some(WalkingTime(carInfo.distanceKm));
      distance := Some(carInfo.distanceKm);
      steps := [DepartOnFoot(response.departure), WalkFor(carInfo.distanceKm), ArriveAt(response.destination)];
    }

    if duration.None? {
      response := response.(errors := response.errors + [NoRoute]);
      return Response(None, None, [], response);
    }
    return Response(duration, distance, steps, response);
  }

  /** `origin` wins over `departure` when it is non-empty; `mode` defaults
      to `"car"` when absent or empty. */
  lemma ParameterDefaults(query: map<string, string>)
    ensures "origin" in query && query["origin"] != "" ==> DepartureOf(query) == PyText.Strip(query["origin"])
    ensures !("origin" in query && query["origin"] != "") && "departure" in query ==>
              DepartureOf(query) == PyText.Strip(query["departure"])
    ensures !("origin" in query && query["origin"] != "") && !("departure" in query && query["departure"] != "") ==>
              DepartureOf(query) == ""
    ensures "destination" in query ==> DestinationOf(query) == PyText.Strip(query["destination"])
    ensures "destination" !in query ==> DestinationOf(query) == ""
    ensures !("mode" in query && query["mode"] != "") ==> ModeOf(query) == "car"
    ensures "mode" in query && query["mode"] != "" ==> ModeOf(query) == PyText.Strip(query["mode"])
  {
    assert PyText.TrimStart("car") == "car";
    assert PyText.TrimEnd("car") == "car";
  }

  /** An `origin` made only of whitespace is still truthy, so `departure` is
      never consulted, and after stripping it the departure is blank: the
      view answers with the missing-endpoint error. */
  lemma BlankOriginShadowsDeparture(query: map<string, string>)
    requires "origin" in query && query["origin"] != ""
    requires forall i :: 0 <= i < |query["origin"]| ==> PyText.IsSpace(query["origin"][i])
    ensures DepartureOf(query) == ""
  {
    PyText.StripBlank(query["origin"]);
  }
}
