# Route endpoint of the trip planner backend, in Dafny

This project models `GET /api/tmap/route/`, the Django REST view
`TravelAPIView.get` in `backend/config/api/views.py`, together with the
helper `tmap_geocode` it calls. The view reads `origin` (or `departure`),
`destination` and `mode` from the query string. It geocodes both endpoints
with the Tmap POI search, then asks OpenWeather for the weather at the
destination, Tmap for a car route and Tmap for a transit route. Finally it
shapes `duration`, `distance` and `steps` for the chosen mode, and keeps
everything it gathered, errors included, under `raw`. Every answer it
returns is HTTP 200. One overflow in the walking estimate makes it raise
instead; see "Left out".

No call is made here. Each external call is an input:

- for the two POI searches, the decoded body of each (two requests, so one
  can fail while the other succeeds);
- for the car and transit routes, the decoded body;
- for the weather, the record the lookup would build.

A call whose request, status check or JSON decoding raised is `None`.
Decoded JSON is the datatype `PyJson.Json`.

The Python operations the view applies to JSON values are written out with
their exceptions:

- `dict.get` with a default;
- truthiness and `or` chains;
- iteration over lists, strings and dicts;
- `a, b = v` unpacking and `v[0]`;
- `int()`, including its string syntax;
- whether `float()` accepts a value, including the float range for ints;
- `// 60`;
- dict-key hashability.

An exception inside a `try` block is the value `Raise`. Each loop that
appends inside a `try` block is a `while` loop. It is proved equal to
`Loops.Scan`, which keeps what was appended before the first raising
iteration, as the Python list does.

Modules:

- `PyText` covers `str.strip()`, `int()` of a string and `float()` literal syntax.
- `PyJson` covers JSON values and the Python operations on them.
- `Loops` covers loops that stop at the first exception.
- `Geocode` is `tmap_geocode`.
- `CarRoute` and `TransitRoute` are the two route blocks.
- `TravelView` is the view itself.

`TravelView.Get` is imperative, like the source: it updates `response` stage
by stage. Each stage is its own method, proved against a function of its
inputs.

## Model

| member | source | states |
|---|---|---|
| PyText.TrimStartShape | backend/config/api/views.py:98-100 | `lstrip` leaves a suffix that is empty or starts with a non-space, and everything it cut is whitespace |
| PyText.TrimEndShape | backend/config/api/views.py:98-100 | `rstrip` leaves a prefix that is empty or ends with a non-space, and everything it cut is whitespace |
| PyText.StripIsTrimmedSlice | backend/config/api/views.py:98-100 | `strip()` returns a slice `s[a..b]` with whitespace before `a` and after `b`, and it neither starts nor ends with whitespace |
| PyText.StripBlank | backend/config/api/views.py:98-100 | `strip()` gives `""` exactly when every character is whitespace |
| PyText.StripIdempotent | backend/config/api/views.py:98-100 | stripping a stripped string changes nothing |
| PyText.ParseInt | backend/config/api/views.py:234-235 | `int(s)` succeeds exactly on a stripped optional sign followed by a digit part with single underscores; a `-` gives a value ≤ 0, otherwise ≥ 0 |
| PyText.ParseIntRoundTrip | backend/config/api/views.py:234-235 | `int(str(n)) == n` for every int `n`, with `str` rendered digit by digit independently of the parser |
| PyText.IntLiteralIsFloatLiteral | backend/config/api/views.py:71 | every string `int()` accepts, `float()` accepts too |
| PyJson.TruthyIffNotFalsy | backend/config/api/views.py:39-46 | a JSON value is false exactly when it is one of `None`, `False`, `0`, `0.0`, `""`, `[]`, `{}` |
| PyJson.Lookup | backend/config/api/views.py:38-43 | a dict lookup finds nothing exactly when no member has the key; otherwise it returns the last binding of the key |
| PyJson.Keys | backend/config/api/views.py:242 | iterating a dict yields each key once, exactly the keys present |
| PyJson.KeysInFirstOccurrenceOrder | backend/config/api/views.py:242 | the keys come in the order of their first occurrence in the document |
| PyJson.Get | backend/config/api/views.py:43 | `v.get(k, d)` succeeds exactly on a dict, and its result is the default or a value bound to `k` |
| PyJson.GetCases | backend/config/api/views.py:43 | on a dict, `get` gives the default when no member has the key, and otherwise the value of the key's last binding |
| PyJson.IterateEmptyIffFalsy | backend/config/api/views.py:232-242 | a loop over a value raises exactly on `None`, numbers and bools, and visits nothing exactly when the value is false |
| PyJson.IterateVisits | backend/config/api/views.py:242-245 | a loop visits a list's items, a string's characters one by one, and a dict's keys in order |
| PyJson.Unpack2 | backend/config/api/views.py:245 | unpacking a list into `lng, lat` succeeds exactly on two items, which it returns in order |
| PyJson.Index0 | backend/config/api/views.py:233 | `v[0]` of a list succeeds exactly when it is non-empty and gives the first item; only lists and strings can be indexed |
| PyJson.ToInt | backend/config/api/views.py:234-235 | `int()` keeps an int, gives 1 or 0 for a bool, succeeds on a string exactly when `ParseInt` does and with its value, and raises on `None`, lists and dicts |
| PyJson.ToIntTruncates | backend/config/api/views.py:234-235 | `int()` of a float truncates toward zero |
| PyJson.FloatConvertibleCases | backend/config/api/views.py:71 | `float()` of an int succeeds exactly within the float range (below 2^1024 - 2^970 in magnitude); integer strings convert; `None`, lists and dicts never do |
| PyJson.Minutes | backend/config/api/views.py:238 | `seconds // 60` is the whole number of minutes, rounded down also for negative seconds |
| PyJson.FloorDiv60 | backend/config/api/views.py:296 | `v // 60` succeeds exactly on ints, floats and bools; ints and bools give the floored int minutes, a float gives a whole float within the same bounds |
| PyJson.RoundKm | backend/config/api/views.py:297 | `round(v / 1000, 1)` succeeds exactly on floats, bools and ints whose quotient is within the float range, and is computed from `v` |
| Geocode.OrChainPicksFirstTruthy | backend/config/api/views.py:54-65 | the `or` chain yields the first truthy member, or the last member when none is truthy |
| Geocode.OrChainTruthyIffAny | backend/config/api/views.py:54-65 | the chain is true exactly when one of its members is, and its value is always one of the members' values |
| Geocode.PoiOf | backend/config/api/views.py:38-52 | selecting the POI record raises exactly when the body, a true `searchPoiInfo` or its `pois` is not a dict |
| Geocode.SelectedPoiCases | backend/config/api/views.py:38-52 | a false `searchPoiInfo` or `poi` selects nothing; a list `poi` selects its first item; any other `poi` selects itself |
| Geocode.SingleListBodySelects | backend/config/api/views.py:38-52 | a body whose `poi` is a one-element list selects that element |
| Geocode.CoordOf | backend/config/api/views.py:54-71 | a non-dict record raises; a `None` chain gives no result before any `float()`; otherwise the pair, or a raise when a value does not convert |
| Geocode.TmapGeocode | backend/config/api/views.py:12-75 | `None` on an empty keyword or key. Otherwise a result exactly when the body selects a dict record whose two chains are non-`None` and `float()`-convertible (ints within the float range); the result is (latitude chain, longitude chain) in that order |
| Geocode.GuardIgnoresResponse | backend/config/api/views.py:17-18 | with an empty keyword or key the result is `None` whatever the search would answer |
| Geocode.FrontCoordinatesWin | backend/config/api/views.py:54-71 | a record with truthy convertible `frontLat`/`frontLon` gives exactly those, whatever `lat`/`lon` hold |
| Loops.ScanAppend | backend/config/api/views.py:242-250 | a loop over `xs + ys` runs `xs`, then `ys` unless `xs` raised |
| Loops.ScanStopsAtRaise | backend/config/api/views.py:242-250 | once an iteration raised, the remaining elements are never visited |
| Loops.ScanOfSingles | backend/config/api/views.py:312-330 | when each iteration appends one item or raises, the list holds one item per element of the longest non-raising prefix, and the loop raised exactly when it stopped short |
| CarRoute.CarInfoOf | backend/config/api/views.py:231-240 | a false `features` gives no `car_info`; a true one gives it only from a list whose first feature is a dict, and otherwise raises |
| CarRoute.CarInfoFromFirstFeature | backend/config/api/views.py:231-240 | integer `totalTime` and `totalDistance` give `time_min` = `totalTime // 60` and the kilometres of `totalDistance`, exactly when `totalDistance / 1000` is within the float range; beyond it the block raises |
| CarRoute.LineCoordinates | backend/config/api/views.py:243-245 | a feature yields coordinates only when it is a dict whose geometry is a dict of type `"LineString"`, and then exactly what iterating its `coordinates` visits; it raises exactly on a non-dict feature, a non-dict geometry (GeoJSON `null` included) or `LineString` coordinates that cannot be iterated |
| CarRoute.SummariseCar | backend/config/api/views.py:203-253 | the car block yields `CarSummary`: `car_info` from the first feature, survived by a raise in the path loop, and the points appended before any raise |
| CarRoute.NoCarInfoNoPath | backend/config/api/views.py:203-253 | `car_path` is empty whenever `car_info` is `None` |
| CarRoute.AppendFeatures | backend/config/api/views.py:242-246 | the feature loop yields the points of each feature in order, stopping at the first raise |
| CarRoute.AppendFeature | backend/config/api/views.py:243-246 | one feature adds its `LineString` points, nothing for another geometry, and raises when it is not a dict |
| CarRoute.AppendLine | backend/config/api/views.py:245-246 | the coordinate loop appends one swapped point per pair, stopping at the first element that does not unpack into two |
| CarRoute.LineStringPointsSwapped | backend/config/api/views.py:242-246 | a `LineString` of pairs adds exactly one `{lat, lng}` per `[lng, lat]`, in order, and does not raise |
| CarRoute.OtherGeometryAddsNothing | backend/config/api/views.py:243-244 | a feature of another geometry type adds nothing and does not raise |
| TransitRoute.FirstItinerary | backend/config/api/views.py:285-289 | reading `it0` raises exactly when the body, `metaData` or `plan` is not a dict, or the itineraries are true but cannot be indexed |
| TransitRoute.FirstItineraryOfList | backend/config/api/views.py:285-289 | a list of itineraries gives its first one, and an empty list none |
| TransitRoute.MissingPlanMeansNoItinerary | backend/config/api/views.py:285-288 | a body without `metaData` falls through the defaults to no itinerary |
| TransitRoute.TransitInfoOfFields | backend/config/api/views.py:291-300 | integer totals give the floored minutes and keep `totalDistance`, and copy `transferCount` and `pathType`; a total given as a string or `null` raises |
| TransitRoute.ModeKo | backend/config/api/views.py:303-314 | a known mode gets its Korean name, any other hashable mode itself, and a list or dict mode raises |
| TransitRoute.PlaceName | backend/config/api/views.py:318-319 | the name succeeds exactly on a dict leg whose stop is false or a dict; it is the stop's `name` member when that is true, and `""` otherwise |
| TransitRoute.LegStep | backend/config/api/views.py:312-330 | a leg gives a step exactly when it is a dict with a hashable `mode`, an `int()`-convertible `sectionTime` and stops that `PlaceName` reads; the step carries its number, repeats its `mode_ko` in the summary, and names the two stops as `PlaceName` reads them |
| TransitRoute.SummariseTransit | backend/config/api/views.py:255-337 | the transit block yields `TransitSummary`, with the steps numbered `i + 1` at position `i` |
| TransitRoute.NoTransitInfoNoSteps | backend/config/api/views.py:255-337 | `transit_steps` is empty whenever `transit_info` is `None` |
| TransitRoute.AppendLegs | backend/config/api/views.py:312-330 | the leg loop over `enumerate(legs, start=1)` appends one step per leg, stopping at the first raise |
| TransitRoute.LegsNumberedInOrder | backend/config/api/views.py:312-330 | one step per leg of the longest non-raising prefix: step `i` is built from leg `i` and numbered `i + 1`; the loop raised exactly when it stopped short, at the next leg |
| TransitRoute.LegKept | backend/config/api/views.py:323-330 | the step at position `i` is leg `i`'s step, numbered `i + 1` |
| TransitRoute.LegStepFields | backend/config/api/views.py:313-330 | a step keeps the raw `mode`, and `mode_ko` is the Korean name of one of the six known modes or else the raw mode. The summary uses that same name and `sectionTime // 60` minutes |
| TransitRoute.UnhashableModeRaises | backend/config/api/views.py:314 | a list or dict `mode` raises in `mode_ko_map.get` |
| TravelView.DepartureOf | backend/config/api/views.py:98 | the departure neither starts nor ends with whitespace |
| TravelView.DestinationOf | backend/config/api/views.py:99 | the destination neither starts nor ends with whitespace; `ParameterDefaults` pins it to the stripped parameter, or `""` when absent |
| TravelView.ModeOf | backend/config/api/views.py:100 | the mode neither starts nor ends with whitespace; `ParameterDefaults` pins it to the stripped parameter, or `"car"` |
| TravelView.ParameterDefaults | backend/config/api/views.py:98-100 | a non-empty `origin` wins over `departure`; neither non-empty gives `""`; `destination` is the stripped parameter, `""` when absent; a non-empty `mode` is stripped, otherwise `"car"` |
| TravelView.BlankOriginShadowsDeparture | backend/config/api/views.py:98-117 | an all-whitespace `origin` is still truthy, so `departure` is ignored and the departure is blank |
| TravelView.Get | backend/config/api/views.py:91-393 | There are four outcomes. A blank endpoint answers with nothing but the missing-endpoint error. A missing key answers with that error and the three fixed steps. A geocode failure answers with one error per failed endpoint and nothing routed. Otherwise the answer is `Shaped` from the filled-in `response` |
| TravelView.GeocodeErrors | backend/config/api/views.py:151-161 | exactly one error per endpoint that was not found, departure's first, each naming its endpoint; none exactly when both were found |
| TravelView.AddCoordinates | backend/config/api/views.py:148-163 | both endpoints are geocoded from their own searches, departure first; each failure appends its own error; `located` holds exactly when both succeeded |
| TravelView.Filled | backend/config/api/views.py:175-337 | the three lookups keep the endpoints, the mode and the earlier errors, append at most three errors, and leave no path or steps without their info |
| TravelView.FetchAndShape | backend/config/api/views.py:175-393 | the weather, car and transit stages fill `response`, with their errors in that order, and the mode then shapes the answer |
| TravelView.AddWeather | backend/config/api/views.py:176-201 | the weather is looked up only with a key; a failed lookup appends one error and leaves `None` |
| TravelView.AddCarRoute | backend/config/api/views.py:203-253 | `car_info` and `car_path` take the car block's result, and a raise appends one error |
| TravelView.AddTransitRoute | backend/config/api/views.py:255-337 | `transit_info` and `transit_steps` take the transit block's result, and a raise appends one error |
| TravelView.Shape | backend/config/api/views.py:342-393 | car and walk with `car_info` give their three steps; transit with `transit_info` gives the leg summaries in order; otherwise no-route error and empty steps |
| TravelView.ShapedAnswersIffRoute | backend/config/api/views.py:342-382 | there is a duration exactly when the mode has its route, and then a distance and no new error; otherwise empty steps and exactly one more error |
| TravelView.ShapedDeterminesAnswer | backend/config/api/views.py:342-393 | two answers shaped from the same `response` are equal, so `Get`'s last outcome pins the whole answer |

## Left out

- HTTP requests, timeouts, `raise_for_status`, JSON decoding and the bodies
  sent to Tmap and OpenWeather. Their outcomes are inputs, `None` when any of
  them raised.
- Environment variables (an unset one reads as `""`), Django REST framework
  (`APIView`, `Response`, `JSONRenderer`) and `print` logging.
- The weather response parsing (lines 191-196): the lookup is reduced to its
  outcome, a `Weather` record or a failure.
- Floating point. `round(total_distance / 1000, 1)` is kept as `Km`, the
  value it is computed from. The walking estimate `int(distance_km / 4 * 60)`
  is kept as `WalkingTime(km)`. The coordinates are kept as the JSON values
  `float()` is applied to. Float floor division is on exact reals. JSON
  floats are exact reals, so the infinities and NaN Python's decoder can
  produce are not modelled.
- WalkingTime: for a walk whose `distance_km` is above about 1.2e307,
  `distance_km / 4 * 60` is infinite and `int()` of it raises `OverflowError`
  outside any `try`, so the view fails with HTTP 500; the model answers with
  `WalkingTime` instead, because the rounded kilometres are not computed.
- ParseInt: does not model CPython's limit on the number of digits `int()`
  converts from a string (`sys.int_max_str_digits`, 4300 by default, which
  raises `ValueError` beyond it) because the limit is configurable at run time.
- String rendering. Step lines and leg summaries are structured values
  (`Step`, `LegSummary`) holding the fields they are formatted from.
- `int()` and `float()` accept non-ASCII Unicode digits in Python; the model
  accepts ASCII digits only.
- A query parameter given twice: `query` holds the one value `QueryDict.get`
  returns.
- `backend/config/config/urls.py` and `backend/config/api/urls.py`: routing
  tables only.
- The exception kind (`TypeError`, `KeyError`, ...): each `try` block
  handles all of them alike, so `Py.Raise` does not carry it.
