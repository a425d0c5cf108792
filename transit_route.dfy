/** The public-transit block of `TravelAPIView.get`: the decoded Tmap
    transit body becomes `transit_info` and the numbered `transit_steps`.
    The request itself is not modelled; its outcome is `None` when posting,
    the status check or JSON decoding raised. */
module TransitRoute {
  import opened Wrappers
  import opened PyJson
  import opened Loops

  /** A leg's `summary` line, `"{start} → {end} ({mode_ko}) 약 {minutes}분"`,
      kept as its four parts. */
  datatype LegSummary = LegSummary(startName: Json, endName: Json, modeKo: Json, minutes: int)

  /** One entry of `transit_steps`. */
  datatype TransitStep = TransitStep(order: int, mode: Json, modeKo: Json, summary: LegSummary)

  /** `transit_info`, from the first itinerary. */
  datatype TransitInfo = TransitInfo(totalTimeMin: Json, totalDistanceKm: Km, transferCount: Json, pathType: Json)

  /** What the block leaves in `transit_info` and `transit_steps`, and
      whether it ended in its `except` branch. */
  datatype TransitResult = TransitResult(info: Option<TransitInfo>, steps: seq<TransitStep>, failed: bool)

  /** `mode_ko_map`: the Korean names of the Tmap leg modes. */
  const ModeNames: map<string, string> :=
    map["WALK" := "도보", "BUS" := "버스", "SUBWAY" := "지하철",
        "EXPRESSBUS" := "고속버스", "TRAIN" := "기차", "FERRY" := "해운"]

  /** `mode_ko_map.get(mode, mode)`: a list or object as key raises
      `TypeError` (unhashable). */
  function ModeKo(mode: Json): (r: Py<Json>)
    ensures r.Raise? <==> !Hashable(mode)
    ensures mode.JStr? && mode.s in ModeNames ==> r == Ok(JStr(ModeNames[mode.s]))
    ensures Hashable(mode) && !(mode.JStr? && mode.s in ModeNames) ==> r == Ok(mode)
  {
    if !Hashable(mode) then Raise
    else if mode.JStr? && mode.s in ModeNames then Ok(JStr(ModeNames[mode.s]))
    else Ok(mode)
  }

  /** `(leg.get(key) or {}).get("name") or ""`: a missing or false stop
      reads as `{}`, a false name as `""`; a true stop that is not a dict
      raises. */
  function PlaceName(leg: Json, key: string): (r: Py<Json>)
    ensures r.Ok? <==> leg.JObj? && (var v := Get(leg, key, JNull).value; !Truthy(v) || v.JObj?)
    ensures r.Ok? ==> r.value == JStr("") || Truthy(r.value)
    ensures r.Ok? ==> var v := Get(leg, key, JNull).value;
                      var n := if v.JObj? then Lookup(v.fields, "name") else None;
                      r.value == (if n.Some? && Truthy(n.value) then n.value else JStr(""))
  {
    var v :- Get(leg, key, JNull);
    var place := if Truthy(v) then v else JObj([]);
    var name :- Get(place, "name", JNull);
    Ok(if Truthy(name) then name else JStr(""))
  }

  /** The body of the leg loop for leg number `idx`. */
  function LegStep(idx: int, leg: Json): (r: Py<TransitStep>)
    ensures r.Ok? ==> leg.JObj? && r.value.order == idx && r.value.summary.modeKo == r.value.modeKo
    ensures r.Ok? <==> leg.JObj? && Hashable(Get(leg, "mode", JNull).value) &&
                       ToInt(Get(leg, "sectionTime", JInt(0)).value).Ok? &&
                       PlaceName(leg, "start").Ok? && PlaceName(leg, "end").Ok?
    ensures r.Ok? ==> PlaceName(leg, "start") == Ok(r.value.summary.startName) &&
                      PlaceName(leg, "end") == Ok(r.value.summary.endName)
  {
    var mode :- Get(leg, "mode", JNull);
    var modeKo :- ModeKo(mode);
    // `leg` is a dict by now, so this second `get` cannot raise.
    var sec :- ToInt(Get(leg, "sectionTime", JInt(0)).value);
    var startName :- PlaceName(leg, "start");
    var endName :- PlaceName(leg, "end");
    Ok(TransitStep(idx, mode, modeKo, LegSummary(startName, endName, modeKo, Minutes(sec))))
  }

  /** One iteration of `for idx, leg in enumerate(legs, start=1)`. */
  function LegRun(p: (int, Json)): Run<TransitStep>
  {
    match LegStep(p.0, p.1)
    case Ok(s) => Run([s], false)
    case Raise => Run([], true)
  }

  /** `it0`, the first itinerary of `metaData.plan.itineraries`; `Ok(None)`
      when there are none. */
  function FirstItinerary(data: Json): (r: Py<Option<Json>>)
    ensures r.Raise? <==> (!data.JObj? ||
      var meta := Get(data, "metaData", JObj([])).value;
      !meta.JObj? ||
      var plan := Get(meta, "plan", JObj([])).value;
      !plan.JObj? ||
      var its := Get(plan, "itineraries", JArr([])).value;
      Truthy(its) && Index0(its).Raise?)
  {
    var meta :- Get(data, "metaData", JObj([]));
    var plan :- Get(meta, "plan", JObj([]));
    var itineraries :- Get(plan, "itineraries", JArr([]));
    if !Truthy(itineraries) then Ok(None)
    else
      var it0 :- Index0(itineraries);
      Ok(Some(it0))
  }

  /** `transit_info` from `it0`: `totalTime // 60` and
      `round(totalDistance / 1000, 1)` must both be defined. */
  function TransitInfoOf(it0: Json): Py<TransitInfo>
  {
    var totalTime :- Get(it0, "totalTime", JInt(0));
    var totalDistance :- Get(it0, "totalDistance", JInt(0));
    var transferCount :- Get(it0, "transferCount", JInt(0));
    var minutes :- FloorDiv60(totalTime);
    var km :- RoundKm(totalDistance);
    var pathType :- Get(it0, "pathType", JNull);
    Ok(TransitInfo(minutes, km, transferCount, pathType))
  }

  /** The legs the loop visits: `it0.get("legs", [])`. */
  function LegsOf(it0: Json): Py<seq<Json>>
  {
    var legs :- Get(it0, "legs", JArr([]));
    Iterate(legs)
  }

  /** The whole block: `transit_info` survives a raise in the leg loop,
      while `transit_steps` keeps the legs appended before it. */
  function TransitSummary(outcome: Option<Json>): TransitResult
  {
    match outcome
    case None => TransitResult(None, [], true)
    case Some(data) =>
      match FirstItinerary(data)
      case Raise => TransitResult(None, [], true)
      case Ok(None) => TransitResult(None, [], false)
      case Ok(Some(it0)) =>
        match TransitInfoOf(it0)
        case Raise => TransitResult(None, [], true)
        case Ok(info) =>
          match LegsOf(it0)
          case Raise => TransitResult(Some(info), [], true)
          case Ok(legs) =>
            var r := Scan(Enumerate(legs, 1), LegRun);
            TransitResult(Some(info), r.out, r.raised)
  }

  /** The transit block with its `for` loop over the legs; the steps are
      numbered from 1 in leg order, each built from the leg with the same
      position. */
  method SummariseTransit(outcome: Option<Json>) returns (res: TransitResult)
    ensures res == TransitSummary(outcome)
    ensures forall i :: 0 <= i < |res.steps| ==> res.steps[i].order == i + 1
  {
    if outcome.None? {
      return TransitResult(None, [], true);
    }
    var first := FirstItinerary(outcome.value);
    if first.Raise? {
      return TransitResult(None, [], true);
    }
    if first.value.None? {
      return TransitResult(None, [], false);
    }
    var it0 := first.value.value;
    var info := TransitInfoOf(it0);
    if info.Raise? {
      return TransitResult(None, [], true);
    }
    var legs := LegsOf(it0);
    if legs.Raise? {
      return TransitResult(Some(info.value), [], true);
    }
    var transitSteps, failed := AppendLegs(legs.value);
    res := TransitResult(Some(info.value), transitSteps, failed);
    LegsNumberedInOrder(legs.value);
  }

  /** `for idx, leg in enumerate(legs, start=1)`, appending one step per leg. */
  method AppendLegs(legs: seq<Json>) returns (transitSteps: seq<TransitStep>, failed: bool)
    ensures Run(transitSteps, failed) == Scan(Enumerate(legs, 1), LegRun)
  {
    ghost var numbered := Enumerate(legs, 1);
    transitSteps, failed := [], false;
    var i := 0;
    while i < |legs| && !failed
      invariant 0 <= i <= |legs|
      invariant !failed ==> Scan(numbered[..i], LegRun) == Run(transitSteps, false)
      invariant failed ==> Scan(numbered, LegRun) == Run(transitSteps, true)
    {
      var idx := i + 1;
      ScanStep(numbered, i, LegRun, transitSteps);
      assert numbered[i] == (idx, legs[i]);
      match LegStep(idx, legs[i]) {
        case Ok(step) =>
          transitSteps := transitSteps + [step];
        case Raise =>
          failed := true;
      }
      i := i + 1;
    }
    if !failed {
      assert numbered[..i] == numbered;
    }
  }

  /** `transit_steps` is empty whenever `transit_info` is `None`: the legs
      are only read after `transit_info` is set. */
  lemma NoTransitInfoNoSteps(outcome: Option<Json>)
    ensures TransitSummary(outcome).info.None? ==> TransitSummary(outcome).steps == []
  {
  }

  /** A list of itineraries gives its first one, and an empty list none. */
  lemma FirstItineraryOfList(data: Json, its: seq<Json>)
    requires Get(data, "metaData", JObj([])).Ok?
    requires var meta := Get(data, "metaData", JObj([])).value;
      Get(meta, "plan", JObj([])).Ok? &&
      Get(Get(meta, "plan", JObj([])).value, "itineraries", JArr([])) == Ok(JArr(its))
    ensures FirstItinerary(data) == if its == [] then Ok(None) else Ok(Some(its[0]))
  {
  }

  /** A body without `metaData` has no itinerary: the defaults `{}`, `{}`
      and `[]` lead to an empty list. */
  lemma MissingPlanMeansNoItinerary(data: Json)
    requires data.JObj? && forall i :: 0 <= i < |data.fields| ==> data.fields[i].0 != "metaData"
    ensures FirstItinerary(data) == Ok(None)
  {
    GetCases(data, "metaData", JObj([]));
  }

  /** `transit_info` from the fields of `it0`. Integer totals give the
      floored minutes and keep `totalDistance` for the kilometres, and
      `transferCount` and `pathType` are copied. No `int()` is applied here,
      so a total given as a string (or `null`) raises. */
  lemma TransitInfoOfFields(it0: Json, t: Json, d: Json)
    requires Get(it0, "totalTime", JInt(0)) == Ok(t) && Get(it0, "totalDistance", JInt(0)) == Ok(d)
    ensures t.JStr? || d.JStr? || t.JNull? || d.JNull? ==> TransitInfoOf(it0).Raise?
    ensures t.JInt? && d.JInt? && -1000 * FloatOverflow < d.i < 1000 * FloatOverflow ==>
              TransitInfoOf(it0).Ok? &&
              var info := TransitInfoOf(it0).value;
              60 * info.totalTimeMin.i <= t.i < 60 * info.totalTimeMin.i + 60 &&
              info.totalDistanceKm == RoundedKm(d) &&
              info.transferCount == Get(it0, "transferCount", JInt(0)).value &&
              info.pathType == Get(it0, "pathType", JNull).value
  {
  }

  /** The steps are the legs of the longest prefix whose bodies do not raise,
      one each and in order, numbered 1..n; the loop raises exactly when it
      stops short, at the leg right after the last step. */
  lemma LegsNumberedInOrder(legs: seq<Json>)
    ensures var r := Scan(Enumerate(legs, 1), LegRun);
      |r.out| <= |legs| && (r.raised <==> |r.out| < |legs|) &&
      (forall i :: 0 <= i < |r.out| ==> r.out[i].order == i + 1 && LegStep(i + 1, legs[i]) == Ok(r.out[i])) &&
      (r.raised ==> LegStep(|r.out| + 1, legs[|r.out|]) == Raise)
  {
    var numbered := Enumerate(legs, 1);
    LegRunsSingle(numbered);
    ScanOfSingles(numbered, LegRun);
    var r := Scan(numbered, LegRun);
    forall i | 0 <= i < |r.out|
      ensures r.out[i].order == i + 1 && LegStep(i + 1, legs[i]) == Ok(r.out[i])
    {
      LegKept(legs, i);
    }
    if r.raised {
      LegRunRaises(numbered[|r.out|]);
    }
  }

  /** The step at position `i` comes from the leg at `i`, numbered `i + 1`. */
  lemma LegKept(legs: seq<Json>, i: nat)
    requires i < |Scan(Enumerate(legs, 1), LegRun).out|
    requires forall j :: 0 <= j < |legs| ==> Single(LegRun(Enumerate(legs, 1)[j]))
    ensures i < |legs|
    ensures var step := Scan(Enumerate(legs, 1), LegRun).out[i];
      step.order == i + 1 && LegStep(i + 1, legs[i]) == Ok(step)
  {
    var numbered := Enumerate(legs, 1);
    ScanOfSinglesAt(numbered, LegRun, i);
    LegRunAppends(numbered[i], Scan(numbered, LegRun).out[i]);
  }

  /** Every numbered leg's iteration appends at most one step. */
  lemma LegRunsSingle(ps: seq<(int, Json)>)
    ensures forall i :: 0 <= i < |ps| ==> Single(LegRun(ps[i]))
  {
    forall i | 0 <= i < |ps| ensures Single(LegRun(ps[i])) {
      LegRunSingle(ps[i]);
    }
  }

  /** One leg's iteration appends one step, or raises and appends nothing. */
  lemma LegRunSingle(p: (int, Json))
    ensures Single(LegRun(p))
  {
  }

  /** An iteration that appended a step built it with `LegStep`. */
  lemma LegRunAppends(p: (int, Json), step: TransitStep)
    requires LegRun(p) == Run([step], false)
    ensures LegStep(p.0, p.1) == Ok(step) && step.order == p.0
  {
  }

  /** An iteration that raised did so in `LegStep`. */
  lemma LegRunRaises(p: (int, Json))
    requires LegRun(p) == Run([], true)
    ensures LegStep(p.0, p.1) == Raise
  {
  }

  /** A step records its leg's raw `mode`, the Korean name when the mode is
      one of the six known ones and the raw mode otherwise, the same name in
      its summary, and the whole minutes of `sectionTime`. */
  lemma LegStepFields(idx: int, leg: Json, step: TransitStep)
    requires LegStep(idx, leg) == Ok(step)
    ensures leg.JObj? && step.order == idx
    ensures Get(leg, "mode", JNull) == Ok(step.mode)
    ensures step.mode.JStr? && step.mode.s in ModeNames ==> step.modeKo == JStr(ModeNames[step.mode.s])
    ensures !(step.mode.JStr? && step.mode.s in ModeNames) ==> step.modeKo == step.mode
    ensures step.summary.modeKo == step.modeKo
    ensures var sec := ToInt(Get(leg, "sectionTime", JInt(0)).value);
            sec.Ok? && 60 * step.summary.minutes <= sec.value < 60 * step.summary.minutes + 60
  {
  }

  /** A leg whose mode is a list or an object stops the loop: it cannot be
      looked up in the mode table. */
  lemma UnhashableModeRaises(idx: int, leg: Json)
    requires Get(leg, "mode", JNull).Ok? && !Hashable(Get(leg, "mode", JNull).value)
    ensures LegStep(idx, leg) == Raise
  {
  }
}
