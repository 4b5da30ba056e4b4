/** The weather routes without their network calls: the location check, the
    status decisions, grouping the forecast by day, and deriving garden
    alerts from the forecast. */
module WeatherRoutes {
  import opened Wrappers
  import opened JsValue
  import opened Http

  const LocationMissing: string := "Please provide a location parameter"
  const CurrentFailed: string := "Failed to fetch weather data"
  const ForecastFailed: string := "Failed to fetch weather forecast"
  const AlertsFailed: string := "Failed to generate weather alerts"

  // ----- status decisions -----

  /** What the `try` block of the current-weather route decides: a failed
      call, or a truthy `cod` other than the number 200, is an error. */
  function CurrentTry<T>(upstream: Upstream<T>): (r: Outcome)
    ensures r == Proceed <==> upstream.Fetched? && (!Truthy(upstream.cod) || upstream.cod == Num(200))
    ensures upstream.FetchFailed? ==> r == Reject(500, CurrentFailed)
    ensures upstream.Fetched? && r.Reject? ==> r.status == 404
  {
    match upstream
    case FetchFailed => Reject(500, CurrentFailed)
    case Fetched(cod, message, _) =>
      if Truthy(cod) && cod != Num(200) then Reject(404, OrStr(message, "Location not found"))
      else Proceed
  }

  /** The same for the forecast route, whose service reports `cod` as the
      string "200". */
  function ForecastTry<T>(upstream: Upstream<T>): (r: Outcome)
    ensures r == Proceed <==> upstream.Fetched? && (!Truthy(upstream.cod) || upstream.cod == Str("200"))
    ensures upstream.FetchFailed? ==> r == Reject(500, ForecastFailed)
    ensures upstream.Fetched? && r.Reject? ==> r.status == 404
  {
    match upstream
    case FetchFailed => Reject(500, ForecastFailed)
    case Fetched(cod, message, _) =>
      if Truthy(cod) && cod != Str("200") then Reject(404, OrStr(message, "Location not found"))
      else Proceed
  }

  /** The same for the alerts route, which needs both calls to have
      succeeded exactly. */
  function AlertsTry<S, T>(current: Upstream<S>, forecast: Upstream<T>): (r: Outcome)
    ensures r == Proceed <==>
      current.Fetched? && forecast.Fetched? && current.cod == Num(200) && forecast.cod == Str("200")
    ensures current.FetchFailed? || forecast.FetchFailed? ==> r == Reject(500, AlertsFailed)
    ensures current.Fetched? && forecast.Fetched? && r.Reject? ==> r == Reject(404, "Location not found")
  {
    if current.FetchFailed? || forecast.FetchFailed? then Reject(500, AlertsFailed)
    else if current.cod != Num(200) || forecast.cod != Str("200") then Reject(404, "Location not found")
    else Proceed
  }

  /** A route's decision as the code is written: the location check comes
      before the `try`, but the catch-all handler turns every error raised
      inside the `try`, the not-found reply included, into a 500 with the
      route's generic message. */
  function RouteOutcomeAsWritten(location: Option<string>, tryOutcome: Outcome, catchMessage: string): (r: Outcome)
    ensures !Present(location) ==> r == Reject(400, LocationMissing)
    ensures Present(location) && tryOutcome.Reject? ==> r == Reject(500, catchMessage)
    ensures Present(location) && tryOutcome == Proceed ==> r == Proceed
  {
    if !Present(location) then Reject(400, LocationMissing)
    else if tryOutcome.Reject? then Reject(500, catchMessage)
    else Proceed
  }

  /** A route's decision as intended: a missing location is a 400 and any
      error decided inside the `try` keeps its own status and message. */
  function RouteOutcome(location: Option<string>, tryOutcome: Outcome): (r: Outcome)
    ensures !Present(location) ==> r == Reject(400, LocationMissing)
    ensures Present(location) ==> r == tryOutcome
  {
    if !Present(location) then Reject(400, LocationMissing) else tryOutcome
  }

  /** The unknown-location reply the routes mean to send is lost as written:
      the current-weather, forecast and alerts routes answer a not-found
      location with 500 instead of 404. */
  lemma NotFoundMaskedAsServerError()
    ensures
      var notFound: Upstream<int> := Fetched(Str("404"), Some("city not found"), 0);
      var ok: Upstream<int> := Fetched(Num(200), None, 0);
      && RouteOutcomeAsWritten(Some("Atlantis"), CurrentTry(notFound), CurrentFailed) == Reject(500, CurrentFailed)
      && RouteOutcomeAsWritten(Some("Atlantis"), ForecastTry(notFound), ForecastFailed) == Reject(500, ForecastFailed)
      && RouteOutcomeAsWritten(Some("Atlantis"), AlertsTry(ok, notFound), AlertsFailed) == Reject(500, AlertsFailed)
      && CurrentWeatherRoute(Some("Atlantis"), notFound) == Fail(500, CurrentFailed)
  {
  }

  /** With the intended decision an unknown location is reported as 404 by
      every route, with the service's message where it gives one. */
  lemma NotFoundReported<S, T>(location: Option<string>, current: Upstream<S>, forecast: Upstream<T>)
    requires Present(location)
    ensures current.Fetched? && Truthy(current.cod) && current.cod != Num(200) ==>
      RouteOutcome(location, CurrentTry(current)) == Reject(404, OrStr(current.message, "Location not found"))
    ensures forecast.Fetched? && Truthy(forecast.cod) && forecast.cod != Str("200") ==>
      RouteOutcome(location, ForecastTry(forecast)) == Reject(404, OrStr(forecast.message, "Location not found"))
    ensures current.Fetched? && forecast.Fetched? && (current.cod != Num(200) || forecast.cod != Str("200")) ==>
      RouteOutcome(location, AlertsTry(current, forecast)) == Reject(404, "Location not found")
  {
  }

  // ----- current weather -----

  /** The current-weather route as written: the service's data when the
      location is given and found; every other failure, a location the
      service does not know included, is a 500 with the generic message.
      Reshaping the data is not modelled. */
  function CurrentWeatherRoute<T>(location: Option<string>, upstream: Upstream<T>): (r: Response<T>)
    ensures !Present(location) ==> r == Fail(400, LocationMissing)
    ensures r.Ok? <==> Present(location) && upstream.Fetched? && !(Truthy(upstream.cod) && upstream.cod != Num(200))
    ensures r.Ok? ==> r.value == upstream.body
    ensures Present(location) && !r.Ok? ==> r == Fail(500, CurrentFailed)
  {
    match RouteOutcomeAsWritten(location, CurrentTry(upstream), CurrentFailed)
    case Reject(status, message) => Fail(status, message)
    case Proceed => Ok(upstream.body)
  }

  // ----- forecast grouping -----

  /** A forecast entry with its calendar date already extracted. */
  datatype ForecastEntry = ForecastEntry(timestamp: int, date: string, time: string, temperature: real, rain: real)

  datatype DayGroup = DayGroup(date: string, items: seq<ForecastEntry>)

  /** The distinct dates of the entries, in order of first appearance. */
  function Dates(items: seq<ForecastEntry>): seq<string> {
    if items == [] then []
    else
      var front := Dates(items[..|items| - 1]);
      var d := items[|items| - 1].date;
      if d in front then front else front + [d]
  }

  /** The entries of one date, in input order. */
  function Bucket(items: seq<ForecastEntry>, date: string): seq<ForecastEntry> {
    if items == [] then []
    else
      var front := Bucket(items[..|items| - 1], date);
      var last := items[|items| - 1];
      if last.date == date then front + [last] else front
  }

  /** Every date occurs once in `Dates`, and exactly the dates of the
      entries occur there. */
  lemma {:induction false} DatesSpec(items: seq<ForecastEntry>)
    ensures forall i, j :: 0 <= i < j < |Dates(items)| ==> Dates(items)[i] != Dates(items)[j]
    ensures forall d :: d in Dates(items) <==> exists i :: 0 <= i < |items| && items[i].date == d
  {
    if items != [] {
      var front := items[..|items| - 1];
      DatesSpec(front);
      assert forall i :: 0 <= i < |front| ==> front[i] == items[i];
      forall d | d in Dates(items) ensures exists i :: 0 <= i < |items| && items[i].date == d {
        if d in Dates(front) {
          var i :| 0 <= i < |front| && front[i].date == d;
          assert items[i].date == d;
        } else {
          assert items[|items| - 1].date == d;
        }
      }
      forall d | exists i :: 0 <= i < |items| && items[i].date == d ensures d in Dates(items) {
        var i :| 0 <= i < |items| && items[i].date == d;
        if i < |front| {
          assert front[i].date == d;
        }
      }
    }
  }

  /** A date's bucket holds exactly the entries of that date. */
  lemma {:induction false} BucketSpec(items: seq<ForecastEntry>, date: string)
    ensures forall e :: e in Bucket(items, date) <==> e in items && e.date == date
  {
    if items != [] {
      var front := items[..|items| - 1];
      BucketSpec(front, date);
      assert items == front + [items[|items| - 1]];
    }
  }

  lemma DatesSnoc(items: seq<ForecastEntry>, j: nat)
    requires j < |items|
    ensures Dates(items[..j + 1]) ==
      if items[j].date in Dates(items[..j]) then Dates(items[..j]) else Dates(items[..j]) + [items[j].date]
    ensures forall d :: (Bucket(items[..j + 1], d) ==
      if items[j].date == d then Bucket(items[..j], d) + [items[j]] else Bucket(items[..j], d))
  {
    assert items[..j + 1][..j] == items[..j];
  }

  /** A date not yet seen has an empty bucket. */
  lemma {:induction false} BucketOfUnseenDate(items: seq<ForecastEntry>, d: string)
    requires d !in Dates(items)
    ensures Bucket(items, d) == []
  {
    if items != [] {
      BucketOfUnseenDate(items[..|items| - 1], d);
    }
  }

  /** Group entries by date, as the reduce into a date-keyed object does:
      one group per date in order of first appearance, each holding exactly
      that date's entries in input order. */
  method GroupByDay(items: seq<ForecastEntry>) returns (groups: seq<DayGroup>)
    ensures |groups| == |Dates(items)|
    ensures forall i :: 0 <= i < |groups| ==>
      groups[i].date == Dates(items)[i] && groups[i].items == Bucket(items, groups[i].date)
  {
    var days: map<string, seq<ForecastEntry>> := map[];
    var order: seq<string> := [];
    var j := 0;
    while j < |items|
      invariant 0 <= j <= |items|
      invariant order == Dates(items[..j])
      invariant forall d :: d in days <==> d in order
      invariant forall d :: d in days ==> days[d] == Bucket(items[..j], d)
    {
      var item := items[j];
      DatesSnoc(items, j);
      var bucket := [];
      if item.date in days {
        bucket := days[item.date];
      } else {
        BucketOfUnseenDate(items[..j], item.date);
        order := order + [item.date];
      }
      days := days[item.date := bucket + [item]];
      j := j + 1;
    }
    assert items[..j] == items;
    groups := seq(|order|, i requires 0 <= i < |order| => DayGroup(order[i], days[order[i]]));
  }

  /** The `days` query parameter: absent (meaning 5), or given and parsed
      with `parseInt`, `None` standing for NaN. */
  datatype DaysParam = DaysAbsent | DaysGiven(parsed: Option<int>)

  /** The end index `slice(0, days)` uses on a list of length `len`: NaN is 0,
      a negative count counts back from the end, and a large one stops at the
      end. */
  function SliceEnd(len: nat, days: DaysParam): (r: nat)
    ensures r <= len
    ensures days == DaysAbsent ==> r == if len < 5 then len else 5
    ensures days.DaysGiven? && days.parsed.Some? && days.parsed.value >= 0 ==>
      r == if len < days.parsed.value then len else days.parsed.value
    ensures days == DaysGiven(None) ==> r == 0
    ensures days.DaysGiven? && days.parsed.Some? && days.parsed.value < 0 ==>
      r == if len + days.parsed.value < 0 then 0 else len + days.parsed.value
  {
    var n := match days
      case DaysAbsent => 5
      case DaysGiven(None) => 0
      case DaysGiven(Some(v)) => v;
    if n < 0 then (if len + n < 0 then 0 else len + n)
    else if n > len then len
    else n
  }

  /** The first `days` date groups. */
  function LimitDays(groups: seq<DayGroup>, days: DaysParam): (r: seq<DayGroup>)
    ensures |r| == SliceEnd(|groups|, days)
    ensures forall i :: 0 <= i < |r| ==> r[i] == groups[i]
  {
    groups[..SliceEnd(|groups|, days)]
  }

  /** By default, and for any non-negative count, the reply keeps the
      earliest dates only. */
  lemma LimitKeepsEarliest(groups: seq<DayGroup>, n: nat, i: nat)
    requires i < |groups| && i < n
    ensures LimitDays(groups, DaysGiven(Some(n)))[i] == groups[i]
    ensures i < 5 ==> LimitDays(groups, DaysAbsent)[i] == groups[i]
  {
  }

  /** The forecast route as written: the entries grouped by date, cut to
      the requested number of dates; every failure after the location check
      is a 500 with the generic message. */
  method ForecastRoute(location: Option<string>, days: DaysParam, upstream: Upstream<seq<ForecastEntry>>)
    returns (r: Response<seq<DayGroup>>)
    ensures !Present(location) ==> r == Fail(400, LocationMissing)
    ensures Present(location) && ForecastTry(upstream).Reject? ==> r == Fail(500, ForecastFailed)
    ensures Present(location) && ForecastTry(upstream) == Proceed ==>
      r.Ok? && upstream.Fetched? &&
      |r.value| == SliceEnd(|Dates(upstream.body)|, days) &&
      forall i :: 0 <= i < |r.value| ==>
        r.value[i].date == Dates(upstream.body)[i] && r.value[i].items == Bucket(upstream.body, r.value[i].date)
  {
    var outcome := RouteOutcomeAsWritten(location, ForecastTry(upstream), ForecastFailed);
    if outcome.Reject? {
      return Fail(outcome.status, outcome.message);
    }
    var groups := GroupByDay(upstream.body);
    r := Ok(LimitDays(groups, days));
  }

  // ----- alerts -----

  /** A raw forecast entry as the alert rules read it; `rain3h` is absent when
      the entry has no rain volume for the last three hours. */
  datatype ForecastItem = ForecastItem(temp: real, rain3h: Option<real>, windSpeed: real)

  datatype AlertKind = Frost | Heat | Drought | HeavyRain | Wind

  datatype Alert = Alert(alertType: string, severity: string, message: string, action: string)

  /** The fixed text of each alert. */
  function AlertFor(k: AlertKind): Alert {
    match k
    case Frost => Alert("frost", "high",
      "Frost risk detected in the next few days. Protect sensitive plants.",
      "Cover tender plants with a frost blanket or bring potted plants indoors.")
    case Heat => Alert("heat", "high",
      "High temperatures expected. Plants may be stressed.",
      "Increase watering frequency and consider providing shade for sensitive plants.")
    case Drought => Alert("drought", "medium",
      "No rain predicted in the next few days.",
      "Ensure adequate watering, especially for newly planted crops.")
    case HeavyRain => Alert("heavy_rain", "medium",
      "Heavy rain predicted. Risk of soil erosion and waterlogging.",
      "Ensure good drainage and consider protecting delicate plants.")
    case Wind => Alert("wind", "medium",
      "Strong winds predicted. Risk of plant and structure damage.",
      "Stake tall plants and secure garden structures.")
  }

  /** The position of each kind in the reply. */
  function Rank(k: AlertKind): nat {
    match k
    case Frost => 0
    case Heat => 1
    case Drought => 2
    case HeavyRain => 3
    case Wind => 4
  }

  predicate FrostRisk(list: seq<ForecastItem>) { exists i :: 0 <= i < |list| && list[i].temp <= 0.0 }
  predicate HeatRisk(list: seq<ForecastItem>) { exists i :: 0 <= i < |list| && list[i].temp >= 30.0 }
  predicate RainPredicted(list: seq<ForecastItem>) {
    exists i :: 0 <= i < |list| && list[i].rain3h.Some? && list[i].rain3h.value > 0.0
  }
  predicate HeavyRainRisk(list: seq<ForecastItem>) {
    exists i :: 0 <= i < |list| && list[i].rain3h.Some? && list[i].rain3h.value > 10.0
  }
  predicate WindRisk(list: seq<ForecastItem>) { exists i :: 0 <= i < |list| && list[i].windSpeed > 10.0 }

  /** Whether the forecast calls for an alert of kind `k`. */
  predicate Raised(k: AlertKind, list: seq<ForecastItem>) {
    match k
    case Frost => FrostRisk(list)
    case Heat => HeatRisk(list)
    case Drought => !RainPredicted(list)
    case HeavyRain => HeavyRainRisk(list)
    case Wind => WindRisk(list)
  }

  const KindOrder: seq<AlertKind> := [Frost, Heat, Drought, HeavyRain, Wind]

  /** The kinds among `ks` the forecast raises, in the order of `ks`. */
  function RaisedKinds(ks: seq<AlertKind>, list: seq<ForecastItem>): seq<AlertKind> {
    if ks == [] then [] else (if Raised(ks[0], list) then [ks[0]] else []) + RaisedKinds(ks[1..], list)
  }

  /** A kind is picked exactly when it is offered and raised. */
  lemma {:induction false} RaisedKindsMembers(ks: seq<AlertKind>, list: seq<ForecastItem>, k: AlertKind)
    ensures k in RaisedKinds(ks, list) <==> k in ks && Raised(k, list)
  {
    if ks != [] {
      RaisedKindsMembers(ks[1..], list, k);
      assert ks == [ks[0]] + ks[1..];
    }
  }

  /** The kinds of the alerts the forecast calls for, in reply order. */
  function AlertKinds(list: seq<ForecastItem>): seq<AlertKind> {
    RaisedKinds(KindOrder, list)
  }

  /** Picking from a list ordered by rank keeps it ordered by rank. */
  lemma {:induction false} RaisedKindsOrdered(ks: seq<AlertKind>, list: seq<ForecastItem>)
    requires forall i, j :: 0 <= i < j < |ks| ==> Rank(ks[i]) < Rank(ks[j])
    ensures forall i, j :: 0 <= i < j < |RaisedKinds(ks, list)| ==>
      Rank(RaisedKinds(ks, list)[i]) < Rank(RaisedKinds(ks, list)[j])
  {
    if ks != [] {
      RaisedKindsOrdered(ks[1..], list);
      var rest := RaisedKinds(ks[1..], list);
      forall j | 0 <= j < |rest| ensures Rank(ks[0]) < Rank(rest[j]) {
        RaisedKindsMembers(ks[1..], list, rest[j]);
      }
    }
  }

  /** Each alert kind appears exactly when its rule fires, at most once, and
      in the fixed order frost, heat, drought, heavy rain, wind. */
  lemma AlertKindsSpec(list: seq<ForecastItem>)
    ensures Frost in AlertKinds(list) <==> exists i :: 0 <= i < |list| && list[i].temp <= 0.0
    ensures Heat in AlertKinds(list) <==> exists i :: 0 <= i < |list| && list[i].temp >= 30.0
    ensures Drought in AlertKinds(list) <==>
      !exists i :: 0 <= i < |list| && list[i].rain3h.Some? && list[i].rain3h.value > 0.0
    ensures HeavyRain in AlertKinds(list) <==>
      exists i :: 0 <= i < |list| && list[i].rain3h.Some? && list[i].rain3h.value > 10.0
    ensures Wind in AlertKinds(list) <==> exists i :: 0 <= i < |list| && list[i].windSpeed > 10.0
    ensures forall i, j :: 0 <= i < j < |AlertKinds(list)| ==> Rank(AlertKinds(list)[i]) < Rank(AlertKinds(list)[j])
  {
    RaisedKindsOrdered(KindOrder, list);
    RaisedKindsMembers(KindOrder, list, Frost);
    RaisedKindsMembers(KindOrder, list, Heat);
    RaisedKindsMembers(KindOrder, list, Drought);
    RaisedKindsMembers(KindOrder, list, HeavyRain);
    RaisedKindsMembers(KindOrder, list, Wind);
  }

  /** Drought and heavy rain are never reported together: heavy rain is
      rain. */
  lemma DroughtExcludesHeavyRain(list: seq<ForecastItem>)
    ensures !(Drought in AlertKinds(list) && HeavyRain in AlertKinds(list))
  {
    RaisedKindsMembers(KindOrder, list, Drought);
    RaisedKindsMembers(KindOrder, list, HeavyRain);
    if HeavyRain in AlertKinds(list) {
      var i :| 0 <= i < |list| && list[i].rain3h.Some? && list[i].rain3h.value > 10.0;
      assert RainPredicted(list);
    }
  }

  /** An empty forecast gives exactly the drought alert. */
  lemma EmptyForecastIsDrought()
    ensures AlertKinds([]) == [Drought]
  {
  }

  /** `[k]` when `raised`, otherwise nothing. */
  function Pick(raised: bool, k: AlertKind): seq<AlertKind> {
    if raised then [k] else []
  }

  /** The alert kinds, rule by rule. */
  lemma AlertKindsUnfold(list: seq<ForecastItem>)
    ensures AlertKinds(list) ==
      Pick(FrostRisk(list), Frost) + Pick(HeatRisk(list), Heat) + Pick(!RainPredicted(list), Drought) +
      Pick(HeavyRainRisk(list), HeavyRain) + Pick(WindRisk(list), Wind)
  {
    var k1: seq<AlertKind> := [Heat, Drought, HeavyRain, Wind];
    var k2: seq<AlertKind> := [Drought, HeavyRain, Wind];
    var k3: seq<AlertKind> := [HeavyRain, Wind];
    var k4: seq<AlertKind> := [Wind];
    assert KindOrder[1..] == k1 && k1[1..] == k2 && k2[1..] == k3 && k3[1..] == k4 && k4[1..] == [];
    assert RaisedKinds(k4, list) == (if WindRisk(list) then [Wind] else []);
    assert RaisedKinds(k3, list) == (if HeavyRainRisk(list) then [HeavyRain] else []) + RaisedKinds(k4, list);
    assert RaisedKinds(k2, list) == (if !RainPredicted(list) then [Drought] else []) + RaisedKinds(k3, list);
    assert RaisedKinds(k1, list) == (if HeatRisk(list) then [Heat] else []) + RaisedKinds(k2, list);
    assert AlertKinds(list) == (if FrostRisk(list) then [Frost] else []) + RaisedKinds(k1, list);
  }

  /** The alerts of the given kinds, in the same order. */
  function AlertsOf(ks: seq<AlertKind>): (r: seq<Alert>)
    ensures |r| == |ks|
    ensures forall i :: 0 <= i < |ks| ==> r[i] == AlertFor(ks[i])
  {
    seq(|ks|, i requires 0 <= i < |ks| => AlertFor(ks[i]))
  }

  /** Derive the alerts step by step, rule by rule as the route pushes
      them; the fixed texts of each alert are attached at the end. */
  method GenerateAlerts(list: seq<ForecastItem>) returns (alerts: seq<Alert>)
    ensures alerts == AlertsOf(AlertKinds(list))
  {
    var kinds: seq<AlertKind> := [];
    if FrostRisk(list) {
      kinds := kinds + [Frost];
    }
    assert kinds == Pick(FrostRisk(list), Frost);
    ghost var k1 := kinds;
    if HeatRisk(list) {
      kinds := kinds + [Heat];
    }
    assert kinds == k1 + Pick(HeatRisk(list), Heat);
    ghost var k2 := kinds;
    if !RainPredicted(list) {
      kinds := kinds + [Drought];
    }
    assert kinds == k2 + Pick(!RainPredicted(list), Drought);
    ghost var k3 := kinds;
    if HeavyRainRisk(list) {
      kinds := kinds + [HeavyRain];
    }
    assert kinds == k3 + Pick(HeavyRainRisk(list), HeavyRain);
    ghost var k4 := kinds;
    if WindRisk(list) {
      kinds := kinds + [Wind];
    }
    assert kinds == k4 + Pick(WindRisk(list), Wind);
    AlertKindsUnfold(list);
    alerts := AlertsOf(kinds);
  }

  /** The alerts route as written: the derived alerts when the location is
      given and both calls succeeded; every failure after the location check
      is a 500 with the generic message. */
  method AlertsRoute<S>(location: Option<string>, current: Upstream<S>, forecast: Upstream<seq<ForecastItem>>)
    returns (r: Response<seq<Alert>>)
    ensures !Present(location) ==> r == Fail(400, LocationMissing)
    ensures Present(location) && AlertsTry(current, forecast).Reject? ==> r == Fail(500, AlertsFailed)
    ensures Present(location) && AlertsTry(current, forecast) == Proceed ==>
      r.Ok? && forecast.Fetched? &&
      r.value == AlertsOf(AlertKinds(forecast.body))
  {
    var outcome := RouteOutcomeAsWritten(location, AlertsTry(current, forecast), AlertsFailed);
    if outcome.Reject? {
      return Fail(outcome.status, outcome.message);
    }
    var alerts := GenerateAlerts(forecast.body);
    r := Ok(alerts);
  }
}
