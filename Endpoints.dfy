/**
 * The two actions, `currentweather` and `forecast`: read the query
 * parameters, refuse a request with no location, ask the weather provider,
 * and wrap its answer (or its exception) in a JSON envelope.
 *
 * The provider is a parameter `fetch`: whatever it does for a call, the
 * response depends on it only through the one call the action makes.
 */
module Endpoints {
  import opened Php
  import opened Clock
  import opened Snapshot
  import opened Forecasts

  /** The request input that `$request->get` reads: parameter name to value. */
  type Request = map<string, Value>

  /** `$request->get($key, $default)`: the parameter when it is present (even
      with a `null` value), otherwise the default. */
  function Input(req: Request, key: string, default: Value): Value {
    if key in req then req[key] else default
  }

  function City(req: Request): Value {
    Input(req, "city", Null)
  }

  function Coord(req: Request): Value {
    Input(req, "coord", Null)
  }

  const AbortMessage := "City or coordinates cannot be undefined."

  /** `$city === null && $coordinates == null`: strict for the city, loose
      for the coordinates. */
  predicate MissingLocation(req: Request) {
    City(req) == Null && LooselyNull(Coord(req))
  }

  /** `$city ?: $coordinates`. */
  function Location(req: Request): Value {
    if Truthy(City(req)) then City(req) else Coord(req)
  }

  /** What the action passes to the provider. */
  datatype Call =
    | CurrentCall(query: Value, lang: Value, units: Value)
    | ForecastCall(query: Value, lang: Value, units: Value, days: Value)

  function CurrentCallFor(req: Request): Call {
    CurrentCall(Location(req), Input(req, "lang", Str("en")), Input(req, "units", Str("metric")))
  }

  function ForecastCallFor(req: Request): Call {
    ForecastCall(Location(req), Input(req, "lang", Str("en")), Input(req, "units", Str("metric")), Input(req, "days", Num(5)))
  }

  /** What the provider call does: return a result, or throw an exception
      with a message and a code. */
  datatype Provided<T> = Returned(value: T) | Thrown(message: string, code: int)

  /** A forecast as the provider returns it: its properties and the
      intervals its iteration yields. */
  datatype ForecastSet = ForecastSet(dataset: Fields, intervals: seq<Fields>)

  /** `abort(400, …)`, a JSON body, or an uncaught error while reshaping. */
  datatype Response = Aborted(status: int, message: string) | Json(body: Fields) | Crashed(fault: Fault)

  /** The `catch` branch and the success return. Reshaping happens outside
      the `try`, so its failure is not turned into an error envelope. */
  function Reply<T>(outcome: Provided<T>, process: T -> Result<Fields>): (resp: Response)
    ensures outcome.Thrown? ==>
      && resp.Json?
      && resp.body.Keys == {"status", "message", "code"}
      && resp.body["status"] == Str("error")
      && resp.body["message"] == Str(outcome.message)
      && resp.body["code"] == Num(outcome.code)
    ensures outcome.Returned? && process(outcome.value).Success? ==>
      && resp.Json?
      && resp.body.Keys == {"status", "data"}
      && resp.body["status"] == Str("ok")
      && resp.body["data"] == Obj(process(outcome.value).value)
    ensures outcome.Returned? && process(outcome.value).Failure? ==> resp == Crashed(process(outcome.value).fault)
  {
    match outcome
    case Thrown(message, code) =>
      Json(map["status" := Str("error"), "message" := Str(message), "code" := Num(code)])
    case Returned(value) =>
      match process(value)
      case Failure(fault) => Crashed(fault)
      case Success(data) => Json(map["status" := Str("ok"), "data" := Obj(data)])
  }

  /** `currentweather`. */
  function CurrentWeather(loc: Localizer, req: Request, fetch: Call -> Provided<Fields>): (resp: Response)
    ensures resp.Aborted? <==> MissingLocation(req)
    ensures resp.Aborted? ==> resp == Aborted(400, AbortMessage)
    ensures !resp.Aborted? ==> resp == Reply(fetch(CurrentCallFor(req)), obj => ProcessData(loc, obj))
  {
    if MissingLocation(req) then Aborted(400, AbortMessage)
    else Reply(fetch(CurrentCallFor(req)), obj => ProcessData(loc, obj))
  }

  /** `forecast`. */
  function Forecast(loc: Localizer, req: Request, fetch: Call -> Provided<ForecastSet>): (resp: Response)
    ensures resp.Aborted? <==> MissingLocation(req)
    ensures resp.Aborted? ==> resp == Aborted(400, AbortMessage)
    ensures !resp.Aborted? ==>
      resp == Reply(fetch(ForecastCallFor(req)), (f: ForecastSet) => ForecastOutput(loc, f.dataset, f.intervals))
  {
    if MissingLocation(req) then Aborted(400, AbortMessage)
    else Reply(fetch(ForecastCallFor(req)), (f: ForecastSet) => ForecastOutput(loc, f.dataset, f.intervals))
  }

  /** A request refused with 400 gets the same response whatever the
      provider would have done: the provider is never consulted. */
  lemma AbortIgnoresProvider(loc: Localizer, req: Request,
                             f1: Call -> Provided<Fields>, f2: Call -> Provided<Fields>,
                             g1: Call -> Provided<ForecastSet>, g2: Call -> Provided<ForecastSet>)
    requires MissingLocation(req)
    ensures CurrentWeather(loc, req, f1) == CurrentWeather(loc, req, f2) == Aborted(400, AbortMessage)
    ensures Forecast(loc, req, g1) == Forecast(loc, req, g2) == Aborted(400, AbortMessage)
  {
  }

  /** Otherwise the response depends on the provider only through the one
      call the action makes. */
  lemma ProviderSeenThroughOneCall(loc: Localizer, req: Request,
                                   f1: Call -> Provided<Fields>, f2: Call -> Provided<Fields>,
                                   g1: Call -> Provided<ForecastSet>, g2: Call -> Provided<ForecastSet>)
    requires f1(CurrentCallFor(req)) == f2(CurrentCallFor(req))
    requires g1(ForecastCallFor(req)) == g2(ForecastCallFor(req))
    ensures CurrentWeather(loc, req, f1) == CurrentWeather(loc, req, f2)
    ensures Forecast(loc, req, g1) == Forecast(loc, req, g2)
  {
  }

  /** The guard is asymmetric: an empty `city` is not `=== null`, so it
      passes, while an empty `coord` counts as missing. */
  lemma GuardIsAsymmetric(req: Request)
    ensures City(req) == Str("") ==> !MissingLocation(req)
    ensures City(req) == Null && Coord(req) == Str("") ==> MissingLocation(req)
    ensures City(req) == Null && Coord(req) == Str("0") ==> !MissingLocation(req)
  {
  }

  /** A request that passes the guard can still send a falsy location to the
      provider: exactly when both parameters are falsy, which needs either a
      `city` that is present but falsy (`""`, `"0"`) or a `coord` of `"0"`. */
  lemma FalsyQueryPassesGuard(req: Request)
    requires !MissingLocation(req)
    ensures !Truthy(Location(req)) <==> !Truthy(City(req)) && !Truthy(Coord(req))
    ensures !Truthy(Location(req)) && City(req) == Null ==> Location(req) == Str("0")
  {
    LooselyNullIsFalsy(Coord(req));
  }

  /** The parameters the provider receives: the location as `?:` picks it,
      and `lang`, `units` and `days` defaulting to `"en"`, `"metric"` and
      5 only when absent. */
  lemma CallParameters(req: Request)
    ensures CurrentCallFor(req).query == ForecastCallFor(req).query == Location(req)
    ensures Truthy(City(req)) ==> Location(req) == req["city"]
    ensures !Truthy(City(req)) ==> Location(req) == Coord(req)
    ensures "lang" !in req ==> CurrentCallFor(req).lang == ForecastCallFor(req).lang == Str("en")
    ensures "units" !in req ==> CurrentCallFor(req).units == ForecastCallFor(req).units == Str("metric")
    ensures "days" !in req ==> ForecastCallFor(req).days == Num(5)
    ensures "lang" in req ==> CurrentCallFor(req).lang == ForecastCallFor(req).lang == req["lang"]
    ensures "units" in req ==> CurrentCallFor(req).units == ForecastCallFor(req).units == req["units"]
    ensures "days" in req ==> ForecastCallFor(req).days == req["days"]
  {
  }
}
