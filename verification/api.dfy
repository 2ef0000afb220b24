/** The HTTP layer: each route under `/api/` calls one analysis function and turns a raised
    error into an HTTP 500 whose detail is the error's message. A call into the data layer
    is modelled by its outcome, a `Result` whose `Failure` carries the message of the
    raised error; the database itself is not modelled.
 */
module Api {
  import opened Wrappers
  import opened Records
  import AbTest

  /** Largest `limit` the recent-completions route forwards. */
  const MaxRecentLimit: int := 500
  /** `limit` used when the request does not give one. */
  const DefaultRecentLimit: int := 100
  /** The only error status the routes produce. */
  const InternalServerError: int := 500

  /** What a route answers: a JSON body, or an HTTP error with a status and a detail. */
  datatype Response<+T> = Json(body: T) | HttpError(status: int, detail: string)

  /** The try/except shared by every handler under `/api/`: a normal return is passed through,
      any raised error becomes a 500 carrying its message. */
  function Guard<T>(call: Result<T, string>): (resp: Response<T>)
    ensures resp.Json? <==> call.Success?
    ensures resp.HttpError? ==> resp.status == InternalServerError
  {
    match call
    case Success(v) => Json(v)
    case Failure(e) => HttpError(InternalServerError, e)
  }

  /** What a client can recover from a guarded response: the value, or the error message. */
  function Unguard<T>(resp: Response<T>): Result<T, string> {
    match resp
    case Json(v) => Success(v)
    case HttpError(_, d) => Failure(d)
  }

  /** The wrapping loses nothing: the body is the returned value and the detail is the
      error's message, so the call's outcome is recoverable from the response. */
  lemma GuardRoundTrip<T>(call: Result<T, string>)
    ensures Unguard(Guard(call)) == call
  {
  }

  /** The upper-only clamp of the recent-completions route: the smaller of `limit` and 500. */
  function ClampLimit(limit: int): (r: int)
    ensures r <= MaxRecentLimit && r <= limit
    ensures r == limit || r == MaxRecentLimit
  {
    if limit > MaxRecentLimit then MaxRecentLimit else limit
  }

  /** There is no lower bound: zero and negative limits pass through, as does anything up to 500. */
  lemma ClampKeepsSmallLimits(limit: int)
    requires limit <= MaxRecentLimit
    ensures ClampLimit(limit) == limit
  {
  }

  /** Anything above 500 becomes exactly 500. */
  lemma ClampCapsLargeLimits(limit: int)
    requires limit > MaxRecentLimit
    ensures ClampLimit(limit) == MaxRecentLimit
  {
  }

  /** Clamping a clamped limit changes nothing. */
  lemma ClampIdempotent(limit: int)
    ensures ClampLimit(ClampLimit(limit)) == ClampLimit(limit)
  {
  }

  /** The limit the recent-completions route hands to the data layer for an optional
      query parameter. */
  function ForwardedLimit(limit: Option<int>): (passed: int)
    ensures limit.None? ==> passed == DefaultRecentLimit
    ensures limit.Some? ==> passed == ClampLimit(limit.value)
  {
    match limit
    case None => DefaultRecentLimit
    case Some(n) => ClampLimit(n)
  }

  /** `/api/variant-stats`: the statistics rows, or a 500. */
  function VariantStatsRoute(fetch: Result<seq<VariantStat>, string>): (resp: Response<seq<VariantStat>>)
    ensures Unguard(resp) == fetch
    ensures resp.HttpError? ==> resp.status == InternalServerError
  {
    Guard(fetch)
  }

  /** `/api/conversion-funnel`: the funnel rows, or a 500. */
  function ConversionFunnelRoute(fetch: Result<seq<FunnelStage>, string>): (resp: Response<seq<FunnelStage>>)
    ensures Unguard(resp) == fetch
    ensures resp.HttpError? ==> resp.status == InternalServerError
  {
    Guard(fetch)
  }

  /** `/api/recent-completions`: `fetch` is the data layer, asked once with the forwarded
      limit; its rows, or its error as a 500. */
  function RecentCompletionsRoute(limit: Option<int>, fetch: int -> Result<seq<CompletionEvent>, string>)
    : (resp: Response<seq<CompletionEvent>>)
    ensures Unguard(resp) == fetch(ForwardedLimit(limit))
    ensures exists n :: n <= MaxRecentLimit && Unguard(resp) == fetch(n)
    ensures limit.None? ==> Unguard(resp) == fetch(DefaultRecentLimit)
    ensures resp.HttpError? ==> resp.status == InternalServerError
  {
    var n := ForwardedLimit(limit);
    assert Unguard(Guard(fetch(n))) == fetch(n);
    Guard(fetch(n))
  }

  /** If the data layer never returns more rows than it is asked for, the route never
      answers with more than 500 rows, whatever limit the client sent. */
  lemma RecentCompletionsAtMostMax(limit: Option<int>, fetch: int -> Result<seq<CompletionEvent>, string>)
    requires forall n :: fetch(n).Success? ==> |fetch(n).value| <= n
    ensures RecentCompletionsRoute(limit, fetch).Json? ==> |RecentCompletionsRoute(limit, fetch).body| <= MaxRecentLimit
  {
    var n := ForwardedLimit(limit);
    assert RecentCompletionsRoute(limit, fetch) == Guard(fetch(n));
  }

  /** `/api/comparison`: only a failure to load the statistics is an HTTP error; the
      comparison's own error payloads are ordinary successful bodies. */
  function ComparisonRoute(fetch: Result<seq<VariantStat>, string>): (resp: Response<AbTest.Comparison>)
    ensures resp.HttpError? <==> fetch.Failure?
    ensures resp.HttpError? ==> resp.detail == fetch.error && resp.status == InternalServerError
    ensures fetch.Success? ==> resp.body == AbTest.Compare(fetch.value)
  {
    Guard(match fetch
          case Success(stats) => Success(AbTest.Compare(stats))
          case Failure(e) => Failure(e))
  }

  /** Too few rows, or a missing arm, still answers with a successful JSON body. */
  lemma ComparisonErrorsAreNotHttpErrors(stats: seq<VariantStat>)
    requires |stats| < 2 || !(AbTest.Has(stats, AbTest.VariantA) && AbTest.Has(stats, AbTest.VariantB))
    ensures ComparisonRoute(Success(stats)).Json?
    ensures ComparisonRoute(Success(stats)).body.Error?
  {
  }
}
