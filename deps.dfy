// Request dependencies shared by the endpoints: the placeholder user lookup
// and the checks built on it, the API-key check, the per-id rate limiter and
// pagination.
module Deps {
  import opened Wrappers
  import opened Models
  import opened Clock
  import opened Http

  /**
   * `get_current_user`: token validation is not implemented, so there is no
   * user with or without a token.
   */
  function GetCurrentUser(credentials: Option<string>): (r: Option<map<string, string>>)
    ensures r.None?
  {
    None
  }

  /** `require_auth`: 401 with a Bearer challenge unless there is a current user. */
  function RequireAuth(user: Option<map<string, string>>): (r: Result<map<string, string>, HttpError>)
    ensures r.Ok? <==> user.Some? && user.value != map[]
    ensures r.Err? ==> r.error == HttpError(Unauthorized, "Authentication required", true)
  {
    if user.None? || user.value == map[] then Err(HttpError(Unauthorized, "Authentication required", true))
    else Ok(user.value)
  }

  /** Because no user is ever found, every endpoint that requires one answers 401. */
  lemma RequireAuthAlwaysRefuses(credentials: Option<string>)
    ensures RequireAuth(GetCurrentUser(credentials)).Err?
    ensures RequireAuth(GetCurrentUser(credentials)).error.status == Unauthorized
  {
  }

  /** The one key accepted outside debug mode. */
  const ExpectedApiKey: string := "expected-api-key"

  /**
   * `verify_api_key`: in debug mode any key (or none) passes; otherwise a
   * non-empty key other than the expected one is refused with 401.
   */
  function VerifyApiKey(debug: bool, apiKey: Option<string>): (r: Result<Option<string>, HttpError>)
    ensures r.Ok? ==> r.value == apiKey
    ensures debug ==> r.Ok?
    ensures !debug ==> (r.Err? <==> apiKey.Some? && apiKey.value != [] && apiKey.value != ExpectedApiKey)
    ensures r.Err? ==> r.error == Fail(Unauthorized, "Invalid API key")
  {
    if debug then Ok(apiKey)
    else if apiKey.Some? && apiKey.value != [] && apiKey.value != ExpectedApiKey then Err(Fail(Unauthorized, "Invalid API key"))
    else Ok(apiKey)
  }

  /** Without debug mode, a missing or empty key is let through: the check only refuses wrong keys. */
  lemma MissingKeyPasses()
    ensures VerifyApiKey(false, None) == Ok(None)
    ensures VerifyApiKey(false, Some("")) == Ok(Some(""))
  {
  }

  /** `skip` and `limit` as accepted. */
  datatype Pagination = Pagination(skip: int, limit: int)

  const MaxLimit: int := 1000

  /** `get_pagination_params` */
  function GetPaginationParams(skip: int, limit: int): (r: Result<Pagination, HttpError>)
    ensures r.Ok? <==> skip >= 0 && 0 < limit <= MaxLimit
    ensures r.Ok? ==> r.value == Pagination(skip, limit)
    ensures skip < 0 ==> r == Err(Fail(BadRequest, "Skip value must be non-negative"))
    ensures skip >= 0 && r.Err? ==> r == Err(Fail(BadRequest, "Limit must be between 1 and 1000"))
  {
    if skip < 0 then Err(Fail(BadRequest, "Skip value must be non-negative"))
    else if limit <= 0 || limit > MaxLimit then Err(Fail(BadRequest, "Limit must be between 1 and 1000"))
    else Ok(Pagination(skip, limit))
  }

  /** The instants recorded for an id, none if it has none yet. */
  function Recorded(requests: map<string, seq<Instant>>, id: string): seq<Instant> {
    if id in requests then requests[id] else []
  }

  /** A limiter of `calls` requests per `period` seconds, per request id. */
  class RateLimiter {
    const calls: int
    const period: int
    var requests: map<string, seq<Instant>>

    constructor(calls: int, period: int)
      ensures this.calls == calls && this.period == period && requests == map[]
    {
      this.calls := calls;
      this.period := period;
      requests := map[];
    }

    /** Every id has at most `calls` recorded requests. */
    predicate Bounded()
      reads this
    {
      forall id :: id in requests ==> |requests[id]| <= calls
    }

    /**
     * `__call__`: prune the id's history to the period, refuse with 429
     * (recording nothing) when `calls` requests remain, otherwise record `now`.
     * Only this id's entry changes.
     */
    method Call(requestId: string, now: Instant) returns (r: Result<(), HttpError>)
      modifies this
      ensures var kept := Prune(Recorded(old(requests), requestId), now, period);
        (r.Ok? <==> |kept| < calls)
        && requests == old(requests)[requestId := if r.Ok? then kept + [now] else kept]
      ensures r.Err? ==> r.error == Fail(TooManyRequests, "Rate limit exceeded")
      ensures forall id :: id != requestId ==> Recorded(requests, id) == Recorded(old(requests), id)
      ensures old(Bounded()) && calls >= 0 ==> Bounded()
    {
      if requestId !in requests {
        requests := requests[requestId := []];
      }
      requests := requests[requestId := Prune(requests[requestId], now, period)];
      if |requests[requestId]| >= calls {
        return Err(Fail(TooManyRequests, "Rate limit exceeded"));
      }
      requests := requests[requestId := requests[requestId] + [now]];
      r := Ok(());
    }
  }

  /** `PermissionChecker(required)(user)`: with no current user this is always 401. */
  function CheckPermissions(required: seq<string>, user: Option<map<string, string>>): (r: Result<bool, HttpError>)
    ensures r.Ok? <==> user.Some? && user.value != map[]
    ensures r.Ok? ==> r.value
    ensures r.Err? ==> r.error == Fail(Unauthorized, "Authentication required")
  {
    if user.None? || user.value == map[] then Err(Fail(Unauthorized, "Authentication required")) else Ok(true)
  }

  /** Every permission checker refuses, whatever permissions it names and whatever token is sent. */
  lemma PermissionCheckersRefuse(required: seq<string>, credentials: Option<string>)
    ensures CheckPermissions(required, GetCurrentUser(credentials)) == Err(Fail(Unauthorized, "Authentication required"))
  {
  }
}
