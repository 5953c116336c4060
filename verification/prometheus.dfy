/** The Prometheus HTTP API client: base-URL normalisation, the request
    each operation sends, the `{status, data}` response envelope of the
    alerts, instant-query and range-query endpoints, the firing-alert filter,
    the range-query defaults and the health check.

    The HTTP round trip itself (`requests.get`, `raise_for_status`, `.json()`)
    is a function parameter `http` from the request sent (`HttpGet`: URL,
    query parameters, timeout) to its outcome, an `HttpReply`, where
    `RequestFailed` stands for any `RequestException` (connection error,
    timeout, 4xx/5xx status, undecodable body) with its message.
 */
module Prometheus {
  import opened Wrappers
  import opened Text

  /** A 64-bit float as far as the pipeline uses one: parsed from the
      backend's text, carried along and printed, never computed with. */
  datatype Float = Finite(r: real) | PosInf | NegInf | NaN

  type Labels = map<string, string>

  /** One element of the alerts API's `alerts` list.  `state` is one of
      "inactive", "pending", "firing" as the backend reports it. */
  datatype Alert = Alert(
    state: Option<string>,
    labels: Labels,
    annotations: Labels,
    activeAt: Option<string>,
    value: Option<string>)

  /** One element of an instant query's `result`: `{"metric": labels, "value": [time, "text"]}`. */
  datatype RawSample = RawSample(metric: Labels, time: Float, text: string)

  /** One element of a range query's `result`: `{"metric": labels, "values": [[time, "text"], …]}`. */
  datatype RawSeries = RawSeries(metric: Labels, values: seq<(Float, string)>)

  /** The `data` object of a query response; `result` is `None` when the key is absent. */
  datatype QueryData<T> = QueryData(result: Option<seq<T>>)

  /** A key of a decoded JSON object: absent, present with `null`, or present with a value. */
  datatype Field<T> = Absent | Null | Present(value: T)

  /** The `data` object of an alerts response. */
  datatype AlertsData = AlertsData(alerts: Field<seq<Alert>>)

  /** A decoded response body `{"status": …, "data": …, "error": …}`. */
  datatype Envelope<D> = Envelope(status: Option<string>, data: Option<D>, error: Option<string>)

  datatype HttpReply<B> = Reply(body: B) | RequestFailed(reason: string)

  const SuccessStatus := "success"
  const FiringState := "firing"

  const AlertsPath := "/api/v1/alerts"
  const QueryPath := "/api/v1/query"
  const QueryRangePath := "/api/v1/query_range"
  const HealthPath := "/-/healthy"

  datatype Client = Client(baseUrl: string, timeout: int)

  /** The constructor: every trailing "/" is removed from the base URL, and
      nothing else is changed. */
  function NewClient(baseUrl: string, timeout: int): (c: Client)
    ensures StartsWith(baseUrl, c.baseUrl)
    ensures forall i :: |c.baseUrl| <= i < |baseUrl| ==> baseUrl[i] == '/'
    ensures c.baseUrl == [] || c.baseUrl[|c.baseUrl| - 1] != '/'
    ensures c.timeout == timeout
  {
    Client(RStripChars(baseUrl, {'/'}), timeout)
  }

  /** Normalising an already normalised URL changes nothing. */
  lemma NormaliseIdempotent(baseUrl: string, timeout: int)
    ensures NewClient(NewClient(baseUrl, timeout).baseUrl, timeout) == NewClient(baseUrl, timeout)
  {
  }

  /** A trailing slash on the configured URL makes no difference. */
  lemma TrailingSlashIgnored(baseUrl: string, timeout: int)
    ensures NewClient(baseUrl + "/", timeout) == NewClient(baseUrl, timeout)
  {
    assert (baseUrl + "/")[..|baseUrl|] == baseUrl;
  }

  function Url(c: Client, path: string): string {
    c.baseUrl + path
  }

  /** The `params` of a request. */
  datatype Params = NoParams | QueryParams(query: string) | RangeQueryParams(range: RangeParams)

  /** One `requests.get(url, params=…, timeout=…)` call. */
  datatype HttpGet = HttpGet(url: string, params: Params, timeout: int)

  /** Why `get_alerts` raised. */
  datatype AlertsError = AlertsRequestFailed(reason: string) | AlertsApiError(status: Option<string>)

  /** `get_alerts` after the request: the `alerts` list of a successful
      envelope, `[]` when the `data` object or its `alerts` key is missing,
      and Python's `None` when the key holds `null`; any other status raises. */
  function UnwrapAlerts(reply: HttpReply<Envelope<AlertsData>>): (r: Result<Option<seq<Alert>>, AlertsError>)
    ensures r.Success? <==> reply.Reply? && reply.body.status == Some(SuccessStatus)
    ensures reply.RequestFailed? ==> r == Failure(AlertsRequestFailed(reply.reason))
    ensures r.Failure? && reply.Reply? ==> r.error == AlertsApiError(reply.body.status)
    ensures r.Success? && reply.body.data.Some? && reply.body.data.value.alerts.Present? ==>
      r == Success(Some(reply.body.data.value.alerts.value))
    ensures r.Success? && (reply.body.data.None? || reply.body.data.value.alerts.Absent?) ==>
      r == Success(Some([]))
    ensures r == Success(None) <==>
      reply.Reply? && reply.body.status == Some(SuccessStatus)
      && reply.body.data.Some? && reply.body.data.value.alerts.Null?
  {
    match reply
    case RequestFailed(reason) => Failure(AlertsRequestFailed(reason))
    case Reply(body) =>
      if body.status == Some(SuccessStatus) then
        match body.data.GetOr(AlertsData(Absent)).alerts
        case Absent => Success(Some([]))
        case Null => Success(None)
        case Present(alerts) => Success(Some(alerts))
      else Failure(AlertsApiError(body.status))
  }

  /** `get_alerts`: one request, without parameters, to the normalised base
      URL followed by "/api/v1/alerts", with the client's timeout. */
  function GetAlerts(c: Client, http: HttpGet -> HttpReply<Envelope<AlertsData>>): (r: Result<Option<seq<Alert>>, AlertsError>)
    ensures r == UnwrapAlerts(http(HttpGet(c.baseUrl + "/api/v1/alerts", NoParams, c.timeout)))
  {
    UnwrapAlerts(http(HttpGet(Url(c, AlertsPath), NoParams, c.timeout)))
  }

  datatype QueryKind = Instant | Range

  /** The message of the exception raised when the backend answers with a
      status other than "success". */
  function QueryFailedMessage(kind: QueryKind, error: string): string {
    match kind
    case Instant => "PromQL query failed: " + error
    case Range => "PromQL range query failed: " + error
  }

  /** The message of the exception raised when the request itself fails. */
  function RequestFailedMessage(kind: QueryKind, reason: string): string {
    match kind
    case Instant => "Failed to execute PromQL query: " + reason
    case Range => "Failed to execute PromQL range query: " + reason
  }

  /** `query` and `query_range` after the request: the `data` object of a
      successful envelope (`{}` when missing), otherwise an exception whose
      message carries the envelope's `error` ("Unknown error" when missing)
      or the transport failure. */
  function UnwrapQuery<T>(kind: QueryKind, reply: HttpReply<Envelope<QueryData<T>>>): (r: Result<QueryData<T>, string>)
    ensures r.Success? <==> reply.Reply? && reply.body.status == Some(SuccessStatus)
    ensures r.Success? && reply.body.data.Some? ==> r.value == reply.body.data.value
    ensures r.Success? && reply.body.data.None? ==> r.value.result.None?
    ensures reply.Reply? && r.Failure? ==>
      (reply.body.error.Some? ==> r.error == QueryFailedMessage(kind, reply.body.error.value))
      && (reply.body.error.None? ==> r.error == QueryFailedMessage(kind, "Unknown error"))
    ensures reply.RequestFailed? ==> r.error == RequestFailedMessage(kind, reply.reason)
  {
    match reply
    case RequestFailed(reason) => Failure(RequestFailedMessage(kind, reason))
    case Reply(body) =>
      if body.status == Some(SuccessStatus) then Success(body.data.GetOr(QueryData(None)))
      else Failure(QueryFailedMessage(kind, body.error.GetOr("Unknown error")))
  }

  /** Wrapping data in a success envelope and unwrapping it gives it back;
      wrapping an error gives the error back inside the fixed message. */
  lemma UnwrapInvertsEnvelope<T>(kind: QueryKind, d: QueryData<T>, msg: string, other: Option<string>)
    requires other != Some(SuccessStatus)
    ensures UnwrapQuery(kind, Reply(Envelope(Some(SuccessStatus), Some(d), None))) == Success(d)
    ensures var e: Envelope<QueryData<T>> := Envelope(other, None, Some(msg));
      UnwrapQuery(kind, Reply(e)) == Failure(QueryFailedMessage(kind, msg))
  {
  }

  /** `query`: one request to the normalised base URL followed by
      "/api/v1/query" with the PromQL text as its `query` parameter. */
  function Query(c: Client, promql: string, http: HttpGet -> HttpReply<Envelope<QueryData<RawSample>>>): (r: Result<QueryData<RawSample>, string>)
    ensures r == UnwrapQuery(Instant, http(HttpGet(c.baseUrl + "/api/v1/query", QueryParams(promql), c.timeout)))
  {
    UnwrapQuery(Instant, http(HttpGet(Url(c, QueryPath), QueryParams(promql), c.timeout)))
  }

  predicate IsFiring(a: Alert) {
    a.state == Some(FiringState)
  }

  /** The list comprehension of `get_firing_alerts`: the alerts whose state
      is "firing", in their original order. */
  function FiringAlerts(alerts: seq<Alert>): (r: seq<Alert>)
    ensures |r| <= |alerts|
    ensures forall a :: a in r <==> a in alerts && IsFiring(a)
    decreases |alerts|
  {
    if |alerts| == 0 then []
    else
      var rest := FiringAlerts(alerts[1..]);
      assert forall a :: a in alerts <==> a == alerts[0] || a in alerts[1..];
      if IsFiring(alerts[0]) then [alerts[0]] + rest else rest
  }

  /** The filter is order-preserving: filtering a concatenation is
      concatenating the filtered parts. */
  lemma {:induction false} FiringAlertsConcat(a: seq<Alert>, b: seq<Alert>)
    ensures FiringAlerts(a + b) == FiringAlerts(a) + FiringAlerts(b)
    decreases |a|
  {
    if |a| == 0 {
      assert a + b == b;
    } else {
      assert (a + b)[1..] == a[1..] + b;
      FiringAlertsConcat(a[1..], b);
    }
  }

  datatype FiringError = AlertsFailed(cause: AlertsError) | NotIterable

  /** `get_firing_alerts`: the firing alerts of `get_alerts`, in order;
      raises what `get_alerts` raises, and a `TypeError` when `get_alerts`
      returned `None`. */
  function GetFiringAlerts(c: Client, http: HttpGet -> HttpReply<Envelope<AlertsData>>): (r: Result<seq<Alert>, FiringError>)
    ensures GetAlerts(c, http).Failure? ==> r == Failure(AlertsFailed(GetAlerts(c, http).error))
    ensures GetAlerts(c, http) == Success(None) ==> r == Failure(NotIterable)
    ensures r.Success? <==> GetAlerts(c, http).Success? && GetAlerts(c, http).value.Some?
    ensures r.Success? ==>
      && r.value == FiringAlerts(GetAlerts(c, http).value.value)
      && (forall a :: a in r.value <==> a in GetAlerts(c, http).value.value && IsFiring(a))
  {
    match GetAlerts(c, http)
    case Failure(e) => Failure(AlertsFailed(e))
    case Success(None) => Failure(NotIterable)
    case Success(Some(alerts)) => Success(FiringAlerts(alerts))
  }

  /** The query parameters `query_range` sends, times in whole seconds. */
  datatype RangeParams = RangeParams(query: string, start: int, end: int, step: string)

  const DefaultStep := "15s"
  const DefaultLookback := 3600

  /** The defaults of `query_range`: `end` is the current time, `start` one
      hour before `end`, and `step` "15s". */
  function RangeRequest(promql: string, start: Option<int>, end: Option<int>, step: Option<string>, now: int): (p: RangeParams)
    ensures p.query == promql
    ensures end.None? ==> p.end == now
    ensures end.Some? ==> p.end == end.value
    ensures start.None? ==> p.end - p.start == 3600
    ensures start.Some? ==> p.start == start.value
    ensures step.None? ==> p.step == "15s"
    ensures step.Some? ==> p.step == step.value
  {
    var e := end.GetOr(now);
    RangeParams(promql, start.GetOr(e - DefaultLookback), e, step.GetOr(DefaultStep))
  }

  /** `query_range`: one request to the normalised base URL followed by
      "/api/v1/query_range" with the parameters above. */
  function QueryRange(c: Client, promql: string, start: Option<int>, end: Option<int>, step: Option<string>, now: int,
                      http: HttpGet -> HttpReply<Envelope<QueryData<RawSeries>>>): (r: Result<QueryData<RawSeries>, string>)
    ensures r == UnwrapQuery(Range, http(HttpGet(c.baseUrl + "/api/v1/query_range",
                                                 RangeQueryParams(RangeRequest(promql, start, end, step, now)), c.timeout)))
  {
    UnwrapQuery(Range, http(HttpGet(Url(c, QueryRangePath), RangeQueryParams(RangeRequest(promql, start, end, step, now)), c.timeout)))
  }

  /** `is_healthy`: the request to the normalised base URL followed by
      "/-/healthy" answered with status 200.  The reply body here is the
      status code; no status raises, only the transport. */
  function IsHealthy(c: Client, http: HttpGet -> HttpReply<int>): (healthy: bool)
    ensures var reply := http(HttpGet(c.baseUrl + "/-/healthy", NoParams, c.timeout));
      && (healthy <==> reply == Reply(200))
      && (reply.RequestFailed? ==> !healthy)
  {
    match http(HttpGet(Url(c, HealthPath), NoParams, c.timeout))
    case RequestFailed(_) => false
    case Reply(code) => code == 200
  }

  /** Two clients built from the same URL, one with trailing slashes and one
      without, send every request to the same URL. */
  lemma RequestsIgnoreTrailingSlash(baseUrl: string, timeout: int, path: string)
    ensures Url(NewClient(baseUrl + "/", timeout), path) == Url(NewClient(baseUrl, timeout), path)
    ensures var u := Url(NewClient(baseUrl, timeout), path);
      |path| > 0 && path[0] == '/' && baseUrl != [] && baseUrl[0] != '/' ==>
      exists k :: 0 < k < |u| && u[k] == '/' && u[k - 1] != '/' && u[k..] == path
  {
    TrailingSlashIgnored(baseUrl, timeout);
    var c := NewClient(baseUrl, timeout);
    var u := Url(c, path);
    if |path| > 0 && path[0] == '/' && baseUrl != [] && baseUrl[0] != '/' {
      assert c.baseUrl != [] by { assert 0 < |baseUrl| && baseUrl[0] != '/'; }
      var k := |c.baseUrl|;
      assert u[k..] == path && u[k - 1] == c.baseUrl[k - 1];
    }
  }
}
