/** The triage agent: given a firing alert, run the instant and range
    queries mapped to its alert name, shape each query's result, isolate
    failures per metric, and assemble a report with a textual summary.

    Queries go through the Prometheus client model; the backend is a
    `Backend` value holding the agent's client and the HTTP outcome of each
    request it may send,
    and Python's `float()` is its `toFloat` function (`None` where `float`
    raises).  Printing a value with `:.4f` is the `Formatter` parameter.
 */
module Triage {
  import opened Wrappers
  import opened Text
  import opened Dicts
  import opened Prometheus

  /** An element of a list-valued metric: a dict with an optional "value"
      (read with default 0) and "labels" (default `{}`), or anything else.
      The parsers only produce `Sample`s; `OtherItem` is kept because the
      summary and the diagnostic agent's formatter accept any list. */
  datatype Item = Sample(value: Option<Float>, labels: Labels) | OtherItem

  /** The value stored for one metric label. */
  datatype Entry =
    | Nothing                                // None: the query matched no series
    | Reading(value: Float, labels: Labels)  // {"value": v, "labels": l}
    | Readings(items: seq<Item>)             // a list, one element per series
    | Failed(error: string)                  // {"error": message}
    | Unrecognised                           // any other dict: no parser produces one, but the
                                             // summary and the formatter accept it and skip it

  type Metrics = Dict<Entry>

  datatype Point = Point(timestamp: Float, value: Float)
  datatype Series = Series(labels: Labels, values: seq<Point>)

  /** The value stored for one metric label in the time-series map. */
  datatype SeriesEntry =
    | NoSeries
    | OneSeries(series: Series)
    | ManySeries(all: seq<Series>)
    | SeriesFailed(error: string)

  type TimeSeries = Dict<SeriesEntry>

  type Formatter = Float -> string

  datatype Backend = Backend(
    client: Client,
    instant: HttpGet -> HttpReply<Envelope<QueryData<RawSample>>>,
    range: HttpGet -> HttpReply<Envelope<QueryData<RawSeries>>>,
    toFloat: string -> Option<Float>)

  /** The per-alert-name investigation queries: (metric label, PromQL). */
  const InvestigationQueries: map<string, seq<(string, string)>> := map[
    "HighErrorRate" := [
      ("error_rate_by_endpoint", "rate(http_errors_5xx_total[5m])"),
      ("total_request_rate", "rate(http_requests_total[5m])"),
      ("error_percentage", "(rate(http_errors_5xx_total[5m]) / rate(http_requests_total[5m])) * 100")],
    "SlowRequests" := [
      ("p50_latency", "histogram_quantile(0.50, rate(http_request_duration_seconds_bucket[5m]))"),
      ("p95_latency", "histogram_quantile(0.95, rate(http_request_duration_seconds_bucket[5m]))"),
      ("p99_latency", "histogram_quantile(0.99, rate(http_request_duration_seconds_bucket[5m]))"),
      ("request_rate_by_endpoint", "rate(http_requests_total[5m])")],
    "DatabasePoolExhaustion" := [
      ("current_pool_usage", "db_connection_pool_usage"),
      ("pool_usage_5m_avg", "avg_over_time(db_connection_pool_usage[5m])"),
      ("checkout_request_rate", "rate(http_requests_total{endpoint=\"api.checkout\"}[5m])")],
    "MemoryLeak" := [
      ("current_leaked_objects", "memory_leak_objects"),
      ("leak_growth_rate", "rate(memory_leak_objects[10m])"),
      ("cart_request_rate", "rate(http_requests_total{endpoint=\"api.add_to_cart\"}[5m])")],
    "InventoryRaceCondition" := [
      ("race_condition_rate", "rate(inventory_race_conditions_total[5m])"),
      ("inventory_update_rate", "rate(http_requests_total{endpoint=\"api.update_inventory\"}[5m])"),
      ("race_condition_percentage",
        "(rate(inventory_race_conditions_total[5m]) / rate(http_requests_total{endpoint=\"api.update_inventory\"}[5m])) * 100")]
  ]

  /** The message of the `ValueError` raised by `float(text)`. */
  function FloatError(text: string): string {
    "could not convert string to float: '" + text + "'"
  }

  /** The list comprehension over an instant result: every sample's text
      converted, in order; the first text `float` rejects raises. */
  function ParseSamples(result: seq<RawSample>, toFloat: string -> Option<Float>): (r: Result<seq<Item>, string>)
    ensures r.Success? <==> forall i :: 0 <= i < |result| ==> toFloat(result[i].text).Some?
    ensures r.Success? ==>
      && |r.value| == |result|
      && forall i :: 0 <= i < |result| ==> r.value[i] == Sample(toFloat(result[i].text), result[i].metric)
    ensures r.Failure? ==> exists i ::
      && 0 <= i < |result| && toFloat(result[i].text).None?
      && r.error == FloatError(result[i].text)
      && forall j :: 0 <= j < i ==> toFloat(result[j].text).Some?
    decreases |result|
  {
    if |result| == 0 then Success([])
    else
      match toFloat(result[0].text)
      case None => Failure(FloatError(result[0].text))
      case Some(v) =>
        match ParseSamples(result[1..], toFloat)
        case Failure(e) =>
          assert forall j :: 1 <= j < |result| ==> result[j] == result[1..][j - 1];
          Failure(e)
        case Success(items) =>
          assert forall j :: 1 <= j < |result| ==> result[j] == result[1..][j - 1];
          Success([Sample(Some(v), result[0].metric)] + items)
  }

  /** `_parse_query_result`: no series gives None, exactly one gives a single
      `{value, labels}` dict, and more give a list of the same length. */
  function ParseQueryResult(result: seq<RawSample>, toFloat: string -> Option<Float>): (r: Result<Entry, string>)
    ensures r.Failure? <==> exists i :: 0 <= i < |result| && toFloat(result[i].text).None?
    ensures |result| == 0 ==> r == Success(Nothing)
    ensures |result| == 1 && r.Success? ==> r.value == Reading(toFloat(result[0].text).value, result[0].metric)
    ensures |result| >= 2 && r.Success? ==> r.value.Readings? && |r.value.items| == |result|
  {
    if |result| == 0 then Success(Nothing)
    else if |result| == 1 then
      match toFloat(result[0].text)
      case None => Failure(FloatError(result[0].text))
      case Some(v) => Success(Reading(v, result[0].metric))
    else
      match ParseSamples(result, toFloat)
      case Failure(e) => Failure(e)
      case Success(items) => Success(Readings(items))
  }

  /** The uniform view of an entry: one (labels, value) pair per series,
      a list element without "value" counting as 0. */
  function SamplesOf(e: Entry): seq<(Labels, Float)> {
    match e
    case Reading(v, l) => [(l, v)]
    case Readings(items) =>
      seq(|items|, i requires 0 <= i < |items| =>
        match items[i]
        case Sample(v, l) => (l, v.GetOr(Finite(0.0)))
        case OtherItem => (map[], Finite(0.0)))
    case _ => []
  }

  /** The special-casing of one series loses nothing: whatever the shape,
      its uniform view is every series of the result, in order. */
  lemma ShapingPreservesSamples(result: seq<RawSample>, toFloat: string -> Option<Float>)
    requires ParseQueryResult(result, toFloat).Success?
    ensures var view := SamplesOf(ParseQueryResult(result, toFloat).value);
      |view| == |result|
      && forall i :: 0 <= i < |result| ==> view[i] == (result[i].metric, toFloat(result[i].text).value)
  {
  }

  /** The inner list comprehension over one series' `values`. */
  function ParsePoints(values: seq<(Float, string)>, toFloat: string -> Option<Float>): (r: Result<seq<Point>, string>)
    ensures r.Success? <==> forall i :: 0 <= i < |values| ==> toFloat(values[i].1).Some?
    ensures r.Success? ==>
      && |r.value| == |values|
      && forall i :: 0 <= i < |values| ==> r.value[i] == Point(values[i].0, toFloat(values[i].1).value)
    decreases |values|
  {
    if |values| == 0 then Success([])
    else
      match toFloat(values[0].1)
      case None => Failure(FloatError(values[0].1))
      case Some(v) =>
        assert forall j :: 1 <= j < |values| ==> values[j] == values[1..][j - 1];
        match ParsePoints(values[1..], toFloat)
        case Failure(e) => Failure(e)
        case Success(ps) => Success([Point(values[0].0, v)] + ps)
  }

  function ParseSeries(raw: RawSeries, toFloat: string -> Option<Float>): Result<Series, string> {
    match ParsePoints(raw.values, toFloat)
    case Failure(e) => Failure(e)
    case Success(ps) => Success(Series(raw.metric, ps))
  }

  /** The outer list comprehension over a range result. */
  function ParseSeriesList(result: seq<RawSeries>, toFloat: string -> Option<Float>): (r: Result<seq<Series>, string>)
    ensures r.Success? <==> forall i :: 0 <= i < |result| ==> ParseSeries(result[i], toFloat).Success?
    ensures r.Success? ==>
      && |r.value| == |result|
      && forall i :: 0 <= i < |result| ==> r.value[i] == ParseSeries(result[i], toFloat).value
    decreases |result|
  {
    if |result| == 0 then Success([])
    else
      match ParseSeries(result[0], toFloat)
      case Failure(e) => Failure(e)
      case Success(s) =>
        assert forall j :: 1 <= j < |result| ==> result[j] == result[1..][j - 1];
        match ParseSeriesList(result[1..], toFloat)
        case Failure(e) => Failure(e)
        case Success(ss) => Success([s] + ss)
  }

  /** `_parse_range_result`: the same shape rule as instant results; every
      series keeps its labels and its timestamps, in order. */
  function ParseRangeResult(result: seq<RawSeries>, toFloat: string -> Option<Float>): (r: Result<SeriesEntry, string>)
    ensures |result| == 0 ==> r == Success(NoSeries)
    ensures r.Success? <==> forall i :: 0 <= i < |result| ==> ParseSeries(result[i], toFloat).Success?
    ensures |result| == 1 && r.Success? ==> r.value.OneSeries? && r.value.series.labels == result[0].metric
    ensures |result| >= 2 && r.Success? ==> r.value.ManySeries? && |r.value.all| == |result|
    ensures r.Success? ==> forall i :: 0 <= i < |result| ==>
      var s := SeriesOf(r.value)[i];
      s.labels == result[i].metric && |s.values| == |result[i].values|
      && forall k :: 0 <= k < |s.values| ==>
           s.values[k].timestamp == result[i].values[k].0
           && toFloat(result[i].values[k].1).Some?
           && s.values[k].value == toFloat(result[i].values[k].1).value
  {
    if |result| == 0 then Success(NoSeries)
    else if |result| == 1 then
      match ParseSeries(result[0], toFloat)
      case Failure(e) => Failure(e)
      case Success(s) => Success(OneSeries(s))
    else
      match ParseSeriesList(result, toFloat)
      case Failure(e) => Failure(e)
      case Success(ss) => Success(ManySeries(ss))
  }

  /** The uniform view of a time-series entry. */
  function SeriesOf(e: SeriesEntry): seq<Series> {
    match e
    case OneSeries(s) => [s]
    case ManySeries(ss) => ss
    case _ => []
  }

  /** One iteration of `_query_current_metrics`: the parsed result, or
      `{"error": str(e)}` when the query or the parsing raised. */
  function MeasureInstant(promql: string, b: Backend): (e: Entry)
    ensures Query(b.client, promql, b.instant).Failure? ==>
      e == Failed(Query(b.client, promql, b.instant).error)
    ensures Query(b.client, promql, b.instant).Success? ==>
      var p := ParseQueryResult(Query(b.client, promql, b.instant).value.result.GetOr([]), b.toFloat);
      e == (if p.Success? then p.value else Failed(p.error))
    ensures e.Failed? || e.Nothing? || e.Reading? || e.Readings?
  {
    match Query(b.client, promql, b.instant)
    case Failure(msg) => Failed(msg)
    case Success(data) =>
      match ParseQueryResult(data.result.GetOr([]), b.toFloat)
      case Failure(msg) => Failed(msg)
      case Success(entry) => entry
  }

  /** The loop of `_query_current_metrics`: one `metrics[label] = …` per query. */
  function MeasureEach(queries: seq<(string, string)>, b: Backend, acc: Metrics): Metrics
    decreases |queries|
  {
    if |queries| == 0 then acc
    else MeasureEach(queries[1..], b, Put(acc, queries[0].0, MeasureInstant(queries[0].1, b)))
  }

  predicate DistinctLabels(queries: seq<(string, string)>) {
    forall i, j :: 0 <= i < j < |queries| ==> queries[i].0 != queries[j].0
  }

  /** Every alert's query labels are distinct, so no assignment overwrites. */
  lemma InvestigationLabelsDistinct()
    ensures forall name :: name in InvestigationQueries ==> DistinctLabels(InvestigationQueries[name])
  {
  }

  /** With distinct labels not yet in the map, the loop appends one entry
      per query, in query order, each depending on its own query only. */
  lemma {:induction false} MeasureEachAppends(queries: seq<(string, string)>, b: Backend, acc: Metrics)
    requires DistinctLabels(queries)
    requires forall i :: 0 <= i < |queries| ==> queries[i].0 !in Keys(acc)
    ensures var m := MeasureEach(queries, b, acc);
      && |m| == |acc| + |queries|
      && m[..|acc|] == acc
      && forall i :: 0 <= i < |queries| ==> m[|acc| + i] == (queries[i].0, MeasureInstant(queries[i].1, b))
    decreases |queries|
  {
    if |queries| > 0 {
      var e := (queries[0].0, MeasureInstant(queries[0].1, b));
      var acc' := Put(acc, e.0, e.1);
      assert acc' == acc + [e];
      var rest := queries[1..];
      forall i | 0 <= i < |rest| ensures rest[i].0 !in Keys(acc') {
        assert rest[i] == queries[i + 1];
        assert Keys(acc') == Keys(acc) + [e.0];
      }
      forall i, j | 0 <= i < j < |rest| ensures rest[i].0 != rest[j].0 {
        assert rest[i] == queries[i + 1] && rest[j] == queries[j + 1];
      }
      MeasureEachAppends(rest, b, acc');
      var m := MeasureEach(rest, b, acc');
      assert m[..|acc|] == m[..|acc'|][..|acc|];
      forall i | 0 <= i < |queries| ensures m[|acc| + i] == (queries[i].0, MeasureInstant(queries[i].1, b)) {
        if i == 0 {
          assert m[|acc|] == m[..|acc'|][|acc|];
        } else {
          assert rest[i - 1] == queries[i];
          assert m[|acc| + i] == m[|acc'| + (i - 1)];
        }
      }
    }
  }


  /** `_query_current_metrics`: an unmapped alert name gives an empty map;
      otherwise the keys are exactly the mapped labels, in order, and each
      value is what its own query produced, a failure in one query leaving
      the others untouched. */
  function QueryCurrentMetrics(alertName: string, b: Backend): (m: Metrics)
    ensures alertName !in InvestigationQueries ==> m == []
    ensures alertName in InvestigationQueries ==>
      var qs := InvestigationQueries[alertName];
      |m| == |qs|
      && forall i :: 0 <= i < |qs| ==> m[i] == (qs[i].0, MeasureInstant(qs[i].1, b))
  {
    if alertName !in InvestigationQueries then []
    else
      var qs := InvestigationQueries[alertName];
      assert DistinctLabels(qs) by { InvestigationLabelsDistinct(); }
      MeasureEachPointwise(qs, b);
      MeasureEach(qs, b, [])
  }

  /** From an empty map, entry `i` is label `i` with its own measurement. */
  lemma MeasureEachPointwise(qs: seq<(string, string)>, b: Backend)
    requires DistinctLabels(qs)
    ensures var m := MeasureEach(qs, b, []);
      |m| == |qs| && forall i :: 0 <= i < |qs| ==> m[i] == (qs[i].0, MeasureInstant(qs[i].1, b))
  {
    MeasureEachAppends(qs, b, []);
  }

  /** A query's failure shows only under its own label: two backends that
      answer query `i` alike give the same entry `i`, however they differ
      on the other queries. */
  lemma MetricFailureIsolated(alertName: string, b1: Backend, b2: Backend, i: nat)
    requires alertName in InvestigationQueries && i < |InvestigationQueries[alertName]|
    requires var q := InvestigationQueries[alertName][i].1; Query(b1.client, q, b1.instant) == Query(b2.client, q, b2.instant)
    requires b1.toFloat == b2.toFloat
    ensures QueryCurrentMetrics(alertName, b1)[i] == QueryCurrentMetrics(alertName, b2)[i]
  {
  }

  const TimeSeriesMinutes := 15
  const TimeSeriesStep := "30s"

  /** The request `_query_time_series` makes for one query: the last 15
      minutes up to `now`, one point every 30 seconds. */
  function TimeSeriesRequest(promql: string, now: int): (p: RangeParams)
    ensures p == RangeParams(promql, now - 900, now, "30s")
  {
    RangeRequest(promql, Some(now - TimeSeriesMinutes * 60), Some(now), Some(TimeSeriesStep), now)
  }

  /** One iteration of `_query_time_series`. */
  function MeasureRange(promql: string, b: Backend, now: int): (e: SeriesEntry)
    ensures var sent := HttpGet(b.client.baseUrl + "/api/v1/query_range", RangeQueryParams(TimeSeriesRequest(promql, now)), b.client.timeout);
      UnwrapQuery(Range, b.range(sent)).Failure? ==> e == SeriesFailed(UnwrapQuery(Range, b.range(sent)).error)
    ensures var sent := HttpGet(b.client.baseUrl + "/api/v1/query_range", RangeQueryParams(TimeSeriesRequest(promql, now)), b.client.timeout);
      UnwrapQuery(Range, b.range(sent)).Success? ==>
        var p := ParseRangeResult(UnwrapQuery(Range, b.range(sent)).value.result.GetOr([]), b.toFloat);
        e == (if p.Success? then p.value else SeriesFailed(p.error))
  {
    match QueryRange(b.client, promql, Some(now - TimeSeriesMinutes * 60), Some(now), Some(TimeSeriesStep), now, b.range)
    case Failure(msg) => SeriesFailed(msg)
    case Success(data) =>
      match ParseRangeResult(data.result.GetOr([]), b.toFloat)
      case Failure(msg) => SeriesFailed(msg)
      case Success(entry) => entry
  }

  function MeasureRangeEach(queries: seq<(string, string)>, b: Backend, now: int, acc: TimeSeries): TimeSeries
    decreases |queries|
  {
    if |queries| == 0 then acc
    else MeasureRangeEach(queries[1..], b, now, Put(acc, queries[0].0, MeasureRange(queries[0].1, b, now)))
  }

  lemma {:induction false} MeasureRangeEachAppends(queries: seq<(string, string)>, b: Backend, now: int, acc: TimeSeries)
    requires DistinctLabels(queries)
    requires forall i :: 0 <= i < |queries| ==> queries[i].0 !in Keys(acc)
    ensures var m := MeasureRangeEach(queries, b, now, acc);
      && |m| == |acc| + |queries|
      && m[..|acc|] == acc
      && forall i :: 0 <= i < |queries| ==> m[|acc| + i] == (queries[i].0, MeasureRange(queries[i].1, b, now))
    decreases |queries|
  {
    if |queries| > 0 {
      var e := (queries[0].0, MeasureRange(queries[0].1, b, now));
      var acc' := Put(acc, e.0, e.1);
      assert acc' == acc + [e];
      var rest := queries[1..];
      forall i | 0 <= i < |rest| ensures rest[i].0 !in Keys(acc') {
        assert rest[i] == queries[i + 1];
        assert Keys(acc') == Keys(acc) + [e.0];
      }
      forall i, j | 0 <= i < j < |rest| ensures rest[i].0 != rest[j].0 {
        assert rest[i] == queries[i + 1] && rest[j] == queries[j + 1];
      }
      MeasureRangeEachAppends(rest, b, now, acc');
      var m := MeasureRangeEach(rest, b, now, acc');
      assert m[..|acc|] == m[..|acc'|][..|acc|];
      forall i | 0 <= i < |queries| ensures m[|acc| + i] == (queries[i].0, MeasureRange(queries[i].1, b, now)) {
        if i == 0 {
          assert m[|acc|] == m[..|acc'|][|acc|];
        } else {
          assert rest[i - 1] == queries[i];
          assert m[|acc| + i] == m[|acc'| + (i - 1)];
        }
      }
    }
  }


  /** `_query_time_series`: the same key discipline and per-metric failure
      isolation as the instant metrics, every request over the window
      [now - 15 min, now] with step "30s". */
  function QueryTimeSeries(alertName: string, b: Backend, now: int): (m: TimeSeries)
    ensures alertName !in InvestigationQueries ==> m == []
    ensures alertName in InvestigationQueries ==>
      var qs := InvestigationQueries[alertName];
      |m| == |qs|
      && forall i :: 0 <= i < |qs| ==> m[i] == (qs[i].0, MeasureRange(qs[i].1, b, now))
  {
    if alertName !in InvestigationQueries then []
    else
      var qs := InvestigationQueries[alertName];
      assert DistinctLabels(qs) by { InvestigationLabelsDistinct(); }
      MeasureRangeEachPointwise(qs, b, now);
      MeasureRangeEach(qs, b, now, [])
  }

  /** From an empty map, entry `i` is label `i` with its own series. */
  lemma MeasureRangeEachPointwise(qs: seq<(string, string)>, b: Backend, now: int)
    requires DistinctLabels(qs)
    ensures var m := MeasureRangeEach(qs, b, now, []);
      |m| == |qs| && forall i :: 0 <= i < |qs| ==> m[i] == (qs[i].0, MeasureRange(qs[i].1, b, now))
  {
    MeasureRangeEachAppends(qs, b, now, []);
  }

  /** The entries `_generate_summary` (and the diagnosis formatter) report on. */
  predicate Reportable(e: Entry) {
    e.Failed? || e.Reading? || e.Readings?
  }

  function SummaryHeader(alertName: string): string {
    "Investigation findings for " + alertName + ":"
  }

  /** The line one metric contributes to the summary, if any. */
  function SummaryLine(name: string, e: Entry, fmt: Formatter): (line: Option<string>)
    ensures line.Some? <==> Reportable(e)
    ensures e.Failed? ==> line == Some("  - " + name + ": Error - " + e.error)
    ensures e.Reading? ==> line == Some("  - " + name + ": " + fmt(e.value))
    ensures e.Readings? ==> line == Some("  - " + name + ": " + NatToString(|e.items|) + " data points")
  {
    match e
    case Failed(msg) => Some("  - " + name + ": Error - " + msg)
    case Reading(v, _) => Some("  - " + name + ": " + fmt(v))
    case Readings(items) => Some("  - " + name + ": " + NatToString(|items|) + " data points")
    case _ => None
  }

  /** The summary lines after the header: one per reportable entry, in map
      order, and nothing for any other entry. */
  function SummaryLines(metrics: Metrics, fmt: Formatter): (lines: seq<string>)
    ensures |lines| <= |metrics|
    ensures lines == [] <==> forall i :: 0 <= i < |metrics| ==> !Reportable(metrics[i].1)
    ensures |metrics| == 1 ==>
      lines == (if Reportable(metrics[0].1) then [SummaryLine(metrics[0].0, metrics[0].1, fmt).value] else [])
    decreases |metrics|
  {
    if |metrics| == 0 then []
    else
      var rest := SummaryLines(metrics[1..], fmt);
      assert forall i :: 1 <= i < |metrics| ==> metrics[i] == metrics[1..][i - 1];
      match SummaryLine(metrics[0].0, metrics[0].1, fmt)
      case Some(line) => [line] + rest
      case None => rest
  }

  /** The summary lines of a map are those of its first part followed by
      those of the rest: every metric is reported, in map order. */
  lemma {:induction false} SummaryLinesConcat(a: Metrics, b: Metrics, fmt: Formatter)
    ensures SummaryLines(a + b, fmt) == SummaryLines(a, fmt) + SummaryLines(b, fmt)
    decreases |a|
  {
    if |a| == 0 {
      assert a + b == b;
    } else {
      assert (a + b)[0] == a[0];
      assert (a + b)[1..] == a[1..] + b;
      SummaryLinesConcat(a[1..], b, fmt);
    }
  }

  /** `_generate_summary`: the header line, then the metric lines. */
  function GenerateSummary(alertName: string, metrics: Metrics, fmt: Formatter): (s: string)
    ensures StartsWith(s, SummaryHeader(alertName))
    ensures (forall i :: 0 <= i < |metrics| ==> !Reportable(metrics[i].1)) <==> s == SummaryHeader(alertName)
  {
    var lines := SummaryLines(metrics, fmt);
    var s := Join([SummaryHeader(alertName)] + lines, '\n');
    if lines == [] then s
    else
      assert ([SummaryHeader(alertName)] + lines)[1..] == lines;
      assert s == SummaryHeader(alertName) + ['\n'] + Join(lines, '\n');
      assert |s| > |SummaryHeader(alertName)|;
      s
  }

  /** Split back into lines, the summary is the header followed by one line
      per reportable metric, provided no name, message or printed value
      contains a line break. */
  lemma SummaryLinesRecoverable(alertName: string, metrics: Metrics, fmt: Formatter)
    requires '\n' !in SummaryHeader(alertName)
    requires forall k :: 0 <= k < |SummaryLines(metrics, fmt)| ==> '\n' !in SummaryLines(metrics, fmt)[k]
    ensures Split(GenerateSummary(alertName, metrics, fmt), '\n') == [SummaryHeader(alertName)] + SummaryLines(metrics, fmt)
  {
    SplitJoin([SummaryHeader(alertName)] + SummaryLines(metrics, fmt), '\n');
  }

  /** An alert name without investigation queries is summarised by its
      header line alone. */
  lemma UnmappedAlertSummary(alertName: string, b: Backend, fmt: Formatter)
    requires alertName !in InvestigationQueries
    ensures GenerateSummary(alertName, QueryCurrentMetrics(alertName, b), fmt)
      == "Investigation findings for " + alertName + ":"
  {
  }

  /** The `alert_info` part of a report. */
  datatype AlertInfo = AlertInfo(
    name: string, severity: string, summary: string, description: string,
    startedAt: string, currentValue: string)

  datatype Report = Report(
    alertInfo: AlertInfo,
    metrics: Metrics,
    timeSeries: TimeSeries,
    investigationSummary: string,
    investigatedAt: string)

  /** The clock reading of one investigation: `epoch` is
      `int(datetime.utcnow().timestamp())`, whole seconds, and `iso` is
      `datetime.utcnow().isoformat()`.  The naive UTC reading is converted
      as if it were local time, so `epoch` is the true epoch time shifted by
      the host's UTC offset; the model takes the value as given. */
  datatype Clock = Clock(epoch: int, iso: string)

  /** `str(KeyError('alertname'))`. */
  const MissingAlertName := "'alertname'"

  /** `investigate_alert`: raises only when the alert has no "alertname"
      label; otherwise the report copies the alert's fields with their
      defaults and holds the metrics, series and summary for that name. */
  function InvestigateAlert(alert: Alert, b: Backend, fmt: Formatter, clock: Clock): (r: Result<Report, string>)
    ensures r.Failure? <==> "alertname" !in alert.labels
    ensures r.Failure? ==> r.error == MissingAlertName
    ensures r.Success? ==>
      var name := alert.labels["alertname"];
      var info := r.value.alertInfo;
      && info.name == name
      && info.severity == (if "severity" in alert.labels then alert.labels["severity"] else "unknown")
      && info.summary == (if "summary" in alert.annotations then alert.annotations["summary"] else "")
      && info.description == (if "description" in alert.annotations then alert.annotations["description"] else "")
      && info.startedAt == alert.activeAt.GetOr("")
      && info.currentValue == alert.value.GetOr("")
      && r.value.metrics == QueryCurrentMetrics(name, b)
      && r.value.timeSeries == QueryTimeSeries(name, b, clock.epoch)
      && r.value.investigationSummary == GenerateSummary(name, r.value.metrics, fmt)
      && r.value.investigatedAt == clock.iso
  {
    if "alertname" !in alert.labels then Failure(MissingAlertName)
    else
      var name := alert.labels["alertname"];
      var metrics := QueryCurrentMetrics(name, b);
      var info := AlertInfo(
        name,
        if "severity" in alert.labels then alert.labels["severity"] else "unknown",
        if "summary" in alert.annotations then alert.annotations["summary"] else "",
        if "description" in alert.annotations then alert.annotations["description"] else "",
        alert.activeAt.GetOr(""),
        alert.value.GetOr(""));
      Success(Report(info, metrics, QueryTimeSeries(name, b, clock.epoch), GenerateSummary(name, metrics, fmt), clock.iso))
  }

  /** `labels.get(key, default)`. */
  function LabelOr(labels: Labels, key: string, default: string): string {
    if key in labels then labels[key] else default
  }

  /** An element of the batch result: a report, or the error record that
      replaces a failed investigation. */
  datatype Investigation = Investigated(report: Report) | InvestigationFailed(name: string, error: string)

  function InvestigateOne(alert: Alert, b: Backend, fmt: Formatter, clock: Clock): (r: Investigation)
    ensures r.InvestigationFailed? <==> "alertname" !in alert.labels
    ensures r.InvestigationFailed? ==> r.name == "unknown" && r.error == MissingAlertName
  {
    match InvestigateAlert(alert, b, fmt, clock)
    case Success(report) => Investigated(report)
    case Failure(e) =>
      InvestigationFailed(LabelOr(alert.labels, "alertname", "unknown"), e)
  }

  /** `investigate_multiple_alerts`: one element per alert, in order, the
      `i`-th investigated at clock reading `clock(i)`.  An alert fails
      exactly when it has no "alertname" label, so its error record is
      always named "unknown"; every other alert gets its full report. */
  function InvestigateMultiple(alerts: seq<Alert>, b: Backend, fmt: Formatter, clock: nat -> Clock): (r: seq<Investigation>)
    ensures |r| == |alerts|
    ensures forall i :: 0 <= i < |alerts| ==> (r[i].InvestigationFailed? <==> "alertname" !in alerts[i].labels)
    ensures forall i :: 0 <= i < |alerts| && r[i].InvestigationFailed? ==>
      r[i] == InvestigationFailed("unknown", MissingAlertName)
    ensures forall i :: 0 <= i < |alerts| && r[i].Investigated? ==>
      InvestigateAlert(alerts[i], b, fmt, clock(i)) == Success(r[i].report)
  {
    var r := seq(|alerts|, i requires 0 <= i < |alerts| => InvestigateOne(alerts[i], b, fmt, clock(i)));
    assert forall i :: 0 <= i < |alerts| ==> r[i] == InvestigateOne(alerts[i], b, fmt, clock(i));
    r
  }

  /** One alert's outcome does not depend on the rest of the batch: two
      batches holding the same alert at the same position, investigated at
      the same clock reading, agree there, whatever the other alerts are
      and however they fail. */
  lemma BatchFailuresIsolated(a1: seq<Alert>, a2: seq<Alert>, b: Backend, fmt: Formatter, c1: nat -> Clock, c2: nat -> Clock, i: nat)
    requires i < |a1| && i < |a2| && a1[i] == a2[i] && c1(i) == c2(i)
    ensures InvestigateMultiple(a1, b, fmt, c1)[i] == InvestigateMultiple(a2, b, fmt, c2)[i]
  {
  }
}
