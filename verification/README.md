# devops-war-room incident pipeline, modelled in Dafny

This project models the incident-response pipeline of devops-war-room. The
pipeline has seven parts:

- **Monitor agent:** polls Prometheus and tracks which alerts start and stop
  firing.
- **Triage agent:** runs the investigation queries mapped to a firing alert,
  shapes their results, isolates per-metric failures and writes a summary.
- **Diagnostic agent:** formats the metrics and retrieves similar past
  incidents from the knowledge base. It asks a language model for a
  root-cause analysis once, parses the free-text answer into sections, and
  saves confident diagnoses back into the knowledge base.
- **Remediation agent:** asks the model for a JSON remediation plan. It
  falls back to a fenced JSON block and then to a fixed manual-step plan.
- **Incident knowledge base:** an append-only vector store searched by
  similarity.
- **Prometheus client:** URL normalisation, the request each operation
  sends, the response envelopes, the firing filter and the range-query
  defaults. The HTTP round trip itself is a parameter.
- **Connection pool:** the demo application's database pool.

Everything is pure functions over immutable datatypes. Agent state is
passed in and returned explicitly: the monitor's tracker, the knowledge
base's store and the pool's world. Every outside effect becomes a function
parameter. This covers HTTP replies, the language model, the embedding
model, the vector distance, Python's `float()`, `:.4f` printing and the
clock. An operation that raises in Python returns `Failure` in the model,
or `None` where the caller only tests for failure.

| file | module | models |
|---|---|---|
| wrappers.dfy | Wrappers | `Option` and `Result` |
| text.dfy | Text | the Python `str` operations used: `strip`, `lstrip`/`rstrip` with characters, `upper`/`lower`, `in`, `find`, `split`/`join`, slicing, `str(int)` |
| dicts.dfy | Dicts | insertion-ordered `dict` with string keys |
| prometheus.dfy | Prometheus | `src/integrations/prometheus_client.py` |
| monitor.dfy | Monitor | `_check_alerts`, `_get_alert_by_name` and the initial state of `src/agents/monitor_agent.py` |
| triage.dfy | Triage | `src/agents/triage_agent.py` |
| knowledge.dfy | Knowledge | `src/agents/knowledge_base.py` |
| diagnosis_parser.dfy | DiagnosisParser | `_parse_diagnosis` of `src/agents/diagnostic_agent.py` |
| diagnostic.dfy | Diagnostic | `_format_metrics`, `diagnose` and `diagnose_multiple` of `src/agents/diagnostic_agent.py` |
| remediation.dfy | Remediation | `src/agents/remediation_agent.py` |
| pool.dfy | ConnectionPool | `src/app/database.py` |

### Behaviour of the code worth knowing

- **Confidence grade.** Every line of the confidence section that mentions
  a grade overwrites the previous one, so the last vote wins. Within one
  line, "high" is looked for before "low" and "medium".
- **Header lines carry nothing.** A line that mentions a section keyword
  only switches section, so the grade in "CONFIDENCE: HIGH" is lost and the
  confidence stays "medium"; the same holds for text after "Root cause:".
- **Duplicate JSON keys.** A decoded object is a dict, so of two members
  with the same key the last one counts.
- **Root-cause fallback.** The first 500 characters replace the root cause
  whenever the collected text is blank after `strip()`. Whether a header
  was found does not matter.
- **Default remediation plan.** It has four keys and no `file_path`.
- **Recovered plans are not checked.** The plan recovered from a fenced
  block is whatever `json.loads` returns, with no schema check, so not every
  result of `propose_fix` is a well-formed plan.
- **Strict parse needs an object.** A strictly parsed answer is only
  accepted when it is a dict: for any other value, `.keys()` raises inside
  the same `try` and the fenced-block fallback runs.
- **Fence syntax.** The fence is matched literally: three backticks,
  `json`, a newline, the block, a newline and three backticks. The block is
  the text up to the first closing fence after the first opening fence.
- **Alert name in `propose_fix`.** The name is read from
  `alert_info["alertname"]`. A triage report's `alert_info` stores the
  name under `"name"`, so a plan requested from it is requested for
  "Unknown".
- **Queries run one after another.** The queries of one alert and the
  alerts of one batch are all handled sequentially.
- **Embedding and store failures propagate.** A failing embedding call,
  or a failing write or search of the vector store, makes `add_incident` or
  `search_similar` raise. `diagnose` catches that and carries on without
  precedent, or without saving.

## Model

| member | source | states |
|---|---|---|
| Prometheus.NewClient | src/integrations/prometheus_client.py:24-33 | the base URL loses exactly its trailing slashes and nothing else; the timeout is kept |
| Prometheus.NormaliseIdempotent | src/integrations/prometheus_client.py:32 | normalising an already normalised URL changes nothing |
| Prometheus.TrailingSlashIgnored | src/integrations/prometheus_client.py:32 | a URL configured with or without a trailing slash gives the same client |
| Prometheus.RequestsIgnoreTrailingSlash | src/integrations/prometheus_client.py:32-66 | a base URL configured with a trailing slash sends every request to the same URL as without it; a base URL that does not start with "/" is joined to each path by exactly one "/" |
| Prometheus.UnwrapAlerts | src/integrations/prometheus_client.py:72-81 | succeeds exactly when the envelope status is "success"; the result is then the `alerts` list, `[]` when data or alerts is missing, and `None` exactly when alerts is null; raises with the status otherwise, and with the reason on transport failure |
| Prometheus.GetAlerts | src/integrations/prometheus_client.py:66-81 | one request to base URL + "/api/v1/alerts", without parameters, with the client's timeout; its reply is unwrapped as above |
| Prometheus.UnwrapQuery | src/integrations/prometheus_client.py:114-130 | a success envelope yields its data (`{}` when missing); any other status raises "PromQL query failed: " or "PromQL range query failed: " plus the error ("Unknown error" when absent); a transport failure raises with its reason |
| Prometheus.UnwrapInvertsEnvelope | src/integrations/prometheus_client.py:123-127 | unwrapping a wrapped success gives the data back, and a wrapped error gives the error back inside the fixed message |
| Prometheus.Query | src/integrations/prometheus_client.py:114-130 | one request to base URL + "/api/v1/query" with the PromQL text as the `query` parameter and the client's timeout; its reply is unwrapped as an instant query |
| Prometheus.FiringAlerts | src/integrations/prometheus_client.py:217 | an alert is kept iff its state is "firing"; the result is no longer than the input |
| Prometheus.FiringAlertsConcat | src/integrations/prometheus_client.py:217 | the filter preserves order: filtering a concatenation concatenates the filtered parts |
| Prometheus.GetFiringAlerts | src/integrations/prometheus_client.py:206-217 | propagates the failures of get_alerts and fails when it returned None; succeeds iff get_alerts returned a list, and then returns the firing alerts of that list in their order |
| Prometheus.RangeRequest | src/integrations/prometheus_client.py:132-189 | `end` defaults to now, `start` to one hour before `end`, and `step` to "15s"; given values pass through unchanged |
| Prometheus.QueryRange | src/integrations/prometheus_client.py:175-204 | one request to base URL + "/api/v1/query_range" with the query, start, end and step parameters with their defaults and the client's timeout; its reply is unwrapped as a range query |
| Prometheus.IsHealthy | src/integrations/prometheus_client.py:219-231 | healthy iff the request to base URL + "/-/healthy" is answered with 200; a transport failure is unhealthy rather than an exception |
| Monitor.NewTracker | src/agents/monitor_agent.py:36-50 | a new agent tracks no firing alert and keeps its interval and normalised URL |
| Monitor.FiringNames | src/agents/monitor_agent.py:114-118 | defined iff every firing alert has an "alertname" label; then a name is in the set iff some firing alert carries it |
| Monitor.AlertByName | src/agents/monitor_agent.py:147-163 | finds the first alert with the given name, every earlier alert having a different name; returns `{}` iff every alert is labelled and none matches; raises the KeyError "'alertname'" iff an unlabelled alert comes before any match |
| Monitor.Check | src/agents/monitor_agent.py:96-145 | a failed or null fetch, a firing alert without a name, or a failed lookup skips the check and keeps the state; an observed check reports new = current − previous and resolved = previous − current, stores the current set, counts it, and logs a heartbeat iff both are empty |
| Monitor.ChangedIffReported | src/agents/monitor_agent.py:120-124 | a name is reported new iff it joined the firing set and resolved iff it left; never both; reported iff its membership changed |
| Monitor.CheckObservesWellFormedAlerts | src/agents/monitor_agent.py:114-136 | when names are present and the new ones can be looked up, the check is observed and the tracked set becomes exactly the current names |
| Monitor.LabelledAlertsAlwaysObserved | src/agents/monitor_agent.py:127-129 | when every alert carries the label, every lookup succeeds and the check is never skipped |
| Monitor.CheckIdempotent | src/agents/monitor_agent.py:114-142 | checking the same alerts twice makes the second check report nothing new or resolved, log the heartbeat and leave the state unchanged |
| Monitor.HighErrorRateScenario | src/agents/monitor_agent.py:96-145 | none, firing, firing, none: the alert is new on the second check, silent on the third and resolved on the fourth |
| Knowledge.AddIncident | src/agents/knowledge_base.py:57-87 | embeds "alert_name: root_cause" and appends one record of the arguments, creating the table on the first add; a failure of the embedding, or then of the write, raises with its error and nothing is stored |
| Knowledge.ExtendsTransitive | src/agents/knowledge_base.py:84-87 | appending composes: any sequence of adds only ever appends |
| Knowledge.Rank | src/agents/knowledge_base.py:111-113 | the ranking is a permutation of the table, ordered by distance from the query vector |
| Knowledge.Nearest | src/agents/knowledge_base.py:111-116 | returns min(limit, table size) records of the table, nearest first; no record left out is nearer than any returned |
| Knowledge.SearchSimilar | src/agents/knowledge_base.py:89-119 | without a table returns `[]` and makes no embedding call; otherwise raises with the error of embedding "alert_name: symptoms", or then of the search, and else returns min(limit, table size) records, the nearest ones, ranked |
| Knowledge.FirstIncidentFound | src/agents/knowledge_base.py:57-119 | after the first add, any search with limit ≥ 1 returns exactly that record, when the store raises nothing |
| Triage.InvestigationLabelsDistinct | src/agents/triage_agent.py:33-84 | within each alert's query list the metric labels are distinct, so no metric overwrites another |
| Triage.ParseQueryResult | src/agents/triage_agent.py:195-222 | no series gives None; one series gives a single value/labels dict; more give a list of the same length; raises iff some value is not a float |
| Triage.ShapingPreservesSamples | src/agents/triage_agent.py:205-222 | whatever the shape, the parsed entry holds every series of the result, in order, with its labels and value |
| Triage.ParseRangeResult | src/agents/triage_agent.py:224-257 | the same shape rule as instant results; succeeds iff every point parses; every series keeps its labels and its number of points, and each point its timestamp and the parsed float of its value string |
| Triage.MeasureInstant | src/agents/triage_agent.py:146-153 | a failing query stores `{"error": message}` with the query's own message; a successful one stores the parsed result, or `{"error": message}` with the float error when a value does not parse |
| Triage.QueryCurrentMetrics | src/agents/triage_agent.py:128-155 | an unmapped alert gives `{}`; otherwise the keys are exactly the mapped labels, in order, each holding its own query's parsed result or `{"error": …}` |
| Triage.MetricFailureIsolated | src/agents/triage_agent.py:146-153 | a metric's entry depends only on its own query: backends that answer it alike agree on it, however the other queries fare |
| Triage.TimeSeriesRequest | src/agents/triage_agent.py:175-186 | each range request covers the 900 seconds up to the clock's epoch reading, with a 30 s step |
| Triage.MeasureRange | src/agents/triage_agent.py:179-192 | the metric's range request goes to base URL + "/api/v1/query_range" with that window; when it fails, the entry is `{"error": message}` with its message; when it succeeds, the entry is the parsed series, or the float error when a point does not parse |
| Triage.QueryTimeSeries | src/agents/triage_agent.py:157-193 | the same key discipline and per-metric failure isolation for range queries |
| Triage.SummaryLine | src/agents/triage_agent.py:272-282 | a metric contributes a line iff it is an error, a single value or a list: exactly "  - name: Error - msg", "  - name: " with the formatted value, or "  - name: n data points" |
| Triage.SummaryLines | src/agents/triage_agent.py:270-284 | at most one line per metric; no lines iff no metric is reportable; a single metric gives exactly its own line, or none |
| Triage.SummaryLinesConcat | src/agents/triage_agent.py:272-282 | the lines of a concatenated map are the lines of each part in turn, so with the single-metric clause every reportable metric gets its line, in map order |
| Triage.GenerateSummary | src/agents/triage_agent.py:259-284 | the summary starts with the header and is the header alone iff no metric is reportable (its lines after the header are `SummaryLines`, see `SummaryLinesRecoverable`) |
| Triage.SummaryLinesRecoverable | src/agents/triage_agent.py:270-284 | split on newlines, the summary gives back the header and the metric lines (when none of them contains a newline) |
| Triage.UnmappedAlertSummary | src/agents/triage_agent.py:138-144 | an alert without investigation queries is summarised by its header line alone |
| Triage.InvestigateAlert | src/agents/triage_agent.py:86-126 | raises iff the alert has no "alertname" label; otherwise the report copies the alert's fields with their defaults and holds the metrics, series and summary for that name, stamped with the clock's ISO reading |
| Triage.InvestigateOne | src/agents/triage_agent.py:300-315 | an alert fails iff it has no "alertname" label, and then its record is named "unknown" with the KeyError message |
| Triage.InvestigateMultiple | src/agents/triage_agent.py:286-317 | one element per alert, in order; an alert fails iff it lacks the "alertname" label, and its record is then named "unknown" with the KeyError message; every other alert gets the report investigate_alert gives it |
| Triage.BatchFailuresIsolated | src/agents/triage_agent.py:299-315 | an alert's element depends only on that alert and its clock reading, never on the other alerts of the batch or their failures |
| DiagnosisParser.HeaderOf | src/agents/diagnostic_agent.py:272-284 | the upper-cased line names root cause if it contains "ROOT CAUSE"; else evidence iff "EVIDENCE" or "SUPPORTING"; else recommendations iff "RECOMMEND" or "ACTION"; else confidence iff "CONFIDENCE"; no header iff none of the six |
| DiagnosisParser.AddProse | src/agents/diagnostic_agent.py:287-297 | a bulleted line appends its stripped text after the bullet plus a space; another line appends itself plus a space; the field is unchanged iff the line is not bulleted and the field is empty or the line starts with "#" |
| DiagnosisParser.ItemOf | src/agents/diagnostic_agent.py:299-304 | a line yields a recommendation iff it is bulleted or digit-led and something is left after removing the leading marks and spaces; the recommendation is exactly that rest, stripped |
| DiagnosisParser.VoteOf | src/agents/diagnostic_agent.py:306-313 | "high" in the lower-cased line gives high; else "low" gives low; else "medium" gives medium; no grade iff none of the three occurs |
| DiagnosisParser.Items | src/agents/diagnostic_agent.py:299-304 | reference definition: one item per item line, in order; empty iff there is no item line |
| DiagnosisParser.LastVote | src/agents/diagnostic_agent.py:306-313 | reference definition: the grade of the last vote line, and none iff there is no vote line |
| DiagnosisParser.SectionIsLastHeader | src/agents/diagnostic_agent.py:267-284 | the parser's current section is the one named by the last header read |
| DiagnosisParser.RootCauseMatches | src/agents/diagnostic_agent.py:287-291 | the accumulated root cause is the prose of the lines under root-cause headers |
| DiagnosisParser.EvidenceMatches | src/agents/diagnostic_agent.py:293-297 | the accumulated evidence is the prose of the lines under evidence headers |
| DiagnosisParser.RecommendationsMatch | src/agents/diagnostic_agent.py:299-304 | the recommendations are the items of the item lines, in order |
| DiagnosisParser.ConfidenceMatches | src/agents/diagnostic_agent.py:306-313 | the confidence is the last vote, and "medium" without one |
| DiagnosisParser.FieldsMatchReference | src/agents/diagnostic_agent.py:266-313 | every field of the line-by-line parse agrees with its definition by section |
| DiagnosisParser.ParseDiagnosis | src/agents/diagnostic_agent.py:246-319 | each field equals its definition by section; a blank root cause is replaced by the first 500 characters; a non-empty answer has a non-empty root cause; recommendations are clean |
| DiagnosisParser.HeaderLineContributesNothing | src/agents/diagnostic_agent.py:272-317 | a one-line answer that names a section adds nothing to any field, whatever else the line says: the root cause falls back to the answer and the rest keep their defaults |
| DiagnosisParser.GradeOnConfidenceHeaderLost | src/agents/diagnostic_agent.py:281-313 | the answer "CONFIDENCE: HIGH" parses with confidence "medium" |
| DiagnosisParser.NoHeadersFallback | src/agents/diagnostic_agent.py:315-317 | an answer without any header parses to its first 500 characters, no evidence, no recommendations and "medium" |
| Diagnostic.ItemLine | src/agents/diagnostic_agent.py:236-240 | a dict element prints exactly "    • endpoint: value" with "N/A" and 0 as defaults; any other element prints nothing |
| Diagnostic.ItemLines | src/agents/diagnostic_agent.py:235-240 | no lines iff no element is a dict; a single element gives exactly its own line, or none |
| Diagnostic.ItemLinesConcat | src/agents/diagnostic_agent.py:235-240 | the lines of a concatenated list are the lines of each part in turn: every dict element, in order |
| Diagnostic.EntryLines | src/agents/diagnostic_agent.py:227-242 | an error prints "- name: ERROR - msg" and a value "- name: " with the value formatted; a list prints the header "- name:", then the item lines of at most five elements and a "... and n more" line when longer; other entries print nothing |
| Diagnostic.MetricLines | src/agents/diagnostic_agent.py:227-242 | no lines iff no metric is printable; a single metric gives exactly its `EntryLines` |
| Diagnostic.MetricLinesConcat | src/agents/diagnostic_agent.py:227-242 | the lines of a concatenated map are the lines of each part in turn: every printable metric, in map order |
| Diagnostic.FormatMetrics | src/agents/diagnostic_agent.py:215-244 | "No metrics available" iff no metric is printable; otherwise the metric lines joined by newlines |
| Diagnostic.PromptAndSummaryAgree | src/agents/diagnostic_agent.py:244 | the prompt lists no metrics exactly when the triage summary is its header alone |
| Diagnostic.SameEntriesReported | src/agents/diagnostic_agent.py:227-242 | metric by metric, the prompt and the triage summary report the same entries |
| Diagnostic.RagContext | src/agents/diagnostic_agent.py:132-147 | the fixed "No similar past incidents found." iff nothing was found, else the header; one incident gives the header followed directly by paragraph 1 |
| Diagnostic.RagContextAppends | src/agents/diagnostic_agent.py:141-147 | one more incident adds one more paragraph, numbered after the others |
| Diagnostic.ConfidenceText | src/agents/diagnostic_agent.py:191-213 | the confidence is "none" iff the diagnosis failed |
| Diagnostic.Retrieve | src/agents/diagnostic_agent.py:131-149 | precedent is used iff a knowledge base exists and its search (limit 3) succeeds with results; a failed search is tolerated |
| Diagnostic.PromptFor | src/agents/diagnostic_agent.py:152-160 | every missing alert field takes its documented default in the prompt |
| Diagnostic.Learn | src/agents/diagnostic_agent.py:171-189 | the store changes iff a knowledge base exists, the confidence is high and saving succeeds; it only ever appends one record; a failed save is swallowed |
| Diagnostic.Diagnose | src/agents/diagnostic_agent.py:110-213 | the result is named after the alert ("Unknown" by default); the store keeps its presence and grows by at most one record, only on a high-confidence diagnosis; an error leaves it unchanged |
| Diagnostic.DiagnosisOutcome | src/agents/diagnostic_agent.py:127-213 | the diagnosis fails iff the single model call fails, carrying its error; otherwise it keeps the raw answer and whether precedent was used |
| Diagnostic.DiagnosisFromAnswer | src/agents/diagnostic_agent.py:191-204 | a successful diagnosis reports the parsed root cause, evidence, recommendations and confidence, and the store is what saving that parse gives |
| Diagnostic.StoredIncidentMatchesDiagnosis | src/agents/diagnostic_agent.py:173-184 | a stored incident is appended under the alert's name, with the diagnosis as root cause and the first recommendation as fix |
| Diagnostic.ViewOf | src/agents/diagnostic_agent.py:336 | the alert_info of an investigation always carries its alert name |
| Diagnostic.DiagnoseStepSound | src/agents/diagnostic_agent.py:335-338 | one batch step names its diagnosis after its investigation and appends at most one record, only for a high-confidence diagnosis |
| Diagnostic.BatchNames | src/agents/diagnostic_agent.py:335-338 | the i-th diagnosis of a batch is named after the i-th investigation |
| Diagnostic.BatchGrows | src/agents/diagnostic_agent.py:333-340 | over a batch the store keeps its presence and only grows, by at most the number of high-confidence diagnoses |
| Diagnostic.DiagnoseMultiple | src/agents/diagnostic_agent.py:321-340 | one diagnosis per investigation, in order, each named after it; the knowledge base only grows, by at most one record per high-confidence diagnosis |
| Diagnostic.BatchWithoutKnowledgeBase | src/agents/diagnostic_agent.py:333-340 | without a knowledge base the batch is the single diagnoses side by side |
| Diagnostic.FailedInvestigationPrompt | src/agents/diagnostic_agent.py:335-337 | a failed investigation is diagnosed from its name alone: every other prompt field takes its default and the metrics read "No metrics available" |
| Remediation.Member | src/agents/remediation_agent.py:133 | a key has a value in a decoded object iff some member has that key |
| Remediation.MemberIsLast | src/agents/remediation_agent.py:133 | the value found is that of the last member with the key, as in the dict `json.loads` builds |
| Remediation.PlanOf | src/agents/remediation_agent.py:12-21 | a JSON value is a plan iff it is an object whose action_type, description, content and risk_level are strings and whose file_path is absent or a string; the plan holds those strings, file_path defaulting to "" |
| Remediation.DefaultPlanConforms | src/agents/remediation_agent.py:141-146 | the fallback plan is a well-formed high-risk manual step without a file_path key |
| Remediation.FencedBlockCharacterised | src/agents/remediation_agent.py:126-128 | a block is found iff some closing fence follows an opening one; it is the text between the first opening fence and the first closing fence after it |
| Remediation.FencedBlockRoundTrip | src/agents/remediation_agent.py:126-134 | wrapping a block in fences, after text without an opening fence, recovers exactly the block |
| Remediation.RequestOf | src/agents/remediation_agent.py:91-100 | the alert name comes from alert_info["alertname"] ("Unknown" otherwise), the diagnosis defaults to "" and the root cause to the diagnosis |
| Remediation.TriageAlertInfoHasNoAlertname | src/agents/remediation_agent.py:92-94 | a triage report's alert_info yields the alert name "Unknown" |
| Remediation.ProposeFix | src/agents/remediation_agent.py:82-146 | a model failure gives the default plan; a strict parse is returned iff it is an object; otherwise the decoded fenced block; the default when neither works; every result except a recovered one is an object |
| Remediation.RecoveredPlanIsUnchecked | src/agents/remediation_agent.py:129-134 | a fenced block decoding to `[]` is returned as it is, which is not a valid plan |
| ConnectionPool.NewPool | src/app/database.py:8-11 | a new pool has no active connection and capacity pool_size + max_overflow |
| ConnectionPool.Acquire | src/app/database.py:14-20 | raises "Database connection pool exhausted" iff the active count has reached the capacity; otherwise counts one more |
| ConnectionPool.Release | src/app/database.py:22-25 | counts one fewer, never going below zero |
| ConnectionPool.PoolOperationsPreserveValid | src/app/database.py:14-25 | both operations keep the count between zero and the capacity |
| ConnectionPool.ReleaseUndoesAcquire | src/app/database.py:14-25 | releasing after a successful acquire restores the pool |
| ConnectionPool.FullPoolAcceptsAfterRelease | src/app/database.py:16-24 | a full pool refuses, accepts exactly one more after a release, then refuses again |
| ConnectionPool.Connect | src/app/database.py:14-20 | an acquired connection is a new open one and the count rises by one; exhaustion changes nothing |
| ConnectionPool.Close | src/app/database.py:39-42 | the first close releases the slot and marks the connection closed; later closes change nothing; other connections are untouched |
| ConnectionPool.Exit | src/app/database.py:44-48 | leaving a `with` block marks the connection closed and releases its slot iff it was still open |
| ConnectionPool.Execute | src/app/database.py:33-37 | every query succeeds with no rows |
| ConnectionPool.ConnectionsPreserveValid | src/app/database.py:14-42 | acquiring and closing keep the count equal to the number of open connections and within the capacity |
| ConnectionPool.CloseIdempotent | src/app/database.py:39-42 | closing twice is closing once |
| ConnectionPool.FirstCloseReleasesOne | src/app/database.py:22-42 | in a consistent pool the first close lowers the count by exactly one; the floor at zero is never hit |
| ConnectionPool.RunPreservesValid | src/app/database.py:14-48 | under any sequence of connect, close, exit and execute, the count stays within bounds and equals the number of open connections |
| ConnectionPool.AcquireReleaseScenario | tests/test_database.py:4-17 | with a pool of 2 plus 1 overflow, the counts go 1, 2, 1, 0 |
| ConnectionPool.ExhaustionScenario | tests/test_database.py:19-28 | with a pool of 1 and no overflow, a second acquire raises the exhaustion error and changes nothing |

## Left out

- **HTTP, model and embedding calls, the vector index, the clock.** All
  I/O goes through parameters: HTTP replies, LangChain/Ollama model calls,
  embedding calls, the LanceDB table and its distance, and the clock. The
  model checks no timeout or retry behaviour beyond "a failing call is a
  `Failure`".
- **Index ties and the `_distance` column.** LanceDB's tie-breaking is
  modelled as stable: equal distances keep insertion order. The
  `_distance` column that `to_pandas` adds is not part of the returned
  records.
- **Floating-point numbers.** `float()` parsing and `:.4f` formatting are
  parameters. Floats are carried along, never computed with.
- **Unicode case mapping and `isdigit`.** `upper`, `lower` and `isdigit`
  are modelled on ASCII only. Non-ASCII letters and digits are left as
  they are.
- **Logging.** Every logging call, `_log_new_alert`, `_log_resolved_alert`
  and `_print_summary` only write logs. `Check` reports what it would log
  as a `Tick`.
- **The monitor's run loop.** The `start` loop, `time.sleep` and
  KeyboardInterrupt handling are not modelled. The monitor's `main` is not
  modelled either. One check is `Monitor.Check`, and repeated checks are
  its iteration.
- **The pool's lock and the metrics gauge.** The lock only serialises
  acquire and release, so operations are applied one after another. The
  `db_connection_pool_usage` gauge is a write-only side effect.
- ConnectionPool.Execute: the deliberate delay of queries containing
  "ORDER" when bugs are enabled is only a delay, so it is not modelled.
  `Config` is not read.
- **Prompt wording and format instructions.** The wording of the prompt
  templates and the parser's format instructions are not modelled. The
  prompt is modelled as the record of values filled into it.
- **The triage context text.** The `str()` rendering of a triage report in
  `propose_fix` is the opaque `triageText` string.
- **Field-by-field shape of RAG records.** Each record's `alert_name`,
  `root_cause` and `fix` are read as strings.
- **`investigated_at` and similar timestamps.** These come from the clock
  parameter.
- **Malformed Prometheus samples.** A sample lacking `value`, `metric` or
  `values`, or a `labels`/`annotations` key missing from an alert, would
  raise `KeyError`. The model's records always carry these keys, with
  `labels` possibly empty; the only missing key it models is the
  `alertname` label.
- **Listing the tables.** `table_names()` is taken to always succeed. A
  failing listing, which would raise before any embedding, is not
  modelled; `_init_table` has no observable effect and is left out too.
- Prometheus.RangeRequest: `start` defaults to exactly 3600 seconds before
  `end`. The code subtracts one wall-clock hour from a naive
  `datetime.now()` and converts both with `.timestamp()`, which reads them
  as local time. Across a daylight-saving change the two therefore lie 0 or
  7200 seconds apart; the model does not follow the time zone.
- Triage.TimeSeriesRequest: the window is taken from the clock's epoch
  reading. In the code that reading is `datetime.utcnow()`, a naive time
  that `.timestamp()` reads as local time. On a host not on UTC the window
  is therefore shifted by the UTC offset. Across a daylight-saving change,
  start and end get different offsets and lie 900 ± 3600 seconds apart.
  The model does not follow the time zone and always gives exactly 900.
- Triage.FloatError: the message wraps the text in single quotes as it is.
  Python's `repr` switches to double quotes when the text holds a single
  quote and escapes backslashes and control characters; that is not
  modelled.
- **A negative `limit` in `search_similar`.** It is not modelled. The
  limit is a natural number, and the pipeline always passes 3.
- **`RemediationPlan` field validation by pydantic.** The JSON output
  parser does not check enum values, so the model does not either. Strict
  parsing is the `parseAnswer` parameter.
- **The demo scripts, routes and the rest of the application.** These are
  outside the pipeline modelled here.
