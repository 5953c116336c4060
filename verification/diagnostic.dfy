/** The diagnostic agent: turns a triage report into a prompt, asks the
    language model for a root-cause analysis, parses the answer, and feeds
    confident diagnoses back into the incident knowledge base.

    The model, the embedding model, the vector store's errors, the vector
    distance and `:.4f` printing are the fields of a `Services` value.  The knowledge base is threaded
    through explicitly: `Diagnose` takes the store (or `None` when it could
    not be opened) and returns the store as it is afterwards.
 */
module Diagnostic {
  import opened Wrappers
  import opened Text
  import opened Dicts
  import opened Prometheus
  import opened Triage
  import opened Knowledge
  import DP = DiagnosisParser

  // Formatting the metrics for the prompt.

  const NoMetrics := "No metrics available"

  /** At most this many elements of a list-valued metric are printed. */
  const ShownItems := 5

  const ItemIndent := "    " + [DP.Bullet] + " "

  /** The line printed for one element of a list-valued metric: its
      "endpoint" label ("N/A" when absent) and its value (0 when absent);
      elements that are not dicts print nothing. */
  function ItemLine(it: Item, fmt: Formatter): (line: Option<string>)
    ensures it.OtherItem? ==> line == None
    ensures it.Sample? ==>
      line == Some(ItemIndent + LabelOr(it.labels, "endpoint", "N/A") + ": " + fmt(it.value.GetOr(Finite(0.0))))
  {
    match it
    case Sample(v, labels) => Some(ItemIndent + LabelOr(labels, "endpoint", "N/A") + ": " + fmt(v.GetOr(Finite(0.0))))
    case OtherItem => None
  }

  /** The item lines of a list, one per dict element, in order. */
  function ItemLines(items: seq<Item>, fmt: Formatter): (lines: seq<string>)
    ensures |lines| <= |items|
    ensures lines == [] <==> forall k :: 0 <= k < |items| ==> items[k].OtherItem?
    ensures |items| == 1 ==> lines == (if items[0].Sample? then [ItemLine(items[0], fmt).value] else [])
    decreases |items|
  {
    if |items| == 0 then []
    else
      var rest := ItemLines(items[1..], fmt);
      assert forall k :: 1 <= k < |items| ==> items[k] == items[1..][k - 1];
      match ItemLine(items[0], fmt)
      case Some(line) => [line] + rest
      case None => rest
  }

  /** The item lines of a list are those of its first part followed by those
      of the rest: every dict element is printed, in order. */
  lemma {:induction false} ItemLinesConcat(a: seq<Item>, b: seq<Item>, fmt: Formatter)
    ensures ItemLines(a + b, fmt) == ItemLines(a, fmt) + ItemLines(b, fmt)
    decreases |a|
  {
    if |a| == 0 {
      assert a + b == b;
    } else {
      assert (a + b)[0] == a[0];
      assert (a + b)[1..] == a[1..] + b;
      ItemLinesConcat(a[1..], b, fmt);
    }
  }

  /** The line that stands for the elements beyond the first five. */
  function MoreLine(hidden: nat): string {
    ItemIndent + "... and " + NatToString(hidden) + " more"
  }

  /** The lines one metric contributes: a failed query prints its error,
      a single reading its value, and a list a heading followed by its
      first five elements and, when there are more, a count of the rest. */
  function EntryLines(name: string, e: Entry, fmt: Formatter): (lines: seq<string>)
    ensures lines != [] <==> Reportable(e)
    ensures lines != [] ==> StartsWith(lines[0], "- " + name + ":")
    ensures e.Failed? ==> lines == ["- " + name + ": ERROR - " + e.error]
    ensures e.Reading? ==> lines == ["- " + name + ": " + fmt(e.value)]
    ensures e.Readings? ==>
      var shown := if |e.items| <= ShownItems then e.items else e.items[..ShownItems];
      && lines[0] == "- " + name + ":"
      && |lines| == 1 + |ItemLines(shown, fmt)| + (if |e.items| > ShownItems then 1 else 0)
      && |lines| <= 2 + ShownItems
      && lines[1..1 + |ItemLines(shown, fmt)|] == ItemLines(shown, fmt)
      && (|e.items| > ShownItems ==> lines[|lines| - 1] == MoreLine(|e.items| - ShownItems))
  {
    match e
    case Failed(msg) =>
      assert ("- " + name + ": ERROR - " + msg)[..|"- " + name + ":"|] == "- " + name + ":";
      ["- " + name + ": ERROR - " + msg]
    case Reading(v, _) =>
      assert ("- " + name + ": " + fmt(v))[..|"- " + name + ":"|] == "- " + name + ":";
      ["- " + name + ": " + fmt(v)]
    case Readings(items) =>
      var shown := if |items| <= ShownItems then items else items[..ShownItems];
      var more := if |items| > ShownItems then [MoreLine(|items| - ShownItems)] else [];
      var lines := ["- " + name + ":"] + ItemLines(shown, fmt) + more;
      assert lines[1..1 + |ItemLines(shown, fmt)|] == ItemLines(shown, fmt);
      lines
    case _ => []
  }

  /** The lines of all metrics, in the order of the metrics map. */
  function MetricLines(metrics: Metrics, fmt: Formatter): (lines: seq<string>)
    ensures lines == [] <==> forall i :: 0 <= i < |metrics| ==> !Reportable(metrics[i].1)
    ensures lines != [] ==> |lines[0]| > 0 && lines[0][0] == '-'
    ensures |metrics| == 1 ==> lines == EntryLines(metrics[0].0, metrics[0].1, fmt)
    decreases |metrics|
  {
    if |metrics| == 0 then []
    else
      assert forall i :: 1 <= i < |metrics| ==> metrics[i] == metrics[1..][i - 1];
      EntryLines(metrics[0].0, metrics[0].1, fmt) + MetricLines(metrics[1..], fmt)
  }

  /** The lines of a map are those of its first part followed by those of the
      rest: every printable metric is printed, in map order. */
  lemma {:induction false} MetricLinesConcat(a: Metrics, b: Metrics, fmt: Formatter)
    ensures MetricLines(a + b, fmt) == MetricLines(a, fmt) + MetricLines(b, fmt)
    decreases |a|
  {
    if |a| == 0 {
      assert a + b == b;
    } else {
      assert (a + b)[0] == a[0];
      assert (a + b)[1..] == a[1..] + b;
      MetricLinesConcat(a[1..], b, fmt);
    }
  }

  lemma JoinStartsWithFirst(parts: seq<string>, sep: char)
    requires parts != [] && parts[0] != []
    ensures |Join(parts, sep)| > 0 && Join(parts, sep)[0] == parts[0][0]
  {
  }

  /** `_format_metrics`: the metric lines joined by newlines, or "No metrics
      available" exactly when no metric produced a line. */
  function FormatMetrics(metrics: Metrics, fmt: Formatter): (s: string)
    ensures s == NoMetrics <==> forall i :: 0 <= i < |metrics| ==> !Reportable(metrics[i].1)
    ensures s != NoMetrics ==> s == Join(MetricLines(metrics, fmt), '\n')
  {
    var lines := MetricLines(metrics, fmt);
    if lines == [] then NoMetrics
    else
      JoinStartsWithFirst(lines, '\n');
      assert NoMetrics[0] == 'N';
      Join(lines, '\n')
  }

  /** The prompt lists no metrics exactly when the triage summary is its
      header alone: both report the same kinds of entries. */
  lemma PromptAndSummaryAgree(alertName: string, metrics: Metrics, fmt: Formatter)
    ensures FormatMetrics(metrics, fmt) == NoMetrics <==> GenerateSummary(alertName, metrics, fmt) == SummaryHeader(alertName)
  {
  }

  /** Metric by metric, the prompt and the triage summary print the same
      entries. */
  lemma SameEntriesReported(name: string, e: Entry, fmt: Formatter)
    ensures EntryLines(name, e, fmt) != [] <==> SummaryLine(name, e, fmt).Some?
  {
  }

  // Similar past incidents.

  const NoSimilarIncidents := "No similar past incidents found."
  const SimilarHeader := "Found similar past incidents:\n"

  /** The paragraph for the `i`-th similar incident, counting from 1. */
  function IncidentParagraph(i: nat, rec: Record): string {
    NatToString(i) + ". Alert: " + rec.alertName + "\n   Root Cause: " + rec.rootCause + "\n   Fix: " + rec.fix + "\n"
  }

  /** The paragraphs of `recs`, numbered from 1. */
  function IncidentParagraphs(recs: seq<Record>): string
    decreases |recs|
  {
    if |recs| == 0 then ""
    else IncidentParagraphs(recs[..|recs| - 1]) + IncidentParagraph(|recs|, recs[|recs| - 1])
  }

  /** The RAG context of the prompt: the fixed sentence when nothing similar
      was found, otherwise the header followed by one numbered paragraph per
      incident. */
  function RagContext(recs: seq<Record>): (s: string)
    ensures recs == [] <==> s == NoSimilarIncidents
    ensures recs != [] ==> StartsWith(s, SimilarHeader)
    ensures |recs| == 1 ==> s == SimilarHeader + IncidentParagraph(1, recs[0])
  {
    if recs == [] then NoSimilarIncidents
    else
      var s := SimilarHeader + IncidentParagraphs(recs);
      assert |recs| == 1 ==> IncidentParagraphs(recs) == IncidentParagraph(1, recs[0]) by {
        if |recs| == 1 {
          assert recs[..|recs| - 1] == [];
          assert IncidentParagraphs(recs) == "" + IncidentParagraph(1, recs[0]);
        }
      }
      assert s[..|SimilarHeader|] == SimilarHeader;
      assert s[0] != NoSimilarIncidents[0];
      s
  }

  /** One more incident adds one more paragraph, numbered after the others. */
  lemma RagContextAppends(recs: seq<Record>, rec: Record)
    requires recs != []
    ensures RagContext(recs + [rec]) == RagContext(recs) + IncidentParagraph(|recs| + 1, rec)
  {
    var all := recs + [rec];
    assert all[..|all| - 1] == recs;
    var a, b := IncidentParagraphs(recs), IncidentParagraph(|recs| + 1, rec);
    assert IncidentParagraphs(all) == a + b;
    assert SimilarHeader + (a + b) == SimilarHeader + a + b;
  }

  // The diagnosis.

  /** The `alert_info` dict handed to `diagnose`; `None` for a missing key. */
  datatype AlertView = AlertView(
    name: Option<string>, severity: Option<string>, summary: Option<string>,
    description: Option<string>, startedAt: Option<string>)

  /** The values filled into the prompt template. */
  datatype Prompt = Prompt(
    alertName: string, severity: string, summary: string, description: string,
    startedAt: string, metricsSummary: string, ragContext: string)

  datatype Services = Services(
    fmt: Formatter,
    embed: Embedder,
    db: Database,
    distance: Distance,
    llm: Prompt -> Result<string, string>,
    model: string)

  /** The result dict of `diagnose`: a parsed diagnosis, or the error
      record whose confidence is "none". */
  datatype Diagnosis =
    | Diagnosed(
        alertName: string, diagnosis: string, evidence: string, recommendations: seq<string>,
        confidence: DP.Grade, rawResponse: string, modelUsed: string, ragContextUsed: bool)
    | DiagnosisError(alertName: string, error: string)

  const ErrorDiagnosis := "Error occurred during AI analysis"

  /** The "diagnosis" and "confidence" entries of a result. */
  function DiagnosisText(d: Diagnosis): string {
    match d
    case Diagnosed(_, text, _, _, _, _, _, _) => text
    case DiagnosisError(_, _) => ErrorDiagnosis
  }

  function ConfidenceText(d: Diagnosis): (s: string)
    ensures s == "none" <==> d.DiagnosisError?
  {
    match d
    case DiagnosisError(_, _) => "none"
    case Diagnosed(_, _, _, _, g, _, _, _) =>
      match g
      case High => "high"
      case Medium => "medium"
      case Low => "low"
  }

  const RagLimit := 3

  /** The knowledge-base search and its outcome: the context for the prompt
      and whether similar incidents were found. */
  datatype Retrieval = Retrieval(context: string, used: bool)

  function Retrieve(kb: Option<Store>, alertName: string, metricsSummary: string, svc: Services): (r: Retrieval)
    ensures r.used <==>
      && kb.Some?
      && SearchSimilar(kb.value, alertName, metricsSummary, RagLimit, svc.embed, svc.db, svc.distance).Success?
      && SearchSimilar(kb.value, alertName, metricsSummary, RagLimit, svc.embed, svc.db, svc.distance).value != []
    ensures !r.used ==> r.context == NoSimilarIncidents
    ensures r.used ==> r.context == RagContext(SearchSimilar(kb.value, alertName, metricsSummary, RagLimit, svc.embed, svc.db, svc.distance).value)
  {
    match kb
    case None => Retrieval(NoSimilarIncidents, false)
    case Some(store) =>
      match SearchSimilar(store, alertName, metricsSummary, RagLimit, svc.embed, svc.db, svc.distance)
      case Failure(_) => Retrieval(NoSimilarIncidents, false)
      case Success(recs) => Retrieval(RagContext(recs), recs != [])
  }

  /** The prompt, with the defaults for missing alert fields. */
  function PromptFor(view: AlertView, metricsSummary: string, ragContext: string): (p: Prompt)
    ensures p.alertName == view.name.GetOr("Unknown")
    ensures p.severity == view.severity.GetOr("Unknown")
    ensures p.summary == view.summary.GetOr("No summary available")
    ensures p.description == view.description.GetOr("No description available")
    ensures p.startedAt == view.startedAt.GetOr("Unknown")
    ensures p.metricsSummary == metricsSummary && p.ragContext == ragContext
  {
    Prompt(
      view.name.GetOr("Unknown"), view.severity.GetOr("Unknown"), view.summary.GetOr("No summary available"),
      view.description.GetOr("No description available"), view.startedAt.GetOr("Unknown"),
      metricsSummary, ragContext)
  }

  /** The "fix" stored with a learned incident: the first recommendation,
      "Investigate" when there is none. */
  function FixOf(recommendations: seq<string>): string {
    if recommendations != [] then recommendations[0] else "Investigate"
  }

  /** Saving a diagnosis: only a high-confidence diagnosis is stored, only
      when the knowledge base is available, and a failing save leaves the
      store as it was. */
  function Learn(kb: Option<Store>, alertName: string, parsed: DP.Parsed, svc: Services, now: string): (after: Option<Store>)
    ensures after.Some? <==> kb.Some?
    ensures kb.Some? ==> Extends(kb.value, after.value) && RecordCount(after.value) <= RecordCount(kb.value) + 1
    ensures after != kb <==>
      && kb.Some? && parsed.confidence == DP.High
      && AddIncident(kb.value, alertName, parsed.rootCause, parsed.rootCause, FixOf(parsed.recommendations), svc.embed, svc.db, now).Success?
    ensures after != kb ==>
      after == Some(AddIncident(kb.value, alertName, parsed.rootCause, parsed.rootCause, FixOf(parsed.recommendations), svc.embed, svc.db, now).value)
  {
    if kb.Some? && parsed.confidence == DP.High then
      match AddIncident(kb.value, alertName, parsed.rootCause, parsed.rootCause, FixOf(parsed.recommendations), svc.embed, svc.db, now)
      case Success(store) =>
        assert RecordCount(store) != RecordCount(kb.value);
        Some(store)
      case Failure(_) => kb
    else kb
  }

  /** `diagnose`: one alert, one model call.  Returns the result dict and
      the knowledge base afterwards. */
  function Diagnose(view: AlertView, metrics: Metrics, kb: Option<Store>, svc: Services, now: string): (r: (Diagnosis, Option<Store>))
    ensures r.0.alertName == view.name.GetOr("Unknown")
    ensures r.0.DiagnosisError? ==> r.1 == kb
    ensures r.1.Some? <==> kb.Some?
    ensures kb.Some? ==> Extends(kb.value, r.1.value) && RecordCount(r.1.value) <= RecordCount(kb.value) + 1
    ensures r.1 != kb ==> r.0.Diagnosed? && r.0.confidence == DP.High
  {
    var name := view.name.GetOr("Unknown");
    var summary := FormatMetrics(metrics, svc.fmt);
    var retrieval := Retrieve(kb, name, summary, svc);
    match svc.llm(PromptFor(view, summary, retrieval.context))
    case Failure(e) => (DiagnosisError(name, e), kb)
    case Success(answer) =>
      var parsed := DP.ParseDiagnosis(answer);
      var d := Diagnosed(name, parsed.rootCause, parsed.evidence, parsed.recommendations,
                         parsed.confidence, answer, svc.model, retrieval.used);
      (d, Learn(kb, name, parsed, svc, now))
  }

  /** The model is asked once, with the metrics summary and the retrieved
      incidents in the prompt: its failure is the diagnosis error, and its
      answer is kept as the raw response. */
  lemma DiagnosisOutcome(view: AlertView, metrics: Metrics, kb: Option<Store>, svc: Services, now: string)
    ensures var r := Diagnose(view, metrics, kb, svc, now);
      var summary := FormatMetrics(metrics, svc.fmt);
      var retrieval := Retrieve(kb, view.name.GetOr("Unknown"), summary, svc);
      var answer := svc.llm(PromptFor(view, summary, retrieval.context));
      && (r.0.DiagnosisError? <==> answer.Failure?)
      && (answer.Failure? ==> r.0.error == answer.error && r.1 == kb)
      && (answer.Success? ==> r.0.rawResponse == answer.value && r.0.ragContextUsed == retrieval.used)
  {
  }

  /** A successful diagnosis reports the parsed answer: its root cause as
      the diagnosis, its evidence, recommendations and confidence, and the
      store afterwards is what saving that parse gives. */
  lemma DiagnosisFromAnswer(view: AlertView, metrics: Metrics, kb: Option<Store>, svc: Services, now: string)
    ensures var r := Diagnose(view, metrics, kb, svc, now);
      r.0.Diagnosed? ==>
        var parsed := DP.ParseDiagnosis(r.0.rawResponse);
        && r.0.diagnosis == parsed.rootCause
        && r.0.evidence == parsed.evidence
        && r.0.recommendations == parsed.recommendations
        && r.0.confidence == parsed.confidence
        && r.0.modelUsed == svc.model
        && r.1 == Learn(kb, view.name.GetOr("Unknown"), parsed, svc, now)
  {
  }

  /** A diagnosis that is stored is stored under the alert's name, with the
      diagnosed root cause as both its diagnosis and its root cause. */
  lemma StoredIncidentMatchesDiagnosis(view: AlertView, metrics: Metrics, store: Store, svc: Services, now: string)
    ensures var (d, after) := Diagnose(view, metrics, Some(store), svc, now);
      after != Some(store) ==>
        && after.Some? && RecordCount(after.value) == RecordCount(store) + 1
        && var rec := after.value.table.value[RecordCount(store)];
          && rec.alertName == d.alertName
          && rec.rootCause == d.diagnosis && rec.diagnosis == d.diagnosis
          && rec.fix == FixOf(d.recommendations)
          && rec.timestamp == now
  {
  }

  // The batch.

  /** The `alert_info` of an investigation: all fields of a report, only
      the name of a failed one. */
  function ViewOf(inv: Investigation): (v: AlertView)
    ensures v.name == Some(NameOf(inv))
  {
    match inv
    case Investigated(report) =>
      var info := report.alertInfo;
      AlertView(Some(info.name), Some(info.severity), Some(info.summary), Some(info.description), Some(info.startedAt))
    case InvestigationFailed(name, _) => AlertView(Some(name), None, None, None, None)
  }

  /** The alert name an investigation carries, failed or not. */
  function NameOf(inv: Investigation): string {
    match inv
    case Investigated(report) => report.alertInfo.name
    case InvestigationFailed(name, _) => name
  }

  /** The metrics of an investigation; a failed one has none. */
  function MetricsOf(inv: Investigation): Metrics {
    match inv
    case Investigated(report) => report.metrics
    case InvestigationFailed(_, _) => []
  }

  lemma ExtendsOptional(a: Option<Store>, b: Option<Store>, c: Option<Store>)
    requires a.Some? ==> b.Some? && Extends(a.value, b.value)
    requires b.Some? ==> c.Some? && Extends(b.value, c.value)
    ensures a.Some? ==> c.Some? && Extends(a.value, c.value)
  {
    if a.Some? {
      ExtendsTransitive(a.value, b.value, c.value);
    }
  }

  /** A diagnosis the knowledge base learns from. */
  predicate IsHigh(d: Diagnosis) {
    d.Diagnosed? && d.confidence == DP.High
  }

  /** The number of high-confidence diagnoses. */
  function HighCount(ds: seq<Diagnosis>): (n: nat)
    ensures n <= |ds|
    decreases |ds|
  {
    if |ds| == 0 then 0
    else HighCount(ds[..|ds| - 1]) + (if IsHigh(ds[|ds| - 1]) then 1 else 0)
  }

  /** One turn of the batch loop: the `i`-th investigation diagnosed
      against the knowledge base as it stands. */
  type Step = (nat, Investigation, Option<Store>) -> (Diagnosis, Option<Store>)

  /** The loop of `diagnose_multiple`, for any per-alert step: each
      investigation in order, each step seeing the store the previous one
      left. */
  function Batch(invs: seq<Investigation>, kb: Option<Store>, step: Step): (r: (seq<Diagnosis>, Option<Store>))
    ensures |r.0| == |invs|
    decreases |invs|
  {
    if |invs| == 0 then ([], kb)
    else
      var n := |invs| - 1;
      var front := Batch(invs[..n], kb, step);
      var last := step(n, invs[n], front.1);
      (front.0 + [last.0], last.1)
  }

  /** What a single diagnosis guarantees: it is named after its alert, and
      the store keeps its presence, only grows, and grows by a record only
      for a high-confidence diagnosis. */
  ghost predicate SoundStep(step: Step) {
    forall i, inv, kb ::
      && step(i, inv, kb).0.alertName == NameOf(inv)
      && (step(i, inv, kb).1.Some? <==> kb.Some?)
      && (kb.Some? ==>
            && Extends(kb.value, step(i, inv, kb).1.value)
            && RecordCount(step(i, inv, kb).1.value) <= RecordCount(kb.value) + (if IsHigh(step(i, inv, kb).0) then 1 else 0))
  }

  /** The step `diagnose_multiple` takes: `diagnose` at clock reading `clock(i)`. */
  function DiagnoseStep(svc: Services, clock: nat -> string): Step {
    (i: nat, inv: Investigation, kb: Option<Store>) => Diagnose(ViewOf(inv), MetricsOf(inv), kb, svc, clock(i))
  }

  lemma DiagnoseStepSound(svc: Services, clock: nat -> string)
    ensures SoundStep(DiagnoseStep(svc, clock))
  {
    var step := DiagnoseStep(svc, clock);
    forall i, inv, kb
      ensures step(i, inv, kb).0.alertName == NameOf(inv)
      ensures step(i, inv, kb).1.Some? <==> kb.Some?
      ensures kb.Some? ==>
        && Extends(kb.value, step(i, inv, kb).1.value)
        && RecordCount(step(i, inv, kb).1.value) <= RecordCount(kb.value) + (if IsHigh(step(i, inv, kb).0) then 1 else 0)
    {
      var r := Diagnose(ViewOf(inv), MetricsOf(inv), kb, svc, clock(i));
      assert step(i, inv, kb) == r;
      if kb.Some? && r.1 == kb {
        assert Extends(kb.value, kb.value);
      }
    }
  }

  /** Every diagnosis of a batch is named after its own investigation's
      alert, failed investigations included. */
  lemma {:induction false} BatchNames(invs: seq<Investigation>, kb: Option<Store>, step: Step)
    requires SoundStep(step)
    ensures forall i :: 0 <= i < |invs| ==> Batch(invs, kb, step).0[i].alertName == NameOf(invs[i])
    decreases |invs|
  {
    if |invs| > 0 {
      var n := |invs| - 1;
      BatchNames(invs[..n], kb, step);
      var front := Batch(invs[..n], kb, step);
      var ds := Batch(invs, kb, step).0;
      assert ds == front.0 + [step(n, invs[n], front.1).0];
      forall i | 0 <= i < n ensures ds[i].alertName == NameOf(invs[i]) {
        assert ds[i] == front.0[i];
        assert invs[..n][i] == invs[i];
      }
    }
  }

  /** Over a batch the store keeps its presence, only grows, and grows by
      at most one record per high-confidence diagnosis. */
  lemma {:induction false} BatchGrows(invs: seq<Investigation>, kb: Option<Store>, step: Step)
    requires SoundStep(step)
    ensures var r := Batch(invs, kb, step);
      && (r.1.Some? <==> kb.Some?)
      && (kb.Some? ==> Extends(kb.value, r.1.value) && RecordCount(r.1.value) <= RecordCount(kb.value) + HighCount(r.0))
    decreases |invs|
  {
    if |invs| > 0 {
      var n := |invs| - 1;
      BatchGrows(invs[..n], kb, step);
      var front := Batch(invs[..n], kb, step);
      var last := step(n, invs[n], front.1);
      var r := Batch(invs, kb, step);
      assert r == (front.0 + [last.0], last.1);
      assert r.0[..n] == front.0;
      ExtendsOptional(kb, front.1, last.1);
    }
  }

  /** Without a store every step stands alone: the batch is the single
      steps side by side. */
  lemma {:induction false} BatchWithoutStore(invs: seq<Investigation>, step: Step)
    requires forall i, inv :: step(i, inv, None).1 == None
    ensures Batch(invs, None, step).1 == None
    ensures forall i :: 0 <= i < |invs| ==> Batch(invs, None, step).0[i] == step(i, invs[i], None).0
    decreases |invs|
  {
    if |invs| > 0 {
      var n := |invs| - 1;
      BatchWithoutStore(invs[..n], step);
      var front := Batch(invs[..n], None, step);
      var ds := Batch(invs, None, step).0;
      assert ds == front.0 + [step(n, invs[n], None).0];
      forall i | 0 <= i < n ensures ds[i] == step(i, invs[i], None).0 {
        assert ds[i] == front.0[i];
        assert invs[..n][i] == invs[i];
      }
    }
  }

  /** `diagnose_multiple`: the investigations diagnosed in order, the `i`-th
      at time `clock(i)`, each seeing the knowledge base as the previous ones
      left it.  Each diagnosis carries its alert's name, and the store only
      grows, by at most one record per high-confidence diagnosis. */
  function DiagnoseMultiple(invs: seq<Investigation>, kb: Option<Store>, svc: Services, clock: nat -> string): (r: (seq<Diagnosis>, Option<Store>))
    ensures |r.0| == |invs|
    ensures forall i :: 0 <= i < |invs| ==> r.0[i].alertName == NameOf(invs[i])
    ensures r.1.Some? <==> kb.Some?
    ensures kb.Some? ==> Extends(kb.value, r.1.value) && RecordCount(r.1.value) <= RecordCount(kb.value) + HighCount(r.0)
  {
    DiagnoseStepSound(svc, clock);
    BatchNames(invs, kb, DiagnoseStep(svc, clock));
    BatchGrows(invs, kb, DiagnoseStep(svc, clock));
    Batch(invs, kb, DiagnoseStep(svc, clock))
  }

  /** Without a knowledge base every investigation is diagnosed on its own:
      the batch is the single diagnoses side by side. */
  lemma BatchWithoutKnowledgeBase(invs: seq<Investigation>, svc: Services, clock: nat -> string)
    ensures DiagnoseMultiple(invs, None, svc, clock).1.None?
    ensures forall i :: 0 <= i < |invs| ==>
      DiagnoseMultiple(invs, None, svc, clock).0[i] == Diagnose(ViewOf(invs[i]), MetricsOf(invs[i]), None, svc, clock(i)).0
  {
    var step := DiagnoseStep(svc, clock);
    forall i, inv ensures step(i, inv, None).1 == None {
      assert step(i, inv, None) == Diagnose(ViewOf(inv), MetricsOf(inv), None, svc, clock(i));
    }
    BatchWithoutStore(invs, step);
  }

  /** A failed investigation is diagnosed from its alert name alone: every
      other prompt field takes its default, and the metrics read "No metrics
      available". */
  lemma FailedInvestigationPrompt(name: string, error: string, kb: Option<Store>, svc: Services)
    ensures var inv := InvestigationFailed(name, error);
      var summary := FormatMetrics(MetricsOf(inv), svc.fmt);
      && summary == NoMetrics
      && PromptFor(ViewOf(inv), summary, Retrieve(kb, name, summary, svc).context)
           == Prompt(name, "Unknown", "No summary available", "No description available", "Unknown",
                     NoMetrics, Retrieve(kb, name, summary, svc).context)
  {
  }
}
