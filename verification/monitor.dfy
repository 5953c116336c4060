/** The monitor agent's alert edge detector.  The agent's only state is the
    set of alert names it saw firing on the previous check; one check fetches
    the alerts, computes the names that started and stopped firing, and then
    replaces the tracked set.  Any exception during a check (a failed fetch,
    a firing alert without an "alertname" label, a failed lookup) skips the
    rest of the check, so the tracked set stays as it was.

    The polling loop, the sleeping between checks and the logging are not
    modelled; `Check` returns what the check would log as a `Tick`.
 */
module Monitor {
  import opened Wrappers
  import opened Prometheus

  /** The agent's state: the alert names firing at the last successful check. */
  datatype Tracker = Tracker(client: Client, checkInterval: int, firing: set<string>)

  /** `MonitorAgent.__init__`: nothing is tracked yet. */
  function NewTracker(prometheusUrl: string, checkInterval: int): (t: Tracker)
    ensures t.firing == {}
    ensures t.checkInterval == checkInterval
    ensures t.client.baseUrl == NewClient(prometheusUrl, 10).baseUrl
  {
    Tracker(NewClient(prometheusUrl, 10), checkInterval, {})
  }

  /** The set comprehension of `_check_alerts`: the "alertname" label of
      every firing alert; `None` when a firing alert has no such label and
      the comprehension raises `KeyError`.  Pending and inactive alerts are
      never read. */
  function FiringNames(alerts: seq<Alert>): (names: Option<set<string>>)
    ensures names.Some? <==> forall a :: a in alerts && IsFiring(a) ==> "alertname" in a.labels
    ensures names.Some? ==> forall n ::
      n in names.value <==> exists a :: a in alerts && IsFiring(a) && "alertname" in a.labels && a.labels["alertname"] == n
  {
    if forall a :: a in alerts && IsFiring(a) ==> "alertname" in a.labels then
      Some(set a | a in alerts && IsFiring(a) && "alertname" in a.labels :: a.labels["alertname"])
    else None
  }

  /** `_get_alert_by_name`: the first alert whose "alertname" label is
      `name` (`None` standing for the `{}` returned when there is none).
      The scan reads the label of every alert before the match, so an alert
      without the label ahead of the match raises `KeyError`. */
  function AlertByName(alerts: seq<Alert>, name: string): (r: Result<Option<Alert>, string>)
    ensures r.Success? && r.value.Some? ==> exists i ::
      && 0 <= i < |alerts| && alerts[i] == r.value.value
      && "alertname" in alerts[i].labels && alerts[i].labels["alertname"] == name
      && PassedOver(alerts, name, i)
    ensures r == Success(None) <==> PassedOver(alerts, name, |alerts|)
    ensures r.Failure? <==> exists i :: 0 <= i < |alerts| && "alertname" !in alerts[i].labels && PassedOver(alerts, name, i)
    ensures r.Failure? ==> r.error == MissingLabel
    decreases |alerts|
  {
    if |alerts| == 0 then Success(None)
    else if "alertname" !in alerts[0].labels then
      assert PassedOver(alerts, name, 0);
      Failure(MissingLabel)
    else if alerts[0].labels["alertname"] == name then
      assert PassedOver(alerts, name, 0);
      Success(Some(alerts[0]))
    else
      var r := AlertByName(alerts[1..], name);
      PassedOverShift(alerts, name);
      if r.Success? && r.value.Some? then
        var i :| 0 <= i < |alerts[1..]| && alerts[1..][i] == r.value.value
          && "alertname" in alerts[1..][i].labels && alerts[1..][i].labels["alertname"] == name
          && PassedOver(alerts[1..], name, i);
        assert alerts[i + 1] == r.value.value;
        r
      else if r.Failure? then
        var i :| 0 <= i < |alerts[1..]| && "alertname" !in alerts[1..][i].labels && PassedOver(alerts[1..], name, i);
        assert alerts[i + 1] == alerts[1..][i];
        r
      else r
  }

  /** `str(KeyError('alertname'))`. */
  const MissingLabel := "'alertname'"

  /** The scan got past the first `i` alerts: each carries the label, and
      none is the one looked for. */
  predicate PassedOver(alerts: seq<Alert>, name: string, i: int) {
    forall j :: 0 <= j < i && j < |alerts| ==> "alertname" in alerts[j].labels && alerts[j].labels["alertname"] != name
  }

  /** Past a first alert that carries another name, the scan of the rest
      gets past `i` alerts exactly when the whole scan gets past `i + 1`. */
  lemma PassedOverShift(alerts: seq<Alert>, name: string)
    requires |alerts| > 0 && "alertname" in alerts[0].labels && alerts[0].labels["alertname"] != name
    ensures forall i :: 0 <= i <= |alerts| - 1 ==> (PassedOver(alerts[1..], name, i) <==> PassedOver(alerts, name, i + 1))
  {
    forall i | 0 <= i <= |alerts| - 1
      ensures PassedOver(alerts[1..], name, i) <==> PassedOver(alerts, name, i + 1)
    {
      assert forall j :: 0 <= j < i ==> alerts[1..][j] == alerts[j + 1];
      if PassedOver(alerts[1..], name, i) {
        forall j | 0 <= j < i + 1 && j < |alerts|
          ensures "alertname" in alerts[j].labels && alerts[j].labels["alertname"] != name
        {
          if j > 0 { assert alerts[j] == alerts[1..][j - 1]; }
        }
      }
    }
  }

  /** What one check reports. */
  datatype Tick =
    | Skipped
    | Observed(newlyFiring: set<string>, resolved: set<string>, heartbeat: bool, firingCount: nat)

  datatype CheckResult = CheckResult(tracker: Tracker, tick: Tick)

  /** True when every newly firing name can be looked up without raising. */
  predicate LookupsSucceed(alerts: seq<Alert>, names: set<string>) {
    forall n :: n in names ==> AlertByName(alerts, n).Success?
  }

  /** `_check_alerts`, given the outcome of `get_alerts`, which is
      `GetAlerts(t.client, http)` for the backend `http`. */
  function Check(t: Tracker, fetched: Result<Option<seq<Alert>>, AlertsError>): (r: CheckResult)
    ensures r.tracker.client == t.client && r.tracker.checkInterval == t.checkInterval
    ensures r.tick.Skipped? ==> r.tracker == t
    ensures fetched.Failure? || fetched == Success(None) ==> r.tick.Skipped?
    ensures r.tick.Observed? ==>
      && fetched.Success? && fetched.value.Some?
      && FiringNames(fetched.value.value).Some?
      && var current := FiringNames(fetched.value.value).value;
      && LookupsSucceed(fetched.value.value, current - t.firing)
      && r.tracker.firing == current
      && r.tick.newlyFiring == current - t.firing
      && r.tick.resolved == t.firing - current
      && r.tick.firingCount == |current|
      && (r.tick.heartbeat <==> r.tick.newlyFiring == {} && r.tick.resolved == {})
  {
    match fetched
    case Failure(_) => CheckResult(t, Skipped)
    case Success(None) => CheckResult(t, Skipped)
    case Success(Some(alerts)) =>
      match FiringNames(alerts)
      case None => CheckResult(t, Skipped)
      case Some(current) =>
        var newAlerts := current - t.firing;
        var resolvedAlerts := t.firing - current;
        if !LookupsSucceed(alerts, newAlerts) then CheckResult(t, Skipped)
        else
          var heartbeat := newAlerts == {} && resolvedAlerts == {};
          CheckResult(t.(firing := current), Observed(newAlerts, resolvedAlerts, heartbeat, |current|))
  }

  /** Edges only: on an observed check a name is reported exactly when its
      firing membership changed, newly firing when it joined and resolved
      when it left, never both. */
  lemma ChangedIffReported(t: Tracker, fetched: Result<Option<seq<Alert>>, AlertsError>, n: string)
    requires Check(t, fetched).tick.Observed?
    ensures var r := Check(t, fetched);
      && (n in r.tick.newlyFiring <==> n !in t.firing && n in r.tracker.firing)
      && (n in r.tick.resolved <==> n in t.firing && n !in r.tracker.firing)
      && !(n in r.tick.newlyFiring && n in r.tick.resolved)
      && (n in r.tick.newlyFiring || n in r.tick.resolved <==> (n in t.firing) != (n in r.tracker.firing))
  {
  }

  /** A check whose fetched alerts have firing names and whose new names can
      be looked up is observed: the tracked set then becomes exactly the
      current firing names. */
  lemma CheckObservesWellFormedAlerts(t: Tracker, alerts: seq<Alert>)
    requires FiringNames(alerts).Some?
    requires LookupsSucceed(alerts, FiringNames(alerts).value - t.firing)
    ensures Check(t, Success(Some(alerts))).tick.Observed?
    ensures Check(t, Success(Some(alerts))).tracker.firing == FiringNames(alerts).value
  {
  }

  /** Every name of a firing alert with the label can be looked up when no
      alert lacks the label, so such alert lists are always observed. */
  lemma LabelledAlertsAlwaysObserved(t: Tracker, alerts: seq<Alert>)
    requires forall j :: 0 <= j < |alerts| ==> "alertname" in alerts[j].labels
    ensures Check(t, Success(Some(alerts))).tick.Observed?
  {
    forall n ensures AlertByName(alerts, n).Success? {
      LabelledLookupSucceeds(alerts, n);
    }
  }

  lemma {:induction false} LabelledLookupSucceeds(alerts: seq<Alert>, n: string)
    requires forall j :: 0 <= j < |alerts| ==> "alertname" in alerts[j].labels
    ensures AlertByName(alerts, n).Success?
    decreases |alerts|
  {
    if |alerts| > 0 && alerts[0].labels["alertname"] != n {
      assert forall j :: 0 <= j < |alerts[1..]| ==> alerts[1..][j] == alerts[j + 1];
      LabelledLookupSucceeds(alerts[1..], n);
    }
  }

  /** Checking the same alert list twice in a row: the second check is
      observed too, reports nothing new and nothing resolved, logs the
      heartbeat, and leaves the tracked set as the first check left it. */
  lemma CheckIdempotent(t: Tracker, fetched: Result<Option<seq<Alert>>, AlertsError>)
    requires Check(t, fetched).tick.Observed?
    ensures var t1 := Check(t, fetched).tracker;
      var r2 := Check(t1, fetched);
      && r2.tick == Observed({}, {}, true, |t1.firing|)
      && r2.tracker == t1
  {
    var t1 := Check(t, fetched).tracker;
    assert FiringNames(fetched.value.value).value - t1.firing == {};
  }

  /** The example run: nothing, then "HighErrorRate" firing on two checks,
      then nothing — reported as new on the second check, silent on the
      third, resolved on the fourth. */
  lemma HighErrorRateScenario(client: Client, interval: int, labels: Labels)
    requires labels == map["alertname" := "HighErrorRate"]
    ensures
      var firing := Alert(Some(FiringState), labels, map[], None, None);
      var t0 := Tracker(client, interval, {});
      var r1 := Check(t0, Success(Some([])));
      var r2 := Check(r1.tracker, Success(Some([firing])));
      var r3 := Check(r2.tracker, Success(Some([firing])));
      var r4 := Check(r3.tracker, Success(Some([])));
      && r1.tick == Observed({}, {}, true, 0)
      && r2.tick == Observed({"HighErrorRate"}, {}, false, 1)
      && r3.tick == Observed({}, {}, true, 1)
      && r4.tick == Observed({}, {"HighErrorRate"}, false, 0)
      && r4.tracker.firing == {}
  {
    var firing := Alert(Some(FiringState), labels, map[], None, None);
    var none: seq<Alert> := [];
    var n0 := FiringNames(none);
    assert n0.Some?;
    assert n0.value == {};
    var n1 := FiringNames([firing]);
    assert n1.Some?;
    assert "HighErrorRate" in n1.value by {
      assert firing in [firing] && IsFiring(firing);
    }
    assert n1.value == {"HighErrorRate"};
    assert AlertByName([firing], "HighErrorRate") == Success(Some(firing));
    assert LookupsSucceed([firing], {"HighErrorRate"});
  }
}
