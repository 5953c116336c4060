/** The remediation agent: asks the language model for a remediation plan
    as JSON and falls back step by step when the answer does not parse.

    The answer is first given to the JSON output parser (`parseAnswer`); the
    result is returned if it is a JSON object.  Otherwise the first fenced
    block opened by "```json" and a line break and closed by a line break and
    "```" is decoded with the JSON decoder (`decode`), and whatever it
    decodes to is returned.  Otherwise, and whenever the model call fails,
    the fixed manual-step plan is returned, so a proposal always exists.
 */
module Remediation {
  import opened Wrappers
  import opened Text

  datatype Json =
    | JNull
    | JBool(b: bool)
    | JNumber(n: real)
    | JString(s: string)
    | JArray(items: seq<Json>)
    | JObject(members: seq<(string, Json)>)

  /** Member `i` has `key` and no later member does. */
  predicate LastWithKey(members: seq<(string, Json)>, key: string, i: int) {
    0 <= i < |members| && members[i].0 == key && forall k :: i < k < |members| ==> members[k].0 != key
  }

  /** The value of `key` in a decoded object.  The decoder builds a dict,
      so of several members with the same key the last one wins. */
  function Member(members: seq<(string, Json)>, key: string): (r: Option<Json>)
    ensures r.Some? <==> exists i :: 0 <= i < |members| && members[i].0 == key
    decreases |members|
  {
    if |members| == 0 then None
    else
      var n := |members| - 1;
      if members[n].0 == key then Some(members[n].1)
      else
        var r := Member(members[..n], key);
        assert forall i :: 0 <= i < n ==> members[i] == members[..n][i];
        r
  }

  /** The value found is that of the last member with the key. */
  lemma {:induction false} MemberIsLast(members: seq<(string, Json)>, key: string)
    ensures Member(members, key).Some? ==>
      exists i :: LastWithKey(members, key, i) && members[i].1 == Member(members, key).value
    decreases |members|
  {
    if |members| > 0 {
      var n := |members| - 1;
      if members[n].0 == key {
        assert LastWithKey(members, key, n);
      } else {
        MemberIsLast(members[..n], key);
        if Member(members, key).Some? {
          var i :| LastWithKey(members[..n], key, i) && members[..n][i].1 == Member(members[..n], key).value;
          assert LastWithKey(members, key, i);
        }
      }
    }
  }

  function StringMember(members: seq<(string, Json)>, key: string): Option<string> {
    match Member(members, key)
    case Some(JString(s)) => Some(s)
    case _ => None
  }

  /** A remediation plan.  `actionType` is meant to be one of "code_change",
      "terminal_command", "manual_step", and `riskLevel` one of "low",
      "medium", "high"; the schema itself only asks for strings. */
  datatype RemediationPlan = RemediationPlan(
    actionType: string, description: string, content: string, filePath: string, riskLevel: string)

  /** The plan schema: an object whose "action_type", "description",
      "content" and "risk_level" are strings, with "file_path" an optional
      string defaulting to "". */
  function PlanOf(j: Json): (p: Option<RemediationPlan>)
    ensures p.Some? ==> j.JObject?
    ensures p.Some? ==>
      && StringMember(j.members, "action_type") == Some(p.value.actionType)
      && StringMember(j.members, "description") == Some(p.value.description)
      && StringMember(j.members, "content") == Some(p.value.content)
      && StringMember(j.members, "risk_level") == Some(p.value.riskLevel)
    ensures p.Some? && Member(j.members, "file_path").None? ==> p.value.filePath == ""
    ensures p.Some? && Member(j.members, "file_path").Some? ==>
      Member(j.members, "file_path") == Some(JString(p.value.filePath))
    ensures j.JObject?
      && StringMember(j.members, "action_type").Some? && StringMember(j.members, "description").Some?
      && StringMember(j.members, "content").Some? && StringMember(j.members, "risk_level").Some?
      && (Member(j.members, "file_path").None? || Member(j.members, "file_path").value.JString?)
      ==> p.Some?
  {
    match j
    case JObject(ms) =>
      var action := StringMember(ms, "action_type");
      var description := StringMember(ms, "description");
      var content := StringMember(ms, "content");
      var risk := StringMember(ms, "risk_level");
      var file := Member(ms, "file_path");
      if action.None? || description.None? || content.None? || risk.None? then None
      else
        (match file
         case None => Some(RemediationPlan(action.value, description.value, content.value, "", risk.value))
         case Some(JString(path)) => Some(RemediationPlan(action.value, description.value, content.value, path, risk.value))
         case Some(_) => None)
    case _ => None
  }

  /** The plan returned when no plan could be obtained. */
  const DefaultPlan := JObject([
    ("action_type", JString("manual_step")),
    ("description", JString("Failed to generate automated fix")),
    ("content", JString("Please investigate manually. AI generation failed.")),
    ("risk_level", JString("high"))])

  /** The default plan is a well-formed manual step of high risk, and it
      has no "file_path" member. */
  lemma DefaultPlanConforms()
    ensures Member(DefaultPlan.members, "file_path").None?
    ensures PlanOf(DefaultPlan) == Some(RemediationPlan(
      "manual_step", "Failed to generate automated fix",
      "Please investigate manually. AI generation failed.", "", "high"))
  {
    var ms := DefaultPlan.members;
    assert ms[..3] == [ms[0], ms[1], ms[2]];
    assert ms[..3][..2] == [ms[0], ms[1]];
    assert ms[..3][..2][..1] == [ms[0]];
    assert ms[..3][..2][..1][..0] == [];
    assert Member(ms[..3][..2], "action_type") == Some(JString("manual_step"));
    assert StringMember(ms, "action_type") == Some("manual_step");
    assert Member(ms[..3], "description") == Some(JString("Failed to generate automated fix"));
    assert StringMember(ms, "description") == Some("Failed to generate automated fix");
    assert StringMember(ms, "content") == Some("Please investigate manually. AI generation failed.");
    assert StringMember(ms, "risk_level") == Some("high");
  }

  const FenceOpen := "```json\n"
  const FenceClose := "\n```"

  /** The text of the first fenced JSON block: what lies between the first
      opening fence and the first closing fence after it, line breaks
      included; `None` when either fence is missing. */
  function FencedBlock(text: string): Option<string> {
    match Find(text, FenceOpen, 0)
    case None => None
    case Some(i) =>
      match Find(text, FenceClose, i + |FenceOpen|)
      case None => None
      case Some(j) => Some(text[i + |FenceOpen|..j])
  }

  /** A block is found exactly when an opening fence is followed by a
      closing fence; it then starts right after the first opening fence and
      runs up to the first closing fence after that. */
  lemma FencedBlockCharacterised(text: string)
    ensures FencedBlock(text).None? <==> NoClosedFence(text)
    ensures FencedBlock(text).Some? ==> exists i ::
      var b := FencedBlock(text).value;
      && OccursAt(text, FenceOpen, i)
      && (forall k :: 0 <= k < i ==> !OccursAt(text, FenceOpen, k))
      && OccursAt(text, FenceClose, i + |FenceOpen| + |b|)
      && text[i + |FenceOpen|..i + |FenceOpen| + |b|] == b
      && (forall k :: i + |FenceOpen| <= k < i + |FenceOpen| + |b| ==> !OccursAt(text, FenceClose, k))
  {
    FencedBlockAbsent(text);
    if FencedBlock(text).Some? {
      var i := Find(text, FenceOpen, 0).value;
      var j := Find(text, FenceClose, i + |FenceOpen|).value;
      var b := text[i + |FenceOpen|..j];
      assert FencedBlock(text).value == b;
      assert i + |FenceOpen| + |b| == j;
    }
  }

  /** No opening fence in `text` is followed by a closing fence. */
  ghost predicate NoClosedFence(text: string) {
    forall i, j :: OccursAt(text, FenceOpen, i) && i + |FenceOpen| <= j ==> !OccursAt(text, FenceClose, j)
  }

  /** No block is found exactly when no opening fence is followed by a
      closing one. */
  lemma FencedBlockAbsent(text: string)
    ensures FencedBlock(text).None? <==> NoClosedFence(text)
  {
    match Find(text, FenceOpen, 0)
    case None =>
    case Some(i) =>
      match Find(text, FenceClose, i + |FenceOpen|) {
        case None =>
          forall i', j | OccursAt(text, FenceOpen, i') && i' + |FenceOpen| <= j
            ensures !OccursAt(text, FenceClose, j)
          {
            assert i <= i';
          }
        case Some(j) =>
          assert OccursAt(text, FenceOpen, i) && OccursAt(text, FenceClose, j);
      }
  }

  /** `Find` returns the first occurrence at or after `start`. */
  lemma FindFirst(s: string, sub: string, start: nat, i: nat)
    requires start <= i && OccursAt(s, sub, i)
    requires forall k :: start <= k < i ==> !OccursAt(s, sub, k)
    ensures Find(s, sub, start) == Some(i)
  {
  }

  /** An occurrence that ends inside a prefix of `s` is an occurrence in
      that prefix. */
  lemma OccursInPrefix(s: string, prefix: string, sub: string, k: nat)
    requires StartsWith(s, prefix) && k + |sub| <= |prefix|
    ensures OccursAt(s, sub, k) <==> OccursAt(prefix, sub, k)
  {
    forall m | k <= m < k + |sub| ensures s[m] == prefix[m] {
      assert s[..|prefix|][m] == s[m];
    }
    assert s[k..k + |sub|] == prefix[k..k + |sub|];
  }

  /** Occurrences in a suffix of `s` are occurrences in `s`, shifted. */
  lemma OccursInSuffix(s: string, start: nat, sub: string, k: nat)
    requires start <= k && start <= |s|
    ensures OccursAt(s, sub, k) <==> OccursAt(s[start..], sub, k - start)
  {
    if k + |sub| <= |s| {
      assert s[start..][k - start..k - start + |sub|] == s[k..k + |sub|];
    }
  }

  /** No opening fence starts inside `before`, even one running on into a
      fence that follows it. */
  predicate NoOpenFenceIn(before: string) {
    forall k :: 0 <= k < |before| ==> !OccursAt(before + FenceOpen, FenceOpen, k)
  }

  /** No closing fence starts inside `block`, even one running on into the
      fence that follows it. */
  predicate NoCloseFenceIn(block: string) {
    forall k :: 0 <= k < |block| ==> !OccursAt(block + FenceClose, FenceClose, k)
  }

  /** Wrapping a block in fences, after text without an opening fence,
      gives the block back, provided the block has no closing fence of its
      own. */
  lemma FencedBlockRoundTrip(before: string, block: string, after: string)
    requires NoOpenFenceIn(before) && NoCloseFenceIn(block)
    ensures FencedBlock(before + FenceOpen + block + FenceClose + after) == Some(block)
  {
    var rest := block + FenceClose + after;
    var text := before + FenceOpen + rest;
    assert text == before + FenceOpen + block + FenceClose + after;
    var i, start := |before|, |before + FenceOpen|;
    OpenAfterBefore(before, rest);
    assert text[start..] == rest;
    CloseAfterBlock(text, start, block, after);
    FencedBlockAt(text, i, start, start + |block|, block);
  }

  /** The block between the fences `Find` locates. */
  lemma FencedBlockAt(text: string, i: nat, start: nat, j: nat, block: string)
    requires Find(text, FenceOpen, 0) == Some(i) && start == i + |FenceOpen|
    requires Find(text, FenceClose, start) == Some(j)
    requires start <= j <= |text| && text[start..j] == block
    ensures FencedBlock(text) == Some(block)
  {
  }

  /** The first opening fence after `before` is the one that follows it. */
  lemma OpenAfterBefore(before: string, rest: string)
    requires NoOpenFenceIn(before)
    ensures Find(before + FenceOpen + rest, FenceOpen, 0) == Some(|before|)
  {
    var head := before + FenceOpen;
    var text := head + rest;
    var i := |before|;
    assert StartsWith(text, head);
    forall k | 0 <= k <= i ensures OccursAt(text, FenceOpen, k) <==> OccursAt(head, FenceOpen, k) {
      OccursInPrefix(text, head, FenceOpen, k);
    }
    assert head[i..] == FenceOpen;
    assert OccursAt(head, FenceOpen, i);
    FindFirst(text, FenceOpen, 0, i);
  }

  /** The first closing fence at or after `start` ends the block there. */
  lemma CloseAfterBlock(text: string, start: nat, block: string, after: string)
    requires start <= |text| && text[start..] == block + FenceClose + after
    requires NoCloseFenceIn(block)
    ensures Find(text, FenceClose, start) == Some(start + |block|)
    ensures text[start..start + |block|] == block
  {
    var tail := block + FenceClose;
    var rest := text[start..];
    assert rest == tail + after;
    assert StartsWith(rest, tail);
    forall m | 0 <= m <= |block| ensures OccursAt(rest, FenceClose, m) <==> OccursAt(tail, FenceClose, m) {
      OccursInPrefix(rest, tail, FenceClose, m);
    }
    assert OccursAt(tail, FenceClose, |block|);
    forall k | start <= k <= start + |block| ensures OccursAt(text, FenceClose, k) <==> OccursAt(rest, FenceClose, k - start) {
      OccursInSuffix(text, start, FenceClose, k);
    }
    FindFirst(text, FenceClose, start, start + |block|);
    assert text[start..start + |block|] == rest[..|block|] == block;
  }

  /** What `propose_fix` returns, and by which route. */
  datatype Proposal =
    | Parsed(plan: Json)      // the output parser's object
    | Recovered(plan: Json)   // the decoded fenced block, unchecked
    | Fallback                // the default plan

  function PlanJson(p: Proposal): Json {
    match p
    case Parsed(j) => j
    case Recovered(j) => j
    case Fallback => DefaultPlan
  }

  /** The `diagnosis_result` dict; `None` for a missing key.  `triageText`
      is the printed form of its "triage_report" (`{}` when missing). */
  datatype DiagnosisContext = DiagnosisContext(
    alertInfo: Option<map<string, string>>, diagnosis: Option<string>, rootCause: Option<string>,
    triageText: string)

  /** The values filled into the prompt. */
  datatype Request = Request(alertName: string, diagnosis: string, rootCause: string, triageContext: string)

  /** The prompt inputs: the alert name from `alert_info["alertname"]`
      ("Unknown" when either is missing), the diagnosis ("" when missing),
      and the root cause, which defaults to the diagnosis. */
  function RequestOf(ctx: DiagnosisContext): (r: Request)
    ensures r.alertName == (if ctx.alertInfo.Some? && "alertname" in ctx.alertInfo.value then ctx.alertInfo.value["alertname"] else "Unknown")
    ensures r.diagnosis == ctx.diagnosis.GetOr("")
    ensures ctx.rootCause.None? ==> r.rootCause == r.diagnosis
    ensures ctx.rootCause.Some? ==> r.rootCause == ctx.rootCause.value
    ensures r.triageContext == ctx.triageText
  {
    var info := ctx.alertInfo.GetOr(map[]);
    var diagnosis := ctx.diagnosis.GetOr("");
    Request(if "alertname" in info then info["alertname"] else "Unknown", diagnosis, ctx.rootCause.GetOr(diagnosis), ctx.triageText)
  }

  /** The `alert_info` dict of a triage report keys the alert name as
      "name", so a context built from it reaches the prompt as "Unknown". */
  lemma TriageAlertInfoHasNoAlertname(name: string, severity: string, summary: string, description: string,
                                      startedAt: string, currentValue: string, diagnosis: Option<string>,
                                      rootCause: Option<string>, triageText: string)
    ensures var info := map["name" := name, "severity" := severity, "summary" := summary,
                            "description" := description, "started_at" := startedAt, "current_value" := currentValue];
      RequestOf(DiagnosisContext(Some(info), diagnosis, rootCause, triageText)).alertName == "Unknown"
  {
  }

  /** `propose_fix`.  `llm` is the model call, `parseAnswer` the JSON output
      parser and `decode` the JSON decoder, each `Failure`/`None` where the
      call raises. */
  function ProposeFix(ctx: DiagnosisContext, llm: Request -> Result<string, string>,
                      parseAnswer: string -> Option<Json>, decode: string -> Option<Json>): (p: Proposal)
    ensures llm(RequestOf(ctx)).Failure? ==> p == Fallback
    ensures p.Parsed? <==>
      llm(RequestOf(ctx)).Success? && parseAnswer(llm(RequestOf(ctx)).value).Some?
      && parseAnswer(llm(RequestOf(ctx)).value).value.JObject?
    ensures p.Parsed? ==> p.plan == parseAnswer(llm(RequestOf(ctx)).value).value
    ensures p.Recovered? ==>
      var text := llm(RequestOf(ctx)).value;
      FencedBlock(text).Some? && decode(FencedBlock(text).value) == Some(p.plan)
    ensures p.Fallback? && llm(RequestOf(ctx)).Success? ==>
      var text := llm(RequestOf(ctx)).value;
      FencedBlock(text).None? || decode(FencedBlock(text).value).None?
    ensures PlanJson(p).JObject? || p.Recovered?
  {
    match llm(RequestOf(ctx))
    case Failure(_) => Fallback
    case Success(text) =>
      match parseAnswer(text)
      case Some(JObject(ms)) => Parsed(JObject(ms))
      case _ =>
        match FencedBlock(text)
        case None => Fallback
        case Some(block) =>
          match decode(block)
          case Some(j) => Recovered(j)
          case None => Fallback
  }

  /** A recovered plan is not checked against the schema: an answer whose
      fenced block decodes to an empty list is returned as it is. */
  lemma RecoveredPlanIsUnchecked(ctx: DiagnosisContext)
    ensures var text := FenceOpen + "[]" + FenceClose;
      var p := ProposeFix(ctx, _ => Success(text), _ => None, b => if b == "[]" then Some(JArray([])) else None);
      p == Recovered(JArray([])) && PlanOf(PlanJson(p)).None?
  {
    var text := FenceOpen + "[]" + FenceClose;
    assert "" + FenceOpen + "[]" + FenceClose + "" == text;
    forall k | 0 <= k < |"[]"| ensures !OccursAt("[]" + FenceClose, FenceClose, k) {
      assert ("[]" + FenceClose)[k] != FenceClose[0];
    }
    assert NoCloseFenceIn("[]");
    FencedBlockRoundTrip("", "[]", "");
  }
}
