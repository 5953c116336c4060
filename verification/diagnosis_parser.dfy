/** The diagnostic agent's parser of the model's free-text answer.

    The answer is split into lines and read top to bottom.  A line that
    names a section (root cause, evidence, recommendations, confidence)
    switches to that section and contributes nothing else; every other
    non-blank line feeds the current section: root cause and evidence
    collect prose, recommendations collect bulleted or numbered items, and
    confidence takes the grade the line mentions.  When no root cause was
    collected, the first 500 characters of the answer stand in for it.

    `Run` is the parser as a fold over the lines.  The lemmas below
    characterise each field without the fold, by which header last
    preceded each line (`LastHeader`, `InSection`).
 */
module DiagnosisParser {
  import opened Wrappers
  import opened Text

  datatype Section = NoSection | RootCauseSection | EvidenceSection | RecommendationsSection | ConfidenceSection

  /** The confidence values "high", "medium" and "low". */
  datatype Grade = High | Medium | Low

  datatype Parsed = Parsed(rootCause: string, evidence: string, recommendations: seq<string>, confidence: Grade)

  datatype ParserState = ParserState(section: Section, fields: Parsed)

  const Bullet: char := '\U{2022}'

  /** The characters `lstrip` removes from the front of a recommendation. */
  const ItemMarks: set<char> := {'-', Bullet, '0', '1', '2', '3', '4', '5', '6', '7', '8', '9', '.', ' '}

  /** The longest fallback root cause. */
  const FallbackLength := 500

  /** The section a (stripped) line announces, looked for in its upper-cased
      text in this order; `None` for a content line. */
  function HeaderOf(line: string): (h: Option<Section>)
    ensures h != Some(NoSection)
    ensures Contains(Upper(line), "ROOT CAUSE") ==> h == Some(RootCauseSection)
    ensures h == Some(EvidenceSection) <==>
      !Contains(Upper(line), "ROOT CAUSE")
      && (Contains(Upper(line), "EVIDENCE") || Contains(Upper(line), "SUPPORTING"))
    ensures h == Some(RecommendationsSection) <==>
      !Contains(Upper(line), "ROOT CAUSE") && !Contains(Upper(line), "EVIDENCE") && !Contains(Upper(line), "SUPPORTING")
      && (Contains(Upper(line), "RECOMMEND") || Contains(Upper(line), "ACTION"))
    ensures h == Some(ConfidenceSection) <==>
      !Contains(Upper(line), "ROOT CAUSE") && !Contains(Upper(line), "EVIDENCE") && !Contains(Upper(line), "SUPPORTING")
      && !Contains(Upper(line), "RECOMMEND") && !Contains(Upper(line), "ACTION") && Contains(Upper(line), "CONFIDENCE")
    ensures h.None? <==>
      !Contains(Upper(line), "ROOT CAUSE") && !Contains(Upper(line), "EVIDENCE") && !Contains(Upper(line), "SUPPORTING")
      && !Contains(Upper(line), "RECOMMEND") && !Contains(Upper(line), "ACTION") && !Contains(Upper(line), "CONFIDENCE")
  {
    var u := Upper(line);
    if Contains(u, "ROOT CAUSE") then Some(RootCauseSection)
    else if Contains(u, "EVIDENCE") || Contains(u, "SUPPORTING") then Some(EvidenceSection)
    else if Contains(u, "RECOMMEND") || Contains(u, "ACTION") then Some(RecommendationsSection)
    else if Contains(u, "CONFIDENCE") then Some(ConfidenceSection)
    else None
  }

  /** Non-empty, and neither starting nor ending with a space. */
  predicate Clean(s: string) {
    s != [] && !IsSpace(s[0]) && !IsSpace(s[|s| - 1])
  }

  predicate IsBulleted(line: string) {
    |line| > 0 && (line[0] == '-' || line[0] == Bullet)
  }

  /** One content line added to a prose field (root cause or evidence): a
      bulleted line adds its text after the bullet, any other line is added
      whole once the field is non-empty unless it starts with "#"; every
      addition ends with one space. */
  function AddProse(field: string, line: string): (r: string)
    ensures StartsWith(r, field)
    ensures r == field || (|r| > |field| && r[|r| - 1] == ' ')
    ensures r == field <==> !IsBulleted(line) && (field == [] || (|line| > 0 && line[0] == '#'))
    ensures IsBulleted(line) ==> r == field + Strip(line[1..]) + " "
    ensures r != field && !IsBulleted(line) ==> r == field + line + " "
  {
    if IsBulleted(line) then field + Strip(line[1..]) + " "
    else if field != [] && !(|line| > 0 && line[0] == '#') then field + line + " "
    else field
  }

  /** The recommendation a content line carries: a line starting with a
      bullet or an ASCII digit, without its leading marks and spaces, when
      anything is left. */
  function ItemOf(line: string): (item: Option<string>)
    ensures item.Some? ==> Clean(item.value)
    ensures item.Some? <==>
      (IsBulleted(line) || (|line| > 0 && IsDigit(line[0]))) && Strip(LStripChars(line, ItemMarks)) != []
    ensures item.Some? ==> item.value == Strip(LStripChars(line, ItemMarks))
  {
    if IsBulleted(line) || (|line| > 0 && IsDigit(line[0])) then
      var clean := Strip(LStripChars(line, ItemMarks));
      if clean != [] then Some(clean) else None
    else None
  }

  /** The grade a line of the confidence section mentions; "high" is
      looked for first, then "low", then "medium". */
  function VoteOf(line: string): (g: Option<Grade>)
    ensures Contains(Lower(line), "high") ==> g == Some(High)
    ensures g == Some(Low) <==> !Contains(Lower(line), "high") && Contains(Lower(line), "low")
    ensures g == Some(Medium) <==>
      !Contains(Lower(line), "high") && !Contains(Lower(line), "low") && Contains(Lower(line), "medium")
    ensures g.None? <==>
      !Contains(Lower(line), "high") && !Contains(Lower(line), "low") && !Contains(Lower(line), "medium")
  {
    var l := Lower(line);
    if Contains(l, "high") then Some(High)
    else if Contains(l, "low") then Some(Low)
    else if Contains(l, "medium") then Some(Medium)
    else None
  }

  /** What the loop needs to know about one line: its stripped text, the
      section it announces, and the item and grade it would contribute. */
  datatype Line = Line(text: string, header: Option<Section>, item: Option<string>, vote: Option<Grade>)

  function Classify(raw: string): (l: Line)
    ensures l.text == Strip(raw)
    ensures l.header == HeaderOf(l.text)
    ensures l.item.Some? ==> Clean(l.item.value)
  {
    var text := Strip(raw);
    Line(text, HeaderOf(text), ItemOf(text), VoteOf(text))
  }

  /** The answer's lines, classified, in order. */
  function Scan(answer: string): (ls: seq<Line>)
    ensures |ls| == |Split(answer, '\n')|
    ensures ItemsClean(ls)
    ensures forall k :: 0 <= k < |ls| ==> ls[k] == Classify(Split(answer, '\n')[k])
  {
    var raw := Split(answer, '\n');
    seq(|raw|, k requires 0 <= k < |raw| => Classify(raw[k]))
  }

  /** Every item the lines carry is clean. */
  predicate ItemsClean(lines: seq<Line>) {
    forall k :: 0 <= k < |lines| && lines[k].item.Some? ==> Clean(lines[k].item.value)
  }

  const Start := ParserState(NoSection, Parsed("", "", [], Medium))

  /** One iteration of the parsing loop. */
  function Step(st: ParserState, line: Line): ParserState {
    match line.header
    case Some(section) => st.(section := section)
    case None =>
      if line.text == [] then st
      else
        var f := st.fields;
        match st.section
        case RootCauseSection => st.(fields := f.(rootCause := AddProse(f.rootCause, line.text)))
        case EvidenceSection => st.(fields := f.(evidence := AddProse(f.evidence, line.text)))
        case RecommendationsSection =>
          (match line.item
           case Some(item) => st.(fields := f.(recommendations := f.recommendations + [item]))
           case None => st)
        case ConfidenceSection =>
          (match line.vote
           case Some(g) => st.(fields := f.(confidence := g))
           case None => st)
        case NoSection => st
  }

  /** The parser state after reading `lines` in order. */
  function Run(lines: seq<Line>): ParserState
    decreases |lines|
  {
    if |lines| == 0 then Start
    else Step(Run(lines[..|lines| - 1]), lines[|lines| - 1])
  }

  /** `_parse_diagnosis`. */
  function ParseDiagnosis(answer: string): (p: Parsed)
    ensures var lines := Scan(answer);
      && p.evidence == Prose(lines, EvidenceSection)
      && p.recommendations == Items(lines)
      && p.confidence == LastVote(lines).GetOr(Medium)
      && (!Blank(Prose(lines, RootCauseSection)) ==> p.rootCause == Prose(lines, RootCauseSection))
      && (Blank(Prose(lines, RootCauseSection)) ==> p.rootCause == Take(answer, FallbackLength))
    ensures answer != [] ==> p.rootCause != []
    ensures forall i :: 0 <= i < |p.recommendations| ==> Clean(p.recommendations[i])
  {
    var lines := Scan(answer);
    FieldsMatchReference(lines);
    var f := Run(lines).fields;
    if Blank(f.rootCause) then f.(rootCause := Take(answer, FallbackLength)) else f
  }

  // Reference definitions: each field in terms of which header last came
  // before each line.

  /** The section named by the last header among `lines`, `NoSection` when
      there is none. */
  function LastHeader(lines: seq<Line>): (s: Section)
    decreases |lines|
  {
    if |lines| == 0 then NoSection
    else match lines[|lines| - 1].header
      case Some(s) => s
      case None => LastHeader(lines[..|lines| - 1])
  }

  /** The section in force when each line is read: the one named by the
      last header above it. */
  function Context(lines: seq<Line>): (cs: seq<Section>)
    ensures |cs| == |lines|
    decreases |lines|
  {
    if |lines| == 0 then []
    else
      var n := |lines| - 1;
      Context(lines[..n]) + [LastHeader(lines[..n])]
  }

  /** Line `k` is a non-blank content line under a header for `section`. */
  predicate InSection(lines: seq<Line>, k: int, section: Section)
    requires 0 <= k < |lines|
  {
    lines[k].header.None? && lines[k].text != [] && Context(lines)[k] == section
  }

  /** Dropping the last line changes no earlier line's section. */
  lemma InSectionPrefix(lines: seq<Line>, n: nat)
    requires n == |lines| - 1
    ensures forall k, section :: 0 <= k < n ==> (InSection(lines[..n], k, section) <==> InSection(lines, k, section))
  {
    assert Context(lines)[..n] == Context(lines[..n]);
    assert forall k :: 0 <= k < n ==> lines[..n][k] == lines[k] && Context(lines)[k] == Context(lines[..n])[k];
  }

  /** A prose field: `AddProse` over the content lines of its section. */
  function Prose(lines: seq<Line>, section: Section): string
    decreases |lines|
  {
    if |lines| == 0 then ""
    else
      var n := |lines| - 1;
      if InSection(lines, n, section) then AddProse(Prose(lines[..n], section), lines[n].text)
      else Prose(lines[..n], section)
  }

  /** Line `k` is a content line of a recommendations section that carries
      an item. */
  predicate IsItemLine(lines: seq<Line>, k: int)
    requires 0 <= k < |lines|
  {
    InSection(lines, k, RecommendationsSection) && lines[k].item.Some?
  }

  /** The items of all item lines, in order. */
  function Items(lines: seq<Line>): (items: seq<string>)
    ensures |items| <= |lines|
    ensures ItemsClean(lines) ==> forall i :: 0 <= i < |items| ==> Clean(items[i])
    ensures items == [] <==> forall k :: 0 <= k < |lines| ==> !IsItemLine(lines, k)
    decreases |lines|
  {
    if |lines| == 0 then []
    else
      var n := |lines| - 1;
      var rest := Items(lines[..n]);
      InSectionPrefix(lines, n);
      assert forall k :: 0 <= k < n ==> lines[..n][k] == lines[k];
      assert forall k :: 0 <= k < n ==> (IsItemLine(lines[..n], k) <==> IsItemLine(lines, k));
      if IsItemLine(lines, n) then rest + [lines[n].item.value] else rest
  }

  /** Line `k` is a content line of a confidence section that mentions a grade. */
  predicate IsVoteLine(lines: seq<Line>, k: int)
    requires 0 <= k < |lines|
  {
    InSection(lines, k, ConfidenceSection) && lines[k].vote.Some?
  }

  /** The grade of the last vote line, if any. */
  function LastVote(lines: seq<Line>): (g: Option<Grade>)
    ensures g.None? <==> forall k :: 0 <= k < |lines| ==> !IsVoteLine(lines, k)
    ensures g.Some? ==> exists k ::
      && 0 <= k < |lines| && IsVoteLine(lines, k) && lines[k].vote == g
      && forall j :: k < j < |lines| ==> !IsVoteLine(lines, j)
    decreases |lines|
  {
    if |lines| == 0 then None
    else
      var n := |lines| - 1;
      InSectionPrefix(lines, n);
      assert forall k :: 0 <= k < n ==> lines[..n][k] == lines[k];
      assert forall k :: 0 <= k < n ==> (IsVoteLine(lines[..n], k) <==> IsVoteLine(lines, k));
      if IsVoteLine(lines, n) then lines[n].vote
      else
        var g := LastVote(lines[..n]);
        if g.Some? then
          var k :| && 0 <= k < n && IsVoteLine(lines[..n], k) && lines[..n][k].vote == g
                   && forall j :: k < j < n ==> !IsVoteLine(lines[..n], j);
          assert IsVoteLine(lines, k);
          g
        else g
  }

  /** The fold's section is the last header read. */
  lemma {:induction false} SectionIsLastHeader(lines: seq<Line>)
    ensures Run(lines).section == LastHeader(lines)
    decreases |lines|
  {
    if |lines| > 0 {
      SectionIsLastHeader(lines[..|lines| - 1]);
    }
  }

  /** The fold's root cause is the root-cause prose. */
  lemma {:induction false} RootCauseMatches(lines: seq<Line>)
    ensures Run(lines).fields.rootCause == Prose(lines, RootCauseSection)
    decreases |lines|
  {
    if |lines| > 0 {
      var n := |lines| - 1;
      RootCauseMatches(lines[..n]);
      SectionIsLastHeader(lines[..n]);
      assert Context(lines)[n] == LastHeader(lines[..n]);
    }
  }

  /** The fold's evidence is the evidence prose. */
  lemma {:induction false} EvidenceMatches(lines: seq<Line>)
    ensures Run(lines).fields.evidence == Prose(lines, EvidenceSection)
    decreases |lines|
  {
    if |lines| > 0 {
      var n := |lines| - 1;
      EvidenceMatches(lines[..n]);
      SectionIsLastHeader(lines[..n]);
      assert Context(lines)[n] == LastHeader(lines[..n]);
    }
  }

  /** The fold's recommendations are the items of the item lines. */
  lemma {:induction false} RecommendationsMatch(lines: seq<Line>)
    ensures Run(lines).fields.recommendations == Items(lines)
    decreases |lines|
  {
    if |lines| > 0 {
      var n := |lines| - 1;
      RecommendationsMatch(lines[..n]);
      SectionIsLastHeader(lines[..n]);
      assert Context(lines)[n] == LastHeader(lines[..n]);
    }
  }

  /** The fold's confidence is the last vote, `Medium` without one. */
  lemma {:induction false} ConfidenceMatches(lines: seq<Line>)
    ensures Run(lines).fields.confidence == LastVote(lines).GetOr(Medium)
    decreases |lines|
  {
    if |lines| > 0 {
      var n := |lines| - 1;
      ConfidenceMatches(lines[..n]);
      SectionIsLastHeader(lines[..n]);
      assert Context(lines)[n] == LastHeader(lines[..n]);
    }
  }

  /** Every field of the fold agrees with its reference definition. */
  lemma FieldsMatchReference(lines: seq<Line>)
    ensures Run(lines).fields.rootCause == Prose(lines, RootCauseSection)
    ensures Run(lines).fields.evidence == Prose(lines, EvidenceSection)
    ensures Run(lines).fields.recommendations == Items(lines)
    ensures Run(lines).fields.confidence == LastVote(lines).GetOr(Medium)
  {
    RootCauseMatches(lines);
    EvidenceMatches(lines);
    RecommendationsMatch(lines);
    ConfidenceMatches(lines);
  }

  /** An answer without a single header line leaves every section empty:
      the root cause is the answer's first 500 characters, and the other
      fields keep their defaults. */
  lemma NoHeadersFallback(answer: string)
    requires forall k :: 0 <= k < |Scan(answer)| ==> Scan(answer)[k].header.None?
    ensures ParseDiagnosis(answer) == Parsed(Take(answer, FallbackLength), "", [], Medium)
  {
    var lines := Scan(answer);
    NoHeaderNoSection(lines);
    NoSectionNoFields(lines);
  }

  lemma {:induction false} NoHeaderNoSection(lines: seq<Line>)
    requires forall k :: 0 <= k < |lines| ==> lines[k].header.None?
    ensures LastHeader(lines) == NoSection
    ensures forall k :: 0 <= k < |lines| ==> Context(lines)[k] == NoSection
    decreases |lines|
  {
    if |lines| > 0 {
      var n := |lines| - 1;
      assert forall k :: 0 <= k < n ==> lines[..n][k] == lines[k];
      NoHeaderNoSection(lines[..n]);
    }
  }

  lemma {:induction false} NoSectionNoFields(lines: seq<Line>)
    requires forall k :: 0 <= k < |lines| ==> Context(lines)[k] == NoSection
    ensures Prose(lines, RootCauseSection) == "" && Prose(lines, EvidenceSection) == ""
    ensures Items(lines) == [] && LastVote(lines).None?
    decreases |lines|
  {
    if |lines| > 0 {
      var n := |lines| - 1;
      assert Context(lines)[..n] == Context(lines[..n]);
      assert forall k :: 0 <= k < n ==> Context(lines[..n])[k] == Context(lines)[k];
      NoSectionNoFields(lines[..n]);
    }
  }

  /** A header line contributes nothing but the switch of section, even
      when it carries content: an answer made of one line naming a section
      ("Confidence: high", "Root cause: the pool is exhausted") leaves every
      field at its default, the root cause falling back to the answer. */
  lemma HeaderLineContributesNothing(answer: string)
    requires '\n' !in answer && HeaderOf(Strip(answer)).Some?
    ensures ParseDiagnosis(answer) == Parsed(Take(answer, FallbackLength), "", [], Medium)
  {
    SplitWithoutSeparator(answer, '\n');
    var lines := Scan(answer);
    assert lines == [Classify(answer)];
    assert lines[..0] == [];
    FieldsMatchReference(lines);
  }

  /** The usual last line of an answer, "CONFIDENCE: HIGH", is read as the
      confidence header only: the grade on it is lost and the confidence
      stays "medium". */
  lemma GradeOnConfidenceHeaderLost()
    ensures ParseDiagnosis("CONFIDENCE: HIGH").confidence == Medium
  {
    var a := "CONFIDENCE: HIGH";
    assert Strip(a) == a by {
      assert !IsSpace(a[0]) && !IsSpace(a[|a| - 1]);
      assert SkipSpaces(a, 0) == 0;
      assert BackSpaces(a, |a|) == |a|;
    }
    assert Contains(Upper(a), "CONFIDENCE") by {
      var u := Upper(a);
      assert u[..10] == a[..10];
      assert OccursAt(u, "CONFIDENCE", 0);
      ContainsIffOccurs(u, "CONFIDENCE");
    }
    HeaderLineContributesNothing(a);
  }
}
