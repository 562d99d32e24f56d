/**
 * Label-directed field extraction of the modular SDS parser
 * (modules/field_extractor.py, and the label scan modules/field_extractor_fixed.py
 * shares with it): the value after a label on the same line or on one of the
 * next lines, the product-name and manufacturer strategies, and the validated
 * Section 14 transport fields.
 *
 * Each scan walks the lines of the section in its outer loop and the labels in
 * priority order in its inner loop; the outcome of one (line, label) pair is a
 * cell of a grid, and the scan returns the first value in row-major order
 * (`Scan.FirstHit`).
 */
module FieldExtractor {
  import opened Wrappers
  import opened Text
  import opened Pattern
  import opened Config
  import opened Utils
  import opened Scan

  /**
   * What distinguishes the two revisions of `extract_after_label`: the possessive
   * artefact removed from a same-line value, the same-line phrases passed over,
   * the "product code" test, the separators and trailing patterns of the value,
   * the test of a line at which the look-ahead stops and the noise test.
   */
  datatype Rules = Rules(
    possessive: seq<Tok>,
    skipPhrases: seq<seq<Tok>>,
    productCode: seq<Tok>,
    separators: seq<seq<Tok>>,
    trailing: seq<Tok>,
    page: seq<Tok>,
    isStop: string -> bool,
    isNoise: string -> bool)

  /** A candidate worth returning: non-empty and not noise (`value and not is_noise_text(value)`). */
  predicate Acceptable(c: string, isNoise: string -> bool) {
    c != [] && !isNoise(c)
  }

  // ---- patterns of the same-line value ----

  /** `[:\-]` */
  const ColonOrDash := Chars(":-")

  /** `^{label}\s*[:\-]\s*(.+)$`, cut at the value group. */
  function ColonValueParts(lab: seq<Tok>): seq<seq<Tok>> {
    [[Bol(false)] + lab + [Ws0, One(ColonOrDash), Ws0], [AnyRun1], [Eol(false)]]
  }

  /** `^{label}\b\s+(.+)$`, cut at the value group. */
  function SpaceValueParts(lab: seq<Tok>): seq<seq<Tok>> {
    [[Bol(false)] + lab + [WordBoundary, Ws1], [AnyRun1], [Eol(false)]]
  }

  /** `re.search(...).group(1)` for a pattern cut into parts. */
  function Group1(parts: seq<seq<Tok>>, s: string, ci: bool): Option<string>
    requires |parts| >= 2
  {
    match SearchSplit(parts, s, 0, ci)
    case None => None
    case Some(b) => Some(Piece(s, b, 1))
  }

  /** The raw same-line value: after `label` and a colon or dash, or else after `label` and whitespace. */
  function SameLineGroup(lab: seq<Tok>, clean: string): Option<string> {
    var colon := Group1(ColonValueParts(lab), clean, true);
    if colon.Some? then colon else Group1(SpaceValueParts(lab), clean, true)
  }

  /** `^[...]+s\b\s*` over the given quote characters: a leading possessive artefact such as `'s`. */
  function Possessive(quotes: string): seq<Tok> {
    [Bol(false), Rep(Chars(quotes), 1, None, false), Lit("s"), WordBoundary, Ws0]
  }

  /** `^of\s+the\s+safety\s+data\s+sheet\s*$` */
  const SheetPhrase: seq<Tok> := [Bol(false)] + Phrase(["of", "the", "safety", "data", "sheet"]) + [Ws0, Eol(false)]

  /** `^of\s+the\s+substance\s+or\s+mixture\s+and\s+uses\s+advised\s+against\s*$` */
  const AdvisedPhrase: seq<Tok> :=
    [Bol(false)] + Phrase(["of", "the", "substance", "or", "mixture", "and", "uses", "advised", "against"])
    + [Ws0, Eol(false)]

  /** `product\s+code` */
  const ProductCode: seq<Tok> := Phrase(["product", "code"])

  /** The separators after which a same-line value is cut, in the order they are tried. */
  const Separators: seq<seq<Tok>> := [
    [Ws1, Lit("Tel:")], [Ws1, Lit("Phone:")], [Ws1, Lit("Fax:")], [Ws1, Lit("Email:")],
    [Ws1, Lit("Website:")], [Ws1, Lit("Emergency:")], [Ws1, Lit("Address:")], [Ws1, Lit("Contact:")],
    [Ws1, Lit("Product"), Ws1, Lit("code:")]]

  /** `\s*[:\-]\s*$` */
  const TrailingPunct: seq<Tok> := [Ws0, One(ColonOrDash), Ws0, Eol(false)]

  /** `\s+Page\s+\d+.*$` */
  const PageSuffix: seq<Tok> := [Ws1, Lit("Page"), Ws1, Digits1, AnyRun, Eol(false)]

  /** Some pattern of FIELD_LABELS, of any field, occurs in the text. */
  predicate MentionsFieldLabel(c: string) {
    AnyFound(AllFieldLabels, c, true)
  }

  /** field_extractor.py: the possessive quotes include the typographic apostrophe, no phrase is skipped. */
  const OriginalRules: Rules :=
    Rules(Possessive("\"'’`"), [], ProductCode, Separators, TrailingPunct, PageSuffix, MentionsFieldLabel, IsNoiseText)

  /** field_extractor_fixed.py: plain quotes only, and the two sheet phrases are passed over. */
  const FixedRules: Rules :=
    Rules(Possessive("\"''`"), [SheetPhrase, AdvisedPhrase], ProductCode, Separators, TrailingPunct, PageSuffix,
      MentionsFieldLabel, IsNoiseText)

  /** The value cut before the first separator, among `seps` in order, that occurs in it. */
  function CutAtSeparator(value: string, seps: seq<seq<Tok>>): string {
    if seps == [] then value
    else
      var parts := SplitBy(seps[0], value, 0, true);
      if |parts| > 1 then Strip(parts[0]) else CutAtSeparator(value, seps[1..])
  }

  /** What the line itself says after one label. */
  datatype SameLine =
    | NoValue                 // the label is not followed by a value on this line
    | Skipped                 // a value that is passed over for the next label
    | Rejected                // a value that turned out empty or noise: look below
    | Accepted(value: string)

  /** The raw value without a leading possessive artefact (`re.sub`; anchored, so at most one match). */
  function DropPossessive(value: string, rules: Rules): string {
    Remove(rules.possessive, value, 0, false)
  }

  /** A value that is passed over: one of the skipped phrases, or a mention of a product code. */
  predicate PassedOver(value: string, rules: Rules) {
    AnyMatchesAt(rules.skipPhrases, value, true) || Found(rules.productCode, value, true)
  }

  /** The value cut at a separator, then trimmed of trailing colons or dashes and of a trailing page number. */
  function CleanValue(value: string, rules: Rules): string {
    Remove(rules.page, Remove(rules.trailing, CutAtSeparator(value, rules.separators), 0, false), 0, true)
  }

  /** The same-line case of `extract_after_label` for one line and one label. */
  function SameLineOutcome(clean: string, lab: seq<Tok>, rules: Rules): SameLine {
    match SameLineGroup(lab, clean)
    case None => NoValue
    case Some(g) =>
      var value := DropPossessive(Strip(g), rules);
      if PassedOver(value, rules) then Skipped
      else if Acceptable(CleanValue(value, rules), rules.isNoise) then Accepted(CleanValue(value, rules))
      else Rejected
  }

  // ---- the lines below a label ----

  /** A line below the label, stripped and without a leading colon. */
  function TrimColon(c: string): string {
    if c != [] && c[0] == ':' then Strip(c[1..]) else c
  }

  function BelowCandidate(line: string): string {
    TrimColon(Strip(line))
  }

  /** A non-blank line below the label whose candidate mentions some field label: the look-ahead stops there. */
  predicate StopsAt(line: string, rules: Rules) {
    Strip(line) != [] && rules.isStop(BelowCandidate(line))
  }

  /** No line from `j` up to `a` (exclusive) is a label line. */
  predicate Quiet(lines: seq<string>, j: nat, a: nat, rules: Rules) {
    forall b :: j <= b < a && b < |lines| ==> !StopsAt(lines[b], rules)
  }

  /** The first acceptable candidate among lines `j` up to `end` (exclusive), stopping at a label line. */
  function Below(lines: seq<string>, j: nat, end: nat, rules: Rules): Option<string>
    decreases |lines| - j
  {
    if j >= |lines| || j >= end then None
    else if Strip(lines[j]) == [] then Below(lines, j + 1, end, rules)
    else if rules.isStop(BelowCandidate(lines[j])) then None
    else if Acceptable(BelowCandidate(lines[j]), rules.isNoise) then Some(BelowCandidate(lines[j]))
    else Below(lines, j + 1, end, rules)
  }

  /** A blank line, or a line whose candidate is rejected, is passed over; neither stops the look-ahead. */
  lemma BelowSkip(lines: seq<string>, j: nat, end: nat, rules: Rules)
    requires j < |lines| && j < end && Below(lines, j, end, rules).Some?
    requires Strip(lines[j]) == [] || !Acceptable(BelowCandidate(lines[j]), rules.isNoise)
    ensures Below(lines, j, end, rules) == Below(lines, j + 1, end, rules)
    ensures !StopsAt(lines[j], rules)
  {
  }

  lemma QuietExtend(lines: seq<string>, j: nat, a: nat, rules: Rules)
    requires j < |lines| && !StopsAt(lines[j], rules) && Quiet(lines, j + 1, a, rules)
    ensures Quiet(lines, j, a, rules)
  {
  }

  /** A value found below comes from a line of the window, and no label line comes before it. */
  lemma {:induction false} BelowWindow(lines: seq<string>, j: nat, end: nat, rules: Rules) returns (a: nat)
    requires Below(lines, j, end, rules).Some?
    ensures j <= a < end && a < |lines|
    ensures Below(lines, j, end, rules) == Some(BelowCandidate(lines[a]))
    ensures Quiet(lines, j, a + 1, rules)
    decreases |lines| - j
  {
    if Strip(lines[j]) == [] || !Acceptable(BelowCandidate(lines[j]), rules.isNoise) {
      BelowSkip(lines, j, end, rules);
      a := BelowWindow(lines, j + 1, end, rules);
      QuietExtend(lines, j, a + 1, rules);
    } else {
      a := j;
    }
  }

  /** A value found below is never empty and never noise. */
  lemma {:induction false} BelowAcceptable(lines: seq<string>, j: nat, end: nat, rules: Rules)
    requires Below(lines, j, end, rules).Some?
    ensures Acceptable(Below(lines, j, end, rules).value, rules.isNoise)
    decreases |lines| - j
  {
    if Strip(lines[j]) == [] || !Acceptable(BelowCandidate(lines[j]), rules.isNoise) {
      BelowSkip(lines, j, end, rules);
      BelowAcceptable(lines, j + 1, end, rules);
    }
  }

  /** The look-ahead below line `i`: `j` runs over at most the four following lines. */
  method LookBelow(lines: seq<string>, i: nat, rules: Rules) returns (r: Option<string>)
    ensures r == Below(lines, i + 1, i + 5, rules)
  {
    var j := i + 1;
    while j < |lines| && j < i + 5
      invariant i + 1 <= j
      invariant Below(lines, j, i + 5, rules) == Below(lines, i + 1, i + 5, rules)
      decreases |lines| - j
    {
      var candidateLine := Strip(lines[j]);
      if candidateLine == [] {
        j := j + 1;
        continue;
      }
      var candidate := candidateLine;
      if candidate[0] == ':' {
        candidate := Strip(candidate[1..]);
      }
      if rules.isStop(candidate) {
        return None;
      }
      if Acceptable(candidate, rules.isNoise) {
        return Some(candidate);
      }
      j := j + 1;
    }
    return None;
  }

  // ---- extract_after_label ----

  /** The outcome for line `i` and one label: a same-line value, or the look-ahead when the value was rejected or the label stands alone. */
  function LabelStep(lines: seq<string>, i: nat, lab: seq<Tok>, rules: Rules): Option<string>
    requires i < |lines|
  {
    var clean := Strip(lines[i]);
    if clean == [] then None
    else
      match SameLineOutcome(clean, lab, rules)
      case Accepted(v) => Some(v)
      case Skipped => None
      case Rejected => Below(lines, i + 1, i + 5, rules)
      case NoValue => if FullMatch(lab, clean, true) then Below(lines, i + 1, i + 5, rules) else None
  }

  function AfterLabelGrid(lines: seq<string>, labels: seq<seq<Tok>>, rules: Rules): seq<seq<Option<string>>> {
    seq(|lines|, i requires 0 <= i < |lines| =>
      seq(|labels|, k requires 0 <= k < |labels| => LabelStep(lines, i, labels[k], rules)))
  }

  /** `extract_after_label` under the rules of one revision. */
  function AfterLabelWith(sectionText: string, labels: seq<seq<Tok>>, rules: Rules): Option<string> {
    if sectionText == [] then None
    else FirstHit(AfterLabelGrid(SplitLines(sectionText), labels, rules), 0, 0)
  }

  /** The separator loop: the value is cut at the first separator, in list order, that splits it. */
  method CutAtSeparators(value: string, seps: seq<seq<Tok>>) returns (r: string)
    ensures r == CutAtSeparator(value, seps)
  {
    var n := 0;
    while n < |seps|
      invariant 0 <= n <= |seps|
      invariant CutAtSeparator(value, seps[n..]) == CutAtSeparator(value, seps)
    {
      var parts := SplitBy(seps[n], value, 0, true);
      if |parts| > 1 {
        return Strip(parts[0]);
      }
      assert seps[n..][1..] == seps[n + 1..];
      n := n + 1;
    }
    return value;
  }

  /** The same-line case of one (line, label) pair; the separator loop runs here. */
  method SameLineAt(clean: string, lab: seq<Tok>, rules: Rules) returns (o: SameLine)
    ensures o == SameLineOutcome(clean, lab, rules)
  {
    var same := SameLineGroup(lab, clean);
    if same.None? {
      return NoValue;
    }
    var value := DropPossessive(Strip(same.value), rules);
    if PassedOver(value, rules) {
      return Skipped;
    }
    var cut := CutAtSeparators(value, rules.separators);
    var v := Remove(rules.page, Remove(rules.trailing, cut, 0, false), 0, true);
    if Acceptable(v, rules.isNoise) {
      return Accepted(v);
    }
    return Rejected;
  }

  /** One (line, label) pair of `extract_after_label`, on a non-blank line. */
  method LabelStepAt(lines: seq<string>, i: nat, lab: seq<Tok>, rules: Rules) returns (v: Option<string>)
    requires i < |lines| && Strip(lines[i]) != []
    ensures v == LabelStep(lines, i, lab, rules)
  {
    var clean := Strip(lines[i]);
    var outcome := SameLineAt(clean, lab, rules);
    match outcome
    case Accepted(value) => v := Some(value);
    case Skipped => v := None;
    case Rejected => v := LookBelow(lines, i, rules);
    case NoValue =>
      if FullMatch(lab, clean, true) {
        v := LookBelow(lines, i, rules);
      } else {
        v := None;
      }
  }

  /** A blank line yields nothing for any label. */
  lemma BlankRow(lines: seq<string>, i: nat, labels: seq<seq<Tok>>, rules: Rules)
    requires i < |lines| && Strip(lines[i]) == []
    ensures var g := AfterLabelGrid(lines, labels, rules);
      forall y :: 0 <= y < |g[i]| ==> g[i][y].None?
  {
    var g: seq<seq<Option<string>>> := AfterLabelGrid(lines, labels, rules);
    forall y | 0 <= y < |g[i]|
      ensures g[i][y].None?
    {
      BlankCell(lines, i, labels[y], rules);
    }
  }

  lemma BlankCell(lines: seq<string>, i: nat, lab: seq<Tok>, rules: Rules)
    requires i < |lines| && Strip(lines[i]) == []
    ensures LabelStep(lines, i, lab, rules).None?
  {
  }

  /** The label loop over one non-blank line: the first label that yields a value, if any. */
  method ScanLabels(lines: seq<string>, i: nat, labels: seq<seq<Tok>>, rules: Rules) returns (r: Option<string>)
    requires i < |lines| && Strip(lines[i]) != []
    ensures var g := AfterLabelGrid(lines, labels, rules);
      r == FirstInRow(g, i, 0)
  {
    ghost var g := AfterLabelGrid(lines, labels, rules);
    var k := 0;
    while k < |labels|
      invariant 0 <= k <= |labels|
      invariant FirstInRow(g, i, k) == FirstInRow(g, i, 0)
    {
      var v := LabelStepAt(lines, i, labels[k], rules);
      assert g[i][k] == v;
      if v.Some? {
        return v;
      }
      k := k + 1;
    }
    return None;
  }

  /** The nested scan of `extract_after_label`: lines in the outer loop, labels in priority order in the inner loop. */
  method ExtractAfterLabel(sectionText: string, labels: seq<seq<Tok>>, rules: Rules) returns (r: Option<string>)
    ensures r == AfterLabelWith(sectionText, labels, rules)
  {
    if sectionText == [] {
      return None;
    }
    var lines := SplitLines(sectionText);
    ghost var g := AfterLabelGrid(lines, labels, rules);
    var i := 0;
    while i < |lines|
      invariant 0 <= i <= |lines|
      invariant FirstHit(g, i, 0) == FirstHit(g, 0, 0)
    {
      if Strip(lines[i]) == [] {
        BlankRow(lines, i, labels, rules);
        FirstHitSkipRow(g, i, 0);
        i := i + 1;
        continue;
      }
      var v := ScanLabels(lines, i, labels, rules);
      FirstHitRow(g, i);
      if v.Some? {
        return v;
      }
      i := i + 1;
    }
    return None;
  }

  /** A cell's value is the accepted same-line value or an acceptable candidate from the window below. */
  lemma StepSource(lines: seq<string>, i: nat, lab: seq<Tok>, rules: Rules) returns (j: nat)
    requires i < |lines| && LabelStep(lines, i, lab, rules).Some?
    ensures j < |lines|
    ensures var v := LabelStep(lines, i, lab, rules).value;
      (j == i && SameLineOutcome(Strip(lines[i]), lab, rules) == Accepted(v))
      || (i < j < i + 5 && v == BelowCandidate(lines[j]) && Quiet(lines, i + 1, j + 1, rules))
  {
    var outcome := SameLineOutcome(Strip(lines[i]), lab, rules);
    if outcome.Accepted? {
      assert LabelStep(lines, i, lab, rules) == Some(outcome.value);
      j := i;
    } else {
      assert LabelStep(lines, i, lab, rules) == Below(lines, i + 1, i + 5, rules);
      j := BelowWindow(lines, i + 1, i + 5, rules);
    }
  }

  /** A same-line value is accepted only when it is non-empty and not noise. */
  lemma AcceptedIsAcceptable(clean: string, lab: seq<Tok>, rules: Rules)
    requires SameLineOutcome(clean, lab, rules).Accepted?
    ensures Acceptable(SameLineOutcome(clean, lab, rules).value, rules.isNoise)
  {
    var value := DropPossessive(Strip(SameLineGroup(lab, clean).value), rules);
    assert SameLineOutcome(clean, lab, rules) == Accepted(CleanValue(value, rules));
  }

  /** A cell's value is never empty and never noise. */
  lemma StepAcceptable(lines: seq<string>, i: nat, lab: seq<Tok>, rules: Rules)
    requires i < |lines| && LabelStep(lines, i, lab, rules).Some?
    ensures Acceptable(LabelStep(lines, i, lab, rules).value, rules.isNoise)
  {
    var outcome := SameLineOutcome(Strip(lines[i]), lab, rules);
    if outcome.Accepted? {
      AcceptedIsAcceptable(Strip(lines[i]), lab, rules);
      assert LabelStep(lines, i, lab, rules) == Some(outcome.value);
    } else {
      assert LabelStep(lines, i, lab, rules) == Below(lines, i + 1, i + 5, rules);
      BelowAcceptable(lines, i + 1, i + 5, rules);
    }
  }

  /**
   * Where the value of the scan comes from: line `i` and label `k`, either the
   * line itself (`j == i`) or a line `j` at most four lines below with no label
   * line in between; every earlier (line, label) pair yielded nothing, and the
   * value is never empty or noise.
   */
  lemma AfterLabelSource(sectionText: string, labels: seq<seq<Tok>>, rules: Rules) returns (i: nat, k: nat, j: nat)
    requires AfterLabelWith(sectionText, labels, rules).Some?
    ensures var lines := SplitLines(sectionText); var v := AfterLabelWith(sectionText, labels, rules).value;
      i < |lines| && k < |labels| && j < |lines|
      && ((j == i && SameLineOutcome(Strip(lines[i]), labels[k], rules) == Accepted(v))
          || (i < j < i + 5 && v == BelowCandidate(lines[j]) && Quiet(lines, i + 1, j + 1, rules)))
    ensures var lines := SplitLines(sectionText);
      forall x: nat, y: nat :: x < |lines| && y < |labels| && (x < i || (x == i && y < k)) ==>
        LabelStep(lines, x, labels[y], rules).None?
    ensures Acceptable(AfterLabelWith(sectionText, labels, rules).value, rules.isNoise)
  {
    var lines := SplitLines(sectionText);
    var g: seq<seq<Option<string>>> := AfterLabelGrid(lines, labels, rules);
    i, k := FirstHitFound(g, 0, 0);
    j := StepSource(lines, i, labels[k], rules);
    StepAcceptable(lines, i, labels[k], rules);
    forall x: nat, y: nat | x < |lines| && y < |labels| && (x < i || (x == i && y < k))
      ensures LabelStep(lines, x, labels[y], rules).None?
    {
      assert Between(g, 0, 0, x, y, i, k);
    }
  }

  /** Neither revision of `extract_after_label` returns empty text or text `is_noise_text` rejects. */
  lemma AfterLabelNeverNoise(sectionText: string, labels: seq<seq<Tok>>)
    ensures var r := AfterLabelWith(sectionText, labels, OriginalRules);
      r.Some? ==> r.value != [] && !IsNoiseText(r.value)
    ensures var r := AfterLabelWith(sectionText, labels, FixedRules);
      r.Some? ==> r.value != [] && !IsNoiseText(r.value)
  {
    if AfterLabelWith(sectionText, labels, OriginalRules).Some? {
      var i, k, j := AfterLabelSource(sectionText, labels, OriginalRules);
    }
    if AfterLabelWith(sectionText, labels, FixedRules).Some? {
      var i, k, j := AfterLabelSource(sectionText, labels, FixedRules);
    }
  }

  /**
   * Noise, then retry: when the value on the label's line is rejected as noise,
   * the next line is still searched, and an acceptable candidate there is the
   * outcome for this line and label.
   */
  lemma NoisyValueRetries(lines: seq<string>, i: nat, lab: seq<Tok>, rules: Rules)
    requires i + 1 < |lines| && Strip(lines[i]) != []
    requires SameLineOutcome(Strip(lines[i]), lab, rules) == Rejected
    requires !StopsAt(lines[i + 1], rules) && Acceptable(BelowCandidate(lines[i + 1]), rules.isNoise)
    ensures LabelStep(lines, i, lab, rules) == Some(BelowCandidate(lines[i + 1]))
  {
    assert LabelStep(lines, i, lab, rules) == Below(lines, i + 1, i + 5, rules);
  }

  /**
   * A same-line value that is passed over (a mention of a product code, and in
   * the fixed revision the two sheet phrases) yields nothing for that line and
   * label: it is not returned and nothing below it is searched.
   */
  lemma PassedOverSkipped(lines: seq<string>, i: nat, lab: seq<Tok>, rules: Rules)
    requires i < |lines|
    requires SameLineGroup(lab, Strip(lines[i])).Some?
    requires PassedOver(DropPossessive(Strip(SameLineGroup(lab, Strip(lines[i])).value), rules), rules)
    ensures LabelStep(lines, i, lab, rules).None?
  {
    assert SameLineOutcome(Strip(lines[i]), lab, rules) == Skipped;
  }

  // ---- extract_section14_field ----

  /** The tests of the Section 14 scan: the field's validator, the stop test of the look-ahead and the noise test. */
  datatype Screen = Screen(valid: string -> bool, isStop: string -> bool, isNoise: string -> bool)

  /** `VALID_PACKING_GROUPS.match(value)`. */
  predicate IsPackingGroup(value: string) {
    MatchesAt(ValidPackingGroups, value, 0, PackingGroupIgnoreCase)
  }

  predicate AnyText(value: string) {
    true
  }

  /** The validator `extract_section14_field` applies for a field name; other fields are not validated. */
  function FieldValidator(fieldName: string): string -> bool {
    if fieldName == "dangerous_goods_class" then ValidateDangerousGoodsClass
    else if fieldName == "packing_group" then IsPackingGroup
    else AnyText
  }

  function Section14Screen(fieldName: string): Screen {
    Screen(FieldValidator(fieldName), MentionsFieldLabel, IsNoiseText)
  }

  /** `{label}\s*[:\-]?\s*(.+)`, searched anywhere in the line, cut at the value group. */
  function Sec14Parts(lab: seq<Tok>): seq<seq<Tok>> {
    [lab + [Ws0, Maybe(ColonOrDash), Ws0], [AnyRun1]]
  }

  /** The same-line candidate after a label, stripped and without trailing colons or dashes. */
  function Sec14Candidate(stripped: string, lab: seq<Tok>): Option<string> {
    match Group1(Sec14Parts(lab), stripped, true)
    case None => None
    case Some(g) => Some(Remove(TrailingPunct, Strip(g), 0, false))
  }

  /** A candidate the field takes: non-empty, not noise and valid for the field. */
  predicate Takes(c: string, sc: Screen) {
    c != [] && !sc.isNoise(c) && sc.valid(c)
  }

  /** No line from `j` up to `a` (exclusive) is a non-blank label line. */
  predicate Quiet14(lines: seq<string>, j: nat, a: nat, sc: Screen) {
    forall b :: j <= b < a && b < |lines| ==> Strip(lines[b]) == [] || !sc.isStop(Strip(lines[b]))
  }

  /** The look-ahead of `extract_section14_field`: lines `j` up to `end` (exclusive); a label line stops it, a candidate the field does not take is passed over. */
  function Below14(lines: seq<string>, j: nat, end: nat, sc: Screen): Option<string>
    decreases |lines| - j
  {
    if j >= |lines| || j >= end then None
    else if Strip(lines[j]) == [] then Below14(lines, j + 1, end, sc)
    else if sc.isStop(Strip(lines[j])) then None
    else if Takes(BelowCandidate(lines[j]), sc) then Some(BelowCandidate(lines[j]))
    else Below14(lines, j + 1, end, sc)
  }

  lemma Below14Skip(lines: seq<string>, j: nat, end: nat, sc: Screen)
    requires j < |lines| && j < end && Below14(lines, j, end, sc).Some?
    requires Strip(lines[j]) == [] || !Takes(BelowCandidate(lines[j]), sc)
    ensures Below14(lines, j, end, sc) == Below14(lines, j + 1, end, sc)
    ensures Strip(lines[j]) == [] || !sc.isStop(Strip(lines[j]))
  {
  }

  lemma Quiet14Extend(lines: seq<string>, j: nat, a: nat, sc: Screen)
    requires j < |lines| && (Strip(lines[j]) == [] || !sc.isStop(Strip(lines[j]))) && Quiet14(lines, j + 1, a, sc)
    ensures Quiet14(lines, j, a, sc)
  {
  }

  /** A value found below comes from a line of the window, the field takes it, and no label line comes before it. */
  lemma {:induction false} Below14Window(lines: seq<string>, j: nat, end: nat, sc: Screen) returns (a: nat)
    requires Below14(lines, j, end, sc).Some?
    ensures j <= a < end && a < |lines|
    ensures Below14(lines, j, end, sc) == Some(BelowCandidate(lines[a]))
    ensures Takes(BelowCandidate(lines[a]), sc)
    ensures Quiet14(lines, j, a, sc)
    decreases |lines| - j
  {
    if Strip(lines[j]) == [] || !Takes(BelowCandidate(lines[j]), sc) {
      Below14Skip(lines, j, end, sc);
      a := Below14Window(lines, j + 1, end, sc);
      Quiet14Extend(lines, j, a, sc);
    } else {
      a := j;
    }
  }

  /** The outcome for line `i` and one label: a same-line candidate the field takes, or else the look-ahead when the label occurs in the line. */
  function Step14(lines: seq<string>, i: nat, lab: seq<Tok>, sc: Screen): Option<string>
    requires i < |lines|
  {
    var stripped := Strip(lines[i]);
    if stripped == [] then None
    else
      var same := Sec14Candidate(stripped, lab);
      if same.Some? && Takes(same.value, sc) then same
      else if Found(lab, stripped, true) then Below14(lines, i + 1, i + 3, sc)
      else None
  }

  function Section14Grid(lines: seq<string>, labels: seq<seq<Tok>>, sc: Screen): seq<seq<Option<string>>> {
    seq(|lines|, i requires 0 <= i < |lines| =>
      seq(|labels|, k requires 0 <= k < |labels| => Step14(lines, i, labels[k], sc)))
  }

  function Section14With(sec14: string, labels: seq<seq<Tok>>, sc: Screen): Option<string> {
    if sec14 == [] then None
    else FirstHit(Section14Grid(SplitLines(sec14), labels, sc), 0, 0)
  }

  /** What `extract_section14_field` returns for a field name. */
  function Section14Field(sec14: string, labels: seq<seq<Tok>>, fieldName: string): Option<string> {
    Section14With(sec14, labels, Section14Screen(fieldName))
  }

  /** The look-ahead below line `i`: `j` runs over at most the two following lines. */
  method LookBelow14(lines: seq<string>, i: nat, sc: Screen) returns (r: Option<string>)
    ensures r == Below14(lines, i + 1, i + 3, sc)
  {
    var j := i + 1;
    while j < |lines| && j < i + 3
      invariant i + 1 <= j
      invariant Below14(lines, j, i + 3, sc) == Below14(lines, i + 1, i + 3, sc)
      decreases |lines| - j
    {
      var candidateLine := Strip(lines[j]);
      if candidateLine == [] {
        j := j + 1;
        continue;
      }
      if sc.isStop(candidateLine) {
        return None;
      }
      var candidate := candidateLine;
      if candidate[0] == ':' {
        candidate := Strip(candidate[1..]);
      }
      if Takes(candidate, sc) {
        return Some(candidate);
      }
      j := j + 1;
    }
    return None;
  }

  /** One (line, label) pair of `extract_section14_field`, on a non-blank line. */
  method Step14At(lines: seq<string>, i: nat, lab: seq<Tok>, sc: Screen) returns (v: Option<string>)
    requires i < |lines| && Strip(lines[i]) != []
    ensures v == Step14(lines, i, lab, sc)
  {
    var stripped := Strip(lines[i]);
    var same := Sec14Candidate(stripped, lab);
    if same.Some? && Takes(same.value, sc) {
      return same;
    }
    if Found(lab, stripped, true) {
      v := LookBelow14(lines, i, sc);
    } else {
      v := None;
    }
  }

  lemma Blank14Cell(lines: seq<string>, i: nat, lab: seq<Tok>, sc: Screen)
    requires i < |lines| && Strip(lines[i]) == []
    ensures Step14(lines, i, lab, sc).None?
  {
  }

  lemma Blank14Row(lines: seq<string>, i: nat, labels: seq<seq<Tok>>, sc: Screen)
    requires i < |lines| && Strip(lines[i]) == []
    ensures var g := Section14Grid(lines, labels, sc);
      forall y :: 0 <= y < |g[i]| ==> g[i][y].None?
  {
    var g: seq<seq<Option<string>>> := Section14Grid(lines, labels, sc);
    forall y | 0 <= y < |g[i]|
      ensures g[i][y].None?
    {
      Blank14Cell(lines, i, labels[y], sc);
    }
  }

  /** The label loop of `extract_section14_field` over one non-blank line. */
  method ScanLabels14(lines: seq<string>, i: nat, labels: seq<seq<Tok>>, sc: Screen) returns (r: Option<string>)
    requires i < |lines| && Strip(lines[i]) != []
    ensures var g := Section14Grid(lines, labels, sc);
      r == FirstInRow(g, i, 0)
  {
    ghost var g := Section14Grid(lines, labels, sc);
    var k := 0;
    while k < |labels|
      invariant 0 <= k <= |labels|
      invariant FirstInRow(g, i, k) == FirstInRow(g, i, 0)
    {
      var v := Step14At(lines, i, labels[k], sc);
      assert g[i][k] == v;
      if v.Some? {
        return v;
      }
      k := k + 1;
    }
    return None;
  }

  /** The nested scan of `extract_section14_field`. */
  method ExtractSection14With(sec14: string, labels: seq<seq<Tok>>, sc: Screen) returns (r: Option<string>)
    ensures r == Section14With(sec14, labels, sc)
  {
    if sec14 == [] {
      return None;
    }
    var lines := SplitLines(sec14);
    ghost var g := Section14Grid(lines, labels, sc);
    var i := 0;
    while i < |lines|
      invariant 0 <= i <= |lines|
      invariant FirstHit(g, i, 0) == FirstHit(g, 0, 0)
    {
      if Strip(lines[i]) == [] {
        Blank14Row(lines, i, labels, sc);
        FirstHitSkipRow(g, i, 0);
        i := i + 1;
        continue;
      }
      var v := ScanLabels14(lines, i, labels, sc);
      FirstHitRow(g, i);
      if v.Some? {
        return v;
      }
      i := i + 1;
    }
    return None;
  }

  /** `extract_section14_field(sec14, labels, field_name)`. */
  method ExtractSection14Field(sec14: string, labels: seq<seq<Tok>>, fieldName: string) returns (r: Option<string>)
    ensures r == Section14Field(sec14, labels, fieldName)
  {
    r := ExtractSection14With(sec14, labels, Section14Screen(fieldName));
  }

  /** A cell's value is the same-line candidate or one from the next two lines, and the field takes it. */
  lemma Step14Source(lines: seq<string>, i: nat, lab: seq<Tok>, sc: Screen) returns (j: nat)
    requires i < |lines| && Step14(lines, i, lab, sc).Some?
    ensures j < |lines| && Takes(Step14(lines, i, lab, sc).value, sc)
    ensures var v := Step14(lines, i, lab, sc).value;
      (j == i && Sec14Candidate(Strip(lines[i]), lab) == Some(v))
      || (i < j < i + 3 && v == BelowCandidate(lines[j]) && Quiet14(lines, i + 1, j, sc))
  {
    var same := Sec14Candidate(Strip(lines[i]), lab);
    if same.Some? && Takes(same.value, sc) {
      assert Step14(lines, i, lab, sc) == same;
      j := i;
    } else {
      assert Step14(lines, i, lab, sc) == Below14(lines, i + 1, i + 3, sc);
      j := Below14Window(lines, i + 1, i + 3, sc);
    }
  }

  /**
   * Where the value of the Section 14 scan comes from: line `i` and label `k`,
   * either on the line itself or at most two lines below with no label line in
   * between; the field takes it, and every earlier pair yielded nothing.
   */
  lemma Section14Source(sec14: string, labels: seq<seq<Tok>>, sc: Screen) returns (i: nat, k: nat, j: nat)
    requires Section14With(sec14, labels, sc).Some?
    ensures var lines := SplitLines(sec14); var v := Section14With(sec14, labels, sc).value;
      i < |lines| && k < |labels| && j < |lines|
      && ((j == i && Sec14Candidate(Strip(lines[i]), labels[k]) == Some(v))
          || (i < j < i + 3 && v == BelowCandidate(lines[j]) && Quiet14(lines, i + 1, j, sc)))
    ensures var lines := SplitLines(sec14);
      forall x: nat, y: nat :: x < |lines| && y < |labels| && (x < i || (x == i && y < k)) ==>
        Step14(lines, x, labels[y], sc).None?
    ensures Takes(Section14With(sec14, labels, sc).value, sc)
  {
    var lines := SplitLines(sec14);
    var g: seq<seq<Option<string>>> := Section14Grid(lines, labels, sc);
    i, k := FirstHitFound(g, 0, 0);
    j := Step14Source(lines, i, labels[k], sc);
    forall x: nat, y: nat | x < |lines| && y < |labels| && (x < i || (x == i && y < k))
      ensures Step14(lines, x, labels[y], sc).None?
    {
      assert Between(g, 0, 0, x, y, i, k);
    }
  }

  /**
   * A dangerous-goods class from `extract_section14_field` passes
   * `validate_dangerous_goods_class`, a packing group matches
   * `VALID_PACKING_GROUPS`, and no field's value is empty or noise.
   */
  lemma Section14Validated(sec14: string, labels: seq<seq<Tok>>, fieldName: string)
    requires Section14Field(sec14, labels, fieldName).Some?
    ensures var v := Section14Field(sec14, labels, fieldName).value;
      v != [] && !IsNoiseText(v)
      && (fieldName == "dangerous_goods_class" ==> ValidateDangerousGoodsClass(v))
      && (fieldName == "packing_group" ==> IsPackingGroup(v))
  {
    var i, k, j := Section14Source(sec14, labels, Section14Screen(fieldName));
  }

  // ---- extract_product_name ----

  /** `^\s*(?:section\s*)?1(?:\s|$)`: the Section 1 heading. */
  const SectionOneHead: seq<Tok> :=
    [Bol(false), Ws0, Opt([Lit("section"), Ws0]), Lit("1"), AnyOf([[One(Space)], [Eol(false)]])]

  /** Words of header and contact lines: identification, supplier, manufacturer, emergency, ... */
  const HeaderWords: seq<Tok> := [AnyOf([
    [Lit("identification")], [Lit("supplier")], [Lit("manufacturer")], [Lit("emergency")], [Lit("contact")],
    [Lit("telephone")], [Lit("fax")], [Lit("email")], [Lit("web"), Ws0, Lit("site")], [Lit("details")],
    [Lit("address")], [Lit("synonym")], [Lit("regulation")]])]

  /** `safety\s+data\s+sheet|according\s+to` */
  const SheetMention: seq<Tok> := [AnyOf([Phrase(["safety", "data", "sheet"]), Phrase(["according", "to"])])]

  /** A line that is a label alone, optionally followed by a colon or dash (`{label}\s*[:\-]?`, in full). */
  predicate IsLabelLine(clean: string, labels: seq<seq<Tok>>) {
    labels != [] && (FullMatch(labels[0] + [Ws0, Maybe(ColonOrDash)], clean, true) || IsLabelLine(clean, labels[1..]))
  }

  /** A stripped line of the first ten that may hold the product name: none of the header, label or noise lines. */
  predicate IsMeaningfulLine(clean: string) {
    clean != []
    && !MatchesAt(SectionOneHead, clean, 0, true)
    && !Found(HeaderWords, clean, true)
    && clean[0] != '('
    && !Found(SheetMention, clean, true)
    && !IsNoiseText(clean)
    && !PunctuationOnly(clean)
    && !IsLabelLine(clean, AllFieldLabels)
  }

  /** `^\d+(?:\.\d+)?\s*`: a leading section number. */
  const LeadingNumber: seq<Tok> := [Bol(false), Digits1, Opt([Lit("."), Digits1]), Ws0]

  /** `^(?:product\s+identifier\s*[:\-]?\s*)` */
  const IdentifierPrefix: seq<Tok> := [Bol(false)] + Phrase(["product", "identifier"]) + [Ws0, Maybe(ColonOrDash), Ws0]

  /** `^(?:product\s+name|sds\s+no\.?|sds\s+number)` */
  const NameHead: seq<Tok> := [Bol(false), AnyOf([
    Phrase(["product", "name"]), [Lit("sds"), Ws1, Lit("no"), Maybe(Chars("."))], Phrase(["sds", "number"])])]

  /** `^\d+\s*[\-–]`: a numbered item such as "1 - ...". */
  const NumberedDash: seq<Tok> := [Bol(false), Digits1, Ws0, One(Chars("-–"))]

  /** `\b\d{2,4}[-\s]\d{2,4}[-\s]\d{2,4}\b`: a phone number. */
  const PhoneNumber: seq<Tok> := [
    WordBoundary, DigitsBetween(2, 4), One(DashOrSpace), DigitsBetween(2, 4), One(DashOrSpace),
    DigitsBetween(2, 4), WordBoundary]

  /** `@|www\.|\.com|\.org` */
  const WebMarker: seq<Tok> := [AnyOf([[Lit("@")], [Lit("www.")], [Lit(".com")], [Lit(".org")]])]

  /** `[A-Za-z0-9]` occurs. */
  predicate HasAlnum(c: string) {
    exists k :: 0 <= k < |c| && IsAlnum(c[k])
  }

  /** A meaningful line without a leading number and without a "Product identifier" prefix. */
  function ProductCandidate(line: string): string {
    Remove(IdentifierPrefix, Remove(LeadingNumber, line, 0, false), 0, true)
  }

  /** A candidate that looks like a product name. */
  predicate LooksLikeProductName(c: string) {
    !Found(NameHead, c, true)
    && !MatchesAt(NumberedDash, c, 0, false)
    && HasAlnum(c) && |c| > 3
    && !Found(PhoneNumber, c, false)
    && !Found(WebMarker, c, true)
  }

  /** The line fallback: the first ten lines only. */
  function ProductNameFallback(sectionText: string): Option<string> {
    var meaningful := KeepMapped(Take(SplitLines(sectionText), 10), Strip, IsMeaningfulLine);
    FirstMapped(meaningful, ProductCandidate, LooksLikeProductName)
  }

  /** `extract_product_name`: a labelled value, else the line fallback. */
  function ProductName(sectionText: string): Option<string> {
    if sectionText == [] then None
    else
      var fromLabel := AfterLabelWith(sectionText, ProductNameLabels, OriginalRules);
      if fromLabel.Some? && fromLabel.value != [] && !IsNoiseText(fromLabel.value) then fromLabel
      else ProductNameFallback(sectionText)
  }

  method ExtractProductName(sectionText: string) returns (r: Option<string>)
    ensures r == ProductName(sectionText)
  {
    if sectionText == [] {
      return None;
    }
    var fromLabel := ExtractAfterLabel(sectionText, ProductNameLabels, OriginalRules);
    if fromLabel.Some? && fromLabel.value != [] && !IsNoiseText(fromLabel.value) {
      return fromLabel;
    }
    var meaningful := CollectMapped(Take(SplitLines(sectionText), 10), Strip, IsMeaningfulLine);
    r := FindFirstMapped(meaningful, ProductCandidate, LooksLikeProductName);
  }

  /**
   * The line fallback only looks at the first ten lines: its value is the
   * candidate of one of them that passed the line filter, and it is longer than
   * three characters and holds a letter or digit.
   */
  lemma ProductFallbackSource(sectionText: string) returns (k: nat)
    requires ProductNameFallback(sectionText).Some?
    ensures var lines := SplitLines(sectionText); var v := ProductNameFallback(sectionText).value;
      k < 10 && k < |lines| && IsMeaningfulLine(Strip(lines[k])) && v == ProductCandidate(Strip(lines[k]))
      && |v| > 3 && HasAlnum(v)
  {
    var head := Take(SplitLines(sectionText), 10);
    var meaningful := KeepMapped(head, Strip, IsMeaningfulLine);
    var m := FirstMappedFrom(meaningful, ProductCandidate, LooksLikeProductName);
    k := KeepMappedFrom(head, Strip, IsMeaningfulLine, m);
  }

  /** The noise test after the label strategy never rejects: a labelled value is returned whenever there is one. */
  lemma ProductNameLabelFirst(sectionText: string)
    requires sectionText != [] && AfterLabelWith(sectionText, ProductNameLabels, OriginalRules).Some?
    ensures ProductName(sectionText) == AfterLabelWith(sectionText, ProductNameLabels, OriginalRules)
  {
    AfterLabelNeverNoise(sectionText, ProductNameLabels);
  }

  // ---- extract_manufacturer ----

  /** A labelled manufacturer: not noise, longer than two characters, not punctuation only. */
  predicate LabelledManufacturer(m: string) {
    m != [] && !IsNoiseText(m) && |m| > 2 && !PunctuationOnly(m)
  }

  /** `Details\s+of\s+the\s+supplier[^\n]*?:\s*(.+)`, cut at the value group. */
  const InlineDetailsParts: seq<seq<Tok>> := [
    Phrase(["Details", "of", "the", "supplier"]) + [Rep(NotNewline, 0, None, true), Lit(":"), Ws0],
    [AnyRun1]]

  /** `Details\s+of\s+the\s+supplier[^\n]*\n([^:]+?)(?:\n\s*[A-Z]|\n\s*\d|$)`, cut at the block group. */
  const SupplierBlockParts: seq<seq<Tok>> := [
    Phrase(["Details", "of", "the", "supplier"]) + [AnyRun, Lit("\n")],
    [Rep(NotChars(":"), 1, None, true)],
    [AnyOf([[Lit("\n"), Ws0, One(UpperLetter)], [Lit("\n"), Ws0, One(Digit)], [Eol(false)]])]]

  /** The first line of the inline supplier details, stripped. */
  function InlineDetails(sectionText: string): Option<string> {
    match Group1(InlineDetailsParts, sectionText, true)
    case None => None
    case Some(g) => Some(Strip(g[..FirstBreak(g)]))
  }

  /** A line of the supplier block that may name the supplier. */
  predicate SupplierLine(clean: string) {
    clean != [] && !IsNoiseText(clean) && |clean| > 3 && !Found(PhoneNumber, clean, false)
  }

  /** The supplier block's lines. */
  function SupplierBlock(sectionText: string): Option<seq<string>> {
    match Group1(SupplierBlockParts, sectionText, true)
    case None => None
    case Some(g) => Some(SplitLines(Strip(g)))
  }

  /** `extract_manufacturer`: a labelled value, else inline supplier details, else the supplier block. */
  function Manufacturer(sectionText: string): Option<string> {
    if sectionText == [] then None
    else
      var fromLabel := AfterLabelWith(sectionText, ManufacturerLabels, OriginalRules);
      if fromLabel.Some? && LabelledManufacturer(fromLabel.value) then fromLabel
      else
        var inline := InlineDetails(sectionText);
        if inline.Some? && inline.value != [] && !IsNoiseText(inline.value) then inline
        else
          var block := SupplierBlock(sectionText);
          if block.Some? then FirstMapped(block.value, Strip, SupplierLine) else None
  }

  method ExtractManufacturer(sectionText: string) returns (r: Option<string>)
    ensures r == Manufacturer(sectionText)
  {
    if sectionText == [] {
      return None;
    }
    var fromLabel := ExtractAfterLabel(sectionText, ManufacturerLabels, OriginalRules);
    if fromLabel.Some? && LabelledManufacturer(fromLabel.value) {
      return fromLabel;
    }
    var inline := InlineDetails(sectionText);
    if inline.Some? && inline.value != [] && !IsNoiseText(inline.value) {
      return inline;
    }
    var block := SupplierBlock(sectionText);
    if block.None? {
      return None;
    }
    r := FindFirstMapped(block.value, Strip, SupplierLine);
  }

  /** Every strategy of `extract_manufacturer` rejects empty text and noise. */
  lemma ManufacturerNeverNoise(sectionText: string)
    requires Manufacturer(sectionText).Some?
    ensures var m := Manufacturer(sectionText).value; m != [] && !IsNoiseText(m)
  {
    var fromLabel := AfterLabelWith(sectionText, ManufacturerLabels, OriginalRules);
    var inline := InlineDetails(sectionText);
    if !(fromLabel.Some? && LabelledManufacturer(fromLabel.value))
      && !(inline.Some? && inline.value != [] && !IsNoiseText(inline.value)) {
      var m := FirstMappedFrom(SupplierBlock(sectionText).value, Strip, SupplierLine);
    }
  }
}
