/**
 * The revised extractors of modules/field_extractor_fixed.py: the same label
 * scan as field_extractor.py under the fixed rules, a scan of table layouts for
 * the Section 14 transport fields, stricter product-name and manufacturer
 * strategies, the description, the revision date of a page header and the
 * legacy line-by-line extraction.
 */
module FieldExtractorFixed {
  import opened Wrappers
  import opened Text
  import opened Pattern
  import opened PatternLaws
  import opened Config
  import opened Utils
  import opened Scan
  import opened Dates
  import opened FieldExtractor

  // ---- alternations anchored at the start ----

  /** `^(?:alt1|alt2|...)` followed by `tail`. */
  function Anchored(alts: seq<seq<Tok>>, tail: seq<Tok>): seq<Tok> {
    [Bol(false), AnyOf(alts)] + tail
  }

  /** An end of `AnyOf(alts)` is an end of one of its alternatives, and of any alternation holding that one. */
  lemma AnyOfEnd(alts: seq<seq<Tok>>, wider: seq<seq<Tok>>, s: string, i: nat, ci: bool, e: nat)
    requires i <= |s| && e in Ends([AnyOf(alts)], s, i, ci)
    requires forall k :: 0 <= k < |alts| ==> alts[k] in wider
    ensures e in Ends([AnyOf(wider)], s, i, ci)
  {
    var ga := seq(|alts|, k requires 0 <= k < |alts| => Cat(alts[k]));
    var gw := seq(|wider|, k requires 0 <= k < |wider| => Cat(wider[k]));
    EndsGroup(ga, false, s, i, ci, e);
    var k :| 0 <= k < |ga| && e in Ends([ga[k]], s, i, ci);
    var m :| 0 <= m < |wider| && wider[m] == alts[k];
    assert gw[m] == ga[k];
    EndsGroup(gw, false, s, i, ci, e);
  }

  /**
   * Widening an anchored alternation keeps every match: text that `^(A|B)...`
   * accepts is accepted by any `^(...)...` whose alternatives include A and B.
   */
  lemma AnchoredWiden(alts: seq<seq<Tok>>, wider: seq<seq<Tok>>, tail: seq<Tok>, s: string, ci: bool)
    requires Subsumed(alts, wider)
    requires MatchesAt(Anchored(alts, tail), s, 0, ci)
    ensures MatchesAt(Anchored(wider, tail), s, 0, ci)
  {
    var e := Ends(Anchored(alts, tail), s, 0, ci)[0];
    assert Anchored(alts, tail) == [Bol(false)] + ([AnyOf(alts)] + tail);
    assert Anchored(wider, tail) == [Bol(false)] + ([AnyOf(wider)] + tail);
    EndsSeq([Bol(false)], [AnyOf(alts)] + tail, s, 0, ci, e);
    var j :| j in Ends([Bol(false)], s, 0, ci) && e in Ends([AnyOf(alts)] + tail, s, j, ci);
    EndsSeq([AnyOf(alts)], tail, s, j, ci, e);
    var h :| h in Ends([AnyOf(alts)], s, j, ci) && e in Ends(tail, s, h, ci);
    AnyOfEnd(alts, wider, s, j, ci, h);
    EndsSeq([AnyOf(wider)], tail, s, j, ci, e);
    EndsSeq([Bol(false)], [AnyOf(wider)] + tail, s, 0, ci, e);
  }

  /** Every alternative of `alts` is one of `wider`. */
  predicate Subsumed(alts: seq<seq<Tok>>, wider: seq<seq<Tok>>) {
    forall k :: 0 <= k < |alts| ==> alts[k] in wider
  }

  lemma SubsumedPrefix(alts: seq<seq<Tok>>, more: seq<seq<Tok>>)
    ensures Subsumed(alts, alts + more)
  {
    forall k | 0 <= k < |alts|
      ensures alts[k] in alts + more
    {
      assert (alts + more)[k] == alts[k];
    }
  }

  lemma SubsumedSuffix(more: seq<seq<Tok>>, alts: seq<seq<Tok>>)
    ensures Subsumed(alts, more + alts)
  {
    forall k | 0 <= k < |alts|
      ensures alts[k] in more + alts
    {
      assert (more + alts)[|more| + k] == alts[k];
    }
  }

  lemma SubsumedTrans(a: seq<seq<Tok>>, b: seq<seq<Tok>>, c: seq<seq<Tok>>)
    requires Subsumed(a, b) && Subsumed(b, c)
    ensures Subsumed(a, c)
  {
    forall k | 0 <= k < |a|
      ensures a[k] in c
    {
      var m :| 0 <= m < |b| && b[m] == a[k];
    }
  }

  // ---- extract_from_table_structure ----

  /** `\s{2,}|\t|\|`: what separates the cells of a table row. */
  const CellSeparator: seq<Tok> := [AnyOf([[Rep(Space, 2, None, false)], [Lit("\t")], [Lit("|")]])]

  /** `re.split(r'\s{2,}|\t|\|', row)`. */
  function Cells(row: string): seq<string> {
    SplitBy(CellSeparator, row, 0, false)
  }

  /** A cell the field takes: non-empty and valid for the field. */
  function CellTaken(valid: string -> bool): string -> bool {
    c => c != [] && valid(c)
  }

  /** The first cell of a (stripped) row below the header that the field takes. */
  function RowValue(lines: seq<string>, j: nat, valid: string -> bool): Option<string>
    requires j < |lines|
  {
    FirstMapped(Cells(Strip(lines[j])), Strip, CellTaken(valid))
  }

  /** The rows `j` up to `end` (exclusive) below a header line: blank rows are passed over. */
  function TableBelow(lines: seq<string>, j: nat, end: nat, valid: string -> bool): Option<string>
    decreases |lines| - j
  {
    if j >= |lines| || j >= end then None
    else if Strip(lines[j]) == [] then TableBelow(lines, j + 1, end, valid)
    else
      var v := RowValue(lines, j, valid);
      if v.Some? then v else TableBelow(lines, j + 1, end, valid)
  }

  /** A header line: a cell after the header itself, or else a cell of one of the next three rows. */
  function TableAt(lines: seq<string>, i: nat, header: seq<Tok>, valid: string -> bool): Option<string>
    requires i < |lines|
  {
    if !Found(header, lines[i], true) then None
    else
      var same := FirstMapped(Cells(lines[i])[1..], Strip, CellTaken(valid));
      if same.Some? then same else TableBelow(lines, i + 1, i + 4, valid)
  }

  /** The outcome of every line: what a header line yields, `None` for the others. */
  function TableRows(lines: seq<string>, header: seq<Tok>, valid: string -> bool): seq<Option<string>> {
    seq(|lines|, i requires 0 <= i < |lines| => TableAt(lines, i, header, valid))
  }

  /** The table scan for one header pattern and one validator: the first header line that yields a value. */
  function TableWith(text: string, header: seq<Tok>, valid: string -> bool): Option<string> {
    if text == [] then None else FirstSome(TableRows(SplitLines(text), header, valid), 0)
  }

  /** `packing\s+group` */
  const PackingGroupHeader: seq<Tok> := Phrase(["packing", "group"])

  /** `(?:DG\s+Class|Transport\s+hazard\s+class|Hazard\s+Class)` */
  const DgClassHeader: seq<Tok> :=
    [AnyOf([Phrase(["DG", "Class"]), Phrase(["Transport", "hazard", "class"]), Phrase(["Hazard", "Class"])])]

  /** `extract_from_table_structure(text, field_name)`: only the packing group and the dangerous-goods class have a table strategy. */
  function TableStructure(text: string, fieldName: string): Option<string> {
    if text == [] then None
    else if fieldName == "packing_group" then TableWith(text, PackingGroupHeader, IsPackingGroup)
    else if fieldName == "dangerous_goods_class" then TableWith(text, DgClassHeader, ValidateDangerousGoodsClass)
    else None
  }

  /** The rows below a header line: at most the three that follow it. */
  method LookBelowTable(lines: seq<string>, i: nat, valid: string -> bool) returns (r: Option<string>)
    ensures r == TableBelow(lines, i + 1, i + 4, valid)
  {
    var j := i + 1;
    while j < |lines| && j < i + 4
      invariant i + 1 <= j
      invariant TableBelow(lines, j, i + 4, valid) == TableBelow(lines, i + 1, i + 4, valid)
      decreases |lines| - j
    {
      var tableLine := Strip(lines[j]);
      if tableLine == [] {
        j := j + 1;
        continue;
      }
      var cell := FindFirstMapped(Cells(tableLine), Strip, CellTaken(valid));
      if cell.Some? {
        return cell;
      }
      j := j + 1;
    }
    return None;
  }

  method TableAtLine(lines: seq<string>, i: nat, header: seq<Tok>, valid: string -> bool) returns (r: Option<string>)
    requires i < |lines|
    ensures r == TableAt(lines, i, header, valid)
  {
    if !Found(header, lines[i], true) {
      return None;
    }
    var parts := Cells(lines[i]);
    var same := FindFirstMapped(parts[1..], Strip, CellTaken(valid));
    if same.Some? {
      return same;
    }
    r := LookBelowTable(lines, i, valid);
  }

  method ExtractFromTableWith(text: string, header: seq<Tok>, valid: string -> bool) returns (r: Option<string>)
    ensures r == TableWith(text, header, valid)
  {
    if text == [] {
      return None;
    }
    var lines := SplitLines(text);
    ghost var rows := TableRows(lines, header, valid);
    var i := 0;
    while i < |lines|
      invariant 0 <= i <= |lines|
      invariant FirstSome(rows, i) == FirstSome(rows, 0)
    {
      var v := TableAtLine(lines, i, header, valid);
      assert rows[i] == v;
      if v.Some? {
        return v;
      }
      i := i + 1;
    }
    return None;
  }

  method ExtractFromTableStructure(text: string, fieldName: string) returns (r: Option<string>)
    ensures r == TableStructure(text, fieldName)
  {
    if text == [] {
      return None;
    }
    if fieldName == "packing_group" {
      r := ExtractFromTableWith(text, PackingGroupHeader, IsPackingGroup);
    } else if fieldName == "dangerous_goods_class" {
      r := ExtractFromTableWith(text, DgClassHeader, ValidateDangerousGoodsClass);
    } else {
      r := None;
    }
  }

  /** A value found below a header is a stripped cell of one of the rows of the window, and the field takes it. */
  lemma {:induction false} TableBelowSource(lines: seq<string>, j: nat, end: nat, valid: string -> bool)
    returns (a: nat, m: nat)
    requires TableBelow(lines, j, end, valid).Some?
    ensures j <= a < end && a < |lines| && m < |Cells(Strip(lines[a]))|
    ensures TableBelow(lines, j, end, valid) == Some(Strip(Cells(Strip(lines[a]))[m]))
    ensures Strip(Cells(Strip(lines[a]))[m]) != [] && valid(Strip(Cells(Strip(lines[a]))[m]))
    decreases |lines| - j
  {
    if Strip(lines[j]) == [] || RowValue(lines, j, valid).None? {
      a, m := TableBelowSource(lines, j + 1, end, valid);
    } else {
      a := j;
      m := FirstMappedFrom(Cells(Strip(lines[j])), Strip, CellTaken(valid));
    }
  }

  /** A header line's value: a cell after the header on the line itself, or a cell of one of the next three rows. */
  lemma TableAtSource(lines: seq<string>, i: nat, header: seq<Tok>, valid: string -> bool) returns (j: nat, m: nat)
    requires i < |lines| && TableAt(lines, i, header, valid).Some?
    ensures Found(header, lines[i], true)
    ensures var v := TableAt(lines, i, header, valid).value;
      v != [] && valid(v)
      && ((j == i && 0 < m < |Cells(lines[i])| && v == Strip(Cells(lines[i])[m]))
          || (i < j < i + 4 && j < |lines| && m < |Cells(Strip(lines[j]))| && v == Strip(Cells(Strip(lines[j]))[m])))
  {
    var parts := Cells(lines[i]);
    var same := FirstMapped(parts[1..], Strip, CellTaken(valid));
    if same.Some? {
      var n := FirstMappedFrom(parts[1..], Strip, CellTaken(valid));
      j, m := i, n + 1;
    } else {
      j, m := TableBelowSource(lines, i + 1, i + 4, valid);
    }
  }

  /**
   * Where a table value comes from: line `i` mentions the header, and the value
   * is a cell after the header on that line (`j == i`) or a cell of one of the
   * three rows below it; it is non-empty and valid for the field, and no
   * earlier header line yielded anything.
   */
  lemma TableSource(text: string, header: seq<Tok>, valid: string -> bool) returns (i: nat, j: nat, m: nat)
    requires TableWith(text, header, valid).Some?
    ensures var lines := SplitLines(text); var v := TableWith(text, header, valid).value;
      i < |lines| && Found(header, lines[i], true) && v != [] && valid(v)
      && ((j == i && 0 < m < |Cells(lines[i])| && v == Strip(Cells(lines[i])[m]))
          || (i < j < i + 4 && j < |lines| && m < |Cells(Strip(lines[j]))| && v == Strip(Cells(Strip(lines[j]))[m])))
    ensures var lines := SplitLines(text);
      forall x :: 0 <= x < i ==> TableAt(lines, x, header, valid).None?
  {
    var lines := SplitLines(text);
    var rows := TableRows(lines, header, valid);
    i := FirstSomeFound(rows, 0);
    j, m := TableAtSource(lines, i, header, valid);
    forall x | 0 <= x < i
      ensures TableAt(lines, x, header, valid).None?
    {
      assert rows[x] == TableAt(lines, x, header, valid);
    }
  }

  /** A table value is non-empty and valid: a packing group matches `VALID_PACKING_GROUPS`, a class passes `validate_dangerous_goods_class`. */
  lemma TableStructureValid(text: string, fieldName: string)
    requires TableStructure(text, fieldName).Some?
    ensures var v := TableStructure(text, fieldName).value;
      v != []
      && (fieldName == "packing_group" || fieldName == "dangerous_goods_class")
      && (fieldName == "packing_group" ==> IsPackingGroup(v))
      && (fieldName == "dangerous_goods_class" ==> ValidateDangerousGoodsClass(v))
  {
    if fieldName == "packing_group" {
      var i, j, m := TableSource(text, PackingGroupHeader, IsPackingGroup);
    } else {
      var i, j, m := TableSource(text, DgClassHeader, ValidateDangerousGoodsClass);
    }
  }

  // ---- extract_section14_field ----

  /** `extract_section14_field`: the fixed label scan, validated for the field, else the table scan. */
  function Section14Field(sec14: string, labels: seq<seq<Tok>>, fieldName: string): Option<string> {
    if sec14 == [] then None
    else
      var result := AfterLabelWith(sec14, labels, FixedRules);
      if result.Some? && result.value != [] && FieldValidator(fieldName)(result.value) then result
      else
        var table := TableStructure(sec14, fieldName);
        if table.Some? && table.value != [] then table else None
  }

  method ExtractSection14Field(sec14: string, labels: seq<seq<Tok>>, fieldName: string) returns (r: Option<string>)
    ensures r == Section14Field(sec14, labels, fieldName)
  {
    if sec14 == [] {
      return None;
    }
    var result := ExtractAfterLabel(sec14, labels, FixedRules);
    if result.Some? && result.value != [] {
      if fieldName == "dangerous_goods_class" {
        if ValidateDangerousGoodsClass(result.value) {
          return result;
        }
      } else if fieldName == "packing_group" {
        if IsPackingGroup(result.value) {
          return result;
        }
      } else {
        return result;
      }
    }
    var table := ExtractFromTableStructure(sec14, fieldName);
    if table.Some? && table.value != [] {
      return table;
    }
    return None;
  }

  /**
   * A Section 14 value is valid for its field: a class passes
   * `validate_dangerous_goods_class`, a packing group matches
   * `VALID_PACKING_GROUPS`; any other field comes from the label scan alone and
   * is never noise.
   */
  lemma Section14Validated(sec14: string, labels: seq<seq<Tok>>, fieldName: string)
    requires Section14Field(sec14, labels, fieldName).Some?
    ensures var v := Section14Field(sec14, labels, fieldName).value;
      v != []
      && (fieldName == "dangerous_goods_class" ==> ValidateDangerousGoodsClass(v))
      && (fieldName == "packing_group" ==> IsPackingGroup(v))
    ensures fieldName != "dangerous_goods_class" && fieldName != "packing_group" ==>
      Section14Field(sec14, labels, fieldName) == AfterLabelWith(sec14, labels, FixedRules)
      && !IsNoiseText(Section14Field(sec14, labels, fieldName).value)
  {
    var result := AfterLabelWith(sec14, labels, FixedRules);
    AfterLabelNeverNoise(sec14, labels);
    if !(result.Some? && result.value != [] && FieldValidator(fieldName)(result.value)) {
      TableStructureValid(sec14, fieldName);
    }
  }

  // ---- extract_product_name ----

  /** `Pty\s+Ltd|Ltd|Inc\.?|Corp\.?`: the corporate suffixes. */
  const CorporateSuffixes: seq<seq<Tok>> :=
    [Phrase(["Pty", "Ltd"]), [Lit("Ltd")], [Lit("Inc"), Maybe(Chars("."))], [Lit("Corp"), Maybe(Chars("."))]]

  /** `Alternative\s+number\(s\)|Other\s+Name\(s\)|Formulation\s+#`: labels of other identifiers. */
  const IdentifierLabels: seq<seq<Tok>> :=
    [Phrase(["Alternative", "number(s)"]), Phrase(["Other", "Name(s)"]), Phrase(["Formulation", "#"])]

  /** `Registration\s+no\.?\s*–?\s*US:?` */
  const RegistrationNumber: seq<Tok> :=
    [Lit("Registration"), Ws1, Lit("no"), Maybe(Chars(".")), Ws0, Maybe(Chars("–")), Ws0, Lit("US"), Maybe(Chars(":"))]

  /** `Pty\s+Ltd|Ltd|Inc\.?|Corp\.?|Company` */
  const CompanyWords: seq<seq<Tok>> := CorporateSuffixes + [[Lit("Company")]]

  /** What a labelled product name must not be, in full: a company word or an identifier label. */
  const NotAProductName: seq<Tok> := Anchored(CompanyWords + IdentifierLabels + [RegistrationNumber], [Eol(false)])

  /** What a meaningful line must not be, in full: an identifier label. */
  const IdentifierLine: seq<Tok> := Anchored(IdentifierLabels + [RegistrationNumber], [Eol(false)])

  /** What a candidate of the line fallback must not be, in full. */
  const CompanyOrLabel: seq<Tok> := Anchored(CompanyWords + IdentifierLabels, [Eol(false)])

  /** What the split-table value must not be, in full. */
  const IdentifierLabel: seq<Tok> := Anchored(IdentifierLabels, [Eol(false)])

  /** `Product\s+Name[:\s]*([^:\n]*)`, cut at the group. */
  const SplitNameParts: seq<seq<Tok>> := [
    Phrase(["Product", "Name"]) + [Rep(Cls([Ch(':'), SpaceItem], false), 0, None, false)],
    [Rep(NotChars(":\n"), 0, None, false)]]

  /** `\s+(?:Pty\s+Ltd|Ltd|Inc\.?|Corp\.?).*$`: a trailing company name. */
  const CorporateTail: seq<Tok> := [Ws1, AnyOf(CorporateSuffixes), AnyRun, Eol(false)]

  /**
   * The split-table candidate, stripped, without a trailing company name. The
   * flag passed to `re.sub` lands in its `count` parameter (IGNORECASE is 2), so
   * the removal is case-sensitive and removes at most two matches.
   */
  function SplitTableName(sectionText: string): Option<string> {
    match Group1(SplitNameParts, sectionText, true)
    case None => None
    case Some(g) => Some(Remove(CorporateTail, Strip(g), 2, false))
  }

  predicate SplitNameAccepted(c: string) {
    c != [] && !IsNoiseText(c) && |c| > 2 && !MatchesAt(IdentifierLabel, c, 0, true)
  }

  /** The line filter of the fixed fallback: the original one, and no identifier label. */
  predicate MeaningfulLine(clean: string) {
    IsMeaningfulLine(clean) && !MatchesAt(IdentifierLine, clean, 0, true)
  }

  /** The candidate test of the fixed fallback: the original one, and no company word or identifier label. */
  predicate LooksLikeName(c: string) {
    LooksLikeProductName(c) && !MatchesAt(CompanyOrLabel, c, 0, true)
  }

  /** The line fallback: the first twenty lines. */
  function ProductNameFallback(sectionText: string): Option<string> {
    var meaningful := KeepMapped(Take(SplitLines(sectionText), 20), Strip, MeaningfulLine);
    FirstMapped(meaningful, ProductCandidate, LooksLikeName)
  }

  predicate LabelledProductName(v: string) {
    v != [] && !IsNoiseText(v) && !MatchesAt(NotAProductName, v, 0, true)
  }

  /** The fixed `extract_product_name`: a labelled value, else the split-table value, else the line fallback. */
  function ProductName(sectionText: string): Option<string> {
    if sectionText == [] then None
    else
      var fromLabel := AfterLabelWith(sectionText, ProductNameLabels, FixedRules);
      if fromLabel.Some? && LabelledProductName(fromLabel.value) then fromLabel
      else
        var split := SplitTableName(sectionText);
        if split.Some? && SplitNameAccepted(split.value) then split
        else ProductNameFallback(sectionText)
  }

  method ExtractProductName(sectionText: string) returns (r: Option<string>)
    ensures r == ProductName(sectionText)
  {
    if sectionText == [] {
      return None;
    }
    var fromLabel := ExtractAfterLabel(sectionText, ProductNameLabels, FixedRules);
    if fromLabel.Some? && LabelledProductName(fromLabel.value) {
      return fromLabel;
    }
    var split := SplitTableName(sectionText);
    if split.Some? && SplitNameAccepted(split.value) {
      return split;
    }
    var meaningful := CollectMapped(Take(SplitLines(sectionText), 20), Strip, MeaningfulLine);
    r := FindFirstMapped(meaningful, ProductCandidate, LooksLikeName);
  }

  /** A bare identifier label is also rejected by the labelled-value test and by the candidate test. */
  lemma IdentifierLabelRejected(v: string)
    requires MatchesAt(IdentifierLabel, v, 0, true)
    ensures MatchesAt(NotAProductName, v, 0, true) && MatchesAt(CompanyOrLabel, v, 0, true)
  {
    SubsumedSuffix(CompanyWords, IdentifierLabels);
    SubsumedPrefix(CompanyWords + IdentifierLabels, [RegistrationNumber]);
    SubsumedTrans(IdentifierLabels, CompanyWords + IdentifierLabels, CompanyWords + IdentifierLabels + [RegistrationNumber]);
    AnchoredWiden(IdentifierLabels, CompanyWords + IdentifierLabels, [Eol(false)], v, true);
    AnchoredWiden(IdentifierLabels, CompanyWords + IdentifierLabels + [RegistrationNumber], [Eol(false)], v, true);
  }

  /** Text that is not noise has at least two characters. */
  lemma NotNoiseLength(v: string)
    requires !IsNoiseText(v)
    ensures |v| >= 2
  {
    StripEnds(v);
  }

  /**
   * No strategy returns a bare identifier label ("Alternative number(s)",
   * "Other Name(s)", "Formulation #"), and every value has at least two
   * characters.
   */
  lemma ProductNameNeverIdentifierLabel(sectionText: string, v: string)
    requires ProductName(sectionText) == Some(v)
    ensures |v| >= 2 && !MatchesAt(IdentifierLabel, v, 0, true)
  {
    var fromLabel := AfterLabelWith(sectionText, ProductNameLabels, FixedRules);
    if fromLabel.Some? && LabelledProductName(fromLabel.value) {
      LabelledNeverIdentifier(v);
    } else {
      var split := SplitTableName(sectionText);
      if !(split.Some? && SplitNameAccepted(split.value)) {
        FallbackNeverIdentifier(sectionText, v);
      }
    }
  }

  /** A labelled product name is neither short nor a bare identifier label. */
  lemma LabelledNeverIdentifier(v: string)
    requires LabelledProductName(v)
    ensures |v| >= 2 && !MatchesAt(IdentifierLabel, v, 0, true)
  {
    if MatchesAt(IdentifierLabel, v, 0, true) {
      IdentifierLabelRejected(v);
    }
    NotNoiseLength(v);
  }

  /** The fallback's value is neither short nor a bare identifier label. */
  lemma FallbackNeverIdentifier(sectionText: string, v: string)
    requires ProductNameFallback(sectionText) == Some(v)
    ensures |v| >= 2 && !MatchesAt(IdentifierLabel, v, 0, true)
  {
    var k := ProductFallbackSourceFixed(sectionText);
    if MatchesAt(IdentifierLabel, v, 0, true) {
      IdentifierLabelRejected(v);
    }
  }

  /** The fixed fallback looks at the first twenty lines; its value is the candidate of a line that passed the filter. */
  lemma ProductFallbackSourceFixed(sectionText: string) returns (k: nat)
    requires ProductNameFallback(sectionText).Some?
    ensures var lines := SplitLines(sectionText); var v := ProductNameFallback(sectionText).value;
      k < 20 && k < |lines| && MeaningfulLine(Strip(lines[k])) && v == ProductCandidate(Strip(lines[k]))
      && LooksLikeName(v) && |v| > 3
  {
    var head := Take(SplitLines(sectionText), 20);
    var meaningful := KeepMapped(head, Strip, MeaningfulLine);
    var m := FirstMappedFrom(meaningful, ProductCandidate, LooksLikeName);
    k := KeepMappedFrom(head, Strip, MeaningfulLine, m);
  }

  // ---- extract_manufacturer ----

  /** `Emergency\s+Telephone\s+Number` */
  const EmergencyHeading: seq<Tok> := Phrase(["Emergency", "Telephone", "Number"])

  /** `Company[:.]?\s*$` */
  const CompanyAlone: seq<Tok> := [Lit("Company"), Maybe(Chars(":.")), Ws0, Eol(false)]

  /** `Company\s+No\.?[:.]?\s*$` */
  const CompanyNumberAlone: seq<Tok> :=
    [Lit("Company"), Ws1, Lit("No"), Maybe(Chars(".")), Maybe(Chars(":.")), Ws0, Eol(false)]

  /** `Emergency\s+Telephone\s+Number|Company[:.]?\s*$`: what no supplier value may start with. */
  const SupplierRejects: seq<seq<Tok>> := [EmergencyHeading, CompanyAlone]

  /** What a labelled manufacturer must not start with. */
  const NotAManufacturer: seq<Tok> :=
    Anchored([Phrase(["of", "the", "safety", "data", "sheet"])] + SupplierRejects + [CompanyNumberAlone], [])

  /** What a supplier-details value must not start with. */
  const NotASupplier: seq<Tok> := Anchored(SupplierRejects, [])

  /** What a company line must not start with. */
  const NotACompanyLine: seq<Tok> := Anchored(SupplierRejects + [CompanyNumberAlone], [])

  /** `\b(?:Pty\s+Ltd|Ltd|Inc\.?|Corp\.?|Company|Corporation)\b` */
  const CompanyIndicator: seq<Tok> :=
    [WordBoundary, AnyOf(CorporateSuffixes + [[Lit("Company")], [Lit("Corporation")]]), WordBoundary]

  /** `Product\s+Name\s*:` */
  const ProductNameColon: seq<Tok> := Phrase(["Product", "Name"]) + [Ws0, Lit(":")]

  predicate LabelledManufacturer(m: string) {
    m != [] && !IsNoiseText(m) && !MatchesAt(NotAManufacturer, m, 0, true) && |m| > 2 && !PunctuationOnly(m)
  }

  predicate SupplierValue(c: string) {
    c != [] && !IsNoiseText(c) && !MatchesAt(NotASupplier, c, 0, true)
  }

  predicate SupplierDetailsLine(clean: string) {
    SupplierLine(clean) && !MatchesAt(NotASupplier, clean, 0, true)
  }

  /** A line of the first fifteen that names a company and is not a label. */
  predicate CompanyLine(clean: string) {
    clean != [] && Found(CompanyIndicator, clean, true) && !Found(ProductNameColon, clean, true)
    && !MatchesAt(NotACompanyLine, clean, 0, true) && !IsNoiseText(clean)
  }

  /** The supplier block's first supplier line, if there is a block. */
  function FromSupplierBlock(sectionText: string): Option<string> {
    match SupplierBlock(sectionText)
    case None => None
    case Some(block) => FirstMapped(block, Strip, SupplierDetailsLine)
  }

  /** The fixed `extract_manufacturer`: label, inline supplier details, supplier block, then a company line. */
  function Manufacturer(sectionText: string): Option<string> {
    if sectionText == [] then None
    else
      var fromLabel := AfterLabelWith(sectionText, ManufacturerLabels, FixedRules);
      if fromLabel.Some? && LabelledManufacturer(fromLabel.value) then fromLabel
      else
        var inline := InlineDetails(sectionText);
        if inline.Some? && SupplierValue(inline.value) then inline
        else
          var fromBlock := FromSupplierBlock(sectionText);
          if fromBlock.Some? then fromBlock
          else FirstMapped(Take(SplitLines(sectionText), 15), Strip, CompanyLine)
  }

  method ExtractManufacturer(sectionText: string) returns (r: Option<string>)
    ensures r == Manufacturer(sectionText)
  {
    if sectionText == [] {
      return None;
    }
    var fromLabel := ExtractAfterLabel(sectionText, ManufacturerLabels, FixedRules);
    if fromLabel.Some? && LabelledManufacturer(fromLabel.value) {
      return fromLabel;
    }
    var inline := InlineDetails(sectionText);
    if inline.Some? && SupplierValue(inline.value) {
      return inline;
    }
    var block := SupplierBlock(sectionText);
    if block.Some? {
      var fromBlock := FindFirstMapped(block.value, Strip, SupplierDetailsLine);
      if fromBlock.Some? {
        return fromBlock;
      }
    }
    r := FindFirstMapped(Take(SplitLines(sectionText), 15), Strip, CompanyLine);
  }

  /** Text a supplier value may not start with is rejected by the label test and by the company-line test too. */
  lemma SupplierRejectsCovered(m: string)
    requires MatchesAt(NotASupplier, m, 0, true)
    ensures MatchesAt(NotAManufacturer, m, 0, true) && MatchesAt(NotACompanyLine, m, 0, true)
  {
    var sheet := [Phrase(["of", "the", "safety", "data", "sheet"])];
    SubsumedPrefix(SupplierRejects, [CompanyNumberAlone]);
    SubsumedSuffix(sheet, SupplierRejects);
    SubsumedPrefix(sheet + SupplierRejects, [CompanyNumberAlone]);
    SubsumedTrans(SupplierRejects, sheet + SupplierRejects, sheet + SupplierRejects + [CompanyNumberAlone]);
    AnchoredWiden(SupplierRejects, SupplierRejects + [CompanyNumberAlone], [], m, true);
    AnchoredWiden(SupplierRejects, sheet + SupplierRejects + [CompanyNumberAlone], [], m, true);
  }

  /** Non-empty, not noise, and not a heading or a bare "Company" label. */
  predicate Screened(m: string) {
    m != [] && !IsNoiseText(m) && !MatchesAt(NotASupplier, m, 0, true)
  }

  lemma LabelledScreened(m: string)
    requires LabelledManufacturer(m)
    ensures Screened(m)
  {
    if MatchesAt(NotASupplier, m, 0, true) {
      SupplierRejectsCovered(m);
    }
  }

  lemma BlockScreened(sectionText: string)
    requires FromSupplierBlock(sectionText).Some?
    ensures Screened(FromSupplierBlock(sectionText).value)
  {
    var n := FirstMappedFrom(SupplierBlock(sectionText).value, Strip, SupplierDetailsLine);
  }

  lemma CompanyLineScreened(sectionText: string)
    requires FirstMapped(Take(SplitLines(sectionText), 15), Strip, CompanyLine).Some?
    ensures Screened(FirstMapped(Take(SplitLines(sectionText), 15), Strip, CompanyLine).value)
  {
    var n := FirstMappedFrom(Take(SplitLines(sectionText), 15), Strip, CompanyLine);
    var m := FirstMapped(Take(SplitLines(sectionText), 15), Strip, CompanyLine).value;
    if MatchesAt(NotASupplier, m, 0, true) {
      SupplierRejectsCovered(m);
    }
  }

  /**
   * No strategy returns empty text, noise, or text that starts with
   * "Emergency Telephone Number" or is a bare "Company" label.
   */
  lemma ManufacturerScreened(sectionText: string)
    requires Manufacturer(sectionText).Some?
    ensures Screened(Manufacturer(sectionText).value)
  {
    var fromLabel := AfterLabelWith(sectionText, ManufacturerLabels, FixedRules);
    var inline := InlineDetails(sectionText);
    if fromLabel.Some? && LabelledManufacturer(fromLabel.value) {
      LabelledScreened(fromLabel.value);
    } else if inline.Some? && SupplierValue(inline.value) {
    } else if FromSupplierBlock(sectionText).Some? {
      BlockScreened(sectionText);
    } else {
      CompanyLineScreened(sectionText);
    }
  }

  /** The company-line strategy only looks at the first fifteen lines, and the line names a company. */
  lemma CompanyLineSource(sectionText: string) returns (k: nat)
    requires FirstMapped(Take(SplitLines(sectionText), 15), Strip, CompanyLine).Some?
    ensures var lines := SplitLines(sectionText);
      k < 15 && k < |lines|
      && FirstMapped(Take(lines, 15), Strip, CompanyLine) == Some(Strip(lines[k]))
      && CompanyLine(Strip(lines[k]))
  {
    var lines := SplitLines(sectionText);
    var head := Take(lines, 15);
    k := FirstMappedFrom(head, Strip, CompanyLine);
    assert head[k] == lines[k];
  }

  // ---- extract_description ----

  /** The labels of a product description or use, in priority order. */
  const DescriptionLabels: seq<seq<Tok>> := [
    Phrase(["Product", "description"]), [Lit("Description")], Phrase(["Use", "of", "the", "substance"]),
    Phrase(["Recommended", "use"]), Phrase(["Intended", "use"]), Phrase(["Product", "use"]),
    Phrase(["Relevant", "identified", "uses"]), Phrase(["Identified", "uses"]), [Lit("Application")]]

  /** `^of\s+the\s+substance\s+or\s+mixture\s+and\s+uses\s+advised\s+against\s*` */
  const AdvisedPrefix: seq<Tok> :=
    [Bol(false)] + Phrase(["of", "the", "substance", "or", "mixture", "and", "uses", "advised", "against"]) + [Ws0]

  /** `^/Mixture\s*:\s*` */
  const MixturePrefix: seq<Tok> := [Bol(false), Lit("/Mixture"), Ws0, Lit(":"), Ws0]

  /**
   * The description without the two heading fragments. As in the product-name
   * split table, the flag passed to `re.sub` is its `count`: both removals are
   * case-sensitive.
   */
  function CleanDescription(d: string): string {
    Remove(MixturePrefix, Remove(AdvisedPrefix, d, 2, false), 2, false)
  }

  /** `extract_description`: the labelled value without heading fragments, stripped, if anything is left. */
  function Description(sectionText: string): Option<string> {
    if sectionText == [] then None
    else
      var d := AfterLabelWith(sectionText, DescriptionLabels, FixedRules);
      if d.Some? && d.value != [] && !IsNoiseText(d.value) && Strip(CleanDescription(d.value)) != [] then
        Some(Strip(CleanDescription(d.value)))
      else None
  }

  method ExtractDescription(sectionText: string) returns (r: Option<string>)
    ensures r == Description(sectionText)
  {
    if sectionText == [] {
      return None;
    }
    var description := ExtractAfterLabel(sectionText, DescriptionLabels, FixedRules);
    if description.Some? && description.value != [] && !IsNoiseText(description.value) {
      var d := Remove(AdvisedPrefix, description.value, 2, false);
      d := Remove(MixturePrefix, d, 2, false);
      if Strip(d) != [] {
        return Some(Strip(d));
      }
    }
    return None;
  }

  /** A pattern anchored at `^` that does not match at the start removes nothing. */
  lemma AnchoredRemoveNothing(p: seq<Tok>, s: string, count: nat)
    requires p != [] && p[0] == Bol(false) && !MatchesAt(p, s, 0, false)
    ensures Remove(p, s, count, false) == s
  {
    var r := SearchFrom(p, s, 0, false);
    if r.Some? {
      LineStartOnly(p, s, r.value.start, false);
    }
    assert s[0..] == s;
  }

  /** A description is a non-empty stripped text. */
  lemma DescriptionStripped(sectionText: string)
    requires Description(sectionText).Some?
    ensures var v := Description(sectionText).value; v != [] && Strip(v) == v
  {
    var d := AfterLabelWith(sectionText, DescriptionLabels, FixedRules);
    StripIdempotent(CleanDescription(d.value));
  }

  /**
   * A labelled description that starts with neither heading fragment is
   * returned stripped: the clean-up removes nothing else.
   */
  lemma DescriptionUnprefixed(sectionText: string)
    requires sectionText != []
    requires AfterLabelWith(sectionText, DescriptionLabels, FixedRules).Some?
    requires var v := AfterLabelWith(sectionText, DescriptionLabels, FixedRules).value;
      !MatchesAt(AdvisedPrefix, v, 0, false) && !MatchesAt(MixturePrefix, v, 0, false)
    ensures Description(sectionText) == Some(Strip(AfterLabelWith(sectionText, DescriptionLabels, FixedRules).value))
  {
    var v := AfterLabelWith(sectionText, DescriptionLabels, FixedRules).value;
    AfterLabelNeverNoise(sectionText, DescriptionLabels);
    AnchoredRemoveNothing(AdvisedPrefix, v, 2);
    AnchoredRemoveNothing(MixturePrefix, v, 2);
  }

  // ---- extract_date_from_header ----

  /** `datetime.strptime(s, fmt).date()`, None where it raises; a library routine, so a parameter. */
  type Strptime = (string, string) -> Option<Date>

  /** A revision-date pattern: what leads up to the date, and the captured date itself. */
  datatype DatePattern = DatePattern(lead: seq<Tok>, date: seq<Tok>)

  /** The captured date text of the first match in a line. */
  function CaptureDate(p: DatePattern, line: string): Option<string> {
    Group1([p.lead, p.date], line, true)
  }

  /** `[:\s]` */
  const ColonOrSpace := Cls([Ch(':'), SpaceItem], false)

  /** `\d{4}-\d{2}-\d{2}` */
  const IsoDateText: seq<Tok> := [DigitsBetween(4, 4), Lit("-"), DigitsBetween(2, 2), Lit("-"), DigitsBetween(2, 2)]

  /** `\d{1,2}[/-]\d{1,2}[/-]\d{4}` */
  const NumericDateText: seq<Tok> :=
    [DigitsBetween(1, 2), One(Chars("/-")), DigitsBetween(1, 2), One(Chars("/-")), DigitsBetween(4, 4)]

  /** `\d{1,2}\s+\w+\s+\d{4}` */
  const WordDateText: seq<Tok> :=
    [DigitsBetween(1, 2), Ws1, Rep(Cls([WordItem], false), 1, None, false), Ws1, DigitsBetween(4, 4)]

  /** The revision patterns, in the order they are tried on each line. */
  const RevisionPatterns: seq<DatePattern> := [
    DatePattern([Lit("Revision"), Rep(ColonOrSpace, 1, None, false)], IsoDateText),
    DatePattern([Lit("Revision"), Rep(ColonOrSpace, 1, None, false)], NumericDateText),
    DatePattern([Lit("Rev"), Rep(ColonOrSpace, 1, None, false)], IsoDateText),
    DatePattern([Lit("Rev"), Rep(ColonOrSpace, 1, None, false)], NumericDateText),
    DatePattern([Lit("Date"), Rep(ColonOrSpace, 1, None, false)], IsoDateText),
    DatePattern([Lit("Date"), Rep(ColonOrSpace, 1, None, false)], NumericDateText),
    DatePattern([Lit("REVISION"), Ws1, Lit("DATE"), Rep(ColonOrSpace, 0, None, false)], WordDateText),
    DatePattern([Lit("Revision"), Rep(ColonOrSpace, 0, None, false)], WordDateText)]

  /** The formats tried on a captured date, in order. */
  const DateFormats: seq<string> := ["%Y-%m-%d", "%d/%m/%Y", "%m/%d/%Y", "%d-%m-%Y", "%d %B %Y", "%d %b %Y"]

  /** The first format under which the text parses to a date that is not after `today`. */
  function FirstFormat(ds: string, fmts: seq<string>, today: Date, strptime: Strptime): Option<Date> {
    if fmts == [] then None
    else
      match strptime(ds, fmts[0])
      case Some(d) => if After(d, today) then FirstFormat(ds, fmts[1..], today, strptime) else Some(d)
      case None => FirstFormat(ds, fmts[1..], today, strptime)
  }

  /** The outcome of one line and one pattern. */
  function HeaderCell(line: string, p: DatePattern, fmts: seq<string>, today: Date, strptime: Strptime): Option<string> {
    var clean := Strip(line);
    if clean == [] then None
    else
      match CaptureDate(p, clean)
      case None => None
      case Some(ds) =>
        match FirstFormat(ds, fmts, today, strptime)
        case None => None
        case Some(d) => Some(FormatIso(d))
  }

  function HeaderGrid(lines: seq<string>, pats: seq<DatePattern>, fmts: seq<string>, today: Date, strptime: Strptime)
    : seq<seq<Option<string>>>
  {
    seq(|lines|, i requires 0 <= i < |lines| =>
      seq(|pats|, k requires 0 <= k < |pats| => HeaderCell(lines[i], pats[k], fmts, today, strptime)))
  }

  /** The first twenty lines, lines in the outer loop and patterns in the inner loop. */
  function HeaderDateWith(text: string, pats: seq<DatePattern>, fmts: seq<string>, today: Date, strptime: Strptime)
    : Option<string>
  {
    if text == [] then None
    else FirstHit(HeaderGrid(Take(SplitLines(text), 20), pats, fmts, today, strptime), 0, 0)
  }

  /** `extract_date_from_header(text)`, with the parser and today's date as parameters. */
  function HeaderDate(text: string, today: Date, strptime: Strptime): Option<string> {
    HeaderDateWith(text, RevisionPatterns, DateFormats, today, strptime)
  }

  /** The format loop over one captured date. */
  method FirstFormatAt(ds: string, fmts: seq<string>, today: Date, strptime: Strptime) returns (r: Option<Date>)
    ensures r == FirstFormat(ds, fmts, today, strptime)
  {
    var n := 0;
    while n < |fmts|
      invariant 0 <= n <= |fmts|
      invariant FirstFormat(ds, fmts[n..], today, strptime) == FirstFormat(ds, fmts, today, strptime)
    {
      assert fmts[n..][1..] == fmts[n + 1..];
      var parsed := strptime(ds, fmts[n]);
      if parsed.Some? && !After(parsed.value, today) {
        return parsed;
      }
      n := n + 1;
    }
    return None;
  }

  method HeaderCellAt(line: string, p: DatePattern, fmts: seq<string>, today: Date, strptime: Strptime)
    returns (r: Option<string>)
    requires Strip(line) != []
    ensures r == HeaderCell(line, p, fmts, today, strptime)
  {
    var m := CaptureDate(p, Strip(line));
    if m.None? {
      return None;
    }
    var d := FirstFormatAt(m.value, fmts, today, strptime);
    if d.Some? {
      return Some(FormatIso(d.value));
    }
    return None;
  }

  lemma BlankHeaderRow(lines: seq<string>, i: nat, pats: seq<DatePattern>, fmts: seq<string>, today: Date, strptime: Strptime)
    requires i < |lines| && Strip(lines[i]) == []
    ensures var g := HeaderGrid(lines, pats, fmts, today, strptime);
      forall y :: 0 <= y < |g[i]| ==> g[i][y].None?
  {
    var g: seq<seq<Option<string>>> := HeaderGrid(lines, pats, fmts, today, strptime);
    forall y | 0 <= y < |g[i]|
      ensures g[i][y].None?
    {
      assert g[i][y] == HeaderCell(lines[i], pats[y], fmts, today, strptime);
    }
  }

  /** The pattern loop over one non-blank line. */
  method ScanDatePatterns(lines: seq<string>, i: nat, pats: seq<DatePattern>, fmts: seq<string>, today: Date, strptime: Strptime)
    returns (r: Option<string>)
    requires i < |lines| && Strip(lines[i]) != []
    ensures r == FirstInRow(HeaderGrid(lines, pats, fmts, today, strptime), i, 0)
  {
    ghost var g := HeaderGrid(lines, pats, fmts, today, strptime);
    var k := 0;
    while k < |pats|
      invariant 0 <= k <= |pats|
      invariant FirstInRow(g, i, k) == FirstInRow(g, i, 0)
    {
      var v := HeaderCellAt(lines[i], pats[k], fmts, today, strptime);
      assert g[i][k] == v;
      if v.Some? {
        return v;
      }
      k := k + 1;
    }
    return None;
  }

  method ExtractDateFromHeaderWith(text: string, pats: seq<DatePattern>, fmts: seq<string>, today: Date, strptime: Strptime)
    returns (r: Option<string>)
    ensures r == HeaderDateWith(text, pats, fmts, today, strptime)
  {
    if text == [] {
      return None;
    }
    var lines := Take(SplitLines(text), 20);
    ghost var g := HeaderGrid(lines, pats, fmts, today, strptime);
    var i := 0;
    while i < |lines|
      invariant 0 <= i <= |lines|
      invariant FirstHit(g, i, 0) == FirstHit(g, 0, 0)
    {
      if Strip(lines[i]) == [] {
        BlankHeaderRow(lines, i, pats, fmts, today, strptime);
        FirstHitSkipRow(g, i, 0);
        i := i + 1;
        continue;
      }
      var v := ScanDatePatterns(lines, i, pats, fmts, today, strptime);
      FirstHitRow(g, i);
      if v.Some? {
        return v;
      }
      i := i + 1;
    }
    return None;
  }

  method ExtractDateFromHeader(text: string, today: Date, strptime: Strptime) returns (r: Option<string>)
    ensures r == HeaderDate(text, today, strptime)
  {
    r := ExtractDateFromHeaderWith(text, RevisionPatterns, DateFormats, today, strptime);
  }

  /** The date chosen for a captured text was parsed under one of the formats, every earlier format failed, and it is not after `today`. */
  lemma {:induction false} FirstFormatSource(ds: string, fmts: seq<string>, today: Date, strptime: Strptime) returns (f: nat)
    requires FirstFormat(ds, fmts, today, strptime).Some?
    ensures f < |fmts| && strptime(ds, fmts[f]) == FirstFormat(ds, fmts, today, strptime)
    ensures !After(FirstFormat(ds, fmts, today, strptime).value, today)
    ensures forall x :: 0 <= x < f ==> strptime(ds, fmts[x]).None? || After(strptime(ds, fmts[x]).value, today)
  {
    var parsed := strptime(ds, fmts[0]);
    if parsed.Some? && !After(parsed.value, today) {
      f := 0;
    } else {
      f := FirstFormatSource(ds, fmts[1..], today, strptime);
      f := f + 1;
    }
  }

  /**
   * A header date comes from one of the first twenty lines and one of the
   * patterns: the captured text parsed under format `f` to a date `d` that is
   * not after `today`, and the result is `d` written as `YYYY-MM-DD`.
   */
  lemma HeaderDateSource(text: string, pats: seq<DatePattern>, fmts: seq<string>, today: Date, strptime: Strptime)
    returns (i: nat, k: nat, f: nat, ds: string, d: Date)
    requires HeaderDateWith(text, pats, fmts, today, strptime).Some?
    ensures var lines := SplitLines(text);
      i < 20 && i < |lines| && k < |pats| && f < |fmts|
      && CaptureDate(pats[k], Strip(lines[i])) == Some(ds)
      && strptime(ds, fmts[f]) == Some(d) && !After(d, today)
      && HeaderDateWith(text, pats, fmts, today, strptime) == Some(FormatIso(d))
  {
    var lines := Take(SplitLines(text), 20);
    var g: seq<seq<Option<string>>> := HeaderGrid(lines, pats, fmts, today, strptime);
    i, k := FirstHitFound(g, 0, 0);
    ds := CaptureDate(pats[k], Strip(lines[i])).value;
    d := FirstFormat(ds, fmts, today, strptime).value;
    f := FirstFormatSource(ds, fmts, today, strptime);
  }

  /**
   * A header date is never after `today`, and it is `YYYY-MM-DD` text that reads
   * back as the parsed date whenever that date is a real calendar date.
   */
  lemma HeaderDateNotFuture(text: string, today: Date, strptime: Strptime) returns (d: Date)
    requires HeaderDate(text, today, strptime).Some?
    ensures HeaderDate(text, today, strptime) == Some(FormatIso(d)) && !After(d, today)
    ensures IsoShape(HeaderDate(text, today, strptime).value)
    ensures ValidDate(d) ==> ParseIso(HeaderDate(text, today, strptime).value) == Some(d)
  {
    var i, k, f, ds;
    i, k, f, ds, d := HeaderDateSource(text, RevisionPatterns, DateFormats, today, strptime);
    FormatIsoShape(d);
    if ValidDate(d) {
      ParseFormatIso(d);
    }
  }

  // ---- extract_field_value_legacy ----

  /** `^{label}\s*[:\-]?\s*(.+)$`, cut at the value group. */
  function LegacyParts(lab: seq<Tok>): seq<seq<Tok>> {
    [[Bol(false)] + lab + [Ws0, Maybe(ColonOrDash), Ws0], [AnyRun1], [Eol(false)]]
  }

  /** `^{label}\s*[:\-]?\s*$`: the label alone. */
  function LegacyAlone(lab: seq<Tok>): seq<Tok> {
    [Bol(false)] + lab + [Ws0, Maybe(ColonOrDash), Ws0, Eol(false)]
  }

  /** `\s+(Tel|Phone|Fax|Email|Emergency).*$` */
  const ContactTail: seq<Tok> :=
    [Ws1, AnyOf([[Lit("Tel")], [Lit("Phone")], [Lit("Fax")], [Lit("Email")], [Lit("Emergency")]]), AnyRun, Eol(false)]

  /**
   * The same-line value without trailing punctuation and contact details. The
   * flag passed to the second `re.sub` is its `count`, so that removal is
   * case-sensitive.
   */
  function LegacyValue(g: string): string {
    Remove(ContactTail, Remove(TrailingPunct, Strip(g), 0, false), 2, false)
  }

  /** A line below a lone label that holds nothing: blank, or a colon alone. */
  predicate EmptyOrColon(c: string) {
    c == [] || c == ":"
  }

  /** A candidate below a lone label that is returned: it does not start with a colon and is not noise. */
  predicate LegacyTakes(c: string, isNoise: string -> bool) {
    c != [] && c[0] != ':' && !isNoise(c)
  }

  /** Lines `j` up to `end` (exclusive): the first non-blank line that does not start with a colon and is not noise. */
  function LegacyBelow(lines: seq<string>, j: nat, end: nat, isNoise: string -> bool): Option<string>
    decreases |lines| - j
  {
    if j >= |lines| || j >= end then None
    else if EmptyOrColon(Strip(lines[j])) then LegacyBelow(lines, j + 1, end, isNoise)
    else if LegacyTakes(Strip(lines[j]), isNoise) then Some(Strip(lines[j]))
    else LegacyBelow(lines, j + 1, end, isNoise)
  }

  /** The outcome of one line and one label: an acceptable same-line value, or the `below` lines under a label that stands alone. */
  function LegacyStep(lines: seq<string>, i: nat, lab: seq<Tok>, below: nat, isNoise: string -> bool): Option<string>
    requires i < |lines|
  {
    var line := Strip(lines[i]);
    if line == [] then None
    else
      var same := Group1(LegacyParts(lab), line, true);
      if same.Some? && LegacyValue(same.value) != [] && !isNoise(LegacyValue(same.value)) then
        Some(LegacyValue(same.value))
      else if MatchesAt(LegacyAlone(lab), line, 0, true) then LegacyBelow(lines, i + 1, i + 1 + below, isNoise)
      else None
  }

  function LegacyGrid(lines: seq<string>, labels: seq<seq<Tok>>, below: nat, isNoise: string -> bool): seq<seq<Option<string>>> {
    seq(|lines|, i requires 0 <= i < |lines| =>
      seq(|labels|, k requires 0 <= k < |labels| => LegacyStep(lines, i, labels[k], below, isNoise)))
  }

  /** The text searched: the section text when there is one, else the whole text. */
  function SearchText(text: string, sectionText: Option<string>): string {
    if sectionText.Some? && sectionText.value != [] then sectionText.value else text
  }

  function LegacyWith(text: string, labels: seq<seq<Tok>>, sectionText: Option<string>, below: nat, isNoise: string -> bool)
    : Option<string>
  {
    var searchText := SearchText(text, sectionText);
    if searchText == [] then None
    else FirstHit(LegacyGrid(SplitOn(searchText, '\n'), labels, below, isNoise), 0, 0)
  }

  /** `extract_field_value_legacy(text, field_labels, section_text)`. */
  function FieldValueLegacy(text: string, labels: seq<seq<Tok>>, sectionText: Option<string>): Option<string> {
    LegacyWith(text, labels, sectionText, 5, IsNoiseText)
  }

  method LegacyLookBelow(lines: seq<string>, start: nat, end: nat, isNoise: string -> bool) returns (r: Option<string>)
    ensures r == LegacyBelow(lines, start, end, isNoise)
  {
    var j: nat := start;
    while j < |lines| && j < end
      invariant LegacyBelow(lines, j, end, isNoise) == LegacyBelow(lines, start, end, isNoise)
      decreases |lines| - j
    {
      var candidate := Strip(lines[j]);
      if EmptyOrColon(candidate) {
        j := j + 1;
        continue;
      }
      if LegacyTakes(candidate, isNoise) {
        return Some(candidate);
      }
      j := j + 1;
    }
    return None;
  }

  method LegacyStepAt(lines: seq<string>, i: nat, lab: seq<Tok>, below: nat, isNoise: string -> bool) returns (v: Option<string>)
    requires i < |lines| && Strip(lines[i]) != []
    ensures v == LegacyStep(lines, i, lab, below, isNoise)
  {
    var line := Strip(lines[i]);
    var same := Group1(LegacyParts(lab), line, true);
    if same.Some? {
      var value := LegacyValue(same.value);
      if value != [] && !isNoise(value) {
        return Some(value);
      }
    }
    if MatchesAt(LegacyAlone(lab), line, 0, true) {
      v := LegacyLookBelow(lines, i + 1, i + 1 + below, isNoise);
    } else {
      v := None;
    }
  }

  lemma BlankLegacyCell(lines: seq<string>, i: nat, lab: seq<Tok>, below: nat, isNoise: string -> bool)
    requires i < |lines| && Strip(lines[i]) == []
    ensures LegacyStep(lines, i, lab, below, isNoise).None?
  {
  }

  lemma BlankLegacyRow(lines: seq<string>, i: nat, labels: seq<seq<Tok>>, below: nat, isNoise: string -> bool)
    requires i < |lines| && Strip(lines[i]) == []
    ensures var g := LegacyGrid(lines, labels, below, isNoise);
      forall y :: 0 <= y < |g[i]| ==> g[i][y].None?
  {
    var g: seq<seq<Option<string>>> := LegacyGrid(lines, labels, below, isNoise);
    forall y | 0 <= y < |g[i]|
      ensures g[i][y].None?
    {
      BlankLegacyCell(lines, i, labels[y], below, isNoise);
    }
  }

  method ScanLegacyLabels(lines: seq<string>, i: nat, labels: seq<seq<Tok>>, below: nat, isNoise: string -> bool)
    returns (r: Option<string>)
    requires i < |lines| && Strip(lines[i]) != []
    ensures r == FirstInRow(LegacyGrid(lines, labels, below, isNoise), i, 0)
  {
    ghost var g := LegacyGrid(lines, labels, below, isNoise);
    var k := 0;
    while k < |labels|
      invariant 0 <= k <= |labels|
      invariant FirstInRow(g, i, k) == FirstInRow(g, i, 0)
    {
      var v := LegacyStepAt(lines, i, labels[k], below, isNoise);
      assert g[i][k] == v;
      if v.Some? {
        return v;
      }
      k := k + 1;
    }
    return None;
  }

  method ExtractFieldValueLegacyWith(text: string, labels: seq<seq<Tok>>, sectionText: Option<string>, below: nat, isNoise: string -> bool)
    returns (r: Option<string>)
    ensures r == LegacyWith(text, labels, sectionText, below, isNoise)
  {
    var searchText := SearchText(text, sectionText);
    if searchText == [] {
      return None;
    }
    var lines := SplitOn(searchText, '\n');
    ghost var g := LegacyGrid(lines, labels, below, isNoise);
    var i := 0;
    while i < |lines|
      invariant 0 <= i <= |lines|
      invariant FirstHit(g, i, 0) == FirstHit(g, 0, 0)
    {
      if Strip(lines[i]) == [] {
        BlankLegacyRow(lines, i, labels, below, isNoise);
        FirstHitSkipRow(g, i, 0);
        i := i + 1;
        continue;
      }
      var v := ScanLegacyLabels(lines, i, labels, below, isNoise);
      FirstHitRow(g, i);
      if v.Some? {
        return v;
      }
      i := i + 1;
    }
    return None;
  }

  method ExtractFieldValueLegacy(text: string, labels: seq<seq<Tok>>, sectionText: Option<string>)
    returns (r: Option<string>)
    ensures r == FieldValueLegacy(text, labels, sectionText)
  {
    r := ExtractFieldValueLegacyWith(text, labels, sectionText, 5, IsNoiseText);
  }

  /** A value found below a lone label is a stripped line of the window that does not start with a colon and is not noise. */
  lemma {:induction false} LegacyBelowSource(lines: seq<string>, j: nat, end: nat, isNoise: string -> bool) returns (a: nat)
    requires LegacyBelow(lines, j, end, isNoise).Some?
    ensures j <= a < end && a < |lines|
    ensures LegacyBelow(lines, j, end, isNoise) == Some(Strip(lines[a]))
    ensures Strip(lines[a]) != [] && Strip(lines[a])[0] != ':' && !isNoise(Strip(lines[a]))
    decreases |lines| - j
  {
    if EmptyOrColon(Strip(lines[j])) || !LegacyTakes(Strip(lines[j]), isNoise) {
      a := LegacyBelowSource(lines, j + 1, end, isNoise);
    } else {
      a := j;
    }
  }

  /** A cell's value is the cleaned same-line value, or a line at most `below` lines under a lone label. */
  lemma LegacyStepSource(lines: seq<string>, i: nat, lab: seq<Tok>, below: nat, isNoise: string -> bool) returns (j: nat)
    requires i < |lines| && LegacyStep(lines, i, lab, below, isNoise).Some?
    ensures var v := LegacyStep(lines, i, lab, below, isNoise).value;
      v != [] && !isNoise(v) && j < |lines|
      && ((j == i && Group1(LegacyParts(lab), Strip(lines[i]), true).Some?
              && v == LegacyValue(Group1(LegacyParts(lab), Strip(lines[i]), true).value))
          || (i < j < i + 1 + below && MatchesAt(LegacyAlone(lab), Strip(lines[i]), 0, true)
              && v == Strip(lines[j]) && v[0] != ':'))
  {
    var same := Group1(LegacyParts(lab), Strip(lines[i]), true);
    if same.Some? && LegacyValue(same.value) != [] && !isNoise(LegacyValue(same.value)) {
      j := i;
    } else {
      j := LegacyBelowSource(lines, i + 1, i + 1 + below, isNoise);
    }
  }

  /**
   * Where the legacy value comes from: line `i` and label `k` of the searched
   * text, either on the line itself or at most `below` lines under a label that
   * stands alone; every earlier (line, label) pair yielded nothing, and the
   * value is never empty or noise.
   */
  lemma LegacySource(text: string, labels: seq<seq<Tok>>, sectionText: Option<string>, below: nat, isNoise: string -> bool)
    returns (i: nat, k: nat, j: nat)
    requires LegacyWith(text, labels, sectionText, below, isNoise).Some?
    ensures var lines := SplitOn(SearchText(text, sectionText), '\n'); var v := LegacyWith(text, labels, sectionText, below, isNoise).value;
      i < |lines| && k < |labels| && j < |lines| && v != [] && !isNoise(v)
      && ((j == i && Group1(LegacyParts(labels[k]), Strip(lines[i]), true).Some?
              && v == LegacyValue(Group1(LegacyParts(labels[k]), Strip(lines[i]), true).value))
          || (i < j < i + 1 + below && MatchesAt(LegacyAlone(labels[k]), Strip(lines[i]), 0, true)
              && v == Strip(lines[j]) && v[0] != ':'))
    ensures var lines := SplitOn(SearchText(text, sectionText), '\n');
      forall x: nat, y: nat :: x < |lines| && y < |labels| && (x < i || (x == i && y < k)) ==>
        LegacyStep(lines, x, labels[y], below, isNoise).None?
  {
    var lines := SplitOn(SearchText(text, sectionText), '\n');
    var g: seq<seq<Option<string>>> := LegacyGrid(lines, labels, below, isNoise);
    i, k := FirstHitFound(g, 0, 0);
    j := LegacyStepSource(lines, i, labels[k], below, isNoise);
    forall x: nat, y: nat | x < |lines| && y < |labels| && (x < i || (x == i && y < k))
      ensures LegacyStep(lines, x, labels[y], below, isNoise).None?
    {
      assert Between(g, 0, 0, x, y, i, k);
      assert g[x][y] == LegacyStep(lines, x, labels[y], below, isNoise);
    }
  }

  /** The legacy extraction never returns empty text or text `is_noise_text` rejects. */
  lemma LegacyNeverNoise(text: string, labels: seq<seq<Tok>>, sectionText: Option<string>)
    requires FieldValueLegacy(text, labels, sectionText).Some?
    ensures var v := FieldValueLegacy(text, labels, sectionText).value; v != [] && !IsNoiseText(v)
  {
    var i, k, j := LegacySource(text, labels, sectionText, 5, IsNoiseText);
  }
}
