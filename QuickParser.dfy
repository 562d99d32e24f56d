/**
 * `parse_sds_from_text` of ocr_service/quick_parser.py: a record with every
 * key pre-filled is completed from already extracted text. For the vendor,
 * the issue date, the dangerous-goods class and the packing group, the
 * patterns of the field are tried in order, ignoring case, and the first one
 * found anywhere gives the field its first group, stripped. A class found
 * marks the product a dangerous good and a hazardous substance; otherwise the
 * hazardous-substance flag is whether a hazard word occurs in the text.
 */
module QuickParser {
  import opened Wrappers
  import opened Text
  import opened Pattern
  import opened PatternLaws
  import opened Config
  import FieldExtractor

  /** The fields the patterns fill, in the order they are tried. */
  datatype QuickField = Vendor | IssueDate | DangerousGoodsClass | PackingGroup

  const FieldOrder: seq<QuickField> := [Vendor, IssueDate, DangerousGoodsClass, PackingGroup]

  /** `raw_json` */
  datatype RawJson = RawJson(textLength: nat, extractionMethod: string, source: string)

  /** The result dict. */
  datatype QuickResult = QuickResult(
    productId: int, vendor: Option<string>, issueDate: Option<string>,
    hazardousSubstance: Option<bool>, dangerousGood: Option<bool>, dangerousGoodsClass: Option<string>,
    packingGroup: Option<string>, subsidiaryRisks: seq<string>, hazardStatements: seq<string>,
    rawJson: RawJson, ocrAvailable: bool, parsingMethod: string)

  function Get(r: QuickResult, f: QuickField): Option<string> {
    match f
    case Vendor => r.vendor
    case IssueDate => r.issueDate
    case DangerousGoodsClass => r.dangerousGoodsClass
    case PackingGroup => r.packingGroup
  }

  /** `result[field] = value` */
  function Set(r: QuickResult, f: QuickField, v: Option<string>): (r': QuickResult)
    ensures Get(r', f) == v
    ensures forall g :: g != f ==> Get(r', g) == Get(r, g)
  {
    match f
    case Vendor => r.(vendor := v)
    case IssueDate => r.(issueDate := v)
    case DangerousGoodsClass => r.(dangerousGoodsClass := v)
    case PackingGroup => r.(packingGroup := v)
  }

  // ---- the patterns, each cut into the text before the group and the group ----

  /** `[^\n\r]+` */
  const LineRest1 := Rep(NotChars("\n\r"), 1, None, false)

  const VendorPatterns: seq<seq<seq<Tok>>> := [
    [[AnyOf([[Lit("Manufacturer")], [Lit("Company")], [Lit("Supplier")]]), Lit(":"), Ws0], [LineRest1]],
    [[Lit("Details of the supplier"), AnyRun, Lit("\n")], [AnyRun1]],
    [[Lit("Company name"), AnyRun, Lit(":"), Ws0], [AnyRun1]]]

  /** `(?:Issue Date|Revision Date|Date of issue|Prepared)[^\n]*:\s*` */
  const DateLead: seq<Tok> := [
    AnyOf([[Lit("Issue Date")], [Lit("Revision Date")], [Lit("Date of issue")], [Lit("Prepared")]]),
    AnyRun, Lit(":"), Ws0]

  const DatePatterns: seq<seq<seq<Tok>>> := [
    [DateLead, [DigitsBetween(1, 2), One(Chars("/-")), DigitsBetween(1, 2), One(Chars("/-")), DigitsBetween(2, 4)]],
    [DateLead, [Rep(AsciiLetter, 1, None, false), Ws1, DigitsBetween(1, 2), Maybe(Chars(",")), Ws0, DigitsBetween(4, 4)]]]

  /** `([1-9](?:\.\d+)?)` */
  const ClassGroup: seq<Tok> := [One(NonZeroDigit), Opt([Lit("."), Digits1])]

  const ClassPatterns: seq<seq<seq<Tok>>> := [
    [[AnyOf([[Lit("Hazard Class")], [Lit("Transport hazard class")], [Lit("Class")]]), AnyRun, Lit(":"), Ws0],
     ClassGroup],
    [[AnyOf([[Lit("ADG")], [Lit("IMDG")], [Lit("IATA")]]), Ws0, Lit("Class"), AnyRun, Lit(":"), Ws0], ClassGroup]]

  /** `I{1,3}` */
  const RomanRun := Rep(Chars("I"), 1, Some(3), false)

  /** `(I{1,3}|IV|V)` and `(I{1,3}|IV|V|\d+)` */
  const RomanGroup: seq<Tok> := [AnyOf([[RomanRun], [Lit("IV")], [Lit("V")]])]
  const RomanOrDigitsGroup: seq<Tok> := [AnyOf([[RomanRun], [Lit("IV")], [Lit("V")], [Digits1]])]

  const PackingPatterns: seq<seq<seq<Tok>>> := [
    [[Lit("Packing group"), AnyRun, Lit(":"), Ws0], RomanGroup],
    [[Lit("PG"), AnyRun, Lit(":"), Ws0], RomanOrDigitsGroup]]

  function Patterns(f: QuickField): (r: seq<seq<seq<Tok>>>)
    ensures forall k :: 0 <= k < |r| ==> |r[k]| == 2
  {
    match f
    case Vendor => VendorPatterns
    case IssueDate => DatePatterns
    case DangerousGoodsClass => ClassPatterns
    case PackingGroup => PackingPatterns
  }

  /** The match is searched for ignoring case. */
  const QuickIgnoreCase := true

  /** The first of the patterns found in the text gives its group, stripped. */
  function FirstMatch(pats: seq<seq<seq<Tok>>>, text: string): Option<string>
    requires forall k :: 0 <= k < |pats| ==> |pats[k]| == 2
  {
    if pats == [] then None
    else
      match FieldExtractor.Group1(pats[0], text, QuickIgnoreCase)
      case Some(g) => Some(Strip(g))
      case None => FirstMatch(pats[1..], text)
  }

  /** The words that mean "no class" to this parser (no "na"). */
  const QuickNotApplicable: seq<string> := ["none", "not applicable", "n/a"]

  const HazardIndicators: seq<string> := ["flammable", "corrosive", "toxic", "irritant", "harmful"]

  /** The record before any pattern is tried. */
  function Prefilled(text: string, productId: int): QuickResult {
    QuickResult(productId, None, None, None, None, None, None, [], [],
                RawJson(|text|, "regex_patterns", "verification_text"), true, "quick_parser")
  }

  /** The fields of `fs` filled in turn; a field none of whose patterns is found keeps its value. */
  function Fill(r: QuickResult, fs: seq<QuickField>, text: string): QuickResult {
    if fs == [] then r
    else
      var before := Fill(r, fs[..|fs| - 1], text);
      var f := fs[|fs| - 1];
      match FirstMatch(Patterns(f), text)
      case Some(v) => Set(before, f, Some(v))
      case None => before
  }

  /** The class flag: a truthy class that is none of the words. */
  predicate FlagsClass(dgc: Option<string>) {
    dgc.Some? && dgc.value != [] && Lower(dgc.value) !in QuickNotApplicable
  }

  /** The record `parse_sds_from_text` returns. */
  function QuickRecord(text: string, productId: int): QuickResult {
    var filled := Fill(Prefilled(text, productId), FieldOrder, text);
    var flagged :=
      if FlagsClass(filled.dangerousGoodsClass)
      then filled.(dangerousGood := Some(true), hazardousSubstance := Some(true))
      else filled;
    if flagged.hazardousSubstance.None? then flagged.(hazardousSubstance := Some(HasKeyword(text, HazardIndicators)))
    else flagged
  }

  /** The loop over one field's patterns: the first one found gives its group, stripped. */
  method FirstFound(pats: seq<seq<seq<Tok>>>, text: string) returns (found: Option<string>)
    requires forall k :: 0 <= k < |pats| ==> |pats[k]| == 2
    ensures found == FirstMatch(pats, text)
  {
    found := None;
    var j := 0;
    while j < |pats|
      invariant 0 <= j <= |pats|
      invariant FirstMatch(pats, text) == FirstMatch(pats[j..], text)
    {
      var m := FieldExtractor.Group1(pats[j], text, QuickIgnoreCase);
      if m.Some? {
        found := Some(Strip(m.value));
        return;
      }
      assert pats[j..][1..] == pats[j + 1..];
      j := j + 1;
    }
  }

  /** The loop over the fields: each one the patterns find is set. */
  method FillFromPatterns(text: string, productId: int) returns (result: QuickResult)
    ensures result == Fill(Prefilled(text, productId), FieldOrder, text)
  {
    result := FillEach(Prefilled(text, productId), FieldOrder, text);
  }

  /** The fields of `fs` filled in turn, starting from `start`. */
  method FillEach(start: QuickResult, fs: seq<QuickField>, text: string) returns (result: QuickResult)
    ensures result == Fill(start, fs, text)
  {
    result := start;
    var i := 0;
    while i < |fs|
      invariant 0 <= i <= |fs|
      invariant result == Fill(start, fs[..i], text)
    {
      var field := fs[i];
      var found := FirstFound(Patterns(field), text);
      FillStep(start, fs, i, text);
      if found.Some? {
        result := Set(result, field, found);
      }
      i := i + 1;
    }
    assert fs[..i] == fs;
  }

  /** One more field: `Fill` over `fs[..i + 1]` extends `Fill` over `fs[..i]`. */
  lemma FillStep(r: QuickResult, fs: seq<QuickField>, i: nat, text: string)
    requires i < |fs|
    ensures Fill(r, fs[..i + 1], text)
            == match FirstMatch(Patterns(fs[i]), text)
               case Some(v) => Set(Fill(r, fs[..i], text), fs[i], Some(v))
               case None => Fill(r, fs[..i], text)
  {
    assert fs[..i + 1][..i] == fs[..i];
  }

  /** `parse_sds_from_text` */
  method ParseSdsFromText(text: string, productId: int) returns (result: QuickResult)
    ensures result == QuickRecord(text, productId)
  {
    result := FillFromPatterns(text, productId);
    var dgc := result.dangerousGoodsClass;
    if dgc.Some? && dgc.value != [] && Lower(dgc.value) !in QuickNotApplicable {
      result := result.(dangerousGood := Some(true), hazardousSubstance := Some(true));
    }
    var hasHazard := HasKeyword(text, HazardIndicators);
    if result.hazardousSubstance.None? {
      result := result.(hazardousSubstance := Some(hasHazard));
    }
  }

  // ---- properties ----

  /** Each field of the filled record is what its first found pattern gives. */
  lemma FilledField(text: string, productId: int, f: QuickField)
    ensures Get(Fill(Prefilled(text, productId), FieldOrder, text), f) == FirstMatch(Patterns(f), text)
  {
    FillGet(Prefilled(text, productId), FieldOrder, text, f);
    EveryFieldTried(f);
  }

  /** Every field is in the order the loop follows. */
  lemma EveryFieldTried(f: QuickField)
    ensures f in FieldOrder
  {
    match f
    case Vendor => assert FieldOrder[0] == f;
    case IssueDate => assert FieldOrder[1] == f;
    case DangerousGoodsClass => assert FieldOrder[2] == f;
    case PackingGroup => assert FieldOrder[3] == f;
  }

  /** The record with the four pattern fields cleared: what filling never touches. */
  function Rest(r: QuickResult): QuickResult {
    r.(vendor := None, issueDate := None, dangerousGoodsClass := None, packingGroup := None)
  }

  /** A listed field whose patterns find something gets it; any other field keeps its value. */
  lemma {:induction false} FillGet(r: QuickResult, fs: seq<QuickField>, text: string, f: QuickField)
    ensures Get(Fill(r, fs, text), f)
      == if f in fs && FirstMatch(Patterns(f), text).Some? then FirstMatch(Patterns(f), text) else Get(r, f)
  {
    if fs != [] {
      var init := fs[..|fs| - 1];
      FillGet(r, init, text, f);
      assert f in fs <==> f in init || f == fs[|fs| - 1];
    }
  }

  /** Filling changes nothing outside the four fields. */
  lemma {:induction false} FillRest(r: QuickResult, fs: seq<QuickField>, text: string)
    ensures Rest(Fill(r, fs, text)) == Rest(r)
  {
    if fs != [] {
      FillRest(r, fs[..|fs| - 1], text);
    }
  }

  /**
   * The result always has every key: the product id echoed back, no
   * subsidiary risks or hazard statements, the raw JSON describing the text,
   * OCR marked available and the parser named; the hazardous-substance flag is
   * always set and the dangerous-good flag is never False.
   */
  lemma QuickDefaults(text: string, productId: int)
    ensures var r := QuickRecord(text, productId);
      r.productId == productId && r.subsidiaryRisks == [] && r.hazardStatements == []
      && r.rawJson == RawJson(|text|, "regex_patterns", "verification_text")
      && r.ocrAvailable && r.parsingMethod == "quick_parser"
      && r.hazardousSubstance.Some? && r.dangerousGood != Some(false)
  {
    FillRest(Prefilled(text, productId), FieldOrder, text);
  }

  /** Each of the four fields is what `FirstMatch` finds with that field's patterns. */
  lemma QuickFields(text: string, productId: int)
    ensures forall f :: Get(QuickRecord(text, productId), f) == FirstMatch(Patterns(f), text)
  {
    forall f
      ensures Get(QuickRecord(text, productId), f) == FirstMatch(Patterns(f), text)
    {
      FilledField(text, productId, f);
    }
  }

  /**
   * A value comes from the first pattern in list order that is found in the
   * text: pattern `k` is found and gives the value, stripped, and no earlier
   * pattern is found.
   */
  lemma {:induction false} FirstMatchSource(pats: seq<seq<seq<Tok>>>, text: string) returns (k: nat)
    requires forall n :: 0 <= n < |pats| ==> |pats[n]| == 2
    requires FirstMatch(pats, text).Some?
    ensures k < |pats| && FieldExtractor.Group1(pats[k], text, QuickIgnoreCase).Some?
    ensures FirstMatch(pats, text) == Some(Strip(FieldExtractor.Group1(pats[k], text, QuickIgnoreCase).value))
    ensures forall n :: 0 <= n < k ==> FieldExtractor.Group1(pats[n], text, QuickIgnoreCase).None?
  {
    if FieldExtractor.Group1(pats[0], text, QuickIgnoreCase).Some? {
      k := 0;
    } else {
      assert FirstMatch(pats, text) == FirstMatch(pats[1..], text);
      var k' := FirstMatchSource(pats[1..], text);
      k := k' + 1;
      assert pats[k] == pats[1..][k'];
      forall n | 1 <= n < k
        ensures FieldExtractor.Group1(pats[n], text, QuickIgnoreCase).None?
      {
        assert pats[n] == pats[1..][n - 1];
      }
    }
  }

  /** Nothing is found exactly when none of the patterns is found. */
  lemma {:induction false} FirstMatchNone(pats: seq<seq<seq<Tok>>>, text: string)
    requires forall n :: 0 <= n < |pats| ==> |pats[n]| == 2
    ensures FirstMatch(pats, text).None?
      <==> forall n :: 0 <= n < |pats| ==> FieldExtractor.Group1(pats[n], text, QuickIgnoreCase).None?
  {
    if pats != [] {
      FirstMatchNone(pats[1..], text);
      if FieldExtractor.Group1(pats[0], text, QuickIgnoreCase).None? {
        forall n | 1 <= n < |pats|
          ensures pats[n] == pats[1..][n - 1]
        {
        }
      }
    }
  }

  /** The group of a pattern found in the text spans a match of the pattern's group part. */
  lemma GroupSpan(parts: seq<seq<Tok>>, text: string) returns (i: nat, j: nat)
    requires |parts| == 2 && FieldExtractor.Group1(parts, text, QuickIgnoreCase).Some?
    ensures i <= j <= |text| && FieldExtractor.Group1(parts, text, QuickIgnoreCase) == Some(text[i..j])
    ensures j in Ends(parts[1], text, i, QuickIgnoreCase)
  {
    var b := SearchSplit(parts, text, 0, QuickIgnoreCase).value;
    SecondPartEnd(parts, text, b[0], QuickIgnoreCase);
    i, j := b[1], b[2];
  }

  // ---- what the class and packing-group groups admit ----

  /** A digit 1-9, then optionally '.' and one or more digits. */
  predicate QuickClassShape(v: string) {
    |v| >= 1 && IsClassDigit(v[0])
    && (|v| == 1 || (|v| >= 3 && v[1] == '.' && forall k :: 2 <= k < |v| ==> IsDigit(v[k])))
  }

  /** Case-folding leaves characters that are not letters alone. */
  lemma FoldedNonLetter(c: char)
    ensures !IsLetter(ToLower(c)) ==> ToLower(c) == c
    ensures !IsLetter(ToUpper(c)) ==> ToUpper(c) == c
  {
  }

  lemma NonZeroDigitFolded(c: char)
    requires InClass(NonZeroDigit, c, true)
    ensures IsClassDigit(c)
  {
    assert NonZeroDigit.items == [Range('1', '9')];
    assert forall x :: ItemsHave(NonZeroDigit.items, x) ==> IsClassDigit(x) by {
      forall x ensures ItemsHave(NonZeroDigit.items, x) ==> IsClassDigit(x) {
        assert ItemsHave(NonZeroDigit.items[1..], x) == false;
      }
    }
    FoldedNonLetter(c);
  }

  lemma DigitFolded(c: char)
    requires InClass(Digit, c, true)
    ensures IsDigit(c)
  {
    assert forall x :: ItemsHave(Digit.items, x) ==> IsDigit(x) by {
      forall x ensures ItemsHave(Digit.items, x) ==> IsDigit(x) {
        assert ItemsHave(Digit.items[1..], x) == false;
      }
    }
    FoldedNonLetter(c);
  }

  /** A match of `\.\d+` is a '.' followed by digits. */
  lemma DotDigitsShape(s: string, j: nat, e: nat)
    requires j <= |s| && e in Ends([Lit("."), Digits1], s, j, true)
    ensures j + 2 <= e <= |s| && s[j] == '.' && forall k :: j + 1 <= k < e ==> IsDigit(s[k])
  {
    LitStep(".", [Digits1], s, j, true, e);
    assert SameChar(s[j], '.', true);
    FoldedNonLetter(s[j]);
    EndsRep(Digit, 1, None, false, s, j + 1, true, e);
    forall k | j + 1 <= k < e
      ensures IsDigit(s[k])
    {
      DigitFolded(s[k]);
    }
  }

  /** A match of `[1-9](?:\.\d+)?` is a digit 1-9 followed by nothing or a match of `\.\d+`. */
  lemma ClassGroupHead(s: string, i: nat, e: nat)
    requires i <= |s| && e in Ends(ClassGroup, s, i, true)
    ensures i < |s| && IsClassDigit(s[i]) && (e == i + 1 || e in Ends([Lit("."), Digits1], s, i + 1, true))
  {
    OneStep(NonZeroDigit, [Opt([Lit("."), Digits1])], s, i, true, e);
    NonZeroDigitFolded(s[i]);
    EndsOpt([Lit("."), Digits1], s, i + 1, true);
  }

  /** A match of `[1-9](?:\.\d+)?` has the class shape. */
  lemma ClassGroupShape(s: string, i: nat, e: nat)
    requires i <= |s| && e in Ends(ClassGroup, s, i, true)
    ensures i < e && QuickClassShape(s[i..e])
  {
    ClassGroupHead(s, i, e);
    if e != i + 1 {
      DotDigitsShape(s, i + 1, e);
    }
  }

  /** An extracted dangerous-goods class is a digit 1-9, optionally followed by '.' and digits. */
  lemma ExtractedClassShape(text: string)
    requires FirstMatch(ClassPatterns, text).Some?
    ensures QuickClassShape(FirstMatch(ClassPatterns, text).value)
  {
    var k := FirstMatchSource(ClassPatterns, text);
    var i, j := GroupSpan(ClassPatterns[k], text);
    assert ClassPatterns[k][1] == ClassGroup;
    ClassGroupShape(text, i, j);
    var g := text[i..j];
    assert !IsSpace(g[0]) && !IsSpace(g[|g| - 1]);
    StripUnpadded(g);
  }

  /** The Roman numerals the packing-group patterns admit, lower-cased. */
  const RomanNumerals: seq<string> := ["i", "ii", "iii", "iv", "v"]

  /** A Roman numeral I-V in any case, or, where `digits` allows, a run of digits. */
  predicate PackingShape(v: string, digits: bool) {
    Lower(v) in RomanNumerals || (digits && v != [] && forall k :: 0 <= k < |v| ==> IsDigit(v[k]))
  }

  /** A run of `I{1,3}`, ignoring case, is "i", "ii" or "iii" once lower-cased. */
  lemma RomanRunShape(s: string, i: nat, e: nat)
    requires i <= |s| && e in Ends([RomanRun], s, i, true)
    ensures i < e && Lower(s[i..e]) in RomanNumerals
  {
    EndsRep(Chars("I"), 1, Some(3), false, s, i, true, e);
    var v := s[i..e];
    assert Chars("I").items == [Ch('I')];
    forall k | 0 <= k < |v|
      ensures Lower(v)[k] == 'i'
    {
      assert InClass(Chars("I"), s[i + k], true);
      assert ItemsHave(Chars("I").items[1..], s[i + k]) == false;
      assert ItemsHave(Chars("I").items[1..], ToLower(s[i + k])) == false;
      assert ItemsHave(Chars("I").items[1..], ToUpper(s[i + k])) == false;
    }
    var w := Lower(v);
    if |w| == 1 { assert w == "i"; }
    else if |w| == 2 { assert w == "ii"; }
    else { assert w == "iii"; }
  }

  /** A literal alternative, matched ignoring case, is that literal lower-cased. */
  lemma LitAltShape(w: string, s: string, i: nat, e: nat)
    requires i <= |s| && e in Ends([Cat([Lit(w)])], s, i, true)
    ensures e == i + |w| && Lower(s[i..e]) == Lower(w)
  {
    EndsCat([Lit(w)], s, i, true, e);
    EndsLit(w, s, i, true);
    LitAtLower(s, i, w, true);
  }

  /** A run of `\d+`, ignoring case, is digits. */
  lemma DigitsShape(s: string, i: nat, e: nat)
    requires i <= |s| && e in Ends([Cat([Digits1])], s, i, true)
    ensures i < e && forall k :: i <= k < e ==> IsDigit(s[k])
  {
    EndsCat([Digits1], s, i, true, e);
    EndsRep(Digit, 1, None, false, s, i, true, e);
    forall k | i <= k < e
      ensures IsDigit(s[k])
    {
      DigitFolded(s[k]);
    }
  }

  /** A match of a packing-group group has the packing-group shape, digits only for the second. */
  lemma PackingGroupShape(s: string, i: nat, e: nat, digits: bool)
    requires i <= |s| && e in Ends(if digits then RomanOrDigitsGroup else RomanGroup, s, i, true)
    ensures i < e && PackingShape(s[i..e], digits)
  {
    var alts := if digits then [[RomanRun], [Lit("IV")], [Lit("V")], [Digits1]] else [[RomanRun], [Lit("IV")], [Lit("V")]];
    var group := AnyOf(alts);
    assert (if digits then RomanOrDigitsGroup else RomanGroup) == [group];
    EndsGroup(group.alts, false, s, i, true, e);
    var k :| 0 <= k < |group.alts| && e in Ends([group.alts[k]], s, i, true);
    assert group.alts[k] == Cat(alts[k]);
    if k == 0 {
      EndsCat([RomanRun], s, i, true, e);
      RomanRunShape(s, i, e);
    } else if k == 1 {
      LitAltShape("IV", s, i, e);
      assert Lower("IV") == "iv";
    } else if k == 2 {
      LitAltShape("V", s, i, e);
      assert Lower("V") == "v";
    } else {
      DigitsShape(s, i, e);
    }
  }

  /**
   * An extracted packing group is a Roman numeral I-V in any case, or a run
   * of digits when the "PG" pattern found it.
   */
  lemma ExtractedPackingShape(text: string)
    requires FirstMatch(PackingPatterns, text).Some?
    ensures var v := FirstMatch(PackingPatterns, text).value;
      PackingShape(v, true)
      && (FieldExtractor.Group1(PackingPatterns[0], text, QuickIgnoreCase).Some? ==> PackingShape(v, false))
  {
    var k := FirstMatchSource(PackingPatterns, text);
    var i, j := GroupSpan(PackingPatterns[k], text);
    PackingGroupShape(text, i, j, k == 1);
    PackingUnpadded(text[i..j], k == 1);
    StripUnpadded(text[i..j]);
  }

  /** A value of the packing-group shape neither starts nor ends with white space. */
  lemma PackingUnpadded(v: string, digits: bool)
    requires PackingShape(v, digits)
    ensures v != [] && !IsSpace(v[0]) && !IsSpace(v[|v| - 1])
  {
    var w := Lower(v);
    if w in RomanNumerals {
      assert w[0] in "iv" && w[|w| - 1] in "iv";
      FoldedNonLetter(v[0]);
      FoldedNonLetter(v[|v| - 1]);
    }
  }

  /** A value of the class shape is truthy and none of the words that mean "no class". */
  lemma ClassShapeFlags(v: string)
    requires QuickClassShape(v)
    ensures FlagsClass(Some(v))
  {
    assert Lower(v)[0] == v[0];
    assert forall w :: w in QuickNotApplicable ==> w[0] == 'n';
  }

  // ---- the vendor stays on one line ----

  /** A run of `[^\n\r]+` or `.+` holds no line break. */
  lemma LineRunShape(cls: Cls, s: string, i: nat, e: nat)
    requires cls == NotNewline || cls == NotChars("\n\r")
    requires i <= |s| && e in Ends([Rep(cls, 1, None, false)], s, i, true)
    ensures forall k :: i <= k < e ==> s[k] != '\n'
  {
    EndsRep(cls, 1, None, false, s, i, true, e);
    assert cls.items[0] == Ch('\n') && cls.negated;
    forall k | i <= k < e
      ensures s[k] != '\n'
    {
      assert InClass(cls, s[k], true);
    }
  }

  /** An extracted vendor is a single line: it holds no line break. */
  lemma ExtractedVendorOneLine(text: string)
    requires FirstMatch(VendorPatterns, text).Some?
    ensures '\n' !in FirstMatch(VendorPatterns, text).value
  {
    var k := FirstMatchSource(VendorPatterns, text);
    var i, j := GroupSpan(VendorPatterns[k], text);
    if k == 0 {
      assert VendorPatterns[k][1] == [Rep(NotChars("\n\r"), 1, None, false)];
      LineRunShape(NotChars("\n\r"), text, i, j);
    } else {
      assert VendorPatterns[k][1] == [Rep(NotNewline, 1, None, false)];
      LineRunShape(NotNewline, text, i, j);
    }
    assert forall n :: 0 <= n < j - i ==> text[i..j][n] == text[i + n];
    StripKeepsOut(text[i..j], '\n');
  }

  // ---- the `IV` alternative of the packing-group groups ----

  /** The group of a two-part pattern runs to the first end of the group part, where the split left the lead. */
  lemma GroupPiece(parts: seq<seq<Tok>>, text: string)
    requires |parts| == 2 && FieldExtractor.Group1(parts, text, QuickIgnoreCase).Some?
    ensures var b := SearchSplit(parts, text, 0, QuickIgnoreCase).value;
      Ends(parts[1], text, b[1], QuickIgnoreCase) != []
      && FieldExtractor.Group1(parts, text, QuickIgnoreCase).value
         == text[b[1]..Ends(parts[1], text, b[1], QuickIgnoreCase)[0]]
  {
    var b := SearchSplit(parts, text, 0, QuickIgnoreCase).value;
    LastPartFirstEnd(parts, text, b[0], QuickIgnoreCase);
  }

  /** The text at `i` reads "IV", in any case. */
  predicate ReadsIV(s: string, i: nat) {
    i + 2 <= |s| && ToLower(s[i]) == 'i' && ToLower(s[i + 1]) == 'v'
  }

  /** On "IV", `I{1,3}` takes the "I" and stops at the "V". */
  lemma RomanRunOnIV(s: string, i: nat)
    requires ReadsIV(s, i)
    ensures Run(Chars("I"), s, i, Some(3), true) == 1
  {
    IInClass(s[i]);
    VNotInClass(s[i + 1]);
    assert Run(Chars("I"), s, i + 1, Some(2), true) == 0;
  }

  lemma IInClass(c: char)
    requires ToLower(c) == 'i'
    ensures InClass(Chars("I"), c, true)
  {
    assert Chars("I").items == [Ch('I')];
    assert c == 'i' || c == 'I';
  }

  lemma VNotInClass(c: char)
    requires ToLower(c) == 'v'
    ensures !InClass(Chars("I"), c, true)
  {
    assert Chars("I").items == [Ch('I')];
    assert c == 'v' || c == 'V';
    assert ItemsHave(Chars("I").items[1..], c) == false;
    assert ItemsHave(Chars("I").items[1..], ToLower(c)) == false;
    assert ItemsHave(Chars("I").items[1..], ToUpper(c)) == false;
  }

  /** A group whose first alternative is `I{1,3}` ends, on "IV", after the "I". */
  lemma RomanFirstOnIV(alts: seq<Tok>, s: string, i: nat)
    requires alts != [] && alts[0] == Cat([RomanRun]) && ReadsIV(s, i)
    ensures Ends([Group(alts, false)], s, i, true) != []
    ensures Ends([Group(alts, false)], s, i, true)[0] == i + 1
  {
    RomanRunOnIV(s, i);
    GreedyFirstEnd(Chars("I"), 1, Some(3), s, i, true);
    CatFirstEnd([RomanRun], s, i, true);
    GroupFirstEnd(alts, s, i, true);
  }

  /**
   * As written, a packing group written "IV" is read as "I": wherever the
   * group of either packing-group pattern starts on "IV", the value is the
   * single letter, so the `IV` alternative is never the one taken.
   */
  lemma PackingIVReadAsI(parts: seq<seq<Tok>>, text: string)
    requires parts == PackingPatterns[0] || parts == PackingPatterns[1]
    requires FieldExtractor.Group1(parts, text, QuickIgnoreCase).Some?
    requires ReadsIV(text, SearchSplit(parts, text, 0, QuickIgnoreCase).value[1])
    ensures Lower(FieldExtractor.Group1(parts, text, QuickIgnoreCase).value) == "i"
  {
    var i := SearchSplit(parts, text, 0, QuickIgnoreCase).value[1];
    GroupPiece(parts, text);
    var alts := parts[1][0].alts;
    assert parts[1] == [Group(alts, false)] && alts[0] == Cat([RomanRun]);
    RomanFirstOnIV(alts, text, i);
    assert text[i..i + 1] == [text[i]];
  }

  /** The groups with `IV` tried before `I{1,3}`. */
  const CorrectedRomanGroup: seq<Tok> := [AnyOf([[Lit("IV")], [RomanRun], [Lit("V")]])]
  const CorrectedRomanOrDigitsGroup: seq<Tok> := [AnyOf([[Lit("IV")], [RomanRun], [Lit("V")], [Digits1]])]

  /** The packing-group patterns with the corrected groups. */
  const CorrectedPackingPatterns: seq<seq<seq<Tok>>> := [
    [PackingPatterns[0][0], CorrectedRomanGroup],
    [PackingPatterns[1][0], CorrectedRomanOrDigitsGroup]]

  /** A group whose first alternative is `IV` ends, on "IV", after both letters. */
  lemma CorrectedFirstOnIV(alts: seq<Tok>, s: string, i: nat)
    requires alts != [] && alts[0] == Cat([Lit("IV")]) && ReadsIV(s, i)
    ensures Ends([Group(alts, false)], s, i, true) != []
    ensures Ends([Group(alts, false)], s, i, true)[0] == i + 2
  {
    LitAtChars(s, i, "IV", true);
    EndsLit("IV", s, i, true);
    CatFirstEnd([Lit("IV")], s, i, true);
    GroupFirstEnd(alts, s, i, true);
  }

  /** With the corrected groups, a packing group written "IV" is read as "IV". */
  lemma CorrectedPackingIV(parts: seq<seq<Tok>>, text: string)
    requires parts == CorrectedPackingPatterns[0] || parts == CorrectedPackingPatterns[1]
    requires FieldExtractor.Group1(parts, text, QuickIgnoreCase).Some?
    requires ReadsIV(text, SearchSplit(parts, text, 0, QuickIgnoreCase).value[1])
    ensures Lower(FieldExtractor.Group1(parts, text, QuickIgnoreCase).value) == "iv"
  {
    var i := SearchSplit(parts, text, 0, QuickIgnoreCase).value[1];
    GroupPiece(parts, text);
    var alts := parts[1][0].alts;
    assert parts[1] == [Group(alts, false)] && alts[0] == Cat([Lit("IV")]);
    CorrectedFirstOnIV(alts, text, i);
    assert text[i..i + 2] == [text[i], text[i + 1]];
  }

  /**
   * The flags: a class found makes the product a dangerous good and a
   * hazardous substance; without one the dangerous-good flag stays None and
   * the hazardous-substance flag is whether a hazard word occurs in the
   * lower-cased text.
   */
  lemma QuickFlags(text: string, productId: int)
    ensures var r := QuickRecord(text, productId);
      (r.dangerousGoodsClass.Some? ==> r.dangerousGood == Some(true) && r.hazardousSubstance == Some(true))
      && (r.dangerousGoodsClass.None? ==>
            r.dangerousGood.None? && r.hazardousSubstance == Some(HasKeyword(text, HazardIndicators)))
  {
    FillRest(Prefilled(text, productId), FieldOrder, text);
    FilledField(text, productId, DangerousGoodsClass);
    var dgc := FirstMatch(ClassPatterns, text);
    if dgc.Some? {
      ExtractedClassShape(text);
      ClassShapeFlags(dgc.value);
    }
  }
}
