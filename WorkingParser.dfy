/**
 * The older stand-alone extractor, working_parser.py: its own noise
 * classifier, a loose single-regex section locator, a label scan that looks
 * at most three lines under a lone label, product-name and manufacturer
 * strategies, a date finder over four fixed formats, and `parse_pdf` from the
 * extracted text on.
 */
module WorkingParser {
  import opened Wrappers
  import opened Text
  import opened Pattern
  import opened PatternLaws
  import opened Config
  import opened Dates
  import opened Scan
  import Utils
  import FieldExtractor
  import FieldExtractorFixed
  import SdsExtractor
  import SdsExtractorDate
  import SdsParsePdf

  // ---- is_noise_text ----

  /** The noise patterns, each tried with `re.match` ignoring case on the stripped text. */
  const NoisePatterns: seq<seq<Tok>> := [
    [Bol(false), Lit("MSDS"), Ws1, Lit("Date"), Eol(false)],
    [Bol(false), Lit("Alternative"), Ws1, Lit("number(s)"), Eol(false)],
    [Bol(false), Lit("Facsimile"), Ws1, Lit("Number"), Eol(false)],
    [Bol(false), Lit("safety"), Ws1, Lit("data"), Ws1, Lit("sheet"), Eol(false)],
    [Bol(false), Lit("Name"), Eol(false)],
    [Bol(false), Lit("Registered"), Ws1, Lit("company"), Ws1, Lit("name"), Eol(false)],
    [Bol(false), Lit(":"), Eol(false)],
    [Bol(false), Lit("'s"), Eol(false)],
    [Bol(false), Lit("UK"), Maybe(Chars(",")), Ws1, Lit("NPIS"), AnyRun,
      DigitsBetween(2, 4), Ws1, DigitsBetween(2, 4), Ws1, DigitsBetween(2, 4)],
    [Bol(false), Lit("Australia"), Ws1, Lit("-"), Ws1, DigitsBetween(2, 4), Ws1, DigitsBetween(2, 4), Ws1, DigitsBetween(2, 4)],
    [Bol(false), DigitsBetween(2, 4), One(Utils.DashOrSpace), DigitsBetween(2, 4), One(Utils.DashOrSpace), DigitsBetween(2, 4)],
    [Bol(false), Lit("Emergency"), Ws1, Lit("telephone")],
    [Bol(false), Lit("Contact"), Ws1, Lit("details")],
    [Bol(false), Lit("Details"), Ws1, Lit("of"), Ws1, Lit("the"), Ws1, Lit("supplier")],
    [Bol(false), Lit("Telephone")],
    [Bol(false), Lit("Phone")],
    [Bol(false), Lit("Fax")],
    [Bol(false), Lit("Email")],
    [Bol(false), Lit("Address")],
    [Bol(false), Lit("Website")]]

  /** `is_noise_text`: a stripped text shorter than two characters, or one a noise pattern matches at its start. */
  predicate IsNoiseText(text: string) {
    var t := Strip(text);
    |t| < 2 || AnyMatchesAt(NoisePatterns, t, true)
  }

  /** The verdict depends only on the stripped text. */
  lemma NoiseOfStripped(text: string)
    ensures IsNoiseText(text) <==> IsNoiseText(Strip(text))
  {
    StripIdempotent(text);
  }

  /**
   * A single digit such as "9" is noise here, while the classifier of
   * sds_extractor.py keeps it: this one rejects every text shorter than two
   * characters.
   */
  lemma SingleDigitNoise(text: string)
    requires |Strip(text)| == 1 && IsDigit(Strip(text)[0])
    ensures IsNoiseText(text) && !SdsExtractor.IsNoiseText(text)
  {
    SdsExtractor.OneCharNoise(text);
  }

  // ---- get_section ----

  /** `(?:\s|:|\.)` */
  const SectionSep := Cls([SpaceItem, Ch(':'), Ch('.')], false)

  /** `(?:^|\n)` */
  const SectionStart: Tok := AnyOf([[Bol(false)], [Lit("\n")]])

  /** `\n\s*(?:section\s*)?\d{1,2}(?:\s|:|\.)` or `$`: where a section stops. */
  const SectionEndAlts: seq<seq<Tok>> := [
    [Lit("\n"), Ws0, SdsExtractor.SectionWord, DigitsBetween(1, 2), One(SectionSep)],
    [Eol(false)]]

  /** The lookahead that closes a section. */
  const SectionEnd: Tok := Look([AnyOf(SectionEndAlts)], true)

  /** `.*?` under DOTALL */
  const LazyAny: Tok := Rep(AnyChar, 0, None, true)

  /**
   * The pattern of section `n` (IGNORECASE | DOTALL): a line start, an
   * optional "section", the number and a separator, then as little as possible
   * up to the next numbered line or the end.
   */
  function SectionPattern(n: nat): seq<Tok> {
    [SectionStart, Ws0, SdsExtractor.SectionWord, Lit(NatToString(n)), One(SectionSep), LazyAny, SectionEnd]
  }

  /** `get_section(text, n)`: the whole first match, header included, or "" when there is none. */
  function GetSection(text: string, n: nat): string {
    match Search(SectionPattern(n), text, true)
    case None => ""
    case Some(m) => text[m.start..m.end]
  }

  /** The line-start alternative holds only at the very start of the text or at a newline. */
  lemma SectionStartAt(text: string, a: nat, j: nat)
    requires a <= |text| && j in Ends([SectionStart], text, a, true)
    ensures a == 0 || (a < |text| && text[a] == '\n')
  {
    var alts := [[Bol(false)], [Lit("\n")]];
    assert SectionStart == Group([Cat(alts[0]), Cat(alts[1])], false);
    EndsGroup([Cat(alts[0]), Cat(alts[1])], false, text, a, true, j);
    if j in Ends([Cat(alts[0])], text, a, true) {
      EndsCat(alts[0], text, a, true, j);
      EndsBol(text, a, true);
    } else {
      assert j in Ends([Cat(alts[1])], text, a, true);
      EndsCat(alts[1], text, a, true, j);
      EndsLit("\n", text, a, true);
    }
  }

  /** The closing lookahead holds only at the end of the text or at a newline. */
  lemma SectionEndAt(text: string, p: nat)
    requires p <= |text| && Ends([AnyOf(SectionEndAlts)], text, p, true) != []
    ensures p == |text| || text[p] == '\n'
  {
    var x := Ends([AnyOf(SectionEndAlts)], text, p, true)[0];
    var alts := SectionEndAlts;
    assert AnyOf(alts) == Group([Cat(alts[0]), Cat(alts[1])], false);
    EndsGroup([Cat(alts[0]), Cat(alts[1])], false, text, p, true, x);
    if x in Ends([Cat(alts[0])], text, p, true) {
      EndsCat(alts[0], text, p, true, x);
      assert alts[0] == [Lit("\n")] + alts[0][1..];
      LitThenMember("\n", alts[0][1..], text, p, true, x);
    } else {
      assert x in Ends([Cat(alts[1])], text, p, true);
      EndsCat(alts[1], text, p, true, x);
      EndsEol(text, p, true);
    }
  }

  /** An end of `start mid w tail` from `a` passes an end `j0` of `start`, then `w` at `j`, then an end of `tail`. */
  lemma PatternWalk(p: seq<Tok>, start: Tok, mid: seq<Tok>, w: string, tail: seq<Tok>, text: string, a: nat, e: nat)
    returns (j0: nat, j: nat)
    requires p == [start] + (mid + ([Lit(w)] + tail))
    requires a <= |text| && e in Ends(p, text, a, true)
    ensures a <= j0 <= j && j + |w| <= |text| && j0 in Ends([start], text, a, true)
    ensures LitAt(text, j, w, true) && e in Ends(tail, text, j + |w|, true)
  {
    j0 := SeqWitness([start], mid + ([Lit(w)] + tail), text, a, true, e);
    j := SeqWitness(mid, [Lit(w)] + tail, text, j0, true, e);
    LitStep(w, tail, text, j, true, e);
  }

  /**
   * An end `e` of the section pattern from `a` passes the header: the number
   * at `j`, then a separator, and `e` is the end of the text or a newline.
   */
  lemma SectionWalk(text: string, n: nat, a: nat, e: nat) returns (j: nat)
    requires a <= |text| && e in Ends(SectionPattern(n), text, a, true)
    ensures var num := NatToString(n);
      (a == 0 || (a < |text| && text[a] == '\n'))
      && a <= j && j + |num| < e <= |text| && LitAt(text, j, num, true) && InClass(SectionSep, text[j + |num|], true)
      && (e == |text| || text[e] == '\n')
  {
    var num := NatToString(n);
    var tail := [One(SectionSep), LazyAny, SectionEnd];
    var j0;
    j0, j := PatternWalk(SectionPattern(n), SectionStart, [Ws0, SdsExtractor.SectionWord], num, tail, text, a, e);
    SectionStartAt(text, a, j0);
    HeaderTail(text, j + |num|, e);
  }

  /** The header found in the text at `j`, seen from inside the slice `text[a..e]`. */
  lemma HeaderInSlice(text: string, a: nat, e: nat, j: nat, num: string)
    requires a <= j && j + |num| < e <= |text| && LitAt(text, j, num, true) && InClass(SectionSep, text[j + |num|], true)
    ensures var r := text[a..e]; var q := j - a;
      q + |num| < |r| && Lower(r[q..q + |num|]) == Lower(num) && InClass(SectionSep, r[q + |num|], true)
  {
    LitAtLower(text, j, num, true);
    SliceOfSlice(text, a, e, j - a, j - a + |num|);
  }

  /** An end of `[sep] star (?=sub)`, for a star such as `.*?`, lies past one `sep` character, where `sub` matches. */
  lemma LookTail(sep: Cls, star: Tok, sub: seq<Tok>, text: string, h: nat, e: nat)
    requires star.Rep? && star.lo == 0 && star.hi.None?
    requires h <= |text| && e in Ends([One(sep), star, Look(sub, true)], text, h, true)
    ensures h < e <= |text| && InClass(sep, text[h], true) && Ends(sub, text, e, true) != []
  {
    assert [One(sep), star, Look(sub, true)] == [One(sep)] + [star, Look(sub, true)];
    OneStep(sep, [star, Look(sub, true)], text, h, true, e);
    var z := StarStep(star, [Look(sub, true)], text, h + 1, true, e);
    assert [Look(sub, true)][1..] == [];
  }

  /** An end of the separator, the lazy run and the lookahead lies past the separator, at the end of the text or a newline. */
  lemma HeaderTail(text: string, h: nat, e: nat)
    requires h <= |text| && e in Ends([One(SectionSep), LazyAny, SectionEnd], text, h, true)
    ensures h < e <= |text| && InClass(SectionSep, text[h], true) && (e == |text| || text[e] == '\n')
  {
    LookTail(SectionSep, LazyAny, [AnyOf(SectionEndAlts)], text, h, e);
    SectionEndAt(text, e);
  }

  /**
   * A section that is found is the leftmost match of its pattern, cut from the
   * text at `a`. It begins at the start of the text or at a newline, holds
   * its own header (the number, then a space, colon or full stop, at offset
   * `q`), and stops at the end of the text or just before a newline.
   */
  lemma SectionHeader(text: string, n: nat) returns (a: nat, q: nat)
    requires Found(SectionPattern(n), text, true)
    ensures var r := GetSection(text, n); var num := NatToString(n);
      a + |r| <= |text| && r == text[a..a + |r|]
      && (forall k :: 0 <= k < a ==> !MatchesAt(SectionPattern(n), text, k, true))
      && (a == 0 || (a < |text| && text[a] == '\n'))
      && q + |num| < |r| && Lower(r[q..q + |num|]) == Lower(num) && InClass(SectionSep, r[q + |num|], true)
      && (a + |r| == |text| || text[a + |r|] == '\n')
  {
    var e;
    a, e := SearchSpan(SectionPattern(n), text, true);
    SectionOfSpan(text, n, a, e);
    q := HeaderFacts(text, n, a, e);
  }

  lemma SectionOfSpan(text: string, n: nat, a: nat, e: nat)
    requires a <= e <= |text| && Search(SectionPattern(n), text, true) == Some(Span(a, e))
    ensures GetSection(text, n) == text[a..e]
  {
  }

  /** What a match of the section pattern from `a` to `e` holds, seen from inside `text[a..e]`. */
  lemma HeaderFacts(text: string, n: nat, a: nat, e: nat) returns (q: nat)
    requires a <= e <= |text| && e in Ends(SectionPattern(n), text, a, true)
    ensures var r := text[a..e]; var num := NatToString(n);
      (a == 0 || (a < |text| && text[a] == '\n'))
      && q + |num| < |r| && Lower(r[q..q + |num|]) == Lower(num) && InClass(SectionSep, r[q + |num|], true)
      && (e == |text| || text[e] == '\n')
  {
    var j := SectionWalk(text, n, a, e);
    HeaderInSlice(text, a, e, j, NatToString(n));
    q := j - a;
  }

  /** The span `re.search` finds: a match from its start, and no match starts further left. */
  lemma SearchSpan(p: seq<Tok>, text: string, ci: bool) returns (a: nat, e: nat)
    requires Found(p, text, ci)
    ensures Search(p, text, ci) == Some(Span(a, e)) && a <= e <= |text| && e in Ends(p, text, a, ci)
    ensures forall k :: 0 <= k < a ==> !MatchesAt(p, text, k, ci)
  {
    var m := Search(p, text, ci).value;
    a, e := m.start, m.end;
  }

  /** The section is "" exactly when its pattern matches nowhere in the text. */
  lemma SectionEmptyIffAbsent(text: string, n: nat)
    ensures GetSection(text, n) == [] <==> !Found(SectionPattern(n), text, true)
  {
    if Found(SectionPattern(n), text, true) {
      var a, q := SectionHeader(text, n);
    }
  }

  // ---- extract_field_value ----

  /**
   * `extract_field_value(text, field_labels, section_text)`: the legacy label
   * scan with a window of three lines under a lone label and this module's
   * noise classifier.
   */
  function FieldValue(text: string, labels: seq<seq<Tok>>, sectionText: Option<string>): Option<string> {
    FieldExtractorFixed.LegacyWith(text, labels, sectionText, 3, IsNoiseText)
  }

  method ExtractFieldValue(text: string, labels: seq<seq<Tok>>, sectionText: Option<string>) returns (r: Option<string>)
    ensures r == FieldValue(text, labels, sectionText)
  {
    r := FieldExtractorFixed.ExtractFieldValueLegacyWith(text, labels, sectionText, 3, IsNoiseText);
  }

  /**
   * A value comes from line `i` and label `k` of the searched text: the cleaned
   * rest of that line, or a line `j` at most three lines under a label that
   * stands alone. It is never empty or noise, and no earlier (line, label)
   * pair gave a value.
   */
  lemma FieldValueSource(text: string, labels: seq<seq<Tok>>, sectionText: Option<string>) returns (i: nat, k: nat, j: nat)
    requires FieldValue(text, labels, sectionText).Some?
    ensures var lines := SplitOn(FieldExtractorFixed.SearchText(text, sectionText), '\n');
      var v := FieldValue(text, labels, sectionText).value;
      i < |lines| && k < |labels| && j < |lines| && v != [] && !IsNoiseText(v)
      && ((j == i && v == FieldExtractorFixed.LegacyValue(Group1Of(labels[k], Strip(lines[i]))))
          || (i < j <= i + 3 && MatchesAt(FieldExtractorFixed.LegacyAlone(labels[k]), Strip(lines[i]), 0, true)
              && v == Strip(lines[j]) && v[0] != ':'))
    ensures var lines := SplitOn(FieldExtractorFixed.SearchText(text, sectionText), '\n');
      forall x: nat, y: nat :: x < |lines| && y < |labels| && (x < i || (x == i && y < k)) ==>
        FieldExtractorFixed.LegacyStep(lines, x, labels[y], 3, IsNoiseText).None?
  {
    i, k, j := FieldExtractorFixed.LegacySource(text, labels, sectionText, 3, IsNoiseText);
  }

  /** The raw same-line value of `lab` in a stripped line, or "" when the line does not carry one. */
  function Group1Of(lab: seq<Tok>, line: string): string {
    match FieldExtractor.Group1(FieldExtractorFixed.LegacyParts(lab), line, true)
    case None => ""
    case Some(g) => g
  }

  // ---- extract_product_name ----

  /** The labels of a product name, in priority order. */
  const ProductNameLabels: seq<seq<Tok>> := [
    Phrase(["Product", "identifier"]), Phrase(["Product", "name"]), Phrase(["Trade", "name"]),
    Phrase(["Commercial", "product", "name"])]

  /** `@|www\.|\.com|\.org` */
  const WebMarker: seq<Tok> := [AnyOf([[Lit("@")], [Lit("www.")], [Lit(".com")], [Lit(".org")]])]

  /** `^[:\-\s]+$` */
  const PunctuationOnly: seq<Tok> := [Bol(false), Rep(Cls([Ch(':'), Ch('-'), SpaceItem], false), 1, None, false), Eol(false)]

  /** A stripped line among the first fifteen that may be a product name: every filter of strategy 2 passes. */
  predicate ProductLine(line: string) {
    line != []
    && !MatchesAt(SdsExtractor.HeadingStart, line, 0, true)
    && !HasKeyword(line, ["supplier", "emergency", "telephone", "contact", "details"])
    && !IsNoiseText(line)
    && Found([One(SdsExtractor.Alnum)], line, false) && 3 <= |line| <= 100
    && !Found(WebMarker, line, true)
    && !MatchesAt(PunctuationOnly, line, 0, false)
  }

  /** `extract_product_name(section1_text)`: the label scan of section 1, else the first early line that passes. */
  function ProductName(section1: string): Option<string> {
    var hit := FieldValue("", ProductNameLabels, Some(section1));
    if SdsParsePdf.Truthy(hit) then hit else FirstMapped(SdsExtractor.EarlyLines(section1), Strip, ProductLine)
  }

  method ExtractProductName(section1: string) returns (r: Option<string>)
    ensures r == ProductName(section1)
  {
    r := ExtractFieldValue("", ProductNameLabels, Some(section1));
    if r.Some? && r.value != [] {
      return r;
    }
    r := FindFirstMapped(SdsExtractor.EarlyLines(section1), Strip, ProductLine);
  }

  /**
   * A product name is the label scan's value, or, when the scan gives
   * nothing, the stripped line `k` among the first fifteen of section 1: it
   * passes every filter (so it is 3 to 100 characters long) and no earlier
   * line does. Either way it is neither empty nor noise.
   */
  lemma ProductNameSource(section1: string) returns (k: nat)
    requires ProductName(section1).Some?
    ensures var r := ProductName(section1).value; var hit := FieldValue("", ProductNameLabels, Some(section1));
      var lines := SdsExtractor.EarlyLines(section1);
      r != [] && !IsNoiseText(r)
      && (hit == Some(r)
          || (!SdsParsePdf.Truthy(hit) && k < |lines| && k < 15 && r == Strip(lines[k]) && ProductLine(r)
              && 3 <= |r| <= 100 && forall x :: 0 <= x < k ==> !ProductLine(Strip(lines[x]))))
  {
    var hit := FieldValue("", ProductNameLabels, Some(section1));
    if SdsParsePdf.Truthy(hit) {
      var i, y, j := FieldValueSource("", ProductNameLabels, Some(section1));
      k := 0;
    } else {
      k := FirstMappedFrom(SdsExtractor.EarlyLines(section1), Strip, ProductLine);
    }
  }

  // ---- extract_manufacturer ----

  /** The labels of a manufacturer, in priority order. */
  const ManufacturerLabels: seq<seq<Tok>> := [
    [Lit("Manufacturer")], [Lit("Supplier")], Phrase(["Company", "name", "of", "supplier"]), [Lit("Producer")],
    Phrase(["Company", "name"])]

  /** A stripped line of the supplier block that names the manufacturer: not noise, over three characters, no phone number. */
  predicate SupplierLine(line: string) {
    line != [] && !IsNoiseText(line) && |line| > 3 && !Found(SdsExtractor.PhoneInLine, line, false)
  }

  /** Strategy 2: the first line of the captured "Details of the supplier" block that passes every filter. */
  function SupplierPick(section1: string): Option<string> {
    match FieldExtractor.Group1(SdsExtractor.SupplierBlockParts, section1, true)
    case None => None
    case Some(b) => FirstMapped(SplitOn(b, '\n'), Strip, SupplierLine)
  }

  /** `extract_manufacturer(section1_text)`: a label value that is not noise, else the supplier block. */
  function Manufacturer(section1: string): Option<string> {
    var hit := FieldValue("", ManufacturerLabels, Some(section1));
    if SdsParsePdf.Truthy(hit) && !IsNoiseText(hit.value) then hit else SupplierPick(section1)
  }

  method ExtractManufacturer(section1: string) returns (r: Option<string>)
    ensures r == Manufacturer(section1)
  {
    r := ExtractFieldValue("", ManufacturerLabels, Some(section1));
    if r.Some? && r.value != [] && !IsNoiseText(r.value) {
      return r;
    }
    var found := FieldExtractor.Group1(SdsExtractor.SupplierBlockParts, section1, true);
    if found.None? {
      return None;
    }
    r := FindFirstMapped(SplitOn(found.value, '\n'), Strip, SupplierLine);
  }

  /**
   * A manufacturer is the label scan's value, or, when that is missing or
   * noise, the stripped line `k` of the captured supplier block `b`: over
   * three characters, no phone number, and no earlier line passes. Either way
   * it is neither empty nor noise.
   */
  lemma ManufacturerSource(section1: string) returns (b: string, k: nat)
    requires Manufacturer(section1).Some?
    ensures var r := Manufacturer(section1).value; var hit := FieldValue("", ManufacturerLabels, Some(section1));
      r != [] && !IsNoiseText(r)
      && (hit == Some(r)
          || (FieldExtractor.Group1(SdsExtractor.SupplierBlockParts, section1, true) == Some(b)
              && k < |SplitOn(b, '\n')| && r == Strip(SplitOn(b, '\n')[k]) && |r| > 3
              && !Found(SdsExtractor.PhoneInLine, r, false)
              && forall x :: 0 <= x < k ==> !SupplierLine(Strip(SplitOn(b, '\n')[x]))))
  {
    var hit := FieldValue("", ManufacturerLabels, Some(section1));
    if SdsParsePdf.Truthy(hit) && !IsNoiseText(hit.value) {
      b, k := "", 0;
    } else {
      b := FieldExtractor.Group1(SdsExtractor.SupplierBlockParts, section1, true).value;
      k := FirstMappedFrom(SplitOn(b, '\n'), Strip, SupplierLine);
    }
  }

  // ---- extract_date ----

  type Strptime = FieldExtractorFixed.Strptime

  /**
   * `(?:Issue\s+Date|Revision\s+Date|Date\s+of\s+issue|Version\s+date|Date\s+Prepared|Issued)[^\n]{0,30}?[:\-]?\s*`:
   * what leads up to the date.
   */
  const DateLead: seq<Tok> := [
    AnyOf([Phrase(["Issue", "Date"]), Phrase(["Revision", "Date"]), Phrase(["Date", "of", "issue"]),
           Phrase(["Version", "date"]), Phrase(["Date", "Prepared"]), [Lit("Issued")]]),
    Rep(NotNewline, 0, Some(30), true), Maybe(FieldExtractor.ColonOrDash), Ws0]

  /** `(\d{1,2}[/-]\d{1,2}[/-]\d{2,4}|\d{4}-\d{2}-\d{2}|[A-Za-z]+\s+\d{1,2},?\s*\d{4})`: the captured date. */
  const DateText: seq<Tok> := [
    AnyOf([[DigitsBetween(1, 2), One(Chars("/-")), DigitsBetween(1, 2), One(Chars("/-")), DigitsBetween(2, 4)],
           FieldExtractorFixed.IsoDateText,
           [Rep(AsciiLetter, 1, None, false), Ws1, DigitsBetween(1, 2), Maybe(Chars(",")), Ws0, DigitsBetween(4, 4)]])]

  const IssueDatePattern := FieldExtractorFixed.DatePattern(DateLead, DateText)

  /** The formats tried on each captured date, in order. */
  const DateFormats: seq<string> := ["%d/%m/%Y", "%m/%d/%Y", "%Y-%m-%d", "%d-%m-%Y"]

  /** The date of the first capture that parses under some format to a day not after `today`. */
  function FirstDated(cs: seq<string>, fmts: seq<string>, today: Date, strptime: Strptime): Option<Date> {
    if cs == [] then None
    else
      match FieldExtractorFixed.FirstFormat(cs[0], fmts, today, strptime)
      case Some(d) => Some(d)
      case None => FirstDated(cs[1..], fmts, today, strptime)
  }

  /** `extract_date(text)`, with the date parser and today's date as parameters: the first usable date, as YYYY-MM-DD. */
  function IssueDateText(text: string, today: Date, strptime: Strptime): Option<string> {
    match FirstDated(SdsExtractorDate.Captures(IssueDatePattern, text), DateFormats, today, strptime)
    case None => None
    case Some(d) => Some(FormatIso(d))
  }

  /** The loop over the captured dates, each tried under every format in turn. */
  method ExtractDate(text: string, today: Date, strptime: Strptime) returns (r: Option<string>)
    ensures r == IssueDateText(text, today, strptime)
  {
    var matches := SdsExtractorDate.Captures(IssueDatePattern, text);
    var n := 0;
    while n < |matches|
      invariant 0 <= n <= |matches|
      invariant FirstDated(matches[n..], DateFormats, today, strptime) == FirstDated(matches, DateFormats, today, strptime)
    {
      assert matches[n..][1..] == matches[n + 1..];
      var parsed := FieldExtractorFixed.FirstFormatAt(matches[n], DateFormats, today, strptime);
      if parsed.Some? {
        return Some(FormatIso(parsed.value));
      }
      n := n + 1;
    }
    return None;
  }

  /** No format gives a usable date exactly when each one fails to parse or gives a day after `today`. */
  lemma {:induction false} NoFormatFits(ds: string, fmts: seq<string>, today: Date, strptime: Strptime)
    ensures FieldExtractorFixed.FirstFormat(ds, fmts, today, strptime).None?
      <==> forall x :: 0 <= x < |fmts| ==> strptime(ds, fmts[x]).None? || After(strptime(ds, fmts[x]).value, today)
    decreases |fmts|
  {
    if fmts != [] {
      NoFormatFits(ds, fmts[1..], today, strptime);
      assert forall x :: 1 <= x < |fmts| ==> fmts[1..][x - 1] == fmts[x];
    }
  }

  /** A date found comes from capture `h` under format `f`; every earlier capture gave no usable date. */
  lemma {:induction false} FirstDatedSource(cs: seq<string>, fmts: seq<string>, today: Date, strptime: Strptime)
    returns (h: nat, f: nat)
    requires FirstDated(cs, fmts, today, strptime).Some?
    ensures h < |cs| && f < |fmts| && strptime(cs[h], fmts[f]) == FirstDated(cs, fmts, today, strptime)
    ensures !After(FirstDated(cs, fmts, today, strptime).value, today)
    ensures forall x :: 0 <= x < f ==> strptime(cs[h], fmts[x]).None? || After(strptime(cs[h], fmts[x]).value, today)
    ensures forall x :: 0 <= x < h ==> FieldExtractorFixed.FirstFormat(cs[x], fmts, today, strptime).None?
    decreases |cs|
  {
    if FieldExtractorFixed.FirstFormat(cs[0], fmts, today, strptime).Some? {
      h := 0;
      f := FieldExtractorFixed.FirstFormatSource(cs[0], fmts, today, strptime);
    } else {
      h, f := FirstDatedSource(cs[1..], fmts, today, strptime);
      h := h + 1;
    }
  }

  /** Nothing is found exactly when no capture gives a usable date. */
  lemma {:induction false} FirstDatedNone(cs: seq<string>, fmts: seq<string>, today: Date, strptime: Strptime)
    ensures FirstDated(cs, fmts, today, strptime).None?
      <==> forall x :: 0 <= x < |cs| ==> FieldExtractorFixed.FirstFormat(cs[x], fmts, today, strptime).None?
    decreases |cs|
  {
    if cs != [] {
      FirstDatedNone(cs[1..], fmts, today, strptime);
      assert forall x :: 1 <= x < |cs| ==> cs[1..][x - 1] == cs[x];
    }
  }

  /**
   * An issue date is the YYYY-MM-DD form of the day that the first usable
   * capture `h` parses to under format `f`, one of the four formats: not after
   * today, every earlier format failed on it or gave a later day, and every
   * earlier capture failed under all four. A valid day reads back from the text.
   */
  lemma IssueDateSource(text: string, today: Date, strptime: Strptime) returns (h: nat, f: nat, d: Date)
    requires IssueDateText(text, today, strptime).Some?
    ensures var cs := SdsExtractorDate.Captures(IssueDatePattern, text); var r := IssueDateText(text, today, strptime).value;
      h < |cs| && f < 4 && strptime(cs[h], DateFormats[f]) == Some(d) && !After(d, today)
      && r == FormatIso(d) && IsoShape(r) && (ValidDate(d) ==> ParseIso(r) == Some(d))
      && (forall x :: 0 <= x < f ==> strptime(cs[h], DateFormats[x]).None? || After(strptime(cs[h], DateFormats[x]).value, today))
      && (forall x :: 0 <= x < h ==> FieldExtractorFixed.FirstFormat(cs[x], DateFormats, today, strptime).None?)
  {
    var cs := SdsExtractorDate.Captures(IssueDatePattern, text);
    h, f := FirstDatedSource(cs, DateFormats, today, strptime);
    d := FirstDated(cs, DateFormats, today, strptime).value;
    FormatIsoShape(d);
    if ValidDate(d) {
      ParseFormatIso(d);
    }
  }

  /** There is no issue date exactly when every capture fails, or gives a day after today, under all four formats. */
  lemma IssueDateAbsent(text: string, today: Date, strptime: Strptime)
    ensures var cs := SdsExtractorDate.Captures(IssueDatePattern, text);
      IssueDateText(text, today, strptime).None?
      <==> forall x, y :: 0 <= x < |cs| && 0 <= y < |DateFormats| ==>
             strptime(cs[x], DateFormats[y]).None? || After(strptime(cs[x], DateFormats[y]).value, today)
  {
    var cs := SdsExtractorDate.Captures(IssueDatePattern, text);
    FirstDatedNone(cs, DateFormats, today, strptime);
    forall x | 0 <= x < |cs| {
      NoFormatFits(cs[x], DateFormats, today, strptime);
    }
  }

  // ---- parse_pdf ----

  type FieldName = SdsParsePdf.FieldName
  type Field = SdsParsePdf.Field
  type Environment = SdsParsePdf.Environment

  /** The labels of the product use, read from section 1. */
  const UseLabels: seq<seq<Tok>> := [
    Phrase(["Recommended", "use"]), Phrase(["Intended", "use"]), Phrase(["Use", "of", "the", "substance"]),
    Phrase(["Product", "use"]), Phrase(["Relevant", "identified", "uses"])]

  /** The labels of the dangerous-goods class, read from section 14. */
  const DgLabels: seq<seq<Tok>> := [
    Phrase(["DG", "Class"]), [Lit("Class")], Phrase(["Transport", "hazard", "class"]),
    [Opt([AnyOf([[Lit("IMDG")], [Lit("IATA")], [Lit("ADG")]])]), Ws0] + Phrase(["Hazard", "Class"]),
    Phrase(["Dangerous", "goods", "class"])]

  /** The label of the subsidiary risk, read from section 14. */
  const SubsidiaryLabels: seq<seq<Tok>> := [Phrase(["Subsidiary", "risk"])]

  /** The labels of the packing group, read from section 14. */
  const PgLabels: seq<seq<Tok>> := [Phrase(["Packing", "group"]), [Lit("PG")]]

  /**
   * The extractors `parse_pdf` calls, as values: the section locator, the
   * product-name and manufacturer strategies over section 1, the label scan,
   * the class validator and the date finder.
   */
  datatype Extractors = Extractors(
    section: (string, nat) -> string,
    productName: string -> Option<string>,
    manufacturer: string -> Option<string>,
    fieldValue: (string, seq<seq<Tok>>, Option<string>) -> Option<string>,
    validDgClass: string -> bool,
    issueDate: (string, Date, Strptime) -> Option<string>)

  /** The extractors of this module. */
  const WorkingExtractors: Extractors :=
    Extractors(GetSection, ProductName, Manufacturer, FieldValue, SdsExtractor.ValidateDangerousGoodsClass, IssueDateText)

  /** The seven values, before the final sweep. */
  datatype Values = Values(productName: Option<string>, manufacturer: Option<string>, productUse: Option<string>,
                           dgClass: Option<string>, subsidiaryRisk: Option<string>, packingGroup: Option<string>,
                           issueDate: Option<string>)

  /** The value of one field; this record has no description entry. */
  function Value(vs: Values, name: FieldName): Option<string> {
    match name
    case ProductName => vs.productName
    case Manufacturer => vs.manufacturer
    case Description => None
    case ProductUse => vs.productUse
    case DangerousGoodsClass => vs.dgClass
    case SubsidiaryRisk => vs.subsidiaryRisk
    case PackingGroup => vs.packingGroup
    case IssueDate => vs.issueDate
  }

  /** The seven values for the text: four label scans, a class that fails the validator dropped. */
  function ValuesOf(text: string, env: Environment, ex: Extractors): Values {
    var section1 := ex.section(text, 1);
    var section14 := ex.section(text, 14);
    Values(ex.productName(section1), ex.manufacturer(section1), ex.fieldValue(text, UseLabels, Some(section1)),
           SdsParsePdf.Validated(ex.fieldValue(text, DgLabels, Some(section14)), ex.validDgClass),
           ex.fieldValue(text, SubsidiaryLabels, Some(section14)), ex.fieldValue(text, PgLabels, Some(section14)),
           ex.issueDate(text, env.today, env.strptime))
  }

  /** The entries of the record, before the sweep. */
  function FieldsOf(vs: Values): map<FieldName, Field> {
    map[SdsParsePdf.ProductName := SdsParsePdf.Scored(vs.productName),
        SdsParsePdf.Manufacturer := SdsParsePdf.Scored(vs.manufacturer),
        SdsParsePdf.ProductUse := SdsParsePdf.Scored(vs.productUse),
        SdsParsePdf.DangerousGoodsClass := SdsParsePdf.Scored(vs.dgClass),
        SdsParsePdf.SubsidiaryRisk := SdsParsePdf.Scored(vs.subsidiaryRisk),
        SdsParsePdf.PackingGroup := SdsParsePdf.Scored(vs.packingGroup),
        SdsParsePdf.IssueDate := SdsParsePdf.Scored(vs.issueDate)]
  }

  /** Every key of the record. */
  const AllNames: set<FieldName> :=
    {SdsParsePdf.ProductName, SdsParsePdf.Manufacturer, SdsParsePdf.ProductUse, SdsParsePdf.DangerousGoodsClass,
     SdsParsePdf.SubsidiaryRisk, SdsParsePdf.PackingGroup, SdsParsePdf.IssueDate}

  /** The final validation clears a product name or manufacturer that is noise. */
  predicate Noisy(name: FieldName, v: string) {
    IsNoiseText(v)
  }

  /** `extraction_info`: the text length and which PDF libraries loaded. */
  datatype ExtractionInfo = ExtractionInfo(textLength: nat, pymupdf: bool, pdfplumber: bool, pdfminer: bool)

  /** The record `parse_pdf` returns: the error record, or the extraction info and the field entries. */
  datatype ParseResult =
    | Failed(error: string, info: ExtractionInfo)
    | Parsed(info: ExtractionInfo, fields: map<FieldName, Field>)

  function Info(textLength: nat, env: Environment): ExtractionInfo {
    ExtractionInfo(textLength, env.pymupdf, env.pdfplumber, env.pdfminer)
  }

  /** The record `parse_pdf` returns for the extracted text. */
  function Record(text: string, env: Environment, ex: Extractors): ParseResult {
    if text == [] then Failed(SdsParsePdf.NoText, Info(0, env))
    else Parsed(Info(|text|, env), SdsParsePdf.Swept(FieldsOf(ValuesOf(text, env, ex)), SdsParsePdf.SweptNames, Noisy))
  }

  /** The entry of one field after the sweep, directly: cleared when it is a noisy product name or manufacturer. */
  function Final(name: FieldName, v: Option<string>): Field {
    if name in SdsParsePdf.SweptNames && SdsParsePdf.Truthy(v) && IsNoiseText(v.value) then SdsParsePdf.Field(None, 0.0)
    else SdsParsePdf.Scored(v)
  }

  /**
   * `parse_pdf(path)` once the text has been extracted: the entries are
   * filled in field by field, a class the validator rejects is dropped, and
   * the product name and manufacturer are swept.
   */
  method ParsePdf(text: string, env: Environment, ex: Extractors) returns (r: ParseResult)
    ensures r == Record(text, env, ex)
  {
    if text == [] {
      return Failed(SdsParsePdf.NoText, Info(0, env));
    }
    var section1 := ex.section(text, 1);
    var section14 := ex.section(text, 14);
    var result: map<FieldName, Field> := map[];

    var productName := ex.productName(section1);
    result := result[SdsParsePdf.ProductName := SdsParsePdf.Scored(productName)];
    var manufacturer := ex.manufacturer(section1);
    result := result[SdsParsePdf.Manufacturer := SdsParsePdf.Scored(manufacturer)];
    var productUse := ex.fieldValue(text, UseLabels, Some(section1));
    result := result[SdsParsePdf.ProductUse := SdsParsePdf.Scored(productUse)];
    var dgClass := ex.fieldValue(text, DgLabels, Some(section14));
    if SdsParsePdf.Truthy(dgClass) && !ex.validDgClass(dgClass.value) {
      dgClass := None;
    }
    result := result[SdsParsePdf.DangerousGoodsClass := SdsParsePdf.Scored(dgClass)];
    var subsidiaryRisk := ex.fieldValue(text, SubsidiaryLabels, Some(section14));
    result := result[SdsParsePdf.SubsidiaryRisk := SdsParsePdf.Scored(subsidiaryRisk)];
    var packingGroup := ex.fieldValue(text, PgLabels, Some(section14));
    result := result[SdsParsePdf.PackingGroup := SdsParsePdf.Scored(packingGroup)];
    var issueDate := ex.issueDate(text, env.today, env.strptime);
    result := result[SdsParsePdf.IssueDate := SdsParsePdf.Scored(issueDate)];

    assert result == FieldsOf(ValuesOf(text, env, ex));
    result := SdsParsePdf.Sweep(result, SdsParsePdf.SweptNames, Noisy);
    return Parsed(Info(|text|, env), result);
  }

  // ---- what the record promises ----

  lemma FieldsOfValue(vs: Values)
    ensures FieldsOf(vs).Keys == AllNames
    ensures forall name :: name in FieldsOf(vs) ==> FieldsOf(vs)[name] == SdsParsePdf.Scored(Value(vs, name))
  {
  }

  /** An empty text, and only an empty text, gives the error record; the info carries the text's length. */
  lemma RecordFailsOnlyWithoutText(text: string, env: Environment, ex: Extractors)
    ensures var r := Record(text, env, ex);
      (r.Failed? <==> text == []) && (r.Failed? ==> r.error == SdsParsePdf.NoText)
      && r.info.textLength == |text|
      && r.info.pymupdf == env.pymupdf && r.info.pdfplumber == env.pdfplumber && r.info.pdfminer == env.pdfminer
  {
  }

  /**
   * A record for a non-empty text has exactly the seven entries; each is its
   * extractor's value scored 1.0 or 0.0, except that a product name or
   * manufacturer that is noise is cleared.
   */
  lemma RecordEntries(text: string, env: Environment, ex: Extractors)
    requires text != []
    ensures var r := Record(text, env, ex); var vs := ValuesOf(text, env, ex);
      r.Parsed? && r.fields.Keys == AllNames
      && forall name :: name in r.fields ==> r.fields[name] == Final(name, Value(vs, name))
  {
    var vs := ValuesOf(text, env, ex);
    var fields := FieldsOf(vs);
    FieldsOfValue(vs);
    SdsParsePdf.SweptKeeps(fields, SdsParsePdf.SweptNames, Noisy);
    var swept := SdsParsePdf.Swept(fields, SdsParsePdf.SweptNames, Noisy);
    forall name | name in swept
      ensures swept[name] == Final(name, Value(vs, name))
    {
      if name in SdsParsePdf.SweptNames {
        SdsParsePdf.SweptEntry(fields, SdsParsePdf.SweptNames, Noisy, name);
      }
    }
  }

  /** Every entry's confidence is 1.0 when its value is truthy and 0.0 otherwise. */
  lemma ConfidenceMatchesValue(text: string, env: Environment, ex: Extractors)
    requires text != []
    ensures var r := Record(text, env, ex);
      r.Parsed? && forall name :: name in r.fields ==>
        r.fields[name].confidence == (if SdsParsePdf.Truthy(r.fields[name].value) then 1.0 else 0.0)
  {
    RecordEntries(text, env, ex);
  }

  /** After the sweep, a product name or manufacturer that is present is not noise. */
  lemma SweptEntriesClean(text: string, env: Environment, ex: Extractors)
    requires text != []
    ensures var r := Record(text, env, ex);
      r.Parsed? && r.fields.Keys == AllNames
      && forall name :: name in SdsParsePdf.SweptNames && SdsParsePdf.Truthy(r.fields[name].value) ==>
           !IsNoiseText(r.fields[name].value.value)
  {
    RecordEntries(text, env, ex);
  }

  /** A dangerous-goods class that is present in the record passes the validator. */
  lemma DgClassValidated(text: string, env: Environment, ex: Extractors)
    requires text != []
    ensures var r := Record(text, env, ex);
      r.Parsed? && SdsParsePdf.DangerousGoodsClass in r.fields
      && (SdsParsePdf.Truthy(r.fields[SdsParsePdf.DangerousGoodsClass].value) ==>
            ex.validDgClass(r.fields[SdsParsePdf.DangerousGoodsClass].value.value))
  {
    RecordEntries(text, env, ex);
    assert SdsParsePdf.DangerousGoodsClass in AllNames;
  }

  /** A value that is absent, empty or not noise. */
  predicate Clean(v: Option<string>) {
    !SdsParsePdf.Truthy(v) || !IsNoiseText(v.value)
  }

  /** The product-name and manufacturer strategies never give noise. */
  ghost predicate NeverNoisy(ex: Extractors) {
    forall s :: Clean(ex.productName(s)) && Clean(ex.manufacturer(s))
  }

  /** With strategies that never give noise, the sweep changes nothing: every entry is its extractor's value, scored. */
  lemma SweepIdle(text: string, env: Environment, ex: Extractors)
    requires text != [] && NeverNoisy(ex)
    ensures var r := Record(text, env, ex); var vs := ValuesOf(text, env, ex);
      r.Parsed? && r.fields.Keys == AllNames
      && forall name :: name in r.fields ==> r.fields[name] == SdsParsePdf.Scored(Value(vs, name))
  {
    var section1 := ex.section(text, 1);
    assert Clean(ex.productName(section1)) && Clean(ex.manufacturer(section1));
    RecordEntries(text, env, ex);
  }

  /** This module's strategies never give noise, so its final validation never clears anything. */
  lemma WorkingNeverNoisy()
    ensures NeverNoisy(WorkingExtractors)
  {
    forall s
      ensures Clean(ProductName(s)) && Clean(Manufacturer(s))
    {
      if ProductName(s).Some? {
        var k := ProductNameSource(s);
      }
      if Manufacturer(s).Some? {
        var b, k := ManufacturerSource(s);
      }
    }
  }
}
