/**
 * Text utilities of the modular SDS parser (modules/utils.py): the noise
 * classifier, the manufacturer-candidate cleaner, the dangerous-goods validator,
 * the section locator and the duplicate-letter normalisers.
 */
module Utils {
  import opened Wrappers
  import opened Text
  import opened Pattern
  import opened PatternLaws
  import opened Config

  // ---- is_noise_text ----

  /** `^[:\-\s]*$`: nothing but colons, hyphens and whitespace. */
  predicate PunctuationOnly(t: string) {
    forall k :: 0 <= k < |t| ==> t[k] == ':' || t[k] == '-' || IsSpace(t[k])
  }

  /** `[-\s]` */
  const DashOrSpace := Cls([Ch('-'), SpaceItem], false)

  /** `^\d{2,4}[-\s]\d{2,4}[-\s]\d{2,4}$`: a whole phone number in three groups. */
  const PhoneShape: seq<Tok> := [
    Bol(false), DigitsBetween(2, 4), One(DashOrSpace), DigitsBetween(2, 4), One(DashOrSpace),
    DigitsBetween(2, 4), Eol(false)]

  /** `^(UK|US|USA|EU|AU|NZ|JP|CN),?\s+[A-Z]{2,4}\b`, case-sensitive: a country-code header such as "UK, NPIS". */
  const CountryHeader: seq<Tok> := [
    Bol(false),
    AnyOf([[Lit("UK")], [Lit("US")], [Lit("USA")], [Lit("EU")], [Lit("AU")], [Lit("NZ")], [Lit("JP")], [Lit("CN")]]),
    Maybe(Chars(",")), Ws1, Rep(UpperLetter, 2, Some(4), false), WordBoundary]

  /** `\b\d{2,4}\s+\d{2,4}\s+\d{2,4}\b`: three space-separated digit groups anywhere. */
  const PhoneGroups: seq<Tok> := [
    WordBoundary, DigitsBetween(2, 4), Ws1, DigitsBetween(2, 4), Ws1, DigitsBetween(2, 4), WordBoundary]

  const GenericWords: seq<string> :=
    ["name", "date", "address", "contact", "details", "information", "adresse", "kontakt", "informationen"]

  const CountryWords: set<string> :=
    {"australia", "new zealand", "united states", "united kingdom", "usa", "uk", "canada", "deutschland", "germany"}

  /**
   * utils.is_noise_text: text that sits where a value should be but is a label, a
   * phone number, punctuation or a bare country or generic word. Anything shorter
   * than two characters once stripped is noise, single digits included.
   */
  predicate IsNoiseText(text: string) {
    var t := Strip(text);
    |t| < 2
    || AnyFullMatch(NoiseLabels, t, true)
    || PunctuationOnly(t)
    || MatchesAt(PhoneShape, t, 0, false)
    || MatchesAt(CountryHeader, t, 0, false)
    || Found(PhoneGroups, t, false)
    || Lower(t) in GenericWords
    || Lower(t) in CountryWords
  }

  /** Only the stripped text decides: surrounding whitespace never changes the verdict. */
  lemma NoiseDependsOnStrippedText(text: string)
    ensures IsNoiseText(text) == IsNoiseText(Strip(text))
  {
    StripIdempotent(text);
  }

  /** Text shorter than two characters once stripped is noise, a lone digit such as "9" included. */
  lemma ShortTextIsNoise(text: string)
    requires |Strip(text)| < 2
    ensures IsNoiseText(text)
  {
  }

  /** Text that, stripped, matches one of NOISE_LABELS in full, ignoring case, is noise. */
  lemma NoiseLabelIsNoise(text: string, k: nat)
    requires k < |NoiseLabels| && FullMatch(NoiseLabels[k], Strip(text), true)
    ensures IsNoiseText(text)
  {
    AnyFullMatchSome(NoiseLabels, Strip(text), true);
  }

  // ---- clean_company_candidate ----

  /** `^[\s\-–—:*•■●►➤▼◆▪]+`: leading bullets, arrows and dashes. */
  const Bullets := CharSet({
    '-', '–', '—', ':', '*', '•', '■', '●', '►', '➤', '▼', '◆', '▪'}, true)

  /** `^(?:Company\s+and\s+address|Company|Manufacturer|Supplier(?:\s+Name)?|Distributor|Producer)\s*[:\-]\s*` */
  const CompanyLabelPrefix: seq<Tok> := [
    Bol(false),
    AnyOf([
      Phrase(["Company", "and", "address"]), [Lit("Company")], [Lit("Manufacturer")],
      [Lit("Supplier"), Opt([Ws1, Lit("Name")])], [Lit("Distributor")], [Lit("Producer")]]),
    Ws0, One(Chars(":-")), Ws0]

  /** `^(Section\s*\d+\b|\d+\.?\s*(Identification|Hazard)\b)`, ignoring case. */
  const CompanySectionHeader: seq<Tok> := [
    Bol(false),
    AnyOf([
      [Lit("Section"), Ws0, Digits1, WordBoundary],
      [Digits1, Maybe(Chars(".")), Ws0, AnyOf([[Lit("Identification")], [Lit("Hazard")]]), WordBoundary]])]

  /** `\s*\([^)]*(?:ABN|ACN|Formerly)\s*[^)]*\)`: a parenthesis holding registry or former-name details. */
  const RegistryParens: seq<Tok> := [
    Ws0, Lit("("), Rep(NotChars(")"), 0, None, false),
    AnyOf([[Lit("ABN")], [Lit("ACN")], [Lit("Formerly")]]),
    Ws0, Rep(NotChars(")"), 0, None, false), Lit(")")]

  /** The noise tokens after which a company candidate is cut, as one `\b(?:...)\b` pattern. */
  const CompanyNoiseTokens: seq<Tok> := [
    WordBoundary,
    AnyOf([
      [Lit("Association"), Ws0, Maybe(Chars("/")), Ws0, Lit("Organisation")],
      [Lit("Poison"), Maybe(Chars("s")), Ws1, Lit("Information")],
      [Lit("Poison"), Ws1, Lit("Information")],
      [Lit("Emergency"), Group([Cat([Ws1, Lit("telephone")]), Cat([Ws1, Lit("phone")])], true)],
      [Lit("ABN"), WordBoundary], [Lit("ACN"), WordBoundary],
      [Lit("Address")], [Lit("Contact")], [Lit("Website")], [Lit("Email")],
      [Lit("Tel"), Maybe(Chars("."))], [Lit("Phone")], [Lit("Fax")]]),
    WordBoundary]

  /** Corporate suffixes recognised by the suffix clip. */
  const CorporateSuffix: Tok := AnyOf([
    Phrase(["PTY", "LTD"]), [Lit("P/L")], [Lit("LTD")], [Lit("LIMITED")], [Lit("INC"), Maybe(Chars("."))],
    [Lit("CORP"), Maybe(Chars("."))], [Lit("CORPORATION")], [Lit("GMBH")], [Lit("PLC")], [Lit("BV")],
    [Lit("S"), Maybe(Chars(".")), Lit("A"), Maybe(Chars("."))], [Lit("S.P.A.")], [Lit("LLC")]])

  /** `^(.*?\b(?:PTY\s+LTD|...|LLC))\b.*$`, ignoring case; part 1 is group 1. */
  const SuffixClipParts: seq<seq<Tok>> := [
    [Bol(false)],
    [Rep(NotNewline, 0, None, true), WordBoundary, CorporateSuffix],
    [WordBoundary, AnyRun, Eol(false)]]

  /** `[\s,.;:]+$` */
  const TrailingJunk := CharSet({',', '.', ';', ':'}, true)

  /** The candidate after its first three steps: stripped, bullets and an inline label prefix removed. */
  function CandidateHead(value: string): string {
    Remove(CompanyLabelPrefix, LStripSet(Strip(value), Bullets), 1, true)
  }

  /** Cuts the candidate at the first noise token, if there is one. */
  function CutAtNoise(s: string): string {
    match Search(CompanyNoiseTokens, s, true)
    case None => s
    case Some(m) => Strip(s[..m.start])
  }

  /** Keeps the text up to and including the first corporate suffix, if there is one. */
  function ClipSuffix(s: string): string {
    match FirstSplit(SuffixClipParts, s, 0, true)
    case None => s
    case Some(b) => Strip(Piece(s, b, 1))
  }

  /** The value `clean_company_candidate` computes, step by step. */
  function CleanCompany(value: string): string {
    if value == [] then []
    else
      var s := CandidateHead(value);
      if MatchesAt(CompanySectionHeader, s, 0, true) then []
      else Strip(RStripSet(ClipSuffix(CutAtNoise(Remove(RegistryParens, s, 0, true))), TrailingJunk))
  }

  /**
   * utils.clean_company_candidate: cleans a manufacturer or supplier candidate
   * step by step. Empty input and section headers give ""; any other result is
   * stripped and never ends in ',', '.', ';' or ':'.
   */
  method CleanCompanyCandidate(value: string) returns (r: string)
    ensures r == CleanCompany(value)
    ensures value == [] ==> r == []
    ensures MatchesAt(CompanySectionHeader, CandidateHead(value), 0, true) ==> r == []
    ensures r == [] || (!IsSpace(r[0]) && !IsSpace(r[|r| - 1]) && !TrailingJunk.Has(r[|r| - 1]))
  {
    if value == [] {
      return [];
    }
    var s := Strip(value);
    s := LStripSet(s, Bullets);
    s := Remove(CompanyLabelPrefix, s, 1, true);
    if MatchesAt(CompanySectionHeader, s, 0, true) {
      return [];
    }
    s := Remove(RegistryParens, s, 0, true);
    s := CutAtNoise(s);
    s := ClipSuffix(s);
    s := RStripSet(s, TrailingJunk);
    StripKeepsLast(s);
    r := Strip(s);
  }

  /** A cleaned company name is empty or stripped, and never ends in ',', '.', ';' or ':'. */
  lemma CleanCompanyTrimmed(value: string)
    ensures var r := CleanCompany(value);
      r == [] || (!IsSpace(r[0]) && !IsSpace(r[|r| - 1]) && !TrailingJunk.Has(r[|r| - 1]))
  {
    if value != [] && !MatchesAt(CompanySectionHeader, CandidateHead(value), 0, true) {
      StripKeepsLast(RStripSet(ClipSuffix(CutAtNoise(Remove(RegistryParens, CandidateHead(value), 0, true))), TrailingJunk));
    }
  }

  /** Stripping text that ends in a non-space character keeps that last character. */
  lemma StripKeepsLast(t: string)
    requires t == [] || !IsSpace(t[|t| - 1])
    ensures var u := Strip(t); u == [] || (!IsSpace(u[0]) && !IsSpace(u[|u| - 1]) && (t != [] && u[|u| - 1] == t[|t| - 1]))
  {
    StripEnds(t);
    var l := LStrip(t);
    LStripSuffix(t);
    if t != [] {
      assert l != [] by {
        if l == [] {
          LStripAllSpace(t);
        }
      }
      assert l[|l| - 1] == t[|t| - 1];
    }
  }

  /** If left-stripping leaves nothing, every character was whitespace. */
  lemma {:induction false} LStripAllSpace(t: string)
    requires LStrip(t) == []
    ensures forall k :: 0 <= k < |t| ==> IsSpace(t[k])
  {
    if t != [] {
      LStripAllSpace(t[1..]);
      forall k | 0 <= k < |t| ensures IsSpace(t[k]) {
        if k > 0 {
          assert t[k] == t[1..][k - 1];
        }
      }
    }
  }

  // ---- validate_dangerous_goods_class ----

  /** The "not applicable" phrases, each matched against the whole value, ignoring case. */
  const NotApplicablePhrases: seq<seq<Tok>> := [
    [Lit("no"), Maybe(Chars("t")), Ws1, Lit("regulated")],
    [Lit("no"), Maybe(Chars("t")), Ws1, Lit("applicable")],
    [Lit("no"), Maybe(Chars("t")), Ws1, Lit("required")],
    [Lit("no"), Maybe(Chars("t")), Ws1, Lit("subject")],
    [Lit("none")],
    [Lit("n"), Maybe(Chars("/")), Lit("a")],
    Phrase(["not", "a", "dangerous", "good"])]

  /**
   * utils.validate_dangerous_goods_class: a class number 1-9 with an optional
   * single-digit division, or a whole "not applicable" phrase.
   */
  predicate ValidateDangerousGoodsClass(value: string) {
    value != [] &&
    var v := Strip(value);
    MatchesAt(ValidDgClasses, v, 0, false) || AnyFullMatch(NotApplicablePhrases, v, true)
  }

  /** Each "not applicable" phrase starts with the letter n. */
  lemma NotApplicableStartsWithN(s: string)
    requires AnyFullMatch(NotApplicablePhrases, s, true)
    ensures s != [] && ToLower(s[0]) == 'n'
  {
    AnyFullMatchHead(NotApplicablePhrases, 'n', s, true);
  }

  /** A value is accepted exactly when, stripped, it is a class number or a whole "not applicable" phrase. */
  lemma ValidatedMeaning(value: string)
    ensures ValidateDangerousGoodsClass(value) <==>
      value != [] && (DgClassShape(Strip(value)) || AnyFullMatch(NotApplicablePhrases, Strip(value), true))
  {
    DgClassPattern(Strip(value));
  }

  /** An accepted value that starts with a digit is a class number `d` or `d.d`, digits 1-9. */
  lemma ValidatedDigitIsClass(value: string)
    requires ValidateDangerousGoodsClass(value)
    requires Strip(value) != [] && IsDigit(Strip(value)[0])
    ensures DgClassShape(Strip(value))
  {
    var v := Strip(value);
    ValidatedMeaning(value);
    if !DgClassShape(v) {
      NotApplicableStartsWithN(v);
    }
  }

  /** A four-digit UN number is not a dangerous-goods class. */
  lemma UnNumberRejected(value: string)
    requires |Strip(value)| == 4 && forall k :: 0 <= k < 4 ==> IsDigit(Strip(value)[k])
    ensures !ValidateDangerousGoodsClass(value)
  {
    if ValidateDangerousGoodsClass(value) {
      ValidatedDigitIsClass(value);
    }
  }

  /** A sub-section number such as "14.5", like any value that opens with two digits, is rejected. */
  lemma SubsectionRejected(value: string)
    requires |Strip(value)| >= 2 && IsDigit(Strip(value)[0]) && IsDigit(Strip(value)[1])
    ensures !ValidateDangerousGoodsClass(value)
  {
    if ValidateDangerousGoodsClass(value) {
      ValidatedDigitIsClass(value);
    }
  }

  /** "14.5" itself is rejected. */
  lemma SubsectionExample()
    ensures !ValidateDangerousGoodsClass("14.5")
  {
    StripUnpadded("14.5");
    SubsectionRejected("14.5");
  }

  /** The "not applicable" phrase, token by token. */
  lemma NotApplicableTokens()
    ensures NotApplicablePhrases[1] == [Lit("no")] + ([Maybe(Chars("t"))] + ([Ws1] + [Lit("applicable")]))
  {
  }

  /** The "n/a" phrase, token by token. */
  lemma SlashedNaTokens()
    ensures NotApplicablePhrases[5] == [Lit("n")] + ([Maybe(Chars("/"))] + [Lit("a")])
  {
  }

  /** "not", one whitespace character, then "applicable", in any case and nothing more, is accepted. */
  lemma NotApplicableAccepted(value: string)
    requires var v := Strip(value);
      |v| == 14 && LitAt(v, 0, "no", true) && SameChar(v[2], 't', true) && IsSpace(v[3]) && LitAt(v, 4, "applicable", true)
    ensures ValidateDangerousGoodsClass(value)
  {
    var v := Strip(value);
    NotApplicableEnds(v);
    AnyFullMatchSome(NotApplicablePhrases, v, true);
  }

  /** The "not applicable" phrase runs over such a text to its end. */
  lemma NotApplicableEnds(v: string)
    requires |v| == 14 && LitAt(v, 0, "no", true) && SameChar(v[2], 't', true) && IsSpace(v[3]) && LitAt(v, 4, "applicable", true)
    ensures FullMatch(NotApplicablePhrases[1], v, true)
  {
    NotApplicableTokens();
    NoThenT(v);
    SpaceThenWord(v, 3, "applicable");
    SeqJoin([Ws1], [Lit("applicable")], v, 3, 4, true, 14);
    SeqJoin([Maybe(Chars("t"))], [Ws1] + [Lit("applicable")], v, 2, 3, true, 14);
    SeqJoin([Lit("no")], [Maybe(Chars("t"))] + ([Ws1] + [Lit("applicable")]), v, 0, 2, true, 14);
  }

  /** "no", then a 't' in either case, at the start of the text. */
  lemma NoThenT(v: string)
    requires 3 <= |v| && LitAt(v, 0, "no", true) && SameChar(v[2], 't', true)
    ensures 2 in Ends([Lit("no")], v, 0, true) && 3 in Ends([Maybe(Chars("t"))], v, 2, true)
  {
    EndsLit("no", v, 0, true);
    EndsMaybe(Chars("t"), v, 2, true);
    CharsHave("t", ToLower(v[2]));
  }

  /** A whitespace character at `i`, then the word `w`. */
  lemma SpaceThenWord(v: string, i: nat, w: string)
    requires i < |v| && IsSpace(v[i]) && LitAt(v, i + 1, w, true)
    ensures i + 1 in Ends([Ws1], v, i, true) && i + 1 + |w| in Ends([Lit(w)], v, i + 1, true)
  {
    EndsRep(Space, 1, None, false, v, i, true, i + 1);
    RunCovers(Space, v, i, None, true, 1);
    SpaceClass(v[i]);
    EndsLit(w, v, i + 1, true);
  }

  /** "n/a", in any case and nothing more, is accepted. */
  lemma SlashedNaAccepted(value: string)
    requires var v := Strip(value); |v| == 3 && SameChar(v[0], 'n', true) && v[1] == '/' && SameChar(v[2], 'a', true)
    ensures ValidateDangerousGoodsClass(value)
  {
    var v := Strip(value);
    SlashedNaTokens();
    EndsLit("n", v, 0, true);
    EndsMaybe(Chars("/"), v, 1, true);
    MarkClass('/', v[1]);
    EndsLit("a", v, 2, true);
    SeqJoin([Maybe(Chars("/"))], [Lit("a")], v, 1, 2, true, 3);
    SeqJoin([Lit("n")], [Maybe(Chars("/"))] + [Lit("a")], v, 0, 1, true, 3);
    AnyFullMatchSome(NotApplicablePhrases, v, true);
  }

  /** "N/A" is accepted. */
  lemma SlashedNaExample()
    ensures ValidateDangerousGoodsClass("N/A")
  {
    StripUnpadded("N/A");
    SlashedNaAccepted("N/A");
  }

  /** "not applicable" is accepted. */
  lemma NotApplicableExample()
    ensures ValidateDangerousGoodsClass("not applicable")
  {
    var v := "not applicable";
    StripUnpadded(v);
    NotApplicableHead(v);
    NotApplicableTail(v);
    NotApplicableAccepted(v);
  }

  /** "not applicable" opens with "no", then a 't' and a space. */
  lemma NotApplicableHead(v: string)
    requires v == "not applicable"
    ensures |v| == 14 && LitAt(v, 0, "no", true) && SameChar(v[2], 't', true) && IsSpace(v[3])
  {
    LitAtChars(v, 0, "no", true);
  }

  /** "not applicable" reads "applicable" from 4 on. */
  lemma NotApplicableTail(v: string)
    requires v == "not applicable"
    ensures LitAt(v, 4, "applicable", true)
  {
    LitAtChars(v, 4, "applicable", true);
  }

  /** Every class number 1-9 is accepted. */
  lemma ClassAccepted(v: string)
    requires |v| == 1 && IsClassDigit(v[0])
    ensures ValidateDangerousGoodsClass(v)
  {
    StripUnpadded(v);
    assert DgClassShape(v);
    ValidatedMeaning(v);
  }

  /** Every class with a division, both 1-9, is accepted. */
  lemma DivisionAccepted(v: string)
    requires |v| == 3 && IsClassDigit(v[0]) && v[1] == '.' && IsClassDigit(v[2])
    ensures ValidateDangerousGoodsClass(v)
  {
    StripUnpadded(v);
    assert DgClassShape(v);
    ValidatedMeaning(v);
  }

  // ---- get_section ----

  /** `^\s*(?:section\s*)?{number}\b[^\n]*` under IGNORECASE and MULTILINE: the header line of a section. */
  function SectionStartPattern(number: nat): seq<Tok> {
    [Bol(true), Ws0, Opt([Lit("section"), Ws0]), Lit(NatToString(number)), WordBoundary, AnyRun]
  }

  /** Where the header line of section `number` ends, if there is such a line. */
  function SectionBodyStart(text: string, number: nat): Option<nat> {
    match Search(SectionStartPattern(number), text, true)
    case None => None
    case Some(m) => Some(m.end)
  }

  /** The SECTION_PATTERN headers from `from` on, each as its group boundaries. */
  function SectionHeaders(text: string, from: nat): (r: seq<seq<nat>>)
    requires from <= |text|
    ensures forall k :: 0 <= k < |r| ==> |r[k]| == 4 && from <= r[k][0] && Ascending(r[k], |text|)
  {
    FindAllSplit(SectionParts, text, from, SectionIgnoreCase)
  }

  /** `int(m.group(1))` of a header. */
  function HeaderNumber(text: string, b: seq<nat>): nat
    requires |b| == 4 && Ascending(b, |text|)
  {
    ParseNat(Piece(text, b, 1))
  }

  /**
   * `e` is where a section ends among `headers`: at the start of the first header
   * whose number is greater than `number`, or at the end of the text if none is.
   */
  predicate IsSectionEnd(text: string, headers: seq<seq<nat>>, number: nat, e: nat)
    requires forall k :: 0 <= k < |headers| ==> |headers[k]| == 4 && Ascending(headers[k], |text|)
  {
    (e == |text| && forall k :: 0 <= k < |headers| ==> HeaderNumber(text, headers[k]) <= number)
    || exists k :: 0 <= k < |headers| && headers[k][0] == e && HeaderNumber(text, headers[k]) > number
                   && forall j :: 0 <= j < k ==> HeaderNumber(text, headers[j]) <= number
  }

  /**
   * utils.get_section: "" when the section has no header line; otherwise the text
   * from just after that line up to the first later header with a greater number,
   * or to the end of the text.
   */
  method GetSection(text: string, number: nat) returns (r: string)
    ensures SectionBodyStart(text, number).None? ==> r == []
    ensures SectionBodyStart(text, number).Some? ==>
      var start := SectionBodyStart(text, number).value;
      start <= |text| &&
      exists e :: start <= e <= |text| && r == text[start..e] && IsSectionEnd(text, SectionHeaders(text, start), number, e)
  {
    var found := Search(SectionStartPattern(number), text, true);
    if found.None? {
      return [];
    }
    var start := found.value.end;
    var end := |text|;
    var headers := SectionHeaders(text, start);
    var k := 0;
    while k < |headers|
      invariant 0 <= k <= |headers|
      invariant forall j :: 0 <= j < k ==> HeaderNumber(text, headers[j]) <= number
    {
      if HeaderNumber(text, headers[k]) > number {
        end := headers[k][0];
        break;
      }
      k := k + 1;
    }
    assert start <= end <= |text|;
    assert IsSectionEnd(text, headers, number, end);
    r := text[start..end];
  }

  /** A section found by get_section ends at the end of the text or where a line begins. */
  lemma SectionEndsAtLineStart(text: string, number: nat, e: nat)
    requires SectionBodyStart(text, number).Some?
    requires SectionBodyStart(text, number).value <= e <= |text|
    requires IsSectionEnd(text, SectionHeaders(text, SectionBodyStart(text, number).value), number, e)
    ensures e == |text| || e == 0 || text[e - 1] == '\n'
  {
    var start := SectionBodyStart(text, number).value;
    var headers := SectionHeaders(text, start);
    if e != |text| {
      var k :| 0 <= k < |headers| && headers[k][0] == e && HeaderNumber(text, headers[k]) > number
        && forall j :: 0 <= j < k ==> HeaderNumber(text, headers[j]) <= number;
      FindAllSplitLineStarts(SectionParts, text, start, SectionIgnoreCase);
      assert headers[k] in headers;
    }
  }

  // ---- _compress_consecutive_duplicates ----

  /**
   * `re.sub(r"(.)\1+", r"\1", token)`: each run of one repeated character becomes a
   * single character. Newlines are not compressed, since `.` does not match them.
   */
  function CompressRuns(s: string): (r: string)
    ensures |r| <= |s|
    ensures s != [] ==> r != [] && r[0] == s[0]
  {
    if |s| < 2 then s
    else if s[0] == s[1] && s[0] != '\n' then CompressRuns(s[1..])
    else [s[0]] + CompressRuns(s[1..])
  }

  /** No character other than a newline is immediately repeated. */
  predicate NoRepeats(s: string) {
    forall k :: 0 <= k < |s| - 1 ==> s[k] != s[k + 1] || s[k] == '\n'
  }

  /** After compression no character other than a newline is immediately repeated. */
  lemma {:induction false} CompressRunsNoRepeats(s: string)
    ensures NoRepeats(CompressRuns(s))
  {
    if |s| >= 2 {
      CompressRunsNoRepeats(s[1..]);
    }
  }

  /** Text without repeats is left alone. */
  lemma {:induction false} CompressRunsFixed(s: string)
    requires NoRepeats(s)
    ensures CompressRuns(s) == s
  {
    if |s| >= 2 {
      assert NoRepeats(s[1..]) by {
        forall k | 0 <= k < |s[1..]| - 1 ensures s[1..][k] != s[1..][k + 1] || s[1..][k] == '\n' {
          assert s[1..][k] == s[k + 1] && s[1..][k + 1] == s[k + 2];
        }
      }
      CompressRunsFixed(s[1..]);
    }
  }

  /** Compressing twice is compressing once. */
  lemma CompressRunsIdempotent(s: string)
    ensures CompressRuns(CompressRuns(s)) == CompressRuns(s)
  {
    CompressRunsNoRepeats(s);
    CompressRunsFixed(CompressRuns(s));
  }

  // ---- strip_doubled_label_prefix ----

  /** The label heads recognised, in the order they are tried. */
  const LabelHeads: seq<seq<string>> :=
    [["PRODUCT", "NAME"], ["PRODUCT", "IDENTIFIER"], ["TRADE", "NAME"], ["GHS", "PRODUCT", "IDENTIFIER"]]

  /** `" :\t-._"` */
  const LabelPunct := CharSet({' ', ':', '\t', '-', '.', '_'}, false)

  /** A word of the head, compressed, upper-cased and stripped of label punctuation. */
  function NormalizeHeadWord(p: string): string {
    StripSet(Upper(CompressRuns(p)), LabelPunct)
  }

  /** The first words of `parts`, normalised, are exactly `tokens`. */
  predicate HeadMatches(parts: seq<string>, tokens: seq<string>) {
    |parts| >= |tokens| && forall k :: 0 <= k < |tokens| ==> HeadWordIs(parts[k], tokens[k])
  }

  /** One word of the text, normalised, is the head token. */
  predicate HeadWordIs(part: string, token: string) {
    NormalizeHeadWord(part) == token
  }

  /** The words after a head of `n` words, joined by single spaces and stripped of label punctuation. */
  function Remainder(parts: seq<string>, n: nat): string
    requires n <= |parts|
  {
    Strip(LStripSet(Join(parts[n..], " "), LabelPunct))
  }

  /** Tries the label heads from the `i`-th on, in turn, against the words of `raw`. */
  function StripHead(raw: string, parts: seq<string>, i: nat): (r: string)
    requires raw != [] && i <= |LabelHeads|
    ensures r != []
    ensures r == raw || exists k :: i <= k < |LabelHeads| && HeadMatches(parts, LabelHeads[k]) && r == Remainder(parts, |LabelHeads[k]|)
    decreases |LabelHeads| - i
  {
    if i == |LabelHeads| then raw
    else if HeadMatches(parts, LabelHeads[i]) && Remainder(parts, |LabelHeads[i]|) != [] then Remainder(parts, |LabelHeads[i]|)
    else if HeadMatches(parts, LabelHeads[i]) then raw
    else StripHead(raw, parts, i + 1)
  }

  /**
   * utils.strip_doubled_label_prefix: what follows a recognised label head, even
   * when the head is printed with doubled letters; otherwise the stripped text.
   */
  function StripDoubledLabelPrefix(text: string): (r: string)
    ensures Strip(text) == [] ==> r == []
    ensures Strip(text) != [] ==> r != []
    ensures r == Strip(text)
      || exists k :: 0 <= k < |LabelHeads| && HeadMatches(SplitWords(Strip(text)), LabelHeads[k])
           && r == Remainder(SplitWords(Strip(text)), |LabelHeads[k]|)
  {
    var raw := Strip(text);
    if raw == [] then raw else StripHead(raw, SplitWords(raw), 0)
  }

  lemma {:induction false} FourWordsSplit(a: string, b: string, c: string, d: string)
    requires a != [] && Unspaced(a) && b != [] && Unspaced(b) && c != [] && Unspaced(c) && d != [] && Unspaced(d)
    ensures SplitWords(a + ([' '] + (b + ([' '] + (c + ([' '] + d)))))) == [a, b, c, d]
  {
    var cd := c + ([' '] + d);
    var bcd := b + ([' '] + cd);
    SplitFirst(c, [' '] + d);
    SplitSkipsSpace(' ', d);
    SingleWord(d);
    SplitFirst(b, [' '] + cd);
    SplitSkipsSpace(' ', cd);
    SplitFirst(a, [' '] + bcd);
    SplitSkipsSpace(' ', bcd);
  }

  /** Each character of `w` written twice, as a corrupted label prints it. */
  function Stuttered(w: string): (r: string)
    ensures |r| == 2 * |w|
  {
    if w == [] then [] else [w[0], w[0]] + Stuttered(w[1..])
  }

  /** Compressing a stuttered word without repeats or newlines gives the word back. */
  lemma {:induction false} CompressStuttered(w: string)
    requires NoRepeats(w) && '\n' !in w
    ensures CompressRuns(Stuttered(w)) == w
  {
    if w != [] {
      var x := w[0];
      var r := Stuttered(w[1..]);
      assert Stuttered(w) == [x, x] + r;
      assert ([x, x] + r)[1..] == [x] + r;
      if r == [] {
        assert w[1..] == [];
      } else {
        assert NoRepeats(w[1..]) by {
          forall k | 0 <= k < |w[1..]| - 1 ensures w[1..][k] != w[1..][k + 1] || w[1..][k] == '\n' {
            assert w[1..][k] == w[k + 1] && w[1..][k + 1] == w[k + 2];
          }
        }
        CompressStuttered(w[1..]);
        assert r[0] == w[1];
        assert ([x] + r)[1..] == r;
        assert w == [x] + w[1..];
      }
    }
  }

  /** A word without lower-case letters is its own upper case. */
  lemma UpperFixed(w: string)
    requires forall k :: 0 <= k < |w| ==> !IsLower(w[k])
    ensures Upper(w) == w
  {
  }

  /** A word that neither starts nor ends with label punctuation is not changed by stripping it. */
  lemma StripSetFixed(w: string, cs: CharSet)
    requires w != [] && !cs.Has(w[0]) && !cs.Has(w[|w| - 1])
    ensures StripSet(w, cs) == w
  {
  }

  /** A stuttered word keeps its characters, so a word without whitespace stays without it. */
  lemma {:induction false} StutteredUnspaced(w: string)
    requires Unspaced(w)
    ensures Unspaced(Stuttered(w))
  {
    if w != [] {
      StutteredUnspaced(w[1..]);
      var r := Stuttered(w[1..]);
      assert Stuttered(w) == [w[0], w[0]] + r;
      forall k | 0 <= k < |Stuttered(w)| ensures !IsSpace(Stuttered(w)[k]) {
        if k >= 2 { assert Stuttered(w)[k] == r[k - 2]; }
      }
    }
  }

  /** The stuttered form of an upper-case head word normalises back to the word. */
  lemma NormalizeStuttered(w: string)
    requires w != [] && NoRepeats(w) && '\n' !in w && forall k :: 0 <= k < |w| ==> !IsLower(w[k])
    requires !LabelPunct.Has(w[0]) && !LabelPunct.Has(w[|w| - 1])
    ensures NormalizeHeadWord(Stuttered(w)) == w
  {
    CompressStuttered(w);
    UpperFixed(w);
    StripSetFixed(w, LabelPunct);
  }

  /** Two words joined by one space, with nothing to strip, are their own remainder. */
  lemma {:induction false} TwoWordRemainder(c: string, d: string)
    requires c != [] && d != [] && !IsSpace(c[0]) && !LabelPunct.Has(c[0]) && !IsSpace(d[|d| - 1])
    ensures Remainder([c, d], 0) == c + ([' '] + d)
  {
    var cd := c + ([' '] + d);
    assert [c, d][0..] == [c, d];
    assert [c, d][1..] == [d];
    assert Join([c, d], " ") == cd;
    assert LStripSet(cd, LabelPunct) == cd;
    assert LStrip(cd) == cd;
    assert RStrip(cd) == cd;
  }

  /** Words joined by single spaces, none of them blank, have nothing to strip. */
  lemma {:induction false} FourWordsStripped(a: string, b: string, c: string, d: string)
    requires a != [] && Unspaced(a) && d != [] && Unspaced(d)
    ensures Strip(a + ([' '] + (b + ([' '] + (c + ([' '] + d)))))) == a + ([' '] + (b + ([' '] + (c + ([' '] + d)))))
  {
    var text := a + ([' '] + (b + ([' '] + (c + ([' '] + d)))));
    assert text[0] == a[0] && text[|text| - 1] == d[|d| - 1];
    assert LStrip(text) == text;
  }

  /** When the words of the stripped text open with the first head and leave something, that remainder is the result. */
  lemma FirstHeadWins(text: string, parts: seq<string>)
    requires text != [] && Strip(text) == text && SplitWords(text) == parts
    requires HeadMatches(parts, LabelHeads[0]) && Remainder(parts, 2) != []
    ensures StripDoubledLabelPrefix(text) == Remainder(parts, 2)
  {
    assert |LabelHeads[0]| == 2;
  }

  /** Stripped text of four words whose first two normalise to the first label head: the last two are kept. */
  lemma FourWordHead(text: string, a: string, b: string, c: string, d: string, h0: string, h1: string)
    requires text != [] && Strip(text) == text && SplitWords(text) == [a, b, c, d]
    requires [h0, h1] == LabelHeads[0] && HeadWordIs(a, h0) && HeadWordIs(b, h1)
    requires c != [] && Unspaced(c) && !LabelPunct.Has(c[0])
    requires d != [] && Unspaced(d)
    ensures StripDoubledLabelPrefix(text) == c + ([' '] + d)
  {
    var parts, head := [a, b, c, d], LabelHeads[0];
    assert parts[0] == a && parts[1] == b;
    TwoHeadWords(parts, head);
    FourWordsRemainder(a, b, c, d);
    FirstHeadWins(text, parts);
  }

  /**
   * Four words whose first two normalise to the first label head ("PRODUCT NAME", also when
   * printed "PPRROODDUUCCTT NNAAMMEE", see DoubledProduct and DoubledName): the last two are kept.
   */
  lemma {:induction false} StripTwoWordHead(a: string, b: string, c: string, d: string, h0: string, h1: string)
    requires a != [] && Unspaced(a) && b != [] && Unspaced(b)
    requires [h0, h1] == LabelHeads[0] && HeadWordIs(a, h0) && HeadWordIs(b, h1)
    requires c != [] && Unspaced(c) && !LabelPunct.Has(c[0])
    requires d != [] && Unspaced(d)
    ensures StripDoubledLabelPrefix(a + ([' '] + (b + ([' '] + (c + ([' '] + d)))))) == c + ([' '] + d)
  {
    var text := a + ([' '] + (b + ([' '] + (c + ([' '] + d)))));
    FourWordsStripped(a, b, c, d);
    FourWordsSplit(a, b, c, d);
    FourWordHead(text, a, b, c, d, h0, h1);
  }

  /** Two words normalising to a two-word head match it. */
  lemma TwoHeadWords(parts: seq<string>, tokens: seq<string>)
    requires |parts| >= 2 && |tokens| == 2
    requires HeadWordIs(parts[0], tokens[0]) && HeadWordIs(parts[1], tokens[1])
    ensures HeadMatches(parts, tokens)
  {
    forall k | 0 <= k < |tokens| ensures HeadWordIs(parts[k], tokens[k]) {
      assert k == 0 || k == 1;
    }
  }

  /** After a two-word head, the last two of four words are what remains. */
  lemma FourWordsRemainder(a: string, b: string, c: string, d: string)
    requires c != [] && Unspaced(c) && !LabelPunct.Has(c[0])
    requires d != [] && Unspaced(d)
    ensures Remainder([a, b, c, d], 2) == c + ([' '] + d)
  {
    TwoWordRemainder(c, d);
    assert [a, b, c, d][2..] == [c, d][0..];
  }

  /** "PRODUCT" printed with doubled letters normalises back to the word. */
  lemma DoubledProduct(w: string)
    requires w == "PRODUCT"
    ensures NormalizeHeadWord(Stuttered(w)) == w
  {
    NormalizeStuttered(w);
  }

  /** "NAME" printed with doubled letters normalises back to the word. */
  lemma DoubledName(w: string)
    requires w == "NAME"
    ensures NormalizeHeadWord(Stuttered(w)) == w
  {
    NormalizeStuttered(w);
  }

  // ---- looks_like_numeric_code ----

  /**
   * utils.looks_like_numeric_code: the stripped value has at least six characters,
   * no ASCII letter (`re.search(r"[A-Za-z]")`) and some digit (`re.search(r"\d")`).
   */
  predicate LooksLikeNumericCode(value: string) {
    var s := Strip(value);
    value != [] && |s| >= 6 && !Found([One(AsciiLetter)], s, false) && Found([One(Digit)], s, false)
  }

  /** The heuristic, stated on the characters of the stripped value. */
  lemma NumericCodeMeaning(value: string)
    ensures LooksLikeNumericCode(value) <==>
      (|Strip(value)| >= 6 && (forall k :: 0 <= k < |Strip(value)| ==> !IsLetter(Strip(value)[k]))
       && exists k :: 0 <= k < |Strip(value)| && IsDigit(Strip(value)[k]))
  {
    var s := Strip(value);
    FoundOne(AsciiLetter, s, false);
    FoundOne(Digit, s, false);
    forall k | 0 <= k < |s|
      ensures InClass(AsciiLetter, s[k], false) == IsLetter(s[k]) && InClass(Digit, s[k], false) == IsDigit(s[k])
    {
      AsciiLetterClass(s[k]);
      DigitClass(s[k]);
    }
    assert |s| <= |LStrip(value)| <= |value|;
  }

  /** A long run of digits is a numeric code. */
  lemma NumericCodeExample()
    ensures LooksLikeNumericCode("0000003477")
  {
    var a := "0000003477";
    assert LStrip(a) == a && RStrip(a) == a;
    assert forall k | 0 <= k < |a| :: IsDigit(a[k]);
    NumericCodeMeaning(a);
  }

  /** A product name with a number in it is not. */
  lemma NumericCodeCounterExample()
    ensures !LooksLikeNumericCode("Whiteboard cleaner 500")
  {
    var w := "Whiteboard cleaner 500";
    assert LStrip(w) == w && RStrip(w) == w;
    assert IsLetter(w[0]);
    NumericCodeMeaning(w);
  }

  // ---- compress_duplicates_with_map ----

  /** State of the scan: the output so far, its index map, and the previous letter (lower-cased). */
  datatype MapScan = MapScan(out: string, indexMap: seq<nat>, prev: Option<char>)

  /** A letter equal, ignoring case, to the previous letter is dropped. */
  predicate Drops(st: MapScan, ch: char) {
    IsLetter(ch) && st.prev == Some(ToLower(ch))
  }

  /** The previous letter after keeping `ch`: a letter replaces it, whitespace keeps it, anything else clears it. */
  function NextPrev(prev: Option<char>, ch: char): Option<char> {
    if IsLetter(ch) then Some(ToLower(ch)) else if IsSpace(ch) then prev else None
  }

  predicate EndsInLetter(out: string) {
    out != [] && IsLetter(out[|out| - 1])
  }

  /**
   * One step of the scan at index `idx` holding `ch`. A dropped letter moves the
   * last map entry to `idx`; with `corrected`, only when the last output character
   * is a letter (and so the letter it repeats).
   */
  function ScanStep(st: MapScan, idx: nat, ch: char, corrected: bool): MapScan {
    if !Drops(st, ch) then MapScan(st.out + [ch], st.indexMap + [idx], NextPrev(st.prev, ch))
    else if st.indexMap != [] && (!corrected || EndsInLetter(st.out)) then
      st.(indexMap := st.indexMap[..|st.indexMap| - 1] + [idx])
    else st
  }

  /** The scan over the first `n` characters of `s`. */
  function ScanPrefix(s: string, n: nat, corrected: bool): MapScan
    requires n <= |s|
  {
    if n == 0 then MapScan([], [], None) else ScanStep(ScanPrefix(s, n - 1, corrected), n - 1, s[n - 1], corrected)
  }

  /** The index each output character was first taken from. */
  ghost function Origins(s: string, n: nat, corrected: bool): seq<nat>
    requires n <= |s|
  {
    if n == 0 then []
    else if Drops(ScanPrefix(s, n - 1, corrected), s[n - 1]) then Origins(s, n - 1, corrected)
    else Origins(s, n - 1, corrected) + [n - 1]
  }

  /** The characters of `s` that are not letters, in order. */
  function NonLetters(s: string): string {
    if s == [] then []
    else NonLetters(s[..|s| - 1]) + (if IsLetter(s[|s| - 1]) then [] else [s[|s| - 1]])
  }

  /** `out` is a subsequence of `s`. */
  ghost predicate SubsequenceOf(out: string, s: string) {
    exists pick: seq<nat> ::
      |pick| == |out|
      && (forall k :: 0 <= k < |pick| ==> pick[k] < |s| && s[pick[k]] == out[k])
      && (forall j, k :: 0 <= j < k < |pick| ==> pick[j] < pick[k])
  }

  /** The index map has one strictly increasing, valid index per output character. */
  predicate ValidIndexMap(out: string, indexMap: seq<nat>, n: nat) {
    |indexMap| == |out|
    && (forall k :: 0 <= k < |indexMap| ==> indexMap[k] < n)
    && (forall j, k :: 0 <= j < k < |indexMap| ==> indexMap[j] < indexMap[k])
  }

  /** Each map entry points at a character equal, ignoring case, to its output character. */
  predicate Aligned(s: string, out: string, indexMap: seq<nat>) {
    |indexMap| == |out| && forall k :: 0 <= k < |out| ==> indexMap[k] < |s| && ToLower(s[indexMap[k]]) == ToLower(out[k])
  }

  /**
   * `o` records where each output character came from: `o[k] <= map[k] < o[k+1]`,
   * every index below `n`, and `s` holds the output character at `o[k]`.
   */
  predicate Tracks(s: string, n: nat, out: string, indexMap: seq<nat>, o: seq<nat>) {
    |out| == |indexMap| == |o|
    && forall k :: 0 <= k < |o| ==>
         o[k] <= indexMap[k] < n && o[k] < |s| && s[o[k]] == out[k] && (k + 1 < |o| ==> indexMap[k] < o[k + 1])
  }

  /** What holds of the scan after `n` characters, with or without the correction. */
  ghost predicate ScanFacts(s: string, n: nat, corrected: bool)
    requires n <= |s|
  {
    var st := ScanPrefix(s, n, corrected);
    Tracks(s, n, st.out, st.indexMap, Origins(s, n, corrected)) && NonLetters(st.out) == NonLetters(s[..n])
  }

  /** What the correction adds: an aligned map, and a last output letter that is the previous letter. */
  predicate ScanAligned(s: string, n: nat)
    requires n <= |s|
  {
    var st := ScanPrefix(s, n, true);
    Aligned(s, st.out, st.indexMap) && (EndsInLetter(st.out) ==> st.prev == Some(ToLower(st.out[|st.out| - 1])))
  }

  /** Appending a character extends the non-letters by it, if it is not a letter. */
  lemma NonLettersSnoc(a: string, c: char)
    ensures NonLetters(a + [c]) == NonLetters(a) + (if IsLetter(c) then [] else [c])
  {
    assert (a + [c])[..|a|] == a;
  }

  /** Keeping `s[n]` extends the tracking by one entry. */
  lemma TracksAppend(s: string, n: nat, out: string, indexMap: seq<nat>, o: seq<nat>)
    requires n < |s| && Tracks(s, n, out, indexMap, o)
    ensures Tracks(s, n + 1, out + [s[n]], indexMap + [n], o + [n])
  {
  }

  /** Moving the last map entry to `n` keeps the tracking. */
  lemma TracksMoveLast(s: string, n: nat, out: string, indexMap: seq<nat>, o: seq<nat>)
    requires n < |s| && Tracks(s, n, out, indexMap, o) && indexMap != []
    ensures Tracks(s, n + 1, out, indexMap[..|indexMap| - 1] + [n], o)
  {
  }

  /** A kept character is appended to the output and its index to the map. */
  lemma {:induction false} KeepStep(s: string, n: nat, corrected: bool)
    requires n < |s| && ScanFacts(s, n, corrected)
    requires !Drops(ScanPrefix(s, n, corrected), s[n])
    ensures ScanFacts(s, n + 1, corrected)
  {
    var st := ScanPrefix(s, n, corrected);
    var o := Origins(s, n, corrected);
    assert ScanPrefix(s, n + 1, corrected) == MapScan(st.out + [s[n]], st.indexMap + [n], NextPrev(st.prev, s[n]));
    assert Origins(s, n + 1, corrected) == o + [n];
    TracksAppend(s, n, st.out, st.indexMap, o);
    assert s[..n + 1] == s[..n] + [s[n]];
    NonLettersSnoc(st.out, s[n]);
    NonLettersSnoc(s[..n], s[n]);
  }

  /** A dropped letter leaves the output alone and at most moves the last map entry forward. */
  lemma {:induction false} DropStep(s: string, n: nat, corrected: bool)
    requires n < |s| && ScanFacts(s, n, corrected)
    requires Drops(ScanPrefix(s, n, corrected), s[n])
    ensures ScanFacts(s, n + 1, corrected)
  {
    var st := ScanPrefix(s, n, corrected);
    var o := Origins(s, n, corrected);
    assert Origins(s, n + 1, corrected) == o;
    if st.indexMap != [] && (!corrected || EndsInLetter(st.out)) {
      assert ScanPrefix(s, n + 1, corrected) == st.(indexMap := st.indexMap[..|st.indexMap| - 1] + [n]);
      TracksMoveLast(s, n, st.out, st.indexMap, o);
    } else {
      assert ScanPrefix(s, n + 1, corrected) == st;
      assert Tracks(s, n + 1, st.out, st.indexMap, o);
    }
    PrefixLetter(s, n);
  }

  /** A letter adds nothing to the non-letters of a prefix. */
  lemma PrefixLetter(s: string, n: nat)
    requires n < |s| && IsLetter(s[n])
    ensures NonLetters(s[..n + 1]) == NonLetters(s[..n])
  {
    assert s[..n + 1] == s[..n] + [s[n]];
    NonLettersSnoc(s[..n], s[n]);
  }

  /** The corrected step keeps the map aligned. */
  lemma {:induction false} AlignedStep(s: string, n: nat)
    requires n < |s| && ScanAligned(s, n)
    ensures ScanAligned(s, n + 1)
  {
    var st := ScanPrefix(s, n, true);
    if !Drops(st, s[n]) {
      assert ScanPrefix(s, n + 1, true) == MapScan(st.out + [s[n]], st.indexMap + [n], NextPrev(st.prev, s[n]));
    }
  }

  lemma {:induction false} ScanFactsHold(s: string, n: nat, corrected: bool)
    requires n <= |s|
    ensures ScanFacts(s, n, corrected)
  {
    if n > 0 {
      var m := n - 1;
      ScanFactsHold(s, m, corrected);
      FactsStep(s, m, corrected);
      assert m + 1 == n;
    }
  }

  /** Each step of the scan keeps its facts. */
  lemma FactsStep(s: string, n: nat, corrected: bool)
    requires n < |s| && ScanFacts(s, n, corrected)
    ensures ScanFacts(s, n + 1, corrected)
  {
    if Drops(ScanPrefix(s, n, corrected), s[n]) {
      DropStep(s, n, corrected);
    } else {
      KeepStep(s, n, corrected);
    }
  }

  lemma {:induction false} ScanAlignedHold(s: string, n: nat)
    requires n <= |s|
    ensures ScanAligned(s, n)
  {
    if n > 0 {
      ScanAlignedHold(s, n - 1);
      AlignedStep(s, n - 1);
    }
  }

  /** The origins witness that the output is a subsequence of the input. */
  lemma OriginsPick(s: string, out: string, o: seq<nat>)
    requires |o| == |out|
    requires forall k :: 0 <= k < |o| ==> o[k] < |s| && s[o[k]] == out[k]
    requires forall j, k :: 0 <= j < k < |o| ==> o[j] < o[k]
    ensures SubsequenceOf(out, s)
  {
  }

  /**
   * The guarantees of a completed scan: a valid, strictly increasing index map,
   * an output that is a subsequence of the input, and every non-letter kept;
   * with the correction, also an aligned map.
   */
  lemma ScanGuarantees(s: string, corrected: bool, out: string, indexMap: seq<nat>)
    requires out == ScanPrefix(s, |s|, corrected).out && indexMap == ScanPrefix(s, |s|, corrected).indexMap
    ensures ValidIndexMap(out, indexMap, |s|) && SubsequenceOf(out, s) && NonLetters(out) == NonLetters(s)
    ensures corrected ==> Aligned(s, out, indexMap)
  {
    ScanFactsHold(s, |s|, corrected);
    if corrected {
      ScanAlignedHold(s, |s|);
    }
    var o := Origins(s, |s|, corrected);
    ChainIncreasing(o, indexMap);
    assert s[..|s|] == s;
    OriginsPick(s, out, o);
  }

  /**
   * utils.compress_duplicates_with_map as written: drops repeated letters (ignoring
   * case, also across whitespace) and keeps every other character, recording for
   * each output character an index into the input.
   */
  method CompressDuplicatesWithMap(s: string) returns (out: string, indexMap: seq<nat>)
    ensures out == ScanPrefix(s, |s|, false).out && indexMap == ScanPrefix(s, |s|, false).indexMap
    ensures ValidIndexMap(out, indexMap, |s|) && SubsequenceOf(out, s)
    ensures NonLetters(out) == NonLetters(s)
  {
    out := [];
    indexMap := [];
    var prev: Option<char> := None;
    for idx := 0 to |s|
      invariant MapScan(out, indexMap, prev) == ScanPrefix(s, idx, false)
    {
      var ch := s[idx];
      if IsLetter(ch) {
        var low := ToLower(ch);
        if prev == Some(low) {
          if indexMap != [] {
            indexMap := indexMap[..|indexMap| - 1] + [idx];
          }
          continue;
        }
        prev := Some(low);
      } else {
        prev := if IsSpace(ch) then prev else None;
      }
      out := out + [ch];
      indexMap := indexMap + [idx];
    }
    ScanGuarantees(s, false, out, indexMap);
  }

  /**
   * The corrected compress_duplicates_with_map: as written, except that a dropped
   * letter moves the last map entry only when the last output character is a
   * letter. Besides the guarantees of the original, each map entry then points at
   * a character equal, ignoring case, to the output character it produced.
   */
  method CompressDuplicatesWithMapCorrected(s: string) returns (out: string, indexMap: seq<nat>)
    ensures out == ScanPrefix(s, |s|, true).out && indexMap == ScanPrefix(s, |s|, true).indexMap
    ensures ValidIndexMap(out, indexMap, |s|) && SubsequenceOf(out, s)
    ensures NonLetters(out) == NonLetters(s)
    ensures Aligned(s, out, indexMap)
  {
    out := [];
    indexMap := [];
    var prev: Option<char> := None;
    for idx := 0 to |s|
      invariant MapScan(out, indexMap, prev) == ScanPrefix(s, idx, true)
    {
      var ch := s[idx];
      if IsLetter(ch) {
        var low := ToLower(ch);
        if prev == Some(low) {
          if indexMap != [] && out != [] && IsLetter(out[|out| - 1]) {
            indexMap := indexMap[..|indexMap| - 1] + [idx];
          }
          continue;
        }
        prev := Some(low);
      } else {
        prev := if IsSpace(ch) then prev else None;
      }
      out := out + [ch];
      indexMap := indexMap + [idx];
    }
    ScanGuarantees(s, true, out, indexMap);
  }

  /** Interleaved bounds `pick[k] <= map[k] < pick[k+1]` make both sequences strictly increasing. */
  lemma ChainIncreasing(pick: seq<nat>, indexMap: seq<nat>)
    requires |pick| == |indexMap|
    requires forall k :: 0 <= k < |pick| ==> pick[k] <= indexMap[k]
    requires forall k :: 0 <= k < |pick| - 1 ==> indexMap[k] < pick[k + 1]
    ensures forall j, k :: 0 <= j < k < |pick| ==> pick[j] < pick[k] && indexMap[j] < indexMap[k]
  {
    forall j, k | 0 <= j < k < |pick|
      ensures pick[j] < pick[k] && indexMap[j] < indexMap[k]
    {
      ChainStep(pick, indexMap, j, k);
    }
  }

  lemma {:induction false} ChainStep(pick: seq<nat>, indexMap: seq<nat>, j: nat, k: nat)
    requires |pick| == |indexMap| && j < k < |pick|
    requires forall i :: 0 <= i < |pick| ==> pick[i] <= indexMap[i]
    requires forall i :: 0 <= i < |pick| - 1 ==> indexMap[i] < pick[i + 1]
    ensures pick[j] < pick[k] && indexMap[j] < indexMap[k]
    decreases k - j
  {
    if k > j + 1 {
      ChainStep(pick, indexMap, j + 1, k);
    }
  }

  /**
   * As written, the map goes wrong when a letter repeats across whitespace: in
   * "a a" the second 'a' is dropped and the map entry of the space is moved onto
   * it, so the space in the output claims to come from an 'a'. The corrected scan
   * leaves that entry on the space.
   */
  lemma MapMisalignedAcrossSpace()
    ensures ScanPrefix("a a", 3, false) == MapScan("a ", [0, 2], Some('a'))
    ensures !Aligned("a a", "a ", [0, 2])
    ensures ScanPrefix("a a", 3, true) == MapScan("a ", [0, 1], Some('a'))
  {
    assert ToLower("a a"[2]) != ToLower("a "[1]);
  }
}
