/**
 * Configuration of the SDS parser (modules/config.py): the section-header and
 * date patterns, the per-field label lists in priority order, the noise labels,
 * the dangerous-goods and packing-group validators and the OCR threshold.
 * Each compiled pattern is kept as token data together with its flags.
 */
module Config {
  import opened Wrappers
  import opened Text
  import opened Pattern
  import opened PatternLaws

  // ---- character classes used below ----

  const NonZeroDigit := Cls([Range('1', '9')], false)  // [1-9]
  const AsciiLetter := Cls([Range('A', 'Z'), Range('a', 'z')], false)  // [A-Za-z]
  const UpperLetter := Cls([Range('A', 'Z')], false)  // [A-Z]

  /** `\d{lo,hi}` */
  function DigitsBetween(lo: nat, hi: nat): Tok { Rep(Digit, lo, Some(hi), false) }

  // ---- SECTION_PATTERN (IGNORECASE | MULTILINE) ----

  /** `^\s*(?:section\s*)?` */
  const SectionLead: seq<Tok> := [Bol(true), Ws0, Opt([Lit("section"), Ws0])]
  /** Group 1: `\d{1,2}` */
  const SectionNumber: seq<Tok> := [DigitsBetween(1, 2)]
  /** `(?:\s|:|\.)(?=\s)` */
  const SectionTail: seq<Tok> := [AnyOf([[One(Space)], [Lit(":")], [Lit(".")]]), Look([One(Space)], true)]
  /** A numbered section header at the start of a line: a number of one or two digits,
      optionally after "section", then a space, ':' or '.', then whitespace. */
  const SectionPattern: seq<Tok> := SectionLead + SectionNumber + SectionTail
  const SectionParts: seq<seq<Tok>> := [SectionLead, SectionNumber, SectionTail]
  const SectionIgnoreCase := true

  // ---- DATE_PATTERN (IGNORECASE) ----

  /** Group 1: a date label and up to 40 further characters of its line. */
  const DateLabel: seq<Tok> := [WordBoundary, AnyOf(DateLabelAlts), Rep(NotNewline, 0, Some(40), false)]
  /** The date labels themselves. */
  const DateLabelAlts: seq<seq<Tok>> := [
    [Lit("Revision"), Opt([Lit(" Date")])], [Lit("Issue Date")], [Lit("Date of issue")],
    [Lit("Version date")], [Lit("SDS creation date")], [Lit("Date Prepared")], [Lit("Issued")]]
  /** Separator: optional ':' and whitespace, possibly across a "Page ..." line. */
  const DateGap: seq<Tok> := [
    Ws0, Maybe(Chars(":")), Ws0,
    Opt([Lit("\nPage"), Rep(NotNewline, 0, None, false), Lit("\n")]),
    Ws0]
  /** Group 2: d/m/y with '/' or '-', "Month d, yyyy", or yyyy-mm-dd. */
  const DateValue: seq<Tok> := [
    AnyOf([
      [DigitsBetween(1, 2), One(Chars("/-")), DigitsBetween(1, 2), One(Chars("/-")), DigitsBetween(2, 4)],
      [Rep(AsciiLetter, 1, None, false), Ws1, DigitsBetween(1, 2), Maybe(Chars(",")), Ws0, DigitsBetween(4, 4)],
      [DigitsBetween(4, 4), Lit("-"), DigitsBetween(2, 2), Lit("-"), DigitsBetween(2, 2)]])]
  const DateParts: seq<seq<Tok>> := [DateLabel, DateGap, DateValue]
  const DateIgnoreCase := true

  // ---- FIELD_LABELS ----

  const ProductNameLabels: seq<seq<Tok>> := [
    Phrase(["Product", "identifier"]),
    Phrase(["Product", "Name"]),
    Phrase(["Trade", "name"]),
    Phrase(["Product", "code"]),
    Phrase(["Commercial", "product", "name"]),
    Phrase(["Product", "designation"])]

  const ManufacturerLabels: seq<seq<Tok>> := [
    Phrase(["Manufacturer"]),
    Phrase(["Supplier", "Name"]),
    Phrase(["Supplier"]),
    Phrase(["Company", "name", "of", "supplier"]),
    Phrase(["Details", "of", "the", "supplier"]),
    Phrase(["Producer"]),
    Phrase(["Company", "name"]),
    Phrase(["Registered", "company", "name"]),
    Phrase(["Distributor"]),
    [Lit("Manufacturer"), Ws0, Lit("/"), Ws0, Lit("Supplier")]]

  const ProductUseLabels: seq<seq<Tok>> := [
    Phrase(["Recommended", "use"]),
    Phrase(["Intended", "use"]),
    Phrase(["Use", "of", "the", "substance"]),
    Phrase(["Product", "use"]),
    Phrase(["Relevant", "identified", "uses"]),
    Phrase(["Identified", "uses"]),
    Phrase(["Uses", "advised", "against"])]

  const DangerousGoodsClassLabels: seq<seq<Tok>> := [
    Phrase(["DG", "Class"]),
    Phrase(["Class"]),
    Phrase(["Transport", "hazard", "class"]),
    [Group([Lit("IMDG"), Lit("IATA"), Lit("ADG")], true), Ws0] + Phrase(["Hazard", "Class"]),
    Phrase(["Australian", "Dangerous", "Goods", "class"]),
    Phrase(["Dangerous", "goods", "class"]),
    Phrase(["UN", "Class"])]

  const SubsidiaryRiskLabels: seq<seq<Tok>> := [
    Phrase(["Subsidiary", "risk"]),
    Phrase(["Subsidiary", "hazard"]),
    Phrase(["Secondary", "risk"])]

  const PackingGroupLabels: seq<seq<Tok>> := [
    Phrase(["Packing", "group"]),
    Phrase(["PG"]),
    [AnyRun] + Phrase(["packing", "group"]),
    Phrase(["Australian", "Dangerous", "Goods", "packing", "group"])]

  /** The fields of FIELD_LABELS in the dictionary's order. */
  const FieldNames: seq<string> :=
    ["product_name", "manufacturer", "product_use", "dangerous_goods_class", "subsidiary_risk", "packing_group"]

  /** `FIELD_LABELS.get(field, [])` */
  function FieldLabels(field: string): (r: seq<seq<Tok>>)
    ensures field !in FieldNames ==> r == []
  {
    if field == "product_name" then ProductNameLabels
    else if field == "manufacturer" then ManufacturerLabels
    else if field == "product_use" then ProductUseLabels
    else if field == "dangerous_goods_class" then DangerousGoodsClassLabels
    else if field == "subsidiary_risk" then SubsidiaryRiskLabels
    else if field == "packing_group" then PackingGroupLabels
    else []
  }

  /** Every label of every field, field by field (iterating `FIELD_LABELS.values()`). */
  const AllFieldLabels: seq<seq<Tok>> :=
    ProductNameLabels + ManufacturerLabels + ProductUseLabels + DangerousGoodsClassLabels
    + SubsidiaryRiskLabels + PackingGroupLabels

  // ---- NOISE_LABELS (matched whole, ignoring case) ----

  const NoiseLabels: seq<seq<Tok>> := [
    [Lit("Telephone")], [Lit("Tel")], [Lit("Phone")], [Lit("Fax")],
    [Lit("E"), Maybe(Chars("-")), Lit("mail")], [Lit("Website")], [Lit("Email")],
    [Lit("Emergency")], [Lit("Address")], [Lit("Poison")], Phrase(["Product", "code"]),
    Phrase(["SDS", "no"]) + [Maybe(Chars("."))], Phrase(["SDS", "number"]),
    [Lit("Page"), Ws1, Digits1], Phrase(["Date", "of", "issue"]), Phrase(["Revision", "date"]),
    [Lit("Version")],
    Phrase(["Details", "of", "the", "supplier"]), Phrase(["Contact", "details"]),
    Phrase(["Emergency", "telephone"]),
    Phrase(["MSDS", "Date"]), Phrase(["Alternative", "number"]), Phrase(["Facsimile", "Number"]),
    [Lit("Name")],
    [Lit("Australia"), Ws1, Lit("-"), Ws1, Digits1], [Lit("UK"), Maybe(Chars(",")), Ws1, Lit("NPIS")],
    Phrase(["Registered", "company", "name"]),
    Phrase(["Safety", "data", "sheet"]), Phrase(["Document", "number"]),
    [DigitsBetween(2, 4), Ws1, DigitsBetween(2, 4), Ws1, DigitsBetween(2, 4)],
    Phrase(["Document", "type"]), [Lit("Country")], [Lit("Language")], [Lit("Format")]]

  // ---- validators ----

  /** VALID_DG_CLASSES: `^[1-9](?:\.[1-9])?$` (case-sensitive, used with `match`). */
  const ValidDgClasses: seq<Tok> :=
    [Bol(false), One(NonZeroDigit), Opt([Lit("."), One(NonZeroDigit)]), Eol(false)]

  /** VALID_PACKING_GROUPS, ignoring case, used with `match`. */
  const ValidPackingGroups: seq<Tok> := [Bol(false), AnyOf(PackingGroupAlts), Eol(false)]
  const PackingGroupAlts: seq<seq<Tok>> := [
    [Rep(Chars("I"), 1, Some(3), false)],
    [Lit("I"), Maybe(Chars("V"))],
    [Lit("N"), Maybe(Chars(".")), Maybe(Chars("/")), Lit("A"), Maybe(Chars("."))],
    [Lit("None")],
    [Lit("Not"), Ws1, AnyOf([[Lit("applicable")], [Lit("required")], [Lit("assigned")]])],
    Phrase(["Not", "subject"])]
  const PackingGroupIgnoreCase := true

  /** Extracted text shorter than this makes the text extractor fall back to OCR. */
  const MinTextLength := 50

  // ---- what VALID_DG_CLASSES accepts ----

  predicate IsClassDigit(c: char) { '1' <= c <= '9' }
  predicate DgClassShape(s: string) {
    var t := if s != [] && s[|s| - 1] == '\n' then s[..|s| - 1] else s;
    (|t| == 1 && IsClassDigit(t[0])) || (|t| == 3 && IsClassDigit(t[0]) && t[1] == '.' && IsClassDigit(t[2]))
  }

  lemma NonZeroDigitClass(c: char)
    ensures InClass(NonZeroDigit, c, false) <==> IsClassDigit(c)
  {
    assert NonZeroDigit.items == [Range('1', '9')];
    assert ItemsHave(NonZeroDigit.items[1..], c) == false;
  }

  lemma AsciiLetterClass(c: char)
    ensures InClass(AsciiLetter, c, false) <==> IsLetter(c)
  {
    var items := AsciiLetter.items;
    assert items == [Range('A', 'Z'), Range('a', 'z')];
    assert items[1..] == [Range('a', 'z')] && items[1..][1..] == [];
    assert ItemsHave(items[1..][1..], c) == false;
    assert ItemsHave(items[1..], c) == ('a' <= c <= 'z');
    assert ItemsHave(items, c) == ('A' <= c <= 'Z' || 'a' <= c <= 'z');
  }

  lemma DgDivision(s: string)
    requires 1 <= |s|
    ensures Ends([Lit("."), One(NonZeroDigit)], s, 1, false)
      == if |s| >= 3 && s[1] == '.' && IsClassDigit(s[2]) then [3] else []
  {
    var one := One(NonZeroDigit);
    EndsConcat([Lit(".")], [one], s, 1, false);
    EndsLit(".", s, 1, false);
    assert [Lit("."), one] == [Lit(".")] + [one];
    if |s| >= 2 && s[1] == '.' {
      assert LitAt(s, 1, ".", false);
      EndsEachOne([one], s, 1, 2, false);
      EndsOne(NonZeroDigit, s, 2, false);
      if |s| >= 3 { NonZeroDigitClass(s[2]); }
    } else {
      assert !LitAt(s, 1, ".", false);
    }
  }

  lemma DgAfterFirst(s: string)
    requires 1 <= |s|
    ensures Ends([Opt([Lit("."), One(NonZeroDigit)]), Eol(false)], s, 1, false) != []
      <==> EolAt(s, 1) || (|s| >= 3 && s[1] == '.' && IsClassDigit(s[2]) && EolAt(s, 3))
  {
    DgDivision(s);
    OptThenEol([Lit("."), One(NonZeroDigit)], s, 1, if |s| >= 3 then 3 else 1);
  }

  lemma DgFirst(s: string)
    ensures Ends(ValidDgClasses, s, 0, false)
      == if s != [] && IsClassDigit(s[0]) then Ends([Opt([Lit("."), One(NonZeroDigit)]), Eol(false)], s, 1, false) else []
  {
    var one := One(NonZeroDigit);
    var afterOne := [Opt([Lit("."), one]), Eol(false)];
    var afterBol := [one] + afterOne;
    assert ValidDgClasses == [Bol(false)] + afterBol;
    EndsConcat([Bol(false)], afterBol, s, 0, false);
    EndsBol(s, 0, false);
    EndsEachOne(afterBol, s, 0, 0, false);
    EndsConcat([one], afterOne, s, 0, false);
    EndsOne(NonZeroDigit, s, 0, false);
    if s != [] {
      NonZeroDigitClass(s[0]);
      if IsClassDigit(s[0]) {
        EndsEachOne(afterOne, s, 0, 1, false);
      }
    }
  }

  lemma DgShapeSteps(s: string)
    ensures DgClassShape(s) <==>
      (s != [] && IsClassDigit(s[0]) && (EolAt(s, 1) || (|s| >= 3 && s[1] == '.' && IsClassDigit(s[2]) && EolAt(s, 3))))
  {
  }

  lemma DgClassPattern(s: string)
    ensures MatchesAt(ValidDgClasses, s, 0, false) <==> DgClassShape(s)
  {
    DgFirst(s);
    DgShapeSteps(s);
    if s != [] && IsClassDigit(s[0]) {
      DgAfterFirst(s);
    }
  }
  // ---- what SECTION_PATTERN accepts ----

  /** ASCII case folding maps a letter to a letter and leaves every other character alone. */
  lemma FoldKeepsKind(c: char)
    ensures IsLetter(c) ==> IsLetter(ToLower(c)) && IsLetter(ToUpper(c))
    ensures !IsLetter(c) ==> ToLower(c) == c && ToUpper(c) == c
  {
  }

  lemma SpaceClass(c: char)
    ensures InClass(Space, c, true) <==> IsSpace(c)
  {
    FoldKeepsKind(c);
    assert Space.items == [SpaceItem];
    assert Space.items[1..] == [];
    assert ItemsHave(Space.items, c) == IsSpace(c);
    assert ItemsHave(Space.items, ToLower(c)) == IsSpace(ToLower(c));
    assert ItemsHave(Space.items, ToUpper(c)) == IsSpace(ToUpper(c));
  }

  /** The separator `(?:\s|:|\.)` takes exactly one whitespace, ':' or '.' character. */
  lemma SectionSeparator(s: string, j: nat, e: nat)
    requires j <= |s|
    ensures e in Ends([SectionTail[0]], s, j, true)
      <==> j < |s| && e == j + 1 && (IsSpace(s[j]) || s[j] == ':' || s[j] == '.')
  {
    SeparatorAlts();
    ThreeAlts(Cat([One(Space)]), Cat([Lit(":")]), Cat([Lit(".")]), s, j, e);
    SpaceAltEnds(s, j, e);
    MarkAltEnds(":", s, j, e);
    MarkAltEnds(".", s, j, e);
  }

  /** A group of three alternatives ends wherever one of them does. */
  lemma ThreeAlts(x: Tok, y: Tok, z: Tok, s: string, j: nat, e: nat)
    requires j <= |s|
    ensures e in Ends([Group([x, y, z], false)], s, j, true)
      <==> e in Ends([x], s, j, true) || e in Ends([y], s, j, true) || e in Ends([z], s, j, true)
  {
    var g := [x, y, z];
    EndsGroup(g, false, s, j, true, e);
    assert g[0] == x && g[1] == y && g[2] == z;
  }

  /** The separator group lists a whitespace character, ':' and '.', in that order. */
  lemma SeparatorAlts()
    ensures SectionTail[0] == Group([Cat([One(Space)]), Cat([Lit(":")]), Cat([Lit(".")])], false)
  {
    var g := SectionTail[0].alts;
    assert |g| == 3 && g[0] == Cat([One(Space)]) && g[1] == Cat([Lit(":")]) && g[2] == Cat([Lit(".")]);
    assert g == [g[0], g[1], g[2]];
  }

  lemma SpaceAltEnds(s: string, j: nat, e: nat)
    requires j <= |s|
    ensures e in Ends([Cat([One(Space)])], s, j, true) <==> j < |s| && e == j + 1 && IsSpace(s[j])
  {
    EndsCat([One(Space)], s, j, true, e);
    EndsOne(Space, s, j, true);
    if j < |s| {
      SpaceClass(s[j]);
    }
  }

  /** A one-character literal that is not a letter matches, ignoring case, exactly that character. */
  lemma MarkAltEnds(w: string, s: string, j: nat, e: nat)
    requires j <= |s| && |w| == 1 && !IsLetter(w[0])
    ensures e in Ends([Cat([Lit(w)])], s, j, true) <==> j < |s| && e == j + 1 && s[j] == w[0]
  {
    EndsCat([Lit(w)], s, j, true, e);
    EndsLit(w, s, j, true);
    if j < |s| {
      FoldKeepsKind(s[j]);
      FoldKeepsKind(w[0]);
      assert LitAt(s, j, w, true) <==> SameChar(s[j], w[0], true);
    }
  }

  /** After the number a header needs one whitespace, ':' or '.' character and then whitespace. */
  lemma SectionTailExactly(s: string, j: nat)
    requires j <= |s|
    ensures MatchesAt(SectionTail, s, j, true)
      <==> j + 1 < |s| && (IsSpace(s[j]) || s[j] == ':' || s[j] == '.') && IsSpace(s[j + 1])
  {
    var sep := SectionTail[0];
    forall e: nat
      ensures e in Ends([sep], s, j, true) <==> j < |s| && e == j + 1 && SepChar(s[j])
    {
      SectionSeparator(s, j, e);
    }
    TailWith(sep, s, j);
    assert SectionTail == [sep] + [Look([One(Space)], true)];
  }

  /** The characters the section separator takes. */
  predicate SepChar(c: char) { IsSpace(c) || c == ':' || c == '.' }

  /** A one-character separator followed by `(?=\s)` matches exactly when a separator character and whitespace follow. */
  lemma TailWith(sep: Tok, s: string, j: nat)
    requires j <= |s|
    requires forall e: nat :: e in Ends([sep], s, j, true) <==> j < |s| && e == j + 1 && SepChar(s[j])
    ensures MatchesAt([sep] + [Look([One(Space)], true)], s, j, true)
      <==> j + 1 < |s| && SepChar(s[j]) && IsSpace(s[j + 1])
  {
    var look := Look([One(Space)], true);
    if MatchesAt([sep] + [look], s, j, true) {
      var e := Ends([sep] + [look], s, j, true)[0];
      var m := SeqWitness([sep], [look], s, j, true, e);
      LookSpaceEnds(s, m);
    } else if j + 1 < |s| && SepChar(s[j]) && IsSpace(s[j + 1]) {
      assert j + 1 in Ends([sep], s, j, true);
      LookSpaceEnds(s, j + 1);
      SeqJoin([sep], [look], s, j, j + 1, true, j + 1);
    }
  }

  /** `(?=\s)` holds, without moving, exactly before whitespace. */
  lemma LookSpaceEnds(s: string, m: nat)
    requires m <= |s|
    ensures Ends([Look([One(Space)], true)], s, m, true) == if m < |s| && IsSpace(s[m]) then [m] else []
  {
    assert [Look([One(Space)], true)][1..] == [];
    EndsOne(Space, s, m, true);
    if m < |s| {
      SpaceClass(s[m]);
    }
  }

  /** On a line that opens with a digit, `^\s*(?:section\s*)?` can only end before that digit. */
  lemma SectionLeadAtDigit(s: string)
    requires s != [] && IsDigit(s[0])
    ensures Ends(SectionLead, s, 0, true) == [0]
  {
    WordAbsentAtDigit("section", s);
    OptAbsent("section", Ws0, s);
    LeadAtDigit(Opt([Lit("section"), Ws0]), s);
  }

  /** `^\s*` followed by a token that can only end where it starts ends, before a digit, at the start. */
  lemma LeadAtDigit(opt: Tok, s: string)
    requires s != [] && IsDigit(s[0]) && Ends([opt], s, 0, true) == [0]
    ensures Ends([Bol(true), Ws0, opt], s, 0, true) == [0]
  {
    SpaceClass(s[0]);
    assert Run(Space, s, 0, None, true) == 0;
    assert Counts(0, 0, 0, false) == [0];
    EndsEachOne([opt], s, 0, 0, true);
    assert [Bol(true), Ws0, opt][1..] == [Ws0, opt];
    assert [Ws0, opt][1..] == [opt];
  }

  /** A word that opens with a letter does not occur, ignoring case, where a digit stands. */
  lemma WordAbsentAtDigit(w: string, s: string)
    requires w != [] && IsLetter(w[0]) && s != [] && IsDigit(s[0])
    ensures !LitAt(s, 0, w, true)
  {
    FoldKeepsKind(s[0]);
    FoldKeepsKind(w[0]);
  }

  /** An optional group that opens with a literal absent at the start can only end where it starts. */
  lemma OptAbsent(w: string, t: Tok, s: string)
    requires s != [] && !LitAt(s, 0, w, true)
    ensures Ends([Opt([Lit(w), t])], s, 0, true) == [0]
  {
    var sub := [Lit(w), t];
    var opt := Opt(sub);
    assert Ends([Cat(sub)] + [], s, 0, true) == [] by {
      assert Ends(sub, s, 0, true) == [];
      assert ([Cat(sub)] + [])[1..] == [];
    }
    assert EndsAlts([Cat(sub)], [], s, 0, true) == [];
    assert [opt][1..] == [];
  }


  lemma DigitFolded(c: char)
    ensures InClass(Digit, c, true) <==> IsDigit(c)
  {
    FoldKeepsKind(c);
    assert Digit.items == [DigitItem] && Digit.items[1..] == [];
    assert ItemsHave(Digit.items, c) == IsDigit(c);
    assert ItemsHave(Digit.items, ToLower(c)) == IsDigit(ToLower(c));
    assert ItemsHave(Digit.items, ToUpper(c)) == IsDigit(ToUpper(c));
  }

  /** `\d{1,2}` on a digit followed by a non-digit ends after that one digit. */
  lemma SectionNumberAtDigit(s: string)
    requires |s| >= 2 && IsDigit(s[0]) && !IsDigit(s[1])
    ensures Ends(SectionNumber, s, 0, true) == [1]
  {
    assert Digit.items == [DigitItem] && Digit.items[1..] == [];
    DigitFolded(s[0]);
    DigitFolded(s[1]);
    assert InClass(Digit, s[0], true) && !InClass(Digit, s[1], true);
    assert Run(Digit, s, 1, Some(1), true) == 0;
    assert Run(Digit, s, 0, Some(2), true) == 1;
    EndsEachOne([], s, 0, 1, true);
  }

  /** A line that opens with one digit is a section header exactly when the separator and whitespace follow it. */
  lemma SectionAtDigit(s: string)
    requires |s| >= 2 && IsDigit(s[0]) && !IsDigit(s[1])
    ensures MatchesAt(SectionPattern, s, 0, true)
      <==> (IsSpace(s[1]) || s[1] == ':' || s[1] == '.') && 2 < |s| && IsSpace(s[2])
  {
    SectionLeadAtDigit(s);
    SectionNumberAtDigit(s);
    assert SectionPattern == SectionLead + (SectionNumber + SectionTail);
    EndsConcat(SectionLead, SectionNumber + SectionTail, s, 0, true);
    EndsEachOne(SectionNumber + SectionTail, s, 0, 0, true);
    EndsConcat(SectionNumber, SectionTail, s, 0, true);
    EndsEachOne(SectionTail, s, 0, 1, true);
    SectionTailExactly(s, 1);
  }

  /** A street address is not a section header; a numbered title is. */
  lemma SectionHeaderExamples()
    ensures !MatchesAt(SectionPattern, "2 Fred Street", 0, SectionIgnoreCase)
    ensures MatchesAt(SectionPattern, "2. Hazards", 0, SectionIgnoreCase)
  {
    SectionAtDigit("2 Fred Street");
    SectionAtDigit("2. Hazards");
  }

  // ---- what VALID_PACKING_GROUPS accepts ----

  /** Every alternative but the first opens with a literal whose first letter is I or N. */
  lemma PackingAltHeads(k: nat)
    requires 1 <= k < |PackingGroupAlts|
    ensures PackingGroupAlts[k] != [] && PackingGroupAlts[k][0].Lit?
    ensures PackingGroupAlts[k][0].text != [] && PackingGroupAlts[k][0].text[0] in "IN"
  {
    assert Phrase(["Not", "subject"])[0] == Lit("Not");
  }

  /** VALID_PACKING_GROUPS only accepts text that opens with an I or an N, in either case. */
  lemma PackingGroupOpens(s: string)
    ensures MatchesAt(ValidPackingGroups, s, 0, PackingGroupIgnoreCase)
      ==> s != [] && (s[0] in "Ii" || s[0] in "Nn")
  {
    forall k | 1 <= k < |PackingGroupAlts|
      ensures PackingGroupAlts[k] != [] && PackingGroupAlts[k][0].Lit?
      ensures PackingGroupAlts[k][0].text != [] && PackingGroupAlts[k][0].text[0] in "IN"
    {
      PackingAltHeads(k);
    }
    OpensWithIOrN(PackingGroupAlts, s);
  }

  /** An anchored group whose alternatives each open with an I or an N only matches text that does. */
  lemma OpensWithIOrN(alts: seq<seq<Tok>>, s: string)
    requires alts != [] && alts[0] == [Rep(Chars("I"), 1, Some(3), false)]
    requires forall k :: 1 <= k < |alts| ==> alts[k] != [] && alts[k][0].Lit?
    requires forall k :: 1 <= k < |alts| ==> alts[k][0].text != [] && alts[k][0].text[0] in "IN"
    ensures MatchesAt([Bol(false), AnyOf(alts), Eol(false)], s, 0, true)
      ==> s != [] && (s[0] in "Ii" || s[0] in "Nn")
  {
    var g := AnyOf(alts);
    if MatchesAt([Bol(false), g, Eol(false)], s, 0, true) {
      var m := AnchoredBody(g, s);
      var k := AltWitness(alts, s, m);
      if k == 0 {
        RomanRunOpens(s, m);
      } else {
        var w := alts[k][0].text;
        assert alts[k] == [Lit(w)] + alts[k][1..];
        LitHead(w, alts[k][1..], s, 0, true);
        LetterOpens(w[0], s);
      }
    }
  }

  /** A match of `^g$` from the start passes an end of `g` from the start. */
  lemma AnchoredBody(g: Tok, s: string) returns (m: nat)
    requires MatchesAt([Bol(false), g, Eol(false)], s, 0, true)
    ensures m in Ends([g], s, 0, true)
  {
    assert [Bol(false), g, Eol(false)] == [Bol(false)] + ([g] + [Eol(false)]);
    var e := Ends([Bol(false), g, Eol(false)], s, 0, true)[0];
    var j := SeqWitness([Bol(false)], [g] + [Eol(false)], s, 0, true, e);
    EndsBol(s, 0, true);
    m := SeqWitness([g], [Eol(false)], s, j, true, e);
  }

  /** An end of a group of alternatives is an end of one of them. */
  lemma AltWitness(alts: seq<seq<Tok>>, s: string, m: nat) returns (k: nat)
    requires m in Ends([AnyOf(alts)], s, 0, true)
    ensures k < |alts| && m in Ends(alts[k], s, 0, true)
  {
    var g := AnyOf(alts);
    EndsGroup(g.alts, false, s, 0, true, m);
    k :| 0 <= k < |g.alts| && m in Ends([g.alts[k]], s, 0, true);
    EndsCat(alts[k], s, 0, true, m);
  }

  /** `I{1,3}` ignoring case ends only after an I or an i. */
  lemma RomanRunOpens(s: string, m: nat)
    requires m in Ends([Rep(Chars("I"), 1, Some(3), false)], s, 0, true)
    ensures s != [] && s[0] in "Ii"
  {
    EndsRep(Chars("I"), 1, Some(3), false, s, 0, true, m);
    FoldKeepsKind(s[0]);
    CharsHave("I", s[0]);
    CharsHave("I", ToLower(s[0]));
    CharsHave("I", ToUpper(s[0]));
  }

  /** Text whose first character equals I or N ignoring case opens with that letter in one case or the other. */
  lemma LetterOpens(c: char, s: string)
    requires c in "IN" && s != [] && SameChar(s[0], c, true)
    ensures s[0] in "Ii" || s[0] in "Nn"
  {
    FoldKeepsKind(s[0]);
  }

  // ---- what VALID_PACKING_GROUPS accepts, stated without the pattern ----

  /** The Roman numerals, lower-cased. */
  const RomanGroups: set<string> := {"i", "ii", "iii", "iv"}

  /** "N.A." with each mark optional, lower-cased. */
  const NaForms: set<string> := {"na", "na.", "n.a", "n.a.", "n/a", "n/a.", "n./a", "n./a."}

  /** The words that may follow "Not", lower-cased. */
  const NotWords: set<string> := {"applicable", "required", "assigned", "subject"}

  /** "not", whitespace, then one of `words`, ignoring case. */
  predicate NotPhraseOf(b: string, words: set<string>) {
    |b| > 3 && Lower(b[..3]) == "not" && IsSpace(b[3]) && Lower(LStrip(b[3..])) in words
  }

  /** A packing group written out in full, ignoring case. */
  predicate PackingGroupWord(b: string) {
    Lower(b) in RomanGroups || Lower(b) in NaForms || Lower(b) == "none" || NotPhraseOf(b, NotWords)
  }

  /** A packing group, alone or followed by one final newline (which `$` lets through). */
  predicate PackingGroupText(s: string) {
    PackingGroupWord(s) || (s != [] && s[|s| - 1] == '\n' && PackingGroupWord(s[..|s| - 1]))
  }

  /** VALID_PACKING_GROUPS accepts a text exactly when it is a packing group written out in full. */
  lemma PackingGroupMeaning(s: string)
    ensures MatchesAt(ValidPackingGroups, s, 0, PackingGroupIgnoreCase) <==> PackingGroupText(s)
  {
    AnchoredIff(AnyOf(PackingGroupAlts), s, true);
    PackingGroupEnds(s, |s|);
    assert s[..|s|] == s;
    if s != [] {
      PackingGroupEnds(s, |s| - 1);
    }
  }

  /** The alternatives end at `e` exactly when the text up to `e` is a packing group. */
  lemma PackingGroupEnds(s: string, e: nat)
    requires e <= |s|
    ensures e in Ends([AnyOf(PackingGroupAlts)], s, 0, true) <==> PackingGroupWord(s[..e])
  {
    SixAltsEnds(PackingGroupAlts, s, e);
    RomanRunEnds(s, e);
    RomanVEnds(s, e);
    NaEnds(s, e);
    NoneEnds(s, e);
    NotWordsEnds(s, e);
    NotSubjectEnds(s, e);
    PackingGroupWordCases(s[..e]);
  }

  /** A group of six alternatives ends where one of them does. */
  lemma SixAltsEnds(alts: seq<seq<Tok>>, s: string, e: nat)
    requires |alts| == 6 && e <= |s|
    ensures e in Ends([AnyOf(alts)], s, 0, true)
      <==> (e in Ends(alts[0], s, 0, true) || e in Ends(alts[1], s, 0, true) || e in Ends(alts[2], s, 0, true)
        || e in Ends(alts[3], s, 0, true) || e in Ends(alts[4], s, 0, true) || e in Ends(alts[5], s, 0, true))
  {
    AnyOfIff(alts, s, 0, true, e);
    if e in Ends([AnyOf(alts)], s, 0, true) {
      var k :| 0 <= k < |alts| && e in Ends(alts[k], s, 0, true);
      assert k in {0, 1, 2, 3, 4, 5};
    } else {
      forall k | 0 <= k < 6 ensures e !in Ends(alts[k], s, 0, true) {
      }
    }
  }

  /** `PackingGroupWord` alternative by alternative. */
  lemma PackingGroupWordCases(b: string)
    ensures PackingGroupWord(b)
      <==> (Lower(b) in {"i", "ii", "iii"} || Lower(b) in {"i", "iv"} || Lower(b) in NaForms || Lower(b) == "none"
        || NotPhraseOf(b, {"applicable", "required", "assigned"}) || NotPhraseOf(b, {"subject"}))
  {
    assert Lower(b) in RomanGroups <==> Lower(b) in {"i", "ii", "iii"} || Lower(b) in {"i", "iv"};
    assert NotPhraseOf(b, NotWords)
      <==> NotPhraseOf(b, {"applicable", "required", "assigned"}) || NotPhraseOf(b, {"subject"});
  }

  /** The alternatives of VALID_PACKING_GROUPS, each split at its first token. */
  lemma PackingGroupSpelling()
    ensures PackingGroupAlts[0] == [Rep(Chars("I"), 1, Some(3), false)]
    ensures PackingGroupAlts[1] == [Lit("I")] + [Maybe(Chars("V"))]
    ensures PackingGroupAlts[2] == [Lit("N")] + ([Maybe(Chars("."))] + SlashADot)
    ensures PackingGroupAlts[3] == [Lit("None")]
    ensures PackingGroupAlts[4] == [Lit("Not")] + [Ws1, AnyOf([[Lit("applicable")], [Lit("required")], [Lit("assigned")]])]
    ensures PackingGroupAlts[5] == [Lit("Not")] + [Ws1, Lit("subject")]
  {
    assert Phrase(["Not", "subject"]) == [Lit("Not"), Ws1] + Phrase(["subject"]);
  }

  /** The fifth alternative, split after "Not". */
  lemma NotWordsSpelling()
    ensures PackingGroupAlts[4] == [Lit("Not")] + [Ws1, AnyOf([[Lit("applicable")], [Lit("required")], [Lit("assigned")]])]
  {
  }

  /** `I{1,3}`, ignoring case. */
  lemma RomanRunEnds(s: string, e: nat)
    requires e <= |s|
    ensures e in Ends(PackingGroupAlts[0], s, 0, true) <==> Lower(s[..e]) in {"i", "ii", "iii"}
  {
    RomanRunWalk(s, e);
    RomanRunText(s, e);
  }

  /** One to three I's, ignoring case, lower-case to the first three Roman numerals. */
  lemma RomanRunText(s: string, e: nat)
    requires e <= |s|
    ensures (1 <= e <= 3 && forall k :: 0 <= k < e ==> ToLower(s[k]) == 'i') <==> Lower(s[..e]) in {"i", "ii", "iii"}
  {
    RomanRunShape(Lower(s[..e]));
  }

  /** `I{1,3}` ends after one to three I's, ignoring case. */
  lemma RomanRunWalk(s: string, e: nat)
    requires e <= |s|
    ensures e in Ends(PackingGroupAlts[0], s, 0, true) <==> 1 <= e <= 3 && forall k :: 0 <= k < e ==> ToLower(s[k]) == 'i'
  {
    assert PackingGroupAlts[0] == [Rep(Chars("I"), 1, Some(3), false)];
    EndsRep(Chars("I"), 1, Some(3), false, s, 0, true, e);
    RunCovers(Chars("I"), s, 0, Some(3), true, e);
    forall k | 0 <= k < e
      ensures InClass(Chars("I"), s[k], true) <==> ToLower(s[k]) == 'i'
    {
      LetterClass("I", s[k]);
    }
  }

  /** One to three i's are the first three Roman numerals. */
  lemma RomanRunShape(t: string)
    ensures (1 <= |t| <= 3 && forall k :: 0 <= k < |t| ==> t[k] == 'i') <==> t in {"i", "ii", "iii"}
  {
    if 1 <= |t| <= 3 && forall k :: 0 <= k < |t| ==> t[k] == 'i' {
      if |t| == 1 {
        assert t == [t[0]];
      } else if |t| == 2 {
        assert t == [t[0], t[1]];
      } else {
        assert t == [t[0], t[1], t[2]];
      }
    }
  }

  /** `IV?`, ignoring case. */
  lemma RomanVEnds(s: string, e: nat)
    requires e <= |s|
    ensures e in Ends(PackingGroupAlts[1], s, 0, true) <==> Lower(s[..e]) in {"i", "iv"}
  {
    RomanVWalk(s, e);
    RomanVText(s, e);
  }

  /** An I, optionally followed by a V, ignoring case, lower-cases to I or IV. */
  lemma RomanVText(s: string, e: nat)
    requires e <= |s|
    ensures (1 <= e <= 2 && ToLower(s[0]) == 'i' && (e == 2 ==> ToLower(s[1]) == 'v')) <==> Lower(s[..e]) in {"i", "iv"}
  {
    RomanVShape(Lower(s[..e]));
  }

  /** `IV?` ends after an I, or after an I and a V, ignoring case. */
  lemma RomanVWalk(s: string, e: nat)
    requires e <= |s|
    ensures e in Ends(PackingGroupAlts[1], s, 0, true)
      <==> 1 <= e <= 2 && ToLower(s[0]) == 'i' && (e == 2 ==> ToLower(s[1]) == 'v')
  {
    PackingGroupSpelling();
    LetterOptionalEnds(PackingGroupAlts[1], "I", 'i', "V", 'v', s, e);
  }

  /** A letter followed by an optional letter, ignoring case. */
  lemma LetterOptionalEnds(p: seq<Tok>, w: string, lw: char, cs: string, lc: char, s: string, e: nat)
    requires p == [Lit(w)] + [Maybe(Chars(cs))]
    requires |w| == 1 && ToLower(w[0]) == lw && |cs| == 1 && IsUpper(cs[0]) && ToLower(cs[0]) == lc
    requires e <= |s|
    ensures e in Ends(p, s, 0, true) <==> 1 <= e <= 2 && ToLower(s[0]) == lw && (e == 2 ==> ToLower(s[1]) == lc)
  {
    LetterThenIff(p, w, lw, [Maybe(Chars(cs))], s, 0, e);
    if |s| >= 1 {
      OptionalLetterEnds(cs, s, 1, e);
    }
  }

  /** An optional capital letter in a class, ignoring case. */
  lemma OptionalLetterEnds(cs: string, s: string, i: nat, e: nat)
    requires |cs| == 1 && IsUpper(cs[0]) && i <= |s|
    ensures e in Ends([Maybe(Chars(cs))], s, i, true)
      <==> e == i || (e == i + 1 && i < |s| && ToLower(s[i]) == ToLower(cs[0]))
  {
    EndsMaybe(Chars(cs), s, i, true);
    if i < |s| {
      LetterClass(cs, s[i]);
    }
  }

  /** An i, optionally followed by a v, is I or IV. */
  lemma RomanVShape(t: string)
    ensures (1 <= |t| <= 2 && t[0] == 'i' && (|t| == 2 ==> t[1] == 'v')) <==> t in {"i", "iv"}
  {
    if 1 <= |t| <= 2 && t[0] == 'i' && (|t| == 2 ==> t[1] == 'v') {
      if |t| == 1 {
        assert t == [t[0]];
      } else {
        assert t == [t[0], t[1]];
      }
    }
  }

  /** `N\.?/?A\.?`, ignoring case. */
  lemma NaEnds(s: string, e: nat)
    requires e <= |s|
    ensures e in Ends(PackingGroupAlts[2], s, 0, true) <==> Lower(s[..e]) in NaForms
  {
    NaWalkEnds(s, e);
    NaSpelling(s, e);
    LowerNoCapitals(s[..e]);
    NaShape(Lower(s[..e]));
  }

  /** `N\.?/?A\.?` ends where `NaWalk` does. */
  lemma NaWalkEnds(s: string, e: nat)
    requires e <= |s|
    ensures e in Ends(PackingGroupAlts[2], s, 0, true) <==> NaWalk(s, e)
  {
    NaTokens(PackingGroupAlts[2], s, e);
    if |s| >= 1 {
      NaDotEnds(s, e);
    }
  }

  /** `N` and what follows it, with the tokens after the N left whole. */
  lemma NaTokens(p: seq<Tok>, s: string, e: nat)
    requires p == PackingGroupAlts[2]
    ensures e in Ends(p, s, 0, true) <==> 0 < |s| && ToLower(s[0]) == 'n' && e in Ends([Maybe(Chars("."))] + SlashADot, s, 1, true)
  {
    PackingGroupSpelling();
    LetterThenIff(p, "N", 'n', [Maybe(Chars("."))] + SlashADot, s, 0, e);
  }

  /** `/?A\.?` as tokens. */
  const SlashADot: seq<Tok> := [Maybe(Chars("/")), Lit("A"), Maybe(Chars("."))]

  /** `\.?/?A\.?` from just after the N. */
  lemma NaDotEnds(s: string, e: nat)
    requires 1 <= |s|
    ensures e in Ends([Maybe(Chars("."))] + SlashADot, s, 1, true) <==> DotTail(s, e)
  {
    MarkThenEnds([Maybe(Chars("."))] + SlashADot, '.', SlashADot, s, 1, e);
    SlashEnds(s, 1, e);
    if |s| >= 2 {
      SlashEnds(s, 2, e);
    }
  }

  /** An A, then an optional '.', from `i` to `e`, ignoring case. */
  predicate ATail(s: string, i: nat, e: nat) {
    i < |s| && ToLower(s[i]) == 'a' && (e == i + 1 || (e == i + 2 && i + 1 < |s| && s[i + 1] == '.'))
  }

  /** An optional '/', then `ATail`. */
  predicate SlashTail(s: string, i: nat, e: nat) {
    (i < |s| && s[i] == '/' && ATail(s, i + 1, e)) || ATail(s, i, e)
  }

  /** `A\.?`, ignoring case. */
  lemma ADotEnds(s: string, i: nat, e: nat)
    requires i <= |s|
    ensures e in Ends(SlashADot[1..], s, i, true) <==> ATail(s, i, e)
  {
    assert SlashADot[1..] == [Lit("A")] + [Maybe(Chars(['.']))];
    LetterMarkEnds(SlashADot[1..], "A", 'a', '.', s, i, e);
  }

  /** `/?A\.?`, ignoring case. */
  lemma SlashEnds(s: string, i: nat, e: nat)
    requires i <= |s|
    ensures e in Ends(SlashADot, s, i, true) <==> SlashTail(s, i, e)
  {
    assert SlashADot == [Maybe(Chars(['/']))] + SlashADot[1..];
    MarkThenEnds(SlashADot, '/', SlashADot[1..], s, i, e);
    ADotEnds(s, i, e);
    if i < |s| {
      ADotEnds(s, i + 1, e);
    }
  }

  /** An optional mark, then `rest`. */
  lemma MarkThenEnds(p: seq<Tok>, m: char, rest: seq<Tok>, s: string, i: nat, e: nat)
    requires p == [Maybe(Chars([m]))] + rest && !IsLetter(m) && i <= |s|
    ensures e in Ends(p, s, i, true) <==> (i < |s| && s[i] == m && e in Ends(rest, s, i + 1, true)) || e in Ends(rest, s, i, true)
  {
    MaybeThenIff(Chars([m]), rest, s, i, true, e);
    if i < |s| {
      MarkClass(m, s[i]);
    }
  }

  /** A letter, then an optional mark. */
  lemma LetterMarkEnds(p: seq<Tok>, w: string, lw: char, m: char, s: string, i: nat, e: nat)
    requires p == [Lit(w)] + [Maybe(Chars([m]))] && |w| == 1 && ToLower(w[0]) == lw && !IsLetter(m) && i <= |s|
    ensures e in Ends(p, s, i, true)
      <==> i < |s| && ToLower(s[i]) == lw && (e == i + 1 || (e == i + 2 && i + 1 < |s| && s[i + 1] == m))
  {
    LetterThenIff(p, w, lw, [Maybe(Chars([m]))], s, i, e);
    if i < |s| {
      EndsMaybe(Chars([m]), s, i + 1, true);
      if i + 1 < |s| {
        MarkClass(m, s[i + 1]);
      }
    }
  }

  /** After the N: an optional '.', then `SlashTail`. */
  predicate DotTail(s: string, e: nat) {
    (1 < |s| && s[1] == '.' && SlashTail(s, 2, e)) || SlashTail(s, 1, e)
  }

  /** The walk of the N/A alternative from the start to `e`: N, then `DotTail`. */
  predicate NaWalk(s: string, e: nat) {
    0 < |s| && ToLower(s[0]) == 'n' && DotTail(s, e)
  }

  /** The walk depends only on the text up to `e`, lower-cased. */
  lemma NaSpelling(s: string, e: nat)
    requires e <= |s|
    ensures NaWalk(s, e) <==> NaWalk(Lower(s[..e]), e)
  {
    var t := Lower(s[..e]);
    forall k | 0 <= k < e
      ensures ToLower(t[k]) == ToLower(s[k])
      ensures (s[k] == '.' <==> t[k] == '.') && (s[k] == '/' <==> t[k] == '/')
    {
      assert t[k] == ToLower(s[k]);
      MarkLower('.', s[k]);
      MarkLower('/', s[k]);
    }
  }

  /** On lower-case text that the walk covers, the walk accepts exactly the forms listed in `NaForms`. */
  lemma NaShape(t: string)
    requires forall k :: 0 <= k < |t| ==> !IsUpper(t[k])
    ensures NaWalk(t, |t|) <==> t in NaForms
  {
    if NaWalk(t, |t|) {
      if |t| == 2 {
        assert t == [t[0], t[1]];
      } else if |t| == 3 {
        assert t == [t[0], t[1], t[2]];
      } else if |t| == 4 {
        assert t == [t[0], t[1], t[2], t[3]];
      } else {
        assert t == [t[0], t[1], t[2], t[3], t[4]];
      }
    }
  }

  /** "None", ignoring case. */
  lemma NoneEnds(s: string, e: nat)
    requires e <= |s|
    ensures e in Ends(PackingGroupAlts[3], s, 0, true) <==> Lower(s[..e]) == "none"
  {
    assert PackingGroupAlts[3] == [Lit("None")];
    CapitalsLower();
    WordEndsAs("None", "none", s, 0, e);
    assert s[0..e] == s[..e];
  }

  /** `Not\s+(?:applicable|required|assigned)`, ignoring case. */
  lemma NotWordsEnds(s: string, e: nat)
    requires e <= |s|
    ensures e in Ends(PackingGroupAlts[4], s, 0, true) <==> NotPhraseOf(s[..e], {"applicable", "required", "assigned"})
  {
    var t := AnyOf([[Lit("applicable")], [Lit("required")], [Lit("assigned")]]);
    NotWordsSpelling();
    NotWordsTail(s, e);
    NotWordsLead({"applicable", "required", "assigned"});
    NotTailEnds(PackingGroupAlts[4], t, {"applicable", "required", "assigned"}, s, e);
  }

  /** `Not\s+subject`, ignoring case. */
  lemma NotSubjectEnds(s: string, e: nat)
    requires e <= |s|
    ensures e in Ends(PackingGroupAlts[5], s, 0, true) <==> NotPhraseOf(s[..e], {"subject"})
  {
    PackingGroupSpelling();
    SubjectTail(s, e);
    NotWordsLead({"subject"});
    NotTailEnds(PackingGroupAlts[5], Lit("subject"), {"subject"}, s, e);
  }

  /** From every start between `i` and `e`, `t` ends at `e` exactly when the text between reads one of `words`, ignoring case. */
  predicate TailWords(t: Tok, words: set<string>, s: string, i: nat, e: nat)
    requires i <= e <= |s|
  {
    forall j {:trigger Ends([t], s, j, true)} :: i <= j <= e ==> (e in Ends([t], s, j, true) <==> Lower(s[j..e]) in words)
  }

  /** The words after "Not" in the fourth alternative, from any start. */
  lemma NotWordsTail(s: string, e: nat)
    requires e <= |s|
    ensures TailWords(AnyOf([[Lit("applicable")], [Lit("required")], [Lit("assigned")]]), {"applicable", "required", "assigned"}, s, 0, e)
  {
    forall j | 0 <= j <= e
      ensures e in Ends([AnyOf([[Lit("applicable")], [Lit("required")], [Lit("assigned")]])], s, j, true)
        <==> Lower(s[j..e]) in {"applicable", "required", "assigned"}
    {
      ThreeWordsEnds(AnyOf([[Lit("applicable")], [Lit("required")], [Lit("assigned")]]), "applicable", "required", "assigned", s, j, e);
    }
  }

  /** The word after "Not" in the fifth alternative, from any start. */
  lemma SubjectTail(s: string, e: nat)
    requires e <= |s|
    ensures TailWords(Lit("subject"), {"subject"}, s, 0, e)
  {
    forall j | 0 <= j <= e
      ensures e in Ends([Lit("subject")], s, j, true) <==> Lower(s[j..e]) in {"subject"}
    {
      LowerWordEnds("subject", s, j, e);
    }
  }

  /** Each word that may follow "Not" opens with a lower-case letter. */
  lemma NotWordsLead(words: set<string>)
    requires words <= NotWords
    ensures forall w :: w in words ==> w != [] && IsLower(w[0])
  {
  }

  /** One of three words without capitals, ignoring case. */
  lemma ThreeWordsEnds(t: Tok, a: string, b: string, c: string, s: string, j: nat, e: nat)
    requires t == AnyOf([[Lit(a)], [Lit(b)], [Lit(c)]]) && j <= e <= |s|
    requires forall k :: 0 <= k < |a| ==> !IsUpper(a[k])
    requires forall k :: 0 <= k < |b| ==> !IsUpper(b[k])
    requires forall k :: 0 <= k < |c| ==> !IsUpper(c[k])
    ensures e in Ends([t], s, j, true) <==> Lower(s[j..e]) in {a, b, c}
  {
    var alts := [[Lit(a)], [Lit(b)], [Lit(c)]];
    AnyOfIff(alts, s, j, true, e);
    LowerWordEnds(a, s, j, e);
    LowerWordEnds(b, s, j, e);
    LowerWordEnds(c, s, j, e);
    if e in Ends([t], s, j, true) {
      var k :| 0 <= k < |alts| && e in Ends(alts[k], s, j, true);
      assert k < 3;
    }
    if Lower(s[j..e]) == a {
      assert e in Ends(alts[0], s, j, true);
    } else if Lower(s[j..e]) == b {
      assert e in Ends(alts[1], s, j, true);
    } else if Lower(s[j..e]) == c {
      assert e in Ends(alts[2], s, j, true);
    }
  }

  /** `Not\s+` followed by a token that matches exactly the lower-case `words`, ignoring case. */
  lemma NotTailEnds(p: seq<Tok>, t: Tok, words: set<string>, s: string, e: nat)
    requires p == [Lit("Not")] + [Ws1, t] && e <= |s|
    requires TailWords(t, words, s, 0, e)
    requires forall w :: w in words ==> w != [] && IsLower(w[0])
    ensures e in Ends(p, s, 0, true) <==> NotPhraseOf(s[..e], words)
  {
    LitThenIff("Not", [Ws1, t], s, 0, true, e);
    NotAt(s);
    if 3 <= e {
      SpacesThen(t, words, s, 3, e);
      StripWords(s, 3, e, words);
      NotPhraseText(s, e, words);
    }
  }

  /** The text opens with "Not", ignoring case. */
  lemma NotAt(s: string)
    ensures LitAt(s, 0, "Not", true) <==> 3 <= |s| && Lower(s[..3]) == "not"
  {
    LitAtIff(s, 0, "Not");
    CapitalsLower();
    if 3 <= |s| {
      assert s[0..3] == s[..3];
    }
  }

  /** `NotPhraseOf` read off the text before it is cut at `e`. */
  lemma NotPhraseText(s: string, e: nat, words: set<string>)
    requires 3 <= e <= |s|
    ensures NotPhraseOf(s[..e], words)
      <==> 3 < e && Lower(s[..3]) == "not" && IsSpace(s[3]) && Lower(LStrip(s[3..e])) in words
  {
    var b := s[..e];
    assert b[..3] == s[..3];
    assert b[3..] == s[3..e];
  }

  /** Whitespace from `i`, then a token that matches exactly the lower-case `words`: the words start where the run of spaces ends. */
  lemma SpacesThen(t: Tok, words: set<string>, s: string, i: nat, e: nat)
    requires i <= e <= |s|
    requires TailWords(t, words, s, i, e)
    requires forall w :: w in words ==> w != [] && IsLower(w[0])
    ensures e in Ends([Ws1, t], s, i, true) <==> AfterSpaces(words, s, i, e)
  {
    if e in Ends([Ws1, t], s, i, true) {
      SpacesThenOnly(t, words, s, i, e);
    }
    if AfterSpaces(words, s, i, e) {
      SpacesThenIf(t, words, s, i, e);
    }
  }

  /** A run of whitespace from `i`, then one of `words` up to `e`, ignoring case. */
  predicate AfterSpaces(words: set<string>, s: string, i: nat, e: nat)
    requires i <= e <= |s|
  {
    i < |s| && IsSpace(s[i]) && i + Run(Space, s, i, None, true) <= e
    && Lower(s[i + Run(Space, s, i, None, true)..e]) in words
  }

  /** The words after the run of spaces from `i` make an end of `\s+` then `t`. */
  lemma SpacesThenIf(t: Tok, words: set<string>, s: string, i: nat, e: nat)
    requires i <= e <= |s| && TailWords(t, words, s, i, e)
    requires AfterSpaces(words, s, i, e)
    ensures e in Ends([Ws1, t], s, i, true)
  {
    var r := Run(Space, s, i, None, true);
    assert e in Ends([t], s, i + r, true);
    SpacesJoin(t, s, i, e);
  }

  /** An end of `\s+` then `t` lies past the run of spaces, where the words begin. */
  lemma SpacesThenOnly(t: Tok, words: set<string>, s: string, i: nat, e: nat)
    requires i <= e <= |s| && e in Ends([Ws1, t], s, i, true)
    requires TailWords(t, words, s, i, e)
    requires forall w :: w in words ==> w != [] && IsLower(w[0])
    ensures AfterSpaces(words, s, i, e)
  {
    var j := SpacesSplit(t, s, i, e);
    SpacesPast(s, i, j);
    assert Lower(s[j..e]) in words;
    SpacesEnd(words, s, i, j, e);
  }

  /** `\s+` ends past its start. */
  lemma SpacesPast(s: string, i: nat, j: nat)
    requires i <= |s| && j in Ends([Ws1], s, i, true)
    ensures i < j <= |s|
  {
    EndsRep(Space, 1, None, false, s, i, true, j);
  }

  /** `\s+` runs to the end of the spaces and hands over to `t` there. */
  lemma SpacesJoin(t: Tok, s: string, i: nat, e: nat)
    requires i < |s| && IsSpace(s[i]) && i + Run(Space, s, i, None, true) <= e <= |s|
    requires e in Ends([t], s, i + Run(Space, s, i, None, true), true)
    ensures e in Ends([Ws1, t], s, i, true)
  {
    var r := Run(Space, s, i, None, true);
    SpaceClass(s[i]);
    RunCovers(Space, s, i, None, true, 1);
    EndsRep(Space, 1, None, false, s, i, true, i + r);
    SeqJoin([Ws1], [t], s, i, i + r, true, e);
    assert [Ws1] + [t] == [Ws1, t];
  }

  /** An end of `\s+` followed by `t` comes from an end of `\s+` that `t` carries on from. */
  lemma SpacesSplit(t: Tok, s: string, i: nat, e: nat) returns (j: nat)
    requires i <= |s| && e in Ends([Ws1, t], s, i, true)
    ensures j <= e <= |s| && j in Ends([Ws1], s, i, true) && e in Ends([t], s, j, true)
  {
    assert [Ws1, t] == [Ws1] + [t];
    j := SeqWitness([Ws1], [t], s, i, true, e);
    var r := Ends([t], s, j, true);
    var k :| 0 <= k < |r| && r[k] == e;
  }

  /** Where `\s+` hands over to one of the `words`, the run of spaces has ended. */
  lemma SpacesEnd(words: set<string>, s: string, i: nat, j: nat, e: nat)
    requires i <= |s| && j <= e <= |s| && j in Ends([Ws1], s, i, true) && Lower(s[j..e]) in words
    requires forall w :: w in words ==> w != [] && IsLower(w[0])
    ensures i < |s| && IsSpace(s[i]) && j == i + Run(Space, s, i, None, true)
  {
    var r := Run(Space, s, i, None, true);
    EndsRep(Space, 1, None, false, s, i, true, j);
    RunCovers(Space, s, i, None, true, r);
    RunCovers(Space, s, i, None, true, r + 1);
    SpaceClass(s[i]);
    assert Lower(s[j..e])[0] == ToLower(s[j]);
    SpaceClass(s[j]);
  }

  /** Read after stripping its leading whitespace, `s[i..e]` is one of `words` exactly when the words follow the run of spaces from `i`. */
  lemma StripWords(s: string, i: nat, e: nat, words: set<string>)
    requires i <= e <= |s|
    requires forall w :: w in words ==> w != []
    ensures (i < e && IsSpace(s[i]) && Lower(LStrip(s[i..e])) in words)
      <==> AfterSpaces(words, s, i, e)
  {
    StripRunSlice(s, i, e);
    var r := Run(Space, s, i, None, true);
    if i + r <= e {
      assert LStrip(s[i..e]) == s[i + r..e];
      if i == e {
        assert s[i + r..e] == [];
      }
    } else {
      assert LStrip(s[i..e]) == [];
    }
    assert Lower([]) == [];
  }

  /** Stripping the leading whitespace of `s[i..e]` leaves what follows the run of spaces from `i`. */
  lemma StripRunSlice(s: string, i: nat, e: nat)
    requires i <= e <= |s|
    ensures LStrip(s[i..e]) == if i + Run(Space, s, i, None, true) <= e then s[i + Run(Space, s, i, None, true)..e] else []
  {
    var r := Run(Space, s, i, None, true);
    var t := s[i..e];
    RunSpaces(s, i);
    if i + r <= e {
      forall k | 0 <= k < r ensures IsSpace(t[k]) {
        assert t[k] == s[i + k];
      }
      LStripRun(t, r);
      assert t[r..] == s[i + r..e];
    } else {
      forall k | 0 <= k < |t| ensures IsSpace(t[k]) {
        assert t[k] == s[i + k];
      }
      LStripRun(t, |t|);
    }
  }

  /** The run of spaces from `i` is whitespace throughout and stops before whitespace. */
  lemma RunSpaces(s: string, i: nat)
    requires i <= |s|
    ensures i + Run(Space, s, i, None, true) <= |s|
    ensures forall k :: i <= k < i + Run(Space, s, i, None, true) ==> IsSpace(s[k])
    ensures i + Run(Space, s, i, None, true) < |s| ==> !IsSpace(s[i + Run(Space, s, i, None, true)])
  {
    var r := Run(Space, s, i, None, true);
    RunCovers(Space, s, i, None, true, r);
    RunCovers(Space, s, i, None, true, r + 1);
    forall k | i <= k < i + r ensures IsSpace(s[k]) {
      SpaceClass(s[k]);
    }
    if i + r < |s| {
      SpaceClass(s[i + r]);
    }
  }

  /** The capitalised words of the packing-group pattern, lower-cased. */
  lemma CapitalsLower()
    ensures Lower("None") == "none" && Lower("Not") == "not"
  {
    LowerCapital("None");
    LowerCapital("Not");
  }

  /** An upper-case letter in a class, ignoring case, stands for both of its cases. */
  lemma LetterClass(cs: string, c: char)
    requires |cs| == 1 && IsUpper(cs[0])
    ensures InClass(Chars(cs), c, true) <==> ToLower(c) == ToLower(cs[0])
  {
    CharsHave(cs, c);
    CharsHave(cs, ToLower(c));
    CharsHave(cs, ToUpper(c));
  }

  /** A mark in a class stands only for itself, ignoring case or not. */
  lemma MarkClass(m: char, c: char)
    requires !IsLetter(m)
    ensures InClass(Chars([m]), c, true) <==> c == m
  {
    CharsHave([m], c);
    CharsHave([m], ToLower(c));
    CharsHave([m], ToUpper(c));
  }

  /** Lower-cased text has no capitals. */
  lemma LowerNoCapitals(s: string)
    ensures forall k :: 0 <= k < |Lower(s)| ==> !IsUpper(Lower(s)[k])
  {
  }

  /** Lower-casing turns a character into a mark only when it is that mark. */
  lemma MarkLower(m: char, c: char)
    requires !IsLetter(m)
    ensures ToLower(c) == m <==> c == m
  {
  }

  /** "V" and "7" are not packing groups. */
  lemma PackingGroupRejects()
    ensures !MatchesAt(ValidPackingGroups, "V", 0, PackingGroupIgnoreCase)
    ensures !MatchesAt(ValidPackingGroups, "7", 0, PackingGroupIgnoreCase)
  {
    PackingGroupOpens("V");
    PackingGroupOpens("7");
  }

  /** "IV" is a packing group: `I{1,3}` alone leaves the "V", so the `IV?` alternative takes it. */
  lemma PackingGroupAcceptsIV()
    ensures MatchesAt(ValidPackingGroups, "IV", 0, PackingGroupIgnoreCase)
  {
    var s := "IV";
    var g := AnyOf(PackingGroupAlts);
    var alt := PackingGroupAlts[1];
    assert alt == [Lit("I")] + [Maybe(Chars("V"))];
    assert LitAt(s, 0, "I", true);
    EndsLit("I", s, 0, true);
    CharsHave("V", 'V');
    assert Run(Chars("V"), s, 1, Some(1), true) == 1;
    EndsRep(Chars("V"), 0, Some(1), false, s, 1, true, 2);
    SeqJoin([Lit("I")], [Maybe(Chars("V"))], s, 0, 1, true, 2);
    EndsCat(alt, s, 0, true, 2);
    assert g.alts[1] == Cat(alt);
    EndsGroup(g.alts, false, s, 0, true, 2);
    EndsEol(s, 2, true);
    SeqJoin([g], [Eol(false)], s, 0, 2, true, 2);
    EndsBol(s, 0, true);
    SeqJoin([Bol(false)], [g] + [Eol(false)], s, 0, 0, true, 2);
    assert ValidPackingGroups == [Bol(false)] + ([g] + [Eol(false)]);
  }
}
