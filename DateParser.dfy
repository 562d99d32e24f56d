/**
 * The issue-date selector of the modular parser (modules/date_parser.py): every
 * DATE_PATTERN match is a candidate; the first whose date parses and is not in
 * the future wins, a preferred label ending the search at once.
 */
module DateParser {
  import opened Wrappers
  import opened Text
  import opened Pattern
  import opened PatternLaws
  import opened Config
  import opened Dates

  /** One DATE_PATTERN match: group 1, the label with the rest of its line, and group 2 stripped, the candidate date text. */
  datatype DateMatch = DateMatch(labelText: string, candidate: string)

  /** `DATE_PATTERN.finditer(text)`, each match as its two groups. */
  function DateMatches(text: string): (r: seq<DateMatch>)
    ensures |r| == |FindAllSplit(DateParts, text, 0, DateIgnoreCase)|
  {
    var bs := FindAllSplit(DateParts, text, 0, DateIgnoreCase);
    seq(|bs|, k requires 0 <= k < |bs| => DateMatch(Piece(text, bs[k], 0), Strip(Piece(text, bs[k], 2))))
  }

  /** The label keywords that end the search at once. */
  const PreferredKeys: seq<string> := ["issue", "prepared", "issued", "creation", "revision", "version", "sds"]

  /** `any(key in label.lower() for key in PreferredKeys)` */
  predicate Preferred(caption: string) {
    HasKeyword(caption, PreferredKeys)
  }

  /**
   * `dateutil.parser.parse(s, dayfirst=True).date()`, None where it raises. It is
   * a library routine outside this model, so the selector takes it as a parameter.
   */
  type FreeDateParser = string -> Option<Date>

  /** The date of a candidate, if its text parses and the date is not after `today`. */
  function AcceptedDate(m: DateMatch, today: Date, parse: FreeDateParser): Option<Date> {
    match parse(m.candidate)
    case Some(d) => if After(d, today) then None else Some(d)
    case None => None
  }

  /** Index of the first candidate with an accepted date. */
  function FirstAccepted(ms: seq<DateMatch>, today: Date, parse: FreeDateParser): (r: Option<nat>)
    ensures r.Some? ==> r.value < |ms| && AcceptedDate(ms[r.value], today, parse).Some?
    ensures r.Some? ==> forall j :: 0 <= j < r.value ==> AcceptedDate(ms[j], today, parse).None?
    ensures r.None? ==> forall j :: 0 <= j < |ms| ==> AcceptedDate(ms[j], today, parse).None?
  {
    if ms == [] then None
    else if AcceptedDate(ms[0], today, parse).Some? then Some(0)
    else
      match FirstAccepted(ms[1..], today, parse)
      case None => None
      case Some(k) => Some(k + 1)
  }

  /** Index of the first candidate with an accepted date and a preferred label. */
  function FirstPreferred(ms: seq<DateMatch>, today: Date, parse: FreeDateParser): (r: Option<nat>)
    ensures r.Some? ==> r.value < |ms| && AcceptedDate(ms[r.value], today, parse).Some? && Preferred(ms[r.value].labelText)
    ensures r.Some? ==> forall j :: 0 <= j < r.value ==> !(AcceptedDate(ms[j], today, parse).Some? && Preferred(ms[j].labelText))
    ensures r.None? ==> forall j :: 0 <= j < |ms| ==> !(AcceptedDate(ms[j], today, parse).Some? && Preferred(ms[j].labelText))
  {
    if ms == [] then None
    else if AcceptedDate(ms[0], today, parse).Some? && Preferred(ms[0].labelText) then Some(0)
    else
      match FirstPreferred(ms[1..], today, parse)
      case None => None
      case Some(k) => Some(k + 1)
  }

  /** The ISO text of the date of candidate `k`, if it is accepted. */
  function IsoAt(ms: seq<DateMatch>, k: Option<nat>, today: Date, parse: FreeDateParser): Option<string> {
    if k.Some? && k.value < |ms| && AcceptedDate(ms[k.value], today, parse).Some? then
      Some(FormatIso(AcceptedDate(ms[k.value], today, parse).value))
    else None
  }

  /** The candidate the selector settles on: the first preferred one, else the first accepted one. */
  function Chosen(ms: seq<DateMatch>, today: Date, parse: FreeDateParser): Option<string> {
    if FirstPreferred(ms, today, parse).Some? then IsoAt(ms, FirstPreferred(ms, today, parse), today, parse)
    else IsoAt(ms, FirstAccepted(ms, today, parse), today, parse)
  }

  /**
   * date_parser.extract_issue_date. `today` stands for `date.today()`, and
   * `dateutilAvailable` for whether `dateutil` can be imported; without it the
   * result is None.
   */
  method ExtractIssueDate(text: string, today: Date, parse: FreeDateParser, dateutilAvailable: bool)
    returns (chosen: Option<string>)
    ensures !dateutilAvailable ==> chosen == None
    ensures dateutilAvailable ==> chosen == Chosen(DateMatches(text), today, parse)
  {
    if !dateutilAvailable {
      return None;
    }
    chosen := SelectDate(DateMatches(text), today, parse);
  }

  /** The loop of extract_issue_date over the matches, in text order. */
  method SelectDate(ms: seq<DateMatch>, today: Date, parse: FreeDateParser) returns (chosen: Option<string>)
    ensures chosen == Chosen(ms, today, parse)
  {
    chosen := None;
    var i := 0;
    while i < |ms|
      invariant 0 <= i <= |ms|
      invariant forall j :: 0 <= j < i ==> !(AcceptedDate(ms[j], today, parse).Some? && Preferred(ms[j].labelText))
      invariant chosen == IsoAt(ms, FirstAccepted(ms[..i], today, parse), today, parse)
    {
      var m := ms[i];
      var d := parse(m.candidate);
      if d.None? || After(d.value, today) {
        FirstAcceptedExtend(ms, i, today, parse);
        i := i + 1;
        continue;
      }
      var iso := FormatIso(d.value);
      if Preferred(m.labelText) {
        chosen := Some(iso);
        FirstPreferredUnique(ms, i, today, parse);
        return;
      }
      FirstAcceptedExtend(ms, i, today, parse);
      if chosen.None? {
        chosen := Some(iso);
      }
      i := i + 1;
    }
    assert ms[..i] == ms;
    FirstPreferredNone(ms, today, parse);
  }

  /** How the first accepted index of a prefix grows by one candidate. */
  lemma FirstAcceptedExtend(ms: seq<DateMatch>, i: nat, today: Date, parse: FreeDateParser)
    requires i < |ms|
    ensures FirstAccepted(ms[..i + 1], today, parse)
      == if FirstAccepted(ms[..i], today, parse).Some? then FirstAccepted(ms[..i], today, parse)
         else if AcceptedDate(ms[i], today, parse).Some? then Some(i) else None
  {
    var a := FirstAccepted(ms[..i], today, parse);
    if a.Some? {
      assert ms[..i + 1][a.value] == ms[a.value];
      assert forall j :: 0 <= j < a.value ==> ms[..i + 1][j] == ms[..i][j];
      FirstAcceptedUnique(ms[..i + 1], a.value, today, parse);
    } else if AcceptedDate(ms[i], today, parse).Some? {
      assert ms[..i + 1][i] == ms[i];
      assert forall j :: 0 <= j < i ==> ms[..i + 1][j] == ms[..i][j];
      FirstAcceptedUnique(ms[..i + 1], i, today, parse);
    } else {
      assert forall j :: 0 <= j < i + 1 ==> ms[..i + 1][j] == ms[j];
      FirstAcceptedNone(ms[..i + 1], today, parse);
    }
  }

  /** The first accepted index is the one index whose candidate is accepted and no earlier one is. */
  lemma {:induction false} FirstAcceptedUnique(ms: seq<DateMatch>, k: nat, today: Date, parse: FreeDateParser)
    requires k < |ms| && AcceptedDate(ms[k], today, parse).Some?
    requires forall j :: 0 <= j < k ==> AcceptedDate(ms[j], today, parse).None?
    ensures FirstAccepted(ms, today, parse) == Some(k)
  {
    if k > 0 {
      assert forall j :: 0 <= j < k - 1 ==> ms[1..][j] == ms[j + 1];
      FirstAcceptedUnique(ms[1..], k - 1, today, parse);
    }
  }

  /** With no candidate accepted, there is no first accepted index. */
  lemma {:induction false} FirstAcceptedNone(ms: seq<DateMatch>, today: Date, parse: FreeDateParser)
    requires forall j :: 0 <= j < |ms| ==> AcceptedDate(ms[j], today, parse).None?
    ensures FirstAccepted(ms, today, parse) == None
  {
    if ms != [] {
      assert forall j :: 0 <= j < |ms| - 1 ==> ms[1..][j] == ms[j + 1];
      FirstAcceptedNone(ms[1..], today, parse);
    }
  }

  /** The first preferred index is the one index that is accepted and preferred while no earlier one is. */
  lemma {:induction false} FirstPreferredUnique(ms: seq<DateMatch>, k: nat, today: Date, parse: FreeDateParser)
    requires k < |ms| && AcceptedDate(ms[k], today, parse).Some? && Preferred(ms[k].labelText)
    requires forall j :: 0 <= j < k ==> !(AcceptedDate(ms[j], today, parse).Some? && Preferred(ms[j].labelText))
    ensures FirstPreferred(ms, today, parse) == Some(k)
  {
    if k > 0 {
      assert forall j :: 0 <= j < k - 1 ==> ms[1..][j] == ms[j + 1];
      FirstPreferredUnique(ms[1..], k - 1, today, parse);
    }
  }

  /** With no candidate both accepted and preferred, there is no first preferred index. */
  lemma {:induction false} FirstPreferredNone(ms: seq<DateMatch>, today: Date, parse: FreeDateParser)
    requires forall j :: 0 <= j < |ms| ==> !(AcceptedDate(ms[j], today, parse).Some? && Preferred(ms[j].labelText))
    ensures FirstPreferred(ms, today, parse) == None
  {
    if ms != [] {
      assert forall j :: 0 <= j < |ms| - 1 ==> ms[1..][j] == ms[j + 1];
      FirstPreferredNone(ms[1..], today, parse);
    }
  }

  // ---- the selection, in effect ----

  /** When every label is preferred, the first accepted candidate is chosen. */
  lemma ChosenWhenAllPreferred(ms: seq<DateMatch>, today: Date, parse: FreeDateParser)
    requires forall j :: 0 <= j < |ms| ==> Preferred(ms[j].labelText)
    ensures Chosen(ms, today, parse) == IsoAt(ms, FirstAccepted(ms, today, parse), today, parse)
  {
    var a := FirstAccepted(ms, today, parse);
    if a.Some? {
      FirstPreferredUnique(ms, a.value, today, parse);
    } else {
      FirstPreferredNone(ms, today, parse);
    }
  }

  /** Date label `k` opens with a literal holding a preferred keyword. */
  predicate HeadPreferred(k: nat)
    requires k < |DateLabelAlts|
  {
    DateLabelAlts[k] != [] && DateLabelAlts[k][0].Lit? && Preferred(DateLabelAlts[k][0].text)
  }

  lemma Head0()
    ensures HeadPreferred(0)
  {
    var w := DateLabelAlts[0][0].text;
    assert w == "Revision";
    KeywordAt(w, "Revision", 0, PreferredKeys, 4);
  }

  lemma Head1()
    ensures HeadPreferred(1)
  {
    var w := DateLabelAlts[1][0].text;
    assert w[..5] == "Issue";
    KeywordAt(w, "Issue", 0, PreferredKeys, 0);
  }

  lemma Head2()
    ensures HeadPreferred(2)
  {
    var w := DateLabelAlts[2][0].text;
    assert w[8..13] == "issue";
    KeywordAt(w, "issue", 8, PreferredKeys, 0);
  }

  lemma Head3()
    ensures HeadPreferred(3)
  {
    var w := DateLabelAlts[3][0].text;
    assert w[..7] == "Version";
    KeywordAt(w, "Version", 0, PreferredKeys, 5);
  }

  lemma Head4()
    ensures HeadPreferred(4)
  {
    var w := DateLabelAlts[4][0].text;
    assert w[..3] == "SDS";
    KeywordAt(w, "SDS", 0, PreferredKeys, 6);
  }

  lemma Head5()
    ensures HeadPreferred(5)
  {
    var w := DateLabelAlts[5][0].text;
    assert w[5..13] == "Prepared";
    KeywordAt(w, "Prepared", 5, PreferredKeys, 1);
  }

  lemma Head6()
    ensures HeadPreferred(6)
  {
    var w := DateLabelAlts[6][0].text;
    assert w == "Issued";
    KeywordAt(w, "Issued", 0, PreferredKeys, 2);
  }

  /** Every date label opens with a literal that holds a preferred keyword. */
  lemma DateLabelHeads(k: nat)
    requires k < |DateLabelAlts|
    ensures HeadPreferred(k)
  {
    if k == 0 { Head0(); }
    else if k == 1 { Head1(); }
    else if k == 2 { Head2(); }
    else if k == 3 { Head3(); }
    else if k == 4 { Head4(); }
    else if k == 5 { Head5(); }
    else { Head6(); }
  }

  /** A DATE_PATTERN label match is a label alternative followed by the rest of its line. */
  lemma DateLabelSplit(s: string, i: nat, e: nat) returns (j: nat)
    requires i <= |s| && e in Ends(DateLabel, s, i, DateIgnoreCase)
    ensures i <= j <= e && j in Ends([AnyOf(DateLabelAlts)], s, i, DateIgnoreCase)
  {
    var ci := DateIgnoreCase;
    var tail := [Rep(NotNewline, 0, Some(40), false)];
    var rest := [AnyOf(DateLabelAlts)] + tail;
    assert DateLabel == [WordBoundary] + rest;
    EndsSeq([WordBoundary], rest, s, i, ci, e);
    var j0 :| j0 in Ends([WordBoundary], s, i, ci) && e in Ends(rest, s, j0, ci);
    assert [WordBoundary][1..] == [];
    assert j0 == i;
    EndsSeq([AnyOf(DateLabelAlts)], tail, s, i, ci, e);
    j :| j in Ends([AnyOf(DateLabelAlts)], s, i, ci) && e in Ends(tail, s, j, ci);
    EndsRep(NotNewline, 0, Some(40), false, s, j, ci, e);
  }

  /** A label alternative match opens with the alternative's head literal. */
  lemma DateLabelAlt(s: string, i: nat, j: nat) returns (k: nat)
    requires i <= |s| && j in Ends([AnyOf(DateLabelAlts)], s, i, DateIgnoreCase)
    ensures k < |DateLabelAlts| && DateLabelAlts[k] != [] && DateLabelAlts[k][0].Lit?
    ensures LitAt(s, i, DateLabelAlts[k][0].text, DateIgnoreCase) && i + |DateLabelAlts[k][0].text| <= j
  {
    var ci := DateIgnoreCase;
    var cats := seq(|DateLabelAlts|, k requires 0 <= k < |DateLabelAlts| => Cat(DateLabelAlts[k]));
    assert AnyOf(DateLabelAlts) == Group(cats, false);
    EndsGroup(cats, false, s, i, ci, j);
    k :| 0 <= k < |cats| && j in Ends([cats[k]], s, i, ci);
    EndsCat(DateLabelAlts[k], s, i, ci, j);
    DateLabelHeads(k);
    var w := DateLabelAlts[k][0].text;
    assert DateLabelAlts[k] == [Lit(w)] + DateLabelAlts[k][1..];
    LitThenMember(w, DateLabelAlts[k][1..], s, i, ci, j);
  }

  /** Whatever DATE_PATTERN's group 1 spans starts with a date label, so it is preferred. */
  lemma DateLabelPreferred(s: string, i: nat, e: nat)
    requires i <= |s| && e in Ends(DateLabel, s, i, DateIgnoreCase)
    ensures i <= e && Preferred(s[i..e])
  {
    var j := DateLabelSplit(s, i, e);
    var k := DateLabelAlt(s, i, j);
    DateLabelHeads(k);
    var w := DateLabelAlts[k][0].text;
    LitAtLower(s, i, w, DateIgnoreCase);
    assert s[i..e][..|w|] == s[i..i + |w|];
    HasKeywordExtend(w, s[i..e], PreferredKeys);
  }

  /** Every label DATE_PATTERN captures is preferred. */
  lemma DateMatchesPreferred(text: string)
    ensures forall j :: 0 <= j < |DateMatches(text)| ==> Preferred(DateMatches(text)[j].labelText)
  {
    var bs := FindAllSplit(DateParts, text, 0, DateIgnoreCase);
    forall j | 0 <= j < |bs| ensures Preferred(DateMatches(text)[j].labelText) {
      var b := bs[j];
      FirstSplitPart0(DateParts, text, b[0], DateIgnoreCase);
      DateLabelPreferred(text, b[0], b[1]);
    }
  }

  /**
   * The label preference never changes the outcome: the issue date is the first
   * candidate, in text order, whose date parses and is not in the future.
   */
  lemma IssueDateIsFirstAccepted(text: string, today: Date, parse: FreeDateParser)
    ensures var ms := DateMatches(text);
      Chosen(ms, today, parse) == IsoAt(ms, FirstAccepted(ms, today, parse), today, parse)
  {
    DateMatchesPreferred(text);
    ChosenWhenAllPreferred(DateMatches(text), today, parse);
  }

  /**
   * A chosen date is the ISO text of a real date no later than `today`, provided
   * the parser only ever yields real dates.
   */
  lemma ChosenIsPastIsoDate(ms: seq<DateMatch>, today: Date, parse: FreeDateParser)
    requires forall t :: parse(t).Some? ==> ValidDate(parse(t).value)
    requires Chosen(ms, today, parse).Some?
    ensures var iso := Chosen(ms, today, parse).value;
      ParseIso(iso).Some? && !After(ParseIso(iso).value, today) && FormatIso(ParseIso(iso).value) == iso
  {
    var k := if FirstPreferred(ms, today, parse).Some? then FirstPreferred(ms, today, parse).value
             else FirstAccepted(ms, today, parse).value;
    var d := AcceptedDate(ms[k], today, parse).value;
    assert parse(ms[k].candidate) == Some(d);
    ParseFormatIso(d);
  }
}
