/**
 * `extract_date` of sds_extractor.py: the issue or revision date of a sheet,
 * found by four strategies tried in turn — a labelled ISO date, the
 * label-priority selector of date_parser, seven labelled legacy patterns whose
 * candidates are tried four-digit-year first under thirteen formats (then as a
 * month and year), and the header scan of field_extractor_fixed. The date
 * library and today's date are parameters.
 */
module SdsExtractorDate {
  import opened Wrappers
  import opened Pattern
  import opened Config
  import opened Dates
  import DateParser
  import FieldExtractorFixed

  type DatePattern = FieldExtractorFixed.DatePattern
  type Strptime = FieldExtractorFixed.Strptime

  // ---- patterns ----

  /** Words joined by `\s*`. */
  function Tight(words: seq<string>): seq<Tok>
    requires words != []
  {
    if |words| == 1 then [Lit(words[0])] else [Lit(words[0]), Ws0] + Tight(words[1..])
  }

  /** `Issue\s*Date|Revision(?:\s*Date)?|Date\s*of\s*issue|Version\s*date|Date\s*Prepared|Prepared\s*on|Issued` */
  const IsoLabelAlts: seq<seq<Tok>> := [
    Tight(["Issue", "Date"]), [Lit("Revision"), Opt([Ws0, Lit("Date")])], Tight(["Date", "of", "issue"]),
    Tight(["Version", "date"]), Tight(["Date", "Prepared"]), Tight(["Prepared", "on"]), [Lit("Issued")]]

  /** The labels of the fast path followed by `MSDS\s*Date|SDS\s*Date|Last\s*Updated|...|Effective\s*Date`. */
  const LegacyLabelAlts: seq<seq<Tok>> := IsoLabelAlts + [
    Tight(["MSDS", "Date"]), Tight(["SDS", "Date"]), Tight(["Last", "Updated"]), Tight(["Last", "Revision"]),
    Tight(["Last", "Revised"]), Tight(["Updated", "on"]), Tight(["Last", "Modified"]), Tight(["Effective", "Date"])]

  /** The fast path, cut at its groups: label, `[^\n]{0,60}?`, `\d{4}-\d{2}-\d{2}` (IGNORECASE). */
  const FastParts: seq<seq<Tok>> :=
    [[AnyOf(IsoLabelAlts)], [Rep(NotNewline, 0, Some(60), true)], FieldExtractorFixed.IsoDateText]

  /** `[A-Za-z]+` */
  const Letters: Tok := Rep(AsciiLetter, 1, None, false)
  /** `\.?` */
  const MaybeDot: Tok := Maybe(Chars("."))
  /** `[\-\/\.]+` */
  const Separators: Tok := Rep(Chars("-/."), 1, None, false)

  /** `\d{1,2}[\-\/\.]+\d{1,2}[\-\/\.]+\d{2,4}` */
  const SeparatedDate: seq<Tok> :=
    [DigitsBetween(1, 2), Separators, DigitsBetween(1, 2), Separators, DigitsBetween(2, 4)]
  /** `[A-Za-z]+\.?\s+\d{1,2},?\s*\d{4}` */
  const MonthDayYear: seq<Tok> :=
    [Letters, MaybeDot, Ws1, DigitsBetween(1, 2), Maybe(Chars(",")), Ws0, DigitsBetween(4, 4)]
  /** `\d{1,2}\s+[A-Za-z]+\.?\s+\d{4}` */
  const DayMonthYear: seq<Tok> := [DigitsBetween(1, 2), Ws1, Letters, MaybeDot, Ws1, DigitsBetween(4, 4)]
  /** `\d{1,2}[\-\/.][A-Za-z]{3,}\.?[\-\/.]\d{2,4}` */
  const DayAbbrevYear: seq<Tok> :=
    [DigitsBetween(1, 2), One(Chars("-/.")), Rep(AsciiLetter, 3, None, false), MaybeDot, One(Chars("-/.")),
     DigitsBetween(2, 4)]
  /** `[A-Za-z]+\.?\s+\d{4}` */
  const MonthYearText: seq<Tok> := [Letters, MaybeDot, Ws1, DigitsBetween(4, 4)]
  /** `\d{1,2}\s+\w+\.?\s+\d{4}` */
  const DayWordYear: seq<Tok> :=
    [DigitsBetween(1, 2), Ws1, Rep(Cls([WordItem], false), 1, None, false), MaybeDot, Ws1, DigitsBetween(4, 4)]

  /** `(?:labels)[^\n]{0,40}?[:\-]?\s*` */
  const LabelLead: seq<Tok> := [AnyOf(LegacyLabelAlts), Rep(NotNewline, 0, Some(40), true), Maybe(Chars(":-")), Ws0]
  /** `Revision[:\s]*` */
  const RevisionLead: seq<Tok> := [Lit("Revision"), Rep(FieldExtractorFixed.ColonOrSpace, 0, None, false)]
  /** `REVISION\s+DATE[:\s]*` */
  const RevisionDateLead: seq<Tok> :=
    [Lit("REVISION"), Ws1, Lit("DATE"), Rep(FieldExtractorFixed.ColonOrSpace, 0, None, false)]

  /** The seven legacy patterns, each with its one captured group, in the order they are tried (IGNORECASE). */
  const LegacyPatterns: seq<DatePattern> := [
    FieldExtractorFixed.DatePattern(LabelLead,
      [AnyOf([SeparatedDate, FieldExtractorFixed.IsoDateText, MonthDayYear, DayMonthYear, DayAbbrevYear, MonthYearText])]),
    FieldExtractorFixed.DatePattern(RevisionLead, FieldExtractorFixed.IsoDateText),
    FieldExtractorFixed.DatePattern(RevisionLead, FieldExtractorFixed.NumericDateText),
    FieldExtractorFixed.DatePattern(RevisionLead, DayAbbrevYear),
    FieldExtractorFixed.DatePattern(RevisionDateLead, DayWordYear),
    FieldExtractorFixed.DatePattern(RevisionDateLead, FieldExtractorFixed.NumericDateText),
    FieldExtractorFixed.DatePattern(RevisionDateLead, DayAbbrevYear)]

  /** The formats tried on each cleaned candidate, in order. */
  const LegacyFormats: seq<string> := [
    "%d/%m/%Y", "%m/%d/%Y", "%Y-%m-%d", "%d-%m-%Y", "%d.%m.%Y", "%d %b %Y", "%d %B %Y",
    "%b %d %Y", "%B %d %Y", "%d-%b-%Y", "%d-%b-%y", "%d.%b.%Y", "%d.%b.%y"]

  /** The month-and-year formats, whose day is set to the first. */
  const MonthFormats: seq<string> := ["%b %Y", "%B %Y"]

  /** `re.sub(r'\b([A-Za-z]{3,})\.', r'\1', s)`: the dot after a word of three or more letters is dropped. */
  function AbbrevDotDropped(s: string): string {
    SubKeep([[WordBoundary], [Rep(AsciiLetter, 3, None, false)], [Lit(".")]], 1, s, 0, false)
  }

  /** `re.search(r"\b\d{4}\b", s)`: the candidate holds a four-digit year. */
  predicate HasFourDigitYear(s: string) {
    Found([WordBoundary, DigitsBetween(4, 4), WordBoundary], s, false)
  }

  /** `re.fullmatch(r'([A-Za-z]+)\s+(\d{4})', s)`: a month and a year only. */
  predicate IsMonthYear(s: string) {
    FullMatch([Letters, Ws1, DigitsBetween(4, 4)], s, false)
  }

  /**
   * What the date strategies are built from: the fast path's pattern, the
   * legacy patterns, both format lists, the candidate clean-up, the
   * year test and the month-and-year test.
   */
  datatype DateRules = DateRules(fast: seq<seq<Tok>>, pats: seq<DatePattern>, fmts: seq<string>, monthFmts: seq<string>,
                                 clean: string -> string, hasYear: string -> bool, monthYear: string -> bool)

  const SdsDateRules: DateRules :=
    DateRules(FastParts, LegacyPatterns, LegacyFormats, MonthFormats, AbbrevDotDropped, HasFourDigitYear, IsMonthYear)

  // ---- step 0: the labelled ISO date ----

  /** Group 2 of the first match of the fast-path pattern: the ISO date text as written. */
  function FastIso(fast: seq<seq<Tok>>, text: string): Option<string>
    requires |fast| == 3
  {
    match SearchSplit(fast, text, 0, true)
    case None => None
    case Some(b) => Some(Piece(text, b, 2))
  }

  // ---- step 1: date_parser ----

  /** `date_parser.extract_issue_date(text)`, None when `dateutil` is missing. */
  function Modular(text: string, today: Date, parse: DateParser.FreeDateParser, dateutilAvailable: bool): Option<string> {
    if dateutilAvailable then DateParser.Chosen(DateParser.DateMatches(text), today, parse) else None
  }

  // ---- step 2: the legacy patterns ----

  /** `re.findall(pattern, text, re.IGNORECASE)` for a pattern with one group: the captured texts in order. */
  function Captures(p: DatePattern, text: string): seq<string> {
    var bs := FindAllSplit([p.lead, p.date], text, 0, true);
    seq(|bs|, k requires 0 <= k < |bs| => Piece(text, bs[k], 1))
  }

  /** The elements whose test comes out as `want`, in their original order. */
  function Select(xs: seq<string>, test: string -> bool, want: bool): (r: seq<string>)
    ensures forall k :: 0 <= k < |r| ==> test(r[k]) == want
  {
    if xs == [] then []
    else (if test(xs[0]) == want then [xs[0]] else []) + Select(xs[1..], test, want)
  }

  /** `sorted(xs, key=lambda s: 0 if test(s) else 1)`: a stable sort on a two-valued key. */
  function StableSplit(xs: seq<string>, test: string -> bool): seq<string> {
    Select(xs, test, true) + Select(xs, test, false)
  }

  /** The sort key: 0 when the test holds, 1 otherwise. */
  function Key(s: string, test: string -> bool): nat {
    if test(s) then 0 else 1
  }

  /** The first month-and-year format that parses, with the day set to 1, when that date is not after `today`. */
  function FirstMonth(ds: string, fmts: seq<string>, today: Date, strptime: Strptime): Option<Date> {
    if fmts == [] then None
    else
      match strptime(ds, fmts[0])
      case Some(dt) =>
        var d := Date(dt.year, dt.month, 1);
        if After(d, today) then FirstMonth(ds, fmts[1..], today, strptime) else Some(d)
      case None => FirstMonth(ds, fmts[1..], today, strptime)
  }

  /** The date of one candidate: the full formats on the cleaned text, then, for a bare month and year, the month formats. */
  function CandidateDate(ds: string, rules: DateRules, today: Date, strptime: Strptime): Option<Date> {
    var c := rules.clean(ds);
    var d := FieldExtractorFixed.FirstFormat(c, rules.fmts, today, strptime);
    if d.Some? then d
    else if rules.monthYear(c) then FirstMonth(c, rules.monthFmts, today, strptime)
    else None
  }

  /** The date of the first candidate that has one. */
  function FirstCandidate(cs: seq<string>, rules: DateRules, today: Date, strptime: Strptime): Option<Date> {
    if cs == [] then None
    else
      var d := CandidateDate(cs[0], rules, today, strptime);
      if d.Some? then d else FirstCandidate(cs[1..], rules, today, strptime)
  }

  /** The candidates of legacy pattern `n`, four-digit years first. */
  function Ordered(text: string, rules: DateRules, n: nat): seq<string>
    requires n < |rules.pats|
  {
    StableSplit(Captures(rules.pats[n], text), rules.hasYear)
  }

  /** The ordered candidates of every legacy pattern. */
  function Groups(text: string, rules: DateRules): (r: seq<seq<string>>)
    ensures |r| == |rules.pats|
  {
    seq(|rules.pats|, n requires 0 <= n < |rules.pats| => Ordered(text, rules, n))
  }

  /** The candidate lists from `n` on: the first list with a candidate that has a date decides. */
  function LegacyFrom(groups: seq<seq<string>>, n: nat, rules: DateRules, today: Date, strptime: Strptime)
    : Option<string>
    decreases |groups| - n
  {
    if n >= |groups| then None
    else
      match FirstCandidate(groups[n], rules, today, strptime)
      case Some(d) => Some(FormatIso(d))
      case None => LegacyFrom(groups, n + 1, rules, today, strptime)
  }

  /** The legacy patterns in turn. */
  function Legacy(text: string, rules: DateRules, today: Date, strptime: Strptime): Option<string> {
    LegacyFrom(Groups(text, rules), 0, rules, today, strptime)
  }

  // ---- the strategies in turn ----

  function DateWith(text: string, rules: DateRules, today: Date, strptime: Strptime,
                    parse: DateParser.FreeDateParser, dateutilAvailable: bool): Option<string>
    requires |rules.fast| == 3
  {
    var fast := FastIso(rules.fast, text);
    if fast.Some? then fast
    else
      var modular := Modular(text, today, parse, dateutilAvailable);
      if modular.Some? then modular
      else
        var legacy := Legacy(text, rules, today, strptime);
        if legacy.Some? then legacy else FieldExtractorFixed.HeaderDate(text, today, strptime)
  }

  /**
   * `extract_date(text)`. `strptime` stands for `datetime.strptime(...).date()`,
   * `parse` for `dateutil.parser.parse`, `today` for `date.today()`, and
   * `dateutilAvailable` for whether `dateutil` can be imported.
   */
  function ExtractDate(text: string, today: Date, strptime: Strptime, parse: DateParser.FreeDateParser,
                       dateutilAvailable: bool): Option<string>
  {
    DateWith(text, SdsDateRules, today, strptime, parse, dateutilAvailable)
  }

  // ---- the loops ----

  method FirstMonthAt(ds: string, fmts: seq<string>, today: Date, strptime: Strptime) returns (r: Option<Date>)
    ensures r == FirstMonth(ds, fmts, today, strptime)
  {
    var n := 0;
    while n < |fmts|
      invariant 0 <= n <= |fmts|
      invariant FirstMonth(ds, fmts[n..], today, strptime) == FirstMonth(ds, fmts, today, strptime)
    {
      assert fmts[n..][1..] == fmts[n + 1..];
      var dt := strptime(ds, fmts[n]);
      if dt.Some? {
        var d := Date(dt.value.year, dt.value.month, 1);
        if !After(d, today) {
          return Some(d);
        }
      }
      n := n + 1;
    }
    return None;
  }

  method CandidateDateAt(ds: string, rules: DateRules, today: Date, strptime: Strptime) returns (r: Option<Date>)
    ensures r == CandidateDate(ds, rules, today, strptime)
  {
    var c := rules.clean(ds);
    r := FieldExtractorFixed.FirstFormatAt(c, rules.fmts, today, strptime);
    if r.None? && rules.monthYear(c) {
      r := FirstMonthAt(c, rules.monthFmts, today, strptime);
    }
  }

  /** The loop over one pattern's ordered candidates. */
  method FirstCandidateAt(cs: seq<string>, rules: DateRules, today: Date, strptime: Strptime) returns (r: Option<Date>)
    ensures r == FirstCandidate(cs, rules, today, strptime)
  {
    var n := 0;
    while n < |cs|
      invariant 0 <= n <= |cs|
      invariant FirstCandidate(cs[n..], rules, today, strptime) == FirstCandidate(cs, rules, today, strptime)
    {
      assert cs[n..][1..] == cs[n + 1..];
      var d := CandidateDateAt(cs[n], rules, today, strptime);
      if d.Some? {
        return d;
      }
      n := n + 1;
    }
    return None;
  }

  /** The loop over the legacy patterns. */
  method LegacyScan(text: string, rules: DateRules, today: Date, strptime: Strptime) returns (r: Option<string>)
    ensures r == Legacy(text, rules, today, strptime)
  {
    ghost var groups := Groups(text, rules);
    var n := 0;
    while n < |rules.pats|
      invariant 0 <= n <= |rules.pats|
      invariant LegacyFrom(groups, n, rules, today, strptime) == LegacyFrom(groups, 0, rules, today, strptime)
    {
      var cs := Ordered(text, rules, n);
      assert cs == groups[n];
      var d := FirstCandidateAt(cs, rules, today, strptime);
      if d.Some? {
        return Some(FormatIso(d.value));
      }
      n := n + 1;
    }
    return None;
  }

  method ExtractDateWith(text: string, rules: DateRules, today: Date, strptime: Strptime,
                         parse: DateParser.FreeDateParser, dateutilAvailable: bool) returns (r: Option<string>)
    requires |rules.fast| == 3
    ensures r == DateWith(text, rules, today, strptime, parse, dateutilAvailable)
  {
    r := FastIso(rules.fast, text);
    if r.Some? {
      return;
    }
    r := DateParser.ExtractIssueDate(text, today, parse, dateutilAvailable);
    if r.Some? {
      return;
    }
    r := LegacyScan(text, rules, today, strptime);
    if r.Some? {
      return;
    }
    r := FieldExtractorFixed.ExtractDateFromHeader(text, today, strptime);
  }

  method ExtractDateAt(text: string, today: Date, strptime: Strptime, parse: DateParser.FreeDateParser,
                       dateutilAvailable: bool) returns (r: Option<string>)
    ensures r == ExtractDate(text, today, strptime, parse, dateutilAvailable)
  {
    r := ExtractDateWith(text, SdsDateRules, today, strptime, parse, dateutilAvailable);
  }

  // ---- properties ----

  /** Splitting by a test keeps every element: the result is a permutation of the input. */
  lemma {:induction false} SelectPermutes(xs: seq<string>, test: string -> bool)
    ensures multiset(Select(xs, test, true)) + multiset(Select(xs, test, false)) == multiset(xs)
  {
    if xs != [] {
      SelectPermutes(xs[1..], test);
      assert xs == [xs[0]] + xs[1..];
    }
  }

  /**
   * The candidate order is a permutation of the matches, sorted by the key:
   * no candidate without a four-digit year comes before one with it.
   */
  lemma StableSplitSorted(xs: seq<string>, test: string -> bool)
    ensures multiset(StableSplit(xs, test)) == multiset(xs)
    ensures var r := StableSplit(xs, test);
      forall i, j :: 0 <= i < j < |r| ==> Key(r[i], test) <= Key(r[j], test)
  {
    SelectPermutes(xs, test);
    var a := Select(xs, test, true);
    var r := StableSplit(xs, test);
    assert forall i :: 0 <= i < |r| ==> (i < |a| <==> test(r[i]));
  }

  /** Every element is selected by exactly one of the two outcomes. */
  lemma {:induction false} SelectAll(xs: seq<string>, test: string -> bool)
    requires forall k :: 0 <= k < |xs| ==> test(xs[k])
    ensures Select(xs, test, true) == xs && Select(xs, test, false) == []
  {
    if xs != [] {
      SelectAll(xs[1..], test);
      assert xs == [xs[0]] + xs[1..];
    }
  }

  /** When every candidate holds a four-digit year, their order is the order of the text. */
  lemma StableSplitUnchanged(xs: seq<string>, test: string -> bool)
    requires forall k :: 0 <= k < |xs| ==> test(xs[k])
    ensures StableSplit(xs, test) == xs
  {
    SelectAll(xs, test);
  }

  /** The first month-and-year date is the first of its month, parsed under one of the formats, not after `today`. */
  lemma {:induction false} FirstMonthSource(ds: string, fmts: seq<string>, today: Date, strptime: Strptime)
    returns (f: nat)
    requires FirstMonth(ds, fmts, today, strptime).Some?
    ensures f < |fmts| && strptime(ds, fmts[f]).Some?
    ensures var dt := strptime(ds, fmts[f]).value;
      FirstMonth(ds, fmts, today, strptime) == Some(Date(dt.year, dt.month, 1))
    ensures !After(FirstMonth(ds, fmts, today, strptime).value, today)
  {
    var dt := strptime(ds, fmts[0]);
    if dt.Some? && !After(Date(dt.value.year, dt.value.month, 1), today) {
      f := 0;
    } else {
      f := FirstMonthSource(ds, fmts[1..], today, strptime);
      f := f + 1;
    }
  }

  /**
   * A candidate's date comes from the cleaned candidate: parsed under one of
   * the full formats, or, when the cleaned text is a bare month and year, the
   * first day of the month it names; and it is never after `today`.
   */
  lemma CandidateDateSource(ds: string, rules: DateRules, today: Date, strptime: Strptime)
    returns (byMonth: bool, f: nat)
    requires CandidateDate(ds, rules, today, strptime).Some?
    ensures var c := rules.clean(ds); var d := CandidateDate(ds, rules, today, strptime).value;
      && (!byMonth ==> f < |rules.fmts| && strptime(c, rules.fmts[f]) == Some(d))
      && (byMonth ==> (f < |rules.monthFmts| && rules.monthYear(c) && strptime(c, rules.monthFmts[f]).Some?
                       && d == Date(strptime(c, rules.monthFmts[f]).value.year,
                                    strptime(c, rules.monthFmts[f]).value.month, 1)))
      && !After(d, today)
  {
    var c := rules.clean(ds);
    if FieldExtractorFixed.FirstFormat(c, rules.fmts, today, strptime).Some? {
      byMonth := false;
      f := FieldExtractorFixed.FirstFormatSource(c, rules.fmts, today, strptime);
    } else {
      byMonth := true;
      f := FirstMonthSource(c, rules.monthFmts, today, strptime);
    }
  }

  /** No candidate's date is after `today`. */
  lemma CandidateNotFuture(ds: string, rules: DateRules, today: Date, strptime: Strptime)
    requires CandidateDate(ds, rules, today, strptime).Some?
    ensures !After(CandidateDate(ds, rules, today, strptime).value, today)
  {
    var byMonth, f := CandidateDateSource(ds, rules, today, strptime);
  }

  /** The first candidate with a date is candidate `h`; no earlier candidate has one. */
  lemma {:induction false} FirstCandidateSource(cs: seq<string>, rules: DateRules, today: Date, strptime: Strptime)
    returns (h: nat)
    requires FirstCandidate(cs, rules, today, strptime).Some?
    ensures h < |cs| && CandidateDate(cs[h], rules, today, strptime) == FirstCandidate(cs, rules, today, strptime)
    ensures forall x :: 0 <= x < h ==> CandidateDate(cs[x], rules, today, strptime).None?
  {
    if CandidateDate(cs[0], rules, today, strptime).Some? {
      h := 0;
    } else {
      h := FirstCandidateSource(cs[1..], rules, today, strptime);
      assert forall x :: 1 <= x <= h ==> cs[x] == cs[1..][x - 1];
      h := h + 1;
    }
  }

  /**
   * A legacy date is the ISO text of the date of candidate `h` of list `p`,
   * that date is not after `today`, and no earlier list had a candidate with a
   * date.
   */
  lemma {:induction false} LegacyFromSource(groups: seq<seq<string>>, n: nat, rules: DateRules, today: Date,
                                            strptime: Strptime) returns (p: nat, h: nat, d: Date)
    requires LegacyFrom(groups, n, rules, today, strptime).Some?
    ensures n <= p < |groups| && h < |groups[p]|
    ensures CandidateDate(groups[p][h], rules, today, strptime) == Some(d)
    ensures LegacyFrom(groups, n, rules, today, strptime) == Some(FormatIso(d)) && !After(d, today)
    ensures forall q :: n <= q < p ==> FirstCandidate(groups[q], rules, today, strptime).None?
    decreases |groups| - n
  {
    if FirstCandidate(groups[n], rules, today, strptime).Some? {
      p := n;
      h := FirstCandidateSource(groups[n], rules, today, strptime);
      d := FirstCandidate(groups[n], rules, today, strptime).value;
      CandidateNotFuture(groups[n][h], rules, today, strptime);
    } else {
      p, h, d := LegacyFromSource(groups, n + 1, rules, today, strptime);
    }
  }

  /**
   * A legacy date is the ISO text of the date of candidate `h`, in year-first
   * order, of pattern `p`; that date is not after `today`, and no earlier
   * pattern had a candidate with a date.
   */
  lemma LegacySource(text: string, rules: DateRules, today: Date, strptime: Strptime) returns (p: nat, h: nat, d: Date)
    requires Legacy(text, rules, today, strptime).Some?
    ensures p < |rules.pats| && h < |Ordered(text, rules, p)|
    ensures CandidateDate(Ordered(text, rules, p)[h], rules, today, strptime) == Some(d)
    ensures Legacy(text, rules, today, strptime) == Some(FormatIso(d)) && !After(d, today)
    ensures forall q :: 0 <= q < p ==> FirstCandidate(Ordered(text, rules, q), rules, today, strptime).None?
  {
    var groups := Groups(text, rules);
    p, h, d := LegacyFromSource(groups, 0, rules, today, strptime);
    assert forall q :: 0 <= q < |groups| ==> groups[q] == Ordered(text, rules, q);
  }

  /** The date_parser step yields the ISO text of a date that is not after `today`. */
  lemma ModularSource(text: string, today: Date, parse: DateParser.FreeDateParser, dateutilAvailable: bool)
    returns (d: Date)
    requires Modular(text, today, parse, dateutilAvailable).Some?
    ensures Modular(text, today, parse, dateutilAvailable) == Some(FormatIso(d)) && !After(d, today)
  {
    var ms := DateParser.DateMatches(text);
    var k := if DateParser.FirstPreferred(ms, today, parse).Some? then DateParser.FirstPreferred(ms, today, parse)
             else DateParser.FirstAccepted(ms, today, parse);
    d := DateParser.AcceptedDate(ms[k.value], today, parse).value;
  }

  /**
   * Apart from the labelled ISO fast path, every date `extract_date` returns is
   * the ISO text of a date that is not after `today`.
   */
  lemma DateNotFuture(text: string, rules: DateRules, today: Date, strptime: Strptime,
                      parse: DateParser.FreeDateParser, dateutilAvailable: bool) returns (d: Date)
    requires |rules.fast| == 3 && FastIso(rules.fast, text).None?
    requires DateWith(text, rules, today, strptime, parse, dateutilAvailable).Some?
    ensures DateWith(text, rules, today, strptime, parse, dateutilAvailable) == Some(FormatIso(d))
    ensures !After(d, today)
  {
    if Modular(text, today, parse, dateutilAvailable).Some? {
      d := ModularSource(text, today, parse, dateutilAvailable);
    } else if Legacy(text, rules, today, strptime).Some? {
      var p, h;
      p, h, d := LegacySource(text, rules, today, strptime);
    } else {
      d := FieldExtractorFixed.HeaderDateNotFuture(text, today, strptime);
    }
  }

  /**
   * A labelled ISO date is returned as written, whatever `today` is: the fast
   * path does not reject a future date.
   */
  lemma FastPathIgnoresToday(text: string, rules: DateRules, today: Date, later: Date, strptime: Strptime,
                             parse: DateParser.FreeDateParser, dateutilAvailable: bool)
    requires |rules.fast| == 3 && FastIso(rules.fast, text).Some?
    ensures DateWith(text, rules, today, strptime, parse, dateutilAvailable)
         == DateWith(text, rules, later, strptime, parse, dateutilAvailable)
  {
  }
}
