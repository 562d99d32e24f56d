/**
 * sds_extractor.py: the orchestrating extractor. It has its own noise test, DG
 * class validator and section locator, a line-by-line label scan, table scans
 * for section 14, layered product-name / manufacturer / date strategies, and
 * `parse_pdf`, which assembles the result record from already extracted text.
 */
module SdsExtractor {
  import opened Wrappers
  import opened Text
  import opened Pattern
  import opened PatternLaws
  import opened Config
  import opened Scan
  import opened Dates
  import Utils
  import FieldExtractor
  import FieldExtractorFixed
  import Section1
  import DateParser

  // ---- is_noise_text ----

  /** `^\d(?:\.\d)?$`: the short numbers a one-character value may be. */
  const ShortNumber: seq<Tok> := [Bol(false), One(Digit), Opt([Lit("."), One(Digit)]), Eol(false)]

  /** The noise patterns, each tried with `re.match` ignoring case on the stripped text. */
  const NoisePatterns: seq<seq<Tok>> := [
    [Bol(false), Lit("MSDS"), Ws1, Lit("Date"), Eol(false)],
    [Bol(false), Lit("Alternative"), Ws1, Lit("number(s)"), Eol(false)],
    [Bol(false), Lit("Facsimile"), Ws1, Lit("Number"), Eol(false)],
    [Bol(false), Lit("safety"), Ws1, Lit("data"), Ws1, Lit("sheet"), Eol(false)],
    [Bol(false), Lit("Name"), Eol(false)],
    [Bol(false), Lit("Registered"), Ws1, Lit("company"), Ws1, Lit("name"), Eol(false)],
    [Bol(false), Lit(":"), Eol(false)],
    [Bol(false), One(Chars("’'`´")), Lit("s"), Eol(false)],
    [Bol(false), Lit("UK"), Maybe(Chars(",")), Ws1, Lit("NPIS"), AnyRun,
      DigitsBetween(2, 4), Ws1, DigitsBetween(2, 4), Ws1, DigitsBetween(2, 4)],
    [Bol(false), Lit("Australia"), Ws1, Lit("-"), Ws1, DigitsBetween(2, 4), Ws1, DigitsBetween(2, 4), Ws1, DigitsBetween(2, 4)],
    [Bol(false), DigitsBetween(2, 4), One(Utils.DashOrSpace), DigitsBetween(2, 4), One(Utils.DashOrSpace), DigitsBetween(2, 4)],
    [Bol(false), Lit("Emergency"), Ws1, Lit("telephone")],
    [Bol(false), Lit("Contact"), Ws1, Lit("details")],
    [Bol(false), Lit("Details"), Ws1, Lit("of"), Ws1, Lit("the"), Ws1, Lit("supplier"), Eol(false)],
    [Bol(false), Lit("Telephone")],
    [Bol(false), Lit("Phone")],
    [Bol(false), Lit("Fax")],
    [Bol(false), Lit("Email")],
    [Bol(false), Lit("Address")],
    [Bol(false), Lit("Website")],
    [Bol(false), Lit("Emergency"), Ws1, Lit("Telephone"), Ws1, Lit("Number"), Eol(false)],
    [Bol(false), Lit("Company"), Maybe(Chars(":.")), Ws0, Eol(false)],
    [Bol(false), Lit("Company"), Ws1, Lit("No"), Maybe(Chars(".")), Maybe(Chars(":.")), Ws0, Eol(false)],
    [Bol(false), Lit("Other"), Ws1, Lit("Name(s)"), Eol(false)],
    [Bol(false), Lit("Formulation"), Ws1, Lit("#"), Eol(false)],
    [Bol(false), Lit("Registration"), Ws1, Lit("no"), Maybe(Chars(".")), Ws0, Maybe(Chars("–")), Ws0, Lit("US"),
      Maybe(Chars(":")), Ws0, Eol(false)],
    [Bol(false), Lit("Group"), Eol(false)],
    [Bol(false), Lit("Synonyms")],
    [Bol(false), Lit("Product"), Ws1, Lit("Code")],
    [Bol(false), Lit("HS"), Ws1, Lit("Code")],
    [Bol(false), Lit("-"), Ws0, Lit("-"), Eol(false)]]

  /**
   * `is_noise_text`: empty or blank text, a single character that is not a
   * digit, or a stripped text that one of the noise patterns matches at its start.
   */
  predicate IsNoiseText(text: string) {
    var t := Strip(text);
    t == [] || (|t| < 2 && !MatchesAt(ShortNumber, t, 0, false)) || AnyMatchesAt(NoisePatterns, t, true)
  }

  /** `^\d(?:\.\d)?$` accepts a one-character text exactly when it is a digit. */
  lemma ShortNumberOneChar(t: string)
    requires |t| == 1
    ensures MatchesAt(ShortNumber, t, 0, false) <==> IsDigit(t[0])
  {
    var q := [One(Digit), Opt([Lit("."), One(Digit)]), Eol(false)];
    assert ShortNumber[1..] == q;
    assert Ends(ShortNumber, t, 0, false) == Ends(q, t, 0, false);
    DigitClass(t[0]);
    if IsDigit(t[0]) {
      assert Run(Digit, t, 1, Some(0), false) == 0;
      assert Run(Digit, t, 0, Some(1), false) == 1;
      assert Counts(0, 1, 1, false) == [1];
      EndsEachOne(q[1..], t, 0, 1, false);
      assert q[1..] == [Opt([Lit("."), One(Digit)])] + [Eol(false)];
      OptThen([Lit("."), One(Digit)], [Eol(false)], t, 1, false);
      EndsEol(t, 1, false);
      assert Ends([Eol(false)], t, 1, false) == [1];
    } else {
      assert Run(Digit, t, 0, Some(1), false) == 0;
    }
  }

  /** How a noise pattern starts: with a literal that is not a digit, an apostrophe class, or at least two digits. */
  predicate OpensAwayFromDigit(p: seq<Tok>) {
    |p| >= 2 && p[0] == Bol(false) &&
    ((p[1].Lit? && p[1].text != [] && !IsDigit(p[1].text[0]))
     || p[1] == One(Chars("’'`´"))
     || p[1] == DigitsBetween(2, 4))
  }

  /** Text that starts with a digit not followed by another digit. */
  predicate DigitLed(t: string) {
    t != [] && IsDigit(t[0]) && (|t| == 1 || !IsDigit(t[1]))
  }

  /** Under IGNORECASE a digit is still only in the classes that hold it. */
  lemma DigitInClassIgnoringCase(cls: Cls, c: char)
    requires IsDigit(c)
    ensures InClass(cls, c, true) == InClass(cls, c, false)
  {
  }

  /** Neither `\d` nor its case variants hold a character that is not a digit. */
  lemma NonDigitNotDigitClass(c: char)
    requires !IsDigit(c)
    ensures !InClass(Digit, c, true)
  {
    DigitClass(c);
    DigitClass(ToLower(c));
    DigitClass(ToUpper(c));
  }

  /** The apostrophe class holds no digit. */
  lemma QuotesHoldNoDigit(c: char)
    requires IsDigit(c)
    ensures !InClass(Chars("’'`´"), c, true)
  {
    CharsHave("’'`´", c);
  }

  /** Lower-casing does not turn a non-digit into a digit. */
  lemma LowerKeepsNonDigit(c: char)
    requires !IsDigit(c)
    ensures !IsDigit(ToLower(c))
  {
  }

  /** A pattern that opens away from digits does not match text led by a lone digit. */
  lemma DigitLedMisses(p: seq<Tok>, t: string)
    requires OpensAwayFromDigit(p) && DigitLed(t)
    ensures !MatchesAt(p, t, 0, true)
  {
    assert Ends(p, t, 0, true) == Ends(p[1..], t, 0, true);
    if p[1].Lit? {
      var w := p[1].text;
      assert p[1..] == [Lit(w)] + p[2..];
      LowerKeepsNonDigit(w[0]);
    } else if p[1] == One(Chars("’'`´")) {
      QuotesHoldNoDigit(t[0]);
      assert Run(Chars("’'`´"), t, 0, Some(1), true) == 0;
    } else {
      DigitClass(t[0]);
      if |t| > 1 {
        NonDigitNotDigitClass(t[1]);
      }
      assert Run(Digit, t, 1, Some(3), true) == 0;
      assert Run(Digit, t, 0, Some(4), true) == 1;
    }
  }

  lemma NoisePatternsOpenAwayFromDigits()
    ensures forall k :: 0 <= k < |NoisePatterns| ==> OpensAwayFromDigit(NoisePatterns[k])
  {
  }

  /** No noise pattern matches text led by a lone digit. */
  lemma DigitLedQuiet(t: string)
    requires DigitLed(t)
    ensures !AnyMatchesAt(NoisePatterns, t, true)
  {
    NoisePatternsOpenAwayFromDigits();
    forall k | 0 <= k < |NoisePatterns|
      ensures !MatchesAt(NoisePatterns[k], t, 0, true)
    {
      DigitLedMisses(NoisePatterns[k], t);
    }
    AnyMatchesAtSome(NoisePatterns, t, true);
  }

  /** A one-character value is noise exactly when it is not a digit: "9" is kept, ":" is rejected. */
  lemma OneCharNoise(text: string)
    requires |Strip(text)| == 1
    ensures IsNoiseText(text) <==> !IsDigit(Strip(text)[0])
  {
    var t := Strip(text);
    ShortNumberOneChar(t);
    if IsDigit(t[0]) {
      DigitLedQuiet(t);
    }
  }

  /** The two noise tests disagree on a lone digit: modules/utils.py rejects "9", this one keeps it. */
  lemma LoneDigitVerdicts(text: string)
    requires |Strip(text)| == 1 && IsDigit(Strip(text)[0])
    ensures Utils.IsNoiseText(text) && !IsNoiseText(text)
  {
    OneCharNoise(text);
  }

  /** A division number such as "2.1" is not noise. */
  lemma DivisionNotNoise(text: string)
    requires var t := Strip(text); |t| == 3 && IsDigit(t[0]) && t[1] == '.' && IsDigit(t[2])
    ensures !IsNoiseText(text)
  {
    DigitLedQuiet(Strip(text));
  }

  // ---- dedup_repeated_phrase ----

  /** `re.sub(r"\s+", " ", s)`: every maximal run of whitespace becomes one space. */
  function CollapseSpace(s: string): (r: string)
    ensures r == [] <==> s == []
    ensures r != [] ==> (IsSpace(r[0]) <==> IsSpace(s[0]))
    decreases |s|
  {
    if s == [] then []
    else if IsSpace(s[0]) then [' '] + CollapseSpace(LStrip(s[1..]))
    else [s[0]] + CollapseSpace(s[1..])
  }

  /** Position `k` holds no whitespace, or a plain space followed by a non-space or the end. */
  predicate SpacedAt(r: string, k: nat)
    requires k < |r|
  {
    IsSpace(r[k]) ==> r[k] == ' ' && (k + 1 == |r| || !IsSpace(r[k + 1]))
  }

  /** Every whitespace character is a single plain space. */
  predicate SingleSpaced(r: string) {
    forall k :: 0 <= k < |r| ==> SpacedAt(r, k)
  }

  /** Whitespace-normalised text: single plain spaces, only between words. */
  predicate Collapsed(c: string) {
    SingleSpaced(c) && (c == [] || (!IsSpace(c[0]) && !IsSpace(c[|c| - 1])))
  }

  /** The normalised form `dedup_repeated_phrase` works on. */
  function Cleaned(value: string): string {
    Strip(CollapseSpace(value))
  }

  /** A normalised text that is some phrase, one space and the same phrase again. */
  predicate Doubled(c: string) {
    var h := |c| / 2;
    |c| % 2 == 1 && h >= 1 && c[h] == ' ' && c[..h] == c[h + 1..]
  }

  /**
   * `dedup_repeated_phrase`. On normalised text the pattern `^(.+?)\s+(?P=p)$`
   * can only split at the middle space, so it is stated as `Doubled` (see
   * RepeatIsDoubled and DoubledRepeats).
   */
  function DedupRepeatedPhrase(value: string): string {
    if value == [] then value else Halved(Cleaned(value))
  }

  /** The first copy of a doubled text; any other text as it is. */
  function Halved(c: string): string {
    if Doubled(c) then c[..|c| / 2] else c
  }

  /** The meaning of `^(?P<p>.+?)\s+(?P=p)$` with group `p` of length `n` and `m` separating blanks. */
  predicate RepeatAt(c: string, n: nat, m: nat) {
    1 <= n && 1 <= m && n + m <= |c|
    && (forall k :: 0 <= k < n ==> c[k] != '\n')
    && (forall k :: n <= k < n + m ==> IsSpace(c[k]))
    && c[n + m..] == c[..n]
  }

  /** Putting a character in front shifts every position by one. */
  lemma SpacedCons(c: char, t: string, k: nat)
    requires 1 <= k < |t| + 1 && SpacedAt(t, k - 1)
    ensures SpacedAt([c] + t, k)
  {
    var r := [c] + t;
    assert r[k] == t[k - 1];
    if k < |t| {
      assert r[k + 1] == t[k];
    }
  }

  /** The collapsed text is single-spaced. */
  lemma {:induction false} CollapseSingleSpaced(s: string)
    ensures SingleSpaced(CollapseSpace(s))
    decreases |s|
  {
    if s != [] {
      var t := if IsSpace(s[0]) then LStrip(s[1..]) else s[1..];
      var c := if IsSpace(s[0]) then ' ' else s[0];
      CollapseSingleSpaced(t);
      var r := CollapseSpace(s);
      assert r == [c] + CollapseSpace(t);
      forall k | 0 <= k < |r|
        ensures SpacedAt(r, k)
      {
        if k == 0 {
          if IsSpace(c) && |r| > 1 {
            assert r[1] == CollapseSpace(t)[0];
          }
        } else {
          SpacedCons(c, CollapseSpace(t), k);
        }
      }
    }
  }

  /** A slice of single-spaced text is single-spaced. */
  lemma SingleSpacedSlice(r: string, i: nat, j: nat)
    requires SingleSpaced(r) && i <= j <= |r|
    ensures SingleSpaced(r[i..j])
  {
    var t := r[i..j];
    forall k | 0 <= k < |t|
      ensures SpacedAt(t, k)
    {
      assert SpacedAt(r, i + k);
      assert t[k] == r[i + k];
      if k + 1 < |t| {
        assert t[k + 1] == r[i + k + 1];
      }
    }
  }

  /** The normalised text has single plain spaces between words. */
  lemma CleanedCollapsed(value: string)
    ensures Collapsed(Cleaned(value))
  {
    var r := CollapseSpace(value);
    CollapseSingleSpaced(value);
    var i, j := StripSlice(r);
    SingleSpacedSlice(r, i, j);
    StripEnds(r);
  }

  /** On normalised text the repeated-phrase pattern matches only at the middle space. */
  lemma RepeatIsDoubled(c: string, n: nat, m: nat)
    requires Collapsed(c) && RepeatAt(c, n, m)
    ensures m == 1 && n == |c| / 2 && Doubled(c)
  {
    assert SpacedAt(c, n);
    assert |c[n + m..]| == |c[..n]|;
  }

  /** A doubled normalised text does match the repeated-phrase pattern. */
  lemma DoubledRepeats(c: string)
    requires Collapsed(c) && Doubled(c)
    ensures RepeatAt(c, |c| / 2, 1)
  {
    var h := |c| / 2;
    forall k | 0 <= k < h
      ensures c[k] != '\n'
    {
      assert SpacedAt(c, k);
    }
  }

  /** Normalised text is its own normal form. */
  lemma {:induction false} CollapseKeeps(x: string)
    requires SingleSpaced(x)
    ensures CollapseSpace(x) == x
    decreases |x|
  {
    if x != [] {
      var t := x[1..];
      SingleSpacedTail(x);
      CollapseKeeps(t);
      if IsSpace(x[0]) {
        NoSpaceAfterSpace(x);
        CollapseAtSpace(x);
      } else {
        CollapseAtWord(x);
      }
      assert x == [x[0]] + t;
    }
  }

  lemma CollapseAtSpace(x: string)
    requires x != [] && IsSpace(x[0])
    ensures CollapseSpace(x) == [' '] + CollapseSpace(LStrip(x[1..]))
  {
  }

  lemma CollapseAtWord(x: string)
    requires x != [] && !IsSpace(x[0])
    ensures CollapseSpace(x) == [x[0]] + CollapseSpace(x[1..])
  {
  }

  lemma SingleSpacedTail(x: string)
    requires SingleSpaced(x) && x != []
    ensures SingleSpaced(x[1..])
  {
    SingleSpacedSlice(x, 1, |x|);
    assert x[1..|x|] == x[1..];
  }

  /** In single-spaced text a space is a plain space, and what follows it does not start with whitespace. */
  lemma NoSpaceAfterSpace(x: string)
    requires SingleSpaced(x) && x != [] && IsSpace(x[0])
    ensures x[0] == ' ' && LStrip(x[1..]) == x[1..]
  {
    assert SpacedAt(x, 0);
    if |x| > 1 {
      assert x[1..][0] == x[1];
    }
  }

  /** The dedup result of a non-empty value is normalised text. */
  lemma DedupCollapsed(value: string)
    requires value != []
    ensures Collapsed(DedupRepeatedPhrase(value))
  {
    CleanedCollapsed(value);
    var c := Cleaned(value);
    if Doubled(c) {
      HalfCollapsed(c);
    }
  }

  /** The first half of a doubled normalised text is normalised. */
  lemma HalfCollapsed(c: string)
    requires Collapsed(c) && Doubled(c)
    ensures Collapsed(c[..|c| / 2])
  {
    var h := |c| / 2;
    SingleSpacedSlice(c, 0, h);
    assert c[0..h] == c[..h];
    assert SpacedAt(c, h - 1);
  }

  /** Two normalised phrases joined by one space are single-spaced. */
  lemma JoinedSpaced(p: string, q: string)
    requires p != [] && q != [] && Collapsed(p) && Collapsed(q)
    ensures SingleSpaced(p + " " + q)
  {
    var x := p + " " + q;
    var h := |p|;
    forall k | 0 <= k < |x|
      ensures SpacedAt(x, k)
    {
      if k < h {
        assert SpacedAt(p, k);
        assert x[k] == p[k];
        if k + 1 < h {
          assert x[k + 1] == p[k + 1];
        }
      } else if k > h {
        assert SpacedAt(q, k - h - 1);
        assert x[k] == q[k - h - 1];
        if k + 1 < |x| {
          assert x[k + 1] == q[k - h];
        }
      } else {
        assert x[k + 1] == q[0];
      }
    }
  }

  /** A normalised phrase written twice with one space between is already normalised. */
  lemma CleanedJoined(p: string)
    requires p != [] && Collapsed(p)
    ensures Cleaned(p + " " + p) == p + " " + p
  {
    var x := p + " " + p;
    JoinedSpaced(p, p);
    CollapseKeeps(x);
    assert x[0] == p[0] && x[|x| - 1] == p[|p| - 1];
    StripUnpadded(x);
  }

  lemma HalvedJoined(p: string)
    requires p != []
    ensures Halved(p + " " + p) == p
  {
    var x := p + " " + p;
    var h := |p|;
    assert |x| / 2 == h && x[h] == ' ';
    assert x[..h] == p && x[h + 1..] == p;
  }

  /** A normalised phrase written twice with one space between collapses to the phrase. */
  lemma DedupDoubled(p: string)
    requires p != [] && Collapsed(p)
    ensures DedupRepeatedPhrase(p + " " + p) == p
  {
    CleanedJoined(p);
    HalvedJoined(p);
  }

  // ---- strip_leading_label_prefix ----

  /** The five leading labels, each with an optional colon or dash, removed in turn ignoring case. */
  const LabelPrefixes: seq<seq<Tok>> := [
    [Bol(false)] + Phrase(["product", "identifier"]) + [Ws0, Maybe(FieldExtractor.ColonOrDash), Ws0],
    [Bol(false)] + Phrase(["product", "name"]) + [Ws0, Maybe(FieldExtractor.ColonOrDash), Ws0],
    [Bol(false)] + Phrase(["trade", "name"]) + [Ws0, Maybe(FieldExtractor.ColonOrDash), Ws0],
    [Bol(false)] + Phrase(["commercial", "product", "name"]) + [Ws0, Maybe(FieldExtractor.ColonOrDash), Ws0],
    [Bol(false), AnyOf([
      [Lit("manufacturer")], Phrase(["supplier", "name"]), [Lit("supplier")], Phrase(["company", "name", "of", "supplier"]),
      [Lit("producer")], Phrase(["company", "name"]), Phrase(["registered", "company", "name"]), [Lit("distributor")]]),
      Ws0, Maybe(FieldExtractor.ColonOrDash), Ws0]]

  /** One round of the loop: remove the prefix (all occurrences, ignoring case) and strip. */
  function PrefixStep(p: seq<Tok>, out: string): string {
    Strip(Remove(p, out, 0, true))
  }

  /** The loop over the prefixes: remove one, strip, go on with the next. */
  function StripPrefixes(out: string, pats: seq<seq<Tok>>): string
    decreases |pats|
  {
    if pats == [] then out else StripPrefixes(PrefixStep(pats[0], out), pats[1..])
  }

  /** `strip_leading_label_prefix` */
  function StripLeadingLabelPrefix(value: string): string {
    if value == [] then value else StripPrefixes(value, LabelPrefixes)
  }

  predicate AllAnchored(pats: seq<seq<Tok>>) {
    forall k :: 0 <= k < |pats| ==> pats[k] != [] && pats[k][0] == Bol(false)
  }

  /** None of the patterns matches at the start of `out`. */
  predicate NoneMatch(pats: seq<seq<Tok>>, out: string) {
    forall k :: 0 <= k < |pats| ==> !MatchesAt(pats[k], out, 0, true)
  }

  lemma LabelPrefixesAnchored()
    ensures AllAnchored(LabelPrefixes)
  {
  }

  lemma AnchoredTail(pats: seq<seq<Tok>>)
    requires pats != [] && AllAnchored(pats)
    ensures AllAnchored(pats[1..]) && pats[0] != [] && pats[0][0] == Bol(false)
  {
    forall x | 0 <= x < |pats[1..]|
      ensures pats[1..][x] == pats[x + 1]
    {
    }
  }

  lemma NoneMatchTail(pats: seq<seq<Tok>>, out: string)
    requires pats != [] && NoneMatch(pats, out)
    ensures NoneMatch(pats[1..], out) && !MatchesAt(pats[0], out, 0, true)
  {
    forall x | 0 <= x < |pats[1..]|
      ensures pats[1..][x] == pats[x + 1]
    {
    }
  }

  /** One round keeps a piece of the text. */
  lemma PrefixStepSlice(p: seq<Tok>, out: string) returns (a: nat, b: nat)
    requires p != [] && p[0] == Bol(false)
    ensures a <= b <= |out| && PrefixStep(p, out) == out[a..b]
  {
    var k := AnchoredRemoveSuffix(p, out, 0, true);
    a, b := StripOfSuffix(out, k, Remove(p, out, 0, true));
  }

  /** Stripping a suffix of the text keeps a piece of the text. */
  lemma StripOfSuffix(out: string, k: nat, r: string) returns (a: nat, b: nat)
    requires k <= |out| && r == out[k..]
    ensures a <= b <= |out| && Strip(r) == out[a..b]
  {
    var i, j := StripSlice(r);
    a, b := k + i, k + j;
    assert r == out[k..|out|];
    SliceOfSlice(out, k, |out|, i, j);
  }

  /** One round leaves stripped text. */
  lemma PrefixStepStripped(p: seq<Tok>, out: string)
    ensures Strip(PrefixStep(p, out)) == PrefixStep(p, out)
  {
    StripIdempotent(Remove(p, out, 0, true));
  }

  /** One round leaves stripped text that does not start with the prefix as it is. */
  lemma PrefixStepKeeps(p: seq<Tok>, out: string)
    requires p != [] && p[0] == Bol(false)
    requires !MatchesAt(p, out, 0, true) && Strip(out) == out
    ensures PrefixStep(p, out) == out
  {
    var k := AnchoredRemoveSuffix(p, out, 0, true);
    assert out[0..] == out;
  }

  /** A piece of a piece of the text is a piece of the text. */
  lemma ComposeSlices(out: string, i: nat, j: nat, mid: string, a': nat, b': nat, res: string) returns (a: nat, b: nat)
    requires i <= j <= |out| && mid == out[i..j]
    requires a' <= b' <= |mid| && res == mid[a'..b']
    ensures a <= b <= |out| && res == out[a..b]
  {
    a, b := i + a', i + b';
    SliceOfSlice(out, i, j, a', b');
  }

  /** Removing anchored prefixes and stripping keeps a contiguous piece of the text. */
  lemma {:induction false} StripPrefixesSlice(out: string, pats: seq<seq<Tok>>) returns (a: nat, b: nat)
    requires AllAnchored(pats)
    ensures a <= b <= |out| && StripPrefixes(out, pats) == out[a..b]
    decreases |pats|
  {
    if pats == [] {
      a, b := 0, |out|;
      assert out[a..b] == out;
    } else {
      AnchoredTail(pats);
      var next := PrefixStep(pats[0], out);
      var i, j := PrefixStepSlice(pats[0], out);
      var a', b' := StripPrefixesSlice(next, pats[1..]);
      a, b := ComposeSlices(out, i, j, next, a', b', StripPrefixes(next, pats[1..]));
    }
  }

  /** Stripping the last prefix leaves stripped text. */
  lemma {:induction false} StripPrefixesStripped(out: string, pats: seq<seq<Tok>>)
    requires pats != [] && AllAnchored(pats)
    ensures Strip(StripPrefixes(out, pats)) == StripPrefixes(out, pats)
    decreases |pats|
  {
    AnchoredTail(pats);
    var next := PrefixStep(pats[0], out);
    if |pats| == 1 {
      PrefixStepStripped(pats[0], out);
      assert StripPrefixes(next, pats[1..]) == next;
    } else {
      StripPrefixesStripped(next, pats[1..]);
    }
  }

  /** A stripped text that starts with none of the prefixes passes through unchanged. */
  lemma {:induction false} StripPrefixesNone(out: string, pats: seq<seq<Tok>>)
    requires AllAnchored(pats) && Strip(out) == out && NoneMatch(pats, out)
    ensures StripPrefixes(out, pats) == out
    decreases |pats|
  {
    if pats != [] {
      AnchoredTail(pats);
      NoneMatchTail(pats, out);
      PrefixStepKeeps(pats[0], out);
      StripPrefixesNone(out, pats[1..]);
    }
  }

  /** The result is a stripped piece of the value. */
  lemma LabelPrefixSlice(value: string) returns (a: nat, b: nat)
    ensures a <= b <= |value| && StripLeadingLabelPrefix(value) == value[a..b]
    ensures value != [] ==> Strip(StripLeadingLabelPrefix(value)) == StripLeadingLabelPrefix(value)
  {
    if value == [] {
      a, b := 0, 0;
    } else {
      LabelPrefixesAnchored();
      a, b := StripPrefixesSlice(value, LabelPrefixes);
      StripPrefixesStripped(value, LabelPrefixes);
    }
  }

  /** A stripped value that starts with none of the labels is returned unchanged. */
  lemma UnlabelledKept(value: string)
    requires Strip(value) == value
    requires NoneMatch(LabelPrefixes, value)
    ensures StripLeadingLabelPrefix(value) == value
  {
    if value != [] {
      LabelPrefixesAnchored();
      StripPrefixesNone(value, LabelPrefixes);
    }
  }

  // ---- validate_dangerous_goods_class ----

  /** The "not applicable" phrases, each tried with `re.match` ignoring case, so most accept any continuation. */
  const NotApplicablePrefixes: seq<seq<Tok>> := [
    [Bol(false), Lit("no"), Maybe(Chars("t")), Ws1, Lit("regulated")],
    [Bol(false), Lit("no"), Maybe(Chars("t")), Ws1, Lit("applicable")],
    [Bol(false), Lit("none"), Eol(false)],
    [Bol(false), Lit("n"), Maybe(Chars("/")), Lit("a"), Eol(false)],
    [Bol(false)] + Phrase(["not", "a", "dangerous", "good"]),
    [Bol(false)] + Phrase(["not", "subject", "to"])]

  /** `validate_dangerous_goods_class`: a class number, or text that starts with a "not applicable" phrase. */
  predicate ValidateDangerousGoodsClass(value: string) {
    value != [] &&
    var v := Strip(value);
    MatchesAt(ValidDgClasses, v, 0, false) || AnyMatchesAt(NotApplicablePrefixes, v, true)
  }

  /** A value is accepted exactly when, stripped, it is a class number or starts with one of the phrases. */
  lemma ValidatedMeaning(value: string)
    ensures ValidateDangerousGoodsClass(value) <==>
      value != [] && (DgClassShape(Strip(value))
        || exists k :: 0 <= k < |NotApplicablePrefixes| && MatchesAt(NotApplicablePrefixes[k], Strip(value), 0, true))
  {
    DgClassPattern(Strip(value));
    AnyMatchesAtSome(NotApplicablePrefixes, Strip(value), true);
  }

  lemma NotApplicableOpensWithN()
    ensures OpensWith(NotApplicablePrefixes, 'n')
  {
    assert Phrase(["not", "a", "dangerous", "good"])[0] == Lit("not");
    assert Phrase(["not", "subject", "to"])[0] == Lit("not");
  }

  /** A value that starts with a digit is accepted exactly when it is a class or division number. */
  lemma DigitValueIsClass(value: string)
    requires Strip(value) != [] && IsDigit(Strip(value)[0])
    ensures ValidateDangerousGoodsClass(value) <==> DgClassShape(Strip(value))
  {
    var v := Strip(value);
    DgClassPattern(v);
    if AnyMatchesAt(NotApplicablePrefixes, v, true) {
      NotApplicableOpensWithN();
      AnyMatchesAtOpens(NotApplicablePrefixes, 'n', v, true);
    }
  }

  /** A UN number such as "1950" and a sub-section number such as "14.5" are rejected. */
  lemma NumbersRejected(value: string)
    requires var v := Strip(value); |v| == 4 && IsDigit(v[0]) && IsDigit(v[1]) && IsDigit(v[3])
    ensures !ValidateDangerousGoodsClass(value)
  {
    DigitValueIsClass(value);
  }

  /** The "not subject to" phrase, token by token. */
  lemma NotSubjectToTokens()
    ensures NotApplicablePrefixes[5]
      == [Bol(false)] + ([Lit("not")] + ([Ws1] + ([Lit("subject")] + ([Ws1] + [Lit("to")]))))
  {
    assert Phrase(["not", "subject", "to"]) == [Lit("not"), Ws1] + Phrase(["subject", "to"]);
    assert Phrase(["subject", "to"]) == [Lit("subject"), Ws1] + Phrase(["to"]);
  }

  /**
   * Text that opens with "not", "subject" and "to", one whitespace character
   * between each, in any case, is accepted whatever follows.
   */
  lemma NotSubjectToAccepted(value: string)
    requires var v := Strip(value);
      14 <= |v| && LitAt(v, 0, "not", true) && IsSpace(v[3]) && LitAt(v, 4, "subject", true)
      && IsSpace(v[11]) && LitAt(v, 12, "to", true)
    ensures ValidateDangerousGoodsClass(value)
  {
    var v := Strip(value);
    NotSubjectToEnds(v);
    AnyMatchesAtSome(NotApplicablePrefixes, v, true);
  }

  /** The "not subject to" phrase runs over the first fourteen characters of such a text. */
  lemma NotSubjectToEnds(v: string)
    requires 14 <= |v| && LitAt(v, 0, "not", true) && IsSpace(v[3]) && LitAt(v, 4, "subject", true)
      && IsSpace(v[11]) && LitAt(v, 12, "to", true)
    ensures 14 in Ends(NotApplicablePrefixes[5], v, 0, true)
  {
    var q := [Lit("not")] + ([Ws1] + ([Lit("subject")] + ([Ws1] + [Lit("to")])));
    NotSubjectToTokens();
    EndsBol(v, 0, true);
    EndsLit("not", v, 0, true);
    Utils.SpaceThenWord(v, 3, "subject");
    Utils.SpaceThenWord(v, 11, "to");
    ChainEnds(q, Lit("not"), Ws1, Lit("subject"), Ws1, Lit("to"), v, 0, 3, 4, 11, 12, 14, true);
    SeqJoin([Bol(false)], q, v, 0, 0, true, 14);
  }

  /** "Not subject to transport regulations: UN RTDG" is accepted on its opening words. */
  lemma NotSubjectAccepted()
    ensures ValidateDangerousGoodsClass(NotSubjectExample)
  {
    var v := NotSubjectExample;
    assert v[..14] == NotSubjectOpening;
    assert v[0] == 'N' && v[|v| - 1] == 'G';
    StripUnpadded(v);
    NotSubjectHead(v);
    NotSubjectSubject(v);
    NotSubjectTo(v);
    NotSubjectToAccepted(v);
  }

  /** The class column of a scanned sheet's transport section. */
  const NotSubjectExample := NotSubjectOpening + " transport regulations: UN RTDG"

  /** The words the example is accepted on. */
  const NotSubjectOpening := "Not subject to"

  /** A text opening "Not subject to" reads "not" from 0 and has spaces at 3 and 11. */
  lemma NotSubjectHead(v: string)
    requires 14 <= |v| && v[..14] == NotSubjectOpening
    ensures LitAt(v, 0, "not", true) && IsSpace(v[3]) && IsSpace(v[11])
  {
    assert v[0] == 'N' && v[1] == 'o' && v[2] == 't' && v[3] == ' ' && v[11] == ' ';
    LitAtChars(v, 0, "not", true);
  }

  /** A text opening "Not subject to" reads "subject" from 4. */
  lemma NotSubjectSubject(v: string)
    requires 14 <= |v| && v[..14] == NotSubjectOpening
    ensures LitAt(v, 4, "subject", true)
  {
    var w := "subject";
    forall k | 0 <= k < |w|
      ensures SameChar(v[4 + k], w[k], true)
    {
      assert v[4 + k] == NotSubjectOpening[4 + k];
    }
    LitAtChars(v, 4, w, true);
  }

  /** A text opening "Not subject to" reads "to" from 12. */
  lemma NotSubjectTo(v: string)
    requires 14 <= |v| && v[..14] == NotSubjectOpening
    ensures LitAt(v, 12, "to", true)
  {
    var w := "to";
    forall k | 0 <= k < |w|
      ensures SameChar(v[12 + k], w[k], true)
    {
      assert v[12 + k] == NotSubjectOpening[12 + k];
    }
    LitAtChars(v, 12, w, true);
  }

  // ---- get_section ----

  /** `[:\.-]` */
  const SectionPunct := Chars(":.-")

  /** `(?:\s|:|\.|-)` */
  const SectionSep := Cls([SpaceItem, Ch(':'), Ch('.'), Ch('-')], false)

  /** `(?:section\s*)?` */
  const SectionWord := Opt([Lit("section"), Ws0])

  /**
   * The strict header of section `n` (IGNORECASE | MULTILINE): for 1 and 14 any
   * leading non-word characters and an optional punctuation mark; for the others
   * leading blanks and a required `:`, `.` or `-`.
   */
  function StrictStart(n: nat): seq<Tok> {
    if n == 1 || n == 14 then
      [Bol(true), Rep(NotWord, 0, None, false), SectionWord, Lit(NatToString(n)), Ws0, Maybe(SectionPunct), One(Space), AnyRun, Eol(true)]
    else
      [Bol(true), Ws0, SectionWord, Lit(NatToString(n)), Ws0, One(SectionPunct), One(Space), AnyRun, Eol(true)]
  }

  /** `^\W*(?:section\s*)?\d{1,2}\s*[:\.-]\s`: the header of any section. */
  const NextHeader: seq<Tok> :=
    [Bol(true), Rep(NotWord, 0, None, false), SectionWord, DigitsBetween(1, 2), Ws0, One(SectionPunct), One(Space)]

  /** The loose single-pass pattern (IGNORECASE | DOTALL), up to the next numbered line or the end. */
  function LoosePattern(n: nat): seq<Tok> {
    [AnyOf([[Bol(false)], [Lit("\n")]]), Ws0, SectionWord, Lit(NatToString(n)),
     Look([Ws0, Lit("/")], false), One(SectionSep), Rep(AnyChar, 0, None, true),
     Look([AnyOf([
       [Lit("\n"), Ws0, SectionWord, DigitsBetween(1, 2), Look([Lit("."), One(Digit)], false),
        Look([Ws0, Lit("/")], false), One(SectionSep)],
       [Eol(false)]])], true)]
  }

  /** Where a strict section ends: at the next header of any number after its own header, or at the end of the text. */
  function StrictEnd(text: string, from: nat, next: seq<Tok>): (e: nat)
    requires from <= |text|
    ensures from <= e <= |text|
    ensures e < |text| ==> MatchesAt(next, text[from..], e - from, true)
  {
    match Search(next, text[from..], true)
    case None => |text|
    case Some(x) => from + x.start
  }

  /**
   * The strict attempt: it starts at the first match of the strict header, which
   * lies at a line start, runs to the next header, and is kept only when its
   * stripped text is at least 30 characters long.
   */
  function StrictBounds(text: string, strict: seq<Tok>, next: seq<Tok>): (r: Option<Span>)
    requires strict != [] && strict[0] == Bol(true)
    ensures r.Some? ==> r.value.start <= r.value.end <= |text|
    ensures r.Some? ==> MatchesAt(strict, text, r.value.start, true)
    ensures r.Some? ==> r.value.start == 0 || text[r.value.start - 1] == '\n'
    ensures r.Some? ==> forall k :: 0 <= k < r.value.start ==> !MatchesAt(strict, text, k, true)
    ensures r.Some? ==> |Strip(text[r.value.start..r.value.end])| >= 30
    ensures Search(strict, text, true).None? ==> r.None?
  {
    match Search(strict, text, true)
    case None => None
    case Some(m) =>
      var e := StrictEnd(text, m.end, next);
      LineStartOnly(strict, text, m.start, true);
      if |Strip(text[m.start..e])| >= 30 then Some(Span(m.start, e)) else None
  }

  /** The strict attempt, else the loose match, else the empty string. */
  function SectionWith(text: string, strict: seq<Tok>, next: seq<Tok>, loose: seq<Tok>): string
    requires strict != [] && strict[0] == Bol(true)
  {
    match StrictBounds(text, strict, next)
    case Some(sp) => text[sp.start..sp.end]
    case None =>
      match Search(loose, text, true)
      case None => []
      case Some(m) => text[m.start..m.end]
  }

  /** `get_section(text, n)` */
  function GetSection(text: string, n: nat): string {
    SectionWith(text, StrictStart(n), NextHeader, LoosePattern(n))
  }

  /**
   * The section is always a slice of the text: the strict section when there is
   * one, else the leftmost loose match, else empty.
   */
  lemma SectionSlice(text: string, n: nat) returns (a: nat, b: nat)
    ensures a <= b <= |text| && GetSection(text, n) == text[a..b]
    ensures StrictBounds(text, StrictStart(n), NextHeader).Some? ==> Span(a, b) == StrictBounds(text, StrictStart(n), NextHeader).value
    ensures StrictBounds(text, StrictStart(n), NextHeader).None? && Search(LoosePattern(n), text, true).Some? ==>
      Span(a, b) == Search(LoosePattern(n), text, true).value
    ensures StrictBounds(text, StrictStart(n), NextHeader).None? && Search(LoosePattern(n), text, true).None? ==> a == b
  {
    var strict := StrictBounds(text, StrictStart(n), NextHeader);
    var loose := Search(LoosePattern(n), text, true);
    if strict.Some? {
      a, b := strict.value.start, strict.value.end;
    } else if loose.Some? {
      a, b := loose.value.start, loose.value.end;
    } else {
      a, b := 0, 0;
    }
  }

  /** Under IGNORECASE a character in `[:\.-]` is that character itself. */
  lemma PunctClassIgnoringCase(c: char)
    requires InClass(SectionPunct, c, true)
    ensures c == ':' || c == '.' || c == '-'
  {
    CharsHave(":.-", c);
    CharsHave(":.-", ToLower(c));
    CharsHave(":.-", ToUpper(c));
  }

  /** A header `head num \s* [:\.-] rest` has the punctuation after its number, past blanks only. */
  lemma PunctuatedHeader(head: seq<Tok>, num: string, rest: seq<Tok>, text: string, a: nat) returns (j: nat, q: nat)
    requires a <= |text| && MatchesAt(head + ([Lit(num)] + ([Ws0] + ([One(SectionPunct)] + rest))), text, a, true)
    ensures a <= j <= |text| && LitAt(text, j, num, true)
    ensures j + |num| <= q < |text| && (text[q] == ':' || text[q] == '.' || text[q] == '-')
    ensures forall x :: j + |num| <= x < q ==> InClass(Space, text[x], true)
  {
    var d := [One(SectionPunct)] + rest;
    var e := Ends(head + ([Lit(num)] + ([Ws0] + d)), text, a, true)[0];
    j := SeqWitness(head, [Lit(num)] + ([Ws0] + d), text, a, true, e);
    LitStep(num, [Ws0] + d, text, j, true, e);
    q := StarStep(Ws0, d, text, j + |num|, true, e);
    OneStep(SectionPunct, rest, text, q, true, e);
    PunctClassIgnoringCase(text[q]);
  }

  /** The strict header of a section other than 1 and 14 has `:`, `.` or `-` after its number, past blanks only. */
  lemma StrictHeaderPunctuated(text: string, n: nat, a: nat) returns (j: nat, q: nat)
    requires n != 1 && n != 14 && a <= |text| && MatchesAt(StrictStart(n), text, a, true)
    ensures a <= j <= |text| && LitAt(text, j, NatToString(n), true)
    ensures j + |NatToString(n)| <= q < |text| && (text[q] == ':' || text[q] == '.' || text[q] == '-')
    ensures forall x :: j + |NatToString(n)| <= x < q ==> InClass(Space, text[x], true)
  {
    var head := [Bol(true), Ws0, SectionWord];
    var rest := [One(Space), AnyRun, Eol(true)];
    assert StrictStart(n) == head + ([Lit(NatToString(n))] + ([Ws0] + ([One(SectionPunct)] + rest)));
    j, q := PunctuatedHeader(head, NatToString(n), rest, text, a);
  }

  // ---- extract_field_value ----

  /** A label of a caller's list: the regular expression as written and the pattern it denotes. */
  datatype Label = Label(regex: string, pattern: seq<Tok>)

  function Patterns(labels: seq<Label>): (r: seq<seq<Tok>>)
    ensures |r| == |labels| && forall k :: 0 <= k < |r| ==> r[k] == labels[k].pattern
  {
    seq(|labels|, k requires 0 <= k < |labels| => labels[k].pattern)
  }

  /** Some label, as written and lower-cased, mentions a manufacturer or a supplier. */
  predicate MentionsSupplier(labels: seq<Label>) {
    exists k :: 0 <= k < |labels|
      && (Contains(Lower(labels[k].regex), "manufacturer") || Contains(Lower(labels[k].regex), "supplier"))
  }

  /** COMMON_FIELD_LABELS: labels at which a value running into the next label is cut. */
  const CommonFieldLabels: seq<seq<Tok>> := [
    Phrase(["Product", "identifier"]),
    Phrase(["Product", "name"]),
    Phrase(["Trade", "name"]),
    Phrase(["Commercial", "product", "name"]),
    [Lit("Manufacturer")],
    Phrase(["Supplier", "Name"]),
    [Lit("Supplier")],
    Phrase(["Company", "name", "of", "supplier"]),
    [Lit("Producer")],
    Phrase(["Company", "name"]),
    Phrase(["Registered", "company", "name"]),
    [Lit("Distributor")],
    Phrase(["Product", "description"]),
    [Lit("Description")],
    Phrase(["Use", "of", "the", "substance"]),
    Phrase(["Recommended", "use"]),
    Phrase(["Intended", "use"]),
    Phrase(["Product", "use"]),
    Phrase(["Relevant", "identified", "uses"]),
    Phrase(["Identified", "uses"]),
    [Lit("Application")],
    Phrase(["Chemical", "Name"]),
    Phrase(["Product", "code"]),
    [Lit("Synonym"), Maybe(Chars("s"))],
    Phrase(["Proper", "shipping", "name"]),
    Phrase(["UN", "number"]),
    [Lit("Hazchem")],
    [Lit("EPG")],
    [Lit("Packing"), Ws0, Lit("Group"), Opt([Lit("(s)")])],
    [Lit("Hazard"), Ws0, Lit("class"), Opt([Lit("(es)")])]]

  /** `{other}\s*[:\-]?`: a label of the list, searched for inside a value. */
  function OtherLabel(other: seq<Tok>): seq<Tok> {
    other + [Ws0, Maybe(FieldExtractor.ColonOrDash)]
  }

  /** The value cut before the first occurrence of the first label of `others[k..]` that occurs in it, and stripped. */
  function CutFrom(value: string, others: seq<seq<Tok>>, k: nat): string
    decreases |others| - k
  {
    if k >= |others| then value
    else
      match Search(OtherLabel(others[k]), value, true)
      case Some(m) => Strip(value[..m.start])
      case None => CutFrom(value, others, k + 1)
  }

  /** The cut at COMMON_FIELD_LABELS. */
  function CutAtLabel(value: string): string {
    CutFrom(value, CommonFieldLabels, 0)
  }

  /** `\b[A-Z0-9]{2,}[/A-Z0-9\-]*$`: a trailing code such as a catalogue number (case-sensitive). */
  const CodeSuffix: seq<Tok> := [
    WordBoundary,
    Rep(Cls([Range('A', 'Z'), Range('0', '9')], false), 2, None, false),
    Rep(Cls([Ch('/'), Range('A', 'Z'), Range('0', '9'), Ch('-')], false), 0, None, false),
    Eol(false)]

  /** `^[’'`´]+s\b\s*` */
  const Apostrophes: seq<Tok> := FieldExtractor.Possessive("’'`´")

  /**
   * The cleaning shared by both paths: trailing `:` or `-`, then contact details
   * (the flag passed there is the `count` of `re.sub`, so that removal is
   * case-sensitive and removes at most two matches), then the cut at the next
   * label, then a trailing code, then the ends stripped.
   */
  function Tidy(v: string): string {
    Strip(Remove(CodeSuffix, CutAtLabel(Remove(FieldExtractorFixed.ContactTail, Remove(FieldExtractor.TrailingPunct, v, 0, false), 2, false)), 0, false))
  }

  /** A same-line value: the captured group stripped, a leading possessive removed, then tidied. */
  function SameLineValue(g: string): string {
    Tidy(Remove(Apostrophes, Strip(g), 0, false))
  }

  /** A value below a lone label: tidied, and only then a leading possessive removed. */
  function BelowValue(c: string): string {
    Remove(Apostrophes, Tidy(c), 0, false)
  }

  /** `{label}\s*[:\-]\s*(.+)` searched anywhere in the line, cut at the value group. */
  function InlineParts(lab: seq<Tok>): seq<seq<Tok>> {
    [lab + [Ws0, One(FieldExtractor.ColonOrDash), Ws0], [AnyRun1]]
  }

  /** The captured value: `^{label}\s*[:\-]?\s*(.+)$` first, else the label anywhere followed by `:` or `-`. */
  function SameLineGroup(lab: seq<Tok>, line: string): Option<string> {
    var anchored := FieldExtractor.Group1(FieldExtractorFixed.LegacyParts(lab), line, true);
    if anchored.Some? then anchored else FieldExtractor.Group1(InlineParts(lab), line, true)
  }

  /** `^of\s+the\s+safety\s+data\s+sheet\s*$` is skipped when the label list mentions a manufacturer or a supplier. */
  function SheetSkip(supplier: bool): string -> bool {
    v => supplier && MatchesAt(FieldExtractor.SheetPhrase, v, 0, true)
  }

  /** A line below a lone label that is passed over: blank, a colon, or starting with a colon. */
  predicate PassedOver(c: string) {
    c == [] || c == ":" || c[0] == ':'
  }

  /** A value that is returned: non-empty and not noise. */
  predicate Acceptable(v: string, isNoise: string -> bool) {
    v != [] && !isNoise(v)
  }

  /** Lines `j` up to `end` (exclusive) below a lone label: the first acceptable cleaned candidate. */
  function FieldBelow(lines: seq<string>, j: nat, end: nat, isNoise: string -> bool): Option<string>
    decreases |lines| - j
  {
    if j >= |lines| || j >= end then None
    else if PassedOver(Strip(lines[j])) then FieldBelow(lines, j + 1, end, isNoise)
    else if Acceptable(BelowValue(Strip(lines[j])), isNoise) then Some(BelowValue(Strip(lines[j])))
    else FieldBelow(lines, j + 1, end, isNoise)
  }

  /**
   * One line and one label: a skipped sheet phrase ends the label, an acceptable
   * same-line value is returned, and otherwise a label that stands alone looks
   * at the five lines below.
   */
  function FieldCell(lines: seq<string>, i: nat, lab: seq<Tok>, skip: string -> bool, isNoise: string -> bool)
    : Option<string>
    requires i < |lines|
  {
    var line := Strip(lines[i]);
    if line == [] then None
    else
      var g := SameLineGroup(lab, line);
      if g.Some? && skip(SameLineValue(g.value)) then None
      else if g.Some? && Acceptable(SameLineValue(g.value), isNoise) then Some(SameLineValue(g.value))
      else if MatchesAt(FieldExtractorFixed.LegacyAlone(lab), line, 0, true) then FieldBelow(lines, i + 1, i + 6, isNoise)
      else None
  }

  function FieldGrid(lines: seq<string>, labels: seq<seq<Tok>>, skip: string -> bool, isNoise: string -> bool)
    : seq<seq<Option<string>>>
  {
    seq(|lines|, i requires 0 <= i < |lines| =>
      seq(|labels|, k requires 0 <= k < |labels| => FieldCell(lines, i, labels[k], skip, isNoise)))
  }

  /** The scan over the lines of the searched text (lines outer, labels inner). */
  function FieldValueWith(text: string, labels: seq<seq<Tok>>, sectionText: Option<string>, skip: string -> bool,
                          isNoise: string -> bool): Option<string>
  {
    var searchText := FieldExtractorFixed.SearchText(text, sectionText);
    if searchText == [] then None
    else FirstHit(FieldGrid(SplitOn(searchText, '\n'), labels, skip, isNoise), 0, 0)
  }

  /** `extract_field_value(text, field_labels, section_text)`. */
  function FieldValue(text: string, labels: seq<Label>, sectionText: Option<string>): Option<string> {
    FieldValueWith(text, Patterns(labels), sectionText, SheetSkip(MentionsSupplier(labels)), IsNoiseText)
  }

  /** The loop over COMMON_FIELD_LABELS that cuts at the first one found. */
  method CutAtFirstLabel(value: string, others: seq<seq<Tok>>) returns (r: string)
    ensures r == CutFrom(value, others, 0)
  {
    var k := 0;
    while k < |others|
      invariant 0 <= k <= |others|
      invariant CutFrom(value, others, k) == CutFrom(value, others, 0)
    {
      var m := Search(OtherLabel(others[k]), value, true);
      if m.Some? {
        return Strip(value[..m.value.start]);
      }
      k := k + 1;
    }
    return value;
  }

  method FieldLookBelow(lines: seq<string>, i: nat, isNoise: string -> bool) returns (r: Option<string>)
    ensures r == FieldBelow(lines, i + 1, i + 6, isNoise)
  {
    var j := i + 1;
    while j < |lines| && j < i + 6
      invariant i + 1 <= j
      invariant FieldBelow(lines, j, i + 6, isNoise) == FieldBelow(lines, i + 1, i + 6, isNoise)
      decreases |lines| - j
    {
      var candidate := Strip(lines[j]);
      if PassedOver(candidate) {
        j := j + 1;
        continue;
      }
      var value := BelowValue(candidate);
      if Acceptable(value, isNoise) {
        return Some(value);
      }
      j := j + 1;
    }
    return None;
  }

  method FieldCellAt(lines: seq<string>, i: nat, lab: seq<Tok>, skip: string -> bool, isNoise: string -> bool)
    returns (v: Option<string>)
    requires i < |lines| && Strip(lines[i]) != []
    ensures v == FieldCell(lines, i, lab, skip, isNoise)
  {
    var line := Strip(lines[i]);
    var g := SameLineGroup(lab, line);
    if g.Some? {
      var value := SameLineValue(g.value);
      if skip(value) {
        return None;
      }
      if Acceptable(value, isNoise) {
        return Some(value);
      }
    }
    if MatchesAt(FieldExtractorFixed.LegacyAlone(lab), line, 0, true) {
      v := FieldLookBelow(lines, i, isNoise);
    } else {
      v := None;
    }
  }

  lemma BlankFieldCell(lines: seq<string>, i: nat, lab: seq<Tok>, skip: string -> bool, isNoise: string -> bool)
    requires i < |lines| && Strip(lines[i]) == []
    ensures FieldCell(lines, i, lab, skip, isNoise).None?
  {
  }

  lemma BlankFieldRow(lines: seq<string>, i: nat, labels: seq<seq<Tok>>, skip: string -> bool, isNoise: string -> bool)
    requires i < |lines| && Strip(lines[i]) == []
    ensures var g := FieldGrid(lines, labels, skip, isNoise);
      forall y :: 0 <= y < |g[i]| ==> g[i][y].None?
  {
    var g: seq<seq<Option<string>>> := FieldGrid(lines, labels, skip, isNoise);
    forall y | 0 <= y < |g[i]|
      ensures g[i][y].None?
    {
      BlankFieldCell(lines, i, labels[y], skip, isNoise);
    }
  }

  method ScanFieldLabels(lines: seq<string>, i: nat, labels: seq<seq<Tok>>, skip: string -> bool, isNoise: string -> bool)
    returns (r: Option<string>)
    requires i < |lines| && Strip(lines[i]) != []
    ensures r == FirstInRow(FieldGrid(lines, labels, skip, isNoise), i, 0)
  {
    ghost var g := FieldGrid(lines, labels, skip, isNoise);
    var k := 0;
    while k < |labels|
      invariant 0 <= k <= |labels|
      invariant FirstInRow(g, i, k) == FirstInRow(g, i, 0)
    {
      var v := FieldCellAt(lines, i, labels[k], skip, isNoise);
      assert g[i][k] == v;
      if v.Some? {
        return v;
      }
      k := k + 1;
    }
    return None;
  }

  method ExtractFieldValueWith(text: string, labels: seq<seq<Tok>>, sectionText: Option<string>, skip: string -> bool,
                               isNoise: string -> bool) returns (r: Option<string>)
    ensures r == FieldValueWith(text, labels, sectionText, skip, isNoise)
  {
    var searchText := FieldExtractorFixed.SearchText(text, sectionText);
    if searchText == [] {
      return None;
    }
    var lines := SplitOn(searchText, '\n');
    ghost var g := FieldGrid(lines, labels, skip, isNoise);
    var i := 0;
    while i < |lines|
      invariant 0 <= i <= |lines|
      invariant FirstHit(g, i, 0) == FirstHit(g, 0, 0)
    {
      if Strip(lines[i]) == [] {
        BlankFieldRow(lines, i, labels, skip, isNoise);
        FirstHitSkipRow(g, i, 0);
        i := i + 1;
        continue;
      }
      var v := ScanFieldLabels(lines, i, labels, skip, isNoise);
      FirstHitRow(g, i);
      if v.Some? {
        return v;
      }
      i := i + 1;
    }
    return None;
  }

  method ExtractFieldValue(text: string, labels: seq<Label>, sectionText: Option<string>) returns (r: Option<string>)
    ensures r == FieldValue(text, labels, sectionText)
  {
    r := ExtractFieldValueWith(text, Patterns(labels), sectionText, SheetSkip(MentionsSupplier(labels)), IsNoiseText);
  }

  /** No label `other` occurs in the value. */
  predicate Absent(value: string, other: seq<Tok>) {
    Search(OtherLabel(other), value, true).None?
  }

  /** The cut keeps the value when no label of `others[k..]` occurs in it, and is otherwise the stripped text before the first occurrence of the first one that does. */
  lemma {:induction false} CutFromSource(value: string, others: seq<seq<Tok>>, k: nat) returns (h: nat)
    ensures k <= h || h == |others|
    ensures forall x :: k <= x < h && x < |others| ==> Absent(value, others[x])
    ensures h < |others| ==> (!Absent(value, others[h])
      && CutFrom(value, others, k) == Strip(value[..Search(OtherLabel(others[h]), value, true).value.start]))
    ensures h >= |others| ==> CutFrom(value, others, k) == value
    decreases |others| - k
  {
    if k >= |others| {
      h := |others|;
    } else if !Absent(value, others[k]) {
      h := k;
    } else {
      h := CutFromSource(value, others, k + 1);
    }
  }

  /** A value found below a lone label is the cleaned form of a line of the window that is not passed over. */
  lemma {:induction false} FieldBelowSource(lines: seq<string>, j: nat, end: nat, isNoise: string -> bool) returns (a: nat)
    requires FieldBelow(lines, j, end, isNoise).Some?
    ensures j <= a < end && a < |lines| && !PassedOver(Strip(lines[a]))
    ensures FieldBelow(lines, j, end, isNoise) == Some(BelowValue(Strip(lines[a])))
    ensures Acceptable(BelowValue(Strip(lines[a])), isNoise)
    decreases |lines| - j
  {
    if PassedOver(Strip(lines[j])) || !Acceptable(BelowValue(Strip(lines[j])), isNoise) {
      a := FieldBelowSource(lines, j + 1, end, isNoise);
    } else {
      a := j;
    }
  }

  /** A cell's value is the cleaned same-line group, not skipped, or the cleaned form of a line at most five below a lone label. */
  lemma FieldCellSource(lines: seq<string>, i: nat, lab: seq<Tok>, skip: string -> bool, isNoise: string -> bool)
    returns (j: nat)
    requires i < |lines| && FieldCell(lines, i, lab, skip, isNoise).Some?
    ensures var v := FieldCell(lines, i, lab, skip, isNoise).value; var line := Strip(lines[i]);
      Acceptable(v, isNoise) && j < |lines|
      && ((j == i && SameLineGroup(lab, line).Some? && v == SameLineValue(SameLineGroup(lab, line).value) && !skip(v))
          || (i < j < i + 6 && MatchesAt(FieldExtractorFixed.LegacyAlone(lab), line, 0, true)
              && !PassedOver(Strip(lines[j])) && v == BelowValue(Strip(lines[j]))))
  {
    var g := SameLineGroup(lab, Strip(lines[i]));
    if g.Some? && Acceptable(SameLineValue(g.value), isNoise) {
      j := i;
    } else {
      j := FieldBelowSource(lines, i + 1, i + 6, isNoise);
    }
  }

  /**
   * Where the value comes from: line `i` and label `k` of the searched text,
   * either the line's own group or a line at most five below a label that
   * stands alone; every earlier (line, label) pair yielded nothing.
   */
  lemma FieldValueSource(text: string, labels: seq<seq<Tok>>, sectionText: Option<string>, skip: string -> bool,
                         isNoise: string -> bool) returns (i: nat, k: nat, j: nat)
    requires FieldValueWith(text, labels, sectionText, skip, isNoise).Some?
    ensures var lines := SplitOn(FieldExtractorFixed.SearchText(text, sectionText), '\n');
      i < |lines| && k < |labels| && j < |lines|
    ensures var lines := SplitOn(FieldExtractorFixed.SearchText(text, sectionText), '\n');
      var v := FieldValueWith(text, labels, sectionText, skip, isNoise).value; var line := Strip(lines[i]);
      Acceptable(v, isNoise)
      && ((j == i && SameLineGroup(labels[k], line).Some? && v == SameLineValue(SameLineGroup(labels[k], line).value) && !skip(v))
          || (i < j < i + 6 && MatchesAt(FieldExtractorFixed.LegacyAlone(labels[k]), line, 0, true)
              && !PassedOver(Strip(lines[j])) && v == BelowValue(Strip(lines[j]))))
    ensures var lines := SplitOn(FieldExtractorFixed.SearchText(text, sectionText), '\n');
      forall x: nat, y: nat :: x < |lines| && y < |labels| && (x < i || (x == i && y < k)) ==>
        FieldCell(lines, x, labels[y], skip, isNoise).None?
  {
    var lines := SplitOn(FieldExtractorFixed.SearchText(text, sectionText), '\n');
    i, k := FieldGridHit(lines, labels, skip, isNoise);
    j := FieldCellSource(lines, i, labels[k], skip, isNoise);
  }

  /** The cell the scan stops at, with every earlier (line, label) cell empty. */
  lemma FieldGridHit(lines: seq<string>, labels: seq<seq<Tok>>, skip: string -> bool, isNoise: string -> bool)
    returns (i: nat, k: nat)
    requires FirstHit(FieldGrid(lines, labels, skip, isNoise), 0, 0).Some?
    ensures i < |lines| && k < |labels|
    ensures FirstHit(FieldGrid(lines, labels, skip, isNoise), 0, 0) == FieldCell(lines, i, labels[k], skip, isNoise)
    ensures forall x: nat, y: nat :: x < |lines| && y < |labels| && (x < i || (x == i && y < k)) ==>
      FieldCell(lines, x, labels[y], skip, isNoise).None?
  {
    var g: seq<seq<Option<string>>> := FieldGrid(lines, labels, skip, isNoise);
    i, k := FirstHitFound(g, 0, 0);
    forall x: nat, y: nat | x < |lines| && y < |labels| && (x < i || (x == i && y < k))
      ensures FieldCell(lines, x, labels[y], skip, isNoise).None?
    {
      assert Between(g, 0, 0, x, y, i, k);
      assert g[x][y] == FieldCell(lines, x, labels[y], skip, isNoise);
    }
  }

  /** `extract_field_value` never returns empty text or text its own `is_noise_text` rejects. */
  lemma FieldValueNeverNoise(text: string, labels: seq<Label>, sectionText: Option<string>)
    requires FieldValue(text, labels, sectionText).Some?
    ensures var v := FieldValue(text, labels, sectionText).value; v != [] && !IsNoiseText(v)
  {
    var i, k, j := FieldValueSource(text, Patterns(labels), sectionText, SheetSkip(MentionsSupplier(labels)), IsNoiseText);
  }

  // ---- extract_dg_class_from_table and extract_packing_group_from_table ----

  /** `\s+|\|`: what separates the tokens of a row. */
  const TokenSeparator: seq<Tok> := [AnyOf([[Ws1], [Lit("|")]])]

  /** `re.split(r'\s+|\|', s)` */
  function Tokens(s: string): seq<string> {
    SplitBy(TokenSeparator, s, 0, false)
  }

  /** `t.strip(',;')` */
  function TrimPunct(t: string): string {
    StripSet(t, CharSet({',', ';'}, false))
  }

  predicate NonEmpty(s: string) {
    s != []
  }

  /** `[line.strip() for line in text.splitlines() if line.strip()]` */
  function NonBlankLines(text: string): seq<string> {
    KeepMapped(SplitLines(text), Strip, NonEmpty)
  }

  /** A part that yields a token: not blank, and valid once `,` and `;` are trimmed. */
  predicate TokenTaken(t: string, valid: string -> bool) {
    Strip(t) != [] && valid(TrimPunct(t))
  }

  /** The first of `[t.strip(',;') for t in parts if t.strip()]` that passes `valid`. */
  function FirstToken(parts: seq<string>, valid: string -> bool): Option<string> {
    Scan.FirstTaken(parts, t => TokenTaken(t, valid), TrimPunct)
  }

  /** A token found is a non-blank part with `,` and `;` trimmed, it passes the test, and no earlier part did. */
  lemma FirstTokenFrom(parts: seq<string>, valid: string -> bool) returns (m: nat)
    requires FirstToken(parts, valid).Some?
    ensures m < |parts| && TokenTaken(parts[m], valid) && FirstToken(parts, valid) == Some(TrimPunct(parts[m]))
    ensures forall k :: 0 <= k < m ==> !TokenTaken(parts[k], valid)
  {
    m := Scan.FirstTakenFrom(parts, t => TokenTaken(t, valid), TrimPunct);
  }

  method FindFirstToken(parts: seq<string>, valid: string -> bool) returns (r: Option<string>)
    ensures r == FirstToken(parts, valid)
  {
    var n := 0;
    while n < |parts|
      invariant n <= |parts|
      invariant FirstToken(parts[n..], valid) == FirstToken(parts, valid)
    {
      assert parts[n..][1..] == parts[n + 1..];
      if TokenTaken(parts[n], valid) {
        return Some(TrimPunct(parts[n]));
      }
      n := n + 1;
    }
    return None;
  }

  /** `Transport\s+hazard` */
  const TransportHazard: seq<Tok> := Phrase(["Transport", "hazard"])

  /** `^.*?Transport\s+hazard\s*(?:class(?:\(es\))?)?\s*`: the caption of a transport-hazard row. */
  const TransportCaption: seq<Tok> :=
    [Bol(false), Rep(NotNewline, 0, None, true)] + TransportHazard + [Ws0, Opt([Lit("class"), Opt([Lit("(es)")])]), Ws0]

  /** `DG\s*Class|Class\s*:` */
  const ClassCaption: seq<Tok> := [AnyOf([[Lit("DG"), Ws0, Lit("Class")], [Lit("Class"), Ws0, Lit(":")]])]

  /** A row joined with the next one, if any, to catch a caption split over two lines. */
  function Combined(lines: seq<string>, i: nat): string
    requires i < |lines|
  {
    if i + 1 < |lines| then lines[i] + " " + lines[i + 1] else lines[i]
  }

  /** A transport-hazard row: the first valid token after its caption. */
  function TransportRow(lines: seq<string>, i: nat, valid: string -> bool): Option<string>
    requires i < |lines|
  {
    if !Found(TransportHazard, lines[i], true) then None
    else FirstToken(Tokens(Remove(TransportCaption, Combined(lines, i), 0, true)), valid)
  }

  /** Rows `j` up to `end` (exclusive): the first valid token of the first row that has one. */
  function ClassWindow(lines: seq<string>, j: nat, end: nat, valid: string -> bool): Option<string>
    decreases |lines| - j
  {
    if j >= |lines| || j >= end then None
    else
      var v := FirstMapped(Tokens(lines[j]), TrimPunct, valid);
      if v.Some? then v else ClassWindow(lines, j + 1, end, valid)
  }

  /** A row with a class caption: the first valid token of that row and the five after it. */
  function ClassRow(lines: seq<string>, i: nat, valid: string -> bool): Option<string>
    requires i < |lines|
  {
    if !Found(ClassCaption, lines[i], true) then None else ClassWindow(lines, i, i + 6, valid)
  }

  function TransportRows(lines: seq<string>, valid: string -> bool): seq<Option<string>> {
    seq(|lines|, i requires 0 <= i < |lines| => TransportRow(lines, i, valid))
  }

  function ClassRows(lines: seq<string>, valid: string -> bool): seq<Option<string>> {
    seq(|lines|, i requires 0 <= i < |lines| => ClassRow(lines, i, valid))
  }

  /** Transport-hazard rows first, then rows with a class caption. */
  function DgClassTableWith(text: string, valid: string -> bool): Option<string> {
    if text == [] then None
    else
      var lines := NonBlankLines(text);
      var t := FirstSome(TransportRows(lines, valid), 0);
      if t.Some? then t else FirstSome(ClassRows(lines, valid), 0)
  }

  /** `extract_dg_class_from_table(section_text)` */
  function DgClassFromTable(text: string): Option<string> {
    DgClassTableWith(text, ValidateDangerousGoodsClass)
  }

  method ScanClassWindow(lines: seq<string>, i: nat, valid: string -> bool) returns (r: Option<string>)
    ensures r == ClassWindow(lines, i, i + 6, valid)
  {
    var j := i;
    while j < |lines| && j < i + 6
      invariant i <= j
      invariant ClassWindow(lines, j, i + 6, valid) == ClassWindow(lines, i, i + 6, valid)
      decreases |lines| - j
    {
      var v := FindFirstMapped(Tokens(lines[j]), TrimPunct, valid);
      if v.Some? {
        return v;
      }
      j := j + 1;
    }
    return None;
  }

  method TransportRowAt(lines: seq<string>, i: nat, valid: string -> bool) returns (r: Option<string>)
    requires i < |lines|
    ensures r == TransportRow(lines, i, valid)
  {
    if !Found(TransportHazard, lines[i], true) {
      return None;
    }
    var tail := Remove(TransportCaption, Combined(lines, i), 0, true);
    r := FindFirstToken(Tokens(tail), valid);
  }

  method ScanTransportRows(lines: seq<string>, valid: string -> bool) returns (r: Option<string>)
    ensures r == FirstSome(TransportRows(lines, valid), 0)
  {
    ghost var rows := TransportRows(lines, valid);
    var i := 0;
    while i < |lines|
      invariant 0 <= i <= |lines|
      invariant FirstSome(rows, i) == FirstSome(rows, 0)
    {
      var v := TransportRowAt(lines, i, valid);
      assert rows[i] == v;
      if v.Some? {
        return v;
      }
      i := i + 1;
    }
    return None;
  }

  method ClassRowAt(lines: seq<string>, i: nat, valid: string -> bool) returns (r: Option<string>)
    requires i < |lines|
    ensures r == ClassRow(lines, i, valid)
  {
    if !Found(ClassCaption, lines[i], true) {
      return None;
    }
    r := ScanClassWindow(lines, i, valid);
  }

  method ScanClassRows(lines: seq<string>, valid: string -> bool) returns (r: Option<string>)
    ensures r == FirstSome(ClassRows(lines, valid), 0)
  {
    ghost var rows := ClassRows(lines, valid);
    var idx := 0;
    while idx < |lines|
      invariant 0 <= idx <= |lines|
      invariant FirstSome(rows, idx) == FirstSome(rows, 0)
    {
      var v := ClassRowAt(lines, idx, valid);
      assert rows[idx] == v;
      if v.Some? {
        return v;
      }
      idx := idx + 1;
    }
    return None;
  }

  method ExtractDgClassFromTableWith(text: string, valid: string -> bool) returns (r: Option<string>)
    ensures r == DgClassTableWith(text, valid)
  {
    if text == [] {
      return None;
    }
    var lines := CollectMapped(SplitLines(text), Strip, NonEmpty);
    r := ScanTransportRows(lines, valid);
    if r.None? {
      r := ScanClassRows(lines, valid);
    }
  }

  method ExtractDgClassFromTable(text: string) returns (r: Option<string>)
    ensures r == DgClassFromTable(text)
  {
    r := ExtractDgClassFromTableWith(text, ValidateDangerousGoodsClass);
  }

  /** A value of a class window is a trimmed token of one of its rows, and it passes the test. */
  lemma {:induction false} ClassWindowSource(lines: seq<string>, j: nat, end: nat, valid: string -> bool) returns (a: nat, m: nat)
    requires ClassWindow(lines, j, end, valid).Some?
    ensures j <= a < end && a < |lines| && m < |Tokens(lines[a])|
    ensures ClassWindow(lines, j, end, valid) == Some(TrimPunct(Tokens(lines[a])[m]))
    ensures valid(TrimPunct(Tokens(lines[a])[m]))
    decreases |lines| - j
  {
    if FirstMapped(Tokens(lines[j]), TrimPunct, valid).Some? {
      a := j;
      m := FirstMappedFrom(Tokens(lines[j]), TrimPunct, valid);
    } else {
      a, m := ClassWindowSource(lines, j + 1, end, valid);
    }
  }

  /** A transport-hazard row's class is a trimmed token of the text after its caption, and it passes the test. */
  lemma TransportRowSource(lines: seq<string>, valid: string -> bool) returns (i: nat, m: nat)
    requires FirstSome(TransportRows(lines, valid), 0).Some?
    ensures i < |lines| && Found(TransportHazard, lines[i], true)
    ensures var parts := Tokens(Remove(TransportCaption, Combined(lines, i), 0, true));
      m < |parts| && TokenTaken(parts[m], valid)
      && FirstSome(TransportRows(lines, valid), 0) == Some(TrimPunct(parts[m]))
  {
    var rows := TransportRows(lines, valid);
    i := FirstSomeFound(rows, 0);
    assert rows[i] == TransportRow(lines, i, valid);
    m := FirstTokenFrom(Tokens(Remove(TransportCaption, Combined(lines, i), 0, true)), valid);
  }

  /** A class-caption row's class is a trimmed token of that row or one of the five after it, and it passes the test. */
  lemma ClassRowSource(lines: seq<string>, valid: string -> bool) returns (i: nat, j: nat, m: nat)
    requires FirstSome(ClassRows(lines, valid), 0).Some?
    ensures i <= j < i + 6 && j < |lines| && Found(ClassCaption, lines[i], true) && m < |Tokens(lines[j])|
    ensures FirstSome(ClassRows(lines, valid), 0) == Some(TrimPunct(Tokens(lines[j])[m]))
    ensures valid(TrimPunct(Tokens(lines[j])[m]))
  {
    var rows := ClassRows(lines, valid);
    i := FirstSomeFound(rows, 0);
    assert rows[i] == ClassRow(lines, i, valid);
    j, m := ClassWindowSource(lines, i, i + 6, valid);
  }

  /**
   * Where a table class comes from: the first transport-hazard row that yields
   * a token after its caption, or, when there is none, a token of a row within
   * six rows of a class caption. Either way it passes the test.
   */
  lemma DgClassTableSource(text: string, valid: string -> bool)
    requires DgClassTableWith(text, valid).Some?
    ensures valid(DgClassTableWith(text, valid).value)
    ensures var lines := NonBlankLines(text);
      DgClassTableWith(text, valid) == FirstSome(TransportRows(lines, valid), 0)
      || (FirstSome(TransportRows(lines, valid), 0).None?
          && DgClassTableWith(text, valid) == FirstSome(ClassRows(lines, valid), 0))
  {
    var lines := NonBlankLines(text);
    if FirstSome(TransportRows(lines, valid), 0).Some? {
      var i, m := TransportRowSource(lines, valid);
    } else {
      var i, j, m := ClassRowSource(lines, valid);
    }
  }

  /** `extract_dg_class_from_table` returns only tokens that `validate_dangerous_goods_class` accepts. */
  lemma DgClassFromTableValid(text: string)
    requires DgClassFromTable(text).Some?
    ensures ValidateDangerousGoodsClass(DgClassFromTable(text).value)
  {
    DgClassTableSource(text, ValidateDangerousGoodsClass);
  }

  /** `^.*?packing\s+group\s*`: the caption of a packing-group row. */
  const PackingCaption: seq<Tok> := [Bol(false), Rep(NotNewline, 0, None, true)] + FieldExtractorFixed.PackingGroupHeader + [Ws0]

  /**
   * The rows `j` up to `end` (exclusive) below a packing-group row: blank rows
   * are passed over, and a row yields its first valid cell.
   */
  function PackingBelow(lines: seq<string>, j: nat, end: nat, valid: string -> bool): Option<string>
    decreases |lines| - j
  {
    if j >= |lines| || j >= end then None
    else if Strip(lines[j]) == [] then PackingBelow(lines, j + 1, end, valid)
    else
      var v := FirstToken(FieldExtractorFixed.Cells(Strip(lines[j])), valid);
      if v.Some? then v else PackingBelow(lines, j + 1, end, valid)
  }

  /** A packing-group row: a valid token after the caption, else a valid cell of one of the next three rows. */
  function PackingRow(lines: seq<string>, i: nat, valid: string -> bool): Option<string>
    requires i < |lines|
  {
    if !Found(FieldExtractorFixed.PackingGroupHeader, lines[i], true) then None
    else
      var same := FirstToken(Tokens(Remove(PackingCaption, lines[i], 0, true)), valid);
      if same.Some? then same else PackingBelow(lines, i + 1, i + 4, valid)
  }

  function PackingRows(lines: seq<string>, valid: string -> bool): seq<Option<string>> {
    seq(|lines|, i requires 0 <= i < |lines| => PackingRow(lines, i, valid))
  }

  function PackingTableWith(text: string, valid: string -> bool): Option<string> {
    if text == [] then None else FirstSome(PackingRows(SplitLines(text), valid), 0)
  }

  /**
   * `extract_packing_group_from_table(section_text)`. Its packing-group pattern
   * is the same as VALID_PACKING_GROUPS, tried with `re.match` ignoring case.
   */
  function PackingGroupFromTable(text: string): Option<string> {
    PackingTableWith(text, FieldExtractor.IsPackingGroup)
  }

  method PackingLookBelow(lines: seq<string>, i: nat, valid: string -> bool) returns (r: Option<string>)
    ensures r == PackingBelow(lines, i + 1, i + 4, valid)
  {
    var j := i + 1;
    while j < |lines| && j < i + 4
      invariant i + 1 <= j
      invariant PackingBelow(lines, j, i + 4, valid) == PackingBelow(lines, i + 1, i + 4, valid)
      decreases |lines| - j
    {
      var tableLine := Strip(lines[j]);
      if tableLine == [] {
        j := j + 1;
        continue;
      }
      var cell := FindFirstToken(FieldExtractorFixed.Cells(tableLine), valid);
      if cell.Some? {
        return cell;
      }
      j := j + 1;
    }
    return None;
  }

  method ExtractPackingGroupFromTableWith(text: string, valid: string -> bool) returns (r: Option<string>)
    ensures r == PackingTableWith(text, valid)
  {
    if text == [] {
      return None;
    }
    var lines := SplitLines(text);
    ghost var rows := PackingRows(lines, valid);
    var i := 0;
    while i < |lines|
      invariant 0 <= i <= |lines|
      invariant FirstSome(rows, i) == FirstSome(rows, 0)
    {
      assert rows[i] == PackingRow(lines, i, valid);
      if Found(FieldExtractorFixed.PackingGroupHeader, lines[i], true) {
        var tail := Remove(PackingCaption, lines[i], 0, true);
        var v := FindFirstToken(Tokens(tail), valid);
        if v.Some? {
          return v;
        }
        v := PackingLookBelow(lines, i, valid);
        if v.Some? {
          return v;
        }
      }
      i := i + 1;
    }
    return None;
  }

  method ExtractPackingGroupFromTable(text: string) returns (r: Option<string>)
    ensures r == PackingGroupFromTable(text)
  {
    r := ExtractPackingGroupFromTableWith(text, FieldExtractor.IsPackingGroup);
  }

  /** A value found below a packing-group row is a trimmed non-blank cell of one of the window's rows, and it passes the test. */
  lemma {:induction false} PackingBelowSource(lines: seq<string>, j: nat, end: nat, valid: string -> bool) returns (a: nat, m: nat)
    requires PackingBelow(lines, j, end, valid).Some?
    ensures j <= a < end && a < |lines| && m < |FieldExtractorFixed.Cells(Strip(lines[a]))|
    ensures PackingBelow(lines, j, end, valid) == Some(TrimPunct(FieldExtractorFixed.Cells(Strip(lines[a]))[m]))
    ensures valid(TrimPunct(FieldExtractorFixed.Cells(Strip(lines[a]))[m]))
    decreases |lines| - j
  {
    if Strip(lines[j]) == [] || FirstToken(FieldExtractorFixed.Cells(Strip(lines[j])), valid).None? {
      a, m := PackingBelowSource(lines, j + 1, end, valid);
    } else {
      a := j;
      m := FirstTokenFrom(FieldExtractorFixed.Cells(Strip(lines[j])), valid);
    }
  }

  /** A packing-group row's value: a token after its caption (`j == i`), or a cell of one of the three rows after it. */
  lemma PackingRowSource(lines: seq<string>, i: nat, valid: string -> bool) returns (j: nat, m: nat)
    requires i < |lines| && PackingRow(lines, i, valid).Some?
    ensures i <= j < i + 4 && j < |lines| && Found(FieldExtractorFixed.PackingGroupHeader, lines[i], true)
    ensures valid(PackingRow(lines, i, valid).value)
    ensures j == i ==> var parts := Tokens(Remove(PackingCaption, lines[i], 0, true));
      m < |parts| && PackingRow(lines, i, valid) == Some(TrimPunct(parts[m]))
    ensures j > i ==> var cells := FieldExtractorFixed.Cells(Strip(lines[j]));
      m < |cells| && PackingRow(lines, i, valid) == Some(TrimPunct(cells[m]))
  {
    var parts := Tokens(Remove(PackingCaption, lines[i], 0, true));
    if FirstToken(parts, valid).Some? {
      j := i;
      m := FirstTokenFrom(parts, valid);
    } else {
      j, m := PackingBelowSource(lines, i + 1, i + 4, valid);
    }
  }

  /**
   * Where a table packing group comes from: the first row `i` that mentions the
   * packing group and yields a value, which passes the test; no earlier row
   * yielded anything.
   */
  lemma PackingTableSource(text: string, valid: string -> bool) returns (i: nat)
    requires PackingTableWith(text, valid).Some?
    ensures var lines := SplitLines(text);
      i < |lines| && PackingTableWith(text, valid) == PackingRow(lines, i, valid)
      && valid(PackingTableWith(text, valid).value)
    ensures var lines := SplitLines(text);
      forall x :: 0 <= x < i ==> PackingRow(lines, x, valid).None?
  {
    var lines := SplitLines(text);
    var rows := PackingRows(lines, valid);
    i := FirstSomeFound(rows, 0);
    assert rows[i] == PackingRow(lines, i, valid);
    var j, m := PackingRowSource(lines, i, valid);
    forall x | 0 <= x < i
      ensures PackingRow(lines, x, valid).None?
    {
      assert rows[x] == PackingRow(lines, x, valid);
    }
  }

  /** `extract_packing_group_from_table` returns only tokens that match the packing-group pattern. */
  lemma PackingGroupFromTableValid(text: string)
    requires PackingGroupFromTable(text).Some?
    ensures FieldExtractor.IsPackingGroup(PackingGroupFromTable(text).value)
  {
    var i := PackingTableSource(text, FieldExtractor.IsPackingGroup);
  }

  // ---- extract_product_name, extract_manufacturer(_global), extract_description ----

  /** `value or None`: an empty result counts as nothing found. */
  function NoneIfEmpty(s: string): (r: Option<string>)
    ensures r.Some? <==> s != []
    ensures r.Some? ==> r.value == s
  {
    if s == [] then None else Some(s)
  }

  /** `dedup_repeated_phrase(strip_leading_label_prefix(v))`: the clean-up of a product name or manufacturer candidate. */
  function Polished(v: string): string {
    DedupRepeatedPhrase(StripLeadingLabelPrefix(v))
  }

  /** `[A-Za-z]` */
  const Letter := Cls([Range('A', 'Z'), Range('a', 'z')], false)

  /** `[A-Za-z0-9]` */
  const Alnum := Cls([Range('A', 'Z'), Range('a', 'z'), Range('0', '9')], false)

  /** The labels of a product name, in priority order. */
  const ProductLabels: seq<Label> := [
    Label("Product\\s+identifier", Phrase(["Product", "identifier"])),
    Label("Product\\s+name", Phrase(["Product", "name"])),
    Label("Trade\\s+name", Phrase(["Trade", "name"])),
    Label("Commercial\\s+product\\s+name", Phrase(["Commercial", "product", "name"]))]

  /** Label-like fragments a product name or one of the first lines may be made of alone. */
  const OddLabels: seq<seq<Tok>> := [
    Phrase(["Alternative", "number(s)"]),
    Phrase(["Other", "Name(s)"]),
    Phrase(["Formulation", "#"]),
    [Lit("Registration"), Ws1, Lit("no"), Maybe(Chars(".")), Ws0, Maybe(Chars("–")), Ws0, Lit("US"), Maybe(Chars(":"))],
    [Lit("Group")]]

  /** `^(Pty\s+Ltd|Ltd|Inc\.?|Corp\.?|Company|...|Group)$`: a company suffix or a label-like fragment alone. */
  const ProductRejects: seq<Tok> := [
    Bol(false),
    AnyOf([Phrase(["Pty", "Ltd"]), [Lit("Ltd")], [Lit("Inc"), Maybe(Chars("."))], [Lit("Corp"), Maybe(Chars("."))],
           [Lit("Company")]] + OddLabels),
    Eol(false)]

  /** `(product\s+identifier|product\s+name|trade\s+name|commercial\s+product\s+name)`, matched in full against the lower-cased value. */
  const GenericProductLabel: seq<Tok> := [
    AnyOf([Phrase(["product", "identifier"]), Phrase(["product", "name"]), Phrase(["trade", "name"]),
           Phrase(["commercial", "product", "name"])])]

  /** A labelled product name that is kept: not a suffix or fragment alone, not a generic label, no transport or "not applicable" phrase. */
  predicate AcceptedProductName(v: string) {
    !MatchesAt(ProductRejects, v, 0, true)
    && !FullMatch(GenericProductLabel, Lower(v), false)
    && !HasKeyword(v, ["proper shipping name", "chemical formula", "un number"])
    && Lower(v) !in {"not applicable", "n/a", "na"}
  }

  /** A labelled product name that is kept: non-empty, not noise, and accepted. */
  predicate ProductKept(v: string) {
    v != [] && !IsNoiseText(v) && AcceptedProductName(v)
  }

  /** The label scan's result when `keep` accepts it. */
  function Kept(result: Option<string>, keep: string -> bool): (r: Option<string>)
    ensures r.Some? ==> r == result && keep(r.value)
  {
    if result.Some? && keep(result.value) then result else None
  }

  /** The first of `lines` that passes `ok` once stripped, polished; `None` when there is none or it polishes to nothing. */
  function LinesPick(lines: seq<string>, ok: string -> bool): Option<string> {
    match FirstMapped(lines, Strip, ok)
    case None => None
    case Some(line) => NoneIfEmpty(Polished(line))
  }

  /** The layered strategies: a modular value, else a kept label value polished, else the fallback. */
  function Layered(modular: Option<string>, hit: Option<string>, fallback: Option<string>): Option<string> {
    if modular.Some? then modular else if hit.Some? then NoneIfEmpty(Polished(hit.value)) else fallback
  }

  /** `^\d+\.|\bsection\b|\bidentification\b`, tried with `re.match`: a heading. */
  const HeadingStart: seq<Tok> := [
    AnyOf([[Bol(false), Digits1, Lit(".")], [WordBoundary, Lit("section"), WordBoundary],
           [WordBoundary, Lit("identification"), WordBoundary]])]

  /** `^(msds\s+date|date\s+of\s+issue|revision\s+date|version\s+date)\b` */
  const DateHeading: seq<Tok> := [
    Bol(false),
    AnyOf([Phrase(["msds", "date"]), Phrase(["date", "of", "issue"]), Phrase(["revision", "date"]), Phrase(["version", "date"])]),
    WordBoundary]

  /** A stripped line among the first fifteen that may be a product name: every filter of strategy 2 passes. */
  predicate ProductLine(line: string) {
    line != []
    && !MatchesAt(HeadingStart, line, 0, true)
    && !HasKeyword(line, ["supplier", "emergency", "telephone", "contact", "details"])
    && !MatchesAt([Bol(false), Lit("synonym(s)")], line, 0, true)
    && !MatchesAt([Bol(false), AnyOf([[Lit("use(s)")], [Lit("use of the substance")], [Lit("recommended use")]])], line, 0, true)
    && !MatchesAt([Bol(false), AnyOf([[Lit("msds")], [Lit("sds")]]), Ws1, Lit("date"), WordBoundary], line, 0, true)
    && !IsNoiseText(line)
    && Found([One(Alnum)], line, false) && 3 <= |line| <= 100
    && !Found([AnyOf([[Lit("@")], [Lit("www.")], [Lit(".com")], [Lit(".org")]])], line, true)
    && !MatchesAt([Bol(false), Rep(Cls([Ch(':'), Ch('-'), SpaceItem], false), 1, None, false), Eol(false)], line, 0, false)
    && !MatchesAt([Bol(false), AnyOf(OddLabels), Eol(false)], line, 0, true)
    && !HasKeyword(line, ["proper shipping name", "shipping name", "un number", "transport", "hazchem", "epg",
                          "chemical formula", "not applicable"])
    && !MatchesAt(DateHeading, Lower(line), 0, true)
  }

  /** The first fifteen lines of the text (split at `\n`). */
  function EarlyLines(text: string): seq<string> {
    Take(SplitOn(text, '\n'), 15)
  }

  function ProductNameWith(section1Text: string, labels: seq<Label>, keep: string -> bool, lineOk: string -> bool)
    : Option<string>
  {
    Layered(Section1.ProductName(section1Text), Kept(FieldValue("", labels, Some(section1Text)), keep),
            LinesPick(EarlyLines(section1Text), lineOk))
  }

  /** `extract_product_name(section1_text)`: the section 1 wrapper, then the label scan, then the early lines. */
  function ProductName(section1Text: string): Option<string> {
    ProductNameWith(section1Text, ProductLabels, ProductKept, ProductLine)
  }

  method PickLine(lines: seq<string>, ok: string -> bool) returns (r: Option<string>)
    ensures r == LinesPick(lines, ok)
  {
    var line := FindFirstMapped(lines, Strip, ok);
    if line.None? {
      return None;
    }
    return NoneIfEmpty(Polished(line.value));
  }

  method ExtractProductNameWith(section1Text: string, labels: seq<Label>, keep: string -> bool, lineOk: string -> bool)
    returns (r: Option<string>)
    ensures r == ProductNameWith(section1Text, labels, keep, lineOk)
  {
    var modular := Section1.ProductName(section1Text);
    if modular.Some? {
      return modular;
    }
    var result := ExtractFieldValue("", labels, Some(section1Text));
    if result.Some? && keep(result.value) {
      return NoneIfEmpty(Polished(result.value));
    }
    r := PickLine(EarlyLines(section1Text), lineOk);
  }

  method ExtractProductName(section1Text: string) returns (r: Option<string>)
    ensures r == ProductName(section1Text)
  {
    r := ExtractProductNameWith(section1Text, ProductLabels, ProductKept, ProductLine);
  }

  /** A line pick is the polished form of the first stripped line that passes the test. */
  lemma LinesPickSource(lines: seq<string>, ok: string -> bool) returns (k: nat)
    requires LinesPick(lines, ok).Some?
    ensures k < |lines| && ok(Strip(lines[k])) && LinesPick(lines, ok) == Some(Polished(Strip(lines[k])))
    ensures forall x :: 0 <= x < k ==> !ok(Strip(lines[x]))
  {
    k := FirstMappedFrom(lines, Strip, ok);
  }

  /** The layered strategies never yield an empty value when the modular one does not. */
  lemma LayeredNonEmpty(modular: Option<string>, hit: Option<string>, lines: seq<string>, ok: string -> bool)
    requires modular.Some? ==> modular.value != []
    requires Layered(modular, hit, LinesPick(lines, ok)).Some?
    ensures Layered(modular, hit, LinesPick(lines, ok)).value != []
  {
    if modular.None? && hit.None? {
      var k := LinesPickSource(lines, ok);
    }
  }

  /** `extract_product_name` never yields an empty name: each strategy returns a non-empty value or nothing. */
  lemma ProductNameNonEmpty(section1Text: string)
    requires ProductName(section1Text).Some?
    ensures ProductName(section1Text).value != []
  {
    Section1.GuardFilters(FieldExtractor.ProductName(section1Text));
    LayeredNonEmpty(Section1.ProductName(section1Text), Kept(FieldValue("", ProductLabels, Some(section1Text)), ProductKept),
                    EarlyLines(section1Text), ProductLine);
  }

  /**
   * A name of strategy 2 is the polished form of a stripped line among the first
   * fifteen that passes every filter (so it is 3 to 100 characters long and not
   * noise), and no earlier line passed them.
   */
  lemma ProductFromLinesSource(section1Text: string) returns (k: nat)
    requires LinesPick(EarlyLines(section1Text), ProductLine).Some?
    ensures k < |EarlyLines(section1Text)| && k < 15
    ensures var line := Strip(EarlyLines(section1Text)[k]);
      ProductLine(line) && 3 <= |line| <= 100 && !IsNoiseText(line)
      && LinesPick(EarlyLines(section1Text), ProductLine) == Some(Polished(line))
    ensures forall x :: 0 <= x < k ==> !ProductLine(Strip(EarlyLines(section1Text)[x]))
  {
    k := LinesPickSource(EarlyLines(section1Text), ProductLine);
  }

  /** A labelled name is a value of the label scan of section 1 that is not noise and not a bare label or company suffix. */
  lemma ProductLabelSource(section1Text: string)
    requires Kept(FieldValue("", ProductLabels, Some(section1Text)), ProductKept).Some?
    ensures var v := Kept(FieldValue("", ProductLabels, Some(section1Text)), ProductKept).value;
      FieldValue("", ProductLabels, Some(section1Text)) == Some(v) && v != [] && !IsNoiseText(v)
      && !MatchesAt(ProductRejects, v, 0, true) && !FullMatch(GenericProductLabel, Lower(v), false)
  {
  }

  /** The labels of a manufacturer, in priority order. */
  const ManufacturerLabels: seq<Label> := [
    Label("Manufacturer", [Lit("Manufacturer")]),
    Label("Supplier\\s+Name", Phrase(["Supplier", "Name"])),
    Label("Supplier", [Lit("Supplier")]),
    Label("Company\\s+name\\s+of\\s+supplier", Phrase(["Company", "name", "of", "supplier"])),
    Label("Producer", [Lit("Producer")]),
    Label("Company\\s+name", Phrase(["Company", "name"])),
    Label("Registered\\s+company\\s+name", Phrase(["Registered", "company", "name"])),
    Label("Distributor", [Lit("Distributor")])]

  /** `^(of\s+the\s+safety\s+data\s+sheet|Emergency\s+Telephone\s+Number|Company[:.]?\s*$|Company\s+No\.?[:.]?\s*$)$` */
  const ManufacturerRejects: seq<Tok> := [
    Bol(false),
    AnyOf([Phrase(["of", "the", "safety", "data", "sheet"]), Phrase(["Emergency", "Telephone", "Number"]),
           [Lit("Company"), Maybe(Chars(":.")), Ws0, Eol(false)],
           [Lit("Company"), Ws1, Lit("No"), Maybe(Chars(".")), Maybe(Chars(":.")), Ws0, Eol(false)]]),
    Eol(false)]

  /** A labelled manufacturer that is kept: non-empty, not noise, and not a rejected fragment. */
  predicate ManufacturerKept(v: string) {
    v != [] && !IsNoiseText(v) && !MatchesAt(ManufacturerRejects, v, 0, true)
  }

  /**
   * `Details\s+of\s+the\s+supplier[^\n]*\n(.{1,500}?)(?:\n\s*[A-Z][a-z]|\n\s*\d|$)`
   * under IGNORECASE and DOTALL, cut at the captured block.
   */
  const SupplierBlockParts: seq<seq<Tok>> := [
    Phrase(["Details", "of", "the", "supplier"]) + [AnyRun, Lit("\n")],
    [Rep(AnyChar, 1, Some(500), true)],
    [AnyOf([[Lit("\n"), Ws0, One(Cls([Range('A', 'Z')], false)), One(Cls([Range('a', 'z')], false))],
            [Lit("\n"), Ws0, One(Digit)],
            [Eol(false)]])]]

  /** `\b\d{2,4}[-\s]\d{2,4}[-\s]\d{2,4}\b`: a phone number somewhere in the line. */
  const PhoneInLine: seq<Tok> := [
    WordBoundary, DigitsBetween(2, 4), One(Utils.DashOrSpace), DigitsBetween(2, 4), One(Utils.DashOrSpace),
    DigitsBetween(2, 4), WordBoundary]

  /** A stripped line of the supplier block that names the manufacturer: every filter of strategy 2 passes. */
  predicate SupplierLine(line: string) {
    line != [] && !IsNoiseText(line) && |line| > 3
    && !Found(PhoneInLine, line, false)
    && !MatchesAt([Bol(false), AnyOf([Phrase(["Emergency", "Telephone", "Number"]), [Lit("Company"), Maybe(Chars(":.")), Ws0, Eol(false)]])],
                  line, 0, true)
    && !Found([AnyOf([Phrase(["safety", "data", "sheet"]), [Bol(false), Lit("section"), WordBoundary],
                      [Bol(false), Lit("page"), WordBoundary]])], line, true)
  }

  /** Strategy 2: the first line of the captured supplier block that passes every filter, polished. */
  function BlockPick(section1Text: string, block: seq<seq<Tok>>, lineOk: string -> bool): Option<string>
    requires |block| >= 2
  {
    match FieldExtractor.Group1(block, section1Text, true)
    case None => None
    case Some(b) => LinesPick(SplitOn(b, '\n'), lineOk)
  }

  function ManufacturerWith(section1Text: string, labels: seq<Label>, keep: string -> bool, block: seq<seq<Tok>>,
                            lineOk: string -> bool): Option<string>
    requires |block| >= 2
  {
    Layered(Section1.Manufacturer(section1Text), Kept(FieldValue("", labels, Some(section1Text)), keep),
            BlockPick(section1Text, block, lineOk))
  }

  /** `extract_manufacturer(section1_text)`: the section 1 wrapper, then the label scan, then the supplier block. */
  function Manufacturer(section1Text: string): Option<string> {
    ManufacturerWith(section1Text, ManufacturerLabels, ManufacturerKept, SupplierBlockParts, SupplierLine)
  }

  method ExtractManufacturerWith(section1Text: string, labels: seq<Label>, keep: string -> bool, block: seq<seq<Tok>>,
                                 lineOk: string -> bool) returns (r: Option<string>)
    requires |block| >= 2
    ensures r == ManufacturerWith(section1Text, labels, keep, block, lineOk)
  {
    var modular := Section1.Manufacturer(section1Text);
    if modular.Some? {
      return modular;
    }
    var result := ExtractFieldValue("", labels, Some(section1Text));
    if result.Some? && keep(result.value) {
      return NoneIfEmpty(Polished(result.value));
    }
    var found := FieldExtractor.Group1(block, section1Text, true);
    if found.None? {
      return None;
    }
    r := PickLine(SplitOn(found.value, '\n'), lineOk);
  }

  method ExtractManufacturer(section1Text: string) returns (r: Option<string>)
    ensures r == Manufacturer(section1Text)
  {
    r := ExtractManufacturerWith(section1Text, ManufacturerLabels, ManufacturerKept, SupplierBlockParts, SupplierLine);
  }

  /** `extract_manufacturer` never yields an empty name. */
  lemma ManufacturerNonEmpty(section1Text: string)
    requires Manufacturer(section1Text).Some?
    ensures Manufacturer(section1Text).value != []
  {
    Section1.GuardFilters(FieldExtractor.Manufacturer(section1Text));
    var hit := Kept(FieldValue("", ManufacturerLabels, Some(section1Text)), ManufacturerKept);
    if Section1.Manufacturer(section1Text).None? && hit.None? {
      var b := FieldExtractor.Group1(SupplierBlockParts, section1Text, true);
      var k := LinesPickSource(SplitOn(b.value, '\n'), SupplierLine);
    }
  }

  /**
   * A manufacturer of strategy 2 is the polished form of a stripped line of the
   * supplier block that is longer than three characters, not noise and holds no
   * phone number, and no earlier line of the block passed the filters.
   */
  lemma ManufacturerFromBlockSource(section1Text: string) returns (k: nat)
    requires BlockPick(section1Text, SupplierBlockParts, SupplierLine).Some?
    ensures var block := FieldExtractor.Group1(SupplierBlockParts, section1Text, true);
      block.Some? && k < |SplitOn(block.value, '\n')|
    ensures var lines := SplitOn(FieldExtractor.Group1(SupplierBlockParts, section1Text, true).value, '\n');
      var line := Strip(lines[k]);
      SupplierLine(line) && |line| > 3 && !IsNoiseText(line) && !Found(PhoneInLine, line, false)
      && BlockPick(section1Text, SupplierBlockParts, SupplierLine) == Some(Polished(line))
      && forall x :: 0 <= x < k ==> !SupplierLine(Strip(lines[x]))
  {
    var block := FieldExtractor.Group1(SupplierBlockParts, section1Text, true);
    k := LinesPickSource(SplitOn(block.value, '\n'), SupplierLine);
  }

  /** The labels of the document-wide manufacturer search, in priority order. */
  const GlobalManufacturerLabels: seq<Label> := ManufacturerLabels + [
    Label("Manufacturer\\s*/\\s*Supplier", [Lit("Manufacturer"), Ws0, Lit("/"), Ws0, Lit("Supplier")]),
    Label("Details\\s+of\\s+the\\s+supplier", Phrase(["Details", "of", "the", "supplier"]))]

  /** The first sixty lines of the document, joined again. */
  function Head(fullText: string): string {
    Join(Take(SplitLines(fullText), 60), "\n")
  }

  function ManufacturerGlobalWith(fullText: string, labels: seq<Label>): Option<string> {
    if fullText == [] then None
    else
      var v := FieldValue(Head(fullText), labels, Some(Head(fullText)));
      if v.Some? && v.value != [] && !IsNoiseText(v.value) then Some(StripLeadingLabelPrefix(DedupRepeatedPhrase(v.value)))
      else None
  }

  /**
   * `extract_manufacturer_global(full_text)`: the label scan over the first
   * sixty lines; the value is de-duplicated before its label prefix is
   * stripped, and an empty result is returned as it is.
   */
  function ManufacturerGlobal(fullText: string): Option<string> {
    ManufacturerGlobalWith(fullText, GlobalManufacturerLabels)
  }

  method ExtractManufacturerGlobalWith(fullText: string, labels: seq<Label>) returns (r: Option<string>)
    ensures r == ManufacturerGlobalWith(fullText, labels)
  {
    if fullText == [] {
      return None;
    }
    var head := Head(fullText);
    var v := ExtractFieldValue(head, labels, Some(head));
    if v.Some? && v.value != [] && !IsNoiseText(v.value) {
      return Some(StripLeadingLabelPrefix(DedupRepeatedPhrase(v.value)));
    }
    return None;
  }

  method ExtractManufacturerGlobal(fullText: string) returns (r: Option<string>)
    ensures r == ManufacturerGlobal(fullText)
  {
    r := ExtractManufacturerGlobalWith(fullText, GlobalManufacturerLabels);
  }

  /**
   * The document-wide manufacturer comes from a line among the first sixty of
   * the document, on the line of a label or at most five lines below it.
   */
  lemma ManufacturerGlobalSource(fullText: string, labels: seq<Label>) returns (i: nat, k: nat, j: nat)
    requires ManufacturerGlobalWith(fullText, labels).Some?
    ensures var lines := SplitOn(Head(fullText), '\n');
      i < |lines| && k < |labels| && j < |lines| && i <= j < i + 6
  {
    var v := FieldValue(Head(fullText), labels, Some(Head(fullText)));
    i, k, j := FieldValueSource(Head(fullText), Patterns(labels), Some(Head(fullText)),
                                SheetSkip(MentionsSupplier(labels)), IsNoiseText);
  }

  /** `extract_description(section1_text)`: the section 1 wrapper. */
  function Description(section1Text: string): (r: Option<string>)
    ensures r.Some? ==> r.value != [] && !Section1.IsHeaderContinuation(r.value)
  {
    Section1.GuardFilters(FieldExtractorFixed.Description(section1Text));
    Section1.Description(section1Text)
  }
}
