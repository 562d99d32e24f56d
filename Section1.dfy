/**
 * modules/section_1.py: the identification fields of Section 1. Each wrapper
 * calls an extractor and only filters its result: an empty value, or one that
 * is merely the continuation of a wrapped section heading ("of the safety data
 * sheet"), becomes None; anything else is passed through unchanged.
 */
module Section1 {
  import opened Wrappers
  import opened Text
  import opened Pattern
  import opened PatternLaws
  import opened Config
  import opened FieldExtractor
  import Utils
  import FieldExtractorFixed

  /** The four `HEADER_CONTINUATIONS`, each anchored at both ends. */
  const HeaderContinuations: seq<seq<Tok>> := [
    [Bol(false)] + Phrase(["of", "the", "chemical", "and", "restrictions", "on", "use"]) + [Eol(false)],
    [Bol(false)] + Phrase(["of", "the", "safety", "data", "sheet"]) + [Eol(false)],
    [Bol(false), Lit("or"), Ws1, Lit("supplier"), Maybe(Chars("'")), Lit("s"), Ws1, Lit("details"), Eol(false)],
    [Bol(false)] + Phrase(["of", "the", "company/undertaking"]) + [Eol(false)]]

  /** `_is_header_continuation`: the stripped text matches one of the continuations in full, ignoring case. */
  predicate IsHeaderContinuation(text: string) {
    AnyFullMatch(HeaderContinuations, Strip(text), true)
  }

  /** The guard every wrapper applies: keep a non-empty value that is not a heading continuation. */
  function Guard(v: Option<string>): Option<string> {
    if v.Some? && v.value != [] && !IsHeaderContinuation(v.value) then v else None
  }

  /** `section_1.product_name` */
  function ProductName(section1Text: string): Option<string> {
    Guard(FieldExtractor.ProductName(section1Text))
  }

  /** `section_1.manufacturer` */
  function Manufacturer(section1Text: string): Option<string> {
    Guard(FieldExtractor.Manufacturer(section1Text))
  }

  /** `section_1.description`: the description extractor exists only in the revised module. */
  function Description(section1Text: string): Option<string> {
    Guard(FieldExtractorFixed.Description(section1Text))
  }

  /** `section_1.product_use`: the label scan over `FIELD_LABELS['product_use']` in order. */
  function ProductUse(section1Text: string): Option<string> {
    Guard(AfterLabelWith(section1Text, ProductUseLabels, OriginalRules))
  }

  /** `_is_header_continuation` is true exactly when the stripped text fully matches one of the four phrases. */
  lemma ContinuationIff(text: string)
    ensures IsHeaderContinuation(text) <==>
      exists k :: 0 <= k < |HeaderContinuations| && FullMatch(HeaderContinuations[k], Strip(text), true)
  {
    AnyFullMatchSome(HeaderContinuations, Strip(text), true);
  }

  lemma {:induction false} AnyFullMatchOpens(pats: seq<seq<Tok>>, c: char, s: string, ci: bool)
    requires OpensWith(pats, c) && AnyFullMatch(pats, s, ci)
    ensures s != [] && SameChar(s[0], c, ci)
  {
    if FullMatch(pats[0], s, ci) {
      var p := pats[0];
      assert p == [Bol(false)] + ([Lit(p[1].text)] + p[2..]);
      AnchoredLitStart(p[1].text, p[2..], s, ci);
    } else {
      assert OpensWith(pats[1..], c) by {
        forall k | 0 <= k < |pats[1..]|
          ensures pats[1..][k] == pats[k + 1]
        {
        }
      }
      AnyFullMatchOpens(pats[1..], c, s, ci);
    }
  }

  lemma ContinuationsOpenWithO()
    ensures OpensWith(HeaderContinuations, 'o')
  {
    var words0 := ["of", "the", "chemical", "and", "restrictions", "on", "use"];
    var words1 := ["of", "the", "safety", "data", "sheet"];
    var words3 := ["of", "the", "company/undertaking"];
    assert Phrase(words0)[0] == Lit("of");
    assert Phrase(words1)[0] == Lit("of");
    assert Phrase(words3)[0] == Lit("of");
  }

  /** Every continuation phrase starts with "o" (of / or), in either case, once stripped. */
  lemma ContinuationStartsWithO(text: string)
    requires IsHeaderContinuation(text)
    ensures Strip(text) != [] && (Strip(text)[0] == 'o' || Strip(text)[0] == 'O')
  {
    ContinuationsOpenWithO();
    AnyFullMatchOpens(HeaderContinuations, 'o', Strip(text), true);
  }

  /** The guard only filters: its result is None or the extractor's own value, and it keeps exactly the non-empty non-continuations. */
  lemma GuardFilters(v: Option<string>)
    ensures Guard(v).None? || Guard(v) == v
    ensures Guard(v).Some? <==> v.Some? && v.value != [] && !IsHeaderContinuation(v.value)
  {
  }

  /** A value whose stripped form does not start with "o" is never taken for a continuation, so the guard keeps it. */
  lemma GuardKeepsOtherValues(v: string)
    requires v != [] && (Strip(v) == [] || (Strip(v)[0] != 'o' && Strip(v)[0] != 'O'))
    ensures Guard(Some(v)) == Some(v)
  {
    if IsHeaderContinuation(v) {
      ContinuationStartsWithO(v);
    }
  }

  /** The product use is a label value: non-empty, not noise, and never a heading continuation. */
  lemma ProductUseScreened(section1Text: string)
    requires ProductUse(section1Text).Some?
    ensures var u := ProductUse(section1Text).value;
      u != [] && !Utils.IsNoiseText(u) && !IsHeaderContinuation(u)
      && ProductUse(section1Text) == AfterLabelWith(section1Text, ProductUseLabels, OriginalRules)
  {
    AfterLabelNeverNoise(section1Text, ProductUseLabels);
  }

  /** The manufacturer is non-empty, not noise, not a continuation, and is what `extract_manufacturer` found. */
  lemma ManufacturerScreened(section1Text: string)
    requires Manufacturer(section1Text).Some?
    ensures var m := Manufacturer(section1Text).value;
      m != [] && !Utils.IsNoiseText(m) && !IsHeaderContinuation(m)
      && Manufacturer(section1Text) == FieldExtractor.Manufacturer(section1Text)
  {
    ManufacturerNeverNoise(section1Text);
  }

  /** The description is stripped, non-empty and not a continuation. */
  lemma DescriptionScreened(section1Text: string)
    requires Description(section1Text).Some?
    ensures var d := Description(section1Text).value;
      d != [] && Strip(d) == d && !IsHeaderContinuation(d)
      && Description(section1Text) == FieldExtractorFixed.Description(section1Text)
  {
    FieldExtractorFixed.DescriptionStripped(section1Text);
  }
}
