/**
 * `parse_pdf` of sds_extractor.py, from the extracted text on: the result
 * record is built field by field — product name, manufacturer, description,
 * product use, dangerous-goods class, subsidiary risk, packing group and issue
 * date — each with a confidence of 1.0 when its value is truthy and 0.0
 * otherwise, and a final sweep clears a product name or manufacturer that is
 * noise or a bare label. Empty text gives the error record.
 */
module SdsParsePdf {
  import opened Wrappers
  import opened Text
  import opened Pattern
  import opened Config
  import opened Dates
  import Utils
  import Section1
  import FieldExtractor
  import FieldExtractorFixed
  import DateParser
  import SdsExtractor
  import SdsExtractorDate

  /** Python truthiness of an optional string: present and non-empty. */
  predicate Truthy(v: Option<string>) {
    v.Some? && v.value != []
  }

  /** One entry of the result: `{'value': ..., 'confidence': ...}`. */
  datatype Field = Field(value: Option<string>, confidence: real)

  /** The entry for a value: confidence 1.0 when the value is truthy, else 0.0. */
  function Scored(v: Option<string>): Field {
    Field(v, if Truthy(v) then 1.0 else 0.0)
  }

  /** Everything the parser takes from outside the text: which PDF libraries loaded, the date library and today. */
  datatype Environment = Environment(pymupdf: bool, pdfplumber: bool, pdfminer: bool, today: Date,
                                     strptime: FieldExtractorFixed.Strptime, parse: DateParser.FreeDateParser,
                                     dateutilAvailable: bool)

  /** `extraction_info` */
  datatype ExtractionInfo = ExtractionInfo(textLength: nat, pymupdf: bool, pdfplumber: bool, pdfminer: bool, mode: string)

  /** The keys of the record's field entries. */
  datatype FieldName =
    | ProductName | Manufacturer | Description | ProductUse
    | DangerousGoodsClass | SubsidiaryRisk | PackingGroup | IssueDate

  /** The key as it is written in the record. */
  function Key(name: FieldName): string {
    match name
    case ProductName => "product_name"
    case Manufacturer => "manufacturer"
    case Description => "description"
    case ProductUse => "product_use"
    case DangerousGoodsClass => "dangerous_goods_class"
    case SubsidiaryRisk => "subsidiary_risk"
    case PackingGroup => "packing_group"
    case IssueDate => "issue_date"
  }

  /** The record `parse_pdf` returns: the error record, or the extraction info and the field entries. */
  datatype ParseResult =
    | Failed(error: string, info: ExtractionInfo)
    | Parsed(info: ExtractionInfo, fields: map<FieldName, Field>)

  function Info(textLength: nat, env: Environment): ExtractionInfo {
    ExtractionInfo(textLength, env.pymupdf, env.pdfplumber, env.pdfminer, "full")
  }

  const NoText: string := "Could not extract text from PDF"

  /** The fields the final sweep inspects, in order. */
  const SweptNames: seq<FieldName> := [ProductName, Manufacturer]

  // ---- label lists ----

  const UseLabels: seq<SdsExtractor.Label> := [
    SdsExtractor.Label("Recommended\\s+use", Phrase(["Recommended", "use"])),
    SdsExtractor.Label("Intended\\s+use", Phrase(["Intended", "use"])),
    SdsExtractor.Label("Use\\s+of\\s+the\\s+substance", Phrase(["Use", "of", "the", "substance"])),
    SdsExtractor.Label("Product\\s+use", Phrase(["Product", "use"])),
    SdsExtractor.Label("Relevant\\s+identified\\s+uses", Phrase(["Relevant", "identified", "uses"]))]

  /** `(?:\(es\))?` */
  const Plural: Tok := Opt([Lit("(es)")])

  const DgLabels: seq<SdsExtractor.Label> := [
    SdsExtractor.Label("DG\\s*Class", SdsExtractorDate.Tight(["DG", "Class"])),
    SdsExtractor.Label("Class", [Lit("Class")]),
    SdsExtractor.Label("Class/Division", [Lit("Class/Division")]),
    SdsExtractor.Label("Transport\\s*hazard\\s*class(?:\\(es\\))?",
                       SdsExtractorDate.Tight(["Transport", "hazard", "class"]) + [Plural]),
    SdsExtractor.Label("(?:IMDG|IATA|ADG)?\\s*Hazard\\s*Class(?:\\(es\\))?",
                       [Opt([AnyOf([[Lit("IMDG")], [Lit("IATA")], [Lit("ADG")]])]), Ws0]
                       + SdsExtractorDate.Tight(["Hazard", "Class"]) + [Plural]),
    SdsExtractor.Label("Hazard\\s*class(?:\\(es\\))?", SdsExtractorDate.Tight(["Hazard", "class"]) + [Plural]),
    SdsExtractor.Label("Dangerous\\s*goods\\s*class", SdsExtractorDate.Tight(["Dangerous", "goods", "class"])),
    SdsExtractor.Label("UN\\s*Class", SdsExtractorDate.Tight(["UN", "Class"]))]

  const SubsidiaryLabels: seq<SdsExtractor.Label> := [
    SdsExtractor.Label("Subsidiary\\s+risk", Phrase(["Subsidiary", "risk"]))]

  const PgLabels: seq<SdsExtractor.Label> := [
    SdsExtractor.Label("Packing\\s*group(?:\\(s\\))?",
                       SdsExtractorDate.Tight(["Packing", "group"]) + [Opt([Lit("(s)")])]),
    SdsExtractor.Label("Packing\\s*group\\s*\\(if\\s*applicable\\)",
                       SdsExtractorDate.Tight(["Packing", "group"]) + [Ws0, Lit("(if"), Ws0, Lit("applicable)")]),
    SdsExtractor.Label("PG", [Lit("PG")])]

  // ---- the fields ----

  /** The first truthy value of a chain of fallbacks, else the last one. */
  function FirstTruthy(a: Option<string>, b: Option<string>, c: Option<string>): Option<string> {
    if Truthy(a) then a else if Truthy(b) then b else c
  }

  /** The first fifteen lines of the text, joined again. */
  function Prefix(text: string): string {
    Join(Take(SplitLines(text), 15), "\n")
  }

  /** `\b(?:sds|safety\s+data\s+sheet)\b`, searched in the lower-cased, stripped name. */
  const SdsMention: seq<Tok> := [WordBoundary, AnyOf([[Lit("sds")], Phrase(["safety", "data", "sheet"])]), WordBoundary]

  predicate HeaderLikeName(name: string) {
    Found(SdsMention, Strip(Lower(name)), false)
  }

  /** The product name from section 1, else from the first fifteen lines. */
  function LayeredName(text: string, section1: string): Option<string> {
    var pn := SdsExtractor.ProductName(section1);
    if Truthy(pn) then pn else SdsExtractor.ProductName(Prefix(text))
  }

  /** A missing or sheet-title-like name is replaced by the whole-document wrapper's name, when it has one. */
  function ReplacedName(pn: Option<string>, alt: Option<string>, headerLike: string -> bool): Option<string> {
    if (!Truthy(pn) || headerLike(pn.value)) && Truthy(alt) then alt else pn
  }

  function ProductNameOf(text: string, section1: string): Option<string> {
    ReplacedName(LayeredName(text, section1), Section1.ProductName(text), HeaderLikeName)
  }

  /** `\b(Product\s+Name|Trade\s+name)\b`, ignoring case: the manufacturer is cut at it. */
  const NameLabel: seq<Tok> := [WordBoundary, AnyOf([Phrase(["Product", "Name"]), Phrase(["Trade", "name"])]), WordBoundary]

  /** The final clean-up of a manufacturer: cut at a name label, de-duplicated, label prefix removed, company-cleaned. */
  function TidyManufacturer(m: string): string {
    var head := Strip(SplitBy(NameLabel, m, 0, true)[0]);
    Utils.CleanCompany(SdsExtractor.StripLeadingLabelPrefix(SdsExtractor.DedupRepeatedPhrase(head)))
  }

  function ManufacturerOf(text: string, section1: string): Option<string> {
    var m := SdsExtractor.Manufacturer(section1);
    var found := if Truthy(m) then m else SdsExtractor.ManufacturerGlobal(text);
    if Truthy(found) then Some(TidyManufacturer(found.value)) else found
  }

  /** A truthy class that fails `valid` is dropped. */
  function Validated(v: Option<string>, valid: string -> bool): (r: Option<string>)
    ensures Truthy(r) ==> r == v && valid(r.value)
    ensures Truthy(v) && valid(v.value) ==> r == v
    ensures !Truthy(v) ==> r == v
  {
    if Truthy(v) && !valid(v.value) then None else v
  }

  /** The dangerous-goods class for `labels`: section 14's field, the label scan, the transport table, validated. */
  function DgClassWith(text: string, section14: string, labels: seq<SdsExtractor.Label>): Option<string> {
    Validated(
      FirstTruthy(FieldExtractor.Section14Field(section14, SdsExtractor.Patterns(labels), "dangerous_goods_class"),
                  SdsExtractor.FieldValue(text, labels, Some(section14)),
                  SdsExtractor.DgClassFromTable(section14)),
      SdsExtractor.ValidateDangerousGoodsClass)
  }

  function DgClassOf(text: string, section14: string): Option<string> {
    DgClassWith(text, section14, DgLabels)
  }

  /**
   * "II II" -> "II": when every whitespace-separated token equals the first,
   * ignoring case, the first token alone. `[t for t in re.split(r'\s+', pg) if t]`
   * is `pg.split()`.
   */
  function NormalisePackingGroup(pg: string): string {
    var toks := SplitWords(pg);
    if toks != [] && forall k :: 0 <= k < |toks| ==> Upper(toks[k]) == Upper(toks[0]) then toks[0] else pg
  }

  /** The packing group for `labels`: section 14's field, the label scan, the table, normalised. */
  function PackingGroupWith(text: string, section14: string, labels: seq<SdsExtractor.Label>): Option<string> {
    var pg := FirstTruthy(FieldExtractor.Section14Field(section14, SdsExtractor.Patterns(labels), "packing_group"),
                          SdsExtractor.FieldValue(text, labels, Some(section14)),
                          SdsExtractor.PackingGroupFromTable(section14));
    if Truthy(pg) then Some(NormalisePackingGroup(pg.value)) else pg
  }

  function PackingGroupOf(text: string, section14: string): Option<string> {
    PackingGroupWith(text, section14, PgLabels)
  }

  function ProductUseOf(text: string, section1: string): Option<string> {
    SdsExtractor.FieldValue(text, UseLabels, Some(section1))
  }

  function SubsidiaryRiskOf(text: string, section14: string): Option<string> {
    SdsExtractor.FieldValue(text, SubsidiaryLabels, Some(section14))
  }

  function IssueDateOf(text: string, env: Environment): Option<string> {
    SdsExtractorDate.ExtractDate(text, env.today, env.strptime, env.parse, env.dateutilAvailable)
  }

  // ---- the record ----

  /**
   * The extractors `parse_pdf` calls, as values: the section splitter, then
   * one extractor per field, given the whole text and the section the field
   * is read from (the description only from section 1, the date from the
   * whole text and the environment).
   */
  datatype Extractors = Extractors(
    section: (string, nat) -> string,
    productName: (string, string) -> Option<string>,
    manufacturer: (string, string) -> Option<string>,
    description: string -> Option<string>,
    productUse: (string, string) -> Option<string>,
    dgClass: (string, string) -> Option<string>,
    subsidiaryRisk: (string, string) -> Option<string>,
    packingGroup: (string, string) -> Option<string>,
    issueDate: (string, Environment) -> Option<string>)

  /** The extractors of this model. */
  const PdfExtractors: Extractors :=
    Extractors(SdsExtractor.GetSection, ProductNameOf, ManufacturerOf, SdsExtractor.Description, ProductUseOf,
               DgClassOf, SubsidiaryRiskOf, PackingGroupOf, IssueDateOf)

  /** The eight values, before the final sweep. */
  datatype Values = Values(productName: Option<string>, manufacturer: Option<string>, description: Option<string>,
                           productUse: Option<string>, dgClass: Option<string>, subsidiaryRisk: Option<string>,
                           packingGroup: Option<string>, issueDate: Option<string>)

  /** The value of one field. */
  function Value(vs: Values, name: FieldName): Option<string> {
    match name
    case ProductName => vs.productName
    case Manufacturer => vs.manufacturer
    case Description => vs.description
    case ProductUse => vs.productUse
    case DangerousGoodsClass => vs.dgClass
    case SubsidiaryRisk => vs.subsidiaryRisk
    case PackingGroup => vs.packingGroup
    case IssueDate => vs.issueDate
  }

  /** The eight values for the text, from its sections 1 and 14. */
  function ValuesOf(text: string, env: Environment, ex: Extractors): Values {
    var section1 := ex.section(text, 1);
    var section14 := ex.section(text, 14);
    Values(ex.productName(text, section1), ex.manufacturer(text, section1), ex.description(section1),
           ex.productUse(text, section1), ex.dgClass(text, section14), ex.subsidiaryRisk(text, section14),
           ex.packingGroup(text, section14), ex.issueDate(text, env))
  }

  /** The entries of the record, before the sweep. */
  function FieldsOf(vs: Values): map<FieldName, Field> {
    map[ProductName := Scored(vs.productName), Manufacturer := Scored(vs.manufacturer),
        Description := Scored(vs.description), ProductUse := Scored(vs.productUse),
        DangerousGoodsClass := Scored(vs.dgClass), SubsidiaryRisk := Scored(vs.subsidiaryRisk),
        PackingGroup := Scored(vs.packingGroup), IssueDate := Scored(vs.issueDate)]
  }

  // ---- the final sweep ----

  /** `(product\s+identifier|product\s+name|trade\s+name|commercial\s+product\s+name)\s*$` */
  const LabelLike: seq<Tok> := [
    AnyOf([Phrase(["product", "identifier"]), Phrase(["product", "name"]), Phrase(["trade", "name"]),
           Phrase(["commercial", "product", "name"])]),
    Ws0, Eol(false)]

  /** `^\s*\d+\.?\s*(identification|hazard)\b` */
  const HeaderLike: seq<Tok> := [
    Bol(false), Ws0, Digits1, Maybe(Chars(".")), Ws0, AnyOf([[Lit("identification")], [Lit("hazard")]]), WordBoundary]

  /** Why the sweep clears a value: noise, a bare label, or (for the product name) a section heading. */
  predicate Rejected(name: FieldName, v: string) {
    SdsExtractor.IsNoiseText(v) || FullMatch(LabelLike, Strip(v), true)
    || (name == ProductName && MatchesAt(HeaderLike, v, 0, true))
  }

  /** The sweep clears the entry of `name`. */
  predicate Clears(fields: map<FieldName, Field>, name: FieldName, rejected: (FieldName, string) -> bool) {
    name in fields && Truthy(fields[name].value) && rejected(name, fields[name].value.value)
  }

  /** The sweep over `names`, in order. */
  function Swept(fields: map<FieldName, Field>, names: seq<FieldName>, rejected: (FieldName, string) -> bool)
    : map<FieldName, Field>
  {
    if names == [] then fields
    else
      var next := if Clears(fields, names[0], rejected) then fields[names[0] := Field(None, 0.0)] else fields;
      Swept(next, names[1..], rejected)
  }

  /** The entry of one field after the sweep, directly: cleared when the sweep rejects its value. */
  function Final(name: FieldName, v: Option<string>): Field {
    if name in SweptNames && Truthy(v) && Rejected(name, v.value) then Field(None, 0.0) else Scored(v)
  }

  /** The record `parse_pdf` returns for the extracted text. */
  function Record(text: string, env: Environment, ex: Extractors): ParseResult {
    if text == [] then Failed(NoText, Info(0, env))
    else Parsed(Info(|text|, env), Swept(FieldsOf(ValuesOf(text, env, ex)), SweptNames, Rejected))
  }

  // ---- the steps ----

  method ProductNameStep(text: string, section1: string) returns (productName: Option<string>)
    ensures productName == ProductNameOf(text, section1)
  {
    productName := SdsExtractor.ExtractProductName(section1);
    var prefix := Prefix(text);
    if !Truthy(productName) {
      productName := SdsExtractor.ExtractProductName(prefix);
    }
    assert productName == LayeredName(text, section1);
    var sdsHeaderLike := false;
    if Truthy(productName) {
      var lowered := Strip(Lower(productName.value));
      if Found(SdsMention, lowered, false) {
        sdsHeaderLike := true;
      }
    }
    assert sdsHeaderLike <==> Truthy(productName) && HeaderLikeName(productName.value);
    if !Truthy(productName) || sdsHeaderLike {
      var altGlobal := Section1.ProductName(text);
      if Truthy(altGlobal) {
        productName := altGlobal;
      }
    }
  }

  method ManufacturerStep(text: string, section1: string) returns (manufacturer: Option<string>)
    ensures manufacturer == ManufacturerOf(text, section1)
  {
    manufacturer := SdsExtractor.ExtractManufacturer(section1);
    if !Truthy(manufacturer) {
      manufacturer := SdsExtractor.ExtractManufacturerGlobal(text);
    }
    ghost var found := manufacturer;
    if Truthy(manufacturer) {
      var m := Strip(SplitBy(NameLabel, manufacturer.value, 0, true)[0]);
      m := SdsExtractor.StripLeadingLabelPrefix(SdsExtractor.DedupRepeatedPhrase(m));
      m := Utils.CleanCompanyCandidate(m);
      manufacturer := Some(m);
      assert m == TidyManufacturer(found.value);
    }
  }

  method DgClassStep(text: string, section14: string, labels: seq<SdsExtractor.Label>) returns (dgClass: Option<string>)
    ensures dgClass == DgClassWith(text, section14, labels)
  {
    dgClass := FieldExtractor.ExtractSection14Field(section14, SdsExtractor.Patterns(labels), "dangerous_goods_class");
    if !Truthy(dgClass) {
      dgClass := SdsExtractor.ExtractFieldValue(text, labels, Some(section14));
    }
    if !Truthy(dgClass) {
      dgClass := SdsExtractor.ExtractDgClassFromTable(section14);
    }
    if Truthy(dgClass) && !SdsExtractor.ValidateDangerousGoodsClass(dgClass.value) {
      dgClass := None;
    }
  }

  method PackingGroupStep(text: string, section14: string, labels: seq<SdsExtractor.Label>)
    returns (packingGroup: Option<string>)
    ensures packingGroup == PackingGroupWith(text, section14, labels)
  {
    packingGroup := FieldExtractor.ExtractSection14Field(section14, SdsExtractor.Patterns(labels), "packing_group");
    if !Truthy(packingGroup) {
      packingGroup := SdsExtractor.ExtractFieldValue(text, labels, Some(section14));
    }
    if !Truthy(packingGroup) {
      packingGroup := SdsExtractor.ExtractPackingGroupFromTable(section14);
    }
    if Truthy(packingGroup) {
      packingGroup := Some(NormalisePackingGroup(packingGroup.value));
    }
  }

  /** The final validation loop over the product name and the manufacturer. */
  method Sweep(fields: map<FieldName, Field>, names: seq<FieldName>, rejected: (FieldName, string) -> bool)
    returns (result: map<FieldName, Field>)
    ensures result == Swept(fields, names, rejected)
  {
    result := fields;
    var n := 0;
    while n < |names|
      invariant 0 <= n <= |names|
      invariant Swept(result, names[n..], rejected) == Swept(fields, names, rejected)
    {
      assert names[n..][0] == names[n] && names[n..][1..] == names[n + 1..];
      var name := names[n];
      if name in result {
        var val := result[name].value;
        if Truthy(val) && rejected(name, val.value) {
          result := result[name := Field(None, 0.0)];
        }
      }
      n := n + 1;
    }
  }

  /**
   * `parse_pdf(path)` once the text has been extracted: the entries are
   * filled in field by field, then swept.
   */
  method ParsePdf(text: string, env: Environment, ex: Extractors) returns (r: ParseResult)
    ensures r == Record(text, env, ex)
  {
    if text == [] {
      return Failed(NoText, Info(0, env));
    }
    var section1 := ex.section(text, 1);
    var section14 := ex.section(text, 14);
    var result: map<FieldName, Field> := map[];

    var productName := ex.productName(text, section1);
    result := result[ProductName := Scored(productName)];
    var manufacturer := ex.manufacturer(text, section1);
    result := result[Manufacturer := Scored(manufacturer)];
    var description := ex.description(section1);
    result := result[Description := Scored(description)];
    var productUse := ex.productUse(text, section1);
    result := result[ProductUse := Scored(productUse)];
    var dgClass := ex.dgClass(text, section14);
    result := result[DangerousGoodsClass := Scored(dgClass)];
    var subsidiaryRisk := ex.subsidiaryRisk(text, section14);
    result := result[SubsidiaryRisk := Scored(subsidiaryRisk)];
    var packingGroup := ex.packingGroup(text, section14);
    result := result[PackingGroup := Scored(packingGroup)];
    var issueDate := ex.issueDate(text, env);
    result := result[IssueDate := Scored(issueDate)];

    assert result == FieldsOf(ValuesOf(text, env, ex));
    result := Sweep(result, SweptNames, Rejected);
    return Parsed(Info(|text|, env), result);
  }

  // ---- what the record promises ----

  /** Every key of the record. */
  const AllNames: set<FieldName> :=
    {ProductName, Manufacturer, Description, ProductUse, DangerousGoodsClass, SubsidiaryRisk, PackingGroup, IssueDate}

  lemma FieldsOfValue(vs: Values)
    ensures FieldsOf(vs).Keys == AllNames
    ensures forall name :: name in FieldsOf(vs) ==> FieldsOf(vs)[name] == Scored(Value(vs, name))
  {
  }

  /** The sweep keeps the keys, and leaves the entries it does not inspect alone. */
  lemma {:induction false} SweptKeeps(fields: map<FieldName, Field>, names: seq<FieldName>,
                                      rejected: (FieldName, string) -> bool)
    ensures Swept(fields, names, rejected).Keys == fields.Keys
    ensures forall n :: n in fields && n !in names ==> Swept(fields, names, rejected)[n] == fields[n]
    decreases |names|
  {
    if names != [] {
      var next := if Clears(fields, names[0], rejected) then fields[names[0] := Field(None, 0.0)] else fields;
      SweptKeeps(next, names[1..], rejected);
      forall n | n in fields && n !in names
        ensures Swept(fields, names, rejected)[n] == fields[n]
      {
        assert n !in names[1..];
      }
    }
  }

  /** Sweeping distinct names: an inspected entry is cleared exactly when it is rejected as it stood. */
  lemma {:induction false} SweptEntry(fields: map<FieldName, Field>, names: seq<FieldName>,
                                      rejected: (FieldName, string) -> bool, name: FieldName)
    requires name in fields && name in names
    requires forall i, j :: 0 <= i < j < |names| ==> names[i] != names[j]
    ensures name in Swept(fields, names, rejected)
    ensures Swept(fields, names, rejected)[name]
            == if Clears(fields, name, rejected) then Field(None, 0.0) else fields[name]
    decreases |names|
  {
    var next := if Clears(fields, names[0], rejected) then fields[names[0] := Field(None, 0.0)] else fields;
    if names[0] == name {
      assert name !in names[1..] by {
        forall k | 0 <= k < |names[1..]| ensures names[1..][k] != name {
          assert names[1..][k] == names[k + 1];
        }
      }
      SweptKeeps(next, names[1..], rejected);
    } else {
      assert name in names[1..];
      assert next[name] == fields[name];
      SweptEntry(next, names[1..], rejected, name);
    }
  }

  /** An empty text, and only an empty text, gives the error record; the info carries the text's length. */
  lemma RecordFailsOnlyWithoutText(text: string, env: Environment, ex: Extractors)
    ensures var r := Record(text, env, ex);
      (r.Failed? <==> text == []) && (r.Failed? ==> r.error == NoText)
      && r.info.textLength == |text| && r.info.mode == "full"
      && r.info.pymupdf == env.pymupdf && r.info.pdfplumber == env.pdfplumber && r.info.pdfminer == env.pdfminer
  {
  }

  /**
   * A record for a non-empty text has exactly the eight entries; each is its
   * extractor's value scored 1.0 or 0.0, except that a product name or
   * manufacturer the sweep rejects is cleared.
   */
  lemma RecordEntries(text: string, env: Environment, ex: Extractors)
    requires text != []
    ensures var r := Record(text, env, ex); var vs := ValuesOf(text, env, ex);
      r.Parsed? && r.fields.Keys == AllNames
      && forall name :: name in r.fields ==> r.fields[name] == Final(name, Value(vs, name))
  {
    var vs := ValuesOf(text, env, ex);
    var fields := FieldsOf(vs);
    FieldsOfValue(vs);
    SweptKeeps(fields, SweptNames, Rejected);
    var swept := Swept(fields, SweptNames, Rejected);
    forall name | name in swept
      ensures swept[name] == Final(name, Value(vs, name))
    {
      if name in SweptNames {
        SweptEntry(fields, SweptNames, Rejected, name);
      }
    }
  }

  /** Every entry's confidence is 1.0 when its value is truthy and 0.0 otherwise, before and after the sweep. */
  lemma ConfidenceMatchesValue(text: string, env: Environment, ex: Extractors)
    requires text != []
    ensures var r := Record(text, env, ex);
      r.Parsed? && forall name :: name in r.fields ==>
        r.fields[name].confidence == (if Truthy(r.fields[name].value) then 1.0 else 0.0)
  {
    RecordEntries(text, env, ex);
  }

  /**
   * After the sweep, a product name or manufacturer that is present is
   * neither noise nor a bare label, and a product name does not read as a
   * section heading; every other entry is its extractor's value.
   */
  lemma SweptEntriesClean(text: string, env: Environment, ex: Extractors)
    requires text != []
    ensures var r := Record(text, env, ex); var vs := ValuesOf(text, env, ex);
      r.Parsed? && r.fields.Keys == AllNames
      && (forall name :: name in SweptNames && Truthy(r.fields[name].value) ==>
            var v := r.fields[name].value.value;
            !SdsExtractor.IsNoiseText(v) && !FullMatch(LabelLike, Strip(v), true))
      && (Truthy(r.fields[ProductName].value) ==> !MatchesAt(HeaderLike, r.fields[ProductName].value.value, 0, true))
      && (forall name :: name in r.fields && name !in SweptNames ==> r.fields[name] == Scored(Value(vs, name)))
  {
    RecordEntries(text, env, ex);
  }

  /** A value the sweep does not reject survives it unchanged. */
  lemma SweepKeepsAccepted(text: string, env: Environment, ex: Extractors, name: FieldName)
    requires text != []
    requires var v := Value(ValuesOf(text, env, ex), name); !Truthy(v) || !Rejected(name, v.value)
    ensures var r := Record(text, env, ex);
      r.Parsed? && name in r.fields && r.fields[name] == Scored(Value(ValuesOf(text, env, ex), name))
  {
    RecordEntries(text, env, ex);
  }

  // ---- the fields ----

  /**
   * The product name is the first truthy pick of section 1 and then of the
   * first fifteen lines, unless a sheet-title-like or missing pick is
   * replaced by the whole-document name; a present name is never empty.
   */
  lemma ProductNameOfSources(text: string, section1: string)
    ensures var r := ProductNameOf(text, section1);
      var first := SdsExtractor.ProductName(section1);
      var early := SdsExtractor.ProductName(Prefix(text));
      var global := Section1.ProductName(text);
      (r == first || r == early || r == global)
      && (r.Some? <==> Truthy(r))
      && (Truthy(r) <==> Truthy(first) || Truthy(early) || Truthy(global))
      && (Truthy(first) && !HeaderLikeName(first.value) ==> r == first)
      && (Truthy(r) && HeaderLikeName(r.value) ==> r == global || !Truthy(global))
  {
    var first := SdsExtractor.ProductName(section1);
    var early := SdsExtractor.ProductName(Prefix(text));
    if first.Some? { SdsExtractor.ProductNameNonEmpty(section1); }
    if early.Some? { SdsExtractor.ProductNameNonEmpty(Prefix(text)); }
    Section1.GuardFilters(FieldExtractor.ProductName(text));
  }

  /** The tidied manufacturer is empty, or has no surrounding whitespace and does not end in ',', '.', ';' or ':'. */
  lemma TidyManufacturerTrimmed(m: string)
    ensures var r := TidyManufacturer(m);
      r == [] || (!IsSpace(r[0]) && !IsSpace(r[|r| - 1]) && !Utils.TrailingJunk.Has(r[|r| - 1]))
  {
    var head := Strip(SplitBy(NameLabel, m, 0, true)[0]);
    Utils.CleanCompanyTrimmed(SdsExtractor.StripLeadingLabelPrefix(SdsExtractor.DedupRepeatedPhrase(head)));
  }

  /** A present dangerous-goods class is one the validator accepts. */
  lemma DgClassValid(text: string, section14: string, labels: seq<SdsExtractor.Label>)
    ensures var r := DgClassWith(text, section14, labels);
      Truthy(r) ==> SdsExtractor.ValidateDangerousGoodsClass(r.value)
  {
  }

  /** Every word repeats the first, ignoring case. */
  predicate Repeats(ws: seq<string>) {
    ws != [] && forall k :: 0 <= k < |ws| ==> Upper(ws[k]) == Upper(ws[0])
  }

  lemma NormaliseIsRepeats(pg: string)
    ensures NormalisePackingGroup(pg) == if Repeats(SplitWords(pg)) then SplitWords(pg)[0] else pg
  {
  }

  /**
   * The normalised packing group is the text as it was, or its first word
   * when every word repeats it ignoring case; normalising twice changes
   * nothing more.
   */
  lemma NormaliseCollapsesRepeats(pg: string)
    ensures var r := NormalisePackingGroup(pg); var ws := SplitWords(pg);
      (r == pg || (ws != [] && r == ws[0] && forall k :: 0 <= k < |ws| ==> Upper(ws[k]) == Upper(r)))
      && NormalisePackingGroup(r) == r
  {
    var ws := SplitWords(pg);
    NormaliseIsRepeats(pg);
    if Repeats(ws) {
      var r := ws[0];
      assert NormalisePackingGroup(r) == r by {
        assert Unspaced(r);
        SingleWord(r);
        assert Repeats([r]);
        NormaliseIsRepeats(r);
      }
    }
  }

  /** Two words: "II II" and "ii II" collapse to their first word, "II III" is left alone. */
  lemma NormaliseTwoWords(a: string, b: string)
    requires a != [] && Unspaced(a)
    requires b != [] && Unspaced(b)
    ensures NormalisePackingGroup(a + " " + b) == if Upper(a) == Upper(b) then a else a + " " + b
  {
    SplitTwo(a, b);
    NormaliseIsRepeats(a + " " + b);
    assert Repeats([a, b]) <==> Upper(b) == Upper(a) by {
      var ws := [a, b];
      assert ws[0] == a && ws[1] == b && |ws| == 2;
    }
  }

  /** A packing group the scans find stays present, and is already in normal form. */
  lemma PackingGroupNormalised(text: string, section14: string, labels: seq<SdsExtractor.Label>)
    ensures var found := FirstTruthy(FieldExtractor.Section14Field(section14, SdsExtractor.Patterns(labels), "packing_group"),
                                     SdsExtractor.FieldValue(text, labels, Some(section14)),
                                     SdsExtractor.PackingGroupFromTable(section14));
      var r := PackingGroupWith(text, section14, labels);
      (Truthy(r) <==> Truthy(found)) && (Truthy(r) ==> NormalisePackingGroup(r.value) == r.value)
  {
    var found := FirstTruthy(FieldExtractor.Section14Field(section14, SdsExtractor.Patterns(labels), "packing_group"),
                             SdsExtractor.FieldValue(text, labels, Some(section14)),
                             SdsExtractor.PackingGroupFromTable(section14));
    if Truthy(found) {
      NormaliseKeepsPresent(found.value);
      NormaliseCollapsesRepeats(found.value);
    }
  }

  /** Normalising a non-empty text never empties it. */
  lemma NormaliseKeepsPresent(pg: string)
    requires pg != []
    ensures NormalisePackingGroup(pg) != []
  {
    NormaliseIsRepeats(pg);
  }
}
