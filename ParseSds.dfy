/**
 * `transform_to_chemfetch_format` of ocr_service/parse_sds.py: the record
 * `parse_pdf` returns is mapped onto the flat record the chemfetch backend
 * stores. A field is read only from an entry with a positive confidence; the
 * dangerous-goods class decides both the dangerous-good and the
 * hazardous-substance flags; the subsidiary risk becomes a list of at most one
 * element; a missing manufacturer becomes the empty vendor; the input record
 * is kept as the raw JSON.
 */
module ParseSds {
  import opened Wrappers
  import opened Text
  import opened Pattern
  import opened PatternLaws
  import Config
  import SdsExtractor
  import SdsParsePdf

  /**
   * One value of the parsed record: a dict, whose `value` and `confidence`
   * keys may be missing, or anything that is not a dict.
   */
  datatype Slot = Dict(value: Option<string>, confidence: Option<real>) | Other

  type ParsedData = map<string, Slot>

  /** `parsed_data.get(field_name, {})` */
  function Lookup(data: ParsedData, key: string): Slot {
    if key in data then data[key] else Dict(None, None)
  }

  /** `field.get('confidence', 0)` */
  function ConfidenceOf(field: Slot): real
    requires field.Dict?
  {
    if field.confidence.Some? then field.confidence.value else 0.0
  }

  /** `get_value`: the entry's value, when the entry is a dict with a positive confidence. */
  function GetValue(data: ParsedData, key: string): Option<string> {
    var field := Lookup(data, key);
    if field.Dict? && ConfidenceOf(field) > 0.0 then field.value else None
  }

  predicate Truthy(v: Option<string>) {
    SdsParsePdf.Truthy(v)
  }

  /** The words that mean "no class", compared with the lower-cased value. */
  const NotApplicable: seq<string> := ["none", "not applicable", "n/a", "na"]

  /** The class as stored: stripped when truthy, otherwise as read. */
  function CleanClass(raw: Option<string>): Option<string> {
    if Truthy(raw) then Some(Strip(raw.value)) else raw
  }

  /** `is_dangerous_good`, as written: a truthy class whose stripped, lower-cased form is none of the words. */
  predicate IsDangerousGood(raw: Option<string>) {
    Truthy(raw) && Lower(Strip(raw.value)) !in NotApplicable
  }

  /** `subsidiary_risks`: the risk itself, unstripped, unless it is empty or one of the words. */
  function SubsidiaryRisks(raw: Option<string>): seq<string> {
    if Truthy(raw) && Lower(raw.value) !in NotApplicable then [raw.value] else []
  }

  /** `x or ''` */
  function OrEmpty(v: Option<string>): string {
    if Truthy(v) then v.value else ""
  }

  /** The record in chemfetch's format. */
  datatype ChemfetchRecord = ChemfetchRecord(
    productId: int, productName: Option<string>, vendor: string, issueDate: Option<string>,
    hazardousSubstance: bool, dangerousGood: bool, dangerousGoodsClass: Option<string>,
    packingGroup: Option<string>, subsidiaryRisks: seq<string>, hazardStatements: seq<string>,
    rawJson: ParsedData)

  /** `transform_to_chemfetch_format` */
  function Transform(data: ParsedData, productId: int): ChemfetchRecord {
    var dgClass := GetValue(data, "dangerous_goods_class");
    var dangerous := IsDangerousGood(dgClass);
    ChemfetchRecord(
      productId, GetValue(data, "product_name"), OrEmpty(GetValue(data, "manufacturer")),
      GetValue(data, "issue_date"), dangerous, dangerous, CleanClass(dgClass),
      GetValue(data, "packing_group"), SubsidiaryRisks(GetValue(data, "subsidiary_risk")), [], data)
  }

  // ---- the record parse_pdf hands over ----

  /** An entry of `parse_pdf`'s record, as the dict it is serialised to. */
  function SlotOf(f: SdsParsePdf.Field): Slot {
    Dict(f.value, Some(f.confidence))
  }

  lemma KeyInjective(a: SdsParsePdf.FieldName, b: SdsParsePdf.FieldName)
    requires SdsParsePdf.Key(a) == SdsParsePdf.Key(b)
    ensures a == b
  {
    var ka, kb := SdsParsePdf.Key(a), SdsParsePdf.Key(b);
    assert |ka| == |kb| && ka[0] == kb[0] && ka[1] == kb[1] && ka[3] == kb[3];
  }

  /** No field key is one of the record's other keys, which both start with 'e'. */
  lemma KeyNotReserved(name: SdsParsePdf.FieldName)
    ensures SdsParsePdf.Key(name) != [] && SdsParsePdf.Key(name)[0] != 'e'
    ensures SdsParsePdf.Key(name) != "error" && SdsParsePdf.Key(name) != "extraction_info"
  {
    var key := SdsParsePdf.Key(name);
    assert key[0] != 'e';
    assert "error"[0] == 'e' && "extraction_info"[0] == 'e';
  }

  /**
   * `parse_pdf`'s record as a dict: the error message and the extraction info,
   * or the extraction info and one entry per field under its key.
   */
  function Serialised(r: SdsParsePdf.ParseResult): ParsedData {
    match r
    case Failed(_, _) => map["error" := Other, "extraction_info" := Dict(None, None)]
    case Parsed(_, fields) => Entries(fields)["extraction_info" := Dict(None, None)]
  }

  /** The field entries, each under its key. */
  function Entries(fields: map<SdsParsePdf.FieldName, SdsParsePdf.Field>): ParsedData {
    map name | name in fields :: SdsParsePdf.Key(name) := SlotOf(fields[name])
  }

  /** A value read back: the value when it is truthy, otherwise nothing. */
  function Kept(v: Option<string>): Option<string> {
    if Truthy(v) then v else None
  }

  // ---- the corrected dangerous-good flag ----

  /**
   * The dangerous-good flag as evidently intended: a class that also starts
   * with one of the phrases `validate_dangerous_goods_class` accepts as "not
   * applicable" ("not regulated", "not subject to", ...) is no dangerous good.
   */
  predicate IsDangerousGoodCorrected(raw: Option<string>) {
    IsDangerousGood(raw) && !AnyMatchesAt(SdsExtractor.NotApplicablePrefixes, Strip(raw.value), true)
  }

  /** The transform with the corrected flag. */
  function TransformCorrected(data: ParsedData, productId: int): ChemfetchRecord {
    var dangerous := IsDangerousGoodCorrected(GetValue(data, "dangerous_goods_class"));
    Transform(data, productId).(hazardousSubstance := dangerous, dangerousGood := dangerous)
  }

  // ---- properties ----

  /**
   * `get_value` yields a value only from a dict entry whose confidence is
   * positive, and then yields that entry's value; a missing key, a non-dict
   * entry, or a missing or non-positive confidence yields None.
   */
  lemma GetValueOnlyConfident(data: ParsedData, key: string)
    ensures GetValue(data, key).Some? ==>
      key in data && data[key].Dict? && data[key].confidence.Some? && data[key].confidence.value > 0.0
      && GetValue(data, key) == data[key].value
    ensures key in data && data[key].Dict? && data[key].confidence.Some? && data[key].confidence.value > 0.0
      ==> GetValue(data, key) == data[key].value
  {
  }

  /** A serialised `parse_pdf` entry reads back as its value when the confidence is positive. */
  lemma SerialisedLookup(info: SdsParsePdf.ExtractionInfo, fields: map<SdsParsePdf.FieldName, SdsParsePdf.Field>,
                         name: SdsParsePdf.FieldName)
    ensures GetValue(Serialised(SdsParsePdf.Parsed(info, fields)), SdsParsePdf.Key(name))
      == if name in fields && fields[name].confidence > 0.0 then fields[name].value else None
  {
    var key := SdsParsePdf.Key(name);
    var m := Entries(fields);
    var data := Serialised(SdsParsePdf.Parsed(info, fields));
    KeyNotReserved(name);
    assert Lookup(data, key) == Lookup(m, key);
    if name in fields {
      assert key in m && m[key] == SlotOf(fields[name]);
    } else if key in m {
      var n :| n in fields && SdsParsePdf.Key(n) == key;
      KeyInjective(n, name);
    }
  }

  /**
   * Reading `parse_pdf`'s record back: every field of a record for a
   * non-empty text yields exactly its final value when that is truthy, and
   * the error record for an empty text yields nothing.
   */
  lemma ReadsBackRecord(text: string, env: SdsParsePdf.Environment, ex: SdsParsePdf.Extractors,
                        name: SdsParsePdf.FieldName)
    ensures var vs := SdsParsePdf.ValuesOf(text, env, ex);
      GetValue(Serialised(SdsParsePdf.Record(text, env, ex)), SdsParsePdf.Key(name))
      == if text == [] then None else Kept(SdsParsePdf.Final(name, SdsParsePdf.Value(vs, name)).value)
  {
    var r := SdsParsePdf.Record(text, env, ex);
    var key := SdsParsePdf.Key(name);
    if text == [] {
      KeyNotReserved(name);
    } else {
      SdsParsePdf.RecordEntries(text, env, ex);
      SdsParsePdf.ConfidenceMatchesValue(text, env, ex);
      assert name in r.fields by { assert r.fields.Keys == SdsParsePdf.AllNames; }
      SerialisedLookup(r.info, r.fields, name);
    }
  }

  /**
   * dangerous_good holds exactly when the class entry is read (a dict with a
   * positive confidence) with a non-empty value whose stripped, lower-cased
   * form is not none, not applicable, n/a or na; the stored class is then
   * that stripped value, which is none of the words either.
   */
  lemma DangerousGoodMeaning(data: ParsedData, productId: int)
    ensures var c := Transform(data, productId); var k := "dangerous_goods_class";
      c.dangerousGood <==>
        (k in data && data[k].Dict? && data[k].confidence.Some? && data[k].confidence.value > 0.0
         && data[k].value.Some? && data[k].value.value != [] && Lower(Strip(data[k].value.value)) !in NotApplicable)
    ensures var c := Transform(data, productId);
      c.dangerousGood ==> c.dangerousGoodsClass.Some? && Lower(c.dangerousGoodsClass.value) !in NotApplicable
  {
    GetValueOnlyConfident(data, "dangerous_goods_class");
  }

  /** hazardous_substance is always dangerous_good. */
  lemma HazardousIsDangerous(data: ParsedData, productId: int)
    ensures Transform(data, productId).hazardousSubstance == Transform(data, productId).dangerousGood
  {
  }

  /**
   * subsidiary_risks has at most one element: the risk as read, unstripped,
   * which is non-empty and none of the words; it is empty exactly when no
   * such risk was read.
   */
  lemma SubsidiaryRisksShape(data: ParsedData, productId: int)
    ensures var rs := Transform(data, productId).subsidiaryRisks; var v := GetValue(data, "subsidiary_risk");
      |rs| <= 1
      && (|rs| == 1 ==> v == Some(rs[0]) && rs[0] != [] && Lower(rs[0]) !in NotApplicable)
      && (rs == [] <==> !Truthy(v) || Lower(v.value) in NotApplicable)
  {
  }

  /** vendor is the manufacturer read, and '' (never None) exactly when none was read. */
  lemma VendorDefault(data: ParsedData, productId: int)
    ensures var c := Transform(data, productId); var m := GetValue(data, "manufacturer");
      (c.vendor == [] <==> !Truthy(m)) && (Truthy(m) ==> c.vendor == m.value)
  {
  }

  /**
   * The product id is echoed, hazard_statements is always empty, raw_json is
   * the input unchanged, and the name, date and packing group are the values
   * read.
   */
  lemma PassedThrough(data: ParsedData, productId: int)
    ensures var c := Transform(data, productId);
      c.productId == productId && c.hazardStatements == [] && c.rawJson == data
      && c.productName == GetValue(data, "product_name") && c.issueDate == GetValue(data, "issue_date")
      && c.packingGroup == GetValue(data, "packing_group")
  {
  }

  /** The error record of an empty text transforms to a record with nothing found and no flags. */
  lemma FailedRecordEmpty(env: SdsParsePdf.Environment, ex: SdsParsePdf.Extractors, productId: int)
    ensures var c := Transform(Serialised(SdsParsePdf.Record([], env, ex)), productId);
      c.productName.None? && c.vendor == [] && c.issueDate.None? && !c.dangerousGood && !c.hazardousSubstance
      && c.dangerousGoodsClass.None? && c.packingGroup.None? && c.subsidiaryRisks == []
  {
    ReadsBackRecord([], env, ex, SdsParsePdf.ProductName);
    ReadsBackRecord([], env, ex, SdsParsePdf.Manufacturer);
    ReadsBackRecord([], env, ex, SdsParsePdf.IssueDate);
    ReadsBackRecord([], env, ex, SdsParsePdf.DangerousGoodsClass);
    ReadsBackRecord([], env, ex, SdsParsePdf.PackingGroup);
    ReadsBackRecord([], env, ex, SdsParsePdf.SubsidiaryRisk);
  }

  /** A class number such as "3" or "2.1", stripped, is a dangerous good, under both flags. */
  lemma ClassNumberIsDangerous(v: string)
    requires Config.DgClassShape(Strip(v))
    ensures IsDangerousGood(Some(v)) && IsDangerousGoodCorrected(Some(v)) && CleanClass(Some(v)) == Some(Strip(v))
  {
    var t := Strip(v);
    var i, j := StripSlice(v);
    assert v != [];
    assert Lower(t)[0] == t[0];
    assert forall w :: w in NotApplicable ==> w[0] == 'n';
    if AnyMatchesAt(SdsExtractor.NotApplicablePrefixes, t, true) {
      SdsExtractor.NotApplicableOpensWithN();
      AnyMatchesAtOpens(SdsExtractor.NotApplicablePrefixes, 'n', t, true);
    }
  }

  /** A whitespace-only class is a dangerous good, stored as the empty class. */
  lemma BlankClassIsDangerous(v: string)
    requires v != [] && forall k :: 0 <= k < |v| ==> IsSpace(v[k])
    ensures IsDangerousGood(Some(v)) && CleanClass(Some(v)) == Some([])
  {
    var i, j := StripSlice(v);
    StripEnds(v);
  }

  /** The first "not applicable" phrase, token by token. */
  lemma NotRegulatedPrefix()
    ensures SdsExtractor.NotApplicablePrefixes[0]
      == [Bol(false)] + ([Lit("no")] + ([Maybe(Chars("t"))] + ([Ws1] + [Lit("regulated")])))
  {
    var p := [Bol(false), Lit("no"), Maybe(Chars("t")), Ws1, Lit("regulated")];
    assert SdsExtractor.NotApplicablePrefixes[0] == p;
  }

  /** "no" then 't' at the start of the text. */
  lemma NoThenT(v: string)
    requires 3 <= |v| && LitAt(v, 0, "no", true) && v[2] == 't'
    ensures 2 in Ends([Lit("no")], v, 0, true) && 3 in Ends([Maybe(Chars("t"))], v, 2, true)
  {
    EndsLit("no", v, 0, true);
    EndsMaybe(Chars("t"), v, 2, true);
    assert InClass(Chars("t"), v[2], true) by { assert Chars("t").items[0] == Ch('t'); }
  }

  /** A space at 3, then "regulated". */
  lemma SpaceThenRegulated(v: string)
    requires 13 <= |v| && IsSpace(v[3]) && LitAt(v, 4, "regulated", true)
    ensures 4 in Ends([Ws1], v, 3, true) && 13 in Ends([Lit("regulated")], v, 4, true)
  {
    EndsRep(Space, 1, None, false, v, 3, true, 4);
    assert InClass(Space, v[3], true) by { assert ItemHas(SpaceItem, v[3]); }
    EndsLit("regulated", v, 4, true);
  }

  /** `^no(t)?\s+regulated` matches a text that reads "no", a 't', a space, then "regulated". */
  lemma NoRegulatedEnds(v: string)
    requires 13 <= |v| && LitAt(v, 0, "no", true) && v[2] == 't' && IsSpace(v[3]) && LitAt(v, 4, "regulated", true)
    ensures MatchesAt(SdsExtractor.NotApplicablePrefixes[0], v, 0, true)
  {
    var p := SdsExtractor.NotApplicablePrefixes[0];
    NotRegulatedPrefix();
    EndsBol(v, 0, true);
    NoThenT(v);
    SpaceThenRegulated(v);
    ChainEnds(p, Bol(false), Lit("no"), Maybe(Chars("t")), Ws1, Lit("regulated"), v, 0, 0, 2, 3, 4, 13, true);
  }

  /** Such a text starts with one of the "not applicable" phrases. */
  lemma NoRegulatedMatches(v: string)
    requires 13 <= |v| && LitAt(v, 0, "no", true) && v[2] == 't' && IsSpace(v[3]) && LitAt(v, 4, "regulated", true)
    ensures AnyMatchesAt(SdsExtractor.NotApplicablePrefixes, v, true)
  {
    NoRegulatedEnds(v);
  }

  /** "Not regulated" opens with "no", ignoring case, then a 't' and a space. */
  lemma NotRegulatedHead(v: string)
    requires v == "Not regulated"
    ensures 13 <= |v| && LitAt(v, 0, "no", true) && v[2] == 't' && IsSpace(v[3])
  {
    LitAtChars(v, 0, "no", true);
  }

  /** "Not regulated" reads "regulated" from 4 on. */
  lemma NotRegulatedTail(v: string)
    requires v == "Not regulated"
    ensures 13 <= |v| && LitAt(v, 4, "regulated", true)
  {
    LitAtChars(v, 4, "regulated", true);
  }

  /**
   * `validate_dangerous_goods_class` accepts "Not regulated" as a "not
   * applicable" phrase, yet it is none of the words the flag as written
   * compares with.
   */
  lemma NotRegulatedAccepted(v: string)
    requires v == "Not regulated"
    ensures SdsExtractor.ValidateDangerousGoodsClass(v)
    ensures IsDangerousGood(Some(v)) && !IsDangerousGoodCorrected(Some(v))
  {
    StripUnpadded(v);
    assert |Lower(v)| == 13;
    assert forall w :: w in NotApplicable ==> |w| != 13;
    NotRegulatedHead(v);
    NotRegulatedTail(v);
    NoRegulatedMatches(v);
  }

  /**
   * A record whose class reads "Not regulated", which the validator
   * accepts, is transformed into a dangerous good and a hazardous substance;
   * the corrected transform flags neither.
   */
  lemma NotRegulatedMarkedDangerous(v: string, productId: int)
    requires v == "Not regulated"
    ensures var c := Transform(map["dangerous_goods_class" := Dict(Some(v), Some(1.0))], productId);
      SdsExtractor.ValidateDangerousGoodsClass(v) && c.dangerousGood && c.hazardousSubstance
    ensures !TransformCorrected(map["dangerous_goods_class" := Dict(Some(v), Some(1.0))], productId).dangerousGood
  {
    NotRegulatedAccepted(v);
    var data := map["dangerous_goods_class" := Dict(Some(v), Some(1.0))];
    assert GetValue(data, "dangerous_goods_class") == Some(v);
  }

  /**
   * For a class the validator accepts, the corrected flag holds exactly for
   * a class number: the "not applicable" phrases it also accepts no longer
   * count as dangerous goods.
   */
  lemma CorrectedFollowsValidator(v: string)
    requires SdsExtractor.ValidateDangerousGoodsClass(v)
    ensures IsDangerousGoodCorrected(Some(v)) <==> Config.DgClassShape(Strip(v))
  {
    Config.DgClassPattern(Strip(v));
    if Config.DgClassShape(Strip(v)) {
      ClassNumberIsDangerous(v);
    }
  }

  /**
   * When the class read is one the validator accepts, the corrected
   * transform flags a dangerous good exactly when the class is a class
   * number.
   */
  lemma CorrectedFlagOfValidated(data: ParsedData, productId: int)
    requires var dg := GetValue(data, "dangerous_goods_class");
      Truthy(dg) ==> SdsExtractor.ValidateDangerousGoodsClass(dg.value)
    ensures var dg := GetValue(data, "dangerous_goods_class");
      TransformCorrected(data, productId).dangerousGood <==> Truthy(dg) && Config.DgClassShape(Strip(dg.value))
  {
    var dg := GetValue(data, "dangerous_goods_class");
    if Truthy(dg) {
      CorrectedFollowsValidator(dg.value);
    }
  }

  /**
   * The class read back from `parse_pdf`'s record is the class `parse_pdf`
   * found, and so one the validator accepts when the extractor validates its
   * result, as `SdsParsePdf.DgClassValid` shows this model's extractor does.
   */
  lemma RecordClassValidated(text: string, env: SdsParsePdf.Environment, ex: SdsParsePdf.Extractors)
    requires var dg := ex.dgClass(text, ex.section(text, 14));
      Truthy(dg) ==> SdsExtractor.ValidateDangerousGoodsClass(dg.value)
    ensures var dg := ex.dgClass(text, ex.section(text, 14));
      var read := GetValue(Serialised(SdsParsePdf.Record(text, env, ex)), "dangerous_goods_class");
      read == (if text != [] && Truthy(dg) then dg else None)
      && (Truthy(read) ==> SdsExtractor.ValidateDangerousGoodsClass(read.value))
  {
    var dg := SdsParsePdf.Value(SdsParsePdf.ValuesOf(text, env, ex), SdsParsePdf.DangerousGoodsClass);
    ReadsBackRecord(text, env, ex, SdsParsePdf.DangerousGoodsClass);
    assert SdsParsePdf.Final(SdsParsePdf.DangerousGoodsClass, dg).value == dg;
  }

  /**
   * When the extractor validates its class, the corrected transform of
   * `parse_pdf`'s record flags a dangerous good exactly when the class
   * `parse_pdf` found is a class number.
   */
  lemma CorrectedRecordFlag(text: string, env: SdsParsePdf.Environment, ex: SdsParsePdf.Extractors, productId: int)
    requires var dg := ex.dgClass(text, ex.section(text, 14));
      Truthy(dg) ==> SdsExtractor.ValidateDangerousGoodsClass(dg.value)
    ensures var dg := ex.dgClass(text, ex.section(text, 14));
      var data := Serialised(SdsParsePdf.Record(text, env, ex));
      TransformCorrected(data, productId).dangerousGood <==> text != [] && Truthy(dg) && Config.DgClassShape(Strip(dg.value))
  {
    RecordClassValidated(text, env, ex);
    CorrectedFlagOfValidated(Serialised(SdsParsePdf.Record(text, env, ex)), productId);
  }
}
