# chemfetch SDS field extraction, modelled in Dafny

chemfetch reads Safety Data Sheets (SDS) as PDFs. It pulls out the text and then fills a product record with
these fields: product name, manufacturer, description, product use, dangerous-goods class, subsidiary risk,
packing group and issue date. This project models the rule-based stage that runs after the text has been
extracted. That stage splits the text into lines and sections, scans them for labels, screens out noise,
validates the transport fields and picks the issue date. It then maps the result onto the record the backend
stores. The stage is deterministic string processing. Each Python function is a Dafny function over
`string` = `seq<char>`. The line scans that the source writes as loops are also `method`s with `while` loops,
each proved equal to its specification function.

Modules, following the source files:

- `Wrappers`, `Text`: `Option` (Python's `None`) and the Python string operations the extractors use: `strip`,
  `split`, `splitlines`, `lower`/`upper`, `in`, `startswith`. `str.isspace` defines whitespace; letters, digits
  and case folding are ASCII.
- `Pattern`, `PatternLaws`: the regular expressions of the source as data (a token datatype), with their
  meaning under Python `re`'s backtracking rules. `Ends` lists where a pattern can finish, in the order the
  backtracking matcher tries them. On top of it come `match`, `fullmatch`, `search`, the first capture group
  and `re.sub` with a count. Every pattern in the core is transcribed token by token, so the label lists stay
  configuration data.
- `Config` (modules/config.py): SECTION_PATTERN, DATE_PATTERN, FIELD_LABELS, NOISE_LABELS, VALID_DG_CLASSES,
  VALID_PACKING_GROUPS, MIN_TEXT_LENGTH.
- `Utils` (modules/utils.py): the noise classifier, the company-name cleaner, the dangerous-goods validator,
  the section locator, and the duplicate-letter normalisers, plain and with an index map.
- `Scan`: the order shared by the label scans. Lines form the outer loop and labels the inner loop; the first
  cell that yields a value wins.
- `FieldExtractor` (modules/field_extractor.py), `FieldExtractorFixed` (modules/field_extractor_fixed.py):
  - the label-directed scans, with the same-line value, the bounded look-below and the noise-then-retry rule;
  - the Section 14 transport fields and the table scans;
  - the product-name, manufacturer and description strategies;
  - the header-date scan and the legacy line scan.
- `Section1` (modules/section_1.py): the continuation guard and the four wrappers.
- `Dates`, `DateParser` (modules/date_parser.py): calendar dates, the `YYYY-MM-DD` form, and issue-date
  selection by label priority with future dates rejected.
- `SdsExtractor`, `SdsExtractorDate`, `SdsParsePdf` (sds_extractor.py):
  - the orchestrating extractor's own noise test, validator and section locator;
  - its field and table scans, and its product-name, manufacturer and date strategies;
  - `parse_pdf` from the extracted text on: the record with its confidences, the packing-group normalisation
    and the final sweep.
- `WorkingParser` (working_parser.py): the older stand-alone variants, including its `parse_pdf`.
- `ParseSds` (ocr_service/parse_sds.py): `transform_to_chemfetch_format`.
- `QuickParser` (ocr_service/quick_parser.py): `parse_sds_from_text`.

Outside behaviour becomes a parameter: `date.today()`, `datetime.strptime`, `dateutil.parser.parse`, whether
`dateutil` imports, and which PDF libraries are present. `parse_pdf` takes its strategies as a record of
functions (`SdsParsePdf.Extractors`). Lemmas about the record hold for any strategies with the stated
properties. Separate lemmas show that the source's own strategies have those properties.

### Where the code and its description differ

The model follows the code in each case.

- `validate_dangerous_goods_class` in sds_extractor.py and working_parser.py matches the "not applicable"
  phrases with `re.match`, so a prefix is enough. The description of the system says the whole value must
  match; only modules/utils.py does that.
- The labelled-ISO fast path of `extract_date` (sds_extractor.py:696-703) returns the date as written and does
  not reject a future date. The description says future dates are always rejected.
- In `extract_issue_date` the preference for issue or revision labels has no effect. Every label alternative of
  DATE_PATTERN already holds a preferred keyword, so the first acceptable candidate in text order wins
  (`DateParser.DateMatchesPreferred`).
- modules/field_extractor.py has no `extract_date_from_header` or `extract_description`, yet sds_extractor.py
  and section_1.py call them. The versions in modules/field_extractor_fixed.py are the ones modelled.
- Several calls pass `re.IGNORECASE` where `re.sub` expects its count (sds_extractor.py:388 and 415,
  field_extractor_fixed.py:200 and 358-359, working_parser.py:182). Those substitutions are case-sensitive and
  replace at most two occurrences (the flag's value is 2). The model does the same.
- working_parser.py's `validate_dangerous_goods_class` (lines 74-101) is the same function as sds_extractor.py's,
  so `WorkingParser` uses `SdsExtractor.ValidateDangerousGoodsClass`.

## Model

| member | source | states |
|---|---|---|
| Config.FieldLabels | chemfetch-backend-live/ocr_service/sds_parser_new/modules/config.py:15-65 | `FIELD_LABELS.get(field, [])`: a field the table does not list has no label patterns |
| Config.DgClassPattern | chemfetch-backend-live/ocr_service/sds_parser_new/modules/config.py:80 | VALID_DG_CLASSES accepts a text exactly when it is one digit 1-9, optionally followed by '.' and one digit 1-9 |
| Config.SectionAtDigit | chemfetch-backend-live/ocr_service/sds_parser_new/modules/config.py:7 | a line that opens with one digit is a SECTION_PATTERN header exactly when one whitespace, ':' or '.' character and then whitespace follow the digit |
| Config.SectionHeaderExamples | chemfetch-backend-live/ocr_service/sds_parser_new/modules/config.py:7 | "2 Fred Street" is not a section header; "2. Hazards" is |
| Config.PackingGroupOpens | chemfetch-backend-live/ocr_service/sds_parser_new/modules/config.py:83 | VALID_PACKING_GROUPS only accepts text that opens with I or N, in either case |
| Config.PackingGroupRejects | chemfetch-backend-live/ocr_service/sds_parser_new/modules/config.py:83 | "V" and "7" are not packing groups |
| Config.PackingGroupAcceptsIV | chemfetch-backend-live/ocr_service/sds_parser_new/modules/config.py:83 | "IV" is a packing group: `I{1,3}` leaves the "V" and the `IV?` alternative takes it |
| Config.PackingGroupMeaning | chemfetch-backend-live/ocr_service/sds_parser_new/modules/config.py:83 | VALID_PACKING_GROUPS, ignoring case, accepts a text exactly when it is I, II, III or IV; NA with an optional '.' after the N, an optional '/' after that and an optional '.' at the end (N/A, N.A., N./A. and the rest); None; or "Not", whitespace and one of "applicable", "required", "assigned" or "subject"; optionally followed by one final newline, which `$` lets through |
| Config.SectionTailExactly | chemfetch-backend-live/ocr_service/sds_parser_new/modules/config.py:7 | after the number a header needs one whitespace, ':' or '.' character and then whitespace |
| Utils.NoiseDependsOnStrippedText | chemfetch-backend-live/ocr_service/sds_parser_new/modules/utils.py:11-41 | the verdict of `is_noise_text` depends only on the stripped text |
| Utils.ShortTextIsNoise | chemfetch-backend-live/ocr_service/sds_parser_new/modules/utils.py:13-14 | text shorter than two characters once stripped is noise, a lone digit such as "9" included |
| Utils.NoiseLabelIsNoise | chemfetch-backend-live/ocr_service/sds_parser_new/modules/utils.py:19-21 | text whose stripped form fully matches one of NOISE_LABELS, ignoring case, is noise |
| Utils.CleanCompanyCandidate | chemfetch-backend-live/ocr_service/sds_parser_new/modules/utils.py:44-102 | the step-by-step clean-up: "" for empty input and for a section header; any other result has no surrounding whitespace and does not end in ',', '.', ';' or ':' |
| Utils.CleanCompanyTrimmed | chemfetch-backend-live/ocr_service/sds_parser_new/modules/utils.py:99-102 | a cleaned company name is empty or stripped, and never ends in ',', '.', ';' or ':' |
| Utils.ValidatedMeaning | chemfetch-backend-live/ocr_service/sds_parser_new/modules/utils.py:105-131 | a dangerous-goods class is accepted exactly when, stripped, it is a class number or fully matches one of the "not applicable" phrases |
| Utils.ValidatedDigitIsClass | chemfetch-backend-live/ocr_service/sds_parser_new/modules/utils.py:112-114 | an accepted value that starts with a digit is a class number `d` or `d.d`, digits 1-9 |
| Utils.UnNumberRejected | chemfetch-backend-live/ocr_service/sds_parser_new/modules/utils.py:105-131 | a four-digit UN number such as "1950" is rejected |
| Utils.SubsectionRejected | chemfetch-backend-live/ocr_service/sds_parser_new/modules/utils.py:105-131 | a stripped value that opens with two digits, such as the sub-section number "14.5", is rejected |
| Utils.SubsectionExample | chemfetch-backend-live/ocr_service/sds_parser_new/modules/utils.py:105-131 | "14.5" is rejected |
| Utils.NotApplicableAccepted | chemfetch-backend-live/ocr_service/sds_parser_new/modules/utils.py:105-131 | a stripped value that reads "not" (the 't' present), one whitespace character and "applicable", in any case, is accepted |
| Utils.NotApplicableExample | chemfetch-backend-live/ocr_service/sds_parser_new/modules/utils.py:105-131 | "not applicable" is accepted |
| Utils.SlashedNaAccepted | chemfetch-backend-live/ocr_service/sds_parser_new/modules/utils.py:105-131 | a stripped value "N/A" in any case is accepted |
| Utils.SlashedNaExample | chemfetch-backend-live/ocr_service/sds_parser_new/modules/utils.py:105-131 | "N/A" is accepted |
| Utils.ClassAccepted | chemfetch-backend-live/ocr_service/sds_parser_new/modules/utils.py:112-114 | every class number 1-9 is accepted |
| Utils.DivisionAccepted | chemfetch-backend-live/ocr_service/sds_parser_new/modules/utils.py:112-114 | every class with a division, both digits 1-9, is accepted |
| Utils.GetSection | chemfetch-backend-live/ocr_service/sds_parser_new/modules/utils.py:134-153 | "" when no line opens with the section number; otherwise the slice of the text from just after that header line to the first later SECTION_PATTERN header with a strictly greater number, or to the end |
| Utils.SectionEndsAtLineStart | chemfetch-backend-live/ocr_service/sds_parser_new/modules/utils.py:146-153 | a section found ends at the end of the text or where a line begins |
| Utils.CompressRunsNoRepeats | chemfetch-backend-live/ocr_service/sds_parser_new/modules/utils.py:156-164 | after `_compress_consecutive_duplicates` no character other than a newline is immediately repeated |
| Utils.CompressRunsFixed | chemfetch-backend-live/ocr_service/sds_parser_new/modules/utils.py:156-164 | text without repeated characters is left alone |
| Utils.CompressRunsIdempotent | chemfetch-backend-live/ocr_service/sds_parser_new/modules/utils.py:156-164 | compressing twice is compressing once |
| Utils.StripDoubledLabelPrefix | chemfetch-backend-live/ocr_service/sds_parser_new/modules/utils.py:167-204 | the result is "" only for blank input, and otherwise either what follows a recognised label head or the stripped text |
| Utils.FirstHeadWins | chemfetch-backend-live/ocr_service/sds_parser_new/modules/utils.py:190-202 | when the words of the stripped text open with a label head and leave something, that remainder is the result |
| Utils.StripTwoWordHead | chemfetch-backend-live/ocr_service/sds_parser_new/modules/utils.py:167-204 | four words whose first two normalise to "PRODUCT NAME", plainly or with doubled letters: the last two words are returned |
| Utils.NormalizeStuttered | chemfetch-backend-live/ocr_service/sds_parser_new/modules/utils.py:156-164 | a head word printed with every letter doubled normalises back to the word |
| Utils.DoubledProduct | chemfetch-backend-live/ocr_service/sds_parser_new/modules/utils.py:170-171 | "PPRROODDUUCCTT" normalises to "PRODUCT" |
| Utils.DoubledName | chemfetch-backend-live/ocr_service/sds_parser_new/modules/utils.py:170-171 | "NNAAMMEE" normalises to "NAME" |
| Utils.NumericCodeMeaning | chemfetch-backend-live/ocr_service/sds_parser_new/modules/utils.py:207-215 | `looks_like_numeric_code` holds exactly when the stripped value has at least six characters, a digit and no ASCII letter |
| Utils.NumericCodeExample | chemfetch-backend-live/ocr_service/sds_parser_new/modules/utils.py:207-215 | a long run of digits such as "0000003477" is a numeric code |
| Utils.NumericCodeCounterExample | chemfetch-backend-live/ocr_service/sds_parser_new/modules/utils.py:207-215 | a product name with a number in it is not |
| Utils.CompressDuplicatesWithMap | chemfetch-backend-live/ocr_service/sds_parser_new/modules/utils.py:217-243 | as written: a valid, strictly increasing index map into the input, an output that is a subsequence of the input, and every non-letter kept |
| Utils.ScanGuarantees | chemfetch-backend-live/ocr_service/sds_parser_new/modules/utils.py:217-243 | the guarantees of the completed scan: valid strictly increasing map, subsequence of the input, non-letters preserved |
| Utils.MapMisalignedAcrossSpace | chemfetch-backend-live/ocr_service/sds_parser_new/modules/utils.py:233-240 | as written, "a a" gives "a " with map [0, 2], so the map entry of the space points at an 'a' |
| Utils.CompressDuplicatesWithMapCorrected | chemfetch-backend-live/ocr_service/sds_parser_new/modules/utils.py:217-243 | the corrected scan keeps every guarantee above and, in addition, every map entry points at the character it produced |
| Utils.CompressStuttered | chemfetch-backend-live/ocr_service/sds_parser_new/modules/utils.py:156-164 | compressing a word written with every character doubled gives the word back, when it has no repeated characters of its own |
| Utils.FourWordHead | chemfetch-backend-live/ocr_service/sds_parser_new/modules/utils.py:183-204 | four words whose first two compress and upper-case to the head "PRODUCT NAME" lose those two words; the last two are returned |
| FieldExtractor.ExtractAfterLabel | chemfetch-backend-live/ocr_service/sds_parser_new/modules/field_extractor.py:15-94 | the nested loop (lines outer, labels inner) returns the first (line, label) cell in that order that yields a value, as the cell-by-cell specification defines it |
| FieldExtractor.LookBelow | chemfetch-backend-live/ocr_service/sds_parser_new/modules/field_extractor.py:71-92 | the look-ahead under line `i` only visits lines i+1..i+4 and stops at the first line that mentions a FIELD_LABELS pattern |
| FieldExtractor.CutAtSeparators | chemfetch-backend-live/ocr_service/sds_parser_new/modules/field_extractor.py:52-57 | the value is cut at the first separator, in list order, that splits it |
| FieldExtractor.AfterLabelSource | chemfetch-backend-live/ocr_service/sds_parser_new/modules/field_extractor.py:15-94 | a value comes from line `i` and label `k`: either the line itself or a line at most four lines below with no label line in between |
| FieldExtractor.AfterLabelNeverNoise | chemfetch-backend-live/ocr_service/sds_parser_new/modules/field_extractor.py:15-94 | neither revision of `extract_after_label` returns empty text or text `is_noise_text` rejects |
| FieldExtractor.NoisyValueRetries | chemfetch-backend-live/ocr_service/sds_parser_new/modules/field_extractor.py:63-71 | a noisy same-line value does not end the search: an acceptable candidate on the next line is returned |
| FieldExtractor.PassedOverSkipped | chemfetch-backend-live/ocr_service/sds_parser_new/modules/field_extractor.py:44-46 | a same-line value that mentions a product code (and in the revised module the two sheet phrases) yields nothing for that label on that line |
| FieldExtractor.ExtractSection14Field | chemfetch-backend-live/ocr_service/sds_parser_new/modules/field_extractor.py:200-270 | the Section 14 scan returns the first (line, label) cell in order that yields a value the field takes |
| FieldExtractor.LookBelow14 | chemfetch-backend-live/ocr_service/sds_parser_new/modules/field_extractor.py:239-268 | the look-ahead under line `i` only visits lines i+1 and i+2 |
| FieldExtractor.Section14Source | chemfetch-backend-live/ocr_service/sds_parser_new/modules/field_extractor.py:207-268 | a value comes from line `i` and label `k`: on the line itself, or at most two lines below with no label line in between |
| FieldExtractor.Section14Validated | chemfetch-backend-live/ocr_service/sds_parser_new/modules/field_extractor.py:221-236 | a dangerous-goods class passes `validate_dangerous_goods_class`, a packing group matches VALID_PACKING_GROUPS, and no value is empty or noise |
| FieldExtractor.ExtractProductName | chemfetch-backend-live/ocr_service/sds_parser_new/modules/field_extractor.py:97-159 | the label strategy, then the line fallback over the first ten lines, computed by loops |
| FieldExtractor.ProductFallbackSource | chemfetch-backend-live/ocr_service/sds_parser_new/modules/field_extractor.py:112-152 | the line fallback only looks at the first ten lines; its value is the candidate of one that passed the line filter and is longer than three characters |
| FieldExtractor.ProductNameLabelFirst | chemfetch-backend-live/ocr_service/sds_parser_new/modules/field_extractor.py:103-106 | a labelled value is returned whenever the label scan finds one: the noise test after it never rejects |
| FieldExtractor.ExtractManufacturer | chemfetch-backend-live/ocr_service/sds_parser_new/modules/field_extractor.py:162-197 | the label, inline-details and supplier-block strategies in order |
| FieldExtractor.ManufacturerNeverNoise | chemfetch-backend-live/ocr_service/sds_parser_new/modules/field_extractor.py:162-197 | whichever strategy supplies it, a manufacturer is never empty and never noise |
| FieldExtractorFixed.ExtractFromTableStructure | chemfetch-backend-live/ocr_service/sds_parser_new/modules/field_extractor_fixed.py:108-169 | the row and cell loops compute the table value: None for an unknown field name |
| FieldExtractorFixed.LookBelowTable | chemfetch-backend-live/ocr_service/sds_parser_new/modules/field_extractor_fixed.py:130-141 | the rows below a header: at most the three that follow it |
| FieldExtractorFixed.TableSource | chemfetch-backend-live/ocr_service/sds_parser_new/modules/field_extractor_fixed.py:116-167 | a table value comes from a line that mentions the header: a cell after the header on that line, or a cell of one of the next three rows |
| FieldExtractorFixed.TableStructureValid | chemfetch-backend-live/ocr_service/sds_parser_new/modules/field_extractor_fixed.py:116-169 | a table value is non-empty and valid for its field; an unknown field gives None |
| FieldExtractorFixed.ExtractSection14Field | chemfetch-backend-live/ocr_service/sds_parser_new/modules/field_extractor_fixed.py:418-443 | the label value when the field takes it, otherwise the table scan |
| FieldExtractorFixed.Section14Validated | chemfetch-backend-live/ocr_service/sds_parser_new/modules/field_extractor_fixed.py:424-441 | a class passes `validate_dangerous_goods_class`, a packing group matches VALID_PACKING_GROUPS; other fields come back from the label scan unvalidated |
| FieldExtractorFixed.ExtractProductName | chemfetch-backend-live/ocr_service/sds_parser_new/modules/field_extractor_fixed.py:172-263 | the three strategies: label, split table, meaningful lines |
| FieldExtractorFixed.ProductNameNeverIdentifierLabel | chemfetch-backend-live/ocr_service/sds_parser_new/modules/field_extractor_fixed.py:186-260 | no strategy returns a bare identifier label ("Alternative number(s)", "Other Name(s)", "Formulation #"), and every value has at least two characters |
| FieldExtractorFixed.ProductFallbackSourceFixed | chemfetch-backend-live/ocr_service/sds_parser_new/modules/field_extractor_fixed.py:207-260 | the fallback looks at the first twenty lines; its value is the candidate of a line that passed the filter |
| FieldExtractorFixed.ExtractManufacturer | chemfetch-backend-live/ocr_service/sds_parser_new/modules/field_extractor_fixed.py:266-334 | the four strategies in order |
| FieldExtractorFixed.ManufacturerScreened | chemfetch-backend-live/ocr_service/sds_parser_new/modules/field_extractor_fixed.py:285-331 | no strategy returns empty text, noise, or text that starts with "Emergency Telephone Number" or is a bare "Company" label |
| FieldExtractorFixed.CompanyLineSource | chemfetch-backend-live/ocr_service/sds_parser_new/modules/field_extractor_fixed.py:316-331 | the company-line strategy only looks at the first fifteen lines, and the line names a company and has no "Product Name:" |
| FieldExtractorFixed.ExtractDescription | chemfetch-backend-live/ocr_service/sds_parser_new/modules/field_extractor_fixed.py:337-364 | the label scan over the description labels, then the clean-up |
| FieldExtractorFixed.DescriptionStripped | chemfetch-backend-live/ocr_service/sds_parser_new/modules/field_extractor_fixed.py:355-364 | a description is a non-empty stripped text |
| FieldExtractorFixed.DescriptionUnprefixed | chemfetch-backend-live/ocr_service/sds_parser_new/modules/field_extractor_fixed.py:357-362 | a labelled description that starts with neither heading fragment is returned stripped, with nothing else removed |
| FieldExtractorFixed.ExtractDateFromHeader | chemfetch-backend-live/ocr_service/sds_parser_new/modules/field_extractor_fixed.py:367-415 | the line, pattern and format loops compute the header date |
| FieldExtractorFixed.FirstFormatSource | chemfetch-backend-live/ocr_service/sds_parser_new/modules/field_extractor_fixed.py:401-410 | the date chosen for a captured text was parsed under one of the formats, every earlier format failed or gave a future date, and it is not after `today` |
| FieldExtractorFixed.HeaderDateSource | chemfetch-backend-live/ocr_service/sds_parser_new/modules/field_extractor_fixed.py:376-408 | a header date comes from one of the first twenty lines and one of the patterns, parsed under some format |
| FieldExtractorFixed.HeaderDateNotFuture | chemfetch-backend-live/ocr_service/sds_parser_new/modules/field_extractor_fixed.py:404-408 | a header date is never after `today`, and it is `YYYY-MM-DD` text that reads back as the parsed date |
| FieldExtractorFixed.ExtractFieldValueLegacy | chemfetch-backend-live/ocr_service/sds_parser_new/modules/field_extractor_fixed.py:447-486 | the nested loops compute the legacy label scan |
| FieldExtractorFixed.LegacySource | chemfetch-backend-live/ocr_service/sds_parser_new/modules/field_extractor_fixed.py:457-484 | a value comes from line `i` and label `k`, on the line itself or at most five lines under a lone label |
| FieldExtractorFixed.LegacyNeverNoise | chemfetch-backend-live/ocr_service/sds_parser_new/modules/field_extractor_fixed.py:473-484 | the legacy extraction never returns empty text or noise |
| Section1.ContinuationIff | chemfetch-backend-live/ocr_service/sds_parser_new/modules/section_1.py:11-20 | `_is_header_continuation` holds exactly when the stripped text fully matches one of the four phrases, ignoring case |
| Section1.ContinuationStartsWithO | chemfetch-backend-live/ocr_service/sds_parser_new/modules/section_1.py:11-16 | every continuation phrase starts with "o" once stripped |
| Section1.GuardFilters | chemfetch-backend-live/ocr_service/sds_parser_new/modules/section_1.py:23-49 | each wrapper only filters: its result is None or the extractor's own value, kept exactly when it is non-empty and not a continuation |
| Section1.GuardKeepsOtherValues | chemfetch-backend-live/ocr_service/sds_parser_new/modules/section_1.py:23-49 | a value whose stripped form does not start with "o" is always kept |
| Section1.ProductUseScreened | chemfetch-backend-live/ocr_service/sds_parser_new/modules/section_1.py:44-49 | the product use is the label value over FIELD_LABELS['product_use']: non-empty, not noise, not a continuation |
| Section1.ManufacturerScreened | chemfetch-backend-live/ocr_service/sds_parser_new/modules/section_1.py:30-34 | the manufacturer is non-empty, not noise, not a continuation, and is what `extract_manufacturer` found |
| Section1.DescriptionScreened | chemfetch-backend-live/ocr_service/sds_parser_new/modules/section_1.py:37-41 | the description is stripped, non-empty and not a continuation |
| Dates.AfterTotalOrder | chemfetch-backend-live/ocr_service/sds_parser_new/modules/date_parser.py:28-30 | "later than" on dates is a strict total order |
| Dates.ParseFormatIso | chemfetch-backend-live/ocr_service/sds_parser_new/modules/field_extractor_fixed.py:404-406 | formatting a valid date as `%Y-%m-%d` and reading it back gives the same date |
| Dates.FormatParseIso | chemfetch-backend-live/ocr_service/sds_parser_new/modules/field_extractor_fixed.py:404-406 | text that reads as an ISO date is exactly the formatting of that date |
| Dates.FormatIsoShape | chemfetch-backend-live/ocr_service/sds_parser_new/modules/date_parser.py:35 | every date is written as `dddd-dd-dd`, the `%Y-%m-%d` form |
| DateParser.ExtractIssueDate | chemfetch-backend-live/ocr_service/sds_parser_new/modules/date_parser.py:11-53 | None when dateutil is missing; otherwise the date the match loop selects |
| DateParser.SelectDate | chemfetch-backend-live/ocr_service/sds_parser_new/modules/date_parser.py:22-47 | the loop over the matches yields the first accepted candidate with a preferred label, or else the first accepted one |
| DateParser.FirstAcceptedUnique | chemfetch-backend-live/ocr_service/sds_parser_new/modules/date_parser.py:22-43 | the first accepted index is the one candidate that parses to a date not after today while no earlier one does |
| DateParser.FirstAcceptedNone | chemfetch-backend-live/ocr_service/sds_parser_new/modules/date_parser.py:13-16 | with no acceptable candidate there is no date |
| DateParser.DateLabelPreferred | chemfetch-backend-live/ocr_service/sds_parser_new/modules/config.py:10 | whatever DATE_PATTERN's label group spans starts with a date label, so it holds a preferred keyword |
| DateParser.IssueDateIsFirstAccepted | chemfetch-backend-live/ocr_service/sds_parser_new/modules/date_parser.py:39-43 | the label preference never changes the outcome: the issue date is the first candidate, in text order, whose date parses and is not in the future |
| DateParser.ChosenIsPastIsoDate | chemfetch-backend-live/ocr_service/sds_parser_new/modules/date_parser.py:28-35 | a chosen date is the ISO text of a real date no later than `today` |
| DateParser.DateMatchesPreferred | chemfetch-backend-live/ocr_service/sds_parser_new/modules/config.py:9-12 | every label DATE_PATTERN captures holds one of the preferred keywords |
| DateParser.ChosenWhenAllPreferred | chemfetch-backend-live/ocr_service/sds_parser_new/modules/date_parser.py:39-43 | when every label is preferred, the date chosen is that of the first accepted candidate in text order |
| SdsExtractor.OneCharNoise | chemfetch-backend-live/ocr_service/sds_parser_new/sds_extractor.py:121-130 | a one-character value is noise exactly when it is not a digit: "9" is kept, ":" is rejected |
| SdsExtractor.LoneDigitVerdicts | chemfetch-backend-live/ocr_service/sds_parser_new/sds_extractor.py:128-130 | the two noise tests disagree on a lone digit: modules/utils.py rejects it, sds_extractor.py keeps it |
| SdsExtractor.DivisionNotNoise | chemfetch-backend-live/ocr_service/sds_parser_new/sds_extractor.py:119-172 | a division number such as "2.1" is not noise |
| SdsExtractor.DedupCollapsed | chemfetch-backend-live/ocr_service/sds_parser_new/sds_extractor.py:175-185 | the dedup result of a non-empty value is single-spaced stripped text |
| SdsExtractor.RepeatIsDoubled | chemfetch-backend-live/ocr_service/sds_parser_new/sds_extractor.py:182-184 | on normalised text the repeated-phrase pattern matches only at the middle space, so it finds exactly "p p" |
| SdsExtractor.DedupDoubled | chemfetch-backend-live/ocr_service/sds_parser_new/sds_extractor.py:175-185 | a normalised phrase written twice with one space between collapses to the phrase |
| SdsExtractor.LabelPrefixSlice | chemfetch-backend-live/ocr_service/sds_parser_new/sds_extractor.py:188-202 | `strip_leading_label_prefix` returns a stripped piece of the value |
| SdsExtractor.UnlabelledKept | chemfetch-backend-live/ocr_service/sds_parser_new/sds_extractor.py:188-202 | a stripped value that starts with none of the labels is returned unchanged |
| SdsExtractor.ValidatedMeaning | chemfetch-backend-live/ocr_service/sds_parser_new/sds_extractor.py:205-232 | a class is accepted exactly when, stripped, it is a class number or starts with one of the "not applicable" phrases |
| SdsExtractor.DigitValueIsClass | chemfetch-backend-live/ocr_service/sds_parser_new/sds_extractor.py:212-214 | a value that starts with a digit is accepted exactly when it is a class or division number |
| SdsExtractor.NumbersRejected | chemfetch-backend-live/ocr_service/sds_parser_new/sds_extractor.py:230-232 | "1950" and "14.5" are rejected |
| SdsExtractor.NotSubjectToAccepted | chemfetch-backend-live/ocr_service/sds_parser_new/sds_extractor.py:217-228 | a stripped value that opens with "not", "subject" and "to", one whitespace character between each, in any case, is accepted whatever follows |
| SdsExtractor.NotSubjectAccepted | chemfetch-backend-live/ocr_service/sds_parser_new/sds_extractor.py:217-228 | "Not subject to transport regulations: UN RTDG" is accepted on its opening words |
| SdsExtractor.SectionSlice | chemfetch-backend-live/ocr_service/sds_parser_new/sds_extractor.py:315-356 | the section is always a slice of the text: the strict section when it is long enough, else the leftmost loose match, else "" |
| SdsExtractor.StrictHeaderPunctuated | chemfetch-backend-live/ocr_service/sds_parser_new/sds_extractor.py:333-335 | for sections other than 1 and 14 the strict header has ':', '.' or '-' after the number, past blanks only |
| SdsExtractor.ExtractFieldValue | chemfetch-backend-live/ocr_service/sds_parser_new/sds_extractor.py:359-429 | the nested loops compute the field scan: lines outer, labels inner |
| SdsExtractor.CutAtFirstLabel | chemfetch-backend-live/ocr_service/sds_parser_new/sds_extractor.py:390-394 | the value is cut before the first COMMON_FIELD_LABELS entry found in it |
| SdsExtractor.CutFromSource | chemfetch-backend-live/ocr_service/sds_parser_new/sds_extractor.py:390-394 | the cut keeps the value when no label occurs in it, and is otherwise the stripped text before the first occurrence of the first one |
| SdsExtractor.FieldValueSource | chemfetch-backend-live/ocr_service/sds_parser_new/sds_extractor.py:370-427 | a value comes from line `i` and label `k`: the line's own group, or a line at most five below a lone label |
| SdsExtractor.FieldValueNeverNoise | chemfetch-backend-live/ocr_service/sds_parser_new/sds_extractor.py:370-427 | `extract_field_value` never returns empty text or text its own `is_noise_text` rejects |
| SdsExtractor.ExtractDgClassFromTable | chemfetch-backend-live/ocr_service/sds_parser_new/sds_extractor.py:432-471 | the row and token loops compute the table class |
| SdsExtractor.DgClassTableSource | chemfetch-backend-live/ocr_service/sds_parser_new/sds_extractor.py:443-469 | a table class is a token after the caption of the first transport-hazard row that yields one, or else a token of a row within six of a class caption |
| SdsExtractor.DgClassFromTableValid | chemfetch-backend-live/ocr_service/sds_parser_new/sds_extractor.py:453-467 | `extract_dg_class_from_table` returns only tokens that `validate_dangerous_goods_class` accepts |
| SdsExtractor.ExtractPackingGroupFromTable | chemfetch-backend-live/ocr_service/sds_parser_new/sds_extractor.py:474-504 | the row and cell loops compute the table packing group |
| SdsExtractor.PackingTableSource | chemfetch-backend-live/ocr_service/sds_parser_new/sds_extractor.py:482-502 | a table packing group comes from the first row that mentions the packing group and yields a value: after the caption, or a cell of one of the three rows after it |
| SdsExtractor.PackingGroupFromTableValid | chemfetch-backend-live/ocr_service/sds_parser_new/sds_extractor.py:487-502 | `extract_packing_group_from_table` returns only tokens that match the packing-group pattern |
| SdsExtractor.ExtractProductName | chemfetch-backend-live/ocr_service/sds_parser_new/sds_extractor.py:507-584 | the modular, label and early-line strategies in order |
| SdsExtractor.ProductNameNonEmpty | chemfetch-backend-live/ocr_service/sds_parser_new/sds_extractor.py:507-584 | `extract_product_name` never yields an empty name |
| SdsExtractor.ProductLabelSource | chemfetch-backend-live/ocr_service/sds_parser_new/sds_extractor.py:526-541 | a labelled name is a value of the label scan of section 1 that is not noise and not a bare label or company suffix |
| SdsExtractor.ProductFromLinesSource | chemfetch-backend-live/ocr_service/sds_parser_new/sds_extractor.py:544-582 | a line pick is the cleaned form of a stripped line among the first fifteen that passes every filter |
| SdsExtractor.ExtractManufacturer | chemfetch-backend-live/ocr_service/sds_parser_new/sds_extractor.py:587-640 | the modular, label and supplier-block strategies in order |
| SdsExtractor.ManufacturerNonEmpty | chemfetch-backend-live/ocr_service/sds_parser_new/sds_extractor.py:587-640 | `extract_manufacturer` never yields an empty name |
| SdsExtractor.ManufacturerFromBlockSource | chemfetch-backend-live/ocr_service/sds_parser_new/sds_extractor.py:619-638 | a supplier-block name is the cleaned form of a line of the block longer than three characters, not noise, no phone number |
| SdsExtractor.ExtractManufacturerGlobal | chemfetch-backend-live/ocr_service/sds_parser_new/sds_extractor.py:665-687 | the label scan over the first sixty lines |
| SdsExtractor.ManufacturerGlobalSource | chemfetch-backend-live/ocr_service/sds_parser_new/sds_extractor.py:669-686 | the document-wide manufacturer comes from a line among the first sixty, on the line of a label or at most five lines below it |
| SdsExtractor.Description | chemfetch-backend-live/ocr_service/sds_parser_new/sds_extractor.py:643-663 | a description is non-empty and is not a continuation of the Section 1 heading |
| SdsExtractorDate.ExtractDateAt | chemfetch-backend-live/ocr_service/sds_parser_new/sds_extractor.py:690-782 | the fast path, the modular parser, the legacy pattern loops and the header scan, in that order |
| SdsExtractorDate.StableSplitSorted | chemfetch-backend-live/ocr_service/sds_parser_new/sds_extractor.py:749 | the candidate order is a permutation of the matches in which no candidate without a four-digit year precedes one with it |
| SdsExtractorDate.StableSplitUnchanged | chemfetch-backend-live/ocr_service/sds_parser_new/sds_extractor.py:749 | when every candidate has a four-digit year, the order is the order of the text |
| SdsExtractorDate.CandidateDateSource | chemfetch-backend-live/ocr_service/sds_parser_new/sds_extractor.py:750-770 | a candidate's date is parsed under one of the full formats, or, for a bare month and year, is the first of that month |
| SdsExtractorDate.LegacySource | chemfetch-backend-live/ocr_service/sds_parser_new/sds_extractor.py:729-770 | a legacy date is the ISO text of the date of the first candidate, in year-first order, of the first pattern that has one; it is not after `today` |
| SdsExtractorDate.ModularSource | chemfetch-backend-live/ocr_service/sds_parser_new/sds_extractor.py:705-713 | the date_parser step yields the ISO text of a date not after `today` |
| SdsExtractorDate.DateNotFuture | chemfetch-backend-live/ocr_service/sds_parser_new/sds_extractor.py:705-782 | apart from the labelled ISO fast path, every date returned is the ISO text of a date not after `today` |
| SdsExtractorDate.FastPathIgnoresToday | chemfetch-backend-live/ocr_service/sds_parser_new/sds_extractor.py:696-703 | a labelled ISO date is returned as written whatever `today` is: the fast path does not reject a future date |
| SdsParsePdf.ParsePdf | chemfetch-backend-live/ocr_service/sds_parser_new/sds_extractor.py:785-954 | the record is built field by field and then swept |
| SdsParsePdf.Sweep | chemfetch-backend-live/ocr_service/sds_parser_new/sds_extractor.py:939-946 | the final loop over product name and manufacturer |
| SdsParsePdf.RecordFailsOnlyWithoutText | chemfetch-backend-live/ocr_service/sds_parser_new/sds_extractor.py:792-804 | an empty text, and only an empty text, gives the error record with text length 0 |
| SdsParsePdf.RecordEntries | chemfetch-backend-live/ocr_service/sds_parser_new/sds_extractor.py:806-937 | a record for a non-empty text has exactly the eight entries, each its extractor's value |
| SdsParsePdf.ConfidenceMatchesValue | chemfetch-backend-live/ocr_service/sds_parser_new/sds_extractor.py:845-937 | every entry's confidence is 1.0 when its value is truthy and 0.0 otherwise, before and after the sweep |
| SdsParsePdf.SweptKeeps | chemfetch-backend-live/ocr_service/sds_parser_new/sds_extractor.py:939-946 | the sweep keeps the keys and leaves the entries it does not inspect alone |
| SdsParsePdf.SweptEntry | chemfetch-backend-live/ocr_service/sds_parser_new/sds_extractor.py:942-946 | an inspected entry is cleared exactly when it is rejected as it stood |
| SdsParsePdf.SweptEntriesClean | chemfetch-backend-live/ocr_service/sds_parser_new/sds_extractor.py:940-946 | after the sweep a present product name or manufacturer is neither noise nor a bare label, and a product name does not read as a section heading |
| SdsParsePdf.SweepKeepsAccepted | chemfetch-backend-live/ocr_service/sds_parser_new/sds_extractor.py:942-946 | a value the sweep does not reject survives unchanged |
| SdsParsePdf.ProductNameOfSources | chemfetch-backend-live/ocr_service/sds_parser_new/sds_extractor.py:825-845 | the product name is the first truthy pick of section 1 and then of the first fifteen lines, replaced by the global pick when missing or header-like |
| SdsParsePdf.TidyManufacturerTrimmed | chemfetch-backend-live/ocr_service/sds_parser_new/sds_extractor.py:853-861 | the tidied manufacturer is empty or stripped and does not end in ',', '.', ';' or ':' |
| SdsParsePdf.DgClassValid | chemfetch-backend-live/ocr_service/sds_parser_new/sds_extractor.py:900-905 | a present dangerous-goods class is one the validator accepts |
| SdsParsePdf.NormaliseCollapsesRepeats | chemfetch-backend-live/ocr_service/sds_parser_new/sds_extractor.py:927-931 | the normalised packing group is its first word when every word repeats it ignoring case, and the text otherwise; normalising twice changes nothing more |
| SdsParsePdf.NormaliseTwoWords | chemfetch-backend-live/ocr_service/sds_parser_new/sds_extractor.py:927-931 | "II II" and "ii II" collapse to their first word; "II III" is left alone |
| SdsParsePdf.PackingGroupNormalised | chemfetch-backend-live/ocr_service/sds_parser_new/sds_extractor.py:923-933 | a packing group the table scan finds stays present and is already in normal form |
| SdsParsePdf.NormaliseKeepsPresent | chemfetch-backend-live/ocr_service/sds_parser_new/sds_extractor.py:928-931 | normalising a non-empty text never empties it |
| WorkingParser.NoiseOfStripped | chemfetch-backend-live/working_parser.py:35-71 | the verdict depends only on the stripped text |
| WorkingParser.SingleDigitNoise | chemfetch-backend-live/working_parser.py:37-38 | a single digit such as "9" is noise here, unlike in sds_extractor.py |
| WorkingParser.SectionHeader | chemfetch-backend-live/working_parser.py:149-154 | a section found is the leftmost match of the loose pattern, header included, starting at the start of the text or at a newline and ending at the end or before a newline |
| WorkingParser.SectionEmptyIffAbsent | chemfetch-backend-live/working_parser.py:149-154 | the section is "" exactly when the pattern matches nowhere |
| WorkingParser.ExtractFieldValue | chemfetch-backend-live/working_parser.py:157-196 | the nested loops compute the field scan |
| WorkingParser.FieldValueSource | chemfetch-backend-live/working_parser.py:168-194 | a value comes from line `i` and label `k`: the cleaned rest of that line, or a line at most three lines under a lone label; it is never empty or noise |
| WorkingParser.ExtractProductName | chemfetch-backend-live/working_parser.py:199-238 | the label scan, then the early-line fallback |
| WorkingParser.ProductNameSource | chemfetch-backend-live/working_parser.py:217-236 | a fallback name is a stripped line among the first fifteen, 3-100 characters long, with a letter or digit, not noise, no email or URL marker |
| WorkingParser.ExtractManufacturer | chemfetch-backend-live/working_parser.py:241-271 | the label scan, then the supplier block |
| WorkingParser.ManufacturerSource | chemfetch-backend-live/working_parser.py:253-269 | a manufacturer is the label value, or a stripped line of the supplier block longer than three characters, not noise, no phone number |
| WorkingParser.ExtractDate | chemfetch-backend-live/working_parser.py:274-306 | the loop over the captured dates, each tried under every format |
| WorkingParser.IssueDateSource | chemfetch-backend-live/working_parser.py:290-297 | a date is the YYYY-MM-DD form of the first capture that parses under one of the four formats to a day not after today |
| WorkingParser.IssueDateAbsent | chemfetch-backend-live/working_parser.py:284-306 | there is no date exactly when every capture fails, or gives a future day, under all four formats |
| WorkingParser.ParsePdf | chemfetch-backend-live/working_parser.py:309-408 | the record is built field by field; an invalid class is dropped; the sweep runs last |
| WorkingParser.RecordFailsOnlyWithoutText | chemfetch-backend-live/working_parser.py:315-327 | an empty text, and only an empty text, gives the error record |
| WorkingParser.RecordEntries | chemfetch-backend-live/working_parser.py:347-394 | a record for a non-empty text has exactly the seven entries, each its extractor's value |
| WorkingParser.ConfidenceMatchesValue | chemfetch-backend-live/working_parser.py:347-400 | every entry's confidence is 1.0 when its value is truthy and 0.0 otherwise |
| WorkingParser.DgClassValidated | chemfetch-backend-live/working_parser.py:374-379 | a dangerous-goods class present in the record passes the validator |
| WorkingParser.SweptEntriesClean | chemfetch-backend-live/working_parser.py:396-400 | after the sweep a present product name or manufacturer is not noise |
| WorkingParser.WorkingNeverNoisy | chemfetch-backend-live/working_parser.py:396-400 | this module's strategies never give noise, so the final sweep never clears anything |
| WorkingParser.SweepIdle | chemfetch-backend-live/working_parser.py:396-400 | with strategies that never give noise, every entry is its extractor's value with its confidence |
| ParseSds.GetValueOnlyConfident | chemfetch-backend-live/ocr_service/parse_sds.py:86-91 | `get_value` yields a value only from a dict entry whose confidence is positive, and then that entry's value |
| ParseSds.ReadsBackRecord | chemfetch-backend-live/ocr_service/parse_sds.py:86-91 | every field of `parse_pdf`'s record reads back as its final value when truthy |
| ParseSds.DangerousGoodMeaning | chemfetch-backend-live/ocr_service/parse_sds.py:94-101 | dangerous_good holds exactly when the class is read, truthy, and its stripped lower-cased form is none of the "no class" words |
| ParseSds.HazardousIsDangerous | chemfetch-backend-live/ocr_service/parse_sds.py:107 | hazardous_substance always equals dangerous_good |
| ParseSds.SubsidiaryRisksShape | chemfetch-backend-live/ocr_service/parse_sds.py:110-113 | subsidiary_risks has at most one element, the risk as read, non-empty and none of the words; empty exactly when there is no such risk |
| ParseSds.VendorDefault | chemfetch-backend-live/ocr_service/parse_sds.py:106-118 | vendor is the manufacturer read, and '' exactly when none was read |
| ParseSds.PassedThrough | chemfetch-backend-live/ocr_service/parse_sds.py:115-127 | the product id is echoed, hazard_statements is empty, raw_json is the input unchanged, and name, date and packing group are the values read |
| ParseSds.FailedRecordEmpty | chemfetch-backend-live/ocr_service/parse_sds.py:83-129 | the error record of an empty text transforms to a record with nothing found and no flags |
| ParseSds.ClassNumberIsDangerous | chemfetch-backend-live/ocr_service/parse_sds.py:97-101 | a class number such as "3" or "2.1" is a dangerous good |
| ParseSds.NotRegulatedMarkedDangerous | chemfetch-backend-live/ocr_service/parse_sds.py:100-101 | as written, a class "Not regulated", which the validator accepts, makes the record a dangerous good and a hazardous substance |
| ParseSds.CorrectedFollowsValidator | chemfetch-backend-live/ocr_service/parse_sds.py:99-101 | for a class the validator accepts, the corrected flag holds exactly for a class number |
| ParseSds.CorrectedRecordFlag | chemfetch-backend-live/ocr_service/parse_sds.py:94-101 | the corrected transform of `parse_pdf`'s record flags a dangerous good exactly when the class found is a class number |
| ParseSds.BlankClassIsDangerous | chemfetch-backend-live/ocr_service/parse_sds.py:94-101 | a whitespace-only class is truthy, so it makes a dangerous good, and is stored as the empty class |
| ParseSds.RecordClassValidated | chemfetch-backend-live/ocr_service/parse_sds.py:86-101 | the class read back from `parse_pdf`'s record is the class `parse_pdf` found, so one the validator accepts |
| QuickParser.ParseSdsFromText | chemfetch-backend-live/ocr_service/quick_parser.py:10-83 | the field loop fills the prefilled record; the flags follow |
| QuickParser.FirstFound | chemfetch-backend-live/ocr_service/quick_parser.py:60-66 | the pattern loop returns the stripped group of the first pattern found |
| QuickParser.QuickDefaults | chemfetch-backend-live/ocr_service/quick_parser.py:39-56 | the result has every key, the product id echoed, no subsidiary risks or hazard statements, the raw JSON describing the text |
| QuickParser.FirstMatchSource | chemfetch-backend-live/ocr_service/quick_parser.py:59-66 | a value comes from the first pattern in list order that is found: it gives the value, and no earlier pattern is found |
| QuickParser.FirstMatchNone | chemfetch-backend-live/ocr_service/quick_parser.py:59-66 | nothing is found exactly when none of the patterns is found |
| QuickParser.FillRest | chemfetch-backend-live/ocr_service/quick_parser.py:59-66 | filling changes nothing outside the four fields |
| QuickParser.ExtractedClassShape | chemfetch-backend-live/ocr_service/quick_parser.py:28-31 | an extracted class is a digit 1-9, optionally followed by '.' and digits |
| QuickParser.ExtractedPackingShape | chemfetch-backend-live/ocr_service/quick_parser.py:32-35 | an extracted packing group is a Roman numeral I-V in any case, or digits when the "PG" pattern found it |
| QuickParser.ExtractedVendorOneLine | chemfetch-backend-live/ocr_service/quick_parser.py:19-23 | an extracted vendor holds no line break |
| QuickParser.PackingIVReadAsI | chemfetch-backend-live/ocr_service/quick_parser.py:33-34 | as written, a packing group written "IV" is read as "I" |
| QuickParser.CorrectedPackingIV | chemfetch-backend-live/ocr_service/quick_parser.py:33-34 | with `IV` tried before `I{1,3}`, "IV" is read as "IV" |
| QuickParser.QuickFlags | chemfetch-backend-live/ocr_service/quick_parser.py:68-80 | a class found makes the product a dangerous good and a hazardous substance; otherwise dangerous_good stays None and hazardous_substance is whether a hazard word occurs in the lower-cased text |
| QuickParser.QuickFields | chemfetch-backend-live/ocr_service/quick_parser.py:59-66 | each of the four fields of the result is what the first found pattern of that field gives |
| QuickParser.FillGet | chemfetch-backend-live/ocr_service/quick_parser.py:59-66 | a listed field whose patterns find something gets that value; any other field keeps its default |
| QuickParser.FillEach | chemfetch-backend-live/ocr_service/quick_parser.py:59-66 | the loop over the fields, field by field, gives the record in which each field some pattern finds holds the first pattern's group, stripped, and every other field keeps its value |
| QuickParser.FillFromPatterns | chemfetch-backend-live/ocr_service/quick_parser.py:59-66 | the pattern pass over all four fields in the dictionary's order, from the prefilled record |

## Left out

- PDF text extraction and OCR are not modelled: `extract_text_from_pdf` (sds_extractor.py:235-312, working_parser.py:104-146), modules/text_extractor.py and modules/dependencies.py. They call foreign libraries and read files. `parse_pdf` starts from the extracted text, and the library flags are fields of `SdsParsePdf.Environment`.
- The HTTP service, downloads, signal timeouts and all logging are left out; they are I/O.
- `date.today()`, `datetime.strptime`, `dateutil.parser.parse` and the import of `dateutil` are parameters. The model does not say what they compute. `Dates.ParseIso` models only `strptime(s, '%Y-%m-%d')`, which the header-date lemmas need.
- The `except Exception` guards around the extractors of sds_extractor.py (for example lines 511-516 and 591-596) are not modelled. The model assumes the string code they guard raises nothing, so the guarded strategy's result is always used.
- The `ImportError` branches of the two date extractors are left out: the one in sds_extractor.py's `extract_date` (sds_extractor.py:771) and `except ImportError: return matches[0]` in working_parser.py's `extract_date` (working_parser.py:302-304). Both guard imports of `datetime`, which is in the standard library, so neither branch is taken. The missing-import fallbacks at the top of sds_extractor.py are left out too. The model uses the functions that the imports name.
- Regular expressions: `Pattern` is a general backtracking matcher, not a set of hand-written special cases. `Ends` interprets any token list in Python `re`'s order, and one definition serves `match`, `fullmatch`, `search`, `split`, `sub` and the first capture group, so every pattern of the core is data read by the same semantics. What is left out is syntax the core never uses: backreferences, lookbehind, named groups and the other flags. Only literals, character classes, greedy and lazy repetition, alternation groups, lookahead, `^`/`$` with and without MULTILINE, and `\b` are tokens. Classes such as `\w`, `\d` and letters, and IGNORECASE folding, are ASCII. Non-ASCII letters are outside the model.
- `Config.MIN_TEXT_LENGTH` (50) is a constant only. The OCR fallback that reads it is outside the model.
- Utils.StripTwoWordHead: the docstring example 'PPRROODDUUCCTT NNAAMMEE Whiteboard cleaner' → 'Whiteboard cleaner' is stated for any words of that form (`Utils.FourWordHead`, `Utils.DoubledProduct`, `Utils.DoubledName`), not evaluated on the literal text.
- Config.FieldLabels: the priority order of the label lists is configuration data that the label scans read in order. The contract states only that an unknown field has no labels.
- The records of `parse_pdf` and `transform_to_chemfetch_format` are Dafny datatypes, not Python dictionaries. Confidence is a `real` (1.0 or 0.0); JSON serialisation is not modelled.
- The other copies of the parser (ocr_service/working_parser.py, simple_parser.py, sds_parser_fixed.py, parse_sds_fixed.py, sds_extractor_broken.py) and the test scripts are not part of this model. They are I/O wrappers or repeat the modelled logic.

## Findings

| source | as written | input that shows it | evidently intended | confidence | as-written member | corrected member |
|---|---|---|---|---|---|---|
| chemfetch-backend-live/ocr_service/sds_parser_new/modules/utils.py:233-240 | `prev_alpha_lower` survives whitespace, so a letter repeated after a space counts as a duplicate, and `index_map[-1] = idx` then moves the map entry of the space | `"a a"` gives `"a "` with map `[0, 2]`, but `s[2]` is `'a'`, not the space | every `index_map[i]` is the index of a character equal to `normalized_string[i]`, as the docstring says | high; not executed | Utils.CompressDuplicatesWithMap, Utils.MapMisalignedAcrossSpace | Utils.CompressDuplicatesWithMapCorrected |
| chemfetch-backend-live/ocr_service/parse_sds.py:100-101 | any truthy class outside `['none', 'not applicable', 'n/a', 'na']` marks a dangerous good, including the "not regulated" phrases the validator accepts | class `"Not regulated"` gives `dangerous_good` and `hazardous_substance` True | only a real class number marks a dangerous good, as the comment at line 99 says | medium; not executed | ParseSds.NotRegulatedMarkedDangerous | ParseSds.CorrectedFollowsValidator, ParseSds.CorrectedRecordFlag |
| chemfetch-backend-live/ocr_service/quick_parser.py:33-34 | the group tries its alternative `I{1,3}` before `IV`, and nothing after the group forces the match on | `"Packing group: IV"` gives packing group `"I"` | `"IV"` is read as `"IV"` | high; not executed | QuickParser.PackingIVReadAsI | QuickParser.CorrectedPackingIV |
