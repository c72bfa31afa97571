/**
 * The high-precision analyser kept under backup/: per page it reads the document category
 * off the page text by a weighted keyword table (`_detect_by_text`) and accepts that reading
 * only for pages with enough text and confidence (`_identify_all_pages`), falling back on the
 * image reading otherwise; it maps the model's type names onto categories
 * (`_map_type_string`), and it grades each extracted field (`_estimate_field_confidence`),
 * flags the weak ones and averages them (`_extract_document_fields`).
 *
 * Rasterising, image enhancement and the model calls are not part of this module: the image
 * reading of a page and the model's answer for a document arrive as parameters.
 */
module PrecisionPdfAnalyzer {
  import opened Wrappers
  import opened Text
  import opened Values
  import opened DocTypes
  import opened KeywordTables
  import R = Regex
  import A = UnifiedPdfAnalyzer

  // ================================================================== _detect_by_text

  /** One entry of `keyword_rules`: keyword, exclusion alternatives, category and confidence. */
  datatype KeywordRule = KeywordRule(keyword: string, exclude: seq<string>, docType: DocType, confidence: real)

  /** `keyword_rules`, in order; an exclusion `a|b` is the list of its literal alternatives. */
  const KeywordRules: seq<KeywordRule> := KeywordRules1 + KeywordRules2 + KeywordRules3 + KeywordRules4

  const KeywordRules1: seq<KeywordRule> := [
    KeywordRule("주택매도신청서", [], HousingSaleApplication, 0.95),
    KeywordRule("매도신청주택임대현황", [], RentalStatus, 0.95),
    KeywordRule("임대현황", ["주택매도"], RentalStatus, 0.85),
    KeywordRule("위임장", [], PowerOfAttorney, 0.90),
    KeywordRule("개인정보수집이용", [], ConsentForm, 0.90),
    KeywordRule("개인정보동의서", [], ConsentForm, 0.90),
    KeywordRule("청렴서약서", [], IntegrityPledge, 0.90)]

  const KeywordRules2: seq<KeywordRule> := [
    KeywordRule("공사직원확인서", [], LhEmployeeConfirm, 0.90),
    KeywordRule("공사직원여부", [], LhEmployeeConfirm, 0.85),
    KeywordRule("인감증명서", [], SealCertificate, 0.90),
    KeywordRule("인감증명", [], SealCertificate, 0.85),
    KeywordRule("건축물대장총괄표제부", [], BuildingLedgerSummary, 0.95),
    KeywordRule("총괄표제부", [], BuildingLedgerSummary, 0.90),
    KeywordRule("건축물대장전유부", [], BuildingLedgerExclusive, 0.95)]

  const KeywordRules3: seq<KeywordRule> := [
    KeywordRule("전유부", ["총괄"], BuildingLedgerExclusive, 0.85),
    KeywordRule("건축물대장표제부", [], BuildingLedgerTitle, 0.95),
    KeywordRule("건축물대장", ["총괄", "전유"], BuildingLedgerTitle, 0.80),
    KeywordRule("건축물현황도", [], BuildingLayout, 0.90),
    KeywordRule("토지이용계획확인원", [], LandUsePlan, 0.95),
    KeywordRule("토지이용계획", [], LandUsePlan, 0.85),
    KeywordRule("토지대장", ["이용계획"], LandLedger, 0.90)]

  const KeywordRules4: seq<KeywordRule> := [
    KeywordRule("등기사항전부증명서", [], BuildingRegistry, 0.85),
    KeywordRule("토지등기부등본", [], LandRegistry, 0.95),
    KeywordRule("건물등기부등본", [], BuildingRegistry, 0.95),
    KeywordRule("준공도면", [], AsBuiltDrawing, 0.90),
    KeywordRule("시험성적서", [], TestCertificate, 0.90),
    KeywordRule("납품확인서", [], DeliveryConfirmation, 0.90)]

  /** The rule's keyword occurs in the squeezed text and none of its exclusions does. */
  predicate Hits(rule: KeywordRule, n: string)
  {
    Contains(n, rule.keyword) && !ContainsAny(n, rule.exclude)
  }

  /** `(best_type, best_conf)` after scanning `rules`: a hit replaces the best only when strictly more confident. */
  function Best(rules: seq<KeywordRule>, n: string): (r: (DocType, real))
    ensures r.1 >= 0.0
  {
    if rules == [] then (Unknown, 0.0)
    else
      var b := Best(rules[..|rules| - 1], n);
      var last := rules[|rules| - 1];
      if Hits(last, n) && last.confidence > b.1 then (last.docType, last.confidence) else b
  }

  /** No hitting rule is more confident than the result. */
  lemma {:induction false} BestIsMaximal(rules: seq<KeywordRule>, n: string)
    ensures forall i :: 0 <= i < |rules| && Hits(rules[i], n) ==> rules[i].confidence <= Best(rules, n).1
  {
    if rules != [] {
      var init := rules[..|rules| - 1];
      BestIsMaximal(init, n);
      forall i | 0 <= i < |rules| - 1
        ensures rules[i] == init[i]
      {
      }
    }
  }

  /** Rule `i` is the earliest hit reaching the best confidence, and gives the result. */
  predicate EarliestBest(rules: seq<KeywordRule>, n: string, i: int)
  {
    0 <= i < |rules| && Hits(rules[i], n) && Best(rules, n) == (rules[i].docType, rules[i].confidence)
    && forall j :: 0 <= j < i && Hits(rules[j], n) ==> rules[j].confidence < rules[i].confidence
  }

  /** The result comes from the earliest most confident hit, or is (UNKNOWN, 0.0). */
  lemma {:induction false} BestIsEarliest(rules: seq<KeywordRule>, n: string)
    ensures Best(rules, n) == (Unknown, 0.0) || exists i :: EarliestBest(rules, n, i)
  {
    if rules != [] {
      var init := rules[..|rules| - 1];
      var last := rules[|rules| - 1];
      var b := Best(init, n);
      BestIsEarliest(init, n);
      assert forall j :: 0 <= j < |init| ==> rules[j] == init[j];
      if Hits(last, n) && last.confidence > b.1 {
        BestIsMaximal(init, n);
        assert EarliestBest(rules, n, |rules| - 1);
      } else if b != (Unknown, 0.0) {
        var i :| EarliestBest(init, n, i);
        assert EarliestBest(rules, n, i);
      }
    }
  }

  /** With no hit, the result is (UNKNOWN, 0.0). */
  lemma {:induction false} BestWithoutHits(rules: seq<KeywordRule>, n: string)
    requires forall i :: 0 <= i < |rules| ==> !Hits(rules[i], n)
    ensures Best(rules, n) == (Unknown, 0.0)
  {
    if rules != [] {
      var init := rules[..|rules| - 1];
      assert forall j :: 0 <= j < |init| ==> init[j] == rules[j];
      BestWithoutHits(init, n);
    }
  }

  /** The registry reading: a land registry when land is mentioned and buildings are not. */
  function RegistryRelabelled(t: DocType, n: string): (r: DocType)
    ensures r == LandRegistry <==>
      t == LandRegistry || (t == BuildingRegistry && Contains(n, "토지") && !Contains(n, "건물"))
    ensures r != Unknown <==> t != Unknown
  {
    if t == BuildingRegistry && Contains(n, "토지") && !Contains(n, "건물") then LandRegistry else t
  }

  /** The result of `_detect_by_text(text)`. */
  function DetectedByText(text: string): (r: (DocType, real))
    ensures |A.Squeeze(text)| < 20 ==> r == (Unknown, 0.0)
    ensures |A.Squeeze(text)| >= 20 ==> r.1 == Best(KeywordRules, A.Squeeze(text)).1
    ensures |A.Squeeze(text)| >= 20 ==>
      r.0 == RegistryRelabelled(Best(KeywordRules, A.Squeeze(text)).0, A.Squeeze(text))
  {
    if text == [] then (Unknown, 0.0)
    else
      var n := A.Squeeze(text);
      if |n| < 20 then (Unknown, 0.0)
      else
        var b := Best(KeywordRules, n);
        (RegistryRelabelled(b.0, n), b.1)
  }

  /** `_detect_by_text(text)` */
  method DetectByText(text: string) returns (bestType: DocType, bestConf: real)
    ensures (bestType, bestConf) == DetectedByText(text)
  {
    if text == [] {
      return Unknown, 0.0;
    }
    var n := A.Squeeze(text);
    if |n| < 20 {
      return Unknown, 0.0;
    }
    var rules := KeywordRules;
    bestType, bestConf := Unknown, 0.0;
    for i := 0 to |rules|
      invariant (bestType, bestConf) == Best(rules[..i], n)
    {
      assert rules[..i + 1][..i] == rules[..i];
      var rule := rules[i];
      if Contains(n, rule.keyword) {
        if rule.exclude != [] && ContainsAny(n, rule.exclude) {
          continue;
        }
        if rule.confidence > bestConf {
          bestType, bestConf := rule.docType, rule.confidence;
        }
      }
    }
    assert rules[..|rules|] == rules;
    if bestType == BuildingRegistry && Contains(n, "토지") && !Contains(n, "건물") {
      bestType := LandRegistry;
    }
  }

  lemma RulesKnown()
    ensures forall i :: 0 <= i < |KeywordRules| ==> KeywordRules[i].docType != Unknown
    ensures forall i :: 0 <= i < |KeywordRules| ==> KeywordRules[i].confidence >= 0.8
  {
  }

  /**
   * Any positive confidence names a category: it comes from a rule that hits, and every
   * rule names one.
   */
  lemma DetectedConfidentIsKnown(text: string)
    requires DetectedByText(text).1 > 0.0
    ensures DetectedByText(text).0 != Unknown
    ensures |A.Squeeze(text)| >= 20
  {
    var n := A.Squeeze(text);
    RulesKnown();
    BestIsEarliest(KeywordRules, n);
  }

  /** A rule that hits in a text of 20 characters or more bounds the reported confidence from below. */
  lemma DetectedAtLeastEveryHit(text: string, i: int)
    requires |A.Squeeze(text)| >= 20 && 0 <= i < |KeywordRules| && Hits(KeywordRules[i], A.Squeeze(text))
    ensures DetectedByText(text).1 >= KeywordRules[i].confidence >= 0.8
  {
    RulesKnown();
    BestIsMaximal(KeywordRules, A.Squeeze(text));
  }

  // ================================================================== _identify_all_pages

  /** A page: its text and what the image reading would say of it. */
  datatype Page = Page(text: string, vision: (DocType, real))

  /** The text reading is used: at least 50 squeezed characters and confidence 0.7 or more. */
  predicate TextAccepted(text: string)
  {
    |A.Squeeze(text)| >= 50 && DetectedByText(text).1 >= 0.7
  }

  /** The category and confidence recorded for a page. */
  function PageType(p: Page): (r: (DocType, real))
    ensures TextAccepted(p.text) ==> r == DetectedByText(p.text) && r.0 != Unknown && r.1 >= 0.7
    ensures !TextAccepted(p.text) ==> r == p.vision
  {
    if TextAccepted(p.text) then
      DetectedConfidentIsKnown(p.text);
      DetectedByText(p.text)
    else p.vision
  }

  /** `_identify_all_pages(pages)` */
  method IdentifyAllPages(pages: seq<Page>) returns (results: seq<(DocType, real)>)
    ensures |results| == |pages|
    ensures forall i :: 0 <= i < |pages| ==> results[i] == PageType(pages[i])
  {
    results := [];
    for i := 0 to |pages|
      invariant |results| == i
      invariant forall k :: 0 <= k < i ==> results[k] == PageType(pages[k])
    {
      var textType, textConf := DetectByText(pages[i].text);
      var textLen := |A.Squeeze(pages[i].text)|;
      if textLen >= 50 && textConf >= 0.7 {
        results := results + [(textType, textConf)];
      } else {
        results := results + [pages[i].vision];
      }
    }
  }

  // ================================================================== _map_type_string

  /** The type names that mean "no category". */
  const NoTypeNames: set<string> := {"기타", "other", "unknown", "미확인"}

  /** `mapping`, in order. */
  const ExactTypes: seq<(string, DocType)> := ExactTypes1 + ExactTypes2 + ExactTypes3

  const ExactTypes1: seq<(string, DocType)> := [
    ("주택매도신청서", HousingSaleApplication), ("매도신청서", HousingSaleApplication),
    ("매도신청주택임대현황", RentalStatus), ("임대현황", RentalStatus), ("위임장", PowerOfAttorney),
    ("개인정보동의서", ConsentForm), ("개인정보수집", ConsentForm), ("청렴서약서", IntegrityPledge)]

  const ExactTypes2: seq<(string, DocType)> := [
    ("공사직원확인서", LhEmployeeConfirm), ("공사직원여부확인서", LhEmployeeConfirm),
    ("인감증명서", SealCertificate), ("인감증명", SealCertificate),
    ("건축물대장표제부", BuildingLedgerTitle), ("건축물대장총괄표제부", BuildingLedgerSummary),
    ("건축물대장전유부", BuildingLedgerExclusive), ("건축물현황도", BuildingLayout)]

  const ExactTypes3: seq<(string, DocType)> := [
    ("토지대장", LandLedger), ("토지이용계획확인원", LandUsePlan), ("건물등기부등본", BuildingRegistry),
    ("토지등기부등본", LandRegistry), ("등기사항전부증명서", BuildingRegistry), ("준공도면", AsBuiltDrawing),
    ("시험성적서", TestCertificate), ("납품확인서", DeliveryConfirmation)]

  /** `partial_rules`, in order. */
  const PartialTypes: seq<(string, DocType)> := PartialTypes1 + PartialTypes2

  const PartialTypes1: seq<(string, DocType)> := [
    ("인감", SealCertificate), ("위임", PowerOfAttorney), ("청렴", IntegrityPledge), ("동의", ConsentForm),
    ("직원확인", LhEmployeeConfirm), ("총괄", BuildingLedgerSummary), ("전유", BuildingLedgerExclusive),
    ("표제부", BuildingLedgerTitle), ("건축물대장", BuildingLedgerTitle)]

  const PartialTypes2: seq<(string, DocType)> := [
    ("현황도", BuildingLayout), ("이용계획", LandUsePlan), ("토지대장", LandLedger), ("등기", BuildingRegistry),
    ("준공", AsBuiltDrawing), ("도면", AsBuiltDrawing), ("시험", TestCertificate),
    ("납품", DeliveryConfirmation), ("매도", HousingSaleApplication)]

  /** The type name with spaces and newlines removed, stripped and lower-cased. */
  function TypeKey(typeStr: string): string
  {
    Lower(Strip(A.Squeeze(typeStr)))
  }

  /** The mapping of `_map_type_string` over its two tables. */
  function MapTypeStringWith(exact: seq<(string, DocType)>, partial: seq<(string, DocType)>, typeStr: string)
    : (r: DocType)
    ensures TypeKey(typeStr) == [] || TypeKey(typeStr) in NoTypeNames ==> r == Unknown
  {
    var s := TypeKey(typeStr);
    if s == [] || s in NoTypeNames then Unknown
    else
      var e := FirstKeyword(exact, s);
      if e.Some? then e.value
      else
        var p := FirstKeyword(partial, s);
        if p.Some? then p.value else Unknown
  }

  /** `_map_type_string(type_str)` */
  function MapTypeString(typeStr: string): (r: DocType)
    ensures r == Unknown <==>
      (TypeKey(typeStr) == [] || TypeKey(typeStr) in NoTypeNames
       || (!ContainsAny(TypeKey(typeStr), Keys(ExactTypes)) && !ContainsAny(TypeKey(typeStr), Keys(PartialTypes))))
  {
    MapTypeStringUnknownIff(ExactTypes, PartialTypes, typeStr);
    MapTypeStringWith(ExactTypes, PartialTypes, typeStr)
  }

  /** The first table key found in the type name decides. */
  lemma ExactTypeWins(exact: seq<(string, DocType)>, partial: seq<(string, DocType)>, typeStr: string, i: int)
    requires TypeKey(typeStr) != [] && TypeKey(typeStr) !in NoTypeNames && FirstKeyAt(TypeKey(typeStr), exact, i)
    ensures MapTypeStringWith(exact, partial, typeStr) == exact[i].1
  {
    FirstKeywordAt(exact, TypeKey(typeStr), i);
  }

  /** Without a table key, the first partial keyword found decides. */
  lemma PartialTypeWins(exact: seq<(string, DocType)>, partial: seq<(string, DocType)>, typeStr: string, i: int)
    requires TypeKey(typeStr) != [] && TypeKey(typeStr) !in NoTypeNames
    requires !ContainsAny(TypeKey(typeStr), Keys(exact)) && FirstKeyAt(TypeKey(typeStr), partial, i)
    ensures MapTypeStringWith(exact, partial, typeStr) == partial[i].1
  {
    FirstKeywordAt(partial, TypeKey(typeStr), i);
  }

  /** A type name is UNKNOWN exactly when it is blank, a "no category" name, or no key occurs in it. */
  lemma MapTypeStringUnknownIff(exact: seq<(string, DocType)>, partial: seq<(string, DocType)>, typeStr: string)
    requires forall i :: 0 <= i < |exact| ==> exact[i].1 != Unknown
    requires forall i :: 0 <= i < |partial| ==> partial[i].1 != Unknown
    ensures MapTypeStringWith(exact, partial, typeStr) == Unknown <==>
      TypeKey(typeStr) == [] || TypeKey(typeStr) in NoTypeNames
      || (!ContainsAny(TypeKey(typeStr), Keys(exact)) && !ContainsAny(TypeKey(typeStr), Keys(partial)))
  {
    var s := TypeKey(typeStr);
    if s != [] && s !in NoTypeNames {
      var i := FirstHit(s, Keys(exact));
      var j := FirstHit(s, Keys(partial));
    }
  }

  lemma TypeTablesKnown()
    ensures forall i :: 0 <= i < |ExactTypes| ==> ExactTypes[i].1 != Unknown
    ensures forall i :: 0 <= i < |PartialTypes| ==> PartialTypes[i].1 != Unknown
  {
  }

  // ================================================================== _estimate_field_confidence

  /** The values that mean "nothing there". */
  const Placeholders: set<string> := {"null", "none", "-", "없음", "미확인"}

  /** `\d{4}[-./]\d{1,2}[-./]\d{1,2}` */
  const DatePattern: R.Regex := [
    R.Rep(R.Digit, 4, Some(4), false, None), R.Rep(R.OneOf({'-', '.', '/'}), 1, Some(1), false, None),
    R.Rep(R.Digit, 1, Some(2), false, None), R.Rep(R.OneOf({'-', '.', '/'}), 1, Some(1), false, None),
    R.Rep(R.Digit, 1, Some(2), false, None)]

  /** `01\d[-.\s]?\d{3,4}[-.\s]?\d{4}` */
  const PhonePattern: R.Regex := [
    R.Lit("01"), R.Rep(R.Digit, 1, Some(1), false, None), R.Rep(R.SpaceOr({'-', '.'}), 0, Some(1), false, None),
    R.Rep(R.Digit, 3, Some(4), false, None), R.Rep(R.SpaceOr({'-', '.'}), 0, Some(1), false, None),
    R.Rep(R.Digit, 4, Some(4), false, None)]

  /** `re.match(pattern, v)`: the pattern matches at the start of `v`. */
  predicate MatchesAtStart(pattern: R.Regex, v: string)
  {
    R.MatchAt(pattern, v, 0, map[]).Some?
  }

  /** The grade of a stripped, non-placeholder string value, by what its key names. */
  function TextConfidence(key: string, v: string): (c: real)
    ensures 0.3 <= c <= 0.9
    ensures Contains(Lower(key), "date") ==> (c == 0.9 <==> MatchesAtStart(DatePattern, v)) && (c == 0.9 || c == 0.6)
    ensures (!Contains(Lower(key), "date") && !Contains(Lower(key), "name") && !Contains(Lower(key), "phone")
             && !Contains(Lower(key), "email")) ==> c == 0.8
  {
    var k := Lower(key);
    if Contains(k, "date") then (if MatchesAtStart(DatePattern, v) then 0.9 else 0.6)
    else if Contains(k, "name") then (if |v| >= 2 && !(v != [] && AllDigits(v)) then 0.85 else 0.6)
    else if Contains(k, "phone") then (if MatchesAtStart(PhonePattern, v) then 0.9 else 0.5)
    else if Contains(k, "email") then (if Contains(v, "@") then 0.9 else 0.3)
    else 0.8
  }

  /** `_estimate_field_confidence(key, value)` */
  function FieldConfidence(key: string, value: Value): (c: real)
    ensures 0.0 <= c <= 1.0
    ensures value == Null || value == Str("") || value == Arr([]) ==> c == 0.0
    ensures value.Bool? ==> c == 0.9
    ensures value.Int? || value.Num? ==> c == 0.85
    ensures value.Str? && (Strip(value.s) == [] || Lower(Strip(value.s)) in Placeholders) ==> c == 0.0
    ensures value.Str? && Strip(value.s) != [] && Lower(Strip(value.s)) !in Placeholders ==> c >= 0.3
    ensures value.Arr? && value.items != [] ==> c == 0.85
    ensures value.Obj? ==> c == 0.7
  {
    match value
    case Null => 0.0
    case Bool(_) => 0.9
    case Int(_) => 0.85
    case Num(_) => 0.85
    case Str(s) =>
      var v := Strip(s);
      if v == [] || Lower(v) in Placeholders then 0.0 else TextConfidence(key, v)
    case Arr(items) => if items == [] then 0.0 else 0.85
    case Obj(_) => 0.7
  }

  // ================================================================== _extract_document_fields

  /** `ExtractedField` */
  datatype ExtractedField = ExtractedField(
    name: string, value: Value, confidence: real, source: string, locationHint: string, needsVerification: bool)

  /** The field recorded for one key of the model's answer. */
  function FieldOf(key: string, value: Value): (f: ExtractedField)
    ensures f.name == key && f.value == value && f.source == "vision"
    ensures 0.0 <= f.confidence <= 1.0
    ensures f.needsVerification <==> f.confidence < 0.8
    ensures value.Bool? || value.Int? || value.Num? ==> !f.needsVerification
    ensures value == Null || value.Obj? ==> f.needsVerification
  {
    var c := FieldConfidence(key, value);
    ExtractedField(key, value, c, "vision", "", c < 0.8)
  }

  /** Keys that describe the document rather than a field of it. */
  const NotFields: set<string> := {"exists", "document_type"}

  /** `result.fields` for the answer `data`. */
  function FieldsOf(data: Dict): (r: map<string, ExtractedField>)
    ensures forall k :: k in r <==> k in data && k !in NotFields
    ensures forall k :: k in r ==> r[k] == FieldOf(k, data[k])
  {
    map k | k in data && k !in NotFields :: FieldOf(k, data[k])
  }

  /** The keys of `order` that are fields, in order. */
  function FieldOrder(order: seq<string>): (r: seq<string>)
    ensures forall k :: k in r <==> k in order && k !in NotFields
  {
    if order == [] then []
    else
      var k := order[|order| - 1];
      FieldOrder(order[..|order| - 1]) + (if k in NotFields then [] else [k])
  }

  /** Filtering keeps a list free of repeats. */
  lemma {:induction false} FieldOrderNoDuplicates(order: seq<string>)
    requires NoDuplicates(order)
    ensures NoDuplicates(FieldOrder(order))
  {
    if order != [] {
      var init := order[..|order| - 1];
      var k := order[|order| - 1];
      assert forall i :: 0 <= i < |init| ==> init[i] == order[i];
      assert NoDuplicates(init);
      FieldOrderNoDuplicates(init);
      assert k !in init;
    }
  }

  /** In the answer's key order, the field keys are exactly the keys of `FieldsOf(data)`, each once. */
  lemma FieldOrderExact(data: Dict, order: seq<string>)
    requires KeyOrder(data, order)
    ensures NoDuplicates(FieldOrder(order))
    ensures forall k :: k in FieldOrder(order) <==> k in FieldsOf(data)
  {
    FieldOrderNoDuplicates(order);
  }

  /** The confidences averaged, in the answer's key order. */
  function Confidences(data: Dict, order: seq<string>): (r: seq<real>)
    requires forall k :: k in order ==> k in data
    ensures forall i :: 0 <= i < |r| ==> 0.0 <= r[i] <= 1.0
  {
    if order == [] then []
    else
      var k := order[|order| - 1];
      Confidences(data, order[..|order| - 1]) + (if k in NotFields then [] else [FieldOf(k, data[k]).confidence])
  }

  /** The averaged confidences are those of the field keys, in order: each field counts once. */
  lemma {:induction false} ConfidencesFollowFields(data: Dict, order: seq<string>)
    requires forall k :: k in order ==> k in data
    ensures |Confidences(data, order)| == |FieldOrder(order)|
    ensures forall i :: 0 <= i < |FieldOrder(order)| ==>
      Confidences(data, order)[i] == FieldOf(FieldOrder(order)[i], data[FieldOrder(order)[i]]).confidence
  {
    if order != [] {
      ConfidencesFollowFields(data, order[..|order| - 1]);
    }
  }

  function Sum(xs: seq<real>): real
  {
    if xs == [] then 0.0 else Sum(xs[..|xs| - 1]) + xs[|xs| - 1]
  }

  lemma {:induction false} SumBounds(xs: seq<real>)
    requires forall i :: 0 <= i < |xs| ==> 0.0 <= xs[i] <= 1.0
    ensures 0.0 <= Sum(xs) <= |xs| as real
  {
    if xs != [] {
      SumBounds(xs[..|xs| - 1]);
    }
  }

  lemma RatioBounds(a: real, n: real)
    requires 0.0 <= a <= n && n > 0.0
    ensures 0.0 <= a / n <= 1.0
  {
    var q := a / n;
    assert q * n == a;
  }

  /** `sum(confidences) / len(confidences) if confidences else 0.7` */
  function Mean(xs: seq<real>): (r: real)
    requires forall i :: 0 <= i < |xs| ==> 0.0 <= xs[i] <= 1.0
    ensures xs == [] ==> r == 0.7
    ensures 0.0 <= r <= 1.0
  {
    if xs == [] then 0.7
    else
      SumBounds(xs);
      RatioBounds(Sum(xs), |xs| as real);
      Sum(xs) / (|xs| as real)
  }

  /** The model's answer for a document: the exception text, or the parsed JSON. */
  datatype Response = Raised(message: string) | Parsed(value: Value)

  /** The answer as a dict: a list gives its first element, anything but a dict gives {}; `exists` is set. */
  function AnswerData(parsed: Value): (r: Dict)
    ensures "exists" in r && r["exists"] == Bool(true)
    ensures parsed.Obj? ==> r == parsed.fields["exists" := Bool(true)]
    ensures !parsed.Obj? && !parsed.Arr? ==> r == map["exists" := Bool(true)]
  {
    var v := if parsed.Arr? && parsed.items != [] then parsed.items[0] else parsed;
    var data := if v.Obj? then v.fields else map[];
    data["exists" := Bool(true)]
  }

  /** `DocumentExtractionResult` */
  datatype DocumentExtraction = DocumentExtraction(
    docType: DocType, pageNumbers: seq<int>, fields: map<string, ExtractedField>, rawData: Dict,
    overallConfidence: real, extractionNotes: seq<string>)

  /** `order` lists every key of `data` once: the dict's iteration order. */
  predicate KeyOrder(data: Dict, order: seq<string>)
  {
    (forall k :: k in order ==> k in data) && (forall k :: k in data ==> k in order) && NoDuplicates(order)
  }

  /** One more key extends the averaged confidences by its field's, when it is a field. */
  lemma ConfidencesSnoc(data: Dict, order: seq<string>, i: nat)
    requires i < |order| && forall k :: k in order ==> k in data
    ensures var k := order[i];
      Confidences(data, order[..i + 1])
      == Confidences(data, order[..i]) + (if k in NotFields then [] else [FieldOf(k, data[k]).confidence])
  {
    assert order[..i + 1][..i] == order[..i];
  }

  /** A map with exactly the field keys of `data`, each holding its field, is `FieldsOf(data)`. */
  lemma FieldsOfUnique(data: Dict, fields: map<string, ExtractedField>)
    requires forall k :: k in fields <==> k in data && k !in NotFields
    requires forall k :: k in fields ==> fields[k] == FieldOf(k, data[k])
    ensures fields == FieldsOf(data)
  {
  }

  /** The loop of `_extract_document_fields` over the answer's keys. */
  method CollectFields(data: Dict, order: seq<string>) returns (fields: map<string, ExtractedField>, confidences: seq<real>)
    requires KeyOrder(data, order)
    ensures fields == FieldsOf(data)
    ensures confidences == Confidences(data, order)
  {
    fields := map[];
    confidences := [];
    for i := 0 to |order|
      invariant confidences == Confidences(data, order[..i])
      invariant forall k :: k in fields <==> k in order[..i] && k !in NotFields
      invariant forall k :: k in fields ==> fields[k] == FieldOf(k, data[k])
    {
      ConfidencesSnoc(data, order, i);
      var key := order[i];
      if key in NotFields {
        continue;
      }
      var field := FieldOf(key, data[key]);
      confidences := confidences + [field.confidence];
      fields := fields[key := field];
    }
    assert order[..|order|] == order;
    FieldsOfUnique(data, fields);
  }

  /**
   * `_extract_document_fields(doc_type, images, announcement_date)`, with the model's answer
   * and the key order of the parsed answer as parameters.
   */
  method ExtractDocumentFields(docType: DocType, imageCount: nat, response: Response, order: seq<string>)
    returns (result: DocumentExtraction)
    requires response.Parsed? ==> KeyOrder(AnswerData(response.value), order)
    ensures result.docType == docType && result.pageNumbers == []
    ensures imageCount == 0 ==> result == DocumentExtraction(docType, [], map[], map[], 0.0, [])
    ensures imageCount > 0 && response.Raised? ==>
      result.rawData == map["exists" := Bool(true)] && result.overallConfidence == 0.5 && result.fields == map[]
      && result.extractionNotes == [Label(docType) + ": 추출 오류 - " + response.message]
    ensures imageCount > 0 && response.Parsed? ==>
      result.rawData == AnswerData(response.value) && result.fields == FieldsOf(result.rawData)
      && result.overallConfidence == Mean(Confidences(result.rawData, order)) && result.extractionNotes == []
    ensures 0.0 <= result.overallConfidence <= 1.0
  {
    result := DocumentExtraction(docType, [], map[], map[], 0.0, []);
    if imageCount == 0 {
      return;
    }
    if response.Raised? {
      result := result.(rawData := map["exists" := Bool(true)], overallConfidence := 0.5,
                        extractionNotes := [Label(docType) + ": 추출 오류 - " + response.message]);
      return;
    }
    var data := AnswerData(response.value);
    var fields, confidences := CollectFields(data, order);
    var overall := Mean(confidences);
    result := result.(rawData := data, fields := fields, overallConfidence := overall);
  }
}
